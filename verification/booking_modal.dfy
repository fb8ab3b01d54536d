/**
 The booking-inquiry modal of the photo-booth site: a visibility flag, a
 seven-field draft and the log of toast notifications, with the transitions the
 page wires to its buttons and form widgets. Submission is one atomic step whose
 network outcome is a parameter.
 */
module BookingModal {

  /** The options of the booth-type select, in the order they are listed. */
  const ClassicPrintBooth: string := "Classic Print Booth"
  const PortraitPrintBooth: string := "Portrait Print Booth"
  const VideoBooth360: string := "360 Video Booth"
  const BoothOptions: seq<string> := [ClassicPrintBooth, PortraitPrintBooth, VideoBooth360]

  /** Toast texts shown after a submission. */
  const SuccessText: string := "Booking inquiry submitted successfully! We'll contact you soon."
  const FailureText: string := "Failed to submit booking. Please try again."

  /** The booking inquiry being edited; also the JSON body that is posted. */
  datatype Draft = Draft(
    name: string,
    email: string,
    phone: string,
    event_type: string,
    event_date: string,
    booth_type: string,
    message: string)

  /** The form widget bound to each draft field. */
  datatype Field = Name | Email | Phone | EventType | EventDate | BoothType | Message

  /** The seven "Book" buttons of the page; each one only shows the modal. */
  datatype Trigger =
    | NavBookNow | HeroBookNow | PortraitBoothBook | VideoBoothBook
    | ClassicBoothBook | FinalCtaBookNow | FooterBookOnline

  /** The two ways of dismissing the modal without submitting. */
  datatype Dismiss = CloseCross | CancelButton

  /** What the network call of a submission came back with. */
  datatype Outcome = Success | Failure

  datatype Notification = SuccessToast(text: string) | ErrorToast(text: string)

  datatype State = State(visible: bool, draft: Draft, notifications: seq<Notification>)

  /** A user event: a button press, a widget change or a form submission. */
  datatype Event =
    | Press(trigger: Trigger)
    | Dismissal(button: Dismiss)
    | Change(field: Field, value: string)
    | SubmitForm(outcome: Outcome)

  /** The value of one field of a draft. */
  function Get(d: Draft, f: Field): string
  {
    match f
    case Name => d.name
    case Email => d.email
    case Phone => d.phone
    case EventType => d.event_type
    case EventDate => d.event_date
    case BoothType => d.booth_type
    case Message => d.message
  }

  /** The draft the page starts with and restores after a successful submission. */
  function DefaultDraft(): (d: Draft)
    ensures forall f :: f != BoothType ==> Get(d, f) == ""
    ensures Get(d, BoothType) == ClassicPrintBooth
  {
    Draft("", "", "", "", "", ClassicPrintBooth, "")
  }

  /** A draft whose field `f` is replaced by `v`, all other fields kept. */
  function SetField(d: Draft, f: Field, v: string): (r: Draft)
    ensures Get(r, f) == v
    ensures forall g :: g != f ==> Get(r, g) == Get(d, g)
  {
    match f
    case Name => d.(name := v)
    case Email => d.(email := v)
    case Phone => d.(phone := v)
    case EventType => d.(event_type := v)
    case EventDate => d.(event_date := v)
    case BoothType => d.(booth_type := v)
    case Message => d.(message := v)
  }

  /** The page as first rendered: modal hidden, default draft, no toasts. */
  function Initial(): (s: State)
    ensures !s.visible && s.notifications == []
    ensures forall f :: f != BoothType ==> Get(s.draft, f) == ""
    ensures Get(s.draft, BoothType) == ClassicPrintBooth
  {
    State(false, DefaultDraft(), [])
  }

  /** Any "Book" button: show the modal, whatever it showed before. */
  function Open(s: State, t: Trigger): (r: State)
    ensures r.visible
    ensures r.draft == s.draft && r.notifications == s.notifications
  {
    s.(visible := true)
  }

  /** The × button and the Cancel button: hide the modal. The draft is kept. */
  function Close(s: State, b: Dismiss): (r: State)
    ensures !r.visible
    ensures r.draft == s.draft && r.notifications == s.notifications
  {
    s.(visible := false)
  }

  /** The `onChange` handler of one form widget. */
  function Edit(s: State, f: Field, v: string): (r: State)
    ensures Get(r.draft, f) == v
    ensures forall g :: g != f ==> Get(r.draft, g) == Get(s.draft, g)
    ensures r.visible == s.visible && r.notifications == s.notifications
  {
    s.(draft := SetField(s.draft, f, v))
  }

  /** The fields carrying the `required` attribute on a text input. */
  predicate RequiredFilled(d: Draft)
  {
    d.name != "" && d.email != "" && d.phone != "" && d.event_type != "" && d.event_date != ""
  }

  /** A submission: the draft that was posted and the state once the call returned. */
  datatype Submission = Submission(posted: Draft, after: State)

  /**
   The form's submit handler, with the network call collapsed into its outcome.
   The browser only lets the form submit once every required input is filled.
   */
  function Submit(s: State, o: Outcome): (r: Submission)
    requires RequiredFilled(s.draft)
    ensures r.posted == s.draft
    ensures o == Success ==>
      && !r.after.visible
      && r.after.draft == DefaultDraft()
      && r.after.notifications == s.notifications + [SuccessToast(SuccessText)]
    ensures o == Failure ==>
      && r.after.visible == s.visible
      && r.after.draft == s.draft
      && r.after.notifications == s.notifications + [ErrorToast(FailureText)]
  {
    match o
    case Success =>
      Submission(s.draft, State(false, DefaultDraft(), s.notifications + [SuccessToast(SuccessText)]))
    case Failure =>
      Submission(s.draft, s.(notifications := s.notifications + [ErrorToast(FailureText)]))
  }

  /** An event the page's own widgets can produce: the booth select only offers its options. */
  predicate FromWidgets(e: Event)
  {
    e.Change? && e.field == BoothType ==> e.value in BoothOptions
  }

  /**
   One user event. The form widgets exist only while the modal is shown, so a
   change or a submission while it is hidden does nothing; a submission with an
   empty required input is stopped by the browser and does nothing either.
   */
  function Dispatch(s: State, e: Event): (r: State)
    ensures s.notifications <= r.notifications
    ensures |r.notifications| <= |s.notifications| + 1
    ensures !e.SubmitForm? ==> r.notifications == s.notifications
    ensures FromWidgets(e) && s.draft.booth_type in BoothOptions ==> r.draft.booth_type in BoothOptions
  {
    match e
    case Press(t) => Open(s, t)
    case Dismissal(b) => Close(s, b)
    case Change(f, v) => if s.visible then Edit(s, f, v) else s
    case SubmitForm(o) => if s.visible && RequiredFilled(s.draft) then Submit(s, o).after else s
  }

  /** The state after a sequence of events, the first one handled first. */
  function Run(s: State, es: seq<Event>): State
    decreases |es|
  {
    if |es| == 0 then s else Run(Dispatch(s, es[0]), es[1..])
  }

  /** Handling one more event extends a run by one dispatch. */
  lemma {:induction false} RunAppend(s: State, es: seq<Event>, e: Event)
    ensures Run(s, es + [e]) == Dispatch(Run(s, es), e)
    decreases |es|
  {
    if |es| == 0 {
      assert es + [e] == [e];
    } else {
      assert (es + [e])[1..] == es[1..] + [e];
      RunAppend(Dispatch(s, es[0]), es[1..], e);
    }
  }

  /** The value a field holds after a sequence of events: its most recent change, else its start value. */
  function LatestValue(d: Draft, es: seq<Event>, f: Field): string
    decreases |es|
  {
    if |es| == 0 then Get(d, f)
    else
      var last := es[|es| - 1];
      if last.Change? && last.field == f then last.value
      else LatestValue(d, es[..|es| - 1], f)
  }

  /**
   While the modal is open, a sequence of widget changes leaves every field at
   its most recent value (fields never changed keep theirs) and touches
   neither visibility nor the toasts.
   */
  lemma {:induction false} LastChangeWins(s: State, es: seq<Event>, f: Field)
    requires s.visible
    requires forall i :: 0 <= i < |es| ==> es[i].Change?
    ensures Run(s, es).visible
    ensures Run(s, es).notifications == s.notifications
    ensures Get(Run(s, es).draft, f) == LatestValue(s.draft, es, f)
    decreases |es|
  {
    if |es| > 0 {
      var init, last := es[..|es| - 1], es[|es| - 1];
      assert es == init + [last];
      LastChangeWins(s, init, f);
      RunAppend(s, init, last);
    }
  }

  /** Events from the page's widgets never put a booth type outside the select's options. */
  lemma {:induction false} BoothTypeStaysOffered(s: State, es: seq<Event>)
    requires s.draft.booth_type in BoothOptions
    requires forall i :: 0 <= i < |es| ==> FromWidgets(es[i])
    ensures Run(s, es).draft.booth_type in BoothOptions
    decreases |es|
  {
    if |es| > 0 {
      BoothTypeStaysOffered(Dispatch(s, es[0]), es[1..]);
    }
  }

  /** Every state reached from the initial page offers a valid booth type. */
  lemma ReachableBoothTypeOffered(es: seq<Event>)
    requires forall i :: 0 <= i < |es| ==> FromWidgets(es[i])
    ensures Run(Initial(), es).draft.booth_type in BoothOptions
  {
    BoothTypeStaysOffered(Initial(), es);
  }

  /** The number of form submissions in a sequence of events. */
  function SubmitCount(es: seq<Event>): nat
    decreases |es|
  {
    if |es| == 0 then 0 else (if es[0].SubmitForm? then 1 else 0) + SubmitCount(es[1..])
  }

  /**
   Toasts are only ever appended, and at most one per submission attempt;
   without a submission none is shown.
   */
  lemma {:induction false} ToastsPerSubmission(s: State, es: seq<Event>)
    ensures s.notifications <= Run(s, es).notifications
    ensures |Run(s, es).notifications| <= |s.notifications| + SubmitCount(es)
    decreases |es|
  {
    if |es| > 0 {
      ToastsPerSubmission(Dispatch(s, es[0]), es[1..]);
    }
  }

  /** All seven "Book" buttons have the same effect, and pressing twice is pressing once. */
  lemma OpenIsIdempotent(s: State, t1: Trigger, t2: Trigger)
    ensures Open(s, t1) == Open(s, t2)
    ensures Open(Open(s, t1), t2) == Open(s, t1)
  {
  }

  /** Dismissing and reopening shows the draft as it was left: × and Cancel do not reset it. */
  lemma ReopenAfterDismissKeepsDraft(s: State, b: Dismiss, t: Trigger)
    ensures Open(Close(s, b), t).draft == s.draft
    ensures Open(Close(s, b), t) == Open(s, t)
  {
  }

  /** Only a successful submission brings the default draft back on the next opening. */
  lemma ReopenAfterSuccessShowsDefaults(s: State, t: Trigger)
    requires RequiredFilled(s.draft)
    ensures Open(Submit(s, Success).after, t).draft == DefaultDraft()
  {
  }

  /**
   With the modal open and the form filled, a submission hides the modal
   exactly when it succeeds, and the one toast it adds tells which.
   */
  lemma SubmitOutcomeDecidesVisibility(s: State, o: Outcome)
    requires s.visible && RequiredFilled(s.draft)
    ensures !Dispatch(s, SubmitForm(o)).visible <==> o == Success
    ensures Dispatch(s, SubmitForm(o)).notifications[|s.notifications|].SuccessToast? <==> o == Success
  {
  }

  /** Opening the modal from the hero button and typing every field of `d`, in form order. */
  function FillingEvents(d: Draft): seq<Event>
  {
    [ Press(HeroBookNow),
      Change(Name, d.name), Change(Email, d.email), Change(Phone, d.phone),
      Change(EventType, d.event_type), Change(EventDate, d.event_date),
      Change(BoothType, d.booth_type), Change(Message, d.message) ]
  }

  /** In the open modal, the widget change at position `k` of a run is one `Edit`. */
  lemma ChangeStep(s: State, es: seq<Event>, k: nat)
    requires s.visible && k < |es| && es[k].Change?
    ensures Run(s, es[k..]) == Run(Edit(s, es[k].field, es[k].value), es[k + 1..])
  {
  }

  /** Opening the modal and typing the four contact and event-type fields. */
  lemma FilledInFront(s: State, d: Draft)
    ensures Run(s, FillingEvents(d))
         == Run(State(true, s.draft.(name := d.name, email := d.email, phone := d.phone, event_type := d.event_type),
                      s.notifications),
                FillingEvents(d)[5..])
  {
    var es := FillingEvents(d);
    var s1 := State(true, s.draft, s.notifications);
    var s2 := Edit(s1, Name, d.name);
    var s3 := Edit(s2, Email, d.email);
    var s4 := Edit(s3, Phone, d.phone);
    calc {
      Run(s, es);
      Run(s1, es[1..]);
      { ChangeStep(s1, es, 1); }
      Run(s2, es[2..]);
      { ChangeStep(s2, es, 2); }
      Run(s3, es[3..]);
      { ChangeStep(s3, es, 3); }
      Run(s4, es[4..]);
      { ChangeStep(s4, es, 4); }
      Run(Edit(s4, EventType, d.event_type), es[5..]);
    }
  }

  /** Typing the event date, booth type and message into the open modal. */
  lemma FilledInBack(t: State, d: Draft)
    requires t.visible
    ensures Run(t, FillingEvents(d)[5..])
         == State(true, t.draft.(event_date := d.event_date, booth_type := d.booth_type, message := d.message),
                  t.notifications)
  {
    var es := FillingEvents(d);
    var t6 := Edit(t, EventDate, d.event_date);
    var t7 := Edit(t6, BoothType, d.booth_type);
    calc {
      Run(t, es[5..]);
      { ChangeStep(t, es, 5); }
      Run(t6, es[6..]);
      { ChangeStep(t6, es, 6); }
      Run(t7, es[7..]);
      { ChangeStep(t7, es, 7); }
      Run(Edit(t7, Message, d.message), es[8..]);
    }
  }

  /** Opening the modal and filling in the form leaves it open, holding exactly the typed draft. */
  lemma FilledIn(s: State, d: Draft)
    ensures Run(s, FillingEvents(d)) == State(true, d, s.notifications)
  {
    FilledInFront(s, d);
    FilledInBack(State(true, s.draft.(name := d.name, email := d.email, phone := d.phone, event_type := d.event_type),
                       s.notifications), d);
  }

  /**
   Opening the modal, filling in a complete inquiry and submitting it: on
   success the modal closes with the defaults back and one success toast; on
   failure it stays open with the inquiry intact and one error toast.
   */
  lemma FillAndSubmit(s: State, d: Draft, o: Outcome)
    requires RequiredFilled(d)
    ensures o == Success ==>
      Run(s, FillingEvents(d) + [SubmitForm(o)]) == State(false, DefaultDraft(), s.notifications + [SuccessToast(SuccessText)])
    ensures o == Failure ==>
      Run(s, FillingEvents(d) + [SubmitForm(o)]) == State(true, d, s.notifications + [ErrorToast(FailureText)])
  {
    RunAppend(s, FillingEvents(d), SubmitForm(o));
    FilledIn(s, d);
  }

  /** A complete wedding inquiry. */
  function WeddingDraft(): (d: Draft)
    ensures RequiredFilled(d) && d.booth_type == PortraitPrintBooth && d.message == ""
  {
    Draft("Jane Doe", "jane@example.com", "555-1234", "Wedding", "2025-06-01", PortraitPrintBooth, "")
  }

  /** The wedding inquiry accepted by the endpoint: modal closed, defaults back, one success toast. */
  lemma WeddingInquiryAccepted()
    ensures Run(Initial(), FillingEvents(WeddingDraft()) + [SubmitForm(Success)])
         == State(false, DefaultDraft(), [SuccessToast(SuccessText)])
  {
    FillAndSubmit(Initial(), WeddingDraft(), Success);
  }

  /** The wedding inquiry refused by the endpoint: modal open, draft intact, one error toast. */
  lemma WeddingInquiryRefused()
    ensures Run(Initial(), FillingEvents(WeddingDraft()) + [SubmitForm(Failure)])
         == State(true, WeddingDraft(), [ErrorToast(FailureText)])
  {
    FillAndSubmit(Initial(), WeddingDraft(), Failure);
  }
}
