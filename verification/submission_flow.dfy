/**
 The path of one booking inquiry from the modal to the database: the draft is
 posted as a JSON object with its seven keys, the booking endpoint validates it
 and stores it.
 */
module SubmissionFlow {
  import M = BookingModal
  import A = BookingApi

  /** The JSON object the modal posts: one string per draft field, under the field's own key. */
  function RequestBody(d: M.Draft): (body: A.JsonObject)
    ensures body.Keys == A.BookingRequiredKeys + {"message"}
    ensures A.Carries(body, "name", A.Some(d.name)) && A.Carries(body, "email", A.Some(d.email))
    ensures A.Carries(body, "phone", A.Some(d.phone)) && A.Carries(body, "event_type", A.Some(d.event_type))
    ensures A.Carries(body, "event_date", A.Some(d.event_date)) && A.Carries(body, "booth_type", A.Some(d.booth_type))
    ensures A.Carries(body, "message", A.Some(d.message))
  {
    map["name" := A.JStr(d.name), "email" := A.JStr(d.email), "phone" := A.JStr(d.phone),
        "event_type" := A.JStr(d.event_type), "event_date" := A.JStr(d.event_date),
        "booth_type" := A.JStr(d.booth_type), "message" := A.JStr(d.message)]
  }

  /** The draft a stored booking was posted from, or None when it holds something a draft cannot. */
  function DraftOf(b: A.Booking): (r: A.Option<M.Draft>)
  {
    match b.message
    case Some(m) => A.Some(M.Draft(b.name, b.email, b.phone, b.event_type, b.event_date, b.booth_type, m))
    case None => A.None
  }

  /**
   A posted draft whose address the email check accepts passes validation. The
   two keys the modal never sends, package type and location, come out as
   None; the message, empty or not, is kept as text; the address is stored in
   the checked form.
   */
  lemma PostedDraftValidates(d: M.Draft, checkEmail: A.EmailCheck)
    requires checkEmail(d.email).Some?
    ensures A.ParseBookingInput(RequestBody(d), checkEmail)
         == A.Some(A.BookingInput(d.name, checkEmail(d.email).value, d.phone, d.event_type, d.event_date,
                                  d.booth_type, A.None, A.None, A.Some(d.message)))
  {
    var body := RequestBody(d);
    assert "package_type" !in body && "location" !in body;
  }

  /**
   A posted draft whose address the email check refuses fails validation. The
   modal's outcome stays a separate parameter, not derived from this answer.
   */
  lemma PostedDraftRefused(d: M.Draft, checkEmail: A.EmailCheck)
    requires checkEmail(d.email).None?
    ensures A.ParseBookingInput(RequestBody(d), checkEmail) == A.None
  {
    assert !A.EmailAccepted(RequestBody(d), checkEmail);
  }

  /**
   A successful submission stores exactly one booking, which gives back the
   draft the user filled in, with the address in its checked form, and leaves
   the other collections alone. When the check is stable on its own output,
   re-running it on the stored record accepts the address unchanged.
   */
  lemma SubmittedDraftStored(s: M.State, st: A.Store, checkEmail: A.EmailCheck)
    requires M.RequiredFilled(s.draft) && checkEmail(s.draft.email).Some?
    ensures var sub := M.Submit(s, M.Success);
            var input := A.ParseBookingInput(RequestBody(sub.posted), checkEmail);
            && input.Some?
            && var h := A.CreateBooking(st, input.value);
               && h.store.bookings == st.bookings + [h.reply.record]
               && DraftOf(h.reply.record) == A.Some(s.draft.(email := checkEmail(s.draft.email).value))
               && (checkEmail(s.draft.email) == A.Some(s.draft.email) ==> DraftOf(h.reply.record) == A.Some(s.draft))
               && h.reply.record.package_type == A.None && h.reply.record.location == A.None
               && h.store.contacts == st.contacts && h.store.newsletter == st.newsletter
               && (A.RecheckStable(checkEmail) ==> checkEmail(h.reply.record.email) == A.Some(h.reply.record.email))
  {
    PostedDraftValidates(s.draft, checkEmail);
  }
}
