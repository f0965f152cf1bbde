/** Concrete deliveries, each worked through the handlers and the store. */
module Scenarios {
  import opened Js
  import opened UserSync
  import opened Reconcile

  /** An event whose `data` carries the given fields. */
  function Payload(id: Option<string>, first: Option<string>, last: Option<string>,
                   emails: Option<seq<EmailEntry>>, image: Option<string>): Event
  {
    Event(Some(UserData(id, first, last, emails, image)))
  }

  /** A creation event for a new id, with a non-empty address and two
      non-empty names without surrounding whitespace, stores the record
      whose name is the two names joined by one space. */
  lemma CreateWithFullName(id: string, first: string, last: string,
                           email: string, image: Option<string>, s: Store)
    requires id != "" && id !in s && email != ""
    requires first != [] && last != [] && Stripped(first) && Stripped(last)
    ensures Handle(OnCreated, Payload(Some(id), Some(first), Some(last), Some([EmailEntry(Some(email))]), image), s, false)
      == Normal(s[id := UserRecord(id, email, first + " " + last, image)], Quiet)
  {
  }

  /** A creation event without email addresses is rejected with a warning. */
  lemma CreateWithoutEmails(s: Store)
    ensures Handle(OnCreated, Payload(Some("u1"), None, None, None, None), s, false) == Normal(s, Warned)
  {
  }

  /** An update carrying only an id and a first name writes that name and
      a null image, and leaves the email out of the update document. */
  lemma UpdateFirstNameOnly(id: string, first: string)
    requires id != "" && Stripped(first)
    ensures SyncUserUpdation(UserData(Some(id), Some(first), None, None, None))
      == Some(Update(id, UserPatch(Omitted, first, None)))
  {
    assert first[0..|first|] == first;
    TrimUnique(first, 0, |first|);
    NameOfFirstOnly(first);
  }

  /** A deletion event without an id is rejected with a warning. */
  lemma DeleteWithoutId(s: Store)
    ensures Handle(OnDeleted, Payload(None, None, None, None, None), s, false) == Normal(s, Warned)
  {
  }

  /** A deletion of an id the store does not hold completes quietly. */
  lemma DeleteUnknownUser(s: Store)
    requires "u1" !in s
    ensures Handle(OnDeleted, Payload(Some("u1"), None, None, None, None), s, false) == Normal(s, Quiet)
  {
  }

  /** An event delivered without `data` is caught, logged, and changes nothing. */
  lemma MissingData(h: Handler, s: Store, fault: bool)
    ensures Handle(h, Event(None), s, fault) == Normal(s, Logged(TypeError))
  {
  }
}
