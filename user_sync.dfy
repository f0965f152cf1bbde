/** The three identity-provider event handlers of config/inngest.js, each
    reduced to the decision it makes: from the destructured `event.data`
    to the one store operation it issues, or none when it rejects the
    event. Executing that operation against the store, and the try/catch
    around each handler, are in module Reconcile. */
module UserSync {
  import opened Js

  /** One element of `email_addresses`. A `null` element reads, through
      `?.`, exactly like an element whose `email_address` is missing. */
  datatype EmailEntry = EmailEntry(emailAddress: Option<string>)

  /** `event.data` after `const { id, first_name, last_name,
      email_addresses, image_url } = event.data`. */
  datatype UserData = UserData(
    id: Option<string>,
    firstName: Option<string>,
    lastName: Option<string>,
    emailAddresses: Option<seq<EmailEntry>>,
    imageUrl: Option<string>)

  /** The document handed to `User.create`; `imageUrl == None` is `null`. */
  datatype UserRecord = UserRecord(id: string, email: string, name: string, imageUrl: Option<string>)

  /** A key of an update document: left out of it, or set to a value. */
  datatype Field<+T> = Omitted | Set(value: T)

  /** The document handed to `User.findByIdAndUpdate`. `email` may be
      left out (the stored email is kept); `name` and `imageUrl` are always
      written, `imageUrl == None` writing an explicit `null`. There is no
      id among its keys: the target is passed separately.
      The source always writes an `email` key, whose value is `undefined`
      when there is no address. `Omitted` stands for that key on the
      ASSUMPTION that the store drops `undefined` values from an update
      instead of writing them as `null`. */
  datatype UserPatch = UserPatch(email: Field<string>, name: string, imageUrl: Option<string>)

  /** The one store call a handler makes. */
  datatype Op =
    | Create(record: UserRecord)
    | Update(id: string, patch: UserPatch)
    | Delete(id: string)

  /** `email_addresses?.[0]?.email_address`. */
  function FirstAddress(emails: Option<seq<EmailEntry>>): Option<string>
  {
    match emails
    case None => None
    case Some(list) => if |list| == 0 then None else list[0].emailAddress
  }

  /** `${first_name ?? ""} ${last_name ?? ""}`.trim(), shared by creation
      and update. Never nullish, and never starts or ends with whitespace. */
  function NormalizeName(first: Option<string>, last: Option<string>): (name: string)
    ensures Stripped(name)
  {
    Trim(Coalesce(first, "") + " " + Coalesce(last, ""))
  }

  /** syncUserCreation: rejected unless `id` is non-empty and the first
      email entry has a non-empty address; otherwise one `Create` of the
      full record, taking the email from the first entry only. */
  function SyncUserCreation(data: UserData): (op: Option<Op>)
    ensures op.Some? <==>
      && data.id.Some? && data.id.value != ""
      && data.emailAddresses.Some? && |data.emailAddresses.value| > 0
      && data.emailAddresses.value[0].emailAddress.Some?
      && data.emailAddresses.value[0].emailAddress.value != ""
    ensures op.Some? ==> op.value == Create(UserRecord(
      data.id.value,
      data.emailAddresses.value[0].emailAddress.value,
      NormalizeName(data.firstName, data.lastName),
      data.imageUrl))
  {
    if Falsy(data.id) || data.emailAddresses.None? || Falsy(FirstAddress(data.emailAddresses)) then
      None
    else
      Some(Create(UserRecord(
        data.id.value,
        FirstAddress(data.emailAddresses).value,
        NormalizeName(data.firstName, data.lastName),
        data.imageUrl)))
  }

  /** syncUserUpdation: rejected only when `id` is nullish or empty;
      otherwise one `Update` of that id. The patch carries the first
      entry's address whenever it is not nullish (so also `""`) and leaves
      `email` out otherwise; `name` and `imageUrl` are always written. */
  function SyncUserUpdation(data: UserData): (op: Option<Op>)
    ensures op.Some? <==> data.id.Some? && data.id.value != ""
    ensures op.Some? ==> op.value.Update? && op.value.id == data.id.value
    ensures op.Some? ==>
      var p := op.value.patch;
      && (p.email.Set? <==>
            data.emailAddresses.Some? && |data.emailAddresses.value| > 0
            && data.emailAddresses.value[0].emailAddress.Some?)
      && (p.email.Set? ==> p.email.value == data.emailAddresses.value[0].emailAddress.value)
      && p.name == NormalizeName(data.firstName, data.lastName)
      && p.imageUrl == data.imageUrl
  {
    if Falsy(data.id) then
      None
    else
      var email := match FirstAddress(data.emailAddresses)
        case Some(a) => Set(a)
        case None => Omitted;
      Some(Update(data.id.value, UserPatch(email, NormalizeName(data.firstName, data.lastName), data.imageUrl)))
  }

  /** syncUserDeletion: rejected when `id` is nullish or empty, otherwise
      exactly `Delete(id)`. */
  function SyncUserDeletion(data: UserData): (op: Option<Op>)
    ensures op == if data.id.Some? && data.id.value != "" then Some(Delete(data.id.value)) else None
  {
    if Falsy(data.id) then None else Some(Delete(data.id.value))
  }

  /** The deletion handler reads `id` and nothing else of the event. */
  lemma DeletionReadsOnlyId(d1: UserData, d2: UserData)
    requires d1.id == d2.id
    ensures SyncUserDeletion(d1) == SyncUserDeletion(d2)
  {
  }

  /** Creation looks at the first email entry only. */
  lemma CreationIgnoresLaterEmails(data: UserData, first: EmailEntry, rest: seq<EmailEntry>)
    requires data.emailAddresses == Some([first] + rest)
    ensures SyncUserCreation(data) == SyncUserCreation(data.(emailAddresses := Some([first])))
  {
  }

  /** When both name parts are nullish the name is the empty string. */
  lemma NameOfNoParts()
    ensures NormalizeName(None, None) == ""
  {
  }

  /** A missing last name adds nothing: the name is the first name trimmed. */
  lemma NameOfFirstOnly(first: string)
    ensures NormalizeName(Some(first), None) == Trim(first)
  {
    assert first + " " + "" == first + " ";
    TrimIgnoresTrailingSpace(first, " ");
  }

  /** A missing first name adds nothing: the name is the last name trimmed. */
  lemma NameOfLastOnly(last: string)
    ensures NormalizeName(None, Some(last)) == Trim(last)
  {
  }

  /** Two non-empty parts without surrounding whitespace are joined by
      exactly one space. */
  lemma NameOfCleanParts(first: string, last: string)
    requires first != [] && last != [] && Stripped(first) && Stripped(last)
    ensures NormalizeName(Some(first), Some(last)) == first + " " + last
  {
  }
}
