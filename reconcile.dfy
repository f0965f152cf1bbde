/** Running a handler of config/inngest.js against the user store: the
    `try` block (destructure `event.data`, decide, make the one store call)
    and the `catch` that logs every failure and returns normally.

    The store is models/User behind config/db, neither of which is part of
    this model. Its behaviour here is an ASSUMPTION, stated in Perform: documents are keyed by `_id`; `create` of a stored `_id`
    fails with a duplicate-key error; update and delete of a missing id
    succeed and change nothing; a call that fails changes nothing. A
    second assumption sits in the update document (UserSync.UserPatch):
    an `email` key whose value is `undefined` is dropped, not stored. */
module Reconcile {
  import opened Js
  import opened UserSync

  /** The users collection, by `_id`. */
  type Store = map<string, UserRecord>

  /** Every stored document sits under its own `_id`. */
  ghost predicate KeyedById(s: Store)
  {
    forall k :: k in s ==> s[k].id == k
  }

  /** Every store entry other than `key` is the same in both stores. */
  ghost predicate SameExcept(s: Store, t: Store, key: string)
  {
    forall k :: k != key ==> (k in s <==> k in t) && (k in s ==> s[k] == t[k])
  }

  /** What a handler can throw inside its `try` block. */
  datatype Failure =
    | TypeError             // destructuring a nullish `event.data`
    | DuplicateKey(id: string)  // `User.create` of an `_id` already stored
    | StoreFault            // `connectDB` or the store call failed otherwise

  datatype StoreReply = Ack(store: Store) | Rejected(cause: Failure)

  /** The id an operation targets. */
  function Target(op: Op): string
  {
    match op
    case Create(rec) => rec.id
    case Update(id, _) => id
    case Delete(id) => id
  }

  /** `findByIdAndUpdate` on a stored document: keys present in the update
      document overwrite, keys left out keep their stored value. */
  function ApplyPatch(rec: UserRecord, p: UserPatch): (r: UserRecord)
    ensures r.id == rec.id && r.name == p.name && r.imageUrl == p.imageUrl
    ensures p.email.Omitted? ==> r.email == rec.email
    ensures p.email.Set? ==> r.email == p.email.value
  {
    UserRecord(rec.id, match p.email case Set(e) => e case Omitted => rec.email, p.name, p.imageUrl)
  }

  /** Applying the same update document twice is applying it once. */
  lemma PatchIdempotent(rec: UserRecord, p: UserPatch)
    ensures ApplyPatch(ApplyPatch(rec, p), p) == ApplyPatch(rec, p)
  {
  }

  /** The assumed store semantics of one call (`fault` stands for a failure
      of the connection or of the database, which this model cannot see). */
  function Perform(s: Store, op: Op, fault: bool): (r: StoreReply)
    ensures fault ==> r == Rejected(StoreFault)
    ensures r.Rejected? ==> fault || (op.Create? && op.record.id in s)
    ensures r.Ack? ==> SameExcept(s, r.store, Target(op))
    ensures r.Ack? && KeyedById(s) ==> KeyedById(r.store)
    ensures r.Ack? && op.Create? ==> Target(op) in r.store && r.store[Target(op)] == op.record
    ensures r.Ack? && op.Delete? ==> Target(op) !in r.store
    ensures r.Ack? && op.Update? ==>
      (Target(op) in r.store <==> Target(op) in s) &&
      (Target(op) in s ==> r.store[Target(op)] == ApplyPatch(s[Target(op)], op.patch))
  {
    if fault then
      Rejected(StoreFault)
    else
      match op
      case Create(rec) =>
        if rec.id in s then Rejected(DuplicateKey(rec.id)) else Ack(s[rec.id := rec])
      case Update(id, p) =>
        Ack(if id in s then s[id := ApplyPatch(s[id], p)] else s)
      case Delete(id) =>
        Ack(s - {id})
  }

  /** The three registered functions. */
  datatype Handler = OnCreated | OnUpdated | OnDeleted

  /** The delivered event; only `data` is read. */
  datatype Event = Event(data: Option<UserData>)

  /** What a handler leaves in the log: nothing, a `console.warn` about an
      invalid event, or a `console.error` with the caught failure. */
  datatype Log = Quiet | Warned | Logged(cause: Failure)

  /** How a block of the handler ends: normally, or by a thrown failure. */
  datatype Completion = Normal(store: Store, log: Log) | Abrupt(cause: Failure)

  /** The decision of each registered function. */
  function Decide(h: Handler, data: UserData): Option<Op>
  {
    match h
    case OnCreated => SyncUserCreation(data)
    case OnUpdated => SyncUserUpdation(data)
    case OnDeleted => SyncUserDeletion(data)
  }

  /** The handler's `try` block: destructure `event.data` (which throws
      when it is nullish), return with a warning when the event is
      rejected, otherwise make the one store call. */
  function Body(h: Handler, event: Event, s: Store, fault: bool): Completion
  {
    match event.data
    case None => Abrupt(TypeError)
    case Some(data) =>
      match Decide(h, data)
      case None => Normal(s, Warned)
      case Some(op) =>
        match Perform(s, op, fault)
        case Ack(s') => Normal(s', Quiet)
        case Rejected(cause) => Abrupt(cause)
  }

  /** A whole handler, `try { … } catch (error) { console.error(…) }`: it
      always returns normally; it warns exactly on a rejected event, logs
      an error on every thrown failure, and only a clean store call
      changes the store, to what that call makes of it. Without a fault,
      a valid event ends quietly unless it creates an id already stored. */
  function Handle(h: Handler, event: Event, s: Store, fault: bool): (r: Completion)
    ensures r.Normal?
    ensures r.log.Warned? <==> event.data.Some? && Decide(h, event.data.value).None?
    ensures event.data.None? ==> r == Normal(s, Logged(TypeError))
    ensures fault ==> r.store == s
    ensures !r.log.Quiet? ==> r.store == s
    ensures r.log.Quiet? ==> event.data.Some? && Decide(h, event.data.value).Some?
    ensures KeyedById(s) ==> KeyedById(r.store)
    ensures r.log.Quiet? ==>
      var reply := Perform(s, Decide(h, event.data.value).value, fault);
      reply.Ack? && r.store == reply.store
    ensures event.data.Some? && Decide(h, event.data.value).Some? && !fault ==>
      var op := Decide(h, event.data.value).value;
      (r.log.Quiet? <==> !(op.Create? && Target(op) in s))
  {
    match Body(h, event, s, fault)
    case Abrupt(cause) => Normal(s, Logged(cause))
    case Normal(s', log) => Normal(s', log)
  }

  /** Only the record of the event's own id can change. */
  lemma HandleTouchesOnlyItsId(h: Handler, event: Event, s: Store, fault: bool)
    requires event.data.Some? && event.data.value.id.Some?
    ensures SameExcept(s, Handle(h, event, s, fault).store, event.data.value.id.value)
  {
  }

  /** A valid creation of a new id stores exactly the record the event
      describes; a creation of a stored id is logged and changes nothing. */
  lemma CreationEffect(event: Event, s: Store)
    requires event.data.Some? && SyncUserCreation(event.data.value).Some?
    ensures var data := event.data.value;
      var id := data.id.value;
      var r := Handle(OnCreated, event, s, false);
      if id in s then r == Normal(s, Logged(DuplicateKey(id)))
      else r.log == Quiet && r.store == s[id := UserRecord(id,
        data.emailAddresses.value[0].emailAddress.value,
        NormalizeName(data.firstName, data.lastName),
        data.imageUrl)]
  {
  }

  /** A valid update of a stored id rewrites name and image, and rewrites
      the email only when the event carries a first address; an update of
      a missing id succeeds quietly and changes nothing. */
  lemma UpdateEffect(event: Event, s: Store)
    requires event.data.Some? && SyncUserUpdation(event.data.value).Some?
    ensures var data := event.data.value;
      var id := data.id.value;
      var r := Handle(OnUpdated, event, s, false);
      && r.log == Quiet
      && (id !in s ==> r.store == s)
      && (id in s ==> r.store == s[id := s[id].(
            email := Coalesce(FirstAddress(data.emailAddresses), s[id].email),
            name := NormalizeName(data.firstName, data.lastName),
            imageUrl := data.imageUrl)])
  {
  }

  /** A valid deletion removes its id, stored or not, and ends quietly. */
  lemma DeletionEffect(event: Event, s: Store)
    requires event.data.Some? && SyncUserDeletion(event.data.value).Some?
    ensures Handle(OnDeleted, event, s, false) == Normal(s - {event.data.value.id.value}, Quiet)
  {
  }

  /** A store call repeated on the store its first success left behind
      either changes nothing or is rejected. */
  lemma RepeatedCallChangesNothing(s: Store, op: Op, fault: bool)
    requires Perform(s, op, false).Ack?
    ensures var once := Perform(s, op, false).store;
      Perform(once, op, fault).Rejected? || Perform(once, op, fault).store == once
  {
  }

  /** Delivering the same event a second time, after a first delivery that
      met no store failure, never throws and changes nothing more: creation
      meets its own record, update rewrites the same values, deletion finds
      nothing to delete. */
  lemma RedeliveryIsHarmless(h: Handler, event: Event, s: Store, fault: bool)
    ensures var once := Handle(h, event, s, false).store;
      Handle(h, event, once, fault).store == once
  {
  }

  /** An update delivered before the creation of its user is a quiet no-op
      and does not change what the creation then stores. */
  lemma UpdateBeforeCreation(update: Event, create: Event, s: Store, fault: bool)
    requires update.data.Some? && create.data.Some?
    requires update.data.value.id == create.data.value.id
    requires create.data.value.id.Some? && create.data.value.id.value !in s
    ensures var early := Handle(OnUpdated, update, s, fault);
      && (!fault ==> early.log.Quiet? || early.log.Warned?)
      && early.store == s
      && Handle(OnCreated, create, early.store, false) == Handle(OnCreated, create, s, false)
  {
  }

  /** A deletion delivered before the creation of its user is a quiet
      no-op and does not change what the creation then stores. */
  lemma DeletionBeforeCreation(delete: Event, create: Event, s: Store, fault: bool)
    requires delete.data.Some? && create.data.Some?
    requires delete.data.value.id == create.data.value.id
    requires create.data.value.id.Some? && create.data.value.id.value !in s
    ensures var early := Handle(OnDeleted, delete, s, fault);
      && (!fault ==> early.log.Quiet? || early.log.Warned?)
      && early.store == s
      && Handle(OnCreated, create, early.store, false) == Handle(OnCreated, create, s, false)
  {
  }
}
