# QuickCart user sync, modelled in Dafny

QuickCart keeps a local copy of each user of its identity provider (Clerk).
Three event handlers in `config/inngest.js` do this work:
`syncUserCreation`, `syncUserUpdation` and `syncUserDeletion`. Each one
receives an event whose `data` holds `id`, `first_name`, `last_name`,
`email_addresses` and `image_url`. It checks the payload, builds at most
one store operation and makes that one call to the `User` model. Any
failure is caught and logged, and the handler returns normally.

The project has four modules:

- `Js` (`js.dfy`): the JavaScript semantics the handlers rely on. `null`
  and `undefined` are both `None`. `!x` on a string is "nullish or empty"
  (`Falsy`). `x ?? d` replaces only nullish values (`Coalesce`).
  `String.prototype.trim` is `Trim`, over ECMAScript's own set of
  whitespace and line-terminator code points. It is specified by
  `TrimmedSlice`, a definition independent of how `Trim` computes, and
  `TrimUnique` shows that this definition has a single answer.
- `UserSync` (`user_sync.dfy`): the payload (`UserData`, `EmailEntry`), the
  documents sent to the store (`UserRecord`, and `UserPatch` with its
  `Field` type that keeps "left out" apart from "set"), the operation `Op`,
  the shared `NormalizeName`, and the three handlers' decisions as
  functions from `UserData` to `Option<Op>`.
- `Reconcile` (`reconcile.dfy`): runs a handler against a store
  `map<string, UserRecord>`. `Body` is the `try` block: destructure
  `event.data` (a nullish `data` throws), warn and return on a rejected
  event, else make the one store call. `Handle` is the whole handler with
  its `catch`. The store's behaviour is an assumption, stated in
  `Perform`, because `models/User` and `config/db` are not part of this
  model. The assumption: documents are keyed by `_id`, and `create` of a
  stored `_id` fails with a duplicate-key error. Update and delete of a
  missing id succeed and change nothing. A failed call changes nothing.
  Connection and database failures are the `fault` input. A second
  assumption concerns the update document: the code always sends an
  `email` key, set to `undefined` when there is no address. The model
  reads that as the key being left out (`Omitted`), which holds only if
  the store drops `undefined` values from an update rather than writing
  them as `null`.
- `Scenarios` (`scenarios.dfy`): concrete deliveries, from a complete
  creation to a deletion of an unknown user.

Two consequences of JavaScript's operators worth noting:

- Creation, update and deletion all reject an empty-string `id` as well as
  a missing one, because `!id` is true for `""`.
- In an update, an empty-string first address is written as the new email.
  `?? undefined` replaces only `null` and `undefined`, so "email updated
  only if an address was supplied" holds only for nullish addresses.

## Model

| member | source | states |
|---|---|---|
| Js.TrimStart | config/inngest.js:31 | the result is the longest suffix of the input that does not start with whitespace, and everything cut off is whitespace |
| Js.TrimEnd | config/inngest.js:31 | the result is the longest prefix of the input that does not end with whitespace, and everything cut off is whitespace |
| Js.Trim | config/inngest.js:31 | `.trim()` returns a slice of its input. Everything before and after the slice is whitespace, and the slice neither starts nor ends with whitespace |
| Js.TrimUnique | config/inngest.js:31 | any slice with those properties equals `Trim` of the input, so `trim` is fully determined by them |
| Js.TrimStartIgnoresLeadingSpace | config/inngest.js:31 | whitespace put in front of a string is removed entirely by trimming the start |
| Js.TrimIgnoresLeadingSpace | config/inngest.js:31 | whitespace put in front of a string does not change its trim |
| Js.TrimIgnoresTrailingSpace | config/inngest.js:31 | whitespace put after a string does not change its trim |
| UserSync.NormalizeName | config/inngest.js:31 | the derived name is a string, never null, and never starts or ends with whitespace |
| UserSync.NameOfNoParts | config/inngest.js:64 | when both name parts are nullish the name is `""`, not null |
| UserSync.NameOfFirstOnly | config/inngest.js:31 | with a nullish last name the name is the trimmed first name |
| UserSync.NameOfLastOnly | config/inngest.js:64 | with a nullish first name the name is the trimmed last name |
| UserSync.NameOfCleanParts | config/inngest.js:31 | two non-empty parts without surrounding whitespace are joined by exactly one space |
| UserSync.SyncUserCreation | config/inngest.js:21-33 | an operation is produced iff `id` is non-empty and the first email entry exists with a non-empty address. It is then exactly `Create` of `{id, first address, NormalizeName, image_url or null}` |
| UserSync.CreationIgnoresLaterEmails | config/inngest.js:30 | email entries after the first have no effect on creation |
| UserSync.SyncUserUpdation | config/inngest.js:55-66 | an operation is produced iff `id` is non-empty. It is then an `Update` of that id. Its `email` is set iff the list, its first entry and that entry's address are all present (an empty address included), and to that address. `name` is always `NormalizeName`. `imageUrl` is always `image_url` or null |
| UserSync.SyncUserDeletion | config/inngest.js:88-93 | the result is `Delete(id)` iff `id` is non-empty, and no operation otherwise |
| UserSync.DeletionReadsOnlyId | config/inngest.js:88 | two payloads with the same `id` give the same deletion decision |
| Reconcile.ApplyPatch | config/inngest.js:69 | applying an update document keeps the id and sets name and image. It sets the email when the document carries one and keeps the stored email when the key is left out |
| Reconcile.PatchIdempotent | config/inngest.js:62-69 | applying the same update document twice equals applying it once |
| Reconcile.Perform | config/inngest.js:35-96 | assumed store semantics. A fault rejects the call. `create` is rejected only for a stored `_id`. A successful call changes no entry but its target and keeps every record under its own id. Create stores the record, delete removes the id, and update patches the record if it exists |
| Reconcile.Handle | config/inngest.js:19-100 | every handler returns normally. It warns exactly when the event is rejected. A nullish `event.data` is caught as a `TypeError`. The store changes only when the call succeeds, and then becomes exactly what that call makes of it; never under a fault; and records stay keyed by id. Without a fault a valid event ends quietly unless it creates an id already stored |
| Reconcile.DeletionEffect | config/inngest.js:88-99 | a valid deletion removes its id from the store, whether or not the id was stored, and ends without any log entry |
| Reconcile.HandleTouchesOnlyItsId | config/inngest.js:19-100 | no handler changes the record of any id other than the event's own |
| Reconcile.CreationEffect | config/inngest.js:28-39 | a valid creation of a new id stores exactly the described record. A creation of a stored id is caught as a duplicate and changes nothing |
| Reconcile.UpdateEffect | config/inngest.js:62-72 | a valid update succeeds quietly. On a stored id it rewrites name and image, and rewrites the email only when a first address is present. On a missing id it changes nothing |
| Reconcile.RepeatedCallChangesNothing | config/inngest.js:35-96 | repeating a store call on the store left by its first success is rejected or changes nothing |
| Reconcile.RedeliveryIsHarmless | config/inngest.js:19-100 | delivering an event again after a fault-free first delivery leaves the store as the first delivery left it |
| Reconcile.UpdateBeforeCreation | config/inngest.js:53-73 | an update arriving before its user's creation is a no-op without an error log, and the creation that follows stores what it would have stored anyway |
| Reconcile.DeletionBeforeCreation | config/inngest.js:86-100 | a deletion arriving before its user's creation is a no-op without an error log, and the creation that follows stores what it would have stored anyway |
| Scenarios.CreateWithFullName | config/inngest.js:28-36 | a complete creation with clean names stores the record named "First Last" |
| Scenarios.CreateWithoutEmails | config/inngest.js:23-26 | a creation without email addresses only warns |
| Scenarios.UpdateFirstNameOnly | config/inngest.js:62-66 | an update with an id and a first name only yields the patch `{name: first, imageUrl: null}` with the email left out |
| Scenarios.DeleteWithoutId | config/inngest.js:90-93 | a deletion without an id only warns |
| Scenarios.DeleteUnknownUser | config/inngest.js:95-96 | a deletion of an id not in the store completes without an error log |
| Scenarios.MissingData | config/inngest.js:20-21 | an event without `data` is caught, logged and changes nothing |

## Left out

- The Inngest client and the `createFunction` registration metadata (ids, names, descriptions, event names). They are declarative configuration for the event platform.
- `connectDB` and the Mongoose calls. `models/User` and `config/db` are not part of this model. Their behaviour is the assumption in `Reconcile.Perform`, plus the assumption that an `undefined` value in an update document is dropped (`UserSync.UserPatch`). Schema validation in the unseen `User` model, and a failure after a partial write, are folded into `fault`, which is assumed to change nothing.
- The text of the `console.warn` and `console.error` messages. Only which kind of log entry a handler leaves is modelled (`Log`).
- `async`/`await` and concurrent delivery. Each invocation is modelled as one atomic step. The ordering lemmas cover deliveries one after another, not interleaved.
- Values of the wrong JavaScript type: a non-string `id` or name, a non-array `email_addresses`, and template-literal coercion of non-strings. The payload is typed as strings and sequences.
- A `null` element of `email_addresses` is not a separate case. Through `?.` it reads exactly like an entry without `email_address`, which `EmailEntry(None)` represents.
- `Js.IsJsWhitespace` lists the Space_Separator code points of current Unicode. Engines built on older Unicode tables may differ.
- Releasing the store connection on every exit path. The code does not do this itself; it belongs to `config/db`.
