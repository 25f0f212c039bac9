# Delegation portal: operation service and form bridge

This project models the core of a small wealth-management "delegation" portal.
Authenticated users request operations (a life-insurance subscription, a
retirement plan, an arbitrage, and so on) through embedded third-party forms.
The server persists each request as a DelegationOperation row with a status,
and each user can list their own rows.

The model has two parts.

- **Operation service** (`src/operations/actions.ts`, `src/operations/queries.ts`).
  There are four operations: create, update-status, create-seed and list.
  Each is a pure function from a caller context, its arguments and a store
  to an `Outcome`: a `Result` (the returned value, or the thrown error) paired
  with the store afterwards.
  - The store is `Store(records: map<OpId, Operation>, nextId)`. `nextId`
    stands for the store's id generator.
  - Its invariant `Valid` says every row is filed under its own id and every
    id in use lies below `nextId`.
  - Each store round trip takes an `Option<StoreFailure>` parameter. `Some`
    means that round trip fails, so a store failure can happen at any
    round trip.
  - The clock is a `now: nat` parameter, which becomes `createdAt`.
- **Form bridge** (`src/client/components/dashboard/DelegateFormPage.tsx`).
  This covers the table of embedded forms, the message handler, and the
  request the direct-submit button builds. The handler turns a "form
  submitted" message into a create request. The client name and the notes
  come from the first field whose lower-cased title contains one of a few
  keywords.

Modules: `Wrappers` (Option, Result), `Text` (ASCII lower-casing and substring
search), `Model` (records, store, errors), `Actions`, `Queries`, `FormBridge`,
and `Lifecycle` (properties that span several operations).

The record field `type` is called `kind` in the model, because `type` is a
Dafny keyword. The `HttpError` codes are error tags: `Unauthorized` (401),
`NotFound` (404) and `Forbidden` (403). A store exception becomes
`StoreError(failure)`.

## Model

| member | source | states |
|---|---|---|
| Actions.CoerceKind | src/operations/actions.ts:38-41 | the persisted type is always "Souscription" or "Actes de Gestion"; it equals the requested type exactly when that is one of the two, and is "Actes de Gestion" otherwise |
| Actions.Insert | src/operations/actions.ts:47-58 | the store's insert keeps the store invariant, adds exactly one key (a fresh one), and leaves every existing row unchanged |
| Actions.Create | src/operations/actions.ts:26-66 | no caller gives Unauthorized with the store unchanged; a store failure is re-raised unchanged with the store unchanged; otherwise success: one fresh id, every earlier row unchanged, status "En attente", owner is the caller, an allowed type that is the requested one when allowed and "Actes de Gestion" otherwise, name, clientName, operationType and notes copied, formData defaulting to the empty object, createdAt from the clock |
| Actions.UpdateStatus | src/operations/actions.ts:73-100 | checks in order: no caller gives Unauthorized, a failed lookup gives the store error, an unknown id gives NotFound, a caller who is neither owner nor admin gives Forbidden, a failed write gives the store error; success exactly when all checks pass; every failure leaves the store unchanged; success rewrites only the target row's status; the store invariant is preserved |
| Actions.CreateSeed | src/operations/actions.ts:103-143 | the corrected action, which receives the request context the way the other actions do: only a missing caller is an error (Unauthorized); a caller who already owns a row, or any store failure, gets null with the store unchanged; otherwise one fresh "Souscription" row in "En attente" owned by the caller, every earlier row unchanged |
| Actions.CreateSeedAsWritten | src/operations/actions.ts:103-109 | as declared, the single parameter holds the client's arguments: a missing or falsy `user` there gives Unauthorized, anything else gives null; the store is never changed and no row is ever created |
| Actions.SeedAsWrittenRejectsPageCall | src/operations/actions.ts:103-109 | the page's argument-less call is rejected with Unauthorized as declared, while the corrected action creates the seed row for a signed-in user who owns nothing |
| Queries.InsertByDate | src/operations/queries.ts:32 | inserting into a newest-first sequence adds exactly that row and keeps the sequence newest first |
| Queries.SortNewestFirst | src/operations/queries.ts:32 | the ordering is a permutation of its input and is non-increasing by createdAt |
| Queries.Collect | src/operations/queries.ts:30-31 | the rows of one owner with ids in a range, each exactly once: the multiset of the result equals the set of matching rows |
| Queries.List | src/operations/queries.ts:18-41 | no caller gives Unauthorized; a store failure is propagated unchanged; the store is never changed; on success every row belongs to the caller, the result is a permutation of the caller's rows (each exactly once), and it is newest first |
| Text.LowerChar | src/client/components/dashboard/DelegateFormPage.tsx:132 | ASCII lower-casing of a character: upper-case letters move to lower case and nothing else changes |
| Text.Lower | src/client/components/dashboard/DelegateFormPage.tsx:132 | lower-casing keeps the length, leaves no upper-case ASCII letter, turns each capital into its small letter, keeps every other character, and changes nothing in a string without capitals |
| Text.LowerIdempotent | src/client/components/dashboard/DelegateFormPage.tsx:132 | lower-casing twice is the same as lower-casing once |
| Text.MissingCharNotContained | src/client/components/dashboard/DelegateFormPage.tsx:143-144 | a string that lacks one of a keyword's characters does not contain the keyword |
| Text.LowerAvoids | src/client/components/dashboard/DelegateFormPage.tsx:143-144 | a lower-case letter appears after lower-casing only if it or its capital appeared before |
| FormBridge.ConfigFor | src/client/components/dashboard/DelegateFormPage.tsx:20-59 | a path has a form exactly when it is in the table, the form returned is the table's entry for that path, and it has an allowed type |
| FormBridge.FirstMatch | src/client/components/dashboard/DelegateFormPage.tsx:131-135 | the result is the first field whose lower-cased title contains a keyword of the role, and it is None exactly when no title matches |
| FormBridge.FirstMatchUnique | src/client/components/dashboard/DelegateFormPage.tsx:131-135 | only one position can be the first match |
| FormBridge.Extract | src/client/components/dashboard/DelegateFormPage.tsx:126-149 | absent fields or no matching title give the default ("Client" for the client name, "" for notes); otherwise the first match's value if truthy, and the default if not |
| FormBridge.LaterFieldsIgnored | src/client/components/dashboard/DelegateFormPage.tsx:131-139 | fields after the first match have no influence on the extracted value, so a later matching field is never consulted |
| FormBridge.HandleMessage | src/client/components/dashboard/DelegateFormPage.tsx:108-160 | a request is produced exactly when the message is a string containing "Tally.FormSubmitted", decodes, carries a payload, and a form is selected; its name is operationType + " - " + clientName, its type and operationType are the form's, its client name and notes are the extracted values, and its formData is the whole payload |
| FormBridge.DirectSubmit | src/client/components/dashboard/DelegateFormPage.tsx:188-202 | the direct-submit button builds a request exactly when a form is selected: named operationType + " - Direct Submit", client "Client Test", the form's type and operationType, formData `{ directSubmit: true }`, notes "Created via direct submit button" |
| FormBridge.PageRequestsNeedNoCoercion | src/client/components/dashboard/DelegateFormPage.tsx:20-59 | every request the page builds carries the form's configured type, and the server's coercion leaves that type unchanged |
| FormBridge.NomDuClientTitle | src/client/components/dashboard/DelegateFormPage.tsx:132-134 | "Nom du client" matches the client-name keywords and not the notes keywords |
| FormBridge.CommentairesTitle | src/client/components/dashboard/DelegateFormPage.tsx:143-144 | "Commentaires" matches the notes keywords |
| FormBridge.WorkedExample | src/client/components/dashboard/DelegateFormPage.tsx:131-149 | fields ("Nom du client", "Dupont") and ("Commentaires", "urgent") give client name "Dupont" and notes "urgent" |
| Lifecycle.UpdateChangesOnlyStatus | src/operations/actions.ts:94-97 | a successful status update keeps the same ids and leaves every other row unchanged; the target row is the old row with only its status replaced |
| Lifecycle.UpdateStatusIdempotent | src/operations/actions.ts:94-97 | repeating a successful status update succeeds with the same row and the same store |
| Lifecycle.CreatorMayUpdate | src/operations/actions.ts:89-91 | the creator of a row may update its status |
| Lifecycle.OthersForbidden | src/operations/actions.ts:89-91 | a caller who is neither the owner nor an admin gets Forbidden; the store is unchanged and the row stays "En attente" |
| Lifecycle.CreateAddsOwnedRecord | src/operations/actions.ts:47-58 | after a create, the caller's rows are the earlier ones plus the new one, which was not among them |
| Lifecycle.CreateThenList | src/operations/queries.ts:30-33 | after a create, the creator's listing gains exactly the new row, and its length grows by one |
| Lifecycle.CreateInvisibleToOthers | src/operations/queries.ts:30-33 | a create does not change any other user's listing |
| Lifecycle.NewUserListsNothing | src/operations/queries.ts:30-36 | a caller who owns nothing gets an empty listing and no error |
| Lifecycle.SeedThenList | src/operations/actions.ts:113-135 | when the seed row is created, it is the only row its owner lists |
| Lifecycle.SeedOnce | src/operations/actions.ts:113-121 | a second seed call after a successful one returns null and changes nothing |
| Lifecycle.SubmissionPersistsExtractedFields | src/client/components/dashboard/DelegateFormPage.tsx:153-160 | a submission the page accepts is stored with the form's type and operationType, the extracted client name and notes, the whole payload as formData, status "En attente", and the caller as owner |
| Lifecycle.CreateExample | src/operations/actions.ts:48-56 | creating a "Souscription" without formData gives a pending "Souscription" row whose formData is the empty object |

## Findings

| source | as written | input that shows it | evidently intended | confidence | as-written member | corrected member |
|---|---|---|---|---|---|---|
| src/operations/actions.ts:103 | `createSeedOperation` declares one parameter, `context`; the framework passes the client's arguments there and the request context second | a signed-in user with no operations triggers the seed, which calls the action with no arguments (src/client/components/dashboard/OperationsPage.tsx:41): `context.user` is undefined and the action throws 401 | the `(args, context)` signature of the other actions, so that the signed-in user's seed row is created | medium, not executed | Actions.CreateSeedAsWritten, Actions.SeedAsWrittenRejectsPageCall | Actions.CreateSeed |

## Left out

- Persistence itself: the database, Wasp entities, `connect` semantics and the way ids are generated. Ids are natural numbers from the store's counter, not opaque strings.
- `updatedAt`: the framework sets it and the code never does. Rows in the model have no `updatedAt`, so a status update leaves every field except `status` unchanged.
- Runtime status values outside the three declared statuses: the code does not check them, and the model's `Status` type cannot express them.
- JSON parsing of the posted message. A message carries its decoded envelope, or None when decoding throws or yields no object.
- Non-string field titles and non-string answer values. `toLowerCase` would throw on a non-string title. The model decodes each field to a string title and an optional string value.
- `formData` of submissions: `Submission.raw` is the payload object stored as formData, and `Submission.fields` is its `fields` member decoded. The model does not check that the two agree.
- Unicode case folding in `toLowerCase`: only ASCII letters are lower-cased. No keyword contains a non-ASCII letter.
- Asynchronous and browser behaviour: promise handling after the create call, the `setTimeout` redirects, navigation, and the message listener's registration.
- Console logging.
- Overlapping requests: each operation is one atomic step on one store value. The code's separate store round trips are not transactional, so overlapping requests are not modelled. For example, two overlapping seed calls from one user can each find no rows and each create a seed row.
- `useTallyPopup.ts`, `OperationsPage.tsx`, `SidebarLayout.tsx`, `UserMenuItems.tsx`, `DelegatePage.tsx`, `DashboardRedirect.tsx` and `contentSections.ts` are not part of this model. They hold script injection, timers, local-storage flags, layout and routing.
- Duplicate or out-of-order message delivery: the code does not guard against it, so each delivery is an independent call of `HandleMessage`.
- Numbers in `formData` are integers; floating point is not modelled.
- Payloads that are not objects: the handler accepts any truthy `payload`, including a string, a number or an array, and stores it as formData. `Submission.raw` is an object, so the model covers object payloads only.
- Actions.CreateSeedAsWritten: takes the client's arguments as an object. Arguments that arrive as `undefined` would make `context.user` throw a TypeError rather than 401. The model does not represent that case.
