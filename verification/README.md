# GoWork: the locked transaction protocol, verified

GoWork keeps users, assets, work orders and an audit log in PostgreSQL. Its services run concurrent
READ COMMITTED transactions; no SQL constraint says that an assigned order has an active technician, that
an open order has a usable asset, or that an administrator remains. Those rules hold because the locks
that three services take fit together. This project models the transactions statement by statement,
proves that every interleaving is equivalent to running the successful requests one at a time, and proves
the rules, the audit history and freedom from deadlock for every run. Beside the protocol stand the
kernels it relies on: search patterns, order numbers, paging, scope, the audit projection, the commit
wrapper and demo seeding.

`dafny verify dfyconfig.toml` checks everything.

## How it is built

- **Tables and statements.** `Types` holds rows, tables and the audit log in commit order. `Statements`
  says for each SQL statement what it may answer, what it writes and which locks it needs. `Policy` is the
  permission catalogue, scope and lifecycle.
- **Atomic requests.** `OrderRequests`, `AssetRequests`, `UserRequests`, `AccountRequests` and `Requests`
  say what a request does in one step: `Verdict` is the error or none, `Outcome` the new database.
  `Effects` spells out what each kind of request stores and announces, `Refusals` every error in terms of rows.
- **Programs.** `OrderProgram`, `AssetProgram`, `UserProgram`, `AccountProgram` and `Programs` are the
  transactions as state machines over answers; `SoloRuns` proves that a program running alone does what
  the atomic request says.
- **The services themselves.** `WorkOrders`, `Assets`, `Users` and `Accounts` are the Go methods in
  imperative form over a transaction object (`Session.Tx`) with tables of its own that they change; every
  query they send is proved to be the next statement of the program, and every return to be the program's end. `Server`
  runs them behind one entry point.
- **The interleaving system.** `Machine` steps any number of open transactions: begin, one statement,
  commit, refusal, abort. `Guards`, `Locking` and `Serialization` carry the main argument: at every moment
  each open transaction could have been run alone, from its first statement, on the database as it is
  committed right now. `Progress` orders the locks in layers and shows that someone can always move.
- **What is kept.** `Safety` (cross-row rules), `Evolution` (nothing goes back), `History` (audit chains),
  `Ledger` (authors and counts), `Views` (what a transaction has written but not committed), `SerialRuns`
  (all of them along serial runs), `Theorems` (along every interleaved run), `Seeding`. Helpers worth a look:
  `Evolution.TransitionExactly`, `Seeding.SeedsUnless`, `Safety.NothingVanishes`, `Paging.OffsetFits` and
  `AssetListing.OrderShowsAsset` spell out what a definition amounts to.
- **Kernels.** `Search`, `Numbers`, `Paging`, `Listing`, `OrderListing`, `AssetListing`, `AuditView`,
  `Transaction`.

The machine's ground rules are PostgreSQL's: a row comes back from a lock in its latest committed version,
each later statement sees the latest committed rows and the transaction's own writes, locks last until the
transaction ends, `FOR SHARE` conflicts with `FOR UPDATE` only, the clock does not go back, and generated
ids are handed out once. SQL's own promises (`Statements.Promises`) say nothing about the order of stamps or
the uniqueness of order numbers; these follow from the clock and the sequence. An entry of the unique index on asset codes is an exclusive lock taken when the code
is inserted or deleted. The permission catalogue is the seeded one; the application's database role cannot
change it.

Where the code and its documentation differ the model follows the code: `docs/database.md:90` says that
updates set `updated_at = now()`, the statements use `clock_timestamp()`. The order of stamps depends on it:
`Machine.ExecutesAllowed` derives it from the clock being read under the row lock, and
`Machine.StartStampsGoBack` shows that stamps taken at the transaction's start could go back.

## Model

| member | source | states |
|---|---|---|
| Theorems.Serializable | internal/workorders/service.go:248-300 | In every interleaved run of order, asset, user, bootstrap and seeding transactions the committed tables and audit log are those of running the committed requests one at a time, each atomically, in commit order |
| Theorems.CommitOrderGrows | internal/platform/database/transaction.go:36-43 | The serial order only ever grows at its end, by the transaction that commits |
| Theorems.RefusedForCause | internal/workorders/service.go:258-281 | When an answer gets a transaction refused, its error is the request's verdict on the database committed at that very moment, whatever else is running |
| Theorems.SucceedsForCause | internal/workorders/service.go:282-298 | A transaction that has reached its end would still go through, with the same writes, if it were run alone on the database of that moment |
| Theorems.AlwaysGood | docs/database.md:108-118 | All cross-row rules, audit chains, counts and authorship rules hold in every reachable state |
| Theorems.TechnicianBehindEveryAssignment | internal/workorders/service.go:347-376 | However assignment and deactivation interleave, each ASSIGNED or IN_PROGRESS order has an existing, active TECHNICIAN |
| Theorems.AssetBehindEveryOrder | internal/assets/service.go:278-318 | Every order's asset exists, and is ACTIVE or MAINTENANCE while the order is not terminal, without the foreign key |
| Theorems.AdministratorRemains | internal/users/service.go:201-243 | Once there is an administrator, every later state has an active one |
| Theorems.NeverRefusedWith | internal/users/service.go:158-169 | In no run is a transaction refused as removing the last administrator, nor by a row that vanished between two of its statements |
| Theorems.OnlyForward | internal/workorders/service.go:96-104 | Along every run statuses only move up, terminal rows never change a field, stamps do not decrease, users and orders stay, roles and creation data are fixed, deleted ids do not return, and the log only grows |
| Theorems.StatusRowsCount | internal/workorders/service.go:369-375 | The number of status rows of an order is 0 when OPEN, 1 when ASSIGNED, 2 when IN_PROGRESS, 3 when COMPLETED, and 1 to 3 when CANCELLED |
| Theorems.ChainEndsAtPresent | internal/workorders/service.go:282-297 | The audit rows of every entity form an unbroken chain, each old value equal to the new value before it, that ends at its present public row or at its deletion (an assignment out of OPEN adds two rows with one pair of values; a password change is mentioned in its own row only) |
| Theorems.ChainsBegin | internal/audit/writer.go:19-25 | The first audit row of any entity is its creation |
| Theorems.ChainsBeginAndEnd | internal/assets/service.go:314-320 | No later row of an entity is a creation, and nothing follows the deletion of an asset |
| Theorems.CommitsAreAuthored | internal/assets/service.go:179-186 | Every audit row a commit adds has an author who is active and holds the permission its change asks for in the committed state, or is the bootstrap |
| Theorems.TechniciansMoveTheirOwn | internal/rbac/policy.go:37-48 | Every audit row by a technician is ASSIGNED to IN_PROGRESS or IN_PROGRESS to COMPLETED on an order assigned to that technician |
| Theorems.OneBootstrap | internal/auth/bootstrap.go:32-45 | Under any mix of concurrent bootstrapping and seeding there is at most one USER_BOOTSTRAPPED row |
| Theorems.OneCompletionCommits | docs/database.md:122 | Of any completions of one order at most one commits |
| Theorems.TooLateToSucceed | internal/workorders/service.go:275-277 | Once an order is terminal, no open transaction on it ever reaches its successful end, however far it had got and however others interleave |
| Theorems.TooLateIsTold | internal/workorders/service.go:258-277 | An answer that gets such a transaction refused does so with the terminal error exactly when its actor still has permission and scope, and otherwise for the lack of these |
| Theorems.OtherCompletionFails | docs/database.md:122 | Once one completion of an order has committed, an open one never succeeds, and the order is terminal, so the two rows above say what it is told |
| Theorems.AssignmentsHold | internal/workorders/service.go:369-374 | In every reachable state an order is assigned to whom its last committed assignment names, and to nobody if there was none |
| Theorems.PatchesSurvive | docs/database.md:122 | A patched field keeps its value until a later patch of the same field: concurrent patches of different fields both survive |
| Theorems.NumbersIdentify | db/migrations/000006_work_orders.up.sql:4 | In every reachable state order numbers, asset codes and email addresses are unique, and order numbers match the table's pattern |
| Theorems.ViewsAreSound | db/migrations/000006_work_orders.up.sql:13-18 | At every moment of a transaction that is still going, the rows as it has written them keep all rules, the table's checks on status, assignee and stamps among them, before any check is consulted |
| Theorems.EveryRowIsShown | internal/auditlog/service.go:158-170 | The audit API can show every row of every reachable log, with all fields of its snapshots unchanged |
| Progress.NoDeadlock | internal/workorders/service.go:251-257 | In no reachable state are all open transactions stuck, the late share lock on an assignment's target included |
| Progress.SomeoneMoves | internal/workorders/service.go:355 | From any open transaction, following the holders of the locks it waits for leads to one that can take a step |
| Progress.HolderIsBelow | docs/database.md:114-118 | Whoever holds a lock that another transaction waits for can itself only wait in a deeper layer |
| Progress.GrantedExecutes | docs/database.md:114 | A statement whose locks are granted always has an answer: nothing else can hold a transaction up |
| Progress.RunsEnd | internal/auth/seed.go:34-71 | Whatever the interleaving, a transaction that is still going has got at most 23 answers, and each one brings it nearer to its end |
| Progress.UsersFirst | internal/workorders/service.go:251-261 | Before the order or asset row is locked, the user rows have been, exactly actor and target, in ascending order of their ids |
| Serialization.Replays | docs/database.md:114 | A transcript whose answers its locks guard replays, answer by answer, on any database that agrees on what these locks protect |
| Serialization.StepSteady | internal/workorders/service.go:253-261 | A transaction's own statement keeps it runnable alone from its start |
| Serialization.CommitSteady | internal/workorders/service.go:253-261 | So does every commit of another transaction |
| Guards.FrameAgrees | docs/database.md:114-118 | What a transaction with other, compatible locks commits leaves everything alone that my locks protect |
| Guards.GuardedStays | docs/database.md:114-118 | An answer guarded by locks stays a possible answer as long as they are held |
| Locking.StepGuarded | internal/workorders/service.go:251-262 | The locks the services take guard every answer that does not get the transaction refused |
| Machine.StepInv | docs/database.md:112-118 | Every step of the interleaving system keeps its invariant |
| Machine.ExecutesAllowed | db/queries/work_orders.sql:9-15 | The stamp an update reads from the clock is never earlier than the row's stamps before it, and a number drawn for a new order is on no order; SQL itself promises only what is written |
| Machine.NextNumberUnused | db/migrations/000006_work_orders.up.sql:1-4 | The next sequence value is free in every open transaction's view: numbers are unique because of how they are drawn |
| SoloRuns.RunAlone | internal/workorders/service.go:248-300 | A transaction running alone succeeds only with its request's outcome and fails only with its verdict |
| Effects.OrderCreateStores | internal/workorders/service.go:226-244 | One new id, whose row has the request's values, open and unassigned, with a free number; one audit row; nothing else changes |
| Effects.OrderPatchStores | internal/workorders/service.go:327-345 | Supplied fields are stored and all others kept, with one audit row; a patch without effect leaves no trace |
| Effects.OrderAssignStores | internal/workorders/service.go:369-376 | The target is stored whoever had the order before; one audit row, or two with the same snapshots for an open order |
| Effects.OrderMoveStores | internal/workorders/service.go:391-396 | The status is stored, with a completion time exactly for a completion; one audit row |
| Effects.AssetCreateStores | internal/assets/service.go:204-216 | One new id, whose row has the request's values; one audit row; nothing else changes |
| Effects.AssetPatchStores | internal/assets/service.go:261-294 | Supplied fields are stored and all others kept; one audit row, or no trace |
| Effects.AssetDeleteRemoves | internal/assets/service.go:314-321 | Exactly that row is gone, and its last form is in the audit log |
| Effects.UserCreateStores | internal/users/service.go:134-146 | One new active account with the request's values; its audit row has no hash |
| Effects.UserPatchStores | internal/users/service.go:214-263 | Supplied fields are stored and all others kept; a new password always counts and is only mentioned |
| Effects.BootstrapStores | internal/auth/bootstrap.go:43-50 | One new active administrator, announced without an author |
| Refusals.OrderCreateRefused | internal/workorders/service.go:226-237 | Every error of an order creation, in the order of the checks, in terms of roles and asset status |
| Refusals.OrderPatchRefused | internal/workorders/service.go:258-277 | Every error of an order patch |
| Refusals.OrderAssignRefused | internal/workorders/service.go:258-368 | Every error of an assignment: who may assign, in which status, and to whom |
| Refusals.OrderMoveRefused | internal/workorders/service.go:258-396 | Every error of a status request: technicians move their own orders along and never cancel |
| Refusals.AssetCreateRefused | internal/assets/service.go:204-211 | Every error of an asset creation |
| Refusals.AssetPatchRefused | internal/assets/service.go:246-286 | Every error of an asset patch: an asset leaves service exactly when no order on it is open, assigned or in progress |
| Refusals.AssetDeleteRefused | internal/assets/service.go:297-313 | Every error of an asset deletion |
| Refusals.UserCreateRefused | internal/users/service.go:134-145 | Every error of a user creation |
| Refusals.UserPatchRefused | internal/users/service.go:200-248 | Every error of a user patch; the last administrator is never among them |
| Refusals.BootstrapRefused | internal/auth/bootstrap.go:32-46 | Every error of a bootstrap |
| Refusals.SeedRefused | internal/auth/seed.go:34-56 | Every error of the seeding, account by account, by email and role |
| OrderProgram.StepFacts | internal/workorders/service.go:227-298 | The order programs, statement by statement, compute the atomic order requests |
| AssetProgram.StepFacts | internal/assets/service.go:205-321 | The asset programs compute the atomic asset requests |
| UserProgram.StepFacts | internal/users/service.go:134-272 | The user programs compute the atomic user requests |
| AccountProgram.StepFacts | internal/auth/seed.go:30-73 | Bootstrapping and the seeding loop compute their atomic requests, from any user table |
| Safety.AppliesSound | docs/database.md:106-118 | Every request that goes through keeps the cross-row rules, the row checks, unique emails, codes and numbers, and an active administrator |
| Safety.OrderChangedSound | db/migrations/000006_work_orders.up.sql:13-18 | A changed order meets the table's checks on status, assignee and stamps, given a clock that does not go back, and its assignee and asset fit its status |
| Safety.LastAdminNeverReturned | db/migrations/000009_catalog_seed.up.sql:17-45 | Under the seeded catalogue no request is ever refused as removing the last administrator |
| Safety.DeactivationExactly | internal/users/service.go:158-169 | A patch that deactivates, with or without other changes, is refused exactly for the own account, for live orders or for a taken email address |
| Evolution.AppliesEvolves | db/queries/work_orders.sql:13-15 | Every request moves the database forward only, given stamps that the clock puts in order (Machine.ExecutesAllowed proves that it does) |
| Evolution.ChangesComeFromRequests | internal/workorders/service.go:327-396 | An order's fields take the values that the request on it names, a reassignment's target included, and keep all others |
| Evolution.UserChangesComeFromRequests | internal/users/service.go:215-227 | A user's fields take the values a patch supplies and keep all others |
| Evolution.AssetChangesComeFromRequests | internal/assets/service.go:261-273 | An asset's fields take the values a patch supplies and keep all others; only a deletion removes it |
| History.AppliesTold | internal/workorders/service.go:290-297 | Every request extends the audit chains without a break and up to the present rows |
| History.NothingFollows | internal/assets/service.go:314-320 | In an unbroken log nothing follows a row without a new value |
| History.FirstRowOnly | internal/audit/writer.go:19-25 | In an unbroken log exactly the first row of an entity has no old value |
| Ledger.AppliesAuthored | internal/rbac/policy.go:16-36 | Every request's rows carry a permitted, active author |
| Ledger.AppliesCounted | internal/workorders/service.go:292-296 | Every request keeps the count of status rows in step with the status, and the number of bootstraps at most one |
| Seeding.SeedingLeavesDemo | internal/auth/seed.go:29-73 | Seeding that goes through leaves the demo accounts active in their roles, writes one audit row per new account, and touches no existing row |
| Seeding.SeedingByName | internal/auth/seed.go:19-71 | By name: admin@gowork.dev is an active administrator, manager@gowork.dev an active manager, technician@gowork.dev an active technician; every new account has its own name and hash, and its audit row the administrator as author |
| Seeding.SeedingAgainIsIdle | internal/auth/seed.go:14 | Seeding its own result goes through and changes nothing |
| Session.Tx.Query | db/queries/work_orders.sql:3-15 | One statement: it must be the program's next one, its answer is possible, and the tables change as it says |
| Session.Recheck | internal/rbac/policy.go:16-36 | The permission check inside a transaction |
| WorkOrders.Create | internal/workorders/service.go:226-244 | Order creation sends the program's statements and returns its error or success |
| WorkOrders.LockUsers | internal/workorders/service.go:252-257 | Actor and target are locked in ascending order of their ids, existing or not |
| WorkOrders.Load | internal/workorders/service.go:261-277 | The locked order, unless it is missing, out of scope or terminal |
| WorkOrders.DecideAssign | internal/workorders/service.go:347-376 | The assignment callback: refused, or the new row and its one or two actions |
| WorkOrders.AuditAll | internal/workorders/service.go:290-297 | One audit row for each action, all with the same two snapshots |
| WorkOrders.Mutate | internal/workorders/service.go:247-300 | The common path of every change of an order sends the program's statements and returns its error or success |
| Assets.LockActor | internal/assets/service.go:179-186 | The actor's row is locked before the permission is checked |
| Assets.Create | internal/assets/service.go:204-216 | Asset creation sends the program's statements |
| Assets.Patch | internal/assets/service.go:246-294 | An asset patch sends the program's statements; an idle one writes nothing |
| Assets.Delete | internal/assets/service.go:297-322 | Asset deletion sends the program's statements |
| Users.Create | internal/users/service.go:134-154 | User creation sends the program's statements |
| Users.Patch | internal/users/service.go:200-274 | A user patch sends the program's statements; deactivation is guarded under both locks |
| Accounts.Bootstrap | internal/auth/bootstrap.go:32-52 | Bootstrapping sends the program's statements |
| Accounts.SeedDemo | internal/auth/seed.go:29-73 | The seeding loop sends the program's statements |
| Server.Service.Submit | internal/workorders/service.go:204-246 | One request at a time: it goes through with its atomic outcome, or is refused with its verdict and changes nothing; all rules are kept |
| Transaction.InTx | internal/platform/database/transaction.go:21-44 | No error means all is committed; an unmarked error or a panic means nothing is; a marked one comes exactly from an unanswered commit of a write transaction; the callback runs at most once; read-only transactions never report an unknown outcome |
| Search.SearchFindsTerm | internal/assets/service.go:77-82 | For every nonempty term, and every lower-casing of texts that escaping commutes with, the pattern is well formed and matches exactly the texts that contain the term, letter case aside |
| Search.CharwiseFolds | db/queries/assets.sql:21 | Every lower-casing character by character, to one or more characters, is such a lower-casing |
| Search.PatternFinds | db/queries/assets.sql:21 | Without folding: the LIKE matcher accepts the pattern exactly when the term is a contiguous part of the text |
| Search.AnyTextMeans | db/queries/assets.sql:21 | The matcher's percent sign stands for any stretch of text |
| Search.OneCharMeans | db/queries/assets.sql:21 | Its underscore stands for any one character, the backslash for the character after it, any other character for itself |
| Search.PatternsDiffer | internal/assets/service.go:77-82 | Different terms give different patterns |
| Numbers.NumberReadsBack | db/queries/work_orders.sql:11 | A printed number gives back its year and sequence value, matches the pattern, and is never truncated above 999999 |
| Numbers.NumbersDistinct | db/migrations/000006_work_orders.up.sql:1-4 | Distinct sequence values or years give distinct numbers |
| Paging.SortedFacts | db/queries/work_orders.sql:23 | A listing has each row once, newest first, ties by id |
| Paging.OneListing | db/queries/work_orders.sql:23 | There is only one such listing |
| Paging.PagesCover | internal/workorders/service.go:170-182 | The pages put together are the whole listing |
| Paging.PageFills | internal/workorders/service.go:182 | Pages before the last are full, the last is not empty, later ones are |
| OrderListing.List | internal/workorders/service.go:150-186 | The list request: refused for a bad page, a missing permission or a foreign filter, else the page of the scoped, filtered listing and its totals |
| OrderListing.PagesYieldAll | internal/workorders/service.go:150-186 | Asking for page after page yields every matching order the actor may see, once, newest first, as long as there are at most 100000 pages |
| OrderListing.NothingBehind | internal/workorders/service.go:182 | Replies behind the last page are empty |
| OrderListing.OpensWhenListed | internal/workorders/service.go:122-186 | An actor can open an order exactly when it is on some page of the actor's unfiltered list, as long as that list has at most 100000 pages |
| OrderListing.ShowsWhatPasses | db/queries/work_orders.sql:17-23 | Over all its pages a request shows exactly the rows that its actor can open and that pass the status, priority, asset and assignee filters, as long as there are at most 100000 pages |
| OrderListing.ListRefused | internal/workorders/service.go:150-169 | Every error of a list request, and page, limit and size of an answer |
| OrderListing.NewestComesFirst | db/queries/work_orders.sql:23 | The rows of a page are in descending order of creation time, then of id |
| OrderListing.GetRefused | internal/workorders/service.go:122-148 | Every error of opening an order, and the row otherwise |
| OrderListing.ListedOpens | internal/workorders/service.go:122-148 | Whatever any filtered page shows can be opened, as the same row |
| AssetListing.List | internal/assets/service.go:131-160 | The asset list request, with search and scope |
| AssetListing.SearchShows | db/queries/assets.sql:19-22 | A search shows exactly the otherwise matching assets with the term in name, code or location |
| AssetListing.PagesYieldAll | internal/assets/service.go:131-160 | Asking for page after page yields every matching asset the actor may see, once, newest first, as long as there are at most 100000 pages |
| AssetListing.NothingBehind | internal/assets/service.go:156 | Replies behind the last page are empty |
| AssetListing.OpensWhenListed | internal/assets/service.go:86-160 | An actor can open an asset exactly when it is on some page of the actor's unfiltered list, as long as that list has at most 100000 pages |
| AssetListing.OpensThroughOrders | internal/assets/service.go:86-130 | A technician can open an asset exactly when there is an order on it that the technician can open; others can open every asset |
| AssetListing.ShowsWhatPasses | db/queries/assets.sql:17-23 | Over all its pages a request shows exactly the rows that its actor can open and that pass the status, category and search filters, as long as there are at most 100000 pages |
| AssetListing.ListRefused | internal/assets/service.go:131-139 | Every error of a list request, and page, limit and size of an answer |
| AssetListing.NewestComesFirst | db/queries/assets.sql:23 | The rows of a page are in descending order of creation time, then of id |
| AssetListing.ListedOpens | internal/assets/service.go:100-130 | Whatever any filtered page shows can be opened, as the same row |
| AuditView.FieldsOf | internal/auditlog/service.go:84-104 | The public fields of each kind and their types |
| AuditView.Sanitize | internal/auditlog/service.go:76-131 | The projection loop, in any order of fields: exactly the well-typed objects of a known kind are accepted, and shown as their public part |
| AuditView.ShownIsPublic | internal/auditlog/service.go:74-75 | What is shown has listed fields only, unchanged, and is shown alike a second time |
| AuditView.UserShownByName | internal/auditlog/service.go:84-131 | Of a user exactly id, name, email, role, is_active and password_changed are shown, as texts and booleans, and nothing else: a stored hash is not |
| AuditView.AssetShownByName | internal/auditlog/service.go:92-131 | Of an asset exactly its eight public fields, all texts |
| AuditView.OrderShownByName | internal/auditlog/service.go:96-131 | Of a work order exactly its ten texts and its two nullable fields |
| AuditView.OthersShown | internal/auditlog/service.go:77-83 | Nothing stored is nothing shown; other kinds and other values are refused |
| AuditView.UnlistedFieldsIgnored | internal/auditlog/service.go:74-75 | A field that is not listed changes nothing, whatever it holds |
| AuditView.WrittenIsShown | internal/workorders/service.go:36-49 | Every snapshot that the services write is accepted and shown complete |
| AuditView.OrderTextsFound | internal/workorders/service.go:36-49 | Title and description of an order are found under their names |
| AuditView.OrderNumberFound | internal/workorders/service.go:36-49 | So are its id and number |
| AuditView.OrderIdsFound | internal/workorders/service.go:36-49 | So are its asset and creator |
| AuditView.OrderStateFound | internal/workorders/service.go:36-79 | So are its assignee, null without one, its priority and its status by their codes |
| AuditView.OrderTimesFound | internal/workorders/service.go:36-79 | So are its times, null without a completion |
| AuditView.AssetFound | internal/assets/service.go:31-40 | Id and code of an asset are found under their names |
| AuditView.AssetTextsFound | internal/assets/service.go:31-40 | So are its name and category |
| AuditView.AssetStateFound | internal/assets/service.go:31-40 | So are its location, times and status |
| AuditView.UserFound | internal/users/service.go:252-263 | All public fields of a user are found under their names, a password change only where there was one |

## Left out

- HTTP handlers, routing, configuration, pools, migrations, logging and shutdown.
- Password hashing, tokens and email normalisation: hashes and emails come in as texts.
- Field validation and trimming; `WellFormed` keeps only what decides the course of a transaction (an empty patch, a status that cannot be asked for).
- Go's string maps of fields become records of optional fields, so unknown keys do not arise.
- Request ids and the `created_at` of audit rows; history is stated over the log in commit order, which is not the order in which the audit API lists rows.
- The permission check before a transaction opens: a transaction may open with any actor that exists, which every check that was passed once implies. The check that counts is the second one, under the locks.
- Implicit foreign-key locks: each is covered by a `FOR SHARE` lock already held, or could only meet a `FOR UPDATE` on a user, which is taken under the administration lock and waits for nothing behind it.
- The order of PostgreSQL's lock queues and fairness: any waiting transaction whose locks are free may go next.
- Waiting on the unique index of emails: both writers of emails hold the administration lock.
- Statements that fail for reasons of their own (lost connection, cancellation, resource limits) are the machine's abort step, allowed at every place.
- Seeding with a different environment name, and the demo password.
- Years beyond 9999, in which the number's year would have five digits.
- The lower-casing of a particular locale: searches hold for any that escaping commutes with.
- The lengths and the trimming of texts in the tables' checks.
- What a successful write returns to its caller: the services' methods give their error or success here, the stored rows are in `Effects`.
- JSON text: snapshots are parsed values, and the texts of ids and times are any functions of these.
- The user list and the audit list, which page and filter like the two lists that are modelled.
- Driver internals behind the commit wrapper: an error reported by the server in answer to COMMIT means that nothing was committed.
