# A model of the money engine, and what it keeps

A closed wallet system: registration pays a signup grant out of a system mint, users send each other
money under idempotency keys, collect it through money requests, read paged statements, and log in to
rotating sessions. This project models that system as it stands over PostgreSQL and proves what its
code and documentation promise about money, requests, statements and sessions. Where a promise does not
hold as documented, it proves the exact condition under which it does and gives a concrete history that
violates it.

## How the model is built

* `Tables` has the rows, a committed database state (`Store`), the uncommitted writes of one database
  transaction (`Staged`) and what a commit makes of them (`Overlay`). Money is an integer count of poisha;
  the limits of NUMERIC(15,2) are explicit. Times are integers in microseconds.
* `Ledger` has sums over entries, lookups by key, the effect of one balanced event (`Post`) and the
  invariants of a ledger (`LedgerInv`).
* `Atomic` has every operation (register, send, ask, approve, decline, cancel) as one indivisible
  function of the committed state, with every refusal in the order the code makes it.
* `Services` has the service layer as written: a `Database` object and a `Session` object that stages
  writes, takes locks, keeps cached balances, opens savepoints and commits. Each method is proved equal to
  the atomic operation, whatever the cache held.
* `Interleaving` has any number of database transactions taking small steps over shared tables: READ
  COMMITTED reads, row locks one at a time, savepoints, unique indexes, an entry-id sequence that is never
  rolled back, and a private cache per session that starts out arbitrary. A schedule is a sequence of
  events; `Exec` gives the state it leads to. An event may also cut a transaction off at any step.
  `Invariant`, `Steps` and `Reachability` prove one invariant over every schedule. `Guarantees`, `Liveness`,
  `RequestRuns`, `Settlements`, `Retries`, `RetryRuns`, `Supply` and `Refusals` draw the consequences.
* `Answers` states for every operation all it can answer and all it changes, in plain terms of the rows.
* `Solo` and `Schedules` build concrete schedules for the statements that say something can happen.
* `Reconcile`, `Statement`, `StatementRuns`, `StatementOrder`, `Cursor`, `Calendar`, `Base64`, `Amount`,
  `Numerals`, `Lockout`, `SessionFamilies`, `SessionRaces` and `SessionWindow` model the read side and the
  parts around the ledger.

## Where code and documentation part

* *A retried request returns the original transaction* (README.md of the repository, line 239).
  `RetryRuns.RetryReturnsOriginal` gives the exact condition. The balance check comes before the insert that
  meets the unique index, so a retry that looked before its original committed and then waited for the
  sender's wallet can be refused for lack of funds (`Schedules.RetryRefused`); and the recipient and the PIN
  are looked at before the replay lookup, so a retry is refused when the recipient has become inactive
  (`Schedules.RetryToInactive`). What always holds is at most once, `Guarantees.AtMostOnce`: such a retry
  never moves money.
* *One detection revokes the entire chain* (migrations/versions/0002_session_family.py, lines 7-9). It does
  when a rotation is one step (`SessionFamilies.RotateAnswers`). At row-lock granularity the family UPDATE
  cannot see a descendant that is not committed yet: `SessionRaces.ReuseDetectedButAlive` is such a
  schedule, and `SessionWindow.RevocationEnds` and `SessionWindow.RotationDecides` say which commits
  between the UPDATE's snapshot and the revocation's commit decide it.
* The statement shows a running balance (docs/ARCHITECTURE.md, line 279), ordered by `created_at`.
  `created_at` is the start time of the transaction, while balances run in the order of entry ids.
  `StatementOrder.ColumnRuns` says exactly when the balance column runs all the same, and
  `StatementOrder.StatementOutOfOrder` is a schedule where it does not.
* A settlement is *typed as REQUEST_SETTLEMENT* (docs/TEST_COMMANDS.md, line 73). A client may choose
  `request:<id>` as its own key, so an approved request can link a transaction of type TRANSFER:
  `Schedules.ApprovedByTransfer` is such a schedule, `Settlements.SettledKind` and `Settlements.LinkedKind`
  the exact condition.

## Model

| member | source | states |
|---|---|---|
| Tables.RequestKeyInjective | app/services/request_service.py:226 | Distinct requests have distinct settlement keys. |
| Ledger.FindReplay | app/services/transfer_service.py:42-50 | A replay is found exactly when the key is present and not empty and the index holds the pair; it is a committed transaction of that caller under that key. |
| Ledger.OneCarrier | migrations/versions/0001_initial_schema.py:127-132 | Two transactions with one (initiator, key) pair are the same row. |
| Ledger.PostKeepsLedger | app/services/ledger_service.py:88-132 | One posted event keeps solvency, ownership, the journal of debit and credit pairs, unique keys, no drift, the balance_after chain and id order. |
| Ledger.AccountKeepsLedger | app/services/auth_service.py:94-105 | A new user with an empty wallet keeps them as well. |
| Ledger.JournalBalances | app/services/ledger_service.py:112-127 | Entries written in debit and credit pairs sum to zero overall and per transaction. |
| Ledger.LedgerReconciles | app/routers/admin.py:40-43 | The ledger invariant implies conservation, balanced events, no drift and solvency. |
| Ledger.RunningBalance | app/services/ledger_service.py:108-127 | In id order each balance_after of a wallet is the previous one plus the amount, from zero, and the last is the wallet's balance. |
| Atomic.RunKeepsInv | app/services/request_service.py:184-252 | Every operation, accepted or refused, takes a state that satisfies the ledger and request invariants to one that does. |
| Atomic.RefusalIsNoOp | app/services/transfer_service.py:146-177 | A refused operation or a replay leaves every table as it was, the request row included. |
| Atomic.PaidExactlyOnce | app/services/request_service.py:219-249 | An approved request links one completed payment by its payer, for its amount, to its requester, under its key; no other request links it; every settlement is linked by an approved request. |
| Atomic.MoveKeepsLedger | app/services/transfer_service.py:94-182 | A transfer that goes through keeps the ledger invariant. |
| Atomic.RegisterKeepsLedger | app/services/auth_service.py:90-144 | So does a registration with its grant. |
| Atomic.ApproveKeepsInv | app/services/request_service.py:184-252 | Payment and status change together keep the ledger and the link between requests and transactions. |
| Atomic.TurnKeepsInv | app/services/request_service.py:255-311 | Declining and cancelling keep them. |
| Services.SortedSet | app/services/ledger_service.py:39 | The ids to lock, strictly ascending, each once, none added or lost. |
| Services.Session.LockWallets | app/services/ledger_service.py:30-66 | Rows that exist are locked in ascending id order and the cached balance of each then equals the row, whatever was cached; it reports exactly whether any id is missing. |
| Services.Session.AcquireInOrder | app/services/ledger_service.py:43-62 | One lock at a time in the given order, each refreshing the cached balance and touching no other. |
| Services.Session.InsertTransaction | app/services/ledger_service.py:94-106 | The row is staged unless the column type, the self-transfer CHECK or uq_idem refuses it, in that order. |
| Services.Session.UpdateBalances | app/services/ledger_service.py:108-110 | Both balances change by the amount, unless the column or no_overdraft refuses. |
| Services.Session.AppendEntries | app/services/ledger_service.py:112-131 | A debit and a credit with the balances after, drawing two entry ids; the transaction is completed. |
| Services.Session.PostDoubleEntry | app/services/ledger_service.py:69-132 | With both wallets locked and refreshed, the staged result is exactly the atomic posted event, or the refusal the atomic operation gives. |
| Services.Session.LookUpReplay | app/services/transfer_service.py:42-50 | The search from the newest row answers what the lookup specifies. |
| Services.Session.LockAndPost | app/services/transfer_service.py:107-131 | The savepoint section either stages the posted event or leaves nothing staged; the overdraft backstop never fires. |
| Services.Session.ExecuteTransfer | app/services/transfer_service.py:70-182 | With any stale cache, committing or folded into a larger unit, it is the atomic move: new, replayed, or refused with nothing written. |
| Services.Session.SendMoney | app/services/transfer_service.py:185-224 | Recipient resolution and PIN first, in that order, then the atomic send. |
| Services.Session.Register | app/services/auth_service.py:76-144 | User, wallet and grant are committed together or not at all, as the atomic registration. |
| Services.Session.LockRequest | app/services/request_service.py:76-93 | The row is locked and returned exactly for a party to the request. |
| Services.Session.CreateRequest | app/services/request_service.py:107-149 | The payer is resolved by phone; then a pending request with the configured lifetime, or the atomic refusal. |
| Services.Session.ApproveRequest | app/services/request_service.py:184-252 | The whole approval is the atomic one: paid and approved together, or no change. |
| Services.Session.TurnRequest | app/services/request_service.py:255-311 | Decline and cancel are the atomic ones, with role, expiry and status checked on the locked row. |
| Services.StagedPost | app/services/ledger_service.py:105-131 | Transaction row, two balances and two entries, once committed, amount to one posted event. |
| Steps.LocalKeeps | app/services/transfer_service.py:99-182 | Every step of a transaction keeps what its program counter prescribes: locks held, cache equal to the locked rows, staged writes, checks passed. |
| Steps.LocalApart | app/services/ledger_service.py:43-60 | A step taken without being blocked keeps the locks of two transactions disjoint. |
| Steps.CommitTouches | app/services/ledger_service.py:94-131 | A commit changes only rows its transaction has locked or created, and its keyed transaction was written under the lock of its initiator's wallet. |
| Steps.NoNewCarrier | app/services/transfer_service.py:116-131 | While a transaction holds its sender's wallet, no commit of another adds a transaction under its key. |
| Steps.Frame | app/services/ledger_service.py:43-62 | Another's commit never invalidates a transaction in flight. |
| Steps.OverlayIsPost | app/services/ledger_service.py:94-132 | The finished staged writes amount to one posted event on the state at the commit. |
| Steps.CommitIsRun | app/services/transfer_service.py:99-182 | At its commit, all a transaction did over its steps equals its call as one operation on the state at the commit. |
| Reachability.ReachableInv | app/services/ledger_service.py:43-132 | The invariant of tables, locks, caches, staged writes, ids and log holds after every schedule. |
| Reachability.AbandonKeeps | app/database.py:37-43 | Cutting a transaction off at any step, with whatever it holds and has staged, keeps the invariant. |
| Reachability.CommitAtomic | app/services/request_service.py:221-249 | In a reachable state a commit is the atomic operation of its call, with fresh ids. |
| Guarantees.Refinement | app/services/transfer_service.py:99-182 | For any interleaving the tables equal those of the committed operations done one at a time in commit order, with the same answers, and those operations are exactly the transactions that succeeded. |
| Guarantees.RealTimeOrder | app/services/transfer_service.py:179-182 | That order puts what had committed before a transaction began before it. |
| Guarantees.AlwaysReconciled | app/routers/admin.py:40-43 | The four reconciliation invariants hold in every committed state of every interleaving. |
| Guarantees.AlwaysChained | app/services/ledger_service.py:108-127 | So does the running-balance chain of every wallet, in id order. |
| Guarantees.AlwaysPaired | app/services/ledger_service.py:112-127 | In every reachable state each transaction has exactly two entries, its debit and its credit, side by side in commit order, and there are no others. |
| Guarantees.AtMostOnce | app/services/transfer_service.py:99-103 | However many calls with one key interleave, one transaction at most carries it, and every replayed answer is that transaction, for the caller's amount and receiver. |
| Guarantees.OnlySuccessWrites | app/services/transfer_service.py:146-177 | A committed row changes only at the commit of a transaction that then reports success. |
| Guarantees.TxnsAreLogged | app/services/ledger_service.py:94-106 | Every committed transaction row was written by a committed operation of the matching kind, initiator and key. |
| Guarantees.SendsAreWritten | app/services/transfer_service.py:179-182 | Every send that answered with a transaction has its row: both wallets, amount and key of the call. |
| Guarantees.FailureLeavesNoTrace | app/database.py:37-43 | A transaction that ended in a refusal or a replay, or was cut off at any step, left no transaction row and no ledger entry. |
| Liveness.WaitsClimb | app/services/ledger_service.py:33-39 | Whoever holds something only ever waits for something of higher rank: phone index, request row, wallets by id, idempotency index. |
| Liveness.NoWaitCycle | app/services/ledger_service.py:33-39 | The wait-for graph of registrations, transfers and approvals has no cycle. |
| Liveness.SomeoneReady | app/services/ledger_service.py:33-39 | While a transaction is unfinished, some transaction can take a step. |
| Liveness.StepsBounded | app/services/transfer_service.py:70-182 | n transactions take at most 19 n steps, however they interleave. |
| Liveness.MaximalRunsFinish | app/services/transfer_service.py:70-182 | A schedule that no transaction can continue has finished them all. |
| Liveness.NoIndexWait | migrations/versions/0001_initial_schema.py:127-132 | No transaction ever waits on the idempotency index: the sender's wallet lock serialises it. |
| Liveness.WinnerFound | app/services/transfer_service.py:164-170 | After a uq_idem violation the key is present and the second lookup finds the winner exactly when the key is not empty. |
| RequestRuns.RequestStep | app/services/request_service.py:194-200 | One event changes a request only from PENDING, by the right party, under the row lock, with a clock reading before the expiry. |
| RequestRuns.AnsweredForever | app/services/request_service.py:96-101 | A request that has left PENDING keeps its row in every later state. |
| RequestRuns.AlwaysPaidOnce | app/services/request_service.py:219-249 | In every reachable state: EXPIRED is never stored, APPROVED iff linked, the linked payment is the payer's, completed, right amount, receiver and key, distinct requests link distinct payments, every settlement is linked. |
| Settlements.SettledKind | app/services/request_service.py:219-235 | A settling approval links a settlement exactly when the payer had made no transaction under the request's key before; otherwise a transfer. |
| Settlements.LinkedKind | docs/TEST_COMMANDS.md:73 | In every reachable state an approved request links a REQUEST_SETTLEMENT exactly when no committed send of its payer carried the key `request:<id>`. |
| Schedules.ApprovedByTransfer | app/routers/transfers.py:99-108 | A schedule after which an approved request links a TRANSFER. |
| RequestRuns.LockedRowStable | app/services/request_service.py:76-93 | A locked request row does not change under its holder. |
| RequestRuns.LockedBalanceStable | app/services/ledger_service.py:43-62 | A locked wallet's committed balance does not change between the locked read and the commit. |
| RequestRuns.CountPendingIncoming | app/services/request_service.py:171-178 | The count by stored status and expiry is the number of rows whose effective status is PENDING. |
| RequestRuns.CountedIsActionable | app/services/request_service.py:64-101 | A row counts exactly when its payer's approval would pass the judgement. |
| Retries.LateLookupReplays | app/services/transfer_service.py:99-103 | A retry that looks after the commit returns the original. |
| Retries.RetryAnswer | app/services/ledger_service.py:91-106 | A retry caught between returns the original if and only if the sender's committed balance still covers the amount, and is otherwise refused, in every continuation in which it is not cut off. |
| RetryRuns.RetryReturnsOriginal | app/services/transfer_service.py:185-224 | Over whole schedules, a retry whose original was answered with a new transaction returns that one if and only if the recipient was active and the PIN right when it asked, it was not cut off, and it never stood at its balance check while the sender's committed balance was below the amount. |
| RetryRuns.RetryAnswers | app/services/transfer_service.py:59-177 | All that it can answer otherwise: an inactive recipient, a wrong PIN, lack of funds, a lost connection. |
| RetryRuns.FundsMeansShort | app/services/ledger_service.py:91-92 | A send refused for lack of funds did stand at its check with too low a committed balance; no later constraint refuses it so. |
| Schedules.RetryRefused | app/services/ledger_service.py:91-92 | A schedule where the original went through and its retry is refused for lack of funds. |
| Schedules.RetryToInactive | app/services/transfer_service.py:59-67 | A schedule where the original went through and its retry is refused because the recipient has become inactive. |
| Schedules.DriftWithoutRefresh | app/services/ledger_service.py:48-59 | Without the refreshing read a reachable state has drifted from its ledger. |
| Solo.FromCheck | app/services/ledger_service.py:94-132 | An undisturbed send or registration past its balance check commits, with balances computed from the values it read. |
| Supply.SupplyIsGrants | app/services/auth_service.py:107-124 | What users hold together is what the mint is short of, and that is the sum of the signup grants. |
| Supply.AlwaysSupplied | app/config.py:36 | In every reachable state that is grant times the number of grants; at the default grant at most 99,999,999 registrations fit. |
| Supply.RegistrationBound | app/config.py:36 | The same for any sound ledger whose grants are of one amount. |
| Supply.RegistrationOverflows | app/services/auth_service.py:115-124 | A registration overflows exactly when the mint cannot hold the further debit. |
| Supply.TransferFits | migrations/versions/0001_initial_schema.py:83 | A covered transfer between users stays within NUMERIC(15,2) on both sides. |
| Supply.MoveAnswers | app/services/transfer_service.py:94-182 | On a sound ledger a transfer between two users is a replay, a key conflict, a bad amount, lack of funds, or goes through; the index refuses it only for an empty key. |
| Supply.ApproveAnswers | app/services/request_service.py:184-252 | Exactly when an approval pays (right party, pending, before the expiry, PIN, active requester, no conflicting key, covered), and that it fails in no other way than the listed ones. |
| Supply.CheckedTransferGoesThrough | app/services/ledger_service.py:105-110 | Past the balance check, neither the column type nor no_overdraft ever refuses a transfer, in any interleaving. |
| Supply.NeverOverflows | app/services/ledger_service.py:108-110 | No send or approval ever fails for overflow, in any interleaving. |
| Answers.SendAnswers | app/services/transfer_service.py:185-224 | Every answer of a send and its effect, in plain terms of the rows: inactive or unknown recipient, self, wrong PIN, replay or key conflict, amount, balance; what is left moves the amount between the two wallets and adds one transaction with its debit and credit. |
| Answers.RegisterAnswers | app/services/auth_service.py:76-144 | A taken phone is refused; otherwise the user, the wallet and one grant out of the mint are added, unless the grant is not positive or the mint cannot hold the debit. |
| Answers.PhonesKept | app/services/auth_service.py:90-91 | Whatever is called, a registered phone keeps its user. |
| Answers.PhonesNeverMove | app/services/auth_service.py:137-141 | No schedule ever gives a registered phone to another user. |
| Answers.AskAnswers | app/services/request_service.py:107-149 | Every answer of a new request: who owes whom how much, pending, for 72 hours. |
| Answers.TurnAnswers | app/services/request_service.py:255-311 | A decline by the payer and a cancellation by the requester succeed exactly on an existing, pending, unexpired request, and change its status only; each failing condition has its error, in order. |
| Answers.ActionableForThreeDays | app/services/request_service.py:64-73 | A request that nobody has answered can be declined and cancelled exactly during the 72 hours from its making. |
| Answers.ApproveInOrder | app/services/request_service.py:184-252 | Every answer of an approval, in the order of the code, and its effect: one payment, or none when the key was paid under before, and the request approved and linked. |
| Refusals.EveryDecisionFair | app/services/transfer_service.py:99-182 | A step that refuses or replays answers what the call run alone on the committed tables of that moment would, unless another transaction took the call's key between its lookup and its balance check. |
| Refusals.EveryAnswerJustified | app/services/transfer_service.py:99-182 | In every schedule each refusal and each replay was, at one of the transaction's own steps, the answer of the call run alone, with that one exception and lost connections. |
| Reconcile.LedgerSum | app/services/ledger_service.py:138-142 | The pass over the entries returns their sum. |
| Reconcile.UnbalancedTransactions | app/services/ledger_service.py:145-152 | Exactly the transactions whose entries do not sum to zero. |
| Reconcile.DriftedWallets | app/services/ledger_service.py:155-163 | Exactly the wallets whose balance is not the sum of their entries, wallets without entries included. |
| Reconcile.InsolventWallets | app/services/ledger_service.py:166-171 | The pass over the wallets reports exactly the user wallets below zero; nobody is reported iff the state is solvent. |
| Reconcile.RunReconcile | app/routers/admin.py:48-71 | The report of the four queries: each flag is its invariant on the state its query saw. |
| Reconcile.GreenIffReconciled | app/routers/admin.py:38-43 | On one state the report is green exactly when the ledger reconciles. |
| Reconcile.BalancedImpliesConserved | app/services/ledger_service.py:138-152 | For any entries at all, balanced events imply conservation. |
| Reconcile.NoFalseAlarm | app/routers/admin.py:48-51 | The report is green even when the four queries see four different states of a schedule. |
| Statement.SortedIsOrdered | app/services/statement_service.py:67-73 | The ordered query has exactly the entries, in strictly decreasing (created_at, id). |
| Statement.PageShows | app/services/statement_service.py:67-84 | A page shows the largest keys below the cursor, is full when another page exists, and misses nothing otherwise. |
| Statement.WalkDescends | app/services/statement_service.py:129-131 | Following next_cursor over a growing ledger shows rows in strictly decreasing order, none twice. |
| Statement.WalkShowsAll | app/services/statement_service.py:75-80 | Every entry committed before the first fetch has been shown when the walk ends. |
| Statement.WalkShowsOnly | app/services/statement_service.py:67-73 | Only committed entries are shown. |
| Statement.FixedWalk | app/services/statement_service.py:57-132 | On a fixed ledger of n entries the walk stops after max(1, ceil(n/limit)) pages and shows the whole sorted list. |
| Statement.CounterpartyNames | app/services/statement_service.py:45-54 | One query gives each wallet's owner, and none for the mint. |
| Statement.OtherWallets | app/services/statement_service.py:86-96 | The gathered set is exactly the other wallets of the rows of the page. |
| Statement.OtherSideIsOther | app/services/statement_service.py:90-94 | The other side is the one wallet of the transaction that is not the entry's own. |
| Statement.ClampIsNearest | app/services/statement_service.py:65 | A page limit within 1 to 100 is kept; any other becomes the nearest of the two. |
| Statement.StatementPage | app/services/statement_service.py:57-132 | From the cursor text: the queried rows in order, each with its direction, its transaction's type and the owner of the other wallet, and the text of the next cursor. |
| Statement.FetchPage | app/services/statement_service.py:65-84 | The query with one extra row gives the page below the cursor and whether another exists. |
| Statement.TextWalkIsWalk | app/services/statement_service.py:75-80 | Sending back the cursor text of each answer shows the same rows and ends at the same fetch as following the positions. |
| StatementRuns.PagingOverRuns | app/services/statement_service.py:57-132 | Paging while the system works: decreasing, no repeats, only committed rows, and everything committed before the first fetch. |
| StatementRuns.TextPagingOverRuns | app/services/statement_service.py:28-42 | The same walk results from the cursor text while the system works, however the driver renders times. |
| StatementRuns.OffsetPagingOverRuns | app/services/statement_service.py:28-42 | In particular with times rendered at any one offset, as long as they fall into the years 1 to 9999. |
| StatementRuns.PagesAlwaysRender | app/services/statement_service.py:67-70 | In every reachable state each entry's transaction exists and each wallet has one owner at most. |
| StatementRuns.LineMeans | app/services/statement_service.py:90-125 | In every reachable state a line is a DEBIT exactly when its wallet is the sender's; it names the owner of the other wallet, nobody exactly on a signup grant, and never the wallet's own owner. |
| StatementRuns.OneOwnerEach | migrations/versions/0001_initial_schema.py:86-89 | In every reachable state every wallet but the mint has exactly one owner, and the mint has none. |
| StatementOrder.StatementIsReversed | app/services/statement_service.py:71 | A statement is in reverse id order exactly when created_at never decreases along the ids. |
| StatementOrder.ColumnRuns | docs/ARCHITECTURE.md:279 | For a wallet that never had the same balance twice, the statement's balance column runs exactly when created_at never decreases along the ids. |
| StatementOrder.StatementRunsDown | docs/ARCHITECTURE.md:279 | The same for every wallet of every reachable state; if created_at never decreases the column always runs. |
| StatementOrder.CoincidenceRuns | docs/ARCHITECTURE.md:279 | With balances 100, 0, 50, 0 a column out of order runs by coincidence, so the condition is needed. |
| StatementOrder.StatementOutOfOrder | migrations/versions/0001_initial_schema.py:146 | A schedule after which a statement's balance column does not run. |
| Cursor.CursorRoundTrip | app/services/statement_service.py:28-42 | Decoding the cursor of any timestamp and id gives exactly them; the cursor is URL-safe. |
| Cursor.CursorInjective | app/services/statement_service.py:28-30 | Two positions never share a cursor. |
| Cursor.DecodeCursor | app/services/statement_service.py:33-42 | What decodes, from any text, is a real date and time; otherwise nothing. |
| Cursor.CursorCarriesInstant | app/services/statement_service.py:75-80 | The cursor stands for the row's instant and id. |
| Cursor.SamePosition | app/services/statement_service.py:75-80 | Two cursors stand for one position exactly when made from one id and renderings of one instant, at whatever offsets. |
| Cursor.CursorOrders | app/services/statement_service.py:75-80 | At one offset cursors are ordered as the datetimes they were made from. |
| Calendar.DaysCount | app/services/statement_service.py:29 | The day count starts at zero and grows by one from each date of the calendar to the next. |
| Calendar.StampRenders | app/services/statement_service.py:29 | At any offset every instant of the years 1 to 9999 has a real date and time that denotes it. |
| Calendar.InstantOrders | app/services/statement_service.py:75-80 | At one offset datetimes compare, field by field, as their instants do. |
| Cursor.FromIsoIso | app/services/statement_service.py:29 | ISO text with optional microseconds and any offset reads back. |
| Cursor.IsoLayout | app/services/statement_service.py:29 | A timestamp is printed as YYYY-MM-DDThh:mm:ss, with six digits of a second unless they are zero, then the offset. |
| Cursor.SplitPrinted | app/services/statement_service.py:37 | The last bar is the separator whatever precedes it. |
| Base64.StrippedRoundTrip | app/services/statement_service.py:30-36 | Any bytes survive URL-safe base64 with padding stripped and restored by -len % 4. |
| Base64.DecodeEncode | app/services/statement_service.py:36 | The lenient decoder inverts the encoder. |
| Base64.TestVectors | app/services/statement_service.py:30 | The encoder meets the test vectors of RFC 4648, section 10, and uses the URL-safe alphabet. |
| Base64.ForeignIsSkipped | app/services/statement_service.py:36 | A character outside both alphabets changes nothing in what a string decodes to. |
| Amount.AcceptedExactly | app/schemas/transfer.py:37-52 | A string is accepted iff, trimmed, it is 1 to 13 ASCII digits with at most a two-digit fraction and not zero; the value is the exact poisha count. |
| Amount.AcceptedFits | app/schemas/transfer.py:54-59 | Every accepted amount lies in 1..10^15-1. |
| Amount.FieldOnlyRefusesZero | app/schemas/transfer.py:54-59 | The digit bounds of the field refuse nothing that the pattern lets through. |
| Amount.MatchIsPlain | app/schemas/transfer.py:46-47 | After the trim the newline that the pattern's end anchor tolerates cannot occur. |
| Amount.PrintParse | app/schemas/transfer.py:40-52 | The two-decimal print of any count in range, with any white space around it, parses to that count. |
| Amount.IntegersAccepted | app/schemas/transfer.py:43-46 | An integer is accepted iff it is between 1 and 10^13-1, as that many whole units. |
| Amount.OthersRefused | app/schemas/transfer.py:43-45 | A boolean, a floating-point number and anything else is refused. |
| Lockout.AttemptKeeps | app/services/auth_service.py:168-206 | Between calls the failure count is 0 to 4 and no lock reaches further than 15 minutes. |
| Lockout.WaitEndsLock | app/services/auth_service.py:169-171 | Waiting the reported minutes always ends the lock, and is at most one minute too long. |
| Lockout.CountStays | app/services/auth_service.py:176-190 | The failure count stays in 0..4 over any sequence of attempts, successes included. |
| Lockout.LockoutBound | app/services/auth_service.py:42-43 | In any sequence of attempts at most 5 * (floor(T / 15 min) + 1) passwords are compared in T, and 5 more per success. |
| Lockout.BoundIsReached | app/services/auth_service.py:178-190 | For every n some attempts over n windows, none successful, reach that bound exactly. |
| Lockout.AttemptAnswers | app/services/auth_service.py:168-206 | Every answer of an attempt and the row it leaves, in minutes and microseconds: a right password clears count and lock, the fifth wrong one locks for 15 minutes. |
| Lockout.CountIsStreak | app/services/auth_service.py:176-203 | Over every run the failure count is the number of wrong passwords answered since the last login or lock, and is 0 while a lock lasts. |
| Lockout.FifthInARowLocks | app/services/auth_service.py:176-190 | An attempt locks an account exactly when it is the fifth wrong password compared in a row since the last login or lock. |
| Lockout.User.LogIn | app/services/auth_service.py:168-206 | The method on the user row is the specified attempt: lock, inactive account, failure, fifth failure, success. |
| Lockout.Authenticate | app/services/auth_service.py:150-206 | An unknown phone is answered like a wrong password and changes nobody's row. |
| SessionFamilies.RotateKeeps | app/services/auth_service.py:246-336 | Any rotation keeps at most one live session per family, and a dead family stays dead. |
| SessionFamilies.RotateAnswers | app/services/auth_service.py:276-336 | Exactly when a rotation is granted, is a detected reuse, or is refused; a granted one retires that session and adds a successor of the same family and user for seven days; a detected reuse blocks the family and no other row. |
| SessionFamilies.SpentTokenKills | app/services/auth_service.py:283-296 | Presenting a blocked session blocks its whole family. |
| SessionFamilies.IssueKeeps | app/services/auth_service.py:212-236 | A login starts a new family and disturbs no other. |
| SessionFamilies.IssueAnswers | app/services/auth_service.py:212-236 | A login adds one live session for seven days that is the first of its family. |
| SessionFamilies.LogoutEnds | app/services/auth_service.py:339-344 | Logging out ends that session and touches no other; its token presented later is a detected reuse. |
| SessionFamilies.BlockKeeps | app/services/auth_service.py:339-344 | Logging out revives nothing. |
| SessionFamilies.SessionTable.IssueTokens | app/services/auth_service.py:212-236 | The method adds exactly the specified root session. |
| SessionFamilies.SessionTable.RevokeFamily | app/services/auth_service.py:239-243 | One statement blocks exactly the family. |
| SessionFamilies.SessionTable.RotateTokens | app/services/auth_service.py:246-336 | The method is the specified rotation, branch by branch. |
| SessionFamilies.SessionTable.LogOut | app/services/auth_service.py:339-344 | The method blocks exactly the session, if it exists. |
| SessionRaces.ReachableInv | app/services/auth_service.py:256-336 | The invariant of sessions, row locks and staged rotations holds after every schedule. |
| SessionRaces.AtMostOneLive | app/services/auth_service.py:258-275 | At row-lock granularity each family has at most one live session in every reachable state. |
| SessionRaces.RotationRetires | app/services/auth_service.py:319-333 | A committing rotation retires exactly the session it was granted for, which was still live. |
| SessionRaces.DeadStays | app/services/auth_service.py:239-243 | A family without a live session never has one again, whatever is in flight. |
| SessionRaces.CommitIsWhole | app/services/auth_service.py:256-344 | At row-lock granularity a login, a rotation and a logout commit what they would do all at once to the committed rows, with the same answer; a revocation blocks the members it saw. |
| SessionRaces.CheckIsRotate | app/services/auth_service.py:276-317 | The check under the row lock grants, revokes or refuses as a rotation of the committed rows would at that moment. |
| SessionRaces.LogoutIsFinal | app/services/auth_service.py:339-344 | In every schedule a session that was there when its logout began is over once the logout is answered, and stays so. |
| SessionWindow.RevocationEnds | migrations/versions/0002_session_family.py:7-9 | A revocation ends the chain exactly when every session that a rotation adds between the snapshot of its UPDATE and its commit is rotated, logged out or caught by another revocation before that commit. |
| SessionWindow.RotationDecides | app/services/auth_service.py:239-243 | If no logout from the family and no other revocation of it commits in between, the family ends dead if and only if no rotation of it does. |
| SessionRaces.ReuseDetectedButAlive | app/services/auth_service.py:283-296 | A schedule where reuse is detected and the family is alive afterwards. |

## Left out

- HTTP routing, dependency wiring, error mapping and response shaping; of the routers only the combination of the four checks is kept, and that a client chooses its key.
- bcrypt, SHA-256, JWTs and random values: PIN and password comparisons are boolean inputs, ids and references are fresh values. A transaction's id is the index of the database transaction that wrote it.
- Rate limiting, the front end, the audit log, notes, IP and user-agent fields, settings loading, migrations as such.
- Foreign-key share locks and everything of PostgreSQL beyond row locks, unique-index waits, savepoints, sequences and per-statement committed snapshots. Locks end at the savepoint rollback or at the end of the transaction.
- `list_requests`: it filters on the stored status, so its open box can show requests that read as expired.
- `statement_service.get_transaction_for_user`, `clean_free_text`: plain lookups and text checks.
- Interleaving: a send or a request starts from the other user's id; looking the phone up is in Services.Session.SendMoney and Services.Session.CreateRequest only. A transaction that waits for a lock reads the row when it gets it.
- RetryRuns.RetryReturnsOriginal: both users are registered when the retry begins, as the code has fetched both before it calls the transfer; whether the recipient was active and the PIN right is what the retry itself read.
- Services.Session.Register: the phone lost to a concurrent registration is refused in the interleaved model only, since one session alone cannot lose that race.
- Liveness.NoWaitCycle: money and request paths only; session rows have no global lock order, and rotation locks one row before the family UPDATE locks the others.
- Lockout.Authenticate: attempts on one account are taken one after another, since the code takes no row lock there; lost updates between simultaneous failures are not modelled.
- Cursor.FromIso: reads the form that isoformat prints, any separator character, and no other of the notations that datetime.fromisoformat takes; Cursor.ReadInt reads a sign and ASCII digits only; text with non-ASCII characters in the decoded bytes counts as malformed.
- Cursor.CursorRoundTrip: a datetime is its fields and its offset; the fold flag and the identity of the zone object are not part of it.
- Statement.StatementPage: how the driver renders an instant is a parameter; the counterparty is a user id instead of a phone and a name, and reference and note are not rendered.
- Amount.Parse: Decimal values are not modelled as inputs, since JSON never yields one; any other JSON value is refused as in the code.
- SessionWindow.RevocationEnds: expiry plays no part in whether a session is live.
- StatementOrder.ColumnRuns: for a wallet that had the same balance twice only one direction is stated, since a column out of order can then run by coincidence, as StatementOrder.CoincidenceRuns shows.
