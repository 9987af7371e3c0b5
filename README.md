# Sputnik posting ledger, modelled in Dafny

Sputnik is a cryptocurrency exchange. Its ledger books every movement of
money as a *journal* of double-entry *postings*. The legs of one
transaction arrive separately; they share a transaction identifier (`uid`)
and each declares how many legs there are (`count`). The ledger collects
the legs of each `uid` in a *posting group*. When the group is complete,
the ledger screens it, writes it to the database in one unit of work,
answers every caller that contributed a leg with the same outcome, and
forgets the group. A group that stays incomplete fails on a timeout.

The model covers this ledger (`server/sputnik/ledger.py`). It also covers
the smaller pieces of integer logic around it:

- the web server's OHLCV (open/high/low/close/volume) buckets;
- the web server's input sanitisers and its capped chat list;
- the browser client's order-book stacking, decimal-place count and chat pane;
- the Postgres plugin's retried query, contract loader and running-balance history;
- the Python trading client's cache of open orders.

Modules follow the source:

| module | file | models |
|---|---|---|
| `Wrappers` | wrappers.dfy | `Option` and `Result` |
| `LedgerErrors` | ledger_errors.dfy | the ledger's exceptions and their codes and messages |
| `Postings` | ledger_postings.dfy | postings on the wire, the posting schema, batch validation, `create_posting` |
| `Checks` | ledger_checks.dfy | readiness and the consistency screen of `atomic_commit` |
| `PostingGroups` | ledger_group.dfy | `PostingGroup`, its one-shot result handles and its timeout state |
| `Store` | ledger_store.dfy | the database session and the outcome of a commit |
| `LedgerEngine` | ledger_engine.dfy | `Ledger` (`atomic_commit`, `post_one`, `post`, the timeout event) and `AccountantExport` |
| `StaleGroups` | ledger_findings.dfy | the life of a group whose timeout fires before it is complete |
| `WebInput` | webserver_input.dfy | `malicious_looking`, HTML escaping, the trade-history clamps, chat `publish` and `get_chat_history` |
| `Ohlcv` | webserver_ohlcv.dfy | `update_ohlcv` and the bucket filter of `get_ohlcv_history` |
| `BrowserClient` | pepsicola.dfy | `decimalPlacesNeeded`, `stackBook`, `onChat` |
| `PostgresPlugin` | postgres.dfy | `MyConnectionPool.runQuery`, `load_contract`, `get_transaction_history` |
| `TradingClient` | trading_client.dfy | `TradingBot.onOrder` |

The stateful parts are classes, and their methods change fields in place:

- `PostingGroup`, with the lists `postings` and `deferreds`;
- the `Ledger`, with its `pending` map;
- the database `Session`;
- the OHLCV history;
- the chat lists;
- the connection pool;
- the order cache.

The book sort of `stackBook` works in place on an `array`. Loops in the
source are `while` loops with invariants. Pure code, such as the
screen, readiness and the clamps, is written as functions.

The ledger's invariant `Ledger.Valid` has four parts:

- every pending group has one handle per posting and at least one posting, and all its postings carry its `uid`;
- a group's handles are distinct and belong to it, and while its timeout is armed every one of them is waiting;
- no two uids share a group, so no two uids share a handle;
- the session is clean between commits, and every committed journal balances (credits equal debits).

Every ledger operation preserves `Ledger.Valid`.

`timeoutConnection` (`server/sputnik/ledger.py:65-70`) fails the group's
handles but does not delete the group from `pending`, unlike the commit
path, which deletes it at `server/sputnik/ledger.py:152`. The model follows
the code; see "## Findings".

## Model

| member | source | states |
|---|---|---|
| `Postings.Decode` | server/sputnik/ledger.py:164-185 | a posting that passes the schema decodes with its uid, count and quantity; the note and the timestamp are present exactly when their keys are |
| `Postings.Encode` | server/sputnik/ledger.py:164-185 | every posting has a JSON form that passes the schema and decodes back to the same posting |
| `Postings.CreatePosting` | server/sputnik/ledger.py:211-216 | the created posting has no uid and no count, so it never passes the schema alone; the timestamp defaults to the clock; the note is stored even when absent, as null |
| `Postings.CreatedPostingConforms` | server/sputnik/ledger.py:211-216 | once a uid and a count are added, a created posting passes the schema exactly when it was given a note, and then decodes to the posting it describes |
| `Postings.ValidateBatch` | server/sputnik/ledger.py:159-196 | an empty batch and a batch with a posting that fails the schema give ARGUMENT_ERROR; a batch with differing uids gives UID_MISMATCH; success means a non-empty, schema-valid batch decoded in order with one uid; no other error |
| `Checks.MaxCount` | server/sputnik/ledger.py:52 | the result bounds every declared count and is the count of some posting |
| `Checks.ReadyIff` | server/sputnik/ledger.py:49-53 | a group is ready exactly when no posting declares more postings than the group holds |
| `Checks.ReadyAfterLastPosting` | server/sputnik/ledger.py:49-53 | the posting that every collected posting waits for makes the group ready |
| `Checks.Screen` | server/sputnik/ledger.py:80-96 | INTERNAL_ERROR for no postings, then TYPE_MISMATCH, then COUNT_MISMATCH, then QUANTITY_MISMATCH, in that order; it passes exactly when the list is non-empty, types and counts agree, and credits equal debits |
| `Checks.SumWherePermutation` | server/sputnik/ledger.py:91-95 | the credit and debit sums do not depend on the order the postings arrived in |
| `Checks.ScreenPermutation` | server/sputnik/ledger.py:80-96 | the screen gives the same verdict for every arrival order of a group |
| `PostingGroups.Handle.constructor` | server/sputnik/ledger.py:44 | a new handle is waiting and belongs to the group that made it |
| `PostingGroups.Handle.Fire` | server/sputnik/ledger.py:55-63 | a waiting handle takes the outcome; firing a fired handle raises AlreadyCalledError and changes nothing |
| `PostingGroups.FanOutDelivers` | server/sputnik/ledger.py:55-63 | when no handle has fired, every handle receives the one outcome and nothing is raised |
| `PostingGroups.FanOutOnce` | server/sputnik/ledger.py:55-63 | a second fan-out over a non-empty group raises AlreadyCalledError and changes no handle |
| `PostingGroups.FanOutStale` | server/sputnik/ledger.py:55-63 | when some handle had fired already, the fan-out raises and leaves that handle and all later ones as they were |
| `PostingGroups.PostingGroup.constructor` | server/sputnik/ledger.py:35-39 | a new group has no uid, no postings and no handles; its timeout is armed exactly when one was given |
| `PostingGroups.PostingGroup.Add` | server/sputnik/ledger.py:41-47 | appends exactly the posting and one fresh waiting handle, sets the uid, keeps the timeout's state and keeps one handle per posting |
| `PostingGroups.PostingGroup.Ready` | server/sputnik/ledger.py:49-53 | ready exactly when every declared count is at most the number of postings |
| `PostingGroups.PostingGroup.FireAll` | server/sputnik/ledger.py:55-63 | disarms the timeout and fires the handles in order, stopping at the first that had fired already, which raises |
| `PostingGroups.PostingGroup.Succeed` | server/sputnik/ledger.py:55-58 | the fan-out of success, with the timeout disarmed |
| `PostingGroups.PostingGroup.Fail` | server/sputnik/ledger.py:60-63 | the fan-out of the given failure, with the timeout disarmed |
| `PostingGroups.PostingGroup.Deliver` | server/sputnik/ledger.py:147-151 | success on every handle after a commit, otherwise the commit's error; when no handle had fired, every handle ends with that one outcome |
| `PostingGroups.PostingGroup.TimeoutConnection` | server/sputnik/ledger.py:65-70 | logs the postings and fails the handles, leaving the postings and the handle list as they were; while the timeout is armed every handle is waiting, so then every handle fails with GROUP_TIMEOUT and nothing raises |
| `Store.Session.Stage` | server/sputnik/ledger.py:111-112 | the journal is staged and nothing is committed yet |
| `Store.Session.Commit` | server/sputnik/ledger.py:113 | an online database appends what is staged to the committed journals; an offline one fails and commits nothing |
| `Store.Session.Rollback` | server/sputnik/ledger.py:134 | discards what is staged and keeps what is committed |
| `Store.ResolveOne` | server/sputnik/ledger.py:102-107 | the user lookup, then the contract lookup, then the note key, each with its own failure; success gives the database posting with the same fields |
| `Store.ResolveAll` | server/sputnik/ledger.py:99-107 | succeeds exactly when every posting resolves, with one row per posting in order; otherwise fails with the error of the first posting that fails |
| `LedgerEngine.ResolveLoop` | server/sputnik/ledger.py:99-107 | the commit loop returns exactly the outcome `ResolveAll` specifies: one database row per posting in order, or the error of the first posting whose user, contract or note is missing |
| `Store.CommitResult` | server/sputnik/ledger.py:77-125 | a screen error wins; success exactly when the screen passes, the database is online and every posting resolves; the journal has the group's type and one row per posting; past the screen the only errors are DATABASE_ERROR and the KeyError of a missing note |
| `Store.CommittedJournalBalanced` | server/sputnik/ledger.py:91-113 | every journal the ledger commits is non-empty, and its credits equal its debits |
| `Store.TradeExample` | server/sputnik/ledger.py:77-115 | Alice's debit and Bob's credit of 100 BTC commit as one "trade" journal; with a credit of 99 the pair gives QUANTITY_MISMATCH |
| `LedgerEngine.FanOutAppended` | server/sputnik/ledger.py:141-151 | once a posting's handle joins a group, the fan-out raises exactly when an older handle had fired; otherwise every handle receives the outcome |
| `LedgerEngine.ResolveAllStops` | server/sputnik/ledger.py:100-107 | once one posting fails to resolve, the postings after it cannot change the outcome |
| `LedgerEngine.Ledger.constructor` | server/sputnik/ledger.py:73-75 | a new ledger has no pending groups and satisfies the ledger invariant |
| `LedgerEngine.Ledger.AtomicCommit` | server/sputnik/ledger.py:77-134 | the result is `True` exactly when the commit succeeds, otherwise its error; exactly the committed journal is added; the session is rolled back clean on every path; the invariant is kept |
| `LedgerEngine.Ledger.PostOne` | server/sputnik/ledger.py:136-154 | every other uid keeps its group, with that group's handles and timeout as they were. An incomplete group holds the posting and a new waiting handle. In a complete group whose handles were all waiting, every handle, old and new, gets the commit's single outcome and the uid is deleted. If a handle had fired already, the journal is still committed, the call raises AlreadyCalledError and the group stays |
| `LedgerEngine.Ledger.Join` | server/sputnik/ledger.py:137-141 | the posting joins the uid's group, or a fresh group, armed exactly when the ledger has a timeout, when the uid has none, and gets a fresh waiting handle |
| `LedgerEngine.Ledger.Extend` | server/sputnik/ledger.py:138-141 | when the uid has a group, that group takes the posting and a fresh waiting handle, its timeout is as it was, the table is unchanged and the invariant is kept |
| `LedgerEngine.Ledger.Open` | server/sputnik/ledger.py:138-141 | when the uid has no group, a fresh group, armed exactly when the ledger has a timeout, holds just this posting and its waiting handle, and enters the table under the uid |
| `LedgerEngine.Ledger.Conclude` | server/sputnik/ledger.py:146-154 | an incomplete group is left waiting with its timeout as it was; a ready group is committed, fanned out and deleted, or kept when the fan-out raises |
| `LedgerEngine.Ledger.CommitGroup` | server/sputnik/ledger.py:146-152 | the commit's journal is recorded, the group's handles receive its outcome, and the uid is deleted unless the delivery raised |
| `LedgerEngine.Ledger.Settle` | server/sputnik/ledger.py:147-152 | the commit result is delivered; the uid is deleted exactly when no handle raised |
| `LedgerEngine.Ledger.Drop` | server/sputnik/ledger.py:152 | removes the uid and nothing else |
| `LedgerEngine.Ledger.Timeout` | server/sputnik/ledger.py:65-70 | an armed timeout fails every handle of the group with GROUP_TIMEOUT and logs the postings; the pending table and the group's postings and handle list are unchanged, and every other uid's group and handles are untouched |
| `LedgerEngine.Ledger.TimeoutDiscarding` | server/sputnik/ledger.py:65-70 | an armed timeout fails every handle of the group with GROUP_TIMEOUT, logs the postings and removes the group; otherwise nothing changes; every other uid's group and handles are untouched |
| `LedgerEngine.Ledger.Post` | server/sputnik/ledger.py:156-201 | a batch that fails validation is refused with its error before any group or journal changes; after a valid batch every other uid keeps its group, with that group's handles and timeout as they were, and the journals only grow; success answers with a fresh handle; the only errors are ARGUMENT_ERROR, UID_MISMATCH and AlreadyCalledError |
| `LedgerEngine.AccountantExport.Post` | server/sputnik/ledger.py:208-209 | the remote entry point passes its postings to the ledger as one batch, with the same refusals, the same errors and the same guarantees for other uids and the journals |
| `StaleGroups.AliceWaits` | server/sputnik/ledger.py:136-154 | Alice's single leg of a two-leg trade waits in its group with an armed timeout |
| `StaleGroups.AliceTimedOut` | server/sputnik/ledger.py:65-70 | the timeout tells Alice GROUP_TIMEOUT and leaves her group pending |
| `StaleGroups.StaleGroupCommits` | server/sputnik/ledger.py:65-70 | after the timeout, Bob's leg still books the trade journal, Bob's call raises AlreadyCalledError, and the group is never removed |
| `StaleGroups.DiscardedGroupWaits` | server/sputnik/ledger.py:136-154 | with the discarding timeout, Bob's leg opens a new group and waits, and nothing is booked |
| `WebInput.MaliciousLooking` | server/sputnik/webserver.py:105-111 | true exactly when the string holds `<`, `>` or `&` |
| `WebInput.Escape` | server/sputnik/webserver.py:1296 | escaping never shortens a string and leaves no `<` or `>` in it |
| `WebInput.EscapeChangesMarkup` | server/sputnik/webserver.py:105-111 | escaping changes a string exactly when it looks malicious |
| `WebInput.ClampTimeSpan` | server/sputnik/webserver.py:297-298 | the span lies in [0, 365*24*3600]; a span in range is kept, out-of-range ones go to the nearer bound |
| `WebInput.TruncateTicker` | server/sputnik/webserver.py:299 | a prefix of the ticker of at most 100 characters, equal to the ticker when it is short enough |
| `WebInput.TruncateMessage` | server/sputnik/webserver.py:1297-1298 | a message of up to 128 characters is kept; a longer one becomes its first 128 characters followed by the bracketed ellipsis |
| `WebInput.ChatLog.constructor` | server/sputnik/webserver.py:120 | the chat list starts empty |
| `WebInput.ChatLog.Publish` | server/sputnik/webserver.py:1287-1314 | nothing is published without a login, for a non-string event or for an empty one; otherwise the escaped nickname and the escaped, truncated message are appended, the list keeps its 50 most recent lines, and the new line is the last |
| `WebInput.ChatLog.History` | server/sputnik/webserver.py:403-404 | the 30 most recent lines, or all when there are fewer, oldest first |
| `Ohlcv.PeriodMicros` | server/sputnik/webserver.py:1417-1421 | exactly minute, hour and day are known periods; each is a positive whole number of minutes in microseconds |
| `Ohlcv.FloorDiv` | server/sputnik/webserver.py:1426 | Python 2 integer division, rounding towards negative infinity |
| `Ohlcv.EndPeriod` | server/sputnik/webserver.py:1426 | the bucket key is the last microsecond of the period that holds the timestamp: `key - pm < ts <= key`, and `key + 1` is a multiple of the period |
| `Ohlcv.EndPeriodUnique` | server/sputnik/webserver.py:1426 | no other period end lies within one period after the timestamp |
| `Ohlcv.Opened` | server/sputnik/webserver.py:1434-1442 | the first trade of a bucket sets open, low, high, close and vwap to its price, the volume to its quantity and the timestamp to the key |
| `Ohlcv.Widened` | server/sputnik/webserver.py:1444-1446 | a further trade keeps the open, widens low and high to its price, and closes at its price; well-formed buckets stay well formed |
| `Ohlcv.Absorbed` | server/sputnik/webserver.py:1444-1450 | as `Widened`, and the trade's quantity is added to the volume |
| `Ohlcv.AbsorbedVwapInRange` | server/sputnik/webserver.py:1447-1449 | with positive volumes, the average price stays between the bucket's low and high |
| `Ohlcv.QueryHistory` | server/sputnik/webserver.py:238-248 | an unknown period is a KeyError; no records for the period is refused with code 0; otherwise exactly the buckets with `start <= key <= end + pm`, with their values |
| `Ohlcv.QueryFindsTrade` | server/sputnik/webserver.py:247-248 | a recorded trade whose timestamp lies in the query window has its bucket in the answer |
| `Ohlcv.OhlcvHistory.constructor` | server/sputnik/webserver.py:1389 | the history starts empty |
| `Ohlcv.OhlcvHistory.UpdateOhlcv` | server/sputnik/webserver.py:1411-1450 | an unknown period is a KeyError and changes nothing. Otherwise only the trade's bucket changes: a new bucket is opened and the previous one returned for dispatch when asked; an existing one is widened and either absorbs the trade or, at zero new volume, raises ZeroDivisionError. Every bucket keeps its key, period, contract and range |
| `BrowserClient.TwosIgnoreFive` | static/pepsiCola.js:249-256 | removing a factor of 5 leaves the count of factors of 2 unchanged |
| `BrowserClient.FivesIgnoreTwo` | static/pepsiCola.js:249-256 | removing a factor of 2 leaves the count of factors of 5 unchanged |
| `BrowserClient.PowerOfTenPlaces` | static/pepsiCola.js:246-258 | `10^k` holds `k` factors of 5 and `k` of 2, so it needs `k` places |
| `BrowserClient.DecimalPlacesNeeded` | static/pepsiCola.js:246-258 | the larger of how often 5 and how often 2 divide the denominator |
| `BrowserClient.Stack` | static/pepsiCola.js:270-282 | no more levels than entries, none exactly for an empty book, and the last level has the last entry's price |
| `BrowserClient.StackStrictlyIncreasing` | static/pepsiCola.js:274-282 | the levels of a sorted book have strictly increasing prices |
| `BrowserClient.StackKeepsQuantity` | static/pepsiCola.js:270-282 | the levels carry the book's whole quantity |
| `BrowserClient.StackKeepsPrices` | static/pepsiCola.js:274-282 | the levels' prices are exactly the book's prices |
| `BrowserClient.SortByPrice` | static/pepsiCola.js:263-265 | sorts the book in place by ascending price, as a permutation of it |
| `BrowserClient.StackBook` | static/pepsiCola.js:260-285 | the book is sorted in place as a permutation; the answer is empty for an empty book and otherwise the levels of its first `min(length, 10)` entries |
| `BrowserClient.StackTop` | static/pepsiCola.js:267-284 | the levels of the first `min(length, 10)` entries, read in order with an entry at the price of the level before it merged into that level; empty for an empty book |
| `BrowserClient.StackBookLevels` | static/pepsiCola.js:270-283 | the answer for a sorted book has strictly increasing prices, the prices of its first ten entries, and their total quantity; each level carries exactly the summed quantity of those entries at its price |
| `BrowserClient.StackSumsEachPrice` | static/pepsiCola.js:274-282 | for a sorted book, each level's quantity is the sum of the quantities of the entries at its price, so runs of equal price are merged with their quantities summed |
| `BrowserClient.ChatPane.constructor` | static/pepsiCola.js:13 | the pane starts empty |
| `BrowserClient.ChatPane.OnChat` | static/pepsiCola.js:31-37 | appends `&lt;user&gt; message`; past 100 lines the oldest is dropped; never more than 100 lines |
| `PostgresPlugin.LeadingFailures` | server/sputnik/webserver/plugins/db/postgres.py:34-42 | counts the leading OperationalErrors, at most 10 |
| `PostgresPlugin.ConnectionPool.constructor` | server/sputnik/webserver/plugins/db/postgres.py:27-30 | one pool is made |
| `PostgresPlugin.ConnectionPool.RunQuery` | server/sputnik/webserver/plugins/db/postgres.py:33-47 | one new pool per OperationalError; the first answer that is not one is returned or raised at once; ten in a row raise the database error |
| `PostgresPlugin.LoadContract` | server/sputnik/webserver/plugins/db/postgres.py:107-137 | zero rows and several rows raise their messages; success exactly for one row, whose ticker, description, denominator, type, full description, tick and lot sizes and denominated and payout tickers it copies; margins exactly for futures; an expiration exactly for futures and predictions |
| `PostgresPlugin.TransactionHistory` | server/sputnik/webserver/plugins/db/postgres.py:175-212 | one entry per row in row order, with the absolute quantity, debit exactly for a negative quantity, and the contract's opening balance plus its row quantities so far |
| `PostgresPlugin.OpeningBalances` | server/sputnik/webserver/plugins/db/postgres.py:182-184 | every contract's starting balance is the sum on its last opening row, and 0 for a contract with no row |
| `PostgresPlugin.TracksStep` | server/sputnik/webserver/plugins/db/postgres.py:194-195 | adding a row's quantity to its contract keeps every balance equal to the opening balance plus the quantities of the rows so far, and the balance stored is the one the entry reports |
| `PostgresPlugin.BalanceSteps` | server/sputnik/webserver/plugins/db/postgres.py:193-209 | consecutive entries of a contract differ by the later entry's quantity: credit adds it, debit subtracts it |
| `TradingClient.TradingBot.constructor` | clients/python/client.py:21 | the order cache starts empty |
| `TradingClient.TradingBot.OnOrder` | clients/python/client.py:94-105 | a cached order that is cancelled or has nothing left is removed; otherwise an order with quantity left is stored under its id; no other id changes |
| `TradingClient.TradingBot.OnOrderKeepingOpen` | clients/python/client.py:98-103 | the corrected update: open orders are stored, cancelled or filled ones removed, and the cache holds only open orders under their ids |
| `TradingClient.CancelledOrderCached` | clients/python/client.py:98-103 | as written, a cancelled order the cache did not know is stored, so the cache holds an order that cannot trade |

## Left out

- Twisted machinery is not modelled: no Deferred callbacks run and there is no reactor. A result handle is a one-shot slot; firing a fired one raises AlreadyCalledError, as a Deferred does.
- The group timeout has no wall clock. The state `TimeoutMixin` keeps in the group is the flag `armed`, and its expiry is the explicit event `Ledger.Timeout`. Restarting the deadline in `add` is not modelled, because it only moves a time.
- Logging is not modelled. The timeout returns the postings it would log, as `logged`. The logs of the failure paths of `atomic_commit` and `post` are omitted.
- The SQLAlchemy session is reduced to known user names, known tickers and an online flag. These three are fixed for the life of a session, so no user, contract or outage can appear or go away while a ledger runs. A failed `.one()` lookup and a failed commit stand for the whole SQLAlchemy error family.
- JSON numbers, quantities, prices and timestamps are integers; floating point is not modelled.
- Checks.Screen: the balance test `is not 0` is modelled as `!= 0`. Under Python 2 this differs beyond `sys.maxint`: a sum that large is a `long`, and `0L is not 0` holds, so the source raises QUANTITY_MISMATCH for a balanced group such as one debit and one credit of 2**63. Such groups, and float sums, are refused by the source but accepted by the model.
- Schema validation checks each posting's fields. The batch is a sequence, so a batch that is not a JSON array is not modelled.
- `create_posting` reads the clock through `dt_to_timestamp(utcnow())`; the clock reading is the parameter `now`.
- `AccountantExport.post` takes its postings as varargs; the model passes them as a sequence.
- Concurrency is not modelled. The reactor is single-threaded and every operation runs to completion.
- LedgerEngine.Ledger.Post: does not state that its answer is the handle of the batch's first posting. Nor does it state what a valid batch did to its own uid's group, or which journals it added. It states that the answer is a fresh handle, that other uids are untouched and that the journals only grow. What each posting does to its group and to the journals is stated by `PostOne`, one posting at a time.
- LedgerEngine.Ledger.PostOne: does not state the timeout of a group that was committed and deleted, because nothing can reach that group afterwards.
- The default timestamps of `get_ohlcv_history` read the clock; the window bounds are parameters. Its `validate` calls are implied by the argument types.
- In `get_ohlcv_history`, a read of an unknown ticker inserts an empty entry into the history, because `ohlcv_history` is a `defaultdict`. That insertion is not modelled, because `QueryHistory` is a pure function over the history.
- The `dispatch` of the previous bucket in `update_ohlcv` is modelled as the returned bucket. The feed address is not modelled.
- In `publish`, the rate-limit sleep, the `print` calls, the chat log file and the `troll_throttle` timestamps are omitted, because they are wall-clock I/O.
- The connection's login is a `username` parameter; the empty string means not logged in.
- The `[True, ...]` envelopes of the RPC answers are omitted.
- In `get_trade_history`, the `int()` of a float time span is not modelled, the span being an integer. The trade list it returns is not modelled either.
- `stackBook` sorts with `Array.prototype.sort`, whose algorithm is unspecified. The model sorts by insertion and states only the sorted order and the permutation. If several entries share a price at the ten-entry cut, which of them fall inside the first ten may differ between engines.
- `stackBook` compares prices with `parseFloat` and `==`. Prices are integers in the model.
- The jQuery and DOM rendering of `onChat` is omitted.
- `decimalPlacesNeeded` is modelled for non-zero integers. Its loops never end on zero, and JavaScript's fractional numbers are not modelled.
- The SQL queries and the `adbapi` pools are not modelled. The rows the queries return are parameters, and so is the answer of each attempt of `runQuery`; `log.err` is omitted.
- `load_contract` renders the full description with `markdown` and converts the expiration with `dt_to_timestamp`. Both conversions are abstracted: the model keeps the row's values.
- `get_transaction_history`'s timestamp conversions are abstracted in the same way.
- `onOrder`'s `pprint` is omitted.

## Findings

| source | as written | input that shows it | evidently intended | confidence | as-written member | corrected member |
|---|---|---|---|---|---|---|
| server/sputnik/ledger.py:65-70 | `timeoutConnection` fails every handle with GROUP_TIMEOUT but leaves the group in `pending`. A later posting of the same uid joins the stale group and completes it. The journal is committed, and then the success delivery raises AlreadyCalledError before the `del` at line 152, so the group is never removed | a timeout of 30; Alice's debit of 100 BTC with uid "tx1" and count 2; the timeout fires; Bob's matching credit with uid "tx1" | a timed-out group is discarded, so that a late posting starts a fresh group and nothing is booked for a transaction whose callers were told it timed out | medium, not executed | `StaleGroups.StaleGroupCommits` | `LedgerEngine.Ledger.TimeoutDiscarding` (its use is shown by `StaleGroups.DiscardedGroupWaits`) |
| clients/python/client.py:99-103 | a cancelled order that the cache does not hold yet, with quantity left, falls through to the `else` branch and is stored | an empty cache and an update for order 7 with `is_cancelled` true and `quantity_left` 5 | the cache keeps only open orders (client.py:173) and never stores a cancelled order | low, not executed | `TradingClient.CancelledOrderCached` | `TradingClient.TradingBot.OnOrderKeepingOpen` |
