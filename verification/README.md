# MongoBouncer in Dafny

MongoBouncer is a proxy between MongoDB clients and servers. This project models the five parts of it that
carry its hard guarantees, in the form the Go code has, and proves what those parts are for. Objects whose
fields are updated in place are classes here, loops are loops, and each class method is proved to follow a
function on values; the theorems are then about those functions and about whole runs of them.

**Transaction pinning** (`mongo/mongo.go`, `mongo/session_manager.go`). `Protocol` has one round trip as a machine:
look up or create the session, select a server, check out a connection, start, commit or abort, send, update the
caches, and run the stack of deferred actions last in, first out. The driver and the clock answer through an oracle.
`Runs` interleaves any number of round trips through any number of `Mongo` instances that share one session manager,
with inactivity cleanup and cache expiry at any moment. A *legal* run is any such interleaving; in an *orderly* run,
besides, requests of one logical session do not overlap, as MongoDB drivers see to. `Overlap`, `OverlapSteps` and
`OverlapRuns` hold the invariant of all legal runs, `Positions` says where in a run things happened, and
`OverlapTheorems`, `Retries`, `Affinity`, `Escapes`, `Pins`, `Activity`, `Closes` and `Leaks` have the results about
all legal runs: how often a message is written and what each outcome of an attempt leads to, to which server the
caches send it, exactly when a write leaves its transaction's connection, exactly when a transaction has its pins,
exactly how often a connection is closed and when a closed one is written to, and exactly which connections stay open
for ever. `Pinning`, `PinningSteps`, `Traces` and `RunTheorems` have what orderly runs guarantee beyond that.
`LeakRuns` and `OverlapFailures` are concrete runs in which promises fail. `Sessions` and `RoundTrip` are the Go
code's own form, a session manager and a retry loop over session objects; `Refinement` proves that the loop is a
stretch of a run of the machine, so that the results hold of it.

**LRU cache with expiry** (`lruttl/lruttl.go`). `Lru` is the cache as a sequence in recency order. `LruCache` has the
entry objects and the map to them; the doubly linked list of the entries is a sequence of objects there, so that
moving and removing an entry are slices and not changes of links. `LruTheorems` has the results about whole
histories of calls, and `Keys` the two key encodings used with the cache.

**Wire codec** (`mongo/operations.go`). `Wire` has the little-endian and C-string primitives, `MsgCodec` OP_MSG
bodies with their sections, `Operations` the header, the other opcodes and the dispatch, `Layouts` all of it byte by
byte, and `CodecLoops` the loops that grow a buffer or take one apart.

**Router** (`proxy/router.go`). `Patterns` and `PatternTheorems` are about one pattern, `Router` about the route
table, `RouterRuns` about concurrent lookups, changes and cache sweeps under the read-write lock, and
`DatabaseRouters` is the router object with its cache.

**Pool manager** (`pool/pool.go`, `proxy/connection.go`). `Pool` has the manager as a value, `PoolManager` as
objects, `PoolConnection` the request protocol that drives it. `PoolRuns` interleaves any number of client
connections, `PoolCounts` and `PoolSteps` keep its invariant, `PoolTheorems` and `PoolSticky` have the results and
`PoolFailures` two runs that show where the manager falls short.

Where code and documentation differ the model follows the code. Properties that are false of the code are stated with
the exact condition under which they hold, and with an input or a run that shows them fail: pinning when requests of a
session overlap (`Escapes.EscapesExactly`, `OverlapFailures.PinsEscaped`), a start written once
(`OverlapTheorems.StartsAgainExactly`, `OverlapFailures.StartWrittenTwice`), pins for as long as a transaction is in
progress (`Pins.PinsHeldExactly`, `Pins.RestingExactly`, `OverlapFailures.PinsLetGo`), a connection closed once
(`Closes.ClosesExactly`, `Closes.AcceptedClosedOnceExactly`, `OverlapFailures.WritesOnClosed`), no write on a closed
one (`Closes.SendsOnClosedExactly`, `Closes.PinnedWriteOnClosedExactly`, `OverlapFailures.PinnedOnClosed`), every
connection closed in the end (`Leaks.OpenForEverExactly` and the three runs of `LeakRuns`), the round trip of
operations (`Operations.RoundTrip`, `Operations.DeleteNeverRoundTrips`, `Operations.KillCursorsRoundTrip`), the
standard OP_UPDATE (`Operations.StandardUpdateNeverDecodes`), OP_MSG with a missing checksum
(`MsgCodec.CanonicalForm`, `MsgCodec.MissingChecksum`), patterns with inner stars (`PatternTheorems.FastFormExact`,
`PatternTheorems.PrintsBack`), `RemoveRoute` after `AddRoute` (`Router.RemoveUndoesAdd`,
`Router.RemoveTakesPatterns`), the pool counters (`PoolTheorems.Conservation`, `PoolFailures.EndSessionsLeaks`) and
connections of interleaved transactions (`PoolSticky.Sticky`, `PoolFailures.InterleavedTransactionsSwitch`).

## Model

| member | source | states |
|---|---|---|
| Escapes.EscapesExactly | mongo/mongo.go:604-855 | in every legal run, while a transaction is open, a request that is about to write is on its pinned connection if and only if it is bound to the session and is the starter, or checked out after that very start while the pins were set, or the starter had been given a connection that an earlier transaction still pinned and the request's connection goes back to the same opening |
| Escapes.SameConnExactly | mongo/mongo.go:1035-1072 | in every legal run, two requests have the same connection if and only if their last checkouts go back, from pinned checkout to the checkout of the call that started the pinned transaction, to the same opening |
| Escapes.ServerExactly | mongo/session_manager.go:362-371 | in every legal run, the server of such a request is the pinned one if it was selected after the start with the pins in force, and otherwise what the caches, the topology or an earlier pin gave when it was selected |
| Affinity.TransactionAffinity | mongo/mongo.go:989-1032 | in every legal run, a request with transaction details that found no pinned server but its session in the transaction cache writes to the server of the last start of the session answered through its instance, and no commit or abort of it has been answered there since |
| Affinity.CursorAffinity | mongo/mongo.go:989-1032 | in every legal run, a request for a cached cursor, outside a pinned or cached transaction, writes to the server of the last reply through its instance that reported this cursor of this collection, and no reply since has said that it was exhausted |
| Affinity.TopologyOtherwise | mongo/mongo.go:989-1032 | in every legal run, a request that found none of these writes to the server that the topology gave |
| Affinity.TxnsAreLru | mongo/mongo.go:913-944 | in every legal run, an instance's transaction cache is what the answered starts, commits and aborts and the sweeps make of an empty cache for 1048576 sessions and two minutes |
| Affinity.CursorsAreLru | mongo/mongo.go:883-911 | in every legal run, an instance's cursor cache is what the reported and exhausted cursors and the sweeps make of an empty cache for 1048576 cursors and a day |
| Retries.AnswerDecides | mongo/mongo.go:823-874 | in every legal run, after a write the request is tried again if and only if fewer than three retries were made and there was no connection to write on, a retryable error, or an undecodable reply that was asked for; otherwise it is never written again and returns with success exactly if it got a reply or asked for none |
| Retries.SelectionDecides | mongo/mongo.go:604-730 | in every legal run, without a server a request of a session fails for good and any other is tried again up to the fourth attempt; with one it goes on with that server |
| Retries.CheckoutDecides | mongo/mongo.go:1035-1072 | in every legal run, without a connection a request is tried again up to the fourth attempt and then fails for good; with one it goes on with that connection |
| Retries.RefusalDecides | mongo/mongo.go:731-803 | in every legal run, a start on a session that is not active or has a transaction, and a commit or abort when none is in progress, fail for good; all others go on |
| Retries.FourWrites | mongo/mongo.go:549-604 | a request without a session whose every write meets a retryable error is written four times and then fails |
| OverlapTheorems.RetrySafety | mongo/mongo.go:604-874 | in every legal run, one round trip writes its message at most four times, and a commit or abort with transaction details at most once, on every path |
| OverlapTheorems.StartsBoundWrites | mongo/session_manager.go:161-200 | in every legal run, a start is written at most as often as it succeeds |
| OverlapTheorems.StartsAgainExactly | mongo/session_manager.go:165-171 | in every legal run, a start that is tried again succeeds exactly if its session is active and the last thing that happened to the session's transactions, after its own start, is the end of a commit or abort |
| OverlapTheorems.AcceptedCommitCompletes | mongo/mongo.go:803-821 | in every legal run, an accepted commit or abort that has returned, however it went, has closed its connection and reset its session to no transaction and no pins |
| OverlapTheorems.PlainRequestClosesAll | mongo/mongo.go:604-855 | in every legal run, a request without transaction details closes each connection of its attempts exactly once before it returns, and there are at most four |
| OverlapTheorems.StoredSessions | mongo/mongo.go:566-588 | in every legal run, every stored session is active and keyed by the base64 of its own lsid |
| OverlapTheorems.CallsAreSane | mongo/mongo.go:512-956 | no step of any legal run refers to a session or connection that does not exist |
| OverlapRuns.RunIsFree | mongo/mongo.go:512-956 | the invariant of all legal runs: references, owners of connections, at most one pending ending per session, counts of writes and opened connections, caches |
| Overlap.StepGood | mongo/mongo.go:604-956 | each step keeps references sound and touches only the session and the connections of its own call's session |
| Positions.MovesDecide | mongo/session_manager.go:161-254 | in every legal run, a session has no transaction exactly if the last of its starts and resets is not a start, and what it pins, if anything, is what that start pinned |
| Pins.PinsHeldExactly | mongo/session_manager.go:228-318 | in every legal run, after a start that is the session's last start or reset, both pins are set if and only if since then no deferred unpinning of the session ran and no endSessions found it in progress, and it is in progress if and only if no commit or abort was accepted and no endSessions found it in progress |
| Pins.OutcomeExactly | mongo/session_manager.go:203-318 | in every legal run, a transaction is committed after an accepted commit, and aborted after an accepted abort or an endSessions, until the next start or reset |
| Pins.NumberExactly | mongo/session_manager.go:161-254 | in every legal run, a session's transaction number is that of the start that was its last move, and zero otherwise |
| Activity.ActivityIsLastStir | mongo/session_manager.go:126-318 | in every legal run, a session's activity time is the clock reading of the last step that made it, found it, started, committed or aborted on it or ended it |
| Pins.UnpinIsLate | mongo/mongo.go:803-821 | in every legal run, an unpinning that comes after a start belongs to a commit or abort whose own reset of the session came before that start |
| Pins.RestingExactly | mongo/session_manager.go:86-123 | in every legal run, a stored session that no request uses is in progress exactly if its last start or reset is a start, and then has both pins exactly if no such late unpinning came after it |
| Closes.ClosesExactly | mongo/mongo.go:803-821 | in every legal run, a connection has been closed as often as there are steps that run a deferred close of it which is that of an accepted commit or abort or whose session is not in progress; so twice exactly if there are two such steps |
| Closes.NoCloseInProgress | mongo/mongo.go:803-821 | in every legal run, while a transaction is in progress the connections its session had at the start keep their number of closes, and those opened since are open |
| Closes.PinnedWriteOnClosedExactly | mongo/mongo.go:823-855 | in every legal run, while a transaction is in progress, a request on its pinned connection is on a closed one exactly if the start pinned a closed one |
| Closes.SendsOnClosedExactly | mongo/mongo.go:823-855 | in every legal run, a request is about to write on a closed connection exactly if another request of its session has run a close of it with effect, so one without a session never is |
| Closes.AcceptedClosedOnceExactly | mongo/mongo.go:803-821 | in every legal run, the step in which an accepted commit or abort resets its session closes its connection, which has then been closed just once exactly if no other step closed it |
| Closes.ReturnedCommitClosed | mongo/mongo.go:768-821 | in every legal run, a commit or abort that reported success had been accepted, and the connection of an accepted one that has returned is closed |
| Leaks.OpenForEverExactly | mongo/session_manager.go:321-345 | with nothing in flight after any legal run, a connection stays open whatever is done next if and only if it is open and no stored session pins it |
| LeakRuns.RefusedCommitLeaks | mongo/mongo.go:777-790 | a run in which a commit without a transaction is refused and leaves its connection open for ever |
| LeakRuns.RefusedStartLeaks | mongo/session_manager.go:165-167 | a run in which a start on a session that has ended is refused and does the same |
| LeakRuns.CleanedSessionLeaks | mongo/session_manager.go:321-345 | a run in which cleanup of a session with an open transaction does the same |
| OverlapFailures.PinsEscaped | mongo/mongo.go:610-760 | a legal run of two requests of one session in which one writes to another server while the other's transaction is open |
| OverlapFailures.WritesOnClosed | mongo/mongo.go:803-855 | a legal run in which a commit overtakes another request of its session, which then writes on the closed connection and closes it a second time |
| OverlapFailures.StartWrittenTwice | mongo/mongo.go:745-766 | a legal run in which a commit completes between two attempts of a start and the start is written twice |
| OverlapFailures.PinsLetGo | mongo/session_manager.go:228-240 | a legal run in which a commit's last deferred action clears the pins of the transaction started after it |
| OverlapFailures.PinnedOnClosed | mongo/session_manager.go:374-387 | a legal run in which a start has been given the connection of a transaction that is then committed, succeeds, and pins the closed connection; a third request that is neither its starter nor checked out after it shares that connection |
| RunTheorems.LogicalSessionIsPinned | mongo/mongo.go:604-855 | in every orderly run, from a successful start until the transaction finishes, every message of that logical session that carries transaction details is sent on the server and connection pinned at the start, through whichever instance it comes and whatever the caches hold |
| RunTheorems.PinnedUntilFinished | mongo/mongo.go:1035-1072 | the same for a session object, in orderly runs: between its start and its finish all writes bound to it use the pinned server and connection |
| RunTheorems.QuiescentConservation | mongo/mongo.go:803-821 | with nothing in flight after an orderly run, every connection is in exactly one of four states: closed exactly once, pinned by a stored session, pinned by a session that was cleaned up, or left behind by a refused request; the last two, and no others, stay open for ever |
| RunTheorems.RefusalLeavesExactly | mongo/mongo.go:777-803 | in orderly runs a request leaves its connection behind exactly when it is a commit or abort with no open transaction or a start on a session no longer active |
| RunTheorems.ClosedAtMostOnce | mongo/mongo.go:803-821 | in orderly runs no connection is closed twice |
| RunTheorems.NeverSendsOnClosed | mongo/mongo.go:823-855 | in orderly runs a message is never written to a connection that has been closed |
| RunTheorems.StartWrittenOnce | mongo/session_manager.go:169-171 | in orderly runs a start is written at most once, like a commit or abort |
| RunTheorems.AcceptedWasPinned | mongo/session_manager.go:203-224 | in orderly runs the connection of an accepted commit or abort is one that a start pinned to the same session |
| RunTheorems.AcceptedCommitIsOver | mongo/session_manager.go:228-254 | in orderly runs, when an accepted commit or abort is done, the session has no transaction and no pins, and the connection pinned at the start has been closed exactly once |
| RunTheorems.FinishedCommitStaysClosed | mongo/mongo.go:803-821 | that stays so for the rest of an orderly run, and every commit or abort that reported success had been accepted |
| RunTheorems.SessionTable | mongo/session_manager.go:86-123 | in orderly runs a stored session that no request uses is in progress exactly when both pins are set, and otherwise has no transaction |
| Runs.RunKeepsInv | mongo/mongo.go:512-956 | the invariant of orderly runs: sessions, pins, deferred closes, connections and the trace |
| Refinement.MethodIsRun | mongo/mongo.go:512-956 | the round-trip method, called in any state a legal run can reach and whatever the driver answers, does to the state what a stretch of a run of the concurrent machine does |
| Refinement.CallIsRun | mongo/mongo.go:604-956 | the steps of one call, taken one after another, are such a stretch |
| PinningSteps.StepKeeps | mongo/mongo.go:604-956 | each step of a round trip keeps the call's own invariant: who is responsible for closing each connection it holds |
| PinningSteps.FrameKeepsOther | mongo/session_manager.go:161-318 | and it leaves the invariant of every call of another session alone |
| Traces.StepTrace | mongo/session_manager.go:161-254 | each step keeps the history in agreement with the session objects: what was started and not finished is what is pinned |
| RoundTrip.Mongo.RoundTrip | mongo/mongo.go:512-956 | the method's result and final state are those of iterating the protocol's steps on the driver's answers |
| RoundTrip.Mongo.Attempts | mongo/mongo.go:604-956 | the retry loop, with its counter and its growing stack of deferred actions, follows the steps |
| RoundTrip.Mongo.Attempt | mongo/mongo.go:604-956 | one pass of the loop follows the steps and says whether the loop continues |
| RoundTrip.Mongo.Unwind | mongo/mongo.go:803-821 | the deferred actions run last in, first out, all of them |
| RoundTrip.Mongo.RunDeferred | mongo/mongo.go:803-821 | one deferred unpin or close does what the protocol's step does |
| RoundTrip.Mongo.SelectServer | mongo/mongo.go:989-1032 | transaction cache, then cursor cache, then topology |
| RoundTrip.Mongo.CheckoutConnection | mongo/mongo.go:1035-1072 | the pinned connection of a session in a transaction, else a new one, else a retry |
| RoundTrip.Mongo.BeginTransaction | mongo/mongo.go:731-766 | a start pins server and connection or refuses the request |
| RoundTrip.Mongo.ActOnTransaction | mongo/mongo.go:768-821 | commit, abort and endSessions move the session and push the deferred actions in the order of the code |
| RoundTrip.Mongo.Exchange | mongo/mongo.go:823-875 | the wire exchange: tried again exactly after the want of a connection, a retryable error or an undecodable reply that was asked for, up to three times; a reply exactly when one came and was asked for; success exactly when none was asked for and no error came |
| RoundTrip.Mongo.StoreCursor | mongo/mongo.go:883-911 | a reported cursor is remembered for its server, an exhausted one forgotten |
| RoundTrip.Mongo.StoreTransaction | mongo/mongo.go:913-944 | the transaction cache follows starts, commits and aborts |
| RoundTrip.Mongo.FindSession | mongo/mongo.go:561-565 | an existing live session is found by its lsid and touched |
| RoundTrip.Mongo.CreateSession | mongo/mongo.go:566-588 | a missing session is created active, without transaction, under the base64 of its lsid |
| Sessions.SessionManager.GetSession | mongo/session_manager.go:126-158 | the stored session of the lsid unless it has ended; only its activity time changes |
| Sessions.SessionManager.StartTransaction | mongo/session_manager.go:161-200 | succeeds exactly on an active session without transaction, and then sets number, state and both pins |
| Sessions.SessionManager.CommitTransaction | mongo/session_manager.go:203-225 | succeeds exactly in progress; the pins stay |
| Sessions.SessionManager.AbortTransaction | mongo/session_manager.go:257-274 | succeeds exactly in progress; the pins stay |
| Sessions.SessionManager.UnpinTransaction | mongo/session_manager.go:228-240 | clears both pins of this session and touches no other |
| Sessions.SessionManager.ResetTransactionState | mongo/session_manager.go:243-254 | back to no transaction, number zero and no pins |
| Sessions.SessionManager.EndSession | mongo/session_manager.go:277-318 | aborts and unpins what is in progress, marks the session ended and removes its entry; nothing on an ended one |
| Sessions.SessionManager.GetPinnedServer | mongo/session_manager.go:362-371 | the pinned server only while in progress |
| Sessions.SessionManager.GetPinnedConnection | mongo/session_manager.go:374-387 | the pinned connection while in progress, committed or aborted |
| Sessions.SessionManager.CleanupInactiveSessions | mongo/session_manager.go:321-352 | removes exactly the sessions that have ended or whose activity time is more than the given time ago, open transactions included, and changes no session object |
| Keys.Base64Injective | mongo/session_manager.go:86-123 | different lsids have different session keys (base64, section 4 of RFC 4648) |
| Keys.Base64Standard | mongo/session_manager.go:86-123 | the key is the base64 of section 4 of RFC 4648: groups of three bytes, and for one or two left over the group filled up with zeros and padded |
| Keys.QuadIsNumber | mongo/session_manager.go:86-123 | the four letters of a group are the digits to the base 64 of the number that its bytes make |
| Keys.LettersAre | mongo/session_manager.go:86-123 | the alphabet of RFC 4648, letter by letter |
| Keys.DigitsStandFor | mongo/cursor_cache.go:127-129 | the cursor id in the key is written in decimal without leading zeros |
| Keys.BuildKeyInjective | mongo/cursor_cache.go:127-129 | different pairs of cursor id and collection have different cache keys, for every integer and string |
| LruTheorems.Inclusion | lruttl/lruttl.go:157-238 | on the same calls and clock readings, the list of a smaller cache is a subsequence of that of a larger or unlimited one, values and expiries equal, although the larger one sees hits the smaller misses |
| LruTheorems.LargerCacheHitsToo | lruttl/lruttl.go:182-197 | so whatever the smaller cache answers the larger one answers too |
| LruTheorems.EvictionTakesTheOldest | lruttl/lruttl.go:199-232 | a full cache evicts exactly the key whose last use is oldest, never the one just added |
| LruTheorems.AddLosesNothing | lruttl/lruttl.go:199-212 | an Add that does not find the cache full loses nothing, and what it adds is there |
| LruTheorems.SweepLeavesExactly | lruttl/lruttl.go:80-82 | a key is left by a sweep exactly if it is there and no more than the time to live has passed since its last Add or Get hit |
| LruTheorems.ListIsByRecency | lruttl/lruttl.go:189-212 | after any calls the list is ordered by the last Add or Get hit of each key |
| LruTheorems.HitIsLastStored | lruttl/lruttl.go:182-212 | a hit returns the value last stored under the key |
| Lru.RunKeepsInv | lruttl/lruttl.go:171-238 | after any calls on a monotone clock keys are distinct, the list is sorted by expiry and a nonzero limit is respected |
| Lru.SplitDecides | lruttl/lruttl.go:149-167 | in a list sorted by expiry what a sweep ought to leave is the part in front of the first expired entry |
| LruCache.Cache.Sweep | lruttl/lruttl.go:139-167 | the sweep, which looks only at the back, ends and leaves exactly the entries whose expiry is not before its last clock reading, in their order |
| LruCache.Cache.Add | lruttl/lruttl.go:199-212 | list and map are updated in place as the recency sequence says: overwrite and move, or insert and evict |
| LruCache.Cache.Get | lruttl/lruttl.go:189-197 | a hit moves the entry to the front with a new expiry and returns its value, expired or not |
| LruCache.Cache.Peek | lruttl/lruttl.go:182-187 | the value without moving the entry |
| LruCache.Cache.Remove | lruttl/lruttl.go:214-218 | takes out the key's entry and keeps the others in order |
| LruCache.Cache.RemoveElement | lruttl/lruttl.go:229-233 | takes one entry out of list and map together |
| LruCache.Cache.RemoveOldest | lruttl/lruttl.go:220-227 | takes out the back entry, if there is one |
| LruCache.Cache.RemoveOldestExpired | lruttl/lruttl.go:157-167 | takes out the back entry exactly if its expiry is before now, and nothing else |
| LruCache.Cache.Clear | lruttl/lruttl.go:235-238 | leaves nothing |
| LruCache.Cache.Len | lruttl/lruttl.go:171-173 | the number of entries |
| LruCache.Cache.constructor | lruttl/lruttl.go:46-66 | an empty cache with its limit and time to live |
| MsgCodec.BodyRoundTrip | mongo/operations.go:338-408 | for any flags, sections and checksum, decoding an encoded OP_MSG body gives them back, an unannounced checksum as zero, if and only if every section is well formed and its length fits the 32-bit word |
| MsgCodec.CanonicalForm | mongo/operations.go:338-408 | an accepted body re-encodes to the identical bytes, sequence lengths included, if and only if its bytes end in a checksum whenever the flags announce one |
| MsgCodec.ChecksumIsThere | mongo/operations.go:349-358 | a checksum is read exactly if after the flags come well-formed sections and four bytes more: no section boundary leaves four bytes |
| MsgCodec.MissingChecksum | mongo/operations.go:349-358 | a body that announces a checksum and has none is accepted and re-encodes four bytes longer |
| Operations.MsgCanonical | mongo/operations.go:43-80 | the canonical form of a whole message with its true length in the header, but for the two request-id words |
| Operations.RoundTrip | mongo/operations.go:43-80 | Decode of Encode dispatches to the same opcode and returns the same fields, the request id apart, if and only if the operation is encodable; for every operation the proxy knows |
| Operations.LegacyRoundTrip | mongo/operations.go:154-214 | the same for the bodies of all opcodes other than OP_MSG, document and cursor lists of any length |
| Operations.QueryRoundTrip | mongo/operations.go:154-214 | OP_QUERY with or without selector |
| Operations.ReplyRoundTrip | mongo/operations.go:534-585 | OP_REPLY with any number of documents |
| Operations.GetMoreRoundTrip | mongo/operations.go:641-686 | OP_GET_MORE |
| Operations.UpdateRoundTrip | mongo/operations.go:735-777 | OP_UPDATE |
| Operations.InsertRoundTrip | mongo/operations.go:825-863 | OP_INSERT with any number of documents |
| Operations.KillCursorsRoundTrip | mongo/operations.go:1000-1038 | OP_KILL_CURSORS comes back exactly when its list fits the 32-bit count |
| Operations.UnknownPassesThrough | mongo/operations.go:69-102 | an operation the proxy does not know passes through byte for byte |
| Operations.DeleteNeverRoundTrips | mongo/operations.go:915-956 | no OP_DELETE at all survives the round trip, since the encoder omits the word the decoder skips |
| Operations.StandardDeleteDecodes | mongo/operations.go:915-942 | the decoder does read the standard layout |
| Operations.StandardUpdateNeverDecodes | mongo/operations.go:735-762 | no OP_UPDATE at all in the standard layout, with a zero word in front, is read as what it says |
| Operations.StandardUpdateAccepted | mongo/operations.go:735-762 | a family of OP_UPDATE messages in the standard layout that are not refused but accepted and read with an empty collection name, other flags and another selector |
| Layouts.HeaderLayout | mongo/operations.go:43-80 | an encoded message byte by byte: length, zero, the id it responds to, and the opcode word of its operation, 1, 2001, 2002, 2004 to 2007 or 2013, written out as bytes |
| Layouts.DispatchOnBytes | mongo/operations.go:43-80 | an accepted message is read as the operation whose opcode word its bytes 12 to 15 are, as unknown exactly with any other bytes, with the request id of bytes 4 to 7 |
| Layouts.UnknownAccepted | mongo/operations.go:69-102 | a message with any other opcode is accepted whenever it is long enough for its header and the length in it |
| Layouts.MsgLayout | mongo/operations.go:338-408 | OP_MSG byte by byte, both ways: flags, sections of type 0 and 1, and the checksum when the lowest bit of the flags is set |
| Layouts.QueryLayout | mongo/operations.go:154-214 | OP_QUERY byte by byte, both ways: flags, name, skip, return, query, selector, words little-endian |
| Layouts.ReplyLayout | mongo/operations.go:534-585 | OP_REPLY byte by byte, both ways |
| Layouts.GetMoreLayout | mongo/operations.go:641-686 | OP_GET_MORE byte by byte, both ways |
| Layouts.UpdateLayout | mongo/operations.go:735-777 | OP_UPDATE as the proxy has it, byte by byte, both ways |
| Layouts.InsertLayout | mongo/operations.go:825-863 | OP_INSERT byte by byte, both ways |
| Layouts.DeleteLayout | mongo/operations.go:915-956 | OP_DELETE byte by byte, read with a word in front and written without |
| Layouts.KillCursorsLayout | mongo/operations.go:1000-1038 | OP_KILL_CURSORS byte by byte, both ways |
| Layouts.ListsAccepted | mongo/operations.go:534-560 | exactly which bytes are accepted as OP_REPLY, OP_INSERT, OP_GET_MORE and OP_KILL_CURSORS |
| Layouts.QueryAccepted | mongo/operations.go:154-190 | exactly which bytes are accepted as OP_QUERY |
| Layouts.UpdateAccepted | mongo/operations.go:735-762 | exactly which bytes are accepted as OP_UPDATE |
| Layouts.DeleteAccepted | mongo/operations.go:915-942 | exactly which bytes are accepted as OP_DELETE |
| Wire.ReadAppendCString | mongo/operations.go:1072-1091 | a C string without a zero byte is read back, and what follows it is left |
| Wire.ReadAppendI32 | mongo/operations.go:1068-1083 | a 32-bit word is read back for every value |
| CodecLoops.DecodeMsg | mongo/operations.go:338-387 | the decoding loop returns what the recursive decoder does, errors included |
| CodecLoops.EncodeMsg | mongo/operations.go:394-408 | the encoding loop produces the encoded body |
| CodecLoops.AppendSection | mongo/operations.go:281-323 | a section is appended with its recomputed length |
| CodecLoops.SumLength | mongo/operations.go:308-323 | the 32-bit running sum is the truncated length |
| CodecLoops.EncodeOpMsg | mongo/operations.go:394-408 | header, body and back-patched length make the encoded message |
| CodecLoops.EncodeReply | mongo/operations.go:573-585 | the same for OP_REPLY |
| CodecLoops.EncodeInsert | mongo/operations.go:853-863 | the same for OP_INSERT |
| RouterRuns.CachedRouteIsCurrent | proxy/router.go:72-214 | in every state of every interleaving a cached route is what the current table resolves to |
| RouterRuns.CacheIsLru | proxy/router.go:60-214 | in every interleaving the route cache is what the probes, found routes, changes and sweeps make of an empty cache for 1000 names and five minutes |
| RouterRuns.LookupIsAtomic | proxy/router.go:155-214 | each lookup, cached or not, answers as a table that was current between its beginning and its end, and as that very table if it did not change |
| RouterRuns.ChangesAreExclusive | proxy/router.go:72-152 | no two calls change the table at once, and none while a lookup reads it |
| RouterRuns.StepKeeps | proxy/router.go:72-214 | each step of a lookup, change or sweep keeps locks, cache and answers consistent |
| PatternTheorems.FastFormExact | proxy/router.go:89-111 | the prefix, suffix and contains forms agree with globbing on every name exactly when no star is left in the stored core; otherwise the pattern without its stars is a name on which they differ |
| PatternTheorems.StarFreeCoreIsGlob | proxy/router.go:217-230 | with a star-free core the fast test is the glob test |
| PatternTheorems.PrintsBack | proxy/router.go:266-278 | a pattern is printed back as it was added, except one with stars at both ends whose inside begins or ends with a star |
| Router.BuiltResolves | proxy/router.go:72-127 | after any calls of AddRoute a name resolves to the route added last under it, else the one added first under a pattern that takes it, else the catch-all added last |
| Router.CaseDoesNotMatter | proxy/router.go:72-214 | tables built from patterns that differ in the case of ASCII letters at most answer names that differ in it at most alike |
| Router.AddedIsFound | proxy/router.go:155-170 | a name just added is found in any case of its letters, whatever patterns there are |
| Patterns.LowerForgetsCase | util/parsing.go:115-117 | two names are the same to the router exactly if they differ in the case of ASCII letters at most |
| Router.RemoveUndoesAdd | proxy/router.go:130-152 | on every table, RemoveRoute undoes AddRoute of the same pattern exactly if nothing had its text before and it is lower-case without a star at either end, or was there already; and of the catch-all exactly if none was set |
| Router.RemoveDeletes | proxy/router.go:142-151 | RemoveRoute deletes exactly the exact route of that name and the pattern routes whose stored text it is |
| Router.StoredUnder | proxy/router.go:97-111 | the patterns stored under a name: the name with a star after it, before it, or with any stars on both sides |
| Router.RemoveTakesPatterns | proxy/router.go:142-151 | removing a plain name deletes the prefix, suffix and contains patterns added around it |
| DatabaseRouters.DatabaseRouter.GetRoute | proxy/router.go:155-214 | the table's answer for the lower-cased name, from the cache or not, with the cache kept in agreement and holding the answer if there is one |
| DatabaseRouters.DatabaseRouter.MatchPatterns | proxy/router.go:183-194 | the first pattern that matches, in the order they were added |
| DatabaseRouters.DatabaseRouter.AddRoute | proxy/router.go:72-127 | the new table, and an empty cache |
| DatabaseRouters.DatabaseRouter.RemoveRoute | proxy/router.go:130-152 | the new table, by a filtering loop, and an empty cache |
| DatabaseRouters.DatabaseRouter.GetAllRoutes | proxy/router.go:255-286 | the listing, later patterns replacing earlier routes that print alike |
| DatabaseRouters.ListingIsComplete | proxy/router.go:255-286 | a key is listed exactly if it is an exact name, the print of a pattern, or the catch-all that is set |
| DatabaseRouters.ListingIsExact | proxy/router.go:255-286 | the route listed under a key is the catch-all under the star, else that of the last pattern that prints so, else that of the exact name |
| DatabaseRouters.AddedIsListed | proxy/router.go:266-278 | a pattern just added is listed with its route, under its own text exactly as far as it prints back |
| PoolTheorems.CountersAreExact | pool/pool.go:346-382 | in every state of every run ActiveConnections is the number of connections checked out and not returned, each held by a client or lost; no return met the floor at zero; the client limit holds |
| PoolTheorems.Conservation | pool/pool.go:217-343 | once all clients have unregistered each counter is the number of lost connections; all are zero exactly when no stray return happened, which is always so in session and statement mode |
| PoolTheorems.WholesomeConservation | proxy/connection.go:601-664 | in every mode, if no client sends a transaction-ending command without transaction details or a message whose details say autocommit, all counters are back at zero once all clients have unregistered |
| PoolTheorems.EndsItsTransaction | proxy/connection.go:601-695 | in every reachable state of transaction mode, the return of a request in a transaction gives its connection back and frees the client exactly if its command is commitTransaction, abortTransaction or endSessions, and leaves the client bound otherwise |
| PoolTheorems.LoneReturn | proxy/connection.go:601-695 | the return of a request outside a transaction gives its connection back unless the message says autocommit or its command ends a transaction, and then the connection is lost |
| PoolTheorems.UsingIsByMessage | proxy/connection.go:601-664 | the connection a request is on is of the pool of its message's database, and bound to the client under the message's session and number exactly if it has transaction details without autocommit |
| PoolTheorems.LetInExactly | pool/pool.go:175-204 | a client is let in exactly if there is no limit or fewer clients than the limit are registered, and then bound to nothing |
| PoolTheorems.LostExactly | pool/pool.go:329-337 | a connection is lost exactly when a transaction-mode client returns it with the end-of-transaction mark although the request was not in a transaction |
| PoolSticky.Sticky | pool/pool.go:245-343 | a session-mode client always, and a transaction-mode client within one transaction, uses the same connection again exactly when it has not in between unregistered, ended the transaction or asked for another transaction's connection, whatever else is interleaved |
| PoolSticky.BoundOrReturned | pool/pool.go:217-343 | a connection taken from its client is out of use for good |
| PoolFailures.EndSessionsLeaks | pool/pool.go:329-337 | a run in which endSessions leaves a connection active after everyone has gone |
| PoolFailures.InterleavedTransactionsSwitch | pool/pool.go:276-290 | a run in which a transaction comes back to another connection |
| PoolSteps.StepKeeps | pool/pool.go:129-343 | every step of every client keeps counters, ownership and the pool of each kept connection consistent |
| PoolCounts.GiveBackCounts | pool/pool.go:453-476 | the counter of a connection in use is above its floor, and returning it keeps the counters exact |
| PoolConnection.RoundTripWithPool | proxy/connection.go:601-664 | the manager's state after one request: re-registration on a database change, get, use, return |
| PoolConnection.EnsureRegistered | proxy/connection.go:601-633 | the client is registered under the request's database, or refused with its old registration gone |
| PoolConnection.RoundTripIsRun | proxy/connection.go:601-664 | a request undisturbed by others goes through the concurrent model's steps to that same state |
| PoolManager.Manager.RegisterClient | pool/pool.go:175-204 | an existing client is returned as it is, a new one is added below the limit and refused at it |
| PoolManager.Manager.GetClient | pool/pool.go:207-213 | whether the client is registered, and its record |
| PoolManager.Manager.UnregisterClient | pool/pool.go:217-242 | both kept connections go back to their pools and the client is removed |
| PoolManager.Manager.GetPool | pool/pool.go:129-172 | the database's pool, made on first use with counter zero |
| PoolManager.Manager.GetConnection | pool/pool.go:245-303 | the connection and state each pool mode prescribes, errors included |
| PoolManager.Manager.ConnectionFor | pool/pool.go:276-290 | a transaction's connection is reused, or exchanged for a new one |
| PoolManager.Manager.ReturnConnection | pool/pool.go:307-343 | what each pool mode returns or keeps |
| PoolManager.ConnectionPool.Checkout | pool/pool.go:346-382 | a new connection in use, and the counter one up |
| PoolManager.ConnectionPool.Return | pool/pool.go:453-476 | another pool's connection is ignored; otherwise it is cleared and the counter goes down, not below zero |

## Left out

- RunTheorems.LogicalSessionIsPinned: for orderly runs; when requests of a session overlap the promise is false (`OverlapFailures.PinsEscaped`), and `Escapes.EscapesExactly` says exactly for which requests. A message whose lsid comes without a transaction number or autocommit has no transaction details (`mongo/operations.go:462-487`) and is not covered.
- RunTheorems.PinnedUntilFinished: for orderly runs, for the same reason.
- RunTheorems.AcceptedWasPinned: for orderly runs; otherwise a commit may have checked out before the start, and `Escapes.EscapesExactly` has the exact condition for it too.
- RunTheorems.ClosedAtMostOnce: for orderly runs; `OverlapFailures.WritesOnClosed` shows it fail otherwise, and `Closes.ClosesExactly` has the exact condition.
- RunTheorems.NeverSendsOnClosed: for orderly runs; the same run shows it fail otherwise, and `Closes.SendsOnClosedExactly` has the exact condition.
- RunTheorems.QuiescentConservation: for orderly runs, since it says that a close happens once; for all legal runs `Closes.ClosesExactly` has the number of closes and `Leaks.OpenForEverExactly` what stays open.
- RunTheorems.AcceptedCommitIsOver: for orderly runs; for all legal runs `OverlapTheorems.AcceptedCommitCompletes` says what the commit has done and `Closes.AcceptedClosedOnceExactly` when its connection has been closed just once.
- RunTheorems.FinishedCommitStaysClosed: for orderly runs; `Closes.ReturnedCommitClosed` says the same of all legal runs but for the number of closes, which `Closes.ClosesExactly` has.
- RunTheorems.RefusalLeavesExactly: for orderly runs; what a refusal leaves open in other runs is part of `Leaks.OpenForEverExactly`.
- RunTheorems.StartWrittenOnce: for orderly runs; `OverlapTheorems.StartsAgainExactly` has the exact condition for all legal runs.
- Runs.RunKeepsInv: for orderly runs; `OverlapRuns.RunIsFree` is the invariant of all legal runs.
- RunTheorems.SessionTable: for orderly runs, since `OverlapFailures.PinsLetGo` refutes the half about pins otherwise; for all legal runs `OverlapTheorems.StoredSessions` has the other half and `Pins.RestingExactly` the exact condition for the pins.
- Distributed cache and request forwarding (`mongo/distributed_cache.go`, `mongo/request_forwarder.go`): the model is the local mode, in which server objects are shared by reference.
- The driver: server selection, checkout, the wire and error processing are oracle answers; the nil-server branch cannot occur in local mode. `isRetryableError` compares a lower-cased text with an upper-case word; whether an error is retryable is an oracle answer, so nothing depends on it.
- Two calls of the code are one step of the machine in three places: a close and the reset after it, the test for an active transaction and the close it guards, and the marking and the removal of an ended session. A close changes only the close count of its connection, so taking the first apart could only move a close among the writes and closes of the same connection. The second matters to `Closes.NoCloseInProgress` and `Closes.PinnedWriteOnClosedExactly`: they use that the test and the close it guards are one step, so that no start comes between the two. The last leaves out a lookup that reads the session's state without its lock in between.
- Lock order: a cleanup waits for session locks under the manager's lock, and EndSession for the manager's lock under the session's; that they could wait for each other is not modelled, since no step here blocks.
- RoundTrip.Mongo.RoundTrip: the two caches are held as values of `Lru`, not as `LruCache` objects, so that method does not cover aliasing of cache entries.
- Sleeping between attempts, health checks, logging and metrics: they change no modelled state.
- `SessionManager.CreateSession` and `CleanupExpiredSessions`: not used by the round trip.
- Expiry clocks and limits of the LRU cache are natural numbers; a negative limit is not modelled.
- BSON contents: documents are length-prefixed byte strings of at least four bytes, and command, cursor id and transaction details are given fields of a message.
- The accessors of operations (`CommandAndCollection`, `CursorID`, `String` and the like): string lookups in documents.
- Patterns.Matches: a pattern with a star in the middle is matched by globbing, which is what the regular expression built from it means when the pattern has no other special character and names have no newline.
- Patterns.Lower: ASCII lower-casing only.
- Router.Resolve: routes are known by number; credential clients and lazily made Mongo clients inside a route are not modelled.
- RouterRuns: a waiting writer does not hold back new readers, which allows more interleavings than the lock does.
- PoolManager.Manager.GetConnection: health checks and statistics other than ActiveConnections are not modelled, and a transaction's name is the pair of lsid and number instead of its printed form.
- A panic inside a round trip, which would unregister the client without returning a temporary connection.
- Handshake, authentication, configuration, sockets and process life cycle (`proxy/proxy.go`, `config/`, `mongobouncer.go`).
