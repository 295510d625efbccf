# hypha-rpc in Dafny

A model of the bookkeeping core of hypha-rpc, the bidirectional RPC runtime, with proofs. It
covers the Python client and, where the JavaScript client does the same job by other means, that
form as well.

| file | subject |
|---|---|
| SessionState, SessionRuns, SessionTables, SessionLives, CallOutcomes, SessionIndex, SessionLeak, SessionEngine | Pending calls: the session store, the index of sessions by target, one future and one timer per call, composed with the connection. A step function over 23 kinds of event, the invariants of all its runs, tables of what each event does to sessions, calls and timers, what they mean for calls, for the index and for how long sessions live, and a class whose methods update the same tables in place and are proved to be the step function. |
| ReconnectLoop, ReconnectEvents | The reconnect loop and its flap control: how it can end, how long it waits; the loop as part of the composed machine. |
| Frames, Deframer, LongFrames | The length-prefixed HTTP stream: the one-shot parse, the Python reader, and the JavaScript reader over a doubling array, also where its signed lengths go wrong. |
| ObjectStore | The tree of sessions addressed by dotted paths: create, delete, clean-up of parents. |
| Values, Codec, CallbackRefs, Delivery | Encoding and decoding: fast paths, round trip, callables and generators left in the session store, and what arrives of them on the other side. |
| GraphCopy, TupleCopy | `unmunchify` on real object graphs with cycles; what it makes of tuples. |
| ChunkTransfer, JsAssembly, EvictingCache, SendSemaphore | Long messages: splitting, the receiver's cache, the bounded JavaScript cache, the semaphore of the sender. |
| RemoteIteration | The next/close protocol of remote generators. |
| RintfIndex | Automatic `_rintf` services and their index by caller. |
| CaseConversion | camelCase and snake_case conversion of keys. |
| Heartbeat | The call timer and its heartbeats in logical time. |

Where the source works in place, a class or a method with loops does the same here and is proved
against a function on values; the laws are then lemmas about that function. Arrival and loss of
messages, time, random ids and jitter are parameters: every lemma about runs holds for all of
them. `dafny verify dfyconfig.toml` checks the whole project.

## What the code does not do

Some properties one would expect are false. Each has a concrete or exact statement below.

- **Giving up.** `MAX_RETRY` is 1000000, but the delay is `1.0 * 2 ** retry`, and from retry 1024 on
  that conversion raises OverflowError outside the try block. The loop's task dies there, and the
  branch that closes the connection and rejects the pending calls is never reached
  (`ReconnectLoop.GivesUpIffLimitFits`).
- **peer_not_found with an empty error** deletes the session and stops the timer without rejecting
  the call. If the call's message is out, nothing ends it any more (`CallOutcomes.PeerErrorStrandsIff`,
  `CallOutcomes.StrandedForEver`).
- **The index of sessions** is complete but not sound: that handler looks it up after the deletion, and a
  nested call lists a parent that it has just made again (`SessionIndex.StaleKeyIff`,
  `SessionIndex.SoundnessLostIff`). The clean-up copes with stale keys (`SessionIndex.CleanupRefinesScan`).
- **A parent session made again** by a nested call belongs to nobody, and nothing cleans it up
  (`SessionLeak.FreedIff`, `SessionLeak.LeakedForEver`).
- **A callable whose name has a dot** cannot be called back: the dot becomes a level of the path
  (`CallbackRefs.FunctionResolvesIff`).
- **A list with items directly inside a tuple** is extended twice by `unmunchify`, and once more for each
  further tuple around it (`TupleCopy.CopyIsFaithfulIff`, `TupleCopy.ListsAreRepeated`).
- **A set that holds a tuple** cannot be decoded: the tuple arrives as a list (`Codec.RoundTripIff`).
- **An item that looks like the stop mark** ends the iteration and leaves both entries behind, as do a
  consumer that never starts and a lost close call (`RemoteIteration.Consume`).
- **Frames of 2^31 bytes and more** are cut wrongly by the JavaScript reader (`Frames.LengthsAgreeIff`,
  `LongFrames.LoopAgreesIff`); every fourth of those lengths makes it cut for ever (`LongFrames.NeverEnds`).
- **An incomplete message** is joined by the JavaScript client without an error, where Python raises
  (`JsAssembly.JoinIsWholeIff`).
- **The semaphore** can be overtaken by a call that slips in between a finish and the resumption it
  caused. The order is lost whenever that happens; the limit is exceeded exactly when the woken waiters need
  all the slots left (`SendSemaphore.LimitKeptIff`, `SendSemaphore.OrderLostIff`). The sender's own use is
  safe (`SendSemaphore.BatchRunsToTheEnd`).
- **Registering a service by hand** under the id of an automatic one leaves its caller's bucket listing it
  (`RintfIndex.AddManualKeepsInvIff`, `RintfIndex.IndexAgreesIff`).

The code and its comments differ in two places, where the model follows the code. The docstring of
`_reject_pending_calls` says that sessions are not removed, but the reject callback it calls deletes each
promise session. And two branches of `_encode` cannot be reached, since every dictionary is copied
to a plain one first: those for `OrderedDict` and for `ObjectProxy`.

## Model

| member | source | states |
|---|---|---|
| `CallOutcomes.OutcomeIsFirstVerdict` | python/hypha_rpc/rpc.py:468-699 | Over every run of the events (calls, sends, replies, timers, heartbeats, peer and client loss, manager change, GC, connection events), a call ends with the outcome of the first event that can end it and keeps it for ever; which events can end it, and how, with a session or without, is the separate table `Verdict`. |
| `CallOutcomes.StepSettlesByVerdict` | python/hypha_rpc/rpc.py:2273-2318 | One event settles an unsettled call exactly as the table says, changes no settled one, and takes the session of an unsettled one only if it is a peer_not_found message for it without an error text. |
| `SessionRuns.RunKeepsInv` | python/hypha_rpc/rpc.py:485-495 | Every run keeps the invariant: the index lists each session under its target and has no empty bucket; a promise session belongs to an unsettled call or a failed send; an unsettled call with a session whose message is out has a running timer; closed and notified means nothing sent with a session is pending. |
| `SessionRuns.StepKeepsInv` | python/hypha_rpc/rpc.py:1647-1798 | Each single event keeps that invariant, whatever its texts, re-entrant callbacks and stale index keys included. |
| `SessionTables.StoreEvolves` | python/hypha_rpc/rpc.py:468-699 | The life of a session, for every event and every key: which event makes it, with which target, promise and time stamp; what changes it; and exactly when it goes, a fire-and-forget call's own session, the 600 seconds of the sweep and the manager's target included. |
| `SessionTables.CallsFollow` | python/hypha_rpc/rpc.py:468-699 | The record of a call, for every event and every call: what a new one starts with, and that only a send is written into an old one, apart from its outcome and timer. |
| `SessionTables.TimersFollow` | python/hypha_rpc/rpc.py:389-432 | The timer of a call, for every event: what starts it over, what stops it, and that nothing else touches it. |
| `SessionLives.SweepTakesIff` | python/hypha_rpc/rpc.py:1741-1798 | One sweep takes a session if and only if it has no promise, has a time stamp and was last active more than 600 seconds ago; it leaves the others as they are and takes each key out of its target's bucket. |
| `SessionLives.RecentSessionsAreSpared` | python/hypha_rpc/rpc.py:1741-1798 | A session that began or was called into at some time is spared by every sweep of every run up to 600 seconds later. |
| `SessionLives.IdleSessionsGo` | python/hypha_rpc/rpc.py:1741-1798 | A session without a promise that is not called into any more goes with the first sweep later than that, whatever else the run does. |
| `SessionLives.ManagerChangeRejects` | python/hypha_rpc/rpc.py:880-905 | When the connection comes back with another manager, no session that targets the manager of the connection before is left, and no call with such a session stays unsettled. |
| `SessionLives.DisconnectRejects` | python/hypha_rpc/rpc.py:1103-1124 | After the user's disconnect the end of the listening task rejects every call that has a session, whatever happened in between, unless the connection was opened again. |
| `CallOutcomes.NoCallIsStranded` | python/hypha_rpc/rpc.py:523-559 | In every reachable state an unsettled call is not sent yet, or has a session and a timer that can fire, or is one that a peer_not_found message without an error text was about. |
| `CallOutcomes.SessionLostIffTaken` | python/hypha_rpc/rpc.py:2806-2830 | While a call stays unsettled it loses its session if and only if such a message for it occurs in the run. |
| `CallOutcomes.PeerErrorStrandsIff` | python/hypha_rpc/rpc.py:2806-2830 | A peer_not_found message deletes the session it names and stops its timer in any case; it leaves the call unsettled if and only if its text is empty, and without anything that could end it if and only if also the message of the call is out. |
| `CallOutcomes.StrandedForEver` | python/hypha_rpc/rpc.py:2806-2830 | Such a call is never settled by any run that follows. |
| `CallOutcomes.StoredPromisesAreOpen` | python/hypha_rpc/rpc.py:658-670 | In every reachable state a promise session in the store belongs to an unsettled call, except after a failed send. |
| `CallOutcomes.LateEventsAreIgnored` | python/hypha_rpc/rpc.py:2346-2395 | A reply, heartbeat or activity mark for a removed session changes nothing at all; its late timer leaves store, index, every other call and every settled outcome alone. |
| `CallOutcomes.OutagesChangeNoOutcome` | python/hypha_rpc/rpc.py:1103-1124 | In any run from a state that reconnects, with replies, timers, new calls and lost sockets in any order, an unsettled call ends as the run without its outages says, unless the connection is given up. |
| `CallOutcomes.OutageKeepsCalls` | python/hypha_rpc/rpc.py:1103-1124 | Corollary for the tables: while nothing but an outage happens, no session, index entry, outcome or timer changes. |
| `CallOutcomes.ClosedMeansSettled` | python/hypha_rpc/websocket_client.py:636-652 | In every reachable state that is closed with the RPC layer notified, each promise call made before is settled, and one made since can never be sent nor resolved, only rejected; a call that a message without an error text was about is the one exception. |
| `CallOutcomes.ConnectionEvolvesAlone` | python/hypha_rpc/websocket_client.py:518-526 | What happens to the flags and retry counters of the connection does not depend on sessions or calls. |
| `CallOutcomes.GiveUpIsUnreachable` | python/hypha_rpc/websocket_client.py:708-720 | Corollary: in the composed machine the give-up branch of the reconnect loop is never enabled. |
| `SessionIndex.CleanupRefinesScan` | python/hypha_rpc/rpc.py:1672-1693 | Cleaning up through the index removes exactly the sessions a scan of the whole store finds for the client, settles exactly their unsettled promise calls as disconnected, and leaves every other session, call and bucket as it was. |
| `SessionIndex.StaleKeyIff` | python/hypha_rpc/rpc.py:2806-2830 | After a peer_not_found message for a session, its key stays in the index if and only if no reject callback ran for it (it has none, or the text is empty) and the peer is not its target. |
| `SessionLeak.RecreatedParentLeaks` | python/hypha_rpc/rpc.py:3222-3225 | A nested call whose parent session is gone makes it again, without target, time stamp or promise. |
| `SessionLeak.FreedIff` | python/hypha_rpc/rpc.py:1741-1798 | No clean-up, rejection or sweep ever touches such a session: a step frees it if and only if it is a call to one of its entries, a peer_not_found message that names it, or the late timer of a call with its id. |
| `SessionLeak.LeakedForEver` | python/hypha_rpc/rpc.py:1672-1717 | In every run without such a call or message it stays, when its id is nobody's or that of a call that is over. |
| `SessionIndex.SoundnessLostIff` | python/hypha_rpc/rpc.py:485-495 | A step from a sound index leads to an unsound one if and only if it is such a message, or a nested call whose parent is gone or belongs to another target. |
| `SessionEngine.RPC.Dispatch` | python/hypha_rpc/rpc.py:468-699 | Event by event, the in-place code does exactly the step of the transition system, and keeps its invariant. |
| `SessionEngine.RPC.RemoveFromTargetIdIndex` | python/hypha_rpc/rpc.py:1631-1645 | Takes one key out of the bucket of the target its session names, and the bucket when it was the last. |
| `SessionEngine.RPC.InvokeCallback` | python/hypha_rpc/rpc.py:2273-2318 | A wrapped resolve or reject settles the call once, stops the timer, and deletes the session; for a deleted session it does nothing. |
| `SessionEngine.RPC.CleanupSessionEntry` | python/hypha_rpc/rpc.py:1647-1671 | Rejects the promise of the entry when the reason is non-empty, otherwise only stops its timer. |
| `SessionEngine.RPC.CleanupSessionsForClient` | python/hypha_rpc/rpc.py:1672-1693 | The loop over the popped bucket, with callbacks deleting sessions meanwhile, ends in the state of the clean-up specification and returns the number of sessions the client had. |
| `SessionEngine.RPC.CleanupSessionsInPlace` | javascript/src/rpc.js:1360-1382 | The JavaScript twin, which iterates the live bucket while callbacks delete from it, ends in the same state with the same count for every iteration order, and skips no key. |
| `SessionEngine.RPC.RejectPendingCalls` | python/hypha_rpc/rpc.py:1695-1717 | Rejects every promise session of the store, removing it from store and index, touches no other session, and returns how many there were. |
| `SessionEngine.RPC.SessionGc` | python/hypha_rpc/rpc.py:1741-1798 | One sweep deletes a session if and only if it has no promise, has a time stamp and was last active more than 600 seconds ago; the others stay as they are, and the index is that of the sweep. |
| `SessionEngine.RPC.HandlePeerNotFound` | python/hypha_rpc/rpc.py:2806-2830 | The session named in the message, then all others of the peer, in the order and with the lookups the code has. |
| `SessionEngine.RPC.OnConnectionLost` | python/hypha_rpc/rpc.py:1103-1124 | Rejects everything pending, an empty reason as unknown, unless a reconnect may still succeed. |
| `SessionEngine.RPC.OnConnected` | python/hypha_rpc/rpc.py:880-905 | Unless the client is silent, a changed manager id rejects the calls to the old manager and is remembered. |
| `SessionEngine.RPC.HandleResult` | python/hypha_rpc/rpc.py:658-699 | A failed send settles the call through the raw reject and leaves its session; a successful one starts the timer, or settles a fire-and-forget call and deletes its session unless it holds callables. |
| `SessionEngine.RPC.ResetSessionTimer` | python/hypha_rpc/rpc.py:1188-1199 | The reset that a heartbeat and every chunk operation with a heartbeat make: the timer of the session starts over, its time stamp stays. |
| `SessionEngine.RPC.TimeoutCallback` | python/hypha_rpc/rpc.py:523-559 | Settles the call with a timeout and deletes its session from store and index. |
| `ReconnectLoop.ReconnectWithRetry` | python/hypha_rpc/websocket_client.py:577-720 | The attempt that ends the loop decides its exit: every earlier attempt failed and was waited out; established, not supported and aborted attempts and the three ways a wait is cut short each have their exit; a failed attempt from 1024 on overflows; and only the limit gives up. Each wait lies within a tenth of the capped, doubled delay of its retry. |
| `ReconnectLoop.ExitByAttempt` | python/hypha_rpc/websocket_client.py:577-720 | The same of the recursive form, for every number of failed attempts. |
| `ReconnectLoop.RetryWaitBounds` | python/hypha_rpc/websocket_client.py:669-690 | A wait is between 0.9 and 1.1 times min(2^retry, 60) seconds. |
| `ReconnectLoop.GivesUpIffLimitFits` | python/hypha_rpc/websocket_client.py:669-720 | Against a server that stays away, the loop gives up and notifies the RPC layer if and only if its limit is at most 1024; otherwise it dies of the OverflowError of `2 ** retry` as a float. |
| `ReconnectLoop.NeverGivesUp` | python/hypha_rpc/websocket_client.py:669-720 | With any limit above 1024 no behaviour of the server makes it give up. |
| `ReconnectLoop.MaxRetryIsNeverReached` | python/hypha_rpc/websocket_client.py:50-60 | With the limit of 1000000 the code has, from any number of flaps, the whole task never gives up. |
| `ReconnectLoop.FlapControl.NextReconnectRetry` | python/hypha_rpc/websocket_client.py:388-407 | Counts connections that lived less than 5 seconds, resets on any other, and seeds the retry with one less than the count. |
| `ReconnectLoop.FlapControl.Reconnect` | python/hypha_rpc/websocket_client.py:529-575 | The whole task: it updates the flap count, waits first when the seed is not zero, and ends as ReconnectLoop.ReconnectExitTable says of its seed, of the wait and of the loop. |
| `ReconnectLoop.ReconnectExitTable` | python/hypha_rpc/websocket_client.py:529-575 | A connection closed before ends it at once; with a seeded counter the first wait may cancel it, close it, or find the connection restored; and a seed beyond 1024 overflows. |
| `ReconnectLoop.FlapsAreSpacedOut` | python/hypha_rpc/websocket_client.py:545-575 | Of consecutive flaps (less than 5 seconds) the first reconnects at once, the k-th waits between max(1, 0.9 * d) and 1.1 * d seconds for d = min(2^(k-1), 60), and a wait exists exactly up to flap 1024. |
| `ReconnectLoop.FlapsCannotStorm` | python/hypha_rpc/websocket_client.py:545-575 | n consecutive flaps wait at least n - 1 seconds together. |
| `ReconnectLoop.HealthyConnectionResets` | python/hypha_rpc/websocket_client.py:388-407 | A connection that is not a flap reconnects at once and makes the history before it irrelevant. |
| `ReconnectEvents.LoopIsARun` | python/hypha_rpc/websocket_client.py:577-720 | Whatever the server and the waits do, the behaviour of the reconnect loop is a run of the composed machine, and leaves the connection as its exit says: reopened, closed and notified, or as it was, with that loop over. |
| `ReconnectEvents.LoopEndsByAttempt` | python/hypha_rpc/websocket_client.py:577-720 | By what the attempts do: when all before number n failed and were waited out, a refusal leaves the connection closed and the RPC layer notified, a success leaves it open, and anything else that ends the loop leaves the flags as they were. |
| `ReconnectEvents.LostSocketLeadsToLoop` | python/hypha_rpc/websocket_client.py:518-720 | The same from the loss of the socket on, with the loop that this loss starts. |
| `ReconnectEvents.RefusalRejects` | python/hypha_rpc/websocket_client.py:636-652 | A refusal at any attempt leaves no call with a session unsettled. |
| `ReconnectEvents.LoopsBalance` | python/hypha_rpc/websocket_client.py:518-529 | Conservation: over every run, the running loops are those there were, plus one for each loss of the socket, minus one for each end of a loop. |
| `Frames.LengthsAgreeIff` | javascript/src/http-client.js:488-500 | The signed JavaScript length equals the unsigned Python one exactly below 2^31, and is 2^32 less above. |
| `Frames.BigEndian` | python/hypha_rpc/http_client.py:385-405 | The length is big-endian: the first byte decides between two lengths, and the last counts single bytes. |
| `Frames.ParseInvertsWritten` | python/hypha_rpc/http_client.py:385-405 | Parsing a stream that stops anywhere inside or after any written payloads gives exactly the complete payloads and the bytes of the unfinished frame. |
| `Frames.ParseAppend` | python/hypha_rpc/http_client.py:385-405 | Parsing a prefix and going on from its tail is parsing the whole. |
| `Deframer.ProcessStreamPy` | python/hypha_rpc/http_client.py:385-405 | For every cutting into chunks the simple reader returns the frames and the tail of the one-shot parse. |
| `Deframer.ProcessStreamJs` | javascript/src/http-client.js:437-553 | For every stream of frames below 2^31 bytes and every cutting into chunks the array reader (growth, offset loop, copyWithin) returns the frames and tail of the one-shot parse, within bounds, and ends with exactly the capacity the stream requires. |
| `Deframer.ReadChunk` | javascript/src/http-client.js:437-553 | One pass: append with growth, cut, compact; the frames and the rest are the parse of the old rest plus the chunk. |
| `Deframer.CapacityIsTight` | javascript/src/http-client.js:437-553 | That capacity is 4096 doubled some number of times, holds the largest need, and is below twice that need unless it never grew. |
| `LongFrames.LoopAgreesIff` | javascript/src/http-client.js:488-505 | The cutting loop on any bytes, with signed lengths, offsets that go backwards and slices from the end: it ends with the frames of the one-shot parse if and only if no header it meets announces 2^31 bytes or more. |
| `LongFrames.StreamAgreesIff` | javascript/src/http-client.js:437-553 | Over a stream the frames differ from the parse with the first chunk that brings in such a header, and not before. |
| `LongFrames.MiscutFrame` | javascript/src/http-client.js:488-505 | What comes out in place of a long frame: a stretch that ends before the end of the array, bytes never received included, or nothing. |
| `LongFrames.StandsStill` | javascript/src/http-client.js:488-505 | With one particular length the loop cuts for ever without moving. |
| `LongFrames.NeverEnds` | javascript/src/http-client.js:488-505 | With any length of the form 2^32 - 4 - 4k the loop never ends either: it goes in front of the array and comes back to the same header in steps of four, with an empty frame for each. |
| `ObjectStore.CreateLaw` | python/hypha_rpc/rpc.py:3215-3236 | Creating a path makes it resolvable; a present path is left alone, a new one is an empty session, with the keys `_created_at` and `_last_activity_at` at top level and no key below. |
| `ObjectStore.CreateElsewhere` | python/hypha_rpc/rpc.py:3215-3236 | Every path neither on the way to the new one nor below it means what it meant. |
| `ObjectStore.CreateContainers` | python/hypha_rpc/rpc.py:3215-3236 | A container on the way gains at most the next level. |
| `ObjectStore.PruneRemovesOneSubtree` | python/hypha_rpc/rpc.py:2397-2466 | Deleting a session removes exactly one subtree, at the cut level of its path. |
| `ObjectStore.CutLevelIsMaximal` | python/hypha_rpc/rpc.py:2500-2543 | The cut level is where the maximal chain of containers begins that the deletion leaves with no keys but `services` and `message_cache`. |
| `ObjectStore.RemoveAtLaw` | python/hypha_rpc/rpc.py:2397-2466 | Removing a subtree unresolves exactly the paths into it and takes one key from its container. |
| `ObjectStore.CreateDeleteRestoresIff` | python/hypha_rpc/rpc.py:2423-2466 | Creating an absent session and deleting it again restores the store if and only if the deepest container that was already on the path has a key other than `services` and `message_cache`. |
| `ObjectStore.ClimbIsPrune` | python/hypha_rpc/rpc.py:2500-2543 | The bottom-up loop over the parents computes the recursive deletion. |
| `ObjectStore.Store.GetSessionStore` | python/hypha_rpc/rpc.py:3215-3236 | The level-by-level walk in place is the creation law; it fails, changing nothing, exactly where a level is not a dictionary. |
| `ObjectStore.Store.DeleteSessionCompletely` | python/hypha_rpc/rpc.py:2397-2466 | The code in place, clean-up of parents included, is the deletion law. |
| `Codec.EncodeFastIsSlow` | python/hypha_rpc/rpc.py:3287-3324 | For every value the fast paths of encoding give the encoding, and the session store, of the full descent. |
| `Codec.DecodeFastIsSlow` | python/hypha_rpc/rpc.py:3250-3285 | For every wire value the fast paths of decoding give the result of the full descent, failures included. |
| `Codec.RoundTripIff` | python/hypha_rpc/rpc.py:3326-3376 | Decoding the encoding of any plain nested value gives the value with tuples as lists and dictionaries as ObjectProxy, and fails if and only if some set holds a tuple. |
| `Codec.RoundTripFast` | python/hypha_rpc/rpc.py:3741-3796 | The same round trip through the fast paths. |
| `Codec.TypedReturnsIff` | python/hypha_rpc/rpc.py:3685-3704 | A dictionary that uses `_rtype` as data comes back, the type last, if and only if the type is hashable, neither a built-in decoder nor a registered codec takes it for its own, and no set among the other values holds a tuple; for every set of registered codecs, `pydantic_model` included or not. |
| `Delivery.EncodedValuesArrive` | python/hypha_rpc/rpc.py:3326-3663 | A value with any number of callables, generators and remote functions in it, encoded, sent and decoded: the data is in its place, each remote function leads through the sender's store to the callable at the same position and each remote generator to both its methods; decoding fails if and only if some set holds a container. |
| `Delivery.MethodRefDecodes` | python/hypha_rpc/rpc.py:3704-3712 | The reference of a callable decodes to a remote function with the same path. |
| `Delivery.GeneratorRefDecodes` | python/hypha_rpc/rpc.py:3804-3831 | The reference of a generator decodes to a remote generator with the same two paths. |
| `Delivery.OldGeneratorRefDecodes` | python/hypha_rpc/rpc.py:3804-3831 | One without a close method decodes to a remote generator that has none. |
| `Delivery.AnnotatedArrives` | python/hypha_rpc/rpc.py:3371-3384 | A method of a service arrives under its method id, and nothing is stored for it. |
| `Delivery.RemotePassedOn` | python/hypha_rpc/rpc.py:3348-3357 | A remote function that is passed on arrives with the path it had, and nothing is stored for it. |
| `Delivery.CodecsComeFirst` | python/hypha_rpc/rpc.py:3685-3704 | A registered codec is asked before the built-in kinds, and gets the decoded rest of the dictionary. |
| `Delivery.ForeignReachesDecoder` | python/hypha_rpc/rpc.py:3712-3803 | A foreign type of the protocol that no codec takes reaches its decoder as it came. |
| `Delivery.SetOfString` | python/hypha_rpc/rpc.py:3787-3799 | A set written as a string decodes to the set of its characters. |
| `Delivery.TuplesArriveAsLists` | python/hypha_rpc/rpc.py:3874-3877 | A tuple on the wire decodes as the list of its items. |
| `CallbackRefs.PutLaw` | python/hypha_rpc/rpc.py:3371-3414 | Storing under a new key makes exactly that key resolve and keeps every entry that resolved before. |
| `CallbackRefs.FunctionResolvesIff` | python/hypha_rpc/rpc.py:3371-3414 | The path written for a stored callable leads index_object back to it if and only if the name of the callable holds no dot. |
| `CallbackRefs.GeneratorResolves` | python/hypha_rpc/rpc.py:3497-3571 | The two paths of a generator lead to its next and its close method. |
| `CallbackRefs.EncodedRefsResolve` | python/hypha_rpc/rpc.py:119-132 | After encoding any nested value with any number of callables, every reference in the output leads to the callable at the same position, and every older entry resolves as before. |
| `CallbackRefs.Encoder.EncodeValue` | python/hypha_rpc/rpc.py:3326-3663 | The encoder that writes the store while it walks returns the specified encoding and leaves the specified store. |
| `GraphCopy.Unmunchifier.Unmunchify` | python/hypha_rpc/utils/__init__.py:120-164 | On every finite graph of mappings and lists, cycles and sharing included, the copy terminates, is made of new objects, is isomorphic to the part of the graph that is reachable, and has a plain dictionary for every mapping and a list for every list. |
| `GraphCopy.NoMunchLeft` | python/hypha_rpc/utils/__init__.py:137-148 | In an isomorphic copy lists stay lists and every other object is a plain dictionary: no Munch is left. |
| `GraphCopy.Unmunchifier.UnmunchifyCycles` | python/hypha_rpc/utils/__init__.py:125-135 | The memoised step, in the middle of a copy: earlier copies stay, and every object met now has a complete copy, except those still being filled. |
| `GraphCopy.CopyIsIndistinguishable` | python/hypha_rpc/utils/__init__.py:120-164 | Every walk by positions through the copy mirrors the same walk through the original, with the same keys, a list where there is a list and a plain dictionary where there is any mapping. |
| `GraphCopy.SharingIsKept` | python/hypha_rpc/utils/__init__.py:120-164 | Two walks meet in the copy exactly when they meet in the original. |
| `TupleCopy.CopyIsFaithfulIff` | python/hypha_rpc/utils/__init__.py:137-163 | A tree of dictionaries, lists and tuples is copied to itself if and only if no list directly inside a tuple has items. |
| `TupleCopy.ListsAreRepeated` | python/hypha_rpc/utils/__init__.py:150-163 | A list directly inside k nested tuples comes back with its items k + 1 times over. |
| `ChunkTransfer.SplitIsLossless` | python/hypha_rpc/rpc.py:2664-2730 | The chunks are ceil(n / size) many, non-empty, at most size long, and concatenate to the package. |
| `ChunkTransfer.CeilDivMeaning` | python/hypha_rpc/rpc.py:2664-2730 | The chunk count is the smallest whose chunks can hold the package. |
| `ChunkTransfer.SplitPackage` | python/hypha_rpc/rpc.py:2664-2730 | The loop over the slices produces those chunks. |
| `ChunkTransfer.TransferIsLossless` | python/hypha_rpc/rpc.py:1180-1302 | From any cache: the create call succeeds, over an earlier message or not; then in every order, with repetitions and anything under other keys in between, once each chunk has been set, processing returns exactly the package, nothing of the earlier message, and removes the message, or keeps it when it cannot be delivered. |
| `ChunkTransfer.IncompleteIsNotProcessed` | python/hypha_rpc/rpc.py:1260-1302 | Before that, processing fails and keeps the parts, except when the chunks so far are exactly the first ones. |
| `ChunkTransfer.LegacyTransferIsLossless` | python/hypha_rpc/rpc.py:1210-1229 | From any cache the appending transfer, one create and then the appends, gives the same package. |
| `ChunkTransfer.FailsIff` | python/hypha_rpc/rpc.py:1180-1302 | When each operation fails, and with what; a failed one leaves the cache as it was. |
| `ChunkTransfer.TakesEffect` | python/hypha_rpc/rpc.py:1180-1302 | A successful create leaves an empty message, a set or append its part, and process and remove no message. |
| `ChunkTransfer.BeatsIff` | python/hypha_rpc/rpc.py:1180-1302 | An operation resets the timer of a session if and only if it asks for a heartbeat and that session exists, also when it fails afterwards; a removal never does. |
| `ChunkTransfer.MessageCache.ProcessMessage` | python/hypha_rpc/rpc.py:1260-1302 | Joins the parts in index order and removes the message; with a part missing or the message undeliverable it fails and the cache is unchanged. With a heartbeat it resets the timer of the session first, also when it fails then. |
| `ChunkTransfer.MessageCache.SetMessage` | python/hypha_rpc/rpc.py:1231-1252 | Sets one part; fails without the session a heartbeat needs, or without the message; a heartbeat resets the timer of the session. |
| `ChunkTransfer.MessageCache.CreateMessage` | python/hypha_rpc/rpc.py:1180-1208 | Starts an empty message, in place of one that is there if it may be overwritten; fails otherwise, or without the session a heartbeat needs; a heartbeat resets the timer of the session. |
| `JsAssembly.ConcatArrayBuffers` | javascript/src/rpc.js:364-377 | Writing each buffer that is there at its running offset yields the concatenation of those, whatever holes the array has. |
| `JsAssembly.JoinIsWholeIff` | javascript/src/rpc.js:994-1051 | After setting chunks in any order, with repetitions, the joined bytes are the package if and only if no chunk was left out. |
| `SendSemaphore.RunKeepsInvIff` | javascript/src/utils/index.js:485-507 | A run call keeps the limit, full use of the slots and the order if and only if no woken waiter is about to take a slot the call sees free. |
| `SendSemaphore.SlotsAreHandedOn` | javascript/src/utils/index.js:485-507 | Finishing, after success or failure, and resuming always keep them. |
| `SendSemaphore.RunsKeepInv` | javascript/src/utils/index.js:485-507 | So every run of safe calls, finishes and resumptions does. |
| `SendSemaphore.BatchIsSafe` | javascript/src/rpc.js:2403-2426 | Submitting a batch of any size before any task finishes is always safe. |
| `SendSemaphore.NoTaskIsStranded` | javascript/src/rpc.js:2403-2426 | While tasks remain some step is possible and each brings the end nearer; at the end each task ran once, in order of submission. |
| `SendSemaphore.LimitKeptIff` | javascript/src/utils/index.js:485-507 | A run call keeps the limit if and only if it waits or a slot is left for it beside the woken waiters. |
| `SendSemaphore.OrderLostIff` | javascript/src/utils/index.js:485-507 | It keeps the order of submission if and only if it waits or no waiter is woken. |
| `SendSemaphore.BatchRunsToTheEnd` | javascript/src/rpc.js:2403-2426 | A batch of n tasks, submitted first: every run of finishes and resumptions keeps the limit and has at most 2 * n steps, and when none is possible any more every task has started once, in order, and none is running. |
| `SendSemaphore.OvertakingBreaksTheLimit` | javascript/src/utils/index.js:485-507 | Concrete run: a call between a finish and the resumption it caused gives two running tasks for a limit of one. |
| `SendSemaphore.Semaphore.RunTaskNow` | javascript/src/utils/index.js:491-496 | The part of run before its first await: take a slot or queue up. |
| `SendSemaphore.Semaphore.Release` | javascript/src/utils/index.js:499-505 | The finally block: give the slot back and wake the first waiter. |
| `EvictingCache.CacheIsBounded` | javascript/src/rpc.js:928-965 | In every run of create, append, set, process, failed process and remove, refused for want of a session or not, the cache holds at most 256 messages. |
| `EvictingCache.RoomIsMade` | javascript/src/rpc.js:928-956 | Making room always leaves at most 255, whatever was there, and an entry that is not stale goes only if exactly 255 stay. |
| `EvictingCache.StaleEntriesGo` | javascript/src/rpc.js:928-956 | With 256 messages or more, every one older than five minutes goes, however much room is needed. |
| `EvictingCache.TakesEffect` | javascript/src/rpc.js:908-1026 | What create, append, set, process and remove do to the message they name, and that they leave every other one alone but for the eviction of a create. |
| `EvictingCache.OldestGoFirst` | javascript/src/rpc.js:928-956 | No survivor with a time stamp is older than an entry that was removed, and survivors are unchanged. |
| `EvictingCache.MessageCache.CreateMessage` | javascript/src/rpc.js:908-965 | Fails at once without the session a heartbeat needs; otherwise sweep, evict and create in place give the specified cache, and an existing key fails unless overwritten, after the eviction has happened. |
| `EvictingCache.MessageCache.EvictEntries` | javascript/src/rpc.js:928-956 | The two deletion loops compute the cache after making room. |
| `RemoteIteration.Consume` | python/hypha_rpc/rpc.py:3833-3860 | The consumer sees the longest prefix of the items that its wish, the links and the first item imitating the stop mark allow, so all of them after a normal end without such an item; both entries are gone exactly when a close was served or the end was reached by a served call, and nothing else in the session changes. |
| `RemoteIteration.RunDeliversInOrder` | python/hypha_rpc/rpc.py:3497-3571 | For every sequence of next and close calls the items handed out are a gap-free stretch of the generator, the two entries are removed together, and no other entry changes. |
| `RemoteIteration.EachCallGetsTheNext` | python/hypha_rpc/rpc.py:3519-3536 | As long as items are left, each of any number of next calls gets the next item, and the store stays as it is. |
| `RemoteIteration.RemovedCallsFindNothing` | python/hypha_rpc/rpc.py:3497-3571 | After the removal every further call is told so and changes nothing. |
| `RemoteIteration.ClosedOnce` | python/hypha_rpc/rpc.py:3497-3571 | The call that removes the entries removes just those two; a second close, or a close after exhaustion, finds nothing. |
| `RemoteIteration.CloseRemoves` | python/hypha_rpc/rpc.py:3538-3553 | A close that finds the entries removes exactly these two and leaves the generator where it is. |
| `RemoteIteration.AfterTheLastItem` | python/hypha_rpc/rpc.py:3497-3571 | A generator that raises fails one call and keeps its entries; the call after that, or after the last item of any other, gets the mark and removes both. |
| `RemoteIteration.Producer.NextItem` | python/hypha_rpc/rpc.py:3519-3536 | Hands out the next item, passes on an error of the generator, or removes both entries and sends the mark. |
| `RemoteIteration.Producer.CloseGenerator` | python/hypha_rpc/rpc.py:3538-3553 | Removes both entries. |
| `RintfIndex.IndexInEveryRun` | python/hypha_rpc/rpc.py:1560-1599 | In every reachable state, manual registrations included, an id is in the bucket of a caller if and only if it is a registered automatic service of that caller or was one when a service registered by hand took its id; and no bucket is empty. |
| `RintfIndex.IndexAgreesIff` | python/hypha_rpc/rpc.py:1560-1599 | So the index agrees exactly with the services if and only if no id taken that way is left. |
| `RintfIndex.IndexIsAScan` | python/hypha_rpc/rpc.py:1560-1599 | Only one index satisfies that for given services. |
| `RintfIndex.DisconnectRemovesExactly` | python/hypha_rpc/rpc.py:1574-1599 | A disconnect removes exactly the services whose allowed caller it was. |
| `RintfIndex.ServicesEvolve` | python/hypha_rpc/rpc.py:1560-1599 | Which services each operation adds and removes, with which caller; everything else stays as it was. |
| `RintfIndex.LocalIdOfParts` | python/hypha_rpc/rpc.py:2243-2271 | unregister_service looks up the part after the first colon and before the next colon or at sign. |
| `RintfIndex.UnregisterFindsAuto` | python/hypha_rpc/rpc.py:2243-2271 | unregister_service with the id of an automatic service removes it and its index entry. |
| `RintfIndex.AddManualKeepsInvIff` | python/hypha_rpc/rpc.py:1560-1599 | Registering a service by hand keeps the agreement if and only if it does not take the id of an automatic service that has a caller. |
| `RintfIndex.DelayedDisposeIsHarmless` | python/hypha_rpc/rpc.py:3606-3612 | Once a service is gone, its dispose changes nothing, after any further history in which nobody registers its id by hand. |
| `RintfIndex.Registry.CleanupRintfForCaller` | python/hypha_rpc/rpc.py:1574-1599 | The loop over the popped bucket removes what it lists and returns how many services that were; when the index agrees these are exactly the services of the caller. |
| `RintfIndex.Registry.UnregisterService` | python/hypha_rpc/rpc.py:2243-2271 | Up to the await: the lookup of the shortened id; an automatic service is removed and discarded from all buckets, with empty ones deleted on the way; another is left until the manager replies. |
| `RintfIndex.Registry.FinishUnregister` | python/hypha_rpc/rpc.py:2265-2271 | After the await: deletes what is there under the id, or fails when it has gone. |
| `RintfIndex.Registry.UnregisterRintfService` | python/hypha_rpc/rpc.py:1560-1572 | Removes one service and takes its id out of the bucket of the caller, with the bucket when it was the last; safe when it is already gone. |
| `RintfIndex.Registry.EncodeRintf` | python/hypha_rpc/rpc.py:3584-3622 | Registers the service and indexes it under a non-empty allowed caller. |
| `CaseConversion.CamelAfterSnakeIff` | javascript/src/utils/index.js:5-17 | toCamelCase(toSnakeCase(s)) == s for an ASCII string if and only if each underscore is last or before a line end, so for all strings without underscore. |
| `CaseConversion.SnakeAfterCamelIff` | javascript/src/utils/index.js:5-17 | toSnakeCase(toCamelCase(s)) == s for an ASCII string if and only if it has no capitals and each underscore leads a lower-case letter, or is last or before a line end. |
| `CaseConversion.ConvertReturnsIff` | javascript/src/utils/index.js:69-113 | Converting every key of a nested value to one case and back is the identity if and only if every key survives by itself; no entry is lost to a collision then. |
| `CaseConversion.EntriesLostOrKept` | javascript/src/utils/index.js:69-113 | An object never gains entries by conversion to one case, and if it loses none each is converted in place. |
| `CaseConversion.KeysOfForms` | javascript/src/utils/index.js:69-113 | A case type that names both forms, one or none gives an object exactly the keys of those forms. |
| `CaseConversion.BothForms` | javascript/src/utils/index.js:69-113 | Where both forms are named, a key has both, each with its own form of the value, and the snake form where they coincide. |
| `CaseConversion.UntouchedStays` | javascript/src/utils/index.js:69-72 | A falsy case type changes nothing. |
| `CaseConversion.ItemsOfForms` | javascript/src/utils/index.js:69-113 | In an array each item has the snake form if the case type names it, else the camel form; with neither the array is empty. |
| `CaseConversion.ConvertCase` | javascript/src/utils/index.js:69-113 | The loop over the keys of an array or object builds the specified result, both-cases types included. |
| `Heartbeat.ExpiresAfterLastIff` | python/hypha_rpc/rpc.py:389-432 | The timer outlives all resets if and only if no gap between them reaches the timeout, and then expires exactly one timeout after the last; otherwise no later than the last one came. |
| `Heartbeat.ExpiresAtFirstGap` | python/hypha_rpc/rpc.py:389-432 | With a gap it expires one timeout after the last reset before the first gap. |
| `Heartbeat.HeartbeatIsSoundIff` | python/hypha_rpc/rpc.py:2969-3000 | A timer is safe under every schedule if and only if interval, sending time and latency together stay below its timeout. |
| `Heartbeat.CallsAreSafeIff` | python/hypha_rpc/rpc.py:562-593 | A call is safe under every schedule if and only if sending time and latency fit between its interval and its timeout, which is half of the timeout it runs on for every call to an encoded method, of an `_rintf_` service or not, and for every ordinary call. |
| `Heartbeat.Timer.Watch` | python/hypha_rpc/rpc.py:389-432 | The timer object, started once and reset by each heartbeat, fires at the specified time. |

## Left out

- Heartbeat.CallsAreSafeIff: assumes that heartbeats arrive in the order they were sent, as they do on one socket.
- CallOutcomes.ClosedMeansSettled: says nothing of a user's disconnect() before the RPC layer hears of it, and fire-and-forget calls are not promise calls.
- SessionIndex.SoundnessLostIff: targets are not empty, as client ids never are.
- CallbackRefs.EncodedRefsResolve: assumes dot-free names and a session path not blocked by a non-dictionary; the first condition is exact (CallbackRefs.FunctionResolvesIff), the second is where the code raises a TypeError.
- CallbackRefs.Encoder.EncodeValue: has the same two assumptions.
- Delivery.EncodedValuesArrive: has them too; dictionaries in it do not use `_rtype` (Codec.TypedReturnsIff is about those), and no codec is registered for `method`, `generator`, `set` or `memoryview`.
- SessionLives.IdleSessionsGo: a parent session made again by a nested call is the exception (SessionLeak).
- GraphCopy.Unmunchifier.Unmunchify: graphs hold mappings and lists; tuples are treated in TupleCopy, on trees, where no memo is needed.
- CaseConversion.ConvertReturnsIff: keys are ASCII, because upper- and lower-casing of other characters is not modelled.
- RemoteIteration.Consume: overlapping next calls on one generator, and the generator's own close method, are not modelled.
- EvictingCache.CacheIsBounded: what a failed processing leaves behind is modelled as a message without time stamp and parts.
- Codec.RoundTripIff: assumes that no codec is registered under the name of a kind the encoder itself writes (`set`, `memoryview`).
- Codec.DecodeFastIsSlow: a decoded set keeps its elements in order and with repetitions, and what registered codecs and the decoders of foreign types make of a dictionary, or that they raise, is one opaque value.
- CaseConversion.ConvertCase: functions are atoms; the `__name__` and `__schema__` marks put on them, which change the function of the input too, are not modelled.
- LongFrames.LoopAgreesIff: leaves out an array of exactly 2^32 bytes, in which one slice with a negative end comes out right by accident.
- SessionLeak.LeakedForEver: in the engine only calls without a reply are nested; deleting the nested session of a call with a reply would sweep a parent that it leaves empty (ObjectStore).
- SessionEngine.RPC.HandleResult: cancelling the future from the caller's side is outside the model.
- A method timeout of zero, which disables the call timer.
- Deleting a nested session id in the session engine, which takes the live parent out of the index; there sessions are top-level, as promise sessions are.
- `_rintf` dictionaries inside a nested encoding (the registration itself is in RintfIndex), the encoders of registered codecs, numpy arrays, streams, errors and typed arrays.
- The bitwise or of the four length bytes is a sum, as their bits are disjoint.
- What is done with a frame once it is cut: control messages, msgpack, handlers.
- Everything after close(), when the tables are cleared.
- The reconnect logic of the JavaScript websocket client, whose notify-once guard makes its claims differ.
- WebSocket, HTTP, WebRTC and browser input and output, token refresh, login, encryption, permission checks, schema annotation: plumbing or single-branch logic.
