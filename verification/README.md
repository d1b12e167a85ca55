# Verified models of the TelosMUD core

This project models the parts of the game server whose correctness spans several operations, several
processes or a whole run, and proves what they keep. Values are datatypes; code that updates fields or loops
is a class or a method proved against a specification function; protocols are step systems whose theorems
hold in every state of every run (`Behavior(run, steps)`).

* **Director orchestration** (`DirectorCore`, `DirectorActor`, `ScopeStore`, `DirectorProtocol`, `DirectorCache`,
  `DirectorBroker`, `DirectorProgress`, `DirectorDelivery`, `DirectorHazards`, `DirectorExamples`). Any number of
  directors share a versioned store and one durable signal stream. Loads and saves are separate steps, a save may
  fail after it landed, several directors may believe they lead, callbacks time out and leave stale copies in inboxes, directors
  crash and are promoted again. Main results: caches and broadcasts are real past store entries, no save overwrites
  what its writer has not seen, a save is accepted exactly when its writer's view is current, the per-source
  high-water suppresses exactly what the same session applied, and no signal is consumed silently. The last two hold
  exactly when messages cannot overtake.
* **Durable transport** (`DurableLog`, `DurableConsumer`, `DurableDelivery`, `DurableHazards`): no lost wakeup,
  gap-free delivery, exact backlog flags, what a stop abandons for good, what ends a consumer, and the accounting of
  every bounded redelivery.
* **Fan-out bus** (`FanoutBus`): ordered lossy delivery, no send on a closed channel, the gate publishes nothing
  under the comms root.
* **Colour markup and console layout** (`ColorMarkup`, `ColorTokens`, `ColorRender`, `ColorSeams`, `ColorSafety`,
  `ColorPaint`, `ColorExamples`, `ColorShipped`, `ColorVocabulary`, `ConsoleText`, `ConsoleFit`, `ConsoleCuts`,
  `ConsoleCell`, `ConsoleSheet`, `ConsoleRows`, `ConsoleHazards`): one tokenizer, `Lex`, under renderer, stripper,
  measurer and truncator; what the terminal shows, and widths of truncated text, cells, rows and spans. The escape
  shape is SGR, section 8.3.117 of ECMA-48; the isolate controls are those of sections 2.4 and 2.5 of UAX #9.
* **Trust ladder and tier changes** (`TrustLadder`, `TrustLadderLint`, `TrustLadderReport`, `TierService`,
  `TierProtocol`): the lint is exact, and no interleaving of promotions mints rank or capability.
* **Content merging and identity** (`KeyedMerge`, `PackMerge`, `LoadMeans`, `ZoneUnion`, `ContentHash`,
  `IdempotencyKey`, with `Decimal` and `StringOrder` beneath them).
* **Scheduled spawns** (`SpawnSchedule`, `SpawnRuns`, `SpawnFaults`, `SpawnRestarts`, `SpawnActor`): schedules run
  over the director's own cache and store, with every read and save allowed to fail; which faults let a boss spawn
  twice, exactly.
* **Channel rosters** (`ChannelRoster`): incremental publishing by any number of directors, whose memories outlive
  their leadership.

`Basics` holds what several modules share.

Things worth knowing, where the code differs from its comments or from what one might expect:

* `truncateVisible` overflows in exactly one case: it cuts right after a lone `{` while a colour is on, and the
  appended reset then reads as literal text (`LoneBraceCut`). `TruncateFitsIff` makes that an equivalence.
  `fitCell` is exact even then, because its padder truncates once more and the second cut is always clean.
* The closing truncation of `renderRow` is never taken: a row built within its accounting already fits.
* The comments on `set` speak of leadership lapsing during a handler; the leader flag only changes on the actor
  goroutine between messages, so within one handler it cannot.
* A sequence number of 0 is suppressed without having been applied; the delivery theorems say so, and publishers
  number from 1 (`internal/scopebus/scopebus.go:318`).
* "No double spawn" fails in four ways, of which the comment on `saveScheduleState` knows the first. The save after
  the spawn never reaches the store: the same director spawns again at its next tick, the next director too unless
  its startup pass postpones the boss under `skip_to_next`. The save lands unconfirmed: the same director goes on
  with the older version it has cached or, with none, cannot read; the next director sees the boss alive. A new
  director can read neither at startup nor at its tick, and has written nothing. A new director cannot read at
  startup, takes the living boss for overdue under `skip_to_next` and saves that; it spawns when the interval is
  over. `SpawnsTwiceIff` and `SpawnsAfterRestartIff` are the exact conditions on the faults.
* `Close` of the durable stand-in wakes every consumer "so its run loop exits"; it does not exit. Only a stop ends
  a consumer (`EndsOnlyIfStopped`), and a woken one waits again on a channel nobody closes
  (`CloseLeavesConsumerParked`).
* Stopping a consumer in the middle of a batch loses the rest of the batch for every later consumer under the same
  id (`RestIsNeverHanded`, `StopLosesAMessage`).
* A director keeps its roster snapshot and poll count when it loses the lead, so its first poll after a failover
  is full only if it starts fresh, although the comment says always; when it leads again and the roster is what
  it last saw, it says nothing although another leader has published something else meanwhile.
* The lint of a ladder with repeated names sees whichever rung the sort puts last; with distinct names the order
  of the rungs does not matter (`OrderDoesNotMatter`).
* A schedule that never spawned counts as overdue, so `skip_to_next` delays its first spawn as well
  (`SkipDelaysFirstSpawn`), although the comment on the zero state calls it due at once.
* Within one zone the first file's list is taken as it is; a ref repeated inside it stays repeated, and later
  files replace its last occurrence (`UnionHolds` speaks of the last value by ref).
* A parked message has recorded one delay more than the window `totalNakWindow` reports.

## Model

| member | source | states |
|---|---|---|
| `DirectorActor.Director.constructor` | internal/director/director.go:178-192 | a fresh director has empty caches, no high-water and is not leader |
| `DirectorActor.Director.Campaign` | internal/director/election.go:57-78 | the leader flag becomes what the lease said, false on an error, and nothing else changes |
| `DirectorActor.Director.SyncSubscription` | internal/director/signals.go:118-160 | the durable consumer follows the leader flag |
| `DirectorActor.Director.Get` | internal/director/state.go:77-91 | a hit reads the cache; a miss loads and caches what it finds |
| `DirectorActor.Director.Set` | internal/director/state.go:106-176 | the whole new cache and result for every combination of store replies, and every failure is recorded |
| `DirectorActor.Director.TrySet` | internal/director/state.go:111-176 | the same without the deferred failure record |
| `DirectorActor.Director.HandleSignal` | internal/director/signals.go:178-261 | dedup, leader gate, armed window over an arbitrary handler, NAK or advance-and-ack, and the deltas sent |
| `DirectorCore.OpFailureFlag` | internal/director/state.go:114-121 | one operation raises the failure flag exactly when it is a set that did not land |
| `DirectorCore.WindowFailureFlag` | internal/director/signals.go:216-223 | a window ends failed exactly when some set in it did not land, whatever the handler did with the error |
| `DirectorCore.StaleFailureIsIgnored` | internal/director/signals.go:216-219 | a failure left over from the tick path changes no later ack, broadcast or high-water |
| `DirectorCore.AckedIffEveryWriteLanded` | internal/director/signals.go:220-260 | a signal that runs is acked if and only if every set its handler attempted landed |
| `DirectorCore.RedeliveryIsSuppressed` | internal/director/signals.go:179-187 | redelivering an acked numbered signal changes nothing and acks, also after a demotion |
| `DirectorCore.NakedIff` | internal/director/signals.go:184-256 | a signal is NAKed iff it is new and the director does not lead or some set of its handler did not land; the high-water stays, and a non-leader is left untouched |
| `DirectorCore.GetMeans` | internal/director/state.go:77-91 | each result of a read and the cache after it, in terms of the cache and the store's answer |
| `DirectorCore.SetMeans` | internal/director/state.go:106-176 | exactly which replies lead to which result of a set, what it leaves cached (an empty value as null), and that it touches nothing else |
| `DirectorCore.SignalMeans` | internal/director/signals.go:178-261 | a whole signal from the replies alone: dedup, refusal, the states its handler goes through, the ack, the high-water, and one broadcast for each landed API set, in order, with its key, value and version, and no others |
| `ScopeStore.SaveGrows` | internal/store/scopestate.go:37-56 | a save is accepted iff the key is absent or at the expected version, then appends its value and returns the new length; otherwise it is lost and changes nothing |
| `ScopeStore.OpKeepsCacheReal` | internal/director/state.go:77-176 | on real store replies an operation keeps every cached entry real and broadcasts only real values |
| `ScopeStore.ReadsAreReal` | internal/director/state.go:77-91 | a read returns a value the store held, or a real absence |
| `ScopeStore.ReadYourWrites` | internal/director/state.go:173-176 | after a successful set the director reads that value back, and every other cached entry is untouched |
| `ScopeStore.ReadIsCurrentIff` | internal/director/state.go:77-91 | a read never refreshes: it is current iff the entry was absent or current |
| `ScopeStore.QuietSetSucceedsIff` | internal/director/state.go:136-176 | an uninterrupted set without store errors succeeds iff its cache entry is absent or current, and its cache is current afterwards |
| `ScopeStore.LandedMeans` | internal/director/state.go:136-176 | the value reaches the store iff the director leads, the call took effect and the version it expects, cached or loaded, is the store's or the store has none; the caller is told so iff the call was confirmed too, and of a loss iff the reload worked |
| `ScopeStore.SetHistories` | internal/director/state.go:136-176 | an uninterrupted set appends its value iff it reached an accepting store, whatever the caller was told, and touches no other key |
| `ScopeStore.SetCaches` | internal/director/state.go:136-176 | a reported success caches the new head; any other outcome keeps the entry or refreshes it from the head before |
| `DirectorCache.CacheAlways` | internal/director/state.go:77-176 | the cache invariant holds in every state of every run |
| `DirectorCache.CachedEntriesAreReal` | internal/director/state.go:77-176 | in every run each cached entry is the value the store held at that version, with matching key sets, however many directors believe they lead |
| `DirectorCache.SavesNeverOverwrite` | internal/director/state.go:156-176 | for every outcome of a save, also one that lands unnoticed: an accepted save appends one value to exactly the head its writer had cached, any other leaves the store alone |
| `DirectorCache.AcceptedSave` | internal/director/state.go:156-176 | the same for one step from any state satisfying the invariant, with what the director then knows |
| `DirectorCache.StoreOnlyGrows` | internal/director/state.go:156-176 | no step of any director rewrites or drops a stored version |
| `DirectorCache.StampsIdentifyValues` | internal/director/signals.go:50-57 | every broadcast carries the value the store held at its stamp, so equal stamps mean equal values |
| `DirectorCache.AcceptedSavesAreBroadcast` | internal/director/signals.go:50-57 | in every run an accepted, reported save of an API set appends exactly one broadcast, with its key, its value and the new length of the key's history, and no other step broadcasts |
| `DirectorProgress.SaveSucceedsIff` | internal/director/state.go:136-176 | in every interleaving the store accepts a save iff its director's view of the key is the current head |
| `DirectorProgress.CurrentStep` | internal/director/state.go:77-176 | a current view stays current under every step of every director that leaves the key's history alone |
| `DirectorProgress.RefreshMakesCurrent` | internal/director/state.go:81-89 | a seeding load, a reload, a successful save, a read of an uncached key and a restart each make the view current, whatever interleaved |
| `DirectorProgress.SavesSucceedAfterRefresh` | internal/director/state.go:136-176 | after any of those, every save of the key is accepted until some write of it reaches the store |
| `DirectorProgress.ColdSavesSucceed` | internal/director/state.go:136-159 | a set from a cold cache is accepted unless some write of the key reaches the store first |
| `DirectorProgress.RetryAfterLossWins` | internal/director/state.go:160-176 | after a loss to any concurrent writer and the reload, the next save of the key is accepted unless some write reaches the store in between |
| `DirectorDelivery.HighWaterIsSeenSet` | internal/director/signals.go:178-183 | for the next inbox message the per-source high-water answers like a full seen-set |
| `DirectorDelivery.DeliveryAlways` | internal/director/signals.go:132-261 | the delivery invariant holds in every state of every run in which messages cannot overtake: one outstanding at a time, or none delivered twice |
| `DirectorDelivery.SuppressedIffAlreadyApplied` | internal/director/signals.go:178-261 | in every such run a numbered signal is suppressed iff this same session already applied and acked it, or its number is 0 |
| `DirectorDelivery.NoSilentConsumption` | internal/director/signals.go:184-261 | a signal the stream moved past was malformed, numbered 0, parked, or run by a believed leader with every write landing |
| `DirectorDelivery.CleanRunLanded` | internal/director/signals.go:219-260 | an acked run had every set saved and held by the store |
| `DirectorDelivery.ResolvedInOrder` | internal/commbus/jetstream.go:60-67 | everything before the newest delivered signal is resolved |
| `DirectorDelivery.ParkedOnlyAfterBudget` | internal/commbus/jetstream.go:69-75 | no signal is delivered beyond its budget and a parked one used all of it |
| `DirectorHazards.OvertakingLosesASignal` | internal/commbus/jetstream.go:60-67 | for every limit of two or more outstanding messages and every budget of two or more, a run suppresses and consumes a signal nobody applied |
| `DirectorBroker.ResolvedExactly` | internal/scopebus/scopebus.go:328-370 | a signal is resolved exactly by the ack of its callback, by being malformed at a delivery, or by being parked after its last attempt |
| `DirectorBroker.AwaitedExactly` | internal/director/signals.go:132-151 | it awaits an answer from each delivery on, unless malformed, until the callback answers or times out or the broker's wait ends |
| `DirectorBroker.DeliveriesAreCounted` | internal/commbus/jetstream.go:60-75 | signals are first delivered in the order of the stream, and each delivery counts against the budget |
| `DirectorBroker.InboxExactly` | internal/director/signals.go:132-151 | a delivery puts the signal last into its director's inbox unless it is malformed; the director takes the first |
| `DirectorBroker.AnsweredExactly` | internal/director/signals.go:178-261 | a signal is answered when it is taken, ack if its number is old and refusal if the director does not lead, or else when its window ends, by whether a write failed; nothing else is answered |
| `DirectorBroker.SessionExactly` | internal/director/signals.go:178-261 | leadership follows the lease alone, a source's high-water rises only at the end of a window without a failed write and to that signal's number, and a crash forgets all |
| `DirectorBroker.BusyExactly` | internal/director/director.go:319-340 | a director takes up a new signal or a tick while it leads, or a client's call, only at rest, and is done with it at its end or by a crash and not before |
| `DirectorExamples.CleanRunHappens` | internal/director/signals.go:178-261 | for every limit and budget, a run in which a signal is delivered, its set saved, cached and broadcast, and the signal acked |
| `DirectorExamples.ParkedRunHappens` | internal/commbus/jetstream.go:69-75 | a run in which a crash leaves a signal to the broker, which parks it when its budget is used up |
| `DurableDelivery.TotalNakWindow` | internal/commbus/jetstream.go:203-209 | the loop returns the sum of the gaps between attempts |
| `DurableDelivery.HoldMeans` | internal/commbus/jetstream.go:211-225 | the hold after an attempt: its entry, the last entry beyond the end, none in an empty schedule |
| `DurableDelivery.DefaultPacing` | internal/commbus/jetstream.go:159-181 | the shipped holds are 0.2, 1, 3, 10 and then 30 seconds |
| `DurableDelivery.GapsMean` | internal/commbus/jetstream.go:203-209 | the recorded delays are the holds after attempts 1 to k |
| `DurableDelivery.DefaultWindow` | internal/commbus/jetstream.go:159-181 | the shipped schedule and budget cover 164.2 seconds |
| `DurableDelivery.BrokerPacesAlike` | internal/commbus/jetstream.go:189-225 | the truncated broker schedule is shorter than the budget and paces every attempt that has a successor as the client does |
| `DurableDelivery.DeliverExplains` | internal/commbus/jetstream.go:444-475 | from any attempt on, the record of calls, delays, stalls and outcome is the one the handler's decisions force |
| `DurableDelivery.DeliveryIsConserved` | internal/commbus/jetstream.go:444-475 | every message ends in exactly one outcome, decided by the handler and abandoned iff a retried attempt saw a stop; delays are the schedule's, inside the window unless parked; one stall report iff attempt 5 is reached |
| `DurableDelivery.Records.DeliverBounded` | internal/commbus/jetstream.go:444-475 | the attempt loop records exactly that delivery for this message and nothing else |
| `DurableLog.MemJetStream.constructor` | internal/commbus/memjs.go:107-114 | a new stream is empty and open |
| `DurableLog.MemJetStream.AppendMessage` | internal/commbus/memjs.go:121-139 | stores unless the non-empty key was seen, wakes the subject, keeps every log free of repeated keys |
| `DurableLog.MemJetStream.DeliverPending` | internal/commbus/memjs.go:146-163 | returns the undelivered tail and moves this consumer's cursor past it, no other |
| `DurableLog.MemJetStream.WakeChan` | internal/commbus/memjs.go:213-226 | returns the subject's current channel, made on first use |
| `DurableLog.MemJetStream.WakeLocked` | internal/commbus/memjs.go:238-244 | closes the current channel, which was open, and installs a fresh one |
| `DurableLog.MemJetStream.Close` | internal/commbus/memjs.go:247-259 | closes every current channel once and replaces each by its own fresh one |
| `DurableLog.AppendKeepsWf` | internal/commbus/memjs.go:121-139 | the dedup set stays exactly the stored keys, channels stay fresh and cursors in range |
| `DurableConsumer.InvAlways` | internal/commbus/jetstream.go:369-427 | the consumer and stream invariant holds in every state of every run |
| `DurableConsumer.NoLostWakeup` | internal/commbus/jetstream.go:389-427 | a consumer waiting on a channel still open has nothing pending, unless the stream was closed |
| `DurableConsumer.PendingMeansProgress` | internal/commbus/jetstream.go:389-427 | a live consumer with something pending can always take a step |
| `DurableConsumer.HandedInOrder` | internal/commbus/jetstream.go:389-408 | first attempts are a gap-free, duplicate-free run of the log, flagged backlog iff stored before the consumer started |
| `DurableConsumer.StoredOnce` | internal/commbus/memjs.go:116-139 | in every run a non-empty key is stored at most once per subject |
| `DurableConsumer.StopAbandonsTheRest` | internal/commbus/jetstream.go:397-408 | a consumer made after another under the same key starts past its predecessor's whole batch, so right behind its unhanded rest |
| `DurableConsumer.RestIsSkipped` | internal/commbus/jetstream.go:389-408 | at every moment of the run, what the key's consumer has been handed lies wholly before or wholly behind that rest |
| `DurableConsumer.RestIsNeverHanded` | internal/commbus/jetstream.go:389-408 | no keyed message of the rest is ever handed to any consumer under the key, before or after |
| `DurableConsumer.EndsOnlyIfStopped` | internal/commbus/jetstream.go:389-427 | in every run an ended consumer was asked to stop after it was made, whether or not the stream was closed |
| `DurableConsumer.StopIsPrompt` | internal/commbus/jetstream.go:389-427 | in every run, after a stop request the consumer is handed at most one more message, and goes round again only when a wake won over the stop |
| `DurableHazards.StopLosesAMessage` | internal/commbus/jetstream.go:397-408 | for any two messages the stream stores, a run in which a stop leaves the second unhanded and the next consumer starts behind it |
| `DurableHazards.CloseLeavesConsumerParked` | internal/commbus/memjs.go:246-259 | a run in which a close leaves a consumer that was never stopped live, with no step it can take |
| `DurableHazards.LiveMessageIsHanded` | internal/commbus/jetstream.go:389-427 | for any message, a run in which its publish wakes a waiting consumer that is handed exactly it, not as backlog, and ends once stopped |
| `FanoutBus.MatchesMeans` | internal/commbus/commbus.go:365-379 | a trailing star stands for exactly one non-empty token; anything else matches only itself |
| `FanoutBus.MemCore.PublishMessage` | internal/commbus/membus.go:97-129 | refused for a gate under the comms root or on a closed bus, else offered to every matching subscription, never to a closed channel |
| `FanoutBus.VerdictMeans` | internal/commbus/commbus.go:115-117 | a publish is forbidden iff a gate makes it under "telos.comms.", on an open or a closed bus; otherwise it is sent iff the bus is open |
| `FanoutBus.MemCore.SubscribeTo` | internal/commbus/membus.go:134-159 | adds an open subscription unless the bus is closed |
| `FanoutBus.MemCore.CloseCore` | internal/commbus/membus.go:163-181 | empties the subscriber set once |
| `FanoutBus.DeliveryIsOrderedAndSafe` | internal/commbus/membus.go:97-197 | in every interleaving, with the stopping callers as program counters: no live subscription has a closed channel, handled plus queued is an ordered part of the offered publishes (all if none dropped), nothing guarded comes from a gate |
| `FanoutBus.OfferedExactly` | internal/commbus/membus.go:97-129 | what every step does to a subscription: an accepted matching publish is offered and queued behind the rest, or dropped iff 256 are queued; its goroutine takes the oldest; nothing else moves a message |
| `FanoutBus.MembersExactly` | internal/commbus/membus.go:134-189 | who is in the set: joined by a subscribe on an open bus, empty and with its pattern, left by an unsubscribe or the close |
| `FanoutBus.OneLife` | internal/commbus/membus.go:97-197 | a run for every subject and body: subscribe, publish, handle, unsubscribe, stop, close |
| `FanoutBus.StoppedStaysQuiet` | internal/commbus/membus.go:163-197 | once Unsubscribe or Close is through with a subscription, no handler call of it is in flight and none is ever made again |
| `ColorMarkup.LexIsText` | internal/colormarkup/colormarkup.go:61-89 | tokenizing loses nothing: the pieces spell the text |
| `ColorTokens.SgrParamMeans` | internal/colormarkup/colormarkup.go:47-50 | a name is known iff, without surrounding space, its capitals are in the vocabulary, under that parameter |
| `ColorTokens.NamesAreLoose` | internal/colormarkup/colormarkup.go:47-50 | surrounding space and letter case do not matter |
| `ColorTokens.UpperMeans` | internal/colormarkup/colormarkup.go:47-50 | an ASCII small letter has its capital, every other ASCII character is its own |
| `ColorTokens.SpaceMeans` | internal/colormarkup/colormarkup.go:47-50 | space is what Unicode calls white space: in ASCII the blank and the controls from tab to carriage return, and nineteen more |
| `ColorTokens.Utf8Means` | internal/colormarkup/colormarkup.go:102-136 | how many bytes of the window a character takes |
| `ColorTokens.TokenAtMeans` | internal/colormarkup/colormarkup.go:102-136 | a text starts with a token iff it starts with braces, a known name of at most 32 bytes, and the first closing braces after it |
| `ColorTokens.LexMeans` | internal/colormarkup/colormarkup.go:61-95 | every piece is what the rest of the text starts with: a known token, literal braces that start none, or another character |
| `ColorRender.ScanTokenRun` | internal/colormarkup/colormarkup.go:117-136 | the scan returns the parameters of the maximal token run and the index where its pieces end |
| `ColorRender.Render` | internal/colormarkup/colormarkup.go:61-95 | the loop renders exactly the tokenizer's pieces, for both settings |
| `ColorSafety.RenderIsColourAndNothingElse` | internal/colormarkup/colormarkup.go:13-21 | for ESC-free text, erasing the SGRs gives the stripped text, every ESC starts an SGR of table codes, coloured output ends in a reset |
| `ColorPaint.RenderPaints` | internal/colormarkup/colormarkup.go:61-95 | read back by an independent recogniser, every shown character is painted under the parameters of all tokens before it, in order, and a terminal that received any ends on the reset |
| `ColorPaint.StripShowsTheSame` | internal/colormarkup/colormarkup.go:97-100 | with colour off the same characters are shown and nothing else |
| `ColorShipped.ShippedRedIsRed` | internal/colormarkup/colormarkup.go:29-50 | with the shipped table `{{ fg_Red }}hi` is painted as two letters under 31 |
| `ColorShipped.ShippedRedIsWritten` | internal/colormarkup/colormarkup.go:61-95 | and written as exactly ESC[31m, the letters, ESC[0m |
| `ColorVocabulary.TableIsLegal` | internal/colormarkup/colormarkup.go:26-44 | the shipped table has brace-free names and only style and colour codes, RESET being 0 |
| `ColorVocabulary.ColoursAreSystematic` | internal/colormarkup/colormarkup.go:28-44 | the eight colours have the codes 30, 90, 40 and 100 onwards in their four forms |
| `ColorSeams.Relex` | internal/colormarkup/colormarkup.go:117-136 | a prefix of a text's pieces followed by inert text tokenizes as those pieces followed by the text's own |
| `ConsoleText.MeasureAgreesWithStrip` | internal/consoleui/consoleui.go:304-326 | the visible width of any text is the plain width of its stripped form |
| `ConsoleText.MeasureVisible` | internal/consoleui/consoleui.go:309-326 | the loop computes the width of the tokenizer's pieces |
| `ConsoleText.TruncateVisible` | internal/consoleui/consoleui.go:358-412 | the loop computes the specified truncation: the longest prefix of pieces that fits, and its closers |
| `ConsoleText.TruncateTurn` | internal/consoleui/consoleui.go:381-409 | one turn cuts exactly where the next piece no longer fits, else moves index and counters past it |
| `ConsoleCuts.WholeMeans` | internal/consoleui/consoleui.go:358-412 | a text that leaves a cell to spare is kept whole, and no cells give nothing |
| `ConsoleCuts.CutMeans` | internal/consoleui/consoleui.go:358-412 | any other text is the pieces before the first that would take the last cell, a reset iff the last token among them colours, the ellipsis, and as many closers as isolates are open |
| `ConsoleFit.TruncateFits` | internal/consoleui/consoleui.go:350-412 | outside the lone-brace case a truncation fits; if it cut, colour is closed and isolates are balanced; else the text is unchanged |
| `ConsoleFit.CutShowsPrefix` | internal/consoleui/consoleui.go:350-412 | a clean cut shows a prefix of the text, the ellipsis and the closers, at most one cell short |
| `ConsoleFit.LoneBraceCutFails` | internal/consoleui/consoleui.go:371-377 | in the lone-brace case the result is too wide and its colour stays on |
| `ConsoleFit.TruncateFitsIff` | internal/consoleui/consoleui.go:358-412 | a truncation fits if and only if it is not the lone-brace case |
| `ConsoleHazards.LoneBraceCutHappens` | internal/consoleui/consoleui.go:371-377 | with the shipped table a bold text with a lone brace, three cells wide, overflows two cells and leaves bold on |
| `ConsoleCell.SecondCutIsClean` | internal/consoleui/consoleui.go:330-335 | truncating the overflowing result again is never the lone-brace case |
| `ConsoleCell.PadExact` | internal/consoleui/consoleui.go:330-348 | padding reaches exactly the width whenever truncation does not overflow |
| `ConsoleCell.FitExact` | internal/consoleui/consoleui.go:260-265 | a fitted cell is exactly as wide as its slot, for every content and width |
| `ConsoleCell.FitMeans` | internal/consoleui/consoleui.go:260-275 | every cell: content truncated iff too wide, isolated iff right-to-left, truncated again iff still too wide, and padded as aligned |
| `ConsoleCell.FitShowsContent` | internal/consoleui/consoleui.go:256-348 | content that fits is shown whole, isolated iff it has right-to-left text, padded as its alignment asks |
| `ConsoleSheet.MeasureColumns` | internal/consoleui/consoleui.go:171-189 | the nested loops compute the column widths |
| `ConsoleSheet.ColumnCovers` | internal/consoleui/consoleui.go:171-188 | a column is at least as wide as each of its cells, or as wide as the ceiling, which it never exceeds |
| `ConsoleSheet.ColumnAttained` | internal/consoleui/consoleui.go:171-188 | a column is as wide as some cell, or as the ceiling below a wider one |
| `ConsoleSheet.TableWidthIs` | internal/consoleui/consoleui.go:124-146 | the table has its fixed width or the least width that holds columns, spans and banners, under the ceiling |
| `ConsoleSheet.JoinNeverWidens` | internal/consoleui/consoleui.go:211-234 | joining texts at a space can close a literal brace pair into a token but never adds width |
| `ConsoleSheet.AccountedWidth` | internal/consoleui/consoleui.go:211-234 | the running account never understates the built row and never passes a bounded table |
| `ConsoleSheet.RenderRow` | internal/consoleui/consoleui.go:211-243 | the loop, stopping early when the table is full, builds the specified row |
| `ConsoleSheet.RowFits` | internal/consoleui/consoleui.go:211-243 | a row never exceeds the table, and its closing truncation is never taken |
| `ConsoleSheet.FittingRowIsPlain` | internal/consoleui/consoleui.go:203-210 | a row that fits is every cell in its whole column, in order, joined by spaces, as in an unbounded sheet |
| `ConsoleRows.LineMeans` | internal/consoleui/consoleui.go:211-242 | a row's line is the row as built without its trailing spaces, and nothing else is cut |
| `ConsoleRows.FittingLineMeans` | internal/consoleui/consoleui.go:211-242 | a row that fits, and every row of an unbounded sheet, shows all its cells in their columns, joined by single spaces, up to trailing spaces |
| `ConsoleRows.CutRowMeans` | internal/consoleui/consoleui.go:211-242 | a row that does not fit: whole cells, then the first that reaches past the table fitted to what is left, then nothing |
| `ConsoleRows.FullRowMeans` | internal/consoleui/consoleui.go:211-242 | a table full when a column ends drops the rest, separator and all |
| `ConsoleRows.RowCases` | internal/consoleui/consoleui.go:211-242 | one of these cases holds of every row |
| `ConsoleRows.SheetLineMeans` | internal/consoleui/consoleui.go:147-160 | the line of a row or span is its text, behind a left-to-right mark iff an isolate begins in it |
| `ConsoleSheet.SheetLinesFit` | internal/consoleui/consoleui.go:124-161 | in every sheet no row exceeds the table width and every span has exactly that width |
| `ConsoleSheet.UnboundedCutsNothing` | internal/consoleui/consoleui.go:124-148 | in an unbounded sheet every cell and span fits its slot |
| `TrustLadder.NewLadder` | internal/content/trusttier.go:108-120 | the loop resolves the declared tiers, or the default ones |
| `TrustLadder.LadderResolves` | internal/content/trusttier.go:93-120 | a name maps to its last rung; nameless rungs and undeclared names are undefined |
| `TrustLadder.OrderDoesNotMatter` | internal/content/trusttier.go:93-120 | with distinct names every order of the rungs resolves alike |
| `TrustLadder.GrantsFlag` | internal/content/trusttier.go:140-147 | the scan decides membership among the tier's flags; unknown tiers grant nothing |
| `TrustLadder.TierDominates` | internal/content/trusttier.go:171-181 | true iff the holder is defined and holds every capability the other confers |
| `TrustLadder.MissingCapabilities` | internal/content/trusttier.go:187-196 | sorted, exactly the capabilities that make domination fail; empty iff it holds |
| `TrustLadder.Baseline` | internal/content/trusttier.go:204-212 | for any iteration order, the rung of lowest rank, first name on ties |
| `TrustLadder.BaselineIsUnique` | internal/content/trusttier.go:198-212 | that rung is unique |
| `TrustLadder.QuestionsMean` | internal/content/trusttier.go:131-182 | rank, flags, capabilities and domination in terms of the rungs; the capabilities are holylight, builder and admin |
| `TrustLadder.DefaultLadder` | internal/content/trusttier.go:84-90 | the ladder of a pack that declares none |
| `TrustLadderLint.LintPack` | internal/content/trustladderlint.go:81-180 | reports on the tiers sorted by name: nameless rungs, shared ranks ascending, flags, nesting, one finding per occurrence, in that order |
| `TrustLadderLint.Lint` | internal/content/trustladderlint.go:92-180 | the loops produce that report for a sorted ladder |
| `TrustLadderLint.ReportIsUnique` | internal/content/trustladderlint.go:77-81 | the report does not depend on any map iteration order |
| `TrustLadderReport.ReportReads` | internal/content/trustladderlint.go:81-180 | the report finding by finding and in order, as passes over the declared tiers with every condition in terms of the rungs |
| `TrustLadderLint.ReportIsExact` | internal/content/trustladderlint.go:10-45 | a finding is in the report iff it is justified by the declared tiers |
| `TrustLadderLint.LintNames` | internal/content/trustladderlint.go:92-106 | one finding per nameless rung, in order, and the named rungs in order |
| `TrustLadderLint.LintRanks` | internal/content/trustladderlint.go:111-132 | one finding per rank that several named rungs share, in ascending order, naming them in order |
| `TrustLadderLint.LintFlags` | internal/content/trustladderlint.go:134-158 | one finding per listed ungrantable flag and per listed capability of the baseline, in order |
| `TrustLadderLint.LintNesting` | internal/content/trustladderlint.go:160-178 | one finding per pair of an admin-capable rung and a lower rung it does not dominate, in order |
| `TrustLadderLint.EmptyReportIffClean` | internal/content/trustladderlint.go:10-45 | the report is empty if and only if names, ranks, flags, baseline and nesting are all in order |
| `TrustLadderLint.CleanLadder` | internal/content/trustladderlint.go:10-45 | then ranks are injective, the baseline confers nothing, and admin-capable tiers dominate everything at or below their rank |
| `TrustLadderLint.RejectFreeLadder` | internal/content/trustladderlint.go:17-34 | the first two already follow from the absence of Reject findings |
| `TrustLadderReport.PassesReloadIff` | internal/content/trustladderlint.go:17-34 | no finding rejects a reload exactly when every rung has a name and a rank of its own and the lowest tier declares no grantable flag |
| `TierService.SetAccountTier` | internal/account/service.go:450-592 | every response holds exactly in the circumstances it names, and a write is issued iff no reply failed and both grant and both target ceilings pass |
| `TierService.ResponseIsForced` | internal/account/service.go:450-592 | the circumstances of two responses never overlap |
| `TierService.ChecksAreCeilings` | internal/account/service.go:516-573 | the two refusal cascades pass exactly on the ceilings |
| `TierService.CeilingsMean` | internal/account/service.go:491-575 | who may manage, which tiers may be given and whose changed, in terms of the rungs |
| `TierService.GatesMean` | internal/account/service.go:450-575 | how far a call gets and what it writes, in terms of the request and the replies |
| `TierService.GrantIsWithin` | internal/account/service.go:517-529 | a granted tier's rank and capabilities are within the granting tier's |
| `TierService.DemoteIsNeverRefused` | internal/account/service.go:420-434 | a managing tier may always demote a defined, strictly lower tier to a baseline that confers nothing |
| `TierProtocol.InvAlways` | internal/account/service.go:480-592 | the invariant of calls in flight holds in every state of every run |
| `TierProtocol.NothingIsMinted` | internal/account/service.go:480-592 | at every moment of every run each account's rank and capabilities were within those of one single account at the start |
| `TierProtocol.WritesAreAuthorized` | internal/account/service.go:574-592 | a tier changes only by a write on a target whose tier at that instant passed both ceilings against a tier the actor really held |
| `TierProtocol.CallAloneCommits` | internal/account/service.go:450-592 | a call that passes both ceilings and meets no other ends with the target on the new tier and nobody else changed |
| `KeyedMerge.MergeByKey` | internal/content/packtree.go:219-237 | the indexed loop computes the last-write-wins merge |
| `KeyedMerge.Overlay` | internal/content/loader.go:311-318 | the loader's loop over a persistent index map computes the same merge and keeps the index exact |
| `KeyedMerge.MergeIs` | internal/content/packtree.go:215-237 | the last value of every key is the source's if it has the key, else the destination's |
| `KeyedMerge.MergeKeys` | internal/content/packtree.go:215-237 | keys keep the destination's order, new ones follow in order of first appearance |
| `KeyedMerge.MergeMeans` | internal/content/packtree.go:215-237 | a list merged from nothing holds for every key once the last value with it, in the order in which the keys first come |
| `KeyedMerge.MergeAt` | internal/content/packtree.go:215-237 | of the destination's values only the last of a key the source has is replaced, by the source's last |
| `KeyedMerge.MergeOfMerged` | internal/content/packtree.go:100-108 | merging a list already merged by itself gives the same list, in value and order |
| `PackMerge.LoadKind` | internal/content/loader.go:278-318 | one kind's loop across all packs gives that kind of the loaded content |
| `LoadMeans.LoadIs` | internal/content/loader.go:250-485 | loading any packs: the last non-empty scalar, the last formula of a name, zones and definitions merged last by ref, commands, display definitions and credits accumulated |
| `LoadMeans.FoldIs` | internal/content/packtree.go:108-165 | folding the files of a pack: the first name, the last non-empty scalars, license and attribution, and the rest as in a load |
| `PackMerge.MergedPackIsInterchangeable` | internal/content/packtree.go:101-164 | among any other packs, a pack merged from files loads as its files would, zones and credits aside |
| `ZoneUnion.MergeZonesLoop` | internal/content/packtree.go:172-187 | the indexed loop computes the zone union |
| `ZoneUnion.MergedZone` | internal/content/packtree.go:172-187 | each zone of the result is the union, in order, of all zones declared under its ref |
| `ZoneUnion.UnionHolds` | internal/content/packtree.go:189-213 | a union has all resets in order, is instanceable iff some file says so, and keeps the last scalars and the last room, item and mob by ref |
| `ZoneUnion.LoadedZoneIsUnion` | internal/content/loader.go:301-310 | loading the merged pack finds that union under every declared ref, in order of first declaration |
| `ContentHash.HashInput` | internal/contentstore/manifest.go:102-115 | the loop writes the frames of the sorted files |
| `ContentHash.StreamIs` | internal/contentstore/manifest.go:102-115 | the stream is, for each file, its path's length, a newline, the path, its content's length, a newline, the content |
| `ContentHash.StreamIsInjective` | internal/contentstore/manifest.go:110-114 | two file lists with the same stream are equal, for all paths and contents |
| `ContentHash.InputIdentifiesTree` | internal/contentstore/manifest.go:77-116 | the stream is the same iff the trees are, whatever the walk order |
| `IdempotencyKey.Itoa` | internal/commbus/commbus.go:272-284 | the 20-byte buffer always suffices and holds the decimal text |
| `IdempotencyKey.Atou` | internal/commbus/commbus.go:252-269 | accepts exactly the non-empty digit strings that fit in 64 bits, with their value; the guard never wraps |
| `IdempotencyKey.ParseKey` | internal/commbus/commbus.go:238-248 | splits at the last colon and rejects anything else |
| `IdempotencyKey.ParseOfNewKey` | internal/commbus/commbus.go:228-248 | parsing undoes building for every author and number |
| `IdempotencyKey.KeysAreDistinct` | internal/commbus/commbus.go:228-232 | building is injective |
| `IdempotencyKey.NewKeyMeans` | internal/commbus/commbus.go:230-236 | a key is the author, a colon and the number in decimal without leading zeros |
| `IdempotencyKey.NewKeyOfParse` | internal/commbus/commbus.go:234-248 | building undoes parsing iff the number has no leading zero |
| `SpawnSchedule.MissedNeverHastens` | internal/director/schedule.go:66-84 | the startup pass makes no spawn earlier and changes no liveness |
| `SpawnSchedule.SkipDelaysFirstSpawn` | internal/director/schedule.go:75-84 | under skip_to_next a never-spawned schedule is due only an interval after the start |
| `SpawnActor.Scheduler.RunSchedules` | internal/director/schedule_run.go:56-85 | for every pattern of failed reads and lost saves: the startup pass once, then a spawn and a save for each schedule that reads as due; a world that some run can come to stays one |
| `SpawnActor.CallIsAStretch` | internal/director/schedule_run.go:56-85 | a whole call, with any faults, continues any run by exactly its startup and check steps, to the world it leaves |
| `SpawnActor.FirstCallSpawnsIff` | internal/director/schedule_run.go:56-85 | the first runSchedules call of a new director spawns a boss, if no other schedule has its ref, exactly under that condition |
| `SpawnActor.SchedulerSpawnsAreJustified` | internal/director/schedule_run.go:56-112 | every spawn the scheduler object has made is justified as in every run |
| `SpawnActor.Scheduler.OnBossDied` | internal/director/schedule_run.go:89-112 | the first schedule with the ref is rescheduled from the death; a save that was not made is reported |
| `SpawnActor.Scheduler.LoadScheduleState` | internal/director/schedule_run.go:116-126 | reads through the director's cache; a failed, absent or empty read gives the zero state |
| `SpawnActor.Scheduler.SaveScheduleState` | internal/director/schedule_run.go:143-154 | sets through the director's cache against the store, and reports whether the write was made |
| `SpawnSchedule.SpawnsIff` | internal/director/schedule_run.go:70-84 | a tick spawns iff its read failed, or the version it sees was not saved by a spawn and its time has come |
| `SpawnRuns.EverySpawnIsJustified` | internal/director/schedule_run.go:56-112 | in every run with any faults: a spawn is blind, first, after an unread overwrite or an unconfirmed save, or at least the interval after a confirmed death |
| `SpawnRuns.SpawnsAgainIff` | internal/director/schedule_run.go:70-84 | in terms of the versions, whatever came in between: a spawned boss spawns again without a death iff the read fails, or the save was not confirmed and the version seen is still not a spawn's and is due |
| `SpawnFaults.SpawnsTwiceIff` | internal/director/schedule_run.go:70-84 | by the same director, in every run: after a spawn from a current read, with only other schedules and idle ticks in between, a tick spawns the boss again iff the save never reached the store, or it landed unconfirmed and an older version is cached or nothing could be read since |
| `SpawnFaults.StaleOnlyAfterUnconfirmed` | internal/director/state.go:136-176 | a director's view of a schedule is out of date only if, since it started, a save of its own landed on an older version without being confirmed |
| `SpawnFaults.UnconfirmedSaveSpawnsAgain` | internal/director/schedule_run.go:79-83 | a save that lands unconfirmed over an older version makes the same director spawn the boss again at any later tick, though the store has it alive |
| `SpawnRestarts.StartupThenTick` | internal/director/schedule_run.go:56-85 | exactly when a director with a cold cache spawns at a tick after its startup pass, for every stored state and all faults of both |
| `SpawnRestarts.FirstTickSpawnsLivingIff` | internal/director/schedule_run.go:56-85 | in a director's first call a living boss is spawned again iff both reads fail and, under skip_to_next, the load before the startup save too |
| `SpawnRestarts.UnconfirmedSaveIsSeenNext` | internal/director/schedule_run.go:56-85 | after an unconfirmed save the next director, startup pass and tick, spawns the boss again only if its startup read fails, and exactly when |
| `SpawnRestarts.NewDirectorSpawnsIff` | internal/director/schedule_run.go:56-85 | in every run, whatever came before: a new director's tick spawns iff the state stored when it started, its startup faults, its reads and the time say so |
| `SpawnRestarts.SpawnsAfterRestartIff` | internal/director/schedule_run.go:56-85 | in every run, a boss one director spawned is spawned again by the next iff: with the save unsaved, it is not postponed or the interval is over; with it saved, the startup read failed and either the state was overwritten and the interval is over, or nothing was written and nothing could be read |
| `SpawnFaults.UnconfirmedSaveHappens` | internal/director/schedule_run.go:56-112 | for every codec and schedule, a run of spawn, death, unconfirmed spawn and one spawn more |
| `SpawnFaults.LostSaveSpawnsAgain` | internal/director/schedule_run.go:79-83 | a save that fails before it takes effect makes the boss spawn again at any later tick that can read |
| `SpawnFaults.OverwriteSpawnsAgain` | internal/director/schedule_run.go:58-68 | after a startup pass that cannot read and whose write under skip_to_next goes through, a tick spawns iff the interval it wrote is over |
| `SpawnRuns.CheckSettles` | internal/director/schedule_run.go:70-84 | after a tick that could read and save, the boss is alive or its next spawn time lies ahead |
| `SpawnRuns.SpawnsAreSpaced` | internal/director/schedule_run.go:56-112 | without faults, across any restarts, between two spawns a death was processed and the later spawn is at least the interval after every such death |
| `SpawnRuns.ReadsLastWrite` | internal/director/state.go:77-176 | without faults a sole fresh director reads what was written last, by whichever director |
| `ChannelRoster.HeardByMeans` | internal/director/channelroster.go:108-120 | exactly the unconcealed players hearing the channel, under the name of their last entry |
| `ChannelRoster.InvertRoster` | internal/director/channelroster.go:108-131 | for any iteration order, a sorted roster for every channel with a listener and no other |
| `ChannelRoster.RosterIsUnique` | internal/director/channelroster.go:121-131 | that roster is unique |
| `ChannelRoster.Aggregator.Aggregate` | internal/director/channelroster.go:81-105 | publishes exactly the changed channels, or all on a full poll, and remembers the current rosters; a failed listing changes nothing |
| `ChannelRoster.FreshDirectorIsCurrent` | internal/director/channelroster.go:29-32 | a director that starts fresh is current from its first poll on while no other polls and nothing is dropped, whatever its predecessors left, also after a channel empties and refills |
| `ChannelRoster.FreshIffStarted` | internal/director/channelroster.go:81-105 | a director is fresh exactly until its first poll after a start |
| `ChannelRoster.CurrentSinceFullPoll` | internal/director/channelroster.go:81-105 | the same from any full poll on |
| `ChannelRoster.ReturningDirectorIsStaleIff` | internal/director/channelroster.go:81-105 | a director that polled before leaves subscribers behind iff its poll is not full, the roster is back to its last snapshot, and they were given something else since |
| `ChannelRoster.ReturningDirectorSkips` | internal/director/channelroster.go:81-105 | for every two rosters a run of two directors in which that happens |
| `ChannelRoster.TenOwnPollsResync` | internal/director/channelroster.go:29-32 | ten polls of one director, among any others', include one that publishes every non-empty channel |
| `ChannelRoster.ManyPollsResync` | internal/director/channelroster.go:29-32 | with several directors, nine polls of each and one more include a full one |
| `ChannelRoster.TakingTurnsMissesResync` | internal/director/channelroster.go:29-32 | two directors taking turns make ten consecutive polls without a full one |
| `ChannelRoster.TenCleanPollsHeal` | internal/director/channelroster.go:19-27 | whatever was lost or overtaken before, ten undisturbed polls bring a channel up to date |

## Left out

- Coordinated pulls, reload audit, custom broadcast payloads and the Lua handler: an arbitrary list of get, set and broadcast operations stands for a handler.
- Lease timing: no bound on how long two directors both believe they lead; the director theorems do not need one.
- The inbox post and the delivery that causes it are one step; a full inbox that blocks the callback is not modelled.
- Stopping the durable consumer while its callback is posted is modelled as an ack timeout or an expiry.
- `resolveConsumeConfig`: its default of one outstanding message is the `cap` the delivery theorems speak of.
- The NATS transports, tracing, metrics and logging.
- `MemJetStream.PublishDurable`: its closed check is a separate critical section that a publish may pass before a close, so an append is always possible.
- A message's handler attempts are one stretch between two steps of its consumer in `DurableConsumer`; `DurableDelivery` models the attempts themselves.
- Two consumers at once under one subject and consumer id: they would share a cursor; one at a time is assumed.
- Rune widths and bidi classes: parameters with the values the layout relies on (at most 2; 1 for the brace, the space and the ellipsis; 0 for the isolate controls and the mark); `MetricsExist` gives some.
- Unicode case mapping and spaces in token names: `ToUpper` where it can give an ASCII letter, and the spaces `TrimSpace` removes; invalid UTF-8 is not modelled.
- Dividers and banners: their fills may contain braces that join into tokens; only their effect on the table width is kept.
- The builder methods of `Sheet`, which append to its element list.
- The wording of lint findings, and the loop over packs around them.
- Account creation, the break-glass tier write and changes of the ladder while calls run: the ladder and the set of accounts are fixed in a run.
- The store's role-audit rows, which are written in the same transaction as the tier.
- Sharing of backing arrays between a merged pack and its parts: lists are values here.
- The SHA-256 of the hash input, file system errors, and the single-file form of a pack.
- Schedules under two directors at once: one fresh director after another is assumed; a malformed death report is the empty ref, and the JSON form of a state is any text that reads back as that state (`CodecExists` gives one).
- The roster cooldown and its single flight: the polls of a director are taken one after another.
- Checkpoints, device login, chargen, placement, zone leases and the world simulation.
