# cuems-power-bridge: a verified model of its core

The power bridge sits between a show cluster (engine, editor, nodes) and its operators. This
project models the parts of it that carry state across time, and proves what they promise:

* **The Companion relay** (`OscRelay`): engine status frames go to a receiver over two lanes. The
  *state lane* keeps the latest value per address; the *event lane* sends pulses 0, 1, 0, one at a
  time per path. Above the lanes, rules hold per-cue frames until a project is loaded, commit them,
  reset every cue when its project goes, and keep a cache that a dump replays.
* **The load/unload protocol** (`ProjectOps`, `EditorClient`, `EngineClient`): operator and
  auto-load requests share one editor slot and one current operation, while engine frames, editor
  replies, disconnects and timers come in any order between their await points.
* **The shutdown run** (`handle_shutdown`, `wait_until_all_down`, `ShellyClient`): the controller
  is powered off only behind an armed mains-cut timer.

## How it is built

Each component that the program updates in place is a class whose methods follow the program's own
steps (`OscRelay.OscRelay`, `EngineState.EngineClient`, `EditorClient.EditorClient`,
`ProjectOps.Ops`, `Shutdown.Coordinator`). Every method states its whole new state, mostly as a
function of the old one; what the program promises is proved about those functions, as invariants of
one step and then of every run:

| files | content |
|---|---|
| `OrderedDict`, `Osc` | Python's ordered dictionaries; addresses, arguments and constants |
| `StateLane`, `EventLane`, `PulseTrace` | the two lanes, their invariants, the language of the sends on a path |
| `RelayRules`, `CueEdges`, `LoadOrder` | hold, commit, reset and dump; edge requests; load order |
| `RelayRun`, `RelayTheorems`, `SendOrder` | runs of the relay, and the theorems over them |
| `History`, `ForwardRuns`, `EdgeRuns`, `CacheRuns`, `CacheSteps` | the same told from the events alone: what is remembered, forwarded, requested and cached |
| `Drain`, `PulseTiming` | termination and pacing of the drain; when each pulse is due, and that it goes out then |
| `OscRelay` | the relay as a class |
| `EngineState`, `EditorModel`, `EditorClient` | the engine's status cache; requests and replies, with an editor as environment; the client as a class |
| `OpRecords`, `OpRun` | one operation's record; runs of the protocol |
| `OpHistory`, `OpSeen`, `OpEnds` | the same told from a run's events: what was asked, what the engine showed, what ended it |
| `SlotRun` | joint runs of protocol and client |
| `ProjectOps`, `OpSteps` | the operations as classes, and their methods as steps of those runs |
| `Reachability`, `Shelly`, `Shutdown` | the poll, the retried calls, the shutdown request |

A run is a sequence of events, one per await-free block of the program, in any order the
environment allows. Clocks, probes, the network, the editor, the engine and the Shelly are
parameters or events.

Where the program and its documentation disagree, the model follows the program:

* The state diagram and the shutdown walk-through of the repository's README say that the cluster
  stays up when the Shelly fails. By then every node has been ordered to power off; only the
  controller stays on (`Shutdown.Coordinator.HandleShutdown`: an answer of 502 implies that the
  nodes' poweroff was among the effects).
* A reset of every cue on unload is promised for forwarded cues. The rule asks whether `cue/`
  itself is forwarded, so a cue forwarded by a narrower key keeps its last value
  (`RelayTheorems.CueLeftPlaying`); `RelayTheorems.ResetsCompleteIff` says exactly which
  configurations are complete.
* A reply is meant to end the request that caused it. That rests on a dropped request never having
  reached the editor: `EditorModel.CancelledSendMisroutes` gives a send that is cancelled after its
  frame went out, whose answer then ends the next request. `EditorModel.LateAnswerHarmlessIff` says,
  for every run, exactly when such an answer does no harm, and `EditorModel.RegisterSafeIff` exactly
  when a new request is safe from one.
* After the timer was armed, a poweroff command that cannot be found ends the run with 500: the
  controller is left on while its mains will be cut. `Shutdown.Coordinator.RunShutdown` gives both
  conditions.
* The pre-flight check is meant to see a closed relay. It also passes an answer with no JSON body, or
  one that says nothing of `output` (`Shelly.NotOpenMeans`).

## Model

| member | source | states |
|---|---|---|
| StateLane.PutStateIsDirectSend | src/cuemspowerbridge/osc_relay.py:623-634 | queueing a frame, coalesced and perhaps moved, leaves the receiver, once all is sent, with what sending it at once would have |
| StateLane.PutStateInOrder | src/cuemspowerbridge/osc_relay.py:623-634 | every queued frame is its address's last put, and all but the link state stand in the order of their last puts |
| StateLane.PutStateKeepsLinkFirst | src/cuemspowerbridge/osc_relay.py:623-634 | a link change put at the head stays there, with the current link value, whatever is put after it |
| EventLane.OldestIsOldest | src/cuemspowerbridge/osc_relay.py:650-657 | the overflow victim is the oldest pulse whose 1 has not gone out, if there is one |
| EventLane.DropCoherent | src/cuemspowerbridge/osc_relay.py:659-675 | dropping a queued pulse keeps heap, deques, creation order and counter in step |
| EventLane.MakeRoomCoherent | src/cuemspowerbridge/osc_relay.py:636-640 | the overflow loop keeps the structures in step and leaves room for a pulse unless it gives up |
| EventLane.MakeRoomDropsOldest | src/cuemspowerbridge/osc_relay.py:636-657 | overflow drops only pulses whose 1 is not out, the oldest of them and no more than it takes, and leaves the others as they are |
| EventLane.AddPulseQueues | src/cuemspowerbridge/osc_relay.py:636-648 | with room a request drops nothing and queues one pulse, last overall and on its path; it is refused only if the cap is reached with every queued pulse's 1 out |
| EventLane.AddPulseCoherent | src/cuemspowerbridge/osc_relay.py:636-648 | a pulse request, refused or queued, keeps the four structures in step |
| EventLane.PopCoherent | src/cuemspowerbridge/osc_relay.py:738-741 | a popped entry of a live pulse is its path's head's, and then only that path is without an entry; all else stays in step |
| EventLane.SendEventCoherent | src/cuemspowerbridge/osc_relay.py:682-701 | a pulse send, in any of its three stages, restores exactly one live heap entry per path, for its head; when that is due, PulseTiming.HeadIsDue says |
| PulseTrace.WordsShape | src/cuemspowerbridge/osc_relay.py:682-701 | in a word of lone 0s and whole pulses, each 1 sits between its own pulse's 0s, the gap after and the hold before |
| PulseTrace.TracedShape | src/cuemspowerbridge/osc_relay.py:682-701 | the same for a path's trace, whose head may still owe its trailing 0 |
| PulseTrace.DropTraced | src/cuemspowerbridge/osc_relay.py:659-675 | a drop leaves every path's trace a word with the part its head has sent: an abandoned head leaves a lone 0, never a 1 |
| PulseTrace.SendTraced | src/cuemspowerbridge/osc_relay.py:682-701 | a due send extends its path's trace by its pulse's next value and leaves every other path's trace |
| PulseTrace.CloseSettles | src/cuemspowerbridge/osc_relay.py:450-453 | the 0 that closing sends early makes every path's trace end in 0, each 1 followed by its own pulse's 0 |
| PulseTrace.DropAccounted | src/cuemspowerbridge/osc_relay.py:659-675 | a drop moves one request from queued to dropped |
| PulseTrace.AddPulseAccounted | src/cuemspowerbridge/osc_relay.py:636-648 | requests are completed, queued or dropped, over an addition with its overflow |
| PulseTrace.SendAccounted | src/cuemspowerbridge/osc_relay.py:682-701 | the same over a send; the raised 1s are those completed and those whose trailing 0 is owed |
| RelayRules.OnFrameConsistent | src/cuemspowerbridge/osc_relay.py:518-549 | every status frame keeps: the cache holds last puts, every unreset cue is remembered, nothing per-cue outlives its project |
| RelayRules.OnLoadConsistent | src/cuemspowerbridge/osc_relay.py:524-537 | the same over a `load` frame: unload with resets, or load with the held frames committed in order |
| RelayRules.OnConnectConsistent | src/cuemspowerbridge/osc_relay.py:503-506 | the same over a connect, with 1 as the link's last put |
| RelayRules.OnDisconnectConsistent | src/cuemspowerbridge/osc_relay.py:508-516 | the same over a link drop, which leaves no cue unreset and 0 as the link's last put |
| RelayRules.ResetsView | src/cuemspowerbridge/osc_relay.py:583-587 | after the resets a cue is unreset only if it was before and is not remembered |
| RelayRules.CommitHeldScope | src/cuemspowerbridge/osc_relay.py:533-535 | committing held frames touches neither the load, the link, the suppression nor the hold buffer |
| RelayRules.GlobalOnlyMember | src/cuemspowerbridge/osc_relay.py:589-592 | dropping the per-cue entries keeps exactly the other ones |
| RelayRules.DumpKeepsView | src/cuemspowerbridge/osc_relay.py:608-619 | a dump, filtered by cue names or not, changes nothing in what the receiver ends up with |
| CueEdges.CommitHistory | src/cuemspowerbridge/osc_relay.py:570-581 | a commit records its value and requests an edge only where its cue's last committed value and the new one call for it |
| CueEdges.CommitHeldHistory | src/cuemspowerbridge/osc_relay.py:533-535 | committing held frames records their values and requests no pulse |
| CueEdges.OnLoadHistory | src/cuemspowerbridge/osc_relay.py:524-537 | a `load` frame requests no pulse and keeps every edge accounted for, over an unload too |
| CueEdges.EndsAlternate | src/cuemspowerbridge/osc_relay.py:576-580 | between two `cue_ended` requests of a cue some committed value was playing |
| CueEdges.StartsAlternate | src/cuemspowerbridge/osc_relay.py:576-580 | between two `cue_started` requests of a cue some committed value was not playing, or the cues were forgotten |
| LoadOrder.LoadOrderEquivalence | src/cuemspowerbridge/osc_relay.py:518-581 | a burst of per-cue frames then `load`, or `load` then the burst, but for what exceeds the hold cap: same cache, cue values and receiver view; the held order requests no pulse |
| LoadOrder.FeedHolds | src/cuemspowerbridge/osc_relay.py:538-546 | without a project per-cue frames are held in order up to the cap, and counted beyond it |
| History.RulesTold | src/cuemspowerbridge/osc_relay.py:503-581 | in every run the rules' load, hold buffer, link, suppression and cue values are what the events say; exactly the first 20000 per-cue frames without a project are held |
| ForwardRuns.StartForwarded | src/cuemspowerbridge/osc_relay.py:424 | the relay starts by announcing the link state 0, and nothing else |
| ForwardRuns.FrameForwarded | src/cuemspowerbridge/osc_relay.py:518-568 | in every run a status frame other than `load` that is not per-cue, or comes with a project, sets its address to its own argument if its key is a configured one or below one that ends in a slash, and otherwise changes nothing |
| ForwardRuns.FrameWaits | src/cuemspowerbridge/osc_relay.py:518-546 | a per-cue frame without a project, and a frame outside the engine status, change nothing |
| ForwardRuns.HeldForwarded | src/cuemspowerbridge/osc_relay.py:524-568 | a project's `load` sets every listed address held since the last one to its last held argument, in order, then its own |
| ForwardRuns.UnloadForwarded | src/cuemspowerbridge/osc_relay.py:524-594 | a `load` without a project sets every cue to 0 if `cue/` is listed, then its own address, and nothing else |
| ForwardRuns.ConnectForwarded | src/cuemspowerbridge/osc_relay.py:503-506 | a connect sets the link state to 1 and nothing else |
| ForwardRuns.DisconnectForwarded | src/cuemspowerbridge/osc_relay.py:508-516 | a link drop sets every cue to 0 if `cue/` is listed, the link state to 0, and nothing else |
| ForwardRuns.OthersForwardNothing | src/cuemspowerbridge/osc_relay.py:608-755 | dumps, heartbeats, purges and sends change nothing in what the receiver ends up with |
| RelayRun.RunPulses | src/cuemspowerbridge/osc_relay.py:636-701 | in every run the event lane is coherent and accounted for, and every path's trace is well formed |
| RelayTheorems.RunSound | src/cuemspowerbridge/osc_relay.py:503-634 | in every run rules, cue history, queue and link state agree with everything put so far |
| RelayTheorems.LaneRefinesDirectSending | src/cuemspowerbridge/osc_relay.py:623-634 | at any time an address's last put is its queued value if queued, else the last value sent |
| RelayTheorems.QueueIsInPutOrder | src/cuemspowerbridge/osc_relay.py:623-634 | queued state frames stand in the order of their last puts, with those values, but for the link state |
| SendOrder.SendOrderIsPutOrder | src/cuemspowerbridge/osc_relay.py:623-634 | in every run the state datagrams sent, the link state's too, follow the order of the puts that placed them, each with that put's value; only a link state put at the head goes out of turn, and only one refreshed while queued is newer than its place |
| RelayTheorems.LinkChangeGoesFirst | src/cuemspowerbridge/osc_relay.py:503-516 | after a connect or disconnect the next state datagram is the link state with its current value, whatever was queued or came since |
| RelayTheorems.ResetsComplete | src/cuemspowerbridge/osc_relay.py:508-594 | with `cue/` forwarded and no project loaded, every cue's last put is 0, and its last datagram once the lane is drained |
| RelayTheorems.CueLeftPlaying | src/cuemspowerbridge/osc_relay.py:583-587 | a cue forwarded by a narrower key still shows its playing value after the unload |
| RelayTheorems.ResetsCompleteIff | src/cuemspowerbridge/osc_relay.py:583-587 | resets are complete in all runs exactly if `cue/` is forwarded or no cue is |
| RelayTheorems.DumpsChangeNothing | src/cuemspowerbridge/osc_relay.py:608-619 | neither a dump nor a heartbeat changes what the receiver ends up with |
| RelayTheorems.CacheIsLastPut | src/cuemspowerbridge/osc_relay.py:556-568 | every cached frame is its address's last put, and the link's last put is the link state |
| RelayTheorems.PulseShape | src/cuemspowerbridge/osc_relay.py:682-701 | in every run a 1 directly follows its own leading 0, the gap later, and is directly followed by its own trailing 0, the hold later, unless still owed |
| PulseTiming.HeadIsDue | src/cuemspowerbridge/osc_relay.py:636-701 | in every run each path's live head has exactly one heap entry, due 60 ms after the head's leading 0 or 150 ms after its 1 as they went out, and before that at the time it became head: of its request, or of the send or drop before it |
| PulseTiming.BatchSendsDue | src/cuemspowerbridge/osc_relay.py:735-748 | a batch that ends with a credit left has sent the next value of every head that was due when it began, no sooner than due |
| PulseTiming.BatchStops | src/cuemspowerbridge/osc_relay.py:735-748 | with a credit left a batch stops only when every heap entry is due later than the clock it last read and no state frame is queued |
| PulseTiming.PassSendsDue | src/cuemspowerbridge/osc_relay.py:713-750 | in every run a drain pass that finds a path's head due, and has a credit left, has sent its next value |
| PulseTiming.EarliestGoesFirst | src/cuemspowerbridge/osc_relay.py:737-745 | a turn takes the earliest due entry, the one scheduled first among equals, and while any is due nothing but pulses goes out |
| RelayTheorems.PulsesConserved | src/cuemspowerbridge/osc_relay.py:636-701 | in every run requests are completed, queued or dropped, `edges_sent` counts the raised 1s, and the pending sends are what is owed, within the cap |
| RelayTheorems.EdgesAlternate | src/cuemspowerbridge/osc_relay.py:570-581 | in every run edge requests of a cue alternate with its committed values |
| EdgeRuns.EdgeIffChange | src/cuemspowerbridge/osc_relay.py:538-580 | an event requests a pulse exactly if it is a cue's frame that comes with a project, two seconds or more after the last connect, and takes the cue's value, as the events tell it, from outside 1..99 into it (its start) or from inside to 100 (its end) |
| EdgeRuns.EdgesTold | src/cuemspowerbridge/osc_relay.py:503-581 | in every run the pulses requested are, in order, exactly those its events ask for |
| EdgeRuns.SuppressedAfterConnect | src/cuemspowerbridge/osc_relay.py:503-506 | the suppression runs for two seconds from the last connect, whatever comes after it |
| CacheRuns.StaysCached | src/cuemspowerbridge/osc_relay.py:508-594 | a cached entry stays until the link drops or, if per-cue, the project is unloaded |
| CacheSteps.CacheIff | src/cuemspowerbridge/osc_relay.py:503-592 | in every run each event leaves exactly these addresses cached: the listed ones it forwards, held ones at a load, a new per-cue one only while fewer than 20000 are; an unload keeps what is not per-cue, a link drop nothing |
| CacheRuns.DumpReplays | src/cuemspowerbridge/osc_relay.py:608-619 | a dump re-queues every cached entry the cue names allow, each with its address's last put |
| CacheSteps.DumpExactly | src/cuemspowerbridge/osc_relay.py:608-619 | a dump queues exactly the link state and the cached addresses that are not per-cue or whose cue is named, a heartbeat the link state alone |
| CacheRuns.LateJoinerGets | src/cuemspowerbridge/osc_relay.py:556-568 | every forwarded value that is not per-cue is re-queued by a dump, with its last value, short of a link drop |
| CacheRuns.LateJoinerGetsCue | src/cuemspowerbridge/osc_relay.py:556-568 | the same for per-cue values that came live, short of an unload, a cue the engine no longer names, or a new address in a full cache |
| CacheRuns.LateJoinerGetsHeld | src/cuemspowerbridge/osc_relay.py:524-568 | the same for every per-cue value held when its project was loaded: what fits the hold buffer fits the cache |
| Drain.TurnProgress | src/cuemspowerbridge/osc_relay.py:716-748 | every turn with something due or queued sends one datagram of the backlog or clears a stale heap entry |
| Drain.PulsesGoFirst | src/cuemspowerbridge/osc_relay.py:737-745 | a state frame goes out only while every live head's entry is due later |
| Drain.NothingStranded | src/cuemspowerbridge/osc_relay.py:636-701 | with an empty heap no pulse is queued and nothing is owed |
| Drain.DrainTerminates | src/cuemspowerbridge/osc_relay.py:709-750 | without input and with time moving on, the paced drain, from any credit and at any rate above 0, empties both lanes, after exactly as many datagrams as were queued and owed |
| Drain.NoRateStalls | src/cuemspowerbridge/osc_relay.py:713-750 | the credit gate is real: at rate 0, which the configuration excludes, a drain short of a credit sends nothing more |
| Drain.BatchSpends | src/cuemspowerbridge/osc_relay.py:735-748 | a batch spends one credit per datagram and never more than it has |
| Drain.RateHolds | src/cuemspowerbridge/osc_relay.py:709-750 | 500 x datagrams since the last idle point, with the credit left, stay within max(500, rate) plus the rate per tick, and over all within max(500, rate) per tick |
| Drain.PassesAreRuns | src/cuemspowerbridge/osc_relay.py:709-750 | the paced drain, with its inner stale skips, is a run of single sends, so every theorem above covers it |
| OscRelay.OscRelay.Begin | src/cuemspowerbridge/osc_relay.py:424 | starting queues the link state, 0, first |
| OscRelay.OscRelay.PutState | src/cuemspowerbridge/osc_relay.py:623-634 | the queue update, as one step of the model |
| OscRelay.OscRelay.DropOldestPulse | src/cuemspowerbridge/osc_relay.py:650-657 | the scan in creation order drops the oldest droppable pulse, or reports none |
| OscRelay.OscRelay.MakePulseRoom | src/cuemspowerbridge/osc_relay.py:636-640 | the overflow loop, with its termination |
| OscRelay.OscRelay.AddPulse | src/cuemspowerbridge/osc_relay.py:636-648 | a pulse request, as one step of the model |
| OscRelay.OscRelay.SendPulse | src/cuemspowerbridge/osc_relay.py:682-701 | one pulse datagram, its bookkeeping and what is scheduled next |
| OscRelay.OscRelay.OnFrame | src/cuemspowerbridge/osc_relay.py:518-549 | a status frame, as one step of the model |
| OscRelay.OscRelay.OnEngineConnect | src/cuemspowerbridge/osc_relay.py:503-506 | the connect hook, as one step of the model |
| OscRelay.OscRelay.OnEngineDisconnect | src/cuemspowerbridge/osc_relay.py:508-516 | the disconnect hook, as one step of the model |
| OscRelay.OscRelay.DumpCache | src/cuemspowerbridge/osc_relay.py:608-619 | the dump loop over the cache, as one step of the model |
| OscRelay.OscRelay.SendHeartbeat | src/cuemspowerbridge/osc_relay.py:752-755 | the heartbeat, as one step of the model |
| OscRelay.OscRelay.DrainPass | src/cuemspowerbridge/osc_relay.py:713-750 | one pass of the drain: stale entries popped, the batch within the credit, the credit earned |
| OscRelay.OscRelay.Close | src/cuemspowerbridge/osc_relay.py:435-467 | closing sends the link state first, then one 0 on exactly the paths whose 1 is out, then as much of the queue as the deadline allows |
| OscRelay.ClosedLow | src/cuemspowerbridge/osc_relay.py:435-457 | in every run closing adds one 0 on exactly the paths whose last value is 1, so that each 1 is followed by its own 0, and first sends the link state as it is |
| OscRelay.CloseDelivers | src/cuemspowerbridge/osc_relay.py:447-464 | with time for the whole queue, closing leaves the receiver with everything that was put |
| EngineState.FieldsAreLast | src/cuemspowerbridge/engine_state.py:270-271 | the cached fields are the last values received on this connection |
| EngineState.FreshArmMeans | src/cuemspowerbridge/engine_state.py:248-263 | `fresh_arm` holds exactly if the last `load` named a project, no run followed, and a later `armed` yes came while the cached value was not yes |
| EngineState.NamesAndDiagnosis | src/cuemspowerbridge/engine_state.py:244-275 | the name table has each cue's last name since the load changed, and no other; the diagnosis is the last since the last `load` frame |
| EngineState.EngineClient.Apply | src/cuemspowerbridge/engine_state.py:244-272 | one frame's update of the cache |
| EngineState.EngineClient.Dropped | src/cuemspowerbridge/engine_state.py:200-212 | a dropped connection leaves everything unknown |
| EngineState.EngineClient.Connected | src/cuemspowerbridge/engine_state.py:174-182 | a new connection starts from the cache of no frames |
| EditorModel.RefusedIffOutstanding | src/cuemspowerbridge/editor_client.py:131-144 | a second engine-bound request is refused exactly while one is pending |
| EditorModel.ReplyFindsItsRequest | src/cuemspowerbridge/editor_client.py:212-235 | a reply that matches the pending engine-bound request ends that request, frees the slot and touches no other future |
| EditorModel.AnswersMeans | src/cuemspowerbridge/editor_client.py:87-97 | a reply matches a request exactly if it names its action, or as an error the action that failed, and for a project's load its uuid, whatever the letters' case |
| EditorModel.ResolveEnds | src/cuemspowerbridge/editor_client.py:212-235 | a reply ends the oldest pending request it answers, or, about the project list, each: its future is done with it and it leaves; all others stay pending, their futures waiting |
| EditorModel.DropCancels | src/cuemspowerbridge/editor_client.py:146-151 | a request that is dropped leaves, its future cancelled, and no other |
| EditorModel.FailAllEmpties | src/cuemspowerbridge/editor_client.py:206-210 | a disconnect fails exactly the pending requests still waiting, and empties the list |
| EditorModel.SingleFlightHolds | src/cuemspowerbridge/editor_client.py:124-163 | in every run, however requests were dropped, at most one engine-bound request is pending, and an answer to it ends it, or, if it does not say what it answers, ends nothing |
| EditorModel.OwedHoldsSlot | src/cuemspowerbridge/editor_client.py:146-163 | in every run in which no delivered one was dropped, an engine-bound request still owed its answer holds the slot |
| EditorModel.AnswersEndTheirOwn | src/cuemspowerbridge/editor_client.py:212-235 | in such runs every answer ends the request that caused it, and no other |
| EditorModel.SlotFreedOnlyBy | src/cuemspowerbridge/editor_client.py:146-163 | in such runs a delivered engine-bound request leaves only by its own answer or a disconnect |
| EditorModel.CancelledSendMisroutes | src/cuemspowerbridge/editor_client.py:153-160 | a run in which a cancelled send whose frame did go out has its answer end the next request |
| EditorModel.LateAnswerHarmlessIff | src/cuemspowerbridge/editor_client.py:212-235 | in every run a late answer does no harm exactly if the slot is free or its holder asks for something else; else it ends the holder |
| EditorModel.RegisterSafeIff | src/cuemspowerbridge/editor_client.py:131-144 | before a request is registered: some late answer could end it exactly if a dropped one for the same target is owed its answer |
| EditorClient.EditorClient.Register | src/cuemspowerbridge/editor_client.py:131-144 | registering, or the refusal, as a step of the model |
| EditorClient.EditorClient.Unregister | src/cuemspowerbridge/editor_client.py:146-151 | dropping a request cancels its future if it still waits |
| EditorClient.EditorClient.Outstanding | src/cuemspowerbridge/editor_client.py:124-129 | the first engine-bound request pending |
| EditorClient.EditorClient.FindHits | src/cuemspowerbridge/editor_client.py:226-227 | the pending requests a reply matches, oldest first |
| EditorClient.EditorClient.Resolve | src/cuemspowerbridge/editor_client.py:212-235 | a reply ends its oldest match, a project list every list request |
| EditorClient.EditorClient.FailPending | src/cuemspowerbridge/editor_client.py:206-210 | every pending future that still waits fails |
| OpRecords.AcceptedIff | src/cuemspowerbridge/project_ops.py:173-217 | a frame makes an operation accepted exactly if it leaves it loading, the arm seen to drop, and now on with its project loaded |
| OpRecords.StatusLife | src/cuemspowerbridge/project_ops.py:173-217 | a frame moves an operation only along its life and leaves no arm missed |
| OpRecords.DegradedIff | src/cuemspowerbridge/project_ops.py:219-228 | an accepted load ends degraded exactly if the engine's diagnosis of this load names unreachable nodes, or, without one, if it was forced past missing nodes |
| OpRecords.FrameFailsIff | src/cuemspowerbridge/project_ops.py:192-200 | a frame fails a loading operation exactly if the show started before its arm dropped |
| OpRecords.CallbackFailsIff | src/cuemspowerbridge/project_ops.py:294-348 | a reply fails it exactly on a definitive error, a lost editor exactly if the engine showed no sign of the load; a spent budget leaves it loading, overdue |
| OpRecords.ReplyLife | src/cuemspowerbridge/project_ops.py:294-322 | the end of a request moves an operation along its life; armed and degraded are left only on a definitive error |
| OpRecords.EndLife | src/cuemspowerbridge/project_ops.py:236-292 | abort and replacement end a loading operation and wake its waiters |
| OpRecords.UnloadLife | src/cuemspowerbridge/project_ops.py:728-759 | each end of the unload handler moves its operation along its life, and changes no failed or superseded one; in which state it ends it, SlotRun.UnloadEndMeans says |
| OpHistory.SendGoesIff | src/cuemspowerbridge/project_ops.py:572-611 | a send goes out exactly with the slot free, the editor up, no show running, and for an operator the engine known and no shutdown under way; it makes one operation, loading, with nothing seen, of what was asked |
| OpHistory.OperationIsAsked | src/cuemspowerbridge/project_ops.py:540-611 | in every run each operation was made by the send of one request, and its source, kind, project, force and missing nodes are still what that asked for, and its name too if it was known |
| OpHistory.AcceptedAsAsked | src/cuemspowerbridge/project_ops.py:203-217 | an operation is accepted only if after its own send the arm dropped and then an `armed` yes came with the engine's `load` the project that was asked for, whenever its name was known |
| OpSeen.FrameDecides | src/cuemspowerbridge/project_ops.py:173-217 | in every run a frame decides a tracked load by the engine history since its send: accepted exactly if the arm has dropped and is on with its project loaded; failed exactly if the show runs before that drop; else still loading |
| OpSeen.GraceDecides | src/cuemspowerbridge/project_ops.py:324-331 | when the grace is over the current load fails exactly if the engine showed neither a drop of the arm nor a `load` since its send |
| OpSeen.NoArmMissedInHistory | src/cuemspowerbridge/project_ops.py:184-217 | no tracked load rests loading while the arm has dropped since its send and is on with its project loaded |
| OpSeen.BudgetWatches | src/cuemspowerbridge/project_ops.py:236-254 | every installed operation still loading has its budget running, or is overdue with its waiters woken |
| OpEnds.EndsAreCaused | src/cuemspowerbridge/project_ops.py:173-348 | in every run each operation's final state, reason and editor mark go back to the outcome of its own request, or to the engine, a timer, a shutdown or a newer operation |
| OpRun.RunSound | src/cuemspowerbridge/project_ops.py:173-348 | the protocol's invariant, in every run |
| OpRun.AcceptanceBacked | src/cuemspowerbridge/project_ops.py:203-217 | an accepted operation's history has, after its send began, a drop of the arm, then an `armed` yes, with its project loaded; that this is the project asked for, OpHistory.AcceptedAsAsked says |
| OpRun.NoArmMissed | src/cuemspowerbridge/project_ops.py:184-201 | no operation tracked, as the one being sent or the current one, rests loading while its arm dropped and is back with its project loaded |
| OpRun.ReplacedAreDone | src/cuemspowerbridge/project_ops.py:236-247 | every installed operation but the current one is out of `loading`, its waiters woken |
| OpRun.StepMoves | src/cuemspowerbridge/project_ops.py:236-348 | any step moves an operation only along its life; armed or degraded is left only for failed, by the callback of its own definitive error |
| OpRun.FinalStays | src/cuemspowerbridge/project_ops.py:267-272 | failed and superseded are final, with their reason, over the rest of every run |
| OpRun.SendsGuarded | src/cuemspowerbridge/project_ops.py:540-611 | every send starts with the slot free, the editor up, no show running, and for an operator with the engine known and no shutdown under way |
| OpRun.RecheckNeeded | src/cuemspowerbridge/project_ops.py:572-588 | the first checks do not carry over the awaits: a load they let through can find the show running at its send, and is refused |
| OpRun.JoinMeans | src/cuemspowerbridge/project_ops.py:441-447 | a press joins only the current operation, a load of the same project still loading, no waiter woken |
| OpRun.JoinIff | src/cuemspowerbridge/project_ops.py:441-447 | a press joins exactly the current operation, if that is a load of its project, loading in time and not answered against, unless it asks for a reload |
| OpRun.CacheIsRecent | src/cuemspowerbridge/engine_state.py:200-212 | in every run the engine cache is that of the frames of this connection alone |
| OpRun.AlreadyLoadedMeans | src/cuemspowerbridge/project_ops.py:449-462 | an "already loaded" answer means that the engine last loaded this very project on this connection, has not run it since, and armed it afterwards |
| OpRun.AlreadyLoadedIff | src/cuemspowerbridge/project_ops.py:449-462 | and the answer is given exactly then, if nothing is loading, the diagnosis names no unreachable nodes for that project, and the current operation did not load it by force |
| SlotRun.SlotIsTheClients | src/cuemspowerbridge/project_ops.py:560-600 | in every joint run of protocol and client the slot is taken exactly while the client has an engine-bound request outstanding, that of the same operation, and registering another is refused exactly then |
| SlotRun.OutcomeIsItsRequests | src/cuemspowerbridge/project_ops.py:294-318 | an operation's outcome is what became of its own request's future: a success, an error that says Timeout, any other error, or a lost socket |
| SlotRun.SendsRegister | src/cuemspowerbridge/editor_client.py:131-163 | every send finds the client connected with nothing outstanding, and leaves its own request outstanding |
| SlotRun.EndsAreAnswered | src/cuemspowerbridge/project_ops.py:294-322 | in every joint run an operation is unloaded only if its own request's future is done with a success, has failed of the editor only if it is done with an error that is no timeout, and shows of the editor what became of its own request |
| SlotRun.UnloadEndMeans | src/cuemspowerbridge/project_ops.py:728-759 | in every joint run the unload handler leaves its operation unloaded on a success, and failed, each with its reason, on a timeout error, a running show, another error, a lost socket or its own timeout; unless it had failed or was superseded |
| SlotRun.CallbackMeans | src/cuemspowerbridge/project_ops.py:294-322 | in every joint run the callback of a request fails a load on an error that is no timeout, unless it had failed or was superseded; a timeout, a success and a lost socket only mark it, the last with the grace running for the current load |
| ProjectOps.Operation.Finish | src/cuemspowerbridge/project_ops.py:267-283 | the end of an operation; none of a failed or superseded one |
| ProjectOps.Ops.Degraded | src/cuemspowerbridge/project_ops.py:219-228 | the check of the diagnosis, then of the forced load |
| ProjectOps.Ops.Evaluate | src/cuemspowerbridge/project_ops.py:203-217 | the rule that accepts an armed load, as a step of the record |
| ProjectOps.Ops.OnEngineStatus | src/cuemspowerbridge/project_ops.py:173-201 | a frame reaches the operation being sent and the current one, each as a step of its record |
| ProjectOps.Ops.Install | src/cuemspowerbridge/project_ops.py:236-259 | the new operation is current with its timers, the old one superseded if it was loading |
| ProjectOps.Ops.OnEditorReply | src/cuemspowerbridge/project_ops.py:294-322 | the four ends of a request, as steps of the record |
| ProjectOps.Ops.OnEditorLost | src/cuemspowerbridge/project_ops.py:324-331 | the grace after a lost editor, as a step of the record |
| ProjectOps.Ops.OnBudget | src/cuemspowerbridge/project_ops.py:339-348 | the budget's end, as a step of the record |
| ProjectOps.Ops.Abort | src/cuemspowerbridge/project_ops.py:285-292 | a loading current operation fails |
| ProjectOps.Ops.EndUnload | src/cuemspowerbridge/project_ops.py:728-759 | the ends of the unload handler, as steps of the record |
| OpSteps.Frame | src/cuemspowerbridge/engine_state.py:244-281 | applying a frame and calling the listener takes all operation objects through the protocol's frame step, untracked ones unchanged |
| OpSteps.Sent | src/cuemspowerbridge/project_ops.py:598-608 | a send that came through is the protocol's step: handed over from being sent to current, the old one superseded |
| OpSteps.Replied | src/cuemspowerbridge/project_ops.py:294-322 | a request's callback is the protocol's step, for all operations |
| OpSteps.BudgetRanOut | src/cuemspowerbridge/project_ops.py:339-348 | a spent budget is the protocol's step |
| OpSteps.GraceRanOut | src/cuemspowerbridge/project_ops.py:324-331 | the end of the grace is the protocol's step |
| OpSteps.UnloadEnded | src/cuemspowerbridge/project_ops.py:728-759 | an end of the unload handler is the protocol's step |
| OpSteps.Aborted | src/cuemspowerbridge/project_ops.py:285-292 | an abort is the protocol's step |
| Reachability.StreakMeans | src/cuemspowerbridge/reachability.py:96-102 | the counter reaches the threshold exactly after that many failed probes in a row |
| Reachability.WaitUntilAllDown | src/cuemspowerbridge/reachability.py:74-117 | the stuck list is exactly the hosts with no such row, in order; the poll ends after the first round with all down or the time up, within ceil(max wait / interval) + 1 rounds |
| Shelly.CallWithRetry | src/cuemspowerbridge/shelly.py:73-85 | a call ends at the first attempt not worth a retry, or the fourth, having slept 1, 3, 9 seconds in between |
| Shelly.Decided | src/cuemspowerbridge/shelly.py:73-104 | a call has one outcome only, which decides what is read from it |
| Shelly.NotOpenMeans | src/cuemspowerbridge/shelly.py:60-85 | the relay reads as not open exactly if one of four attempts, those before it failed, is answered with 200 and either no JSON body or an object whose `output` is missing or not false |
| Shelly.OpenMeans | src/cuemspowerbridge/shelly.py:60-91 | it reads as open exactly if that first answer is an object whose `output` is false |
| Shelly.CallMeans | src/cuemspowerbridge/shelly.py:60-104 | a call is accepted exactly if one of four attempts, those before it failed, is answered with 200, and given up exactly if all four fail |
| Shutdown.Coordinator.Poll | src/cuemspowerbridge/bridge.py:588-602 | after the poll every node is down or the wait is over, and the stuck ones are pending |
| Shutdown.Coordinator.Prepare | src/cuemspowerbridge/bridge.py:545-615 | goes on exactly if the node map was read and nothing raised; the nodes off, then abort, displays and poll, or after a step that raised the nodes alone, or nothing without a map |
| Shutdown.Coordinator.ReadRelay | src/cuemspowerbridge/bridge.py:624-630 | the pre-flight goes on exactly if the relay reads as not open: its answer may lack `output`, or be no JSON at all |
| Shutdown.Coordinator.ArmAndPowerOff | src/cuemspowerbridge/bridge.py:617-656 | the controller goes off exactly behind a relay that reads as not open and an accepted timer, if its command exists; never in a dry run |
| Shutdown.Coordinator.HandleShutdown | src/cuemspowerbridge/bridge.py:504-537 | the answers 200, 401, 409, 500, 502 and 503, each with its exact condition, state and effects |
| Shutdown.Coordinator.RunShutdown | src/cuemspowerbridge/bridge.py:541-656 | of every run, on positions: with the node map read the nodes' poweroff of exactly its hosts comes first; abort, displays, poll, relay reading, timer and the controller follow in this order, each exactly under its own condition; and so do the three outcomes |
| Shutdown.FailSafe | src/cuemspowerbridge/bridge.py:541-656 | in any run the controller goes off once, last, right after the relay read as not open and its timer was armed, with every node ordered off first and then polled; a stuck node then means that the whole wait was over |

## Left out

- Bytes: a frame is its address and first argument; OSC encoding, blobs and floats are not part of this model, and what `int()` reads in a text comes with the text.
- Clocks: times are integer microseconds and credits are scaled by 500; one await-free block reads the clock once, except that a send's time is read after it.
- Drain pacing: the waits of an idle drain are model steps that send nothing; sleeping longer than a tick only lowers the rate.
- The heap: a set of entries with a least element, as `heapq` orders them; its array layout is not modelled.
- Pulse objects and editor requests: records found by their number, which stands for object identity.
- Relay start-up and configuration: parsing of targets, keys, rate and refresh, the enabled flag, the listener, target sockets and their recovery, the dump rate limit, warnings and statistics.
- Closing's deadline: the number of state frames it allows is a parameter.
- Letter case: a project's uuid is compared in lower case on ASCII letters only.
- EditorModel.AnswersEndTheirOwn: for runs in which no delivered request is dropped; CancelledSendMisroutes, LateAnswerHarmlessIff and RegisterSafeIff say what holds in the others.
- The editor's answers: each echoes its request or names none; one that names a request it does not answer is not modelled. A project_ready error without its uuid ends nothing and leaves the slot held until the socket drops.
- The editor's frames: their JSON decoding is not part of this model.
- Project list, node check and auto-play teardown: awaits of a request whose results are parameters; any of them may end it.
- Auto-load's loop: only its send, its lock and its operation; pausing, suspending and restarting it are not part of this model.
- Unload confirmation: the wait for the engine's empty `load` after the editor's success is time between two events; whether it was confirmed is not modelled.
- Status wording, HTTP bodies, `wait=1` answers and the dry-run check of a load.
- The slot watchdog: it closes the editor's socket, so it is an editor disconnect of the model.
- Shutdown effects: SSH, displays, auto-play and the local command are entries of an effect list; a display that hangs or fails does not stop the run, so its end is not modelled.
- Cancelled shutdown requests: a handler that is cancelled mid-run is not modelled.
- Reachability probes: ping and TCP are one outcome per host and round.
- NDI preview, screens and relay, display drivers, cluster bus, node maps, rate limiter, command-line tools and legacy clients would add only easy members.
