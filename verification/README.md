# Verification of Remote Pi's protocols

Remote Pi connects a coding session (the *extension*), a *relay* and a *browser*. Most of what can go wrong lies in the
hand-written protocols between the three: how session history is paged, packed and put together again; how a session
keeps its connection to the relay; what an owner is shown of the hosts it may see; how a pairing either happens
completely or not at all; how a message is handed over once and shown once. This project models those protocols in
Dafny 4.11 and proves what they promise.

`dafny verify dfyconfig.toml` checks everything. A component that updates its fields in place is a class. Each of its
methods is proved against a specification function on the values of those fields, and what the component promises is
proved as lemmas about the specification functions, over all runs and all interleavings. Code between two `await`s is
one atomic step.

## What is proved

* **History.** Where groups keep apart, a browser that follows `next_before` from the first page to the last ends up with
  exactly the events of the snapshot it started from, each once, although every reply is cut into chunks and fragments,
  the chunks of a reply arrive in any order, and the session keeps growing between the pages
  (`HistoryCoverage.HistoryIsComplete`). The layers
  below are proved on their own: the sender's packing against the browser's window (`HistoryWindow.WindowRoundTrip`),
  interleaved fragment streams (`FragmentStreams.ExactlyOnce`), the choice of pages (`HistorySelection.WalkCovers`),
  marker recovery (`Recovery.RecoverIsRecords`, `Recovery.EveryMessageOnce`) and its stability (`Recovery.RecordsStay`),
  and live publication against later recovery (`TimelineRuntime.PublishedIsRecovered`).
  Paging can lose events, and the results say exactly when: a browser ends up with all of the snapshot if and only if no
  cursor position of its walk splits a group (`HistoryCoverage.HistoryIsCompleteIff`), and the groups of a session keep
  apart, so that this holds for every walk, if and only if no marked message lies between two unmarked ones and no unmarked
  one within a group of marked ones (`TimelineRuntime.SessionsSeparatedIff`). A session in which the extension was on only
  for a while in between loses a message unless it fits the first page (`HistoryLoss.InterruptedSessionLosesIff`, with
  `InterruptedSessionLoses` and `ResumedIsInterrupted` for its existence).
* **Relay lifecycle.** In every interleaving of starts, stops, promises, timers and remote closes, each client is
  accounted for and closed at most once, and a late continuation installs nothing. A started session has nothing left
  that drives it, neither a connection nor an attempt nor a timer, if and only if since its start, while disposed, its
  wanted continuation resumed, its timer fired or its client closed (`RelayLifecycle.UndrivenIffDropped`). Disposal is only
  ever set in production (`pi-extension/src/index.ts:539`) and unset by a function for tests alone
  (`pi-extension/src/index.ts:81`); so a started, undisposed session is always connected, connecting or waiting to
  reconnect (`AlwaysAlive`). `RevivalStrands` is a run that unsets it and strands the session.
* **Registry.** Folding what a subscribed connection received gives exactly the endpoints its owner is entitled to, after
  any run (`PeerRegistry.FoldIsEntitledView`); a replaced host connection never acts again (`ReplacedForGood`).
* **Pairing.** A token serves one owner and request and is committed at most once; an attempt commits only after its own
  write and announcement, with relay, binding and reservation current; a rollback restores exactly what was there before
  that write (`PairingCoordinator.EveryInterleaving`, `QrSession.TokenServesOne`, `OwnerStorage.RollbackRestores`).
  Attempts and file together: when an attempt has ended, its owner's slot is as its committed write left it, or as it was
  before a write that was not committed, unless something else has been written to the slot
  (`PairingStorage.FileFollowsAttempt`).
* **Messages.** The idempotency table forgets an entry if and only if there is a reason to (`SessionState.ForgetsForReason`),
  so a remembered request is handed over at most once (`MessageService.HandedOverAtMostOnce`). In the browser no request is
  shown twice or beside its formal event, and none vanishes without a reason (`BrowserTimeline.AlwaysClean`).
* **Display.** The incremental five-group store agrees with the batch answer over everything ever committed
  (`TimelineStore.StoreKeepsRecentOfAll`). Streamed text arrives unchanged (`PartialDeltas.TextArrives`), the paced display
  catches up within a bounded number of ticks (`StreamPacing.DrainsInTime`), never shows a stream beside its formal event
  and in the end shows everything (`StreamDisplaySafety.ScreenNeverShowsBoth`, `AllShownWhenDone`).
* **Keys.** The TypeScript and the Rust decoder accept the same strings with the same bytes (`Ed25519Keys.DecodersAgree`).

## Behaviour worth knowing

The model does what the code does, also where one might expect more of it.

* A page continues before its oldest group, and later pages read no further than there
  (`pi-extension/src/timeline/history.ts:234-237`, `:283`): a record of a still older group that lies behind that position is
  on no page. Messages without a marker all share one legacy group (`pi-extension/src/timeline/runtime.ts:257-267`), so a
  session that ran for a time without the extension, with it, and without it again has such records, see
  `HistoryLoss.InterruptedSessionLosesIff`.
* `finalize` never completes a window (`pwa/src/lib/pwa/timeline-transfer.ts:293-298`), because the chunk that makes a
  window ready has completed it already, see `HistoryAssembler.FinalizeOnlyDiscards`.
* Chunks are planned as if each were number 0 (`pi-extension/src/timeline/history.ts:398-404`), so a chunk that just fitted
  in planning can be too large under its real number; the sender then throws. `HistoryWindow.ThrowsOnlyForSize` says exactly
  when.
* Reassembly keeps the order of whole events only; events that travelled as fragments follow them
  (`pwa/src/lib/pwa/timeline-transfer.ts:311-318`).

## Model

| member | source | states |
|---|---|---|
| Base64.DecodeEncode | pi-extension/src/pairing/crypto.ts:71-77 | Decoding undoes encoding on every byte sequence; encodings have zero trailing bits (section 4 of RFC 4648) |
| Base64.EncodeDecode | pi-extension/src/pairing/crypto.ts:62-67 | Re-encoding gives a body back exactly when its trailing bits are zero (section 3.5 of RFC 4648) |
| Ed25519Keys.RelayAcceptsSpellings | relay/src/identity.rs:14-30 | The relay accepts a string, with some bytes, if and only if it is one of the four spellings of those 32 bytes |
| Ed25519Keys.TypeScriptAcceptsSpellings | pi-extension/src/pairing/crypto.ts:38-69 | The same for the extension's decoder |
| Ed25519Keys.DecodersAgree | pi-extension/src/pairing/crypto.ts:38-69 | Both decoders accept the same strings and read the same bytes |
| Ed25519Keys.CanonicalFormIsAnIdentity | pi-extension/src/pairing/crypto.ts:79-81 | Two strings canonicalize alike exactly when they are the same key; the canonical form is its own canonical form in both programs |
| FragmentTransfer.CutIntoFragments | pi-extension/src/timeline/v2_service.ts:221-236 | The offset loop cuts the event's bytes into numbered base64 fragments of at most 50 KiB, the last one final |
| FragmentTransfer.AddTouchesOneEvent | pwa/src/lib/pwa/timeline-transfer.ts:67-107 | Storing a fragment changes the state of its own event only; a discard drops that state |
| FragmentTransfer.AddKeepsAccounts | pwa/src/lib/pwa/timeline-transfer.ts:67-107 | `decodedBytes` stays the sum of the stored entries and both limits hold, for arbitrary fragments |
| FragmentAssembler.JoinEntries | pwa/src/lib/pwa/timeline-transfer.ts:114-126 | The byte-copy loop stays inside its buffer and yields the entries in order, or nothing while one is missing |
| FragmentAssembler.AcceptKeepsBalance | pwa/src/lib/pwa/timeline-transfer.ts:148-182 | Whatever frame arrives, `activeBytes` is the sum of what is held and both limits hold afterwards |
| FragmentAssembler.BalanceAlways | pwa/src/lib/pwa/timeline-transfer.ts:142-188 | The same after any sequence of frames |
| FragmentAssembler.TimelineEventFragmentAssembler.AcceptPiece | pwa/src/lib/pwa/timeline-transfer.ts:161-181 | One decoded fragment changes the state and answers as the specification says, error paths included |
| FragmentAssembler.TimelineEventFragmentAssembler.SettleStream | pwa/src/lib/pwa/timeline-transfer.ts:167-176 | Both limits, a refused fragment and a completed event, with the bytes given back in each case |
| FragmentAssembler.TimelineEventFragmentAssembler.FinishStream | pwa/src/lib/pwa/timeline-transfer.ts:109-139 | Parses the event when no gap is left, checks its id and scope, and drops the state |
| FragmentStreams.AddPiece | pwa/src/lib/pwa/timeline-transfer.ts:67-107 | A sender's piece, new or repeated, is stored and leaves the state that the arrived slices call for |
| FragmentStreams.FinishEvent | pwa/src/lib/pwa/timeline-transfer.ts:109-139 | An event completes exactly when all its slices have arrived, and is then the event that was sent |
| FragmentStreams.EachEventCompletes | pwa/src/lib/pwa/timeline-transfer.ts:142-188 | In any interleaving with repeats, within bounds, exactly the incomplete events are held; the delivery of the last missing slice completes the event, every other is pending |
| FragmentStreams.ExactlyOnce | pwa/src/lib/pwa/timeline-transfer.ts:142-188 | Each event completes exactly once if all its slices arrive and never otherwise |
| HistoryAssembler.ApplyKeepsCoherence | pwa/src/lib/pwa/timeline-transfer.ts:240-285 | The whole events of stored chunks are held, once each, and the fragments are accounted for |
| HistoryAssembler.HistoryWindowAssembler.AcceptFrame | pwa/src/lib/pwa/timeline-transfer.ts:215-291 | One chunk is ignored, discards the window, stays pending or completes it, with the state the specification gives |
| HistoryAssembler.HistoryWindowAssembler.TakeChunk | pwa/src/lib/pwa/timeline-transfer.ts:219-285 | Scope, numbering, byte total and contents of a chunk are taken in, or the window fails |
| HistoryAssembler.HistoryWindowAssembler.AcceptEvents | pwa/src/lib/pwa/timeline-transfer.ts:259-270 | Whole events are taken in order; a foreign or repeated one fails the window |
| HistoryAssembler.HistoryWindowAssembler.AcceptPieces | pwa/src/lib/pwa/timeline-transfer.ts:272-284 | Fragments are taken in order; one that conflicts or fails discards the window |
| HistoryAssembler.HistoryWindowAssembler.AcceptPiece | pwa/src/lib/pwa/timeline-transfer.ts:273-283 | One fragment, with the completion of its event |
| HistoryAssembler.HistoryWindowAssembler.IsReady | pwa/src/lib/pwa/timeline-transfer.ts:194-200 | True exactly when the final chunk is known, all numbers up to it are there and no fragment is open |
| HistoryAssembler.HistoryWindowAssembler.Complete | pwa/src/lib/pwa/timeline-transfer.ts:311-322 | The result holds the whole events in chunk order, then the other completed events; too many bytes throw |
| HistoryAssembler.HistoryWindowAssembler.CollectWholes | pwa/src/lib/pwa/timeline-transfer.ts:311-314 | The whole events of the stored chunks, found again by id, in chunk order |
| HistoryAssembler.HistoryWindowAssembler.AppendOthers | pwa/src/lib/pwa/timeline-transfer.ts:315-318 | Behind them the completed events that are none of them, in the order of completion |
| HistoryAssembler.HistoryWindowAssembler.FinalizeWindow | pwa/src/lib/pwa/timeline-transfer.ts:293-298 | Completes a ready window, or throws and leaves it where its events are too large; discards any other open window |
| HistoryAssembler.FinalizeOnlyDiscards | pwa/src/lib/pwa/timeline-transfer.ts:286-298 | After any chunks, finalizing discards an open window and ignores any other; it never completes one and never throws |
| HistoryDelivery.ApplyNext | pwa/src/lib/pwa/timeline-transfer.ts:219-285 | Whichever chunk of a response comes next, it is taken in whole: nothing lost, nothing invented |
| HistoryDelivery.ReadyWhenAllDelivered | pwa/src/lib/pwa/timeline-transfer.ts:286-287 | The window is ready exactly when every chunk has arrived |
| HistoryDelivery.CompletedIsWindow | pwa/src/lib/pwa/timeline-transfer.ts:311-322 | Then the completed events are those of the window |
| HistoryDelivery.Reassembles | pwa/src/lib/pwa/timeline-transfer.ts:215-322 | In every delivery order: pending until the last chunk, then complete with exactly the events sent and the right continuation; never discarded |
| HistoryWindow.CollectItems | pi-extension/src/timeline/history.ts:319-338 | An event that fits a chunk alone stays whole, any other becomes fragments |
| HistoryWindow.PackItems | pi-extension/src/timeline/history.ts:340-357 | The greedy packing loop, with the case in which it throws |
| HistoryWindow.EmitFrames | pi-extension/src/timeline/history.ts:359-367 | Numbers and validates the planned chunks |
| HistoryWindow.BuildFrames | pi-extension/src/timeline/history.ts:308-396 | The three loops together compute the frames of a window |
| HistoryWindow.PayloadsKeepWindow | pi-extension/src/timeline/history.ts:319-357 | Packing keeps every event, whole or in fragments, exactly once and in window order |
| HistoryWindow.CutWeighs | pi-extension/src/timeline/history.ts:325-337 | An event's fragments carry as many bytes as the event |
| HistoryWindow.WindowCarried | pi-extension/src/timeline/history.ts:308-368 | Returned frames carry the window: right numbers and tail, each part once, every frame acceptable, bytes within the window limit |
| HistoryWindow.WindowRoundTrip | pi-extension/src/timeline/history.ts:308-396 | For every page, size function and delivery order the browser completes with exactly the page's events; each frame is at most 512 KiB and holds at most one fragment of an event |
| HistoryWindow.PackFailsAtStart | pi-extension/src/timeline/history.ts:340-356 | Packing fails exactly when the first item does not fit an empty chunk |
| HistoryWindow.PackOncePerEvent | pi-extension/src/timeline/history.ts:342-356 | No chunk is planned with two fragments of one event |
| HistoryWindow.ThrowsOnlyForSize | pi-extension/src/timeline/history.ts:340-367 | The sender throws exactly when the first item does not fit or a planned chunk, under its real number, is too large or too long |
| Recovery.ScanTargetAfterMarker | pi-extension/src/timeline/runtime.ts:380-389 | The scan loop finds the next message of the announced role, past plain custom entries only |
| Recovery.CollectAnnounced | pi-extension/src/timeline/runtime.ts:245-256 | First pass: the events of markers with a target, and the ids they claim |
| Recovery.CollectLegacy | pi-extension/src/timeline/runtime.ts:257-267 | Second pass: unclaimed messages under legacy ids |
| Recovery.CollectSystem | pi-extension/src/timeline/runtime.ts:268-272 | Third pass: system entries the event schema accepts |
| Recovery.RecoverTimeline | pi-extension/src/timeline/runtime.ts:240-273 | The three passes in order, or the exception of a message event that the schema rejects |
| Recovery.ClaimedOnce | pi-extension/src/timeline/runtime.ts:245-256 | No two markers claim the same message |
| Recovery.TargetStays | pi-extension/src/timeline/runtime.ts:380-389 | A found target is found in every extension of the branch |
| Recovery.PassesShareOut | pi-extension/src/timeline/runtime.ts:240-273 | Each position gets its event from exactly one pass |
| Recovery.RecoverIsRecords | pi-extension/src/timeline/runtime.ts:240-273 | Recovery yields, without repeating an id, exactly the events that the positions stand for |
| Recovery.EveryMessageOnce | pi-extension/src/timeline/runtime.ts:240-273 | Every role-bearing message yields exactly one event, at its own time |
| Recovery.DecidedBy | pi-extension/src/timeline/runtime.ts:380-389 | A marker left of a message or marker has its target decided by the entries up to that one |
| Recovery.RecordsStay | pi-extension/src/timeline/runtime.ts:240-273 | Events of positions left of a message or marker are the same in every extension |
| Recovery.LiveIsRecovered | pi-extension/src/timeline/runtime.ts:349-434 | The event published live for a written marker equals the one recovered for it later in the same generation |
| HistoryRecords.BuildRecords | pi-extension/src/timeline/history.ts:217-241 | Recovered events are placed by id in the frozen snapshot, cut at the limit and sorted |
| HistoryRecords.RecordsAreRead | pi-extension/src/timeline/history.ts:217-241 | Passes, lookups and sorting together read the branch position by position |
| HistorySelection.NormalizeLimit | pi-extension/src/timeline/history.ts:455-458 | Every requested limit becomes a group count from 1 to 5 |
| HistorySelection.SelectWindow | pi-extension/src/timeline/history.ts:243-306 | The selection loops: newest groups within limit and bytes, or system records alone, or too large |
| HistorySelection.WindowIsRest | pi-extension/src/timeline/history.ts:275-284 | A window shows all records since its first group if and only if no group straddles its lower end |
| HistorySelection.SelectionIs | pi-extension/src/timeline/history.ts:243-306 | A page is the newest groups that fit, at most as many as the limit, within the byte budget; its lower end is older than the request |
| HistorySelection.PageShowsAll | pi-extension/src/timeline/history.ts:243-306 | With separated groups a page is exactly the records between its two ends |
| HistorySelection.SeparatedIff | pi-extension/src/timeline/history.ts:243-306 | Groups are separated if and only if none straddles the start of another |
| HistorySelection.WalkCovers | pi-extension/src/timeline/history.ts:152-200 | Following the cursor to the end shows every record once and in order, each page within 32 MiB, for all limits, if groups are separated |
| HistorySelection.PageFullIff | pi-extension/src/timeline/history.ts:275-284 | A page is exactly the records between its two ends if and only if no group straddles its lower end |
| HistorySelection.WalkCoversIff | pi-extension/src/timeline/history.ts:152-200 | A walk to the end shows every record, once and in order, if and only if none of its cursor positions splits a group |
| HistorySelection.WalkDescends | pi-extension/src/timeline/history.ts:152-200 | The cursor position falls with every page, separated or not |
| HistorySelection.CoverageNeedsSeparation | pi-extension/src/timeline/history.ts:275-284 | If pages of one group each show everything, groups are separated |
| HistorySelection.InterleavedWalkIff | pi-extension/src/timeline/history.ts:275-284 | Of any three records the middle one of which lies within the group of the others, a walk shows the newest if and only if its first page takes more than one group and all three fit |
| HistorySelection.InterleavedGroupsLose | pi-extension/src/timeline/history.ts:277-284 | Such a walk by one group exists, and loses the newest |
| HistoryPager.TimelineHistoryPager.HandleSync | pi-extension/src/timeline/history.ts:83-127 | One request: busy, used and unknown cursors, the initial page or an older one, and the cursors afterwards |
| HistoryPager.TimelineHistoryPager.SyncOlder | pi-extension/src/timeline/history.ts:99-127 | A cursor is marked used and busy, served, and left used |
| HistoryPager.TimelineHistoryPager.SyncInitial | pi-extension/src/timeline/history.ts:129-150 | Freezes the branch and serves its newest page, or fails without a snapshot head |
| HistoryPager.TimelineHistoryPager.ServePage | pi-extension/src/timeline/history.ts:152-200 | Validates the snapshot, selects, packs, and issues a cursor exactly when something older is left |
| HistoryCoverage.ServesAtMostOnce | pi-extension/src/timeline/history.ts:99-127 | No cursor is ever answered with two pages, and nothing stays busy |
| HistoryCoverage.SnapshotRecords | pi-extension/src/timeline/history.ts:202-241 | Whatever was appended meanwhile, a cursor pages through the records of its snapshot |
| HistoryCoverage.NextIsBoundary | pi-extension/src/timeline/history.ts:243-306 | A page that leaves something older ends at a marker or message entry |
| HistoryCoverage.VisitsWalk | pi-extension/src/timeline/history.ts:152-200 | The pages served while the session grows are those of a walk through the snapshot |
| HistoryCoverage.PageTransferable | pi-extension/src/timeline/history.ts:152-200 | Every page is something the packer accepts: different events, in scope, within the byte limit |
| HistoryCoverage.PageShown | pi-extension/src/timeline/history.ts:152-200 | One reply, fully delivered in any order, is the selected page |
| HistoryCoverage.ScreenIsWalk | pi-extension/src/timeline/history.ts:83-200 | From any cursor on, all replies together show exactly the events of the walk through the snapshot, each once, separated or not |
| HistoryCoverage.CursorShowsRest | pi-extension/src/timeline/history.ts:83-200 | With separated groups those are the snapshot's older events |
| HistoryCoverage.HistoryIsCompleteIff | pi-extension/src/timeline/history.ts:83-306 | From first page to end of stream, with reordered chunks and a growing session, the browser gets events of the snapshot, each once, and all of them if and only if no cursor position splits a group |
| HistoryCoverage.HistoryIsComplete | pi-extension/src/timeline/history.ts:83-306 | With separated groups the browser gets exactly the snapshot's events, each once |
| HistoryLoss.InterruptedSessionLosesIff | pi-extension/src/timeline/history.ts:275-284 | Of a session of an unmarked message, a marked one and another unmarked one, a browser that pages to the end gets the last message, which recovery finds, if and only if it first asks for more than one group and all three events fit one page |
| HistoryLoss.InterruptedSessionLoses | pi-extension/src/timeline/history.ts:83-306 | Asked for one group twice, every such session with small events is served to the end, in full, without that message |
| HistoryLoss.ResumedIsInterrupted | pi-extension/src/timeline/runtime.ts:257-267 | Such a session |
| TimelineRuntime.Runtime.OnMessageStart | pi-extension/src/timeline/runtime.ts:170-197 | Writes a marker with the open or a fresh group and remembers the message |
| TimelineRuntime.Runtime.OnMessageEnd | pi-extension/src/timeline/runtime.ts:215-224 | Takes the message off the pending list and defers its publication |
| TimelineRuntime.Runtime.PublishNext | pi-extension/src/timeline/runtime.ts:225-238 | The deferred publication: finds marker and target in the branch and publishes the event |
| TimelineRuntime.Runtime.OnSessionEntry | pi-extension/src/timeline/runtime.ts:140-146 | A system entry is published as it is stored |
| TimelineRuntime.Runtime.PublishEvent | pi-extension/src/timeline/runtime.ts:290-294 | An event id is published once |
| TimelineRuntime.GroupsFollow | pi-extension/src/timeline/runtime.ts:170-197 | In every session the groups of the markers follow one another |
| TimelineRuntime.SessionsSeparatedIff | pi-extension/src/timeline/runtime.ts:170-267 | The records of a session are separated if and only if no message with a marker lies between two without one, and none without one between two of the same group of markers |
| TimelineRuntime.SessionsAreSeparated | pi-extension/src/timeline/runtime.ts:170-267 | So they are when all messages without a marker come before the first marker |
| TimelineRuntime.LiveIsRecorded | pi-extension/src/timeline/runtime.ts:215-238 | The live event of an announced message is the event of its marker's position |
| TimelineRuntime.PublishedIsRecovered | pi-extension/src/timeline/runtime.ts:215-294 | Whatever is published live is published once and is what recovery finds, then and later |
| PartialDeltas.PartialDeltaChunks | pi-extension/src/timeline/runtime.ts:328-339 | The cutting loop computes the pieces |
| PartialDeltas.PiecesFit | pi-extension/src/timeline/runtime.ts:328-339 | Pieces are not empty, have at most 65536 code units and concatenate to the delta |
| PartialDeltas.PiecesKeepPairs | pi-extension/src/timeline/runtime.ts:328-339 | No surrogate pair (section 2.1 of RFC 2781) is split |
| PartialDeltas.MergePieces | pwa/src/lib/pwa/timeline-runtime.ts:58-63 | Merging the frames of a delta appends it to the text shown |
| PartialDeltas.TextArrives | pi-extension/src/timeline/runtime.ts:296-326 | Folding all frames gives the concatenation of all deltas, wherever status frames fall |
| SessionState.KeysIdentify | pi-extension/src/protocol/v2/session_state.ts:194-196 | Without NUL characters, equal keys mean the same generation, sender and request |
| SessionState.V2SessionState.SwitchGeneration | pi-extension/src/protocol/v2/session_state.ts:64-69 | Another generation empties the table; an empty one throws |
| SessionState.V2SessionState.BeginRequest | pi-extension/src/protocol/v2/session_state.ts:109-137 | New, replay or conflict, and the table after pruning and touching |
| SessionState.V2SessionState.UpdateRecord | pi-extension/src/protocol/v2/session_state.ts:139-158 | Changes status and ids of a remembered request and touches it |
| SessionState.V2SessionState.ForgetOwner | pi-extension/src/protocol/v2/session_state.ts:100-107 | Drops one sender's requests |
| SessionState.V2SessionState.PruneAt | pi-extension/src/protocol/v2/session_state.ts:178-184 | The loops drop expired entries, then the oldest beyond capacity |
| SessionState.V2SessionState.PruneCapacity | pi-extension/src/protocol/v2/session_state.ts:186-192 | The newest entries up to capacity remain |
| SessionState.PruneIs | pi-extension/src/protocol/v2/session_state.ts:178-184 | Within capacity, pruning drops exactly the expired entries |
| SessionState.TidyStep | pi-extension/src/protocol/v2/session_state.ts:109-192 | With a monotone clock every operation keeps keys distinct, order of last touch, and capacity |
| SessionState.AlwaysTidy | pi-extension/src/protocol/v2/session_state.ts:109-192 | So does every run |
| SessionState.ForgetsForReason | pi-extension/src/protocol/v2/session_state.ts:109-192 | An operation forgets an entry if and only if it was told to, the generation changed, the time was up, or the table is full of others touched no earlier |
| SessionState.DeliveredAtMostOnce | pi-extension/src/protocol/v2/session_state.ts:109-137 | Without such a reason a request begins as new at most once, and exactly then it is remembered |
| MessageService.TimelineV2Service.HandleUserMessage | pi-extension/src/timeline/v2_service.ts:305-345 | Table, channels, reply and whether the message is handed over, for every outcome of the callback |
| MessageService.TimelineV2Service.RefreshGeneration | pi-extension/src/timeline/v2_service.ts:89-95 | Another generation empties the table and forgets the request channels |
| MessageService.TimelineV2Service.HandleObserved | pi-extension/src/timeline/v2_service.ts:293-303 | An observed request of this sender is forgotten; others are refused |
| MessageService.TimelineV2Service.UnknownDeliveryOf | pi-extension/src/timeline/v2_service.ts:186-199 | A remembered request becomes one of unknown fate and its channel is told |
| MessageService.TimelineV2Service.ReplyAgain | pi-extension/src/timeline/v2_service.ts:347-355 | A repetition is answered by the recorded status |
| MessageService.TimelineV2Service.ReplyNew | pi-extension/src/timeline/v2_service.ts:328-344 | A new request is settled by the callback's answer |
| MessageService.HandlePerforms | pi-extension/src/timeline/v2_service.ts:305-355 | A message is handed over exactly when its request begins as new; the table sees just one beginning |
| MessageService.HandedOverIsDelivered | pi-extension/src/timeline/v2_service.ts:305-345 | Over a whole session, hand-overs under a key are the table's deliveries of that key |
| MessageService.HandedOverAtMostOnce | pi-extension/src/timeline/v2_service.ts:305-345 | While the table has no reason to forget a request, its message is handed over at most once |
| TimelineStore.RecentGroupIds | pwa/src/lib/pwa/timeline-store.ts:61-71 | The map loop, sort and slice compute the recent groups |
| TimelineStore.Store.CommitRealtime | pwa/src/lib/pwa/timeline-store.ts:155-171 | Merges, keeps the recent groups, or clears and reports a conflict; a foreign event changes nothing |
| TimelineStore.Store.ReplaceRecentWindow | pwa/src/lib/pwa/timeline-store.ts:140-153 | Fresh window and live journal replace the records, or a conflict clears them |
| TimelineStore.FiveAbove | pwa/src/lib/pwa/timeline-store.ts:61-71 | A group that is not recent has five recent groups above it |
| TimelineStore.FiveOfAll | pwa/src/lib/pwa/timeline-store.ts:155-171 | The five most recent of what was kept, after a batch, are the five most recent of everything |
| TimelineStore.SliceIsRecent | pwa/src/lib/pwa/timeline-store.ts:67-70 | Sorting and slicing keeps exactly the groups with fewer than five above them |
| TimelineStore.RecentGroupsAre | pwa/src/lib/pwa/timeline-store.ts:61-71 | The computed groups are those groups, by latest time stamp |
| TimelineStore.MergeIs | pwa/src/lib/pwa/timeline-store.ts:106-114 | Without a conflict, merging adds the incoming events and nothing else |
| TimelineStore.StoreKeepsRecentOfAll | pwa/src/lib/pwa/timeline-store.ts:155-171 | After any conflict-free commits the stored groups and their latest times are those of everything ever committed |
| StreamDisplayBuffer.SegmentText | pwa/src/lib/pwa/stream-display-buffer.ts:53-56 | The code points of a text, by a loop |
| StreamDisplayBuffer.JoinPoints | pwa/src/lib/pwa/stream-display-buffer.ts:53-56 | The segments of a text join to the text |
| StreamDisplayBuffer.AppendIsSegmentation | pwa/src/lib/pwa/stream-display-buffer.ts:58-66 | Segmenting on from the last segment gives what segmenting from scratch gives, also across a completed surrogate pair |
| StreamDisplayBuffer.PointsGrow | pwa/src/lib/pwa/stream-display-buffer.ts:58-66 | The first segments of a longer text cover at least as much |
| StreamDisplayBuffer.UpdateStreams | pwa/src/lib/pwa/stream-display-buffer.ts:187-239 | The first loop: each partial updates its stream or begins one, and whether the screen has to change |
| StreamDisplayBuffer.RetainStreams | pwa/src/lib/pwa/stream-display-buffer.ts:241-252 | The second loop: streams that are gone, or drained beside their formal event, are dropped |
| StreamDisplayBuffer.DisplayBuffer.IngestItems | pwa/src/lib/pwa/stream-display-buffer.ts:175-257 | The two loops on the streams; the screen is rebuilt exactly when something on it changes |
| StreamDisplayBuffer.DisplayBuffer.ResetItems | pwa/src/lib/pwa/stream-display-buffer.ts:259-282 | Every stream is shown in full, superseded ones are dropped |
| StreamDisplayBuffer.DisplayBuffer.AdvanceTick | pwa/src/lib/pwa/stream-display-buffer.ts:288-314 | One tick releases of each backlog its share and drops superseded streams that have drained |
| StreamPacing.UpdatePaced | pwa/src/lib/pwa/stream-display-buffer.ts:208-239 | Every update keeps the segments those of the whole text and the shown text within the released segments |
| StreamPacing.ShownGrowsWithText | pwa/src/lib/pwa/stream-display-buffer.ts:208-239 | While a text only gets longer, so does what is shown of it |
| StreamPacing.EvenPace | pwa/src/lib/pwa/stream-display-buffer.ts:292-297 | A backlog that the window can hold still fits it after a tick, and is gone after the last |
| StreamPacing.HighestPace | pwa/src/lib/pwa/stream-display-buffer.ts:292-297 | A larger backlog goes by 64 a tick |
| StreamPacing.TickNeedsLess | pwa/src/lib/pwa/stream-display-buffer.ts:291-304 | A tick leaves one tick less to go, whatever the backlog and the ticks spent |
| StreamPacing.NothingNeededIffDrained | pwa/src/lib/pwa/stream-display-buffer.ts:161-163 | A stream needs no more ticks if and only if it has drained |
| StreamPacing.AlwaysPaced | pwa/src/lib/pwa/stream-display-buffer.ts:169-314 | In every run each stream shows a prefix of its partial's text and is segmented as from scratch |
| StreamPacing.DrainsInTime | pwa/src/lib/pwa/stream-display-buffer.ts:288-318 | Without new input nothing is pending after max(8, ceil(B/64)) ticks, B the largest backlog |
| StreamPacing.TicksOnlyAdd | pwa/src/lib/pwa/stream-display-buffer.ts:288-314 | A tick takes nothing off a remaining stream and brings an undrained one further |
| StreamDisplaySafety.SnapshotShows | pwa/src/lib/pwa/stream-display-buffer.ts:326-346 | A snapshot holds only uncovered events, pending requests and projections of current streams |
| StreamDisplaySafety.SnapshotMisses | pwa/src/lib/pwa/stream-display-buffer.ts:326-346 | And all uncovered events and pending requests |
| StreamDisplaySafety.ScreenNeverShowsBoth | pwa/src/lib/pwa/stream-display-buffer.ts:169-365 | In every run the screen never shows a stream beside an event that supersedes it |
| StreamDisplaySafety.QuietUpdate | pwa/src/lib/pwa/stream-display-buffer.ts:208-239 | An update that does not ask for a new screen leaves an undrained stream undrained |
| StreamDisplaySafety.AllShownWhenDone | pwa/src/lib/pwa/stream-display-buffer.ts:316-346 | When nothing is pending, every event and pending request of the runtime is on the screen |
| StreamDisplaySafety.AllShownInTime | pwa/src/lib/pwa/stream-display-buffer.ts:288-346 | So it is after the drain bound |
| BrowserTimeline.Runtime.Enter | pwa/src/lib/pwa/timeline-runtime.ts:77-89 | Entering another scope drops its events and makes pending requests unknown |
| BrowserTimeline.Runtime.DropTransient | pwa/src/lib/pwa/timeline-runtime.ts:280-286 | Pending requests become unknown; queue snapshot and partial state go |
| BrowserTimeline.Runtime.Send | pwa/src/lib/pwa/timeline-runtime.ts:111-118 | A sendable text in scope becomes pending |
| BrowserTimeline.Runtime.MarkUnknownDelivery | pwa/src/lib/pwa/timeline-runtime.ts:120-125 | A pending request becomes unknown |
| BrowserTimeline.Runtime.Retry | pwa/src/lib/pwa/timeline-runtime.ts:127-136 | An unknown request becomes pending again under a new request id |
| BrowserTimeline.Runtime.Settle | pwa/src/lib/pwa/timeline-runtime.ts:270-278 | Requests of a message with a formal event are removed |
| BrowserTimeline.Runtime.CommitParsed | pwa/src/lib/pwa/timeline-runtime.ts:255-268 | An event is stored, unless it contradicts the one stored, and settles its requests |
| BrowserTimeline.Runtime.CommitAll | pwa/src/lib/pwa/timeline-runtime.ts:241-250 | A page of history, event by event |
| BrowserTimeline.Runtime.ReplaceEvents | pwa/src/lib/pwa/timeline-runtime.ts:229-239 | A fresh window replaces all events |
| BrowserTimeline.Runtime.OnStatus | pwa/src/lib/pwa/timeline-runtime.ts:181-196 | A status updates its request, settles it, or moves it to unknown |
| BrowserTimeline.Runtime.OnStarted | pwa/src/lib/pwa/timeline-runtime.ts:197-206 | A started message names its request's message and settles it |
| BrowserTimeline.Runtime.OnError | pwa/src/lib/pwa/timeline-runtime.ts:173-180 | An error makes its request unknown |
| BrowserTimeline.Runtime.OnQueue | pwa/src/lib/pwa/timeline-runtime.ts:141-172 | Queue snapshots are gathered; the final chunk drops and takes over requests |
| BrowserTimeline.Runtime.TakeItems | pwa/src/lib/pwa/timeline-runtime.ts:155-166 | The queued items become pending requests, one by one |
| BrowserTimeline.ReconcileIs | pwa/src/lib/pwa/timeline-runtime.ts:270-278 | Reconciling removes exactly the requests of a message whose formal event is there |
| BrowserTimeline.CommitClean | pwa/src/lib/pwa/timeline-runtime.ts:255-268 | An event keeps the view clean, and only requests of formal messages leave |
| BrowserTimeline.StatusClean | pwa/src/lib/pwa/timeline-runtime.ts:181-196 | A status keeps the view clean; only the request it names leaves, and only if its message has a formal event |
| BrowserTimeline.StartedClean | pwa/src/lib/pwa/timeline-runtime.ts:197-206 | So does a started message, with the request it answers |
| BrowserTimeline.QueueClean | pwa/src/lib/pwa/timeline-runtime.ts:141-172 | A queue snapshot keeps the view clean and drops only requests that left the queue without a message |
| BrowserTimeline.AlwaysClean | pwa/src/lib/pwa/timeline-runtime.ts:65-291 | In every reachable view no request is shown twice or beside its formal event; a step takes away only requests whose formal event arrives or is there, the request a status or started frame names, those a queue snapshot leaves out, or all when cleared |
| RelayLifecycle.Lifecycle.Begin | pi-extension/src/runtime/relay_lifecycle.ts:60-85 | Starts an attempt of a new generation, unless one runs or has succeeded |
| RelayLifecycle.Lifecycle.End | pi-extension/src/runtime/relay_lifecycle.ts:91-114 | Everything is dropped in a new generation; the active and the pending client are closed |
| RelayLifecycle.Lifecycle.OnIdentity | pi-extension/src/runtime/relay_lifecycle.ts:116-133 | The initial attempt resumes with the identity |
| RelayLifecycle.Lifecycle.OnInitialOptions | pi-extension/src/runtime/relay_lifecycle.ts:135-147 | It resumes with the options and creates the pending client |
| RelayLifecycle.Lifecycle.OnConnected | pi-extension/src/runtime/relay_lifecycle.ts:146-164 | A connection is installed, refused as late, or has failed |
| RelayLifecycle.Lifecycle.OnTimer | pi-extension/src/runtime/relay_lifecycle.ts:171-180 | The timer starts a reconnection of its generation |
| RelayLifecycle.Lifecycle.OnOptions | pi-extension/src/runtime/relay_lifecycle.ts:182-197 | A reconnection resumes with its options |
| RelayLifecycle.Lifecycle.OnRelayClose | pi-extension/src/runtime/relay_lifecycle.ts:219-225 | A lost active client schedules a reconnection |
| RelayLifecycle.Lifecycle.Reschedule | pi-extension/src/runtime/relay_lifecycle.ts:166-176 | A timer of a new generation, unless stopped, disposed or without identity |
| RelayLifecycle.Lifecycle.HandleConnectionFailure | pi-extension/src/runtime/relay_lifecycle.ts:227-232 | A failure of the current generation schedules a reconnection |
| RelayLifecycle.Lifecycle.CloseCandidateOnce | pi-extension/src/runtime/relay_lifecycle.ts:240-244 | `close` is called once for each client |
| RelayLifecycle.DropSound | pi-extension/src/runtime/relay_lifecycle.ts:116-217 | Dropping a continuation that is not connecting the pending client breaks nothing |
| RelayLifecycle.AbandonSound | pi-extension/src/runtime/relay_lifecycle.ts:227-244 | Neither does a failed connection, whose client is closed once |
| RelayLifecycle.NextSound | pi-extension/src/runtime/relay_lifecycle.ts:60-257 | Every step keeps the invariant of clients, continuations and generations |
| RelayLifecycle.EveryInterleaving | pi-extension/src/runtime/relay_lifecycle.ts:60-257 | Each client is active, pending, closed by one call or lost; active and pending never coexist; idle has neither nor a timer; at most one continuation is wanted |
| RelayLifecycle.LateInstallsNothing | pi-extension/src/runtime/relay_lifecycle.ts:251-257 | A continuation of an old generation, or one that resumes while disposed, changes nothing but its own client's fate |
| RelayLifecycle.DrivenUnlessDropped | pi-extension/src/runtime/relay_lifecycle.ts:116-257 | A step leaves a started, driven session undriven if and only if, while disposed, it resumes the wanted continuation, fires the timer or closes the active client |
| RelayLifecycle.UndrivenUntilStopped | pi-extension/src/runtime/relay_lifecycle.ts:60-257 | An undriven session stays started and undriven until it is stopped |
| RelayLifecycle.UndrivenIffDropped | pi-extension/src/runtime/relay_lifecycle.ts:56-257 | In every run a started session is undriven if and only if such a step happened since it started |
| RelayLifecycle.AliveIff | pi-extension/src/runtime/relay_lifecycle.ts:56-257 | A started session is connected, connecting or waiting unless it is disposed or was dropped since it started, and only then |
| RelayLifecycle.AlwaysAlive | pi-extension/src/runtime/relay_lifecycle.ts:56-257 | In every run that never unsets disposal a started, undisposed session is connected, connecting or waiting |
| RelayLifecycle.RevivalStrands | pi-extension/src/runtime/relay_lifecycle.ts:56-58 | A run that unsets it, after which a started session has nothing left to do |
| PeerRegistry.Peers.AddHost | relay/src/peers/registry.rs:62-81 | A host takes its endpoint under a fresh id, and subscribed owners are told |
| PeerRegistry.Peers.RemoveHost | relay/src/peers/registry.rs:95-110 | Only the current host leaves, and its owners are told |
| PeerRegistry.Peers.RemoveOwner | relay/src/peers/registry.rs:112-124 | A connection leaves, and the owner with its last one |
| PeerRegistry.Peers.SubscribeEndpoints | relay/src/peers/registry.rs:126-163 | Replaces the subscription and sends one snapshot per device |
| PeerRegistry.Peers.CollectSnapshots | relay/src/peers/registry.rs:126-163 | The snapshots, in the order in which the devices are enumerated |
| PeerRegistry.Peers.Update | relay/src/peers/registry.rs:165-193 | The current host changes metadata and owners, and owners are told |
| PeerRegistry.Peers.VisibilityDelta | relay/src/peers/registry.rs:308-349 | The nested loops notify each subscribed connection once, with the line for its owner |
| PeerRegistry.Peers.NotesFor | relay/src/peers/registry.rs:308-349 | The inner loop: the connections of one owner that subscribe to the device |
| PeerRegistry.Peers.SendNotifications | relay/src/peers/registry.rs:401-405 | Every note reaches its inbox |
| PeerRegistry.Peers.Announce | relay/src/peers/registry.rs:290-349 | A change reaches exactly the subscribed connections of owners it concerns |
| PeerRegistry.Peers.FromOwner | relay/src/peers/registry.rs:202-240 | A route to a host, or the reason it is refused |
| PeerRegistry.Peers.FromHost | relay/src/peers/registry.rs:242-288 | A route to an owner's connections, or the reason it is refused |
| PeerRegistry.DeltaUpdatesView | relay/src/peers/registry.rs:308-349 | One delta turns the right view of an endpoint into the right view after the change, and touches no other |
| PeerRegistry.TakeSound | relay/src/peers/registry.rs:62-288 | Every operation keeps ids unique, owners nonempty and all views right |
| PeerRegistry.FoldIsEntitledView | relay/src/peers/registry.rs:62-193 | After any run, folding a connection's inbox gives exactly what its owner may see of the devices it subscribes to |
| PeerRegistry.NotReactivated | relay/src/peers/registry.rs:195-200 | A host connection that is not current never becomes current |
| PeerRegistry.ReplacedForGood | relay/src/peers/registry.rs:95-288 | A replaced or unregistered host connection can update, unregister and route nothing, ever after |
| QrSession.ClampPairTtlMs | pi-extension/src/pairing/qr.ts:8-11 | Always within ten seconds and ten minutes; a finite value in range is only rounded down |
| QrSession.QRSession.ReserveToken | pi-extension/src/pairing/qr.ts:51-80 | Grant, replay, or the reason for refusal |
| QrSession.QRSession.CommitToken | pi-extension/src/pairing/qr.ts:82-90 | Commits exactly the held, reserved and unexpired reservation |
| QrSession.QRSession.ReleaseToken | pi-extension/src/pairing/qr.ts:92-98 | Releases exactly the held reservation |
| QrSession.QRSession.ConsumeToken | pi-extension/src/pairing/qr.ts:107-113 | The older one-step use, excluded by a reservation |
| QrSession.TokenServesOne | pi-extension/src/pairing/qr.ts:44-117 | In every run one token serves one owner and request and is committed at most once |
| QrSession.ReplayReturnsCommit | pi-extension/src/pairing/qr.ts:51-80 | A replay returns the completion of the one commit, to the only owner and request that the token was ever given to |
| QrSession.SpentNeverCommits | pi-extension/src/pairing/qr.ts:82-98 | A released, committed or superseded reservation never commits |
| QrSession.HowReservationsEnd | pi-extension/src/pairing/qr.ts:44-117 | Release, commit, a new token and clearing all end a reservation |
| OwnerStorage.OwnerFile.Token | pi-extension/src/pairing/owner_storage.ts:94-100 | A slot's token, made on first use |
| OwnerStorage.OwnerFile.Add | pi-extension/src/pairing/owner_storage.ts:115-138 | Replaces the first entry of that spelling or appends, with a receipt |
| OwnerStorage.OwnerFile.Remove | pi-extension/src/pairing/owner_storage.ts:265-295 | Removes all entries of that spelling if authorized |
| OwnerStorage.OwnerFile.ConditionalRemove | pi-extension/src/pairing/owner_storage.ts:186-215 | The same while the slot still has the expected token |
| OwnerStorage.OwnerFile.ConditionalRollback | pi-extension/src/pairing/owner_storage.ts:222-263 | Takes a write back while its token is the slot's and its record is there |
| OwnerStorage.ReplaceOthers | pi-extension/src/pairing/owner_storage.ts:123-127 | Replacing an entry within a slot leaves the other slots alone |
| OwnerStorage.TouchedOrNew | pi-extension/src/pairing/owner_storage.ts:94-295 | A mutation leaves a slot alone or gives it a token that no slot ever had |
| OwnerStorage.TokenGuards | pi-extension/src/pairing/owner_storage.ts:94-138 | While a slot's token stays, so do its entries; a token that is gone never returns |
| OwnerStorage.AddedAt | pi-extension/src/pairing/owner_storage.ts:115-138 | Where in its slot a write took place |
| OwnerStorage.TakesEffectIff | pi-extension/src/pairing/owner_storage.ts:222-263 | A rollback takes effect if and only if the slot still has the write's token; otherwise it changes nothing |
| OwnerStorage.RollbackRestores | pi-extension/src/pairing/owner_storage.ts:222-263 | A rollback restores the slot as it was before that write, touches no other, implies no later write, and succeeds once |
| PairingCoordinator.PairingAttempts.HandleRequest | pi-extension/src/runtime/pairing_coordinator.ts:43-90 | A request is refused, joined, replayed or begun |
| PairingCoordinator.PairingAttempts.ResumeAfterAdd | pi-extension/src/runtime/pairing_coordinator.ts:105-109 | After the write: fail, take back or announce |
| PairingCoordinator.PairingAttempts.ResumeAfterAnnounce | pi-extension/src/runtime/pairing_coordinator.ts:114-131 | After the announcement: take back or commit |
| PairingCoordinator.PairingAttempts.FinishAttempt | pi-extension/src/runtime/pairing_coordinator.ts:132-136 | The attempt leaves the record; unless completed, its reservation is released |
| PairingCoordinator.PairingAttempts.AbandonInactive | pi-extension/src/runtime/pairing_coordinator.ts:92-99 | Attempts without relay or binding are dropped and their reservations released |
| PairingCoordinator.GrantedIs | pi-extension/src/pairing/qr.ts:51-80 | A granted reservation is a new object or the one still held for this owner and request |
| PairingCoordinator.GrantReleased | pi-extension/src/runtime/pairing_coordinator.ts:43-90 | A reservation that finds no binding is released at once |
| PairingCoordinator.GrantIsNew | pi-extension/src/runtime/pairing_coordinator.ts:43-90 | Every attempt has a reservation of its own |
| PairingCoordinator.NextSound | pi-extension/src/runtime/pairing_coordinator.ts:43-156 | Every step keeps attempts, reservations and tokens consistent |
| PairingCoordinator.EveryInterleaving | pi-extension/src/runtime/pairing_coordinator.ts:43-156 | One token, one owner and request, at most one commit; commit only after own write and announcement; a finished attempt that wrote did exactly one of commit and rollback |
| PairingCoordinator.CommitsWhenCurrent | pi-extension/src/runtime/pairing_coordinator.ts:114-156 | The committing step finds relay, binding and reservation current |
| PairingCoordinator.ReplaysCompletion | pi-extension/src/runtime/pairing_coordinator.ts:43-90 | A replay answers with the frame of the committed attempt of this owner and request |
| PairingStorage.FileFollowsAttempt | pi-extension/src/runtime/pairing_coordinator.ts:101-150 | Whatever attempts, removals and lookups interleave: an ended attempt without a write never touched the file; a committed write was never taken back; one that was not committed was taken back once, which restored the slot as it was before the write, or did nothing if the slot had been written to since |

## Left out

- JSON text, UTF-8 and the event and frame schemas: an event has a lossless codec given as a parameter, the encoded size of a frame is an arbitrary function, and what the schemas say about sizes, ids and repeated fragments is written out.
- The content of message blocks, images and tool arguments: one string each.
- Randomness and clocks: parameters; ids drawn anew are required to be new.
- `Intl.Segmenter`: segments are code points, the fallback where there is no segmenter.
- HistoryPager.TimelineHistoryPager.HandleSync: requires that the token drawn is not one already issued, because random tokens are taken to be fresh.
- HistoryCoverage.HistoryIsComplete: requires that entry time stamps parse, because an event's time is the clock's otherwise; what happens when groups interleave is `HistoryIsCompleteIff`.
- HistoryLoss.InterruptedSessionLoses: requires that each event takes no more than half a chunk, because the pages are sent in one chunk each; `InterruptedSessionLosesIff` has no such condition.
- TimelineRuntime.SessionsSeparatedIff: requires that no marker carries the id of the legacy group, because ids of groups are drawn at random.
- PairingStorage.FileFollowsAttempt: a write that fails is taken to have left the file as it was; edits by other programs are left out.
- HistoryAssembler.HistoryWindowAssembler.AcceptFrame: discard reasons are not distinguished, because no caller does.
- HistoryAssembler.HistoryWindowAssembler.Discard: `reset`, which reopens a window, is not part of the model, because no run of one window uses it.
- StreamDisplayBuffer.DisplayBuffer.IngestItems: streams are values in a list rather than objects updated in place; an event is compared by value, and the order of the items on the screen is left out.
- SessionState.V2SessionState.BeginRequest: the payload's fingerprint is given; its canonical JSON and hash are left out.
- SessionState.V2SessionState.ForgetOwner: the channels of the same owner are left out.
- MessageService.TimelineV2Service.HandleUserMessage: the correlation handed to the callback is left out, and what the callback does is its answer.
- BrowserTimeline.Runtime.DropTransient: partial views and queued acknowledgements are left out; nothing is claimed about either.
- BrowserTimeline.Runtime.OnStatus: the frames sent and the rendered item list are left out.
- TimelineStore.Store.ReplaceRecentWindow: the order of events in a stored window is left out.
- PairingCoordinator.PairingAttempts.HandleRequest: the frames sent to the browser are left out, except for the completion that a replay returns; sending never fails.
- OwnerStorage.OwnerFile.ConditionalRollback: edits of the file by other programs are left out; mutations run one after the other.
- PeerRegistry.Peers.Announce: each operation with its notifications is atomic, while the relay sends them after releasing its lock.
- RelayLifecycle.Lifecycle.Reschedule: the length of the delay is left out, only the number of attempts is kept.
- WebSocket, IndexedDB, file system and process plumbing; the user interface; the supervisor, cron and installation; actions, model lists, session bridge and queued-message clearing: they keep no protocol state that the results above depend on.
- The lenient base64 decoder of the browser, which accepts more than the two strict ones.
- Ed25519 and SHA-256 themselves.
