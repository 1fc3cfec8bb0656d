/**
 Where paging loses a record: messages without a marker share one group, so a marker between two of them starts a group
 inside another. Such sessions exist - the extension was off when some of their messages were stored - and a browser
 that does not get all of such a session with its first page never gets the message behind the marker.
 */
module HistoryLoss {
  import opened Bytes
  import opened Timeline
  import opened Recovery
  import opened HistoryRecords
  import opened HistorySelection
  import opened HistoryAssembler
  import opened HistoryDelivery
  import opened HistoryWindow
  import opened HistoryPager
  import opened HistoryCoverage

  // ----- The session -----

  /** A message without a marker, a marker with its message, and another message without a marker. */
  ghost predicate Interrupted(s: Session, branch: Branch) {
    && |branch| == 4 && HasRole(branch[0]) && HasRole(branch[2]) && HasRole(branch[3])
    && IsMarker(branch[1]) && branch[1].content.data.Parsed?
    && Some(RoleForMarker(branch[1].content.data.marker)) == branch[2].content.message.role
    && branch[1].content.data.marker.groupId != LegacyId(s.scope.session)
    && UniqueKeys(branch) && TimesParse(branch)
  }

  lemma {:induction false} InterruptedClaims(s: Session, branch: Branch)
    requires Interrupted(s, branch)
    ensures Claimed(branch, 1) == Some(2)
    ensures ClaimedBefore(branch, 2, 2) && !ClaimedBefore(branch, 0, 0) && !ClaimedBefore(branch, 3, 3)
  {
    hide UniqueKeys, TimesParse;
    assert Stop(branch, 2) == 2;
    assert Claimed(branch, 0).None? && Claimed(branch, 2).None?;
  }

  lemma {:induction false} InterruptedRecords(s: Session, branch: Branch)
    requires Interrupted(s, branch)
    ensures RecordAt(s, branch, 0) == Some(LegacyEvent(s, branch[0])) && RecordAt(s, branch, 3) == Some(LegacyEvent(s, branch[3]))
    ensures RecordAt(s, branch, 1) == MarkerEvent(s, branch, 1) && MarkerEvent(s, branch, 1).Some?
    ensures RecordAt(s, branch, 2).None?
  {
    hide UniqueKeys, TimesParse, Claimed, ClaimedBefore;
    InterruptedClaims(s, branch);
  }

  function RecordOf(codec: Codec, event: TimelineEvent, position: nat): EventRecord {
    EventRecord(event, position, codec.Size(event))
  }

  /** The three events of such a session: the first and the last are of the same group, the one between them is not. */
  ghost predicate Threefold(codec: Codec, s: Session, branch: Branch, a: EventRecord, b: EventRecord, c: EventRecord) {
    && |branch| == 4 && HasRole(branch[0]) && HasRole(branch[3])
    && a == RecordOf(codec, LegacyEvent(s, branch[0]), 0)
    && MarkerEvent(s, branch, 1) == Some(b.event) && b == RecordOf(codec, b.event, 1)
    && c == RecordOf(codec, LegacyEvent(s, branch[3]), 3)
    && Records(codec, s, branch, 1) == [a] && Records(codec, s, branch, 4) == [a, b, c]
    && !IsSystem(a) && !IsSystem(b) && !IsSystem(c) && a.event.group == c.event.group != b.event.group
  }

  lemma {:induction false} ThreeRecords(codec: Codec, s: Session, branch: Branch) returns (a: EventRecord, b: EventRecord, c: EventRecord)
    requires Interrupted(s, branch)
    ensures Threefold(codec, s, branch, a, b, c)
  {
    hide RecordAt, UniqueKeys, TimesParse, MarkerEvent;
    InterruptedRecords(s, branch);
    a, c := RecordOf(codec, LegacyEvent(s, branch[0]), 0), RecordOf(codec, LegacyEvent(s, branch[3]), 3);
    b := RecordOf(codec, MarkerEvent(s, branch, 1).value, 1);
    GroupsDiffer(s, branch);
    assert Records(codec, s, branch, 0) == [];
    assert Records(codec, s, branch, 1) == [a];
    assert Records(codec, s, branch, 2) == [a, b];
    assert Records(codec, s, branch, 3) == [a, b];
    assert Records(codec, s, branch, 4) == [a, b, c];
  }

  lemma {:induction false} GroupsDiffer(s: Session, branch: Branch)
    requires Interrupted(s, branch) && MarkerEvent(s, branch, 1).Some?
    ensures !LegacyEvent(s, branch[0]).IsSystem() && !LegacyEvent(s, branch[3]).IsSystem() && !MarkerEvent(s, branch, 1).value.IsSystem()
    ensures LegacyEvent(s, branch[0]).group == LegacyEvent(s, branch[3]).group != MarkerEvent(s, branch, 1).value.group
  {
    hide UniqueKeys, TimesParse, Claimed;
  }

  // ----- The replies -----

  /** The event and the tail of the reply are far from filling a chunk. */
  ghost predicate Roomy(env: Envelope, e: TimelineEvent) {
    forall payload, final | payload in {NoPayload, Payload([e], [])} ::
      env.chunkBytes(MakeChunk(env, payload, final, 0)) <= MAX_HISTORY_CHUNK_BYTES / 2
  }

  lemma {:induction false} OneEventPacked(env: Envelope, e: TimelineEvent)
    requires Roomy(env, e)
    ensures PackAll(env, ItemsOf(env, [e])) == Some([Payload([e], [])])
  {
    var none: seq<TimelineEvent> := [];
    var nothing: seq<Item> := [];
    assert [e][..0] == none && [Whole(e)][..0] == nothing;
    assert FitsAlone(env, e);
    assert ItemsOf(env, none) == [] && ItemsOf(env, [e]) == [Whole(e)];
    assert AppendItem(NoPayload, Whole(e)) == Payload([e], []);
    assert Extends(env, NoPayload, Whole(e));
    assert Pack(env, nothing) == Some(Packing([], NoPayload));
    assert Pack(env, [Whole(e)]) == PackItem(env, Packing([], NoPayload), Whole(e));
    var noPayloads: seq<Payload> := [];
    assert noPayloads + [Payload([e], [])] == [Payload([e], [])];
  }

  lemma {:induction false} OneEventSent(env: Envelope, e: TimelineEvent)
    requires Roomy(env, e)
    ensures FragmentWindow(env, [e]).Some? && |FragmentWindow(env, [e]).value| == 1
  {
    hide PackAll, ItemsOf;
    OneEventPacked(env, e);
    var frames := FramesOf(env, [Payload([e], [])]);
    assert |Pieces(frames[0])| == 0;
    assert Acceptable(env.chunkBytes, frames[0]);
  }

  lemma {:induction false} OneEventServed(codec: Codec, chunkBytes: Sizer, w: World, request: Request, c: Cursor, token: string,
                                          records: seq<EventRecord>, r: EventRecord, next: nat)
    requires SnapshotInvalidReason(w, c).None? && RecordsFor(codec, w, c) == Some(records)
    requires Select(records, c.position, request.limit) == Selected([r], next)
    requires Roomy(EnvelopeOf(codec, chunkBytes, c, request, if HasOlder(records, next) then Some(token) else None), r.event)
    ensures var (reply, older) := Page(codec, chunkBytes, w, request, c, token);
            && reply.Frames? && |reply.frames| == 1
            && older == if HasOlder(records, next) then Some(OlderCursor(c, next)) else None
  {
    hide SnapshotInvalidReason, RecordsFor, Select, FragmentWindow, Roomy, HasOlder;
    var env := EnvelopeOf(codec, chunkBytes, c, request, if HasOlder(records, next) then Some(token) else None);
    assert Events([r]) == [r.event];
    OneEventSent(env, r.event);
  }

  lemma {:induction false} SnapshotValid(codec: Codec, w: World, c: Cursor)
    requires |w.branch| > 0 && UniqueKeys(w.branch) && HasSnapshotHead(w) && Recover(w.session, w.branch).Some?
    requires c.scope == w.session.scope && c.snapshotHead == HeadOf(w) && c.entryIds == Ids(w.branch) && c.position <= |w.branch|
    ensures SnapshotInvalidReason(w, c).None?
    ensures RecordsFor(codec, w, c) == Some(Records(codec, w.session, w.branch, c.position))
  {
    hide UniqueKeys, Recover, Records, RecoverRecords;
    FindsSnapshot(w.branch, w.branch, c.snapshotHead);
    RecordsAreRead(codec, w.session, w.branch, w.branch, c.position);
  }

  // ----- Two pages -----

  const ONE := Next(NoChunks, 0)

  function AskFor(before: Option<string>): Request { Request("history", before, Some(1.0)) }

  /** The browser asks for one group, and then for one more. */
  function TwoVisits(w: World): Visits {
    MoreVisits(Visit(w, AskFor(None), "older", ONE), LastVisit(Visit(w, AskFor(Some("older")), "unused", ONE)))
  }

  lemma {:induction false} OneDelivered()
    ensures Once(ONE, 1) && Delivered(ONE) == {0} && |Delivered(ONE)| == 1
  {
    assert Delivered(NoChunks) == {};
  }

  /** The event is far from filling a chunk of either reply. */
  ghost predicate Small(codec: Codec, chunkBytes: Sizer, w: World, e: TimelineEvent) {
    && Roomy(EnvelopeOf(codec, chunkBytes, FreshCursor(w), AskFor(None), Some("older")), e)
    && Roomy(EnvelopeOf(codec, chunkBytes, OlderCursor(FreshCursor(w), 1), AskFor(Some("older")), None), e)
    && codec.Size(e) <= MAX_WINDOW_BYTES
  }

  lemma {:induction false} TwoPages(codec: Codec, chunkBytes: Sizer, w: World, a: EventRecord, b: EventRecord, c: EventRecord)
    requires Interrupted(w.session, w.branch) && HasSnapshotHead(w) && Recover(w.session, w.branch).Some?
    requires Threefold(codec, w.session, w.branch, a, b, c)
    requires Small(codec, chunkBytes, w, a.event) && Small(codec, chunkBytes, w, b.event)
    ensures var (reply, older) := Page(codec, chunkBytes, w, AskFor(None), FreshCursor(w), "older");
            reply.Frames? && |reply.frames| == 1 && older == Some(OlderCursor(FreshCursor(w), 1))
    ensures var (reply, older) := Page(codec, chunkBytes, w, AskFor(Some("older")), OlderCursor(FreshCursor(w), 1), "unused");
            reply.Frames? && |reply.frames| == 1 && older == None
  {
    hide UniqueKeys, Select, Records, HasSnapshotHead, Recover, SnapshotInvalidReason, RecordsFor, Page, HasOlder,
         Roomy, Between;
    var first := FreshCursor(w);
    assert Interleave(a, b, c);
    InterleavingPages(a, b, c, 4, Some(1.0));
    InterleavingParts(a, b, c);
    assert UniqueKeys(w.branch) && |w.branch| == 4;
    SnapshotValid(codec, w, first);
    SnapshotValid(codec, w, OlderCursor(first, 1));
    OneEventServed(codec, chunkBytes, w, AskFor(None), first, "older", [a, b, c], b, 1);
    OneEventServed(codec, chunkBytes, w, AskFor(Some("older")), OlderCursor(first, 1), "unused", [a], a, 0);
  }

  lemma {:induction false} TwoVisitsFollowed(codec: Codec, chunkBytes: Sizer, w: World, a: EventRecord, b: EventRecord, c: EventRecord)
    requires Interrupted(w.session, w.branch) && HasSnapshotHead(w) && Recover(w.session, w.branch).Some?
    requires Threefold(codec, w.session, w.branch, a, b, c)
    requires Small(codec, chunkBytes, w, a.event) && Small(codec, chunkBytes, w, b.event)
    requires codec.Lossless() && BoundsIds(w.session)
    ensures Followed(codec, chunkBytes, TwoVisits(w))
  {
    hide Page, UniqueKeys, TimesParse, HasSnapshotHead, Recover, Threefold, Small, BoundsIds, FreshCursor, Answered,
         InFull;
    TwoPages(codec, chunkBytes, w, a, b, c);
    var last := TwoVisits(w).older;
    var older := OlderCursor(FreshCursor(w), 1);
    assert UniqueKeys(w.branch) && TimesParse(w.branch);
    LastFollows(codec, chunkBytes, w, older, last.visit);
    MoreFollow(codec, chunkBytes, w, FreshCursor(w), TwoVisits(w), older);
  }

  lemma {:induction false} LastFollows(codec: Codec, chunkBytes: Sizer, w: World, c: Cursor, v: Visit)
    requires UniqueKeys(w.branch) && v.world == w && v.order == ONE
    requires var (reply, older) := Page(codec, chunkBytes, w, v.request, c, v.token); reply.Frames? && |reply.frames| == 1 && older == None
    ensures Answered(codec, chunkBytes, w.session, w.branch, c, LastVisit(v)) && InFull(codec, chunkBytes, c, LastVisit(v))
  {
    hide Page, UniqueKeys;
    OneDelivered();
  }

  lemma {:induction false} MoreFollow(codec: Codec, chunkBytes: Sizer, w: World, c: Cursor, visits: Visits, o: Cursor)
    requires UniqueKeys(w.branch) && visits.MoreVisits? && visits.visit.world == w && visits.visit.order == ONE
    requires var (reply, older) := Page(codec, chunkBytes, w, visits.visit.request, c, visits.visit.token);
             reply.Frames? && |reply.frames| == 1 && older == Some(o)
    requires Answered(codec, chunkBytes, w.session, w.branch, o, visits.older) && InFull(codec, chunkBytes, o, visits.older)
    ensures Answered(codec, chunkBytes, w.session, w.branch, c, visits) && InFull(codec, chunkBytes, c, visits)
  {
    hide Page, UniqueKeys;
    OneDelivered();
  }

  lemma {:induction false} NotSeparated(a: EventRecord, b: EventRecord, c: EventRecord)
    requires Interleave(a, b, c)
    ensures !Separated([a, b, c])
  {
    assert a in [a, b, c] && b in [a, b, c] && c in [a, b, c];
  }

  lemma {:induction false} LostEvent(codec: Codec, s: Session, branch: Branch, a: EventRecord, b: EventRecord, c: EventRecord, walk: Walk)
    requires UniqueKeys(branch) && |branch| == 4 && Records(codec, s, branch, 4) == [a, b, c]
    requires a.position < b.position < c.position < 4 && Follows([a, b, c], 4, walk)
    ensures c.event in Events(Everything(walk)) <==> c in Everything(walk)
  {
    hide UniqueKeys, Records, Everything, Follows;
    assert a in [a, b, c] && b in [a, b, c] && c in [a, b, c];
    DifferentEvents(codec, s, branch, a, c, 4);
    DifferentEvents(codec, s, branch, b, c, 4);
    InEvents(Everything(walk), c.event);
    forall r | r in Everything(walk)
      ensures r in [a, b, c]
    {
      WalkWithin([a, b, c], 4, walk, r);
    }
  }

  /**
   However a browser pages through such a session, it misses the last message, which recovery finds, unless it asked for
   more than one group at first and all three events fit one page.
   */
  lemma {:induction false} InterruptedSessionLosesIff(codec: Codec, chunkBytes: Sizer, visits: Visits)
    requires Followed(codec, chunkBytes, visits) && Interrupted(visits.visit.world.session, visits.visit.world.branch)
    ensures var w := visits.visit.world;
            var last := LegacyEvent(w.session, w.branch[3]);
            && !Separated(Snapshot(codec, w)) && Recorded(w.session, w.branch, last)
            && (last in Screen(codec, chunkBytes, FreshCursor(w), visits)
                <==> NormalizeLimit(visits.visit.request.limit) > 1 && BytesOf(Snapshot(codec, w)) <= MAX_WINDOW_BYTES)
  {
    hide Followed, Screen, Records, RecordAt, Interrupted, Separated, FreshCursor, LegacyEvent, MarkerEvent, Everything, Follows,
         UniqueKeys, NormalizeLimit, BytesOf;
    var w := visits.visit.world;
    var a, b, c := ThreeRecords(codec, w.session, w.branch);
    InterruptedRecords(w.session, w.branch);
    NotSeparated(a, b, c);
    FollowedWalk(codec, chunkBytes, visits);
    InterleavedWalkIff(a, b, c, 4, WalkMade(codec, visits));
    LostEvent(codec, w.session, w.branch, a, b, c, WalkMade(codec, visits));
  }

  /** A browser that asks for one group twice is served every such session to the end, and loses the message. */
  lemma {:induction false} InterruptedSessionLoses(codec: Codec, chunkBytes: Sizer, w: World)
    requires codec.Lossless() && BoundsIds(w.session)
    requires Interrupted(w.session, w.branch) && HasSnapshotHead(w) && Recover(w.session, w.branch).Some?
    requires forall e :: Recorded(w.session, w.branch, e) ==> Small(codec, chunkBytes, w, e)
    ensures Followed(codec, chunkBytes, TwoVisits(w))
    ensures LegacyEvent(w.session, w.branch[3]) !in Screen(codec, chunkBytes, FreshCursor(w), TwoVisits(w))
  {
    hide Followed, Screen, Records, RecordAt, Interrupted, Separated, BoundsIds, HasSnapshotHead, Recover, FreshCursor,
         LegacyEvent, MarkerEvent, Roomy, BytesOf;
    var a, b, c := ThreeRecords(codec, w.session, w.branch);
    InterruptedRecords(w.session, w.branch);
    TwoVisitsFollowed(codec, chunkBytes, w, a, b, c);
    InterruptedSessionLosesIff(codec, chunkBytes, TwoVisits(w));
  }

  // ----- One such session -----

  /** The schema's bound on ids, and nothing else. */
  function ShortIds(): Session {
    Session(Scope("s", "1"), 0, (e: TimelineEvent) => 1 <= |e.id| <= MAX_ID_CHARS)
  }

  function Stored(id: string, role: Role, at: nat): Entry {
    Entry(id, Some(at), MessageContent(Message(Some(role), Some(at), "text", false, false, None, None, "")))
  }

  function Resumed(): Branch {
    [Stored("1", UserRole, 1),
     Entry("22", Some(2), MarkerContent(Parsed(BuildMarker(AssistantRole, "333", "group", UNKNOWN)))),
     Stored("4444", AssistantRole, 2),
     Stored("55555", UserRole, 3)]
  }

  lemma {:induction false} ResumedKeys()
    ensures UniqueKeys(Resumed())
    ensures forall p, key :: 0 <= p < 4 && key in Keys(Resumed()[p]) ==> 1 <= |key| <= MAX_ID_CHARS
  {
    hide Keys, Resumed, Lengths;
    ResumedHasFour();
    forall p, q | 0 <= p < q < 4
      ensures Keys(Resumed()[p]) !! Keys(Resumed()[q])
    {
      KeysApart(p, q);
    }
    forall p, key | 0 <= p < 4 && key in Keys(Resumed()[p])
      ensures 1 <= |key| <= MAX_ID_CHARS
    {
      KeyLengths(p, key);
    }
  }

  lemma {:induction false} KeysApart(p: int, q: int)
    requires 0 <= p < q < |Resumed()|
    ensures Keys(Resumed()[p]) !! Keys(Resumed()[q])
  {
    hide Keys, Resumed;
    ResumedHasFour();
    assert Lengths(p) !! Lengths(q);
    forall key | key in Keys(Resumed()[p])
      ensures key !in Keys(Resumed()[q])
    {
      KeyLengths(p, key);
      if key in Keys(Resumed()[q]) {
        KeyLengths(q, key);
      }
    }
  }

  lemma {:induction false} ResumedHasFour()
    ensures |Resumed()| == 4
  {
  }

  /** All names in the branch have different lengths. */
  function Lengths(p: int): set<nat> {
    if p == 0 then {1, 8} else if p == 1 then {2, 3} else if p == 2 then {4, 11} else {5, 12}
  }

  lemma {:induction false} KeyLengths(p: int, key: string)
    requires 0 <= p < |Resumed()| && key in Keys(Resumed()[p])
    ensures |key| in Lengths(p) && 1 <= |key| <= MAX_ID_CHARS
  {
  }

  lemma {:induction false} ShortKeysRecover(s: Session, branch: Branch)
    requires UniqueKeys(branch) && forall p, key :: 0 <= p < |branch| && key in Keys(branch[p]) ==> 1 <= |key| <= MAX_ID_CHARS
    requires forall e: TimelineEvent :: 1 <= |e.id| <= MAX_ID_CHARS ==> s.valid(e)
    ensures Recover(s, branch).Some?
  {
    hide UniqueKeys, FreshIds, Collect, Keys, AnnouncedAt, LegacyAt, SystemAt, RecordAt;
    var announced, legacy := AnnouncedAt(s, branch), LegacyAt(s, branch, Matched(branch, |branch|));
    PassesFresh(s, branch);
    CollectIs(announced, |branch|);
    CollectIs(legacy, |branch|);
    forall e | e in Collect(announced, |branch|) || e in Collect(legacy, |branch|)
      ensures s.valid(e)
    {
      if e in Collect(announced, |branch|) {
        var p: nat :| p < |branch| && announced(p) == Some(e);
        PickedKeys(s, branch, p);
      } else {
        var p: nat :| p < |branch| && legacy(p) == Some(e);
        PickedKeys(s, branch, p);
      }
    }
  }

  /** A session in which the extension was on for one message meets all these conditions. */
  lemma {:induction false} ResumedIsInterrupted()
    ensures var w := World(ShortIds(), Resumed(), Some("55555"));
            Interrupted(w.session, w.branch) && BoundsIds(w.session) && HasSnapshotHead(w) && Recover(w.session, w.branch).Some?
  {
    hide Recover, UniqueKeys, Keys;
    ResumedKeys();
    ResumedHasFour();
    ShortKeysRecover(ShortIds(), Resumed());
    assert |LegacyId("s")| == 8;
  }
}
