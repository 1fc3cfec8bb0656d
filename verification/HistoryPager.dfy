/**
 The pager answers history requests from a frozen snapshot of the session branch. A page hands out a one-use cursor
 for what is older; the branch may grow between pages without changing any later page.
 */
module HistoryPager {
  import opened Bytes
  import opened Timeline
  import opened Recovery
  import opened HistoryRecords
  import opened HistorySelection
  import opened HistoryAssembler
  import opened HistoryWindow

  datatype Cursor = Cursor(scope: Scope, snapshotHead: string, entryIds: seq<string>, position: nat, used: bool, busy: bool)

  /** What the pager reads from outside when it is called: the session, the current branch and its leaf. */
  datatype World = World(session: Session, branch: Branch, leaf: Option<string>)

  datatype Request = Request(requestId: string, before: Option<string>, limit: Limit)

  datatype Failure = CursorBusy | NoSnapshotHead | PageTooLarge | InternalError

  datatype ResetReason = SessionReplaced | GenerationChanged | BranchChanged | InvalidCursor

  datatype Reply = Frames(frames: seq<Chunk>) | Failed(failure: Failure) | Reset(reason: ResetReason)

  function Ids(branch: Branch): (ids: seq<string>)
    ensures |ids| == |branch|
  {
    seq(|branch|, i requires 0 <= i < |branch| => branch[i].id)
  }

  function IndexOfEntry(branch: Branch, id: string): (i: Option<nat>)
    ensures i.Some? ==> i.value < |branch| && branch[i.value].id == id && id !in Ids(branch[..i.value])
    ensures i.None? ==> id !in Ids(branch)
  {
    if |branch| == 0 then None
    else
      match IndexOfEntry(branch[..|branch| - 1], id)
      case Some(i) =>
        assert branch[..|branch| - 1][..i] == branch[..i];
        Some(i)
      case None =>
        assert forall k | 0 <= k < |branch| - 1 :: Ids(branch)[k] == Ids(branch[..|branch| - 1])[k];
        if branch[|branch| - 1].id == id then Some(|branch| - 1) else None
  }

  /** The path from the root to the entry `head`: nothing if there is no such entry. */
  function GetBranch(branch: Branch, head: string): Branch {
    match IndexOfEntry(branch, head)
    case None => []
    case Some(i) => branch[..i + 1]
  }

  function IsEmptySnapshot(c: Cursor): bool {
    c.entryIds == [] && c.snapshotHead == c.scope.session
  }

  function SnapshotInvalidReason(w: World, c: Cursor): Option<ResetReason> {
    if w.session.scope.session != c.scope.session then Some(SessionReplaced)
    else if w.session.scope.generation != c.scope.generation then Some(GenerationChanged)
    else if IndexOfEntry(w.branch, c.snapshotHead).None? && !(IsEmptySnapshot(c) && w.branch == []) then Some(BranchChanged)
    else if !(c.entryIds <= Ids(w.branch)) then Some(BranchChanged)
    else if Ids(GetBranch(w.branch, c.snapshotHead)) != c.entryIds then Some(BranchChanged)
    else None
  }

  /** `None` where recovery throws. */
  function RecordsFor(codec: Codec, w: World, c: Cursor): Option<seq<EventRecord>> {
    if IsEmptySnapshot(c) then Some([])
    else RecoverRecords(codec, w.session, GetBranch(w.branch, c.snapshotHead), w.branch, c.position)
  }

  function EnvelopeOf(codec: Codec, chunkBytes: Sizer, c: Cursor, request: Request, nextBefore: Option<string>): Envelope {
    Envelope(codec, chunkBytes, Header(request.requestId, c.scope, c.snapshotHead), nextBefore)
  }

  function Events(records: seq<EventRecord>): (events: seq<TimelineEvent>)
    ensures |events| == |records|
  {
    seq(|records|, i requires 0 <= i < |records| => records[i].event)
  }

  function OlderCursor(c: Cursor, position: nat): Cursor {
    c.(position := position, used := false, busy := false)
  }

  function ServeWindow(codec: Codec, chunkBytes: Sizer, request: Request, c: Cursor, token: string, records: seq<EventRecord>,
                       window: seq<EventRecord>, next: nat): (Reply, Option<Cursor>)
  {
    var older := HasOlder(records, next);
    match FragmentWindow(EnvelopeOf(codec, chunkBytes, c, request, if older then Some(token) else None), Events(window))
    case None => (Failed(PageTooLarge), None)
    case Some(frames) => (Frames(frames), if older then Some(OlderCursor(c, next)) else None)
  }

  /** The reply to a request for the page at `c`, and the cursor issued under `token`, if any is. */
  function Page(codec: Codec, chunkBytes: Sizer, w: World, request: Request, c: Cursor, token: string): (Reply, Option<Cursor>) {
    match SnapshotInvalidReason(w, c)
    case Some(reason) => (Reset(reason), None)
    case None =>
      match RecordsFor(codec, w, c)
      case None => (Failed(InternalError), None)
      case Some(records) =>
        match Select(records, c.position, request.limit)
        case TooLarge => (Failed(PageTooLarge), None)
        case Selected(window, next) => ServeWindow(codec, chunkBytes, request, c, token, records, window, next)
  }

  // ----- The pager's state -----

  datatype PagerState = PagerState(cursors: map<string, Cursor>, initialBusy: bool)

  function HeadOf(w: World): string {
    if w.leaf.Some? then w.leaf.value else w.session.scope.session
  }

  function FreshCursor(w: World): Cursor {
    Cursor(w.session.scope, HeadOf(w), Ids(w.branch), |w.branch|, true, true)
  }

  predicate HasSnapshotHead(w: World) {
    |w.branch| > 0 ==> w.branch[|w.branch| - 1].id == HeadOf(w)
  }

  function Issue(st: PagerState, token: string, c: Option<Cursor>): PagerState {
    if c.Some? then st.(cursors := st.cursors[token := c.value]) else st
  }

  /** One request, with the random token the pager draws for it. */
  function Sync(codec: Codec, chunkBytes: Sizer, st: PagerState, w: World, request: Request, token: string): (PagerState, Reply) {
    if request.before.None? then
      if st.initialBusy then (st, Failed(CursorBusy))
      else if !HasSnapshotHead(w) then (st, Failed(NoSnapshotHead))
      else
        var (reply, older) := Page(codec, chunkBytes, w, request, FreshCursor(w), token);
        (Issue(st, token, older), reply)
    else if request.before.value !in st.cursors then (st, Reset(InvalidCursor))
    else
      var t := request.before.value;
      var c := st.cursors[t];
      if c.busy then (st, Failed(CursorBusy))
      else if c.used then (st, Reset(InvalidCursor))
      else
        var (reply, older) := Page(codec, chunkBytes, w, request, c.(busy := true, used := true), token);
        var issued := Issue(st, token, older);
        (issued.(cursors := issued.cursors[t := c.(used := true)]), reply)
  }

  class TimelineHistoryPager {
    const codec: Codec
    const chunkBytes: Sizer
    var cursors: map<string, Cursor>
    var initialBusy: bool

    function State(): PagerState
      reads this
    {
      PagerState(cursors, initialBusy)
    }

    constructor (codec: Codec, chunkBytes: Sizer)
      ensures State() == PagerState(map[], false) && this.codec == codec && this.chunkBytes == chunkBytes
    {
      this.codec, this.chunkBytes, cursors, initialBusy := codec, chunkBytes, map[], false;
    }

    method HandleSync(w: World, request: Request, token: string) returns (reply: Reply)
      requires token !in cursors
      modifies this
      ensures (State(), reply) == Sync(codec, chunkBytes, old(State()), w, request, token)
    {
      hide Page;
      if request.before.Some? {
        reply := SyncOlder(w, request, request.before.value, token);
      } else {
        if initialBusy {
          return Failed(CursorBusy);
        }
        initialBusy := true;
        reply := SyncInitial(w, request, token);
        initialBusy := false;
      }
    }

    method SyncOlder(w: World, request: Request, t: string, token: string) returns (reply: Reply)
      requires token !in cursors && request.before == Some(t)
      modifies `cursors
      ensures (State(), reply) == Sync(codec, chunkBytes, old(State()), w, request, token)
    {
      hide Page;
      if t !in cursors {
        return Reset(InvalidCursor);
      }
      var c := cursors[t];
      if c.busy {
        return Failed(CursorBusy);
      }
      if c.used {
        return Reset(InvalidCursor);
      }
      cursors := cursors[t := c.(busy := true, used := true)];
      reply := ServePage(w, request, cursors[t], token);
      cursors := cursors[t := cursors[t].(busy := false)];
      ghost var older := Page(codec, chunkBytes, w, request, c.(busy := true, used := true), token).1;
      assert cursors == Issue(old(State()), token, older).cursors[t := c.(used := true)];
    }

    method SyncInitial(w: World, request: Request, token: string) returns (reply: Reply)
      requires token !in cursors
      modifies `cursors
      ensures var (r, older) := Page(codec, chunkBytes, w, request, FreshCursor(w), token);
              if HasSnapshotHead(w) then reply == r && cursors == Issue(old(State()), token, older).cursors
              else reply == Failed(NoSnapshotHead) && cursors == old(cursors)
    {
      if !HasSnapshotHead(w) {
        return Failed(NoSnapshotHead);
      }
      reply := ServePage(w, request, FreshCursor(w), token);
    }

    method ServePage(w: World, request: Request, c: Cursor, token: string) returns (reply: Reply)
      requires token !in cursors
      modifies `cursors
      ensures var (r, older) := Page(codec, chunkBytes, w, request, c, token);
              reply == r && cursors == Issue(old(State()), token, older).cursors
    {
      hide FragmentWindow, RecoverRecords, Select, SnapshotInvalidReason;
      var reason := SnapshotInvalidReason(w, c);
      if reason.Some? {
        return Reset(reason.value);
      }
      var records: Option<seq<EventRecord>> := Some([]);
      if !IsEmptySnapshot(c) {
        records := BuildRecords(codec, w.session, GetBranch(w.branch, c.snapshotHead), w.branch, c.position);
      }
      if records.None? {
        return Failed(InternalError);
      }
      if !IsEmptySnapshot(c) {
        RecoveredBelow(codec, w.session, GetBranch(w.branch, c.snapshotHead), w.branch, c.position);
      }
      var window := SelectWindow(records.value, c.position, request.limit);
      if window.TooLarge? {
        return Failed(PageTooLarge);
      }
      var older := HasOlder(records.value, window.next);
      if older {
        cursors := cursors[token := OlderCursor(c, window.next)];
      }
      var frames := BuildFrames(EnvelopeOf(codec, chunkBytes, c, request, if older then Some(token) else None), Events(window.records));
      if frames.None? {
        if older {
          cursors := cursors - {token};
        }
        return Failed(PageTooLarge);
      }
      return Frames(frames.value);
    }
  }
}
