/**
 How fast the display catches up. A stream shows a prefix of its text that only grows, and without new text every stream
 has caught up after a number of ticks that depends on the largest backlog alone.
 */
module StreamPacing {
  import opened Bytes
  import opened Timeline
  import opened PartialDeltas
  import opened StreamDisplayBuffer

  datatype Action = DoIngest(items: seq<Item>) | DoReset(items: seq<Item>) | DoAdvance

  function Step(b: Buffer, action: Action): Buffer {
    match action
    case DoIngest(items) => Ingest(b, items)
    case DoReset(items) => Reset(items)
    case DoAdvance => Advance(b)
  }

  function Run(actions: seq<Action>): Buffer {
    if |actions| == 0 then Empty else Step(Run(actions[..|actions| - 1]), actions[|actions| - 1])
  }

  // ----- One stream -----

  /** The text is segmented as from scratch, and the screen shows no more than the graphemes released. */
  ghost predicate Paced(s: Stream) {
    && s.target == s.partial.text
    && s.graphemes == CodePoints(s.target)
    && s.visible <= |s.graphemes|
    && s.shown <= Join(s.graphemes[..s.visible])
  }

  lemma {:induction false} JoinPrefix(pieces: seq<Text>, i: nat, j: nat)
    requires i <= j <= |pieces|
    ensures Join(pieces[..i]) <= Join(pieces[..j])
  {
    if i > 0 {
      JoinPrefix(pieces[1..], i - 1, j - 1);
      assert pieces[..i] == [pieces[0]] + pieces[1..][..i - 1] && pieces[..j] == [pieces[0]] + pieces[1..][..j - 1];
    }
  }

  lemma {:induction false} AllJoined(s: Stream)
    requires Paced(s)
    ensures s.graphemes[..|s.graphemes|] == s.graphemes && Join(s.graphemes) == s.target
    ensures s.shown <= s.target
  {
    JoinPoints(s.target);
    JoinPrefix(s.graphemes, s.visible, |s.graphemes|);
    assert s.graphemes[..|s.graphemes|] == s.graphemes;
  }

  lemma {:induction false} WholePaced(p: PartialView)
    ensures CodePoints(p.text)[..|CodePoints(p.text)|] == CodePoints(p.text) && Join(CodePoints(p.text)) == p.text
  {
    JoinPoints(p.text);
  }

  lemma {:induction false} NewPaced(p: PartialView)
    ensures Paced(NewStream(p))
  {
    hide CodePoints, Join;
    WholePaced(p);
  }

  lemma {:induction false} UpdatePaced(s: Stream, p: PartialView)
    requires Paced(s)
    ensures Paced(UpdateStream(s, p).0)
    ensures UpdateStream(s, p).0.partial == p
  {
    hide CodePoints, Join, AppendGraphemes;
    WholePaced(p);
    AllJoined(s);
    if s.target != p.text && !Immediate(p) && s.target <= p.text {
      var suffix := p.text[|s.target|..];
      assert p.text == s.target + suffix;
      AppendIsSegmentation(s.target, suffix);
      PointsGrow(s.target, suffix, s.visible);
    }
  }

  /** While a text only gets longer, so does what the screen shows of it. */
  lemma {:induction false} ShownGrowsWithText(s: Stream, p: PartialView)
    requires Paced(s) && s.target <= p.text
    ensures s.shown <= UpdateStream(s, p).0.shown <= p.text
  {
    hide CodePoints, Join, AppendGraphemes;
    AllJoined(s);
    UpdatePaced(s, p);
    AllJoined(UpdateStream(s, p).0);
  }

  lemma {:induction false} TickPaced(s: Stream)
    requires Paced(s)
    ensures Paced(Tick(s).0)
    ensures Tick(s).0.(visible := s.visible, shown := s.shown, ticks := s.ticks) == s
    ensures s.visible <= Tick(s).0.visible && s.shown <= Tick(s).0.shown <= s.target
  {
    hide CodePoints, Join;
    JoinPrefix(s.graphemes, s.visible, Tick(s).0.visible);
    AllJoined(s);
    AllJoined(Tick(s).0);
  }

  // ----- Ticks until a stream has caught up -----

  /** With `left` ticks of the window to go, a backlog that the window can hold goes at an even pace; a larger one goes
      at the highest pace. */
  function TicksFor(backlog: nat, left: nat): nat {
    if backlog <= MAX_RELEASE_PER_TICK * left then left else Ceiling(backlog, MAX_RELEASE_PER_TICK)
  }

  function TicksNeeded(s: Stream): nat {
    if Backlog(s) > 0 then TicksFor(Backlog(s), TicksLeft(s.ticks))
    else if s.shown != s.target then 1
    else 0
  }

  lemma {:induction false} CeilingIs(a: nat, b: nat)
    requires b > 0
    ensures b * Ceiling(a, b) >= a
    ensures a > 0 ==> b * (Ceiling(a, b) - 1) < a && Ceiling(a, b) > 0
  {
    assert a + b - 1 == b * ((a + b - 1) / b) + (a + b - 1) % b;
  }

  lemma {:induction false} EvenPace(backlog: nat, left: nat)
    requires backlog > 0 && 1 <= left <= DRAIN_TICKS && backlog <= MAX_RELEASE_PER_TICK * left
    ensures backlog - Release(backlog, left) <= MAX_RELEASE_PER_TICK * (left - 1)
    ensures left == 1 ==> Release(backlog, left) >= backlog
  {
    hide Ceiling;
    CeilingIs(backlog, left);
    var even := Ceiling(backlog, left);
    assert even > MAX_RELEASE_PER_TICK ==> left * (even - 1) >= left * MAX_RELEASE_PER_TICK;
    assert left * even == (left - 1) * even + even;
  }

  lemma {:induction false} HighestPace(backlog: nat, left: nat)
    requires 1 <= left <= DRAIN_TICKS && backlog > MAX_RELEASE_PER_TICK * left
    ensures Release(backlog, left) == MAX_RELEASE_PER_TICK
    ensures Ceiling((backlog - MAX_RELEASE_PER_TICK) as nat, MAX_RELEASE_PER_TICK) == Ceiling(backlog, MAX_RELEASE_PER_TICK) - 1
  {
    CeilingIs(backlog, left);
  }

  /** One tick less to go. */
  lemma {:induction false} TickNeedsLess(s: Stream)
    requires Paced(s)
    ensures TicksNeeded(Tick(s).0) <= if TicksNeeded(s) > 0 then TicksNeeded(s) - 1 else 0
  {
    hide CodePoints, Join, Release, Ceiling;
    AllJoined(s);
    var b, left := Backlog(s), TicksLeft(s.ticks);
    if b > 0 {
      if b <= MAX_RELEASE_PER_TICK * left {
        EvenPace(b, left);
      } else {
        HighestPace(b, left);
        CeilingIs(b, MAX_RELEASE_PER_TICK);
        CeilingIs((b - MAX_RELEASE_PER_TICK) as nat, MAX_RELEASE_PER_TICK);
      }
    }
  }

  lemma {:induction false} NothingNeededIffDrained(s: Stream)
    requires Paced(s)
    ensures TicksNeeded(s) == 0 <==> Drained(s)
  {
    hide CodePoints, Join;
    if Backlog(s) > MAX_RELEASE_PER_TICK * TicksLeft(s.ticks) {
      CeilingIs(Backlog(s), MAX_RELEASE_PER_TICK);
    }
  }

  // ----- All streams -----

  ghost predicate AllPaced(streams: seq<Stream>) {
    forall s :: s in streams ==> Paced(s)
  }

  lemma {:induction false} Kept(items: seq<Item>, streams: seq<Stream>, s: Stream)
    ensures s in Keep(items, streams) <==> s in streams && Stays(items, s)
  {
    hide Stays;
    if |streams| > 0 {
      var n := |streams| - 1;
      Kept(items, streams[..n], s);
      assert streams == streams[..n] + [streams[n]];
    }
  }

  lemma {:induction false} NotDrainedAway(items: seq<Item>, streams: seq<Stream>, s: Stream)
    ensures s in DropDrained(items, streams) <==> s in streams && !(Supersedes(items, s.partial) && Drained(s))
  {
    hide Supersedes, Drained;
    if |streams| > 0 {
      var n := |streams| - 1;
      NotDrainedAway(items, streams[..n], s);
      assert streams == streams[..n] + [streams[n]];
    }
  }

  lemma {:induction false} NotFormal(items: seq<Item>, streams: seq<Stream>, s: Stream)
    ensures s in DropFormal(items, streams) <==> s in streams && !Supersedes(items, s.partial)
  {
    hide Supersedes;
    if |streams| > 0 {
      var n := |streams| - 1;
      NotFormal(items, streams[..n], s);
      assert streams == streams[..n] + [streams[n]];
    }
  }

  lemma {:induction false} Ticked(streams: seq<Stream>, i: nat)
    requires i < |streams|
    ensures |TickAll(streams).0| == |streams| && TickAll(streams).0[i] == Tick(streams[i]).0
    ensures Tick(streams[i]).1 ==> TickAll(streams).1
  {
    hide Tick;
    var n := |streams| - 1;
    if n > 0 {
      Ticked(streams[..n], if i < n then i else 0);
    }
  }

  lemma {:induction false} TickedLength(streams: seq<Stream>)
    ensures |TickAll(streams).0| == |streams|
  {
    if |streams| > 0 {
      Ticked(streams, 0);
    }
  }

  /** Every stream after a tick is the tick of one before. */
  lemma {:induction false} TickedFrom(streams: seq<Stream>, t: Stream) returns (s: Stream)
    requires t in TickAll(streams).0
    ensures s in streams && t == Tick(s).0
  {
    hide Tick;
    TickedLength(streams);
    var i :| 0 <= i < |TickAll(streams).0| && TickAll(streams).0[i] == t;
    Ticked(streams, i);
    s := streams[i];
  }

  lemma {:induction false} AdvancedFrom(b: Buffer, t: Stream) returns (s: Stream)
    requires t in Advance(b).streams
    ensures s in b.streams && t == Tick(s).0
  {
    hide Tick;
    NotDrainedAway(b.authoritative, TickAll(b.streams).0, t);
    s := TickedFrom(b.streams, t);
  }

  lemma {:induction false} TakenPaced(streams: seq<Stream>, p: PartialView)
    requires AllPaced(streams)
    ensures AllPaced(TakePartial(streams, p).0)
  {
    hide NewStream, UpdateStream, Paced;
    match FindStream(streams, p.id)
    case None =>
      NewPaced(p);
    case Some(i) =>
      UpdatePaced(streams[i], p);
  }

  lemma {:induction false} AllTakenPaced(streams: seq<Stream>, partials: seq<PartialView>)
    requires AllPaced(streams)
    ensures AllPaced(TakePartials(streams, partials).0)
  {
    hide TakePartial, AllPaced;
    if |partials| > 0 {
      var n := |partials| - 1;
      AllTakenPaced(streams, partials[..n]);
      TakenPaced(TakePartials(streams, partials[..n]).0, partials[n]);
    }
  }

  lemma {:induction false} IngestPaced(b: Buffer, items: seq<Item>)
    requires AllPaced(b.streams)
    ensures AllPaced(Ingest(b, items).streams)
  {
    hide CodePoints, Stays, TakePartials;
    var taken := TakePartials(Unseen(b.streams), CurrentPartials(items)).0;
    assert AllPaced(Unseen(b.streams)) by {
      forall s | s in Unseen(b.streams) ensures Paced(s) {
        var i :| 0 <= i < |Unseen(b.streams)| && Unseen(b.streams)[i] == s;
        assert b.streams[i] in b.streams;
      }
    }
    AllTakenPaced(Unseen(b.streams), CurrentPartials(items));
    forall s | s in Ingest(b, items).streams ensures Paced(s) {
      Kept(items, taken, s);
    }
  }

  lemma {:induction false} ResetPaced(items: seq<Item>)
    ensures AllPaced(Reset(items).streams)
  {
    hide CodePoints, Join, Supersedes;
    var partials := CurrentPartials(items);
    forall s | s in Reset(items).streams ensures Paced(s) {
      NotFormal(items, AllShown(partials), s);
      var i :| 0 <= i < |partials| && AllShown(partials)[i] == s;
      WholePaced(partials[i]);
    }
  }

  lemma {:induction false} AdvancePaced(b: Buffer)
    requires AllPaced(b.streams)
    ensures AllPaced(Advance(b).streams)
  {
    hide Advance, Tick, Paced;
    forall t | t in Advance(b).streams ensures Paced(t) {
      var s := AdvancedFrom(b, t);
      TickPaced(s);
    }
  }

  /** In every run of the buffer, each stream is segmented as from scratch and shows a prefix of its partial's text. */
  lemma {:induction false} AlwaysPaced(actions: seq<Action>)
    ensures AllPaced(Run(actions).streams)
    ensures forall s :: s in Run(actions).streams ==> s.shown <= s.target == s.partial.text
  {
    hide Ingest, Reset, Advance;
    if |actions| > 0 {
      var before := Run(actions[..|actions| - 1]);
      AlwaysPaced(actions[..|actions| - 1]);
      match actions[|actions| - 1]
      case DoIngest(items) => IngestPaced(before, items);
      case DoReset(items) => ResetPaced(items);
      case DoAdvance => AdvancePaced(before);
    }
    forall s | s in Run(actions).streams ensures s.shown <= s.target == s.partial.text {
      AllJoined(s);
    }
  }

  // ----- The drain bound -----

  function Advances(b: Buffer, k: nat): Buffer
    decreases k
  {
    if k == 0 then b else Advances(Advance(b), k - 1)
  }

  ghost predicate NeedAtMost(streams: seq<Stream>, k: nat) {
    forall s :: s in streams ==> TicksNeeded(s) <= k
  }

  lemma {:induction false} AdvanceNeedsLess(b: Buffer, k: nat)
    requires AllPaced(b.streams) && NeedAtMost(b.streams, k)
    ensures NeedAtMost(Advance(b).streams, if k == 0 then 0 else k - 1)
  {
    hide Advance, Tick, Paced, TicksNeeded;
    forall t | t in Advance(b).streams ensures TicksNeeded(t) <= if k == 0 then 0 else k - 1 {
      var s := AdvancedFrom(b, t);
      TickNeedsLess(s);
    }
  }

  lemma {:induction false} AdvancesNeedNothing(b: Buffer, need: nat, k: nat)
    requires AllPaced(b.streams) && NeedAtMost(b.streams, need) && need <= k
    ensures AllPaced(Advances(b, k).streams) && NeedAtMost(Advances(b, k).streams, 0)
    decreases k
  {
    hide Advance, TicksNeeded, Paced;
    if k > 0 {
      AdvancePaced(b);
      AdvanceNeedsLess(b, need);
      AdvancesNeedNothing(Advance(b), if need == 0 then 0 else need - 1, k - 1);
    }
  }

  function DrainBound(backlog: nat): nat {
    if Ceiling(backlog, MAX_RELEASE_PER_TICK) < DRAIN_TICKS then DRAIN_TICKS else Ceiling(backlog, MAX_RELEASE_PER_TICK)
  }

  /** In whatever state a run left the buffer: without new input it has nothing left to show after as many ticks as the
      largest backlog asks for, and stays so. */
  lemma {:induction false} DrainsInTime(actions: seq<Action>, backlog: nat, k: nat)
    requires forall s :: s in Run(actions).streams ==> Backlog(s) <= backlog
    requires k >= DrainBound(backlog)
    ensures !HasPending(Advances(Run(actions), k))
  {
    hide Advances, Run;
    var b := Run(actions);
    AlwaysPaced(actions);
    forall s | s in b.streams ensures TicksNeeded(s) <= DrainBound(backlog) {
    }
    AdvancesNeedNothing(b, DrainBound(backlog), k);
    var after := Advances(b, k).streams;
    forall i | 0 <= i < |after| ensures Drained(after[i]) {
      assert after[i] in after;
      NothingNeededIffDrained(after[i]);
    }
  }

  /** A tick takes nothing off the screen: every remaining stream shows at least what it showed. */
  lemma {:induction false} TicksOnlyAdd(actions: seq<Action>, t: Stream) returns (s: Stream)
    requires t in Advance(Run(actions)).streams
    ensures s in Run(actions).streams && s.partial == t.partial && s.target == t.target
    ensures s.shown <= t.shown <= t.target
    ensures Drained(s) || s.visible < t.visible || s.shown < t.shown
  {
    hide Run, Advance;
    s := AdvancedFrom(Run(actions), t);
    AlwaysPaced(actions);
    TickPaced(s);
    AllJoined(s);
    if !Drained(s) && Backlog(s) == 0 {
      assert s.visible == |s.graphemes|;
    }
  }
}
