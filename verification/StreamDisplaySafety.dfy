/**
 What is on the screen, over every run: a stream never stands beside the event that supersedes it, and when nothing is
 left to release, everything that has happened is there.
 */
module StreamDisplaySafety {
  import opened Bytes
  import opened Timeline
  import opened PartialDeltas
  import opened StreamDisplayBuffer
  import opened StreamPacing

  // ----- What a snapshot holds -----

  /** A partial on the screen belongs to a current stream and matches the same events as that stream. */
  ghost predicate FromStream(streams: seq<Stream>, p: PartialView) {
    exists i :: 0 <= i < |streams| && Projected(streams[i]) == PartialItem(p)
  }

  ghost predicate MayShow(items: seq<Item>, streams: seq<Stream>, item: Item) {
    match item
    case EventItem(e) => item in items && !Hidden(streams, e)
    case PendingItem(_, _) => item in items
    case PartialItem(p) => FromStream(streams, p)
  }

  lemma {:induction false} OneShown(streams: seq<Stream>, from: Item, item: Item)
    requires item in ShowItem(streams, from)
    ensures MayShow([from], streams, item)
  {
    hide Hidden;
    if from.PartialItem? {
      var i := FindStream(streams, from.partial.id).value;
      assert Projected(streams[i]) == item;
    }
  }

  lemma {:induction false} ItemsShown(items: seq<Item>, streams: seq<Stream>, item: Item)
    requires item in ShowItems(streams, items)
    ensures MayShow(items, streams, item)
  {
    hide Hidden, Projected, FromStream;
    var n := |items| - 1;
    if item in ShowItems(streams, items[..n]) {
      ItemsShown(items[..n], streams, item);
    } else {
      OneShown(streams, items[n], item);
      assert items[n] in items;
    }
  }

  lemma {:induction false} LeavingShown(items: seq<Item>, streams: seq<Stream>, item: Item)
    requires item in ShowLeaving(streams, items)
    ensures item.PartialItem? && FromStream(streams, item.partial)
  {
    hide Supersedes;
    var n := |streams| - 1;
    if item in ShowLeaving(streams[..n], items) {
      LeavingShown(items, streams[..n], item);
    } else {
      assert item == Projected(streams[n]);
    }
  }

  lemma {:induction false} SnapshotShows(items: seq<Item>, streams: seq<Stream>, item: Item)
    requires item in BuildSnapshot(items, streams)
    ensures MayShow(items, streams, item)
  {
    hide Hidden, FromStream;
    if item in ShowItems(streams, items) {
      ItemsShown(items, streams, item);
    } else {
      LeavingShown(items, streams, item);
    }
  }

  /** Conversely, every event that no stream covers and every pending request is shown. */
  lemma {:induction false} SnapshotMisses(items: seq<Item>, streams: seq<Stream>, item: Item)
    requires item in items && !item.PartialItem?
    requires item.EventItem? ==> !Hidden(streams, item.event)
    ensures item in ShowItems(streams, items)
  {
    hide Hidden, Projected;
    var n := |items| - 1;
    if item in items[..n] {
      SnapshotMisses(items[..n], streams, item);
    } else {
      assert items == items[..n] + [items[n]];
    }
  }

  // ----- Never both -----

  ghost predicate Supersede(a: Item, b: Item) {
    a.EventItem? && b.PartialItem? && MatchesFormal(b.partial, a.event)
  }

  ghost predicate NeverBoth(displayed: seq<Item>) {
    forall a, b :: a in displayed && b in displayed ==> !Supersede(a, b)
  }

  lemma {:induction false} SnapshotNeverBoth(items: seq<Item>, streams: seq<Stream>)
    ensures NeverBoth(BuildSnapshot(items, streams))
  {
    hide BuildSnapshot;
    var shown := BuildSnapshot(items, streams);
    forall a, b | a in shown && b in shown ensures !Supersede(a, b) {
      SnapshotShows(items, streams, a);
      SnapshotShows(items, streams, b);
    }
  }

  /** Whatever comes in and however often the clock ticks, the screen never shows a stream beside the event that
      supersedes it. */
  lemma {:induction false} ScreenNeverShowsBoth(actions: seq<Action>)
    ensures NeverBoth(Run(actions).displayed)
  {
    hide BuildSnapshot;
    if |actions| > 0 {
      ScreenNeverShowsBoth(actions[..|actions| - 1]);
      var after := Run(actions);
      SnapshotNeverBoth(after.authoritative, after.streams);
    }
  }

  // ----- Everything is shown in the end -----

  lemma {:induction false} InNonStream(items: seq<Item>, item: Item)
    ensures item in NonStream(items) <==> item in items && !item.PartialItem?
  {
    if |items| > 0 {
      var n := |items| - 1;
      InNonStream(items[..n], item);
      assert items == items[..n] + [items[n]];
    }
  }

  ghost predicate Undrained(streams: seq<Stream>) {
    exists s :: s in streams && !Drained(s)
  }

  /** Every stream that an event supersedes still has something to release. */
  ghost predicate NoneOverdue(items: seq<Item>, streams: seq<Stream>) {
    forall s :: s in streams && Supersedes(items, s.partial) ==> !Drained(s)
  }

  ghost predicate AllOnScreen(b: Buffer) {
    forall item :: item in NonStream(b.authoritative) ==> item in b.displayed
  }

  ghost predicate Covered(b: Buffer) {
    && b.rendered == NonStream(b.authoritative)
    && AllPaced(b.streams)
    && NoneOverdue(b.authoritative, b.streams)
    && (Undrained(b.streams) || AllOnScreen(b))
  }

  lemma {:induction false} RebuildCovers(items: seq<Item>, streams: seq<Stream>)
    requires AllPaced(streams) && NoneOverdue(items, streams)
    ensures Covered(Rebuild(items, streams))
  {
    hide Drained, ShowItems, ShowLeaving, NonStream, AllPaced;
    if !Undrained(streams) {
      forall item | item in NonStream(items) ensures item in BuildSnapshot(items, streams) {
        InNonStream(items, item);
        if item.EventItem? && Hidden(streams, item.event) {
        } else {
          SnapshotMisses(items, streams, item);
        }
      }
    }
  }

  // A stream that no update changed on the screen has as much left to release as before.

  lemma {:induction false} QuietUpdate(s: Stream, p: PartialView)
    requires Paced(s) && !Drained(s) && !UpdateStream(s, p).1
    ensures !Drained(UpdateStream(s, p).0)
  {
    hide CodePoints, Join, AppendGraphemes;
    AllJoined(s);
  }

  lemma {:induction false} QuietTake(streams: seq<Stream>, p: PartialView)
    requires AllPaced(streams) && Undrained(streams) && !TakePartial(streams, p).1
    ensures Undrained(TakePartial(streams, p).0)
  {
    hide Drained, UpdateStream, Paced;
    var s :| s in streams && !Drained(s);
    var j :| 0 <= j < |streams| && streams[j] == s;
    var i := FindStream(streams, p.id).value;
    var after := TakePartial(streams, p).0;
    if i == j {
      QuietUpdate(s, p);
    }
    assert after[j] in after && !Drained(after[j]);
  }

  lemma {:induction false} QuietTakes(streams: seq<Stream>, partials: seq<PartialView>)
    requires AllPaced(streams) && Undrained(streams) && !TakePartials(streams, partials).1
    ensures Undrained(TakePartials(streams, partials).0)
  {
    hide TakePartial, Undrained, AllPaced;
    if |partials| > 0 {
      var n := |partials| - 1;
      QuietTakes(streams, partials[..n]);
      AllTakenPaced(streams, partials[..n]);
      QuietTake(TakePartials(streams, partials[..n]).0, partials[n]);
    }
  }

  lemma {:induction false} UnseenUndrained(streams: seq<Stream>)
    requires AllPaced(streams)
    ensures AllPaced(Unseen(streams))
    ensures Undrained(streams) ==> Undrained(Unseen(streams))
  {
    hide CodePoints;
    var unseen := Unseen(streams);
    forall u | u in unseen ensures Paced(u) {
      var i :| 0 <= i < |unseen| && unseen[i] == u;
      assert streams[i] in streams;
    }
    if Undrained(streams) {
      var s :| s in streams && !Drained(s);
      var i :| 0 <= i < |streams| && streams[i] == s;
      assert unseen[i] in unseen && !Drained(unseen[i]);
    }
  }

  lemma {:induction false} KeptAll(items: seq<Item>, streams: seq<Stream>)
    ensures |Keep(items, streams)| <= |streams|
    ensures |Keep(items, streams)| == |streams| ==> Keep(items, streams) == streams
  {
    hide Stays;
    if |streams| > 0 {
      var n := |streams| - 1;
      KeptAll(items, streams[..n]);
      assert streams == streams[..n] + [streams[n]];
    }
  }

  lemma {:induction false} IngestCovers(b: Buffer, items: seq<Item>)
    requires Covered(b)
    ensures Covered(Ingest(b, items))
  {
    hide Drained, NonStream, TakePartials, Keep, AllPaced, Supersedes;
    IngestPaced(b, items);
    assert AllPaced(Keep(items, TakePartials(Unseen(b.streams), CurrentPartials(items)).0));
    var unseen, partials := Unseen(b.streams), CurrentPartials(items);
    var taken := TakePartials(unseen, partials).0;
    var kept := Keep(items, taken);
    forall s | s in kept && Supersedes(items, s.partial) ensures !Drained(s) {
      Kept(items, taken, s);
    }
    RebuildCovers(items, kept);
    KeptAll(items, taken);
    UnseenUndrained(b.streams);
    if Ingest(b, items) == b.(authoritative := items, streams := kept) && Undrained(b.streams) {
      if !(b.rendered != NonStream(items) || TakePartials(unseen, partials).1 || |kept| != |taken|) {
        QuietTakes(unseen, partials);
      }
    }
  }

  lemma {:induction false} ResetCovers(items: seq<Item>)
    ensures Covered(Reset(items))
  {
    hide Drained, AllPaced, Supersedes, DropFormal, NonStream, BuildSnapshot;
    ResetPaced(items);
    var streams := DropFormal(items, AllShown(CurrentPartials(items)));
    forall s | s in streams ensures !Supersedes(items, s.partial) {
      NotFormal(items, AllShown(CurrentPartials(items)), s);
    }
    RebuildCovers(items, streams);
  }

  lemma {:induction false} PendingTicks(streams: seq<Stream>)
    requires AllPaced(streams) && Undrained(streams)
    ensures TickAll(streams).1
  {
    hide TickAll, CodePoints, Join;
    var s :| s in streams && !Drained(s);
    var i :| 0 <= i < |streams| && streams[i] == s;
    AllJoined(s);
    Ticked(streams, i);
  }

  lemma {:induction false} AdvanceCovers(b: Buffer)
    requires Covered(b)
    ensures Covered(Advance(b))
  {
    hide Drained, NonStream, TickAll, DropDrained, AllPaced, Supersedes;
    AdvancePaced(b);
    assert AllPaced(DropDrained(b.authoritative, TickAll(b.streams).0));
    var ticked := TickAll(b.streams).0;
    var kept := DropDrained(b.authoritative, ticked);
    forall s | s in kept && Supersedes(b.authoritative, s.partial) ensures !Drained(s) {
      NotDrainedAway(b.authoritative, ticked, s);
    }
    RebuildCovers(b.authoritative, kept);
    if Undrained(b.streams) {
      PendingTicks(b.streams);
    }
  }

  lemma {:induction false} AlwaysCovered(actions: seq<Action>)
    ensures Covered(Run(actions))
  {
    hide Ingest, Reset, Advance;
    if |actions| > 0 {
      var before := Run(actions[..|actions| - 1]);
      AlwaysCovered(actions[..|actions| - 1]);
      match actions[|actions| - 1]
      case DoIngest(items) => IngestCovers(before, items);
      case DoReset(items) => ResetCovers(items);
      case DoAdvance => AdvanceCovers(before);
    }
  }

  /** When the buffer says that nothing is left to release, every event and every pending request the runtime holds is on
      the screen. */
  lemma {:induction false} AllShownWhenDone(actions: seq<Action>, item: Item)
    requires !HasPending(Run(actions))
    requires item in Run(actions).authoritative && !item.PartialItem?
    ensures item in Run(actions).displayed
  {
    hide Run, NonStream, Drained;
    var b := Run(actions);
    AlwaysCovered(actions);
    InNonStream(b.authoritative, item);
  }

  /** So after the drain bound the screen shows all of them. */
  lemma {:induction false} AllShownInTime(actions: seq<Action>, backlog: nat, k: nat, item: Item)
    requires forall s :: s in Run(actions).streams ==> Backlog(s) <= backlog
    requires k >= DrainBound(backlog)
    requires item in Run(actions).authoritative && !item.PartialItem?
    ensures item in Advances(Run(actions), k).displayed
  {
    hide Advance, HasPending;
    DrainsInTime(actions, backlog, k);
    var more := RunThenAdvances(actions, k);
    AdvancesKeepItems(Run(actions), k);
    AllShownWhenDone(more, item);
  }

  lemma {:induction false} RunThenAdvances(actions: seq<Action>, k: nat) returns (more: seq<Action>)
    ensures Run(more) == Advances(Run(actions), k)
    decreases k
  {
    hide Advance;
    more := actions;
    if k > 0 {
      var longer := actions + [DoAdvance];
      assert longer[..|longer| - 1] == actions && longer[|longer| - 1] == DoAdvance;
      assert Run(longer) == Advance(Run(actions));
      more := RunThenAdvances(longer, k - 1);
    }
  }

  lemma {:induction false} AdvancesKeepItems(b: Buffer, k: nat)
    ensures Advances(b, k).authoritative == b.authoritative
    decreases k
  {
    hide TickAll, DropDrained;
    if k > 0 {
      AdvancesKeepItems(Advance(b), k - 1);
    }
  }
}
