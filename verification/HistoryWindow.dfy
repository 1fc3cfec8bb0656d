/**
 The sender's side of a history response: a window of events is packed into chunks, and events too large for one
 chunk are cut into fragments. Delivered in any order, the chunks give the window back.
 */
module HistoryWindow {
  import opened Bytes
  import opened Timeline
  import opened Sums
  import opened Ranges
  import opened FragmentTransfer
  import opened FragmentStreams
  import opened HistoryAssembler
  import opened HistoryDelivery
  import Base64

  /** What all chunks of one response share, with the functions that measure and encode them. */
  datatype Envelope = Envelope(codec: Codec, chunkBytes: Sizer, header: Header, nextBefore: Option<string>)

  datatype Item = Whole(event: TimelineEvent) | Part(fragment: Fragment)

  datatype Payload = Payload(events: seq<TimelineEvent>, fragments: seq<Fragment>)

  const NoPayload := Payload([], [])

  function MakeChunk(env: Envelope, payload: Payload, final: bool, index: nat): Chunk {
    Chunk(env.header, index, payload.events, payload.fragments, if final then Final(env.nextBefore) else More)
  }

  function NonFinalBytes(env: Envelope, payload: Payload): nat {
    env.chunkBytes(MakeChunk(env, payload, false, 0))
  }

  function FinalBytes(env: Envelope, payload: Payload): nat {
    env.chunkBytes(MakeChunk(env, payload, true, 0))
  }

  function TailOverhead(env: Envelope): int {
    FinalBytes(env, NoPayload) - NonFinalBytes(env, NoPayload)
  }

  predicate FitsAlone(env: Envelope, event: TimelineEvent) {
    FinalBytes(env, Payload([event], [])) <= MAX_HISTORY_CHUNK_BYTES
  }

  function Parts(fragments: seq<Fragment>): (items: seq<Item>)
    ensures |items| == |fragments|
  {
    seq(|fragments|, i requires 0 <= i < |fragments| => Part(fragments[i]))
  }

  function ItemsOf(env: Envelope, records: seq<TimelineEvent>): seq<Item> {
    if |records| == 0 then []
    else
      var last := records[|records| - 1];
      ItemsOf(env, records[..|records| - 1])
      + if FitsAlone(env, last) then [Whole(last)] else Parts(FragmentsOf(env.codec, last))
  }

  function AppendItem(payload: Payload, item: Item): Payload {
    match item
    case Whole(event) => payload.(events := payload.events + [event])
    case Part(fragment) => payload.(fragments := payload.fragments + [fragment])
  }

  predicate Repeats(payload: Payload, item: Item) {
    item.Part? && exists i :: 0 <= i < |payload.fragments| && payload.fragments[i].eventId == item.fragment.eventId
  }

  predicate Extends(env: Envelope, payload: Payload, item: Item) {
    !Repeats(payload, item) && NonFinalBytes(env, AppendItem(payload, item)) + TailOverhead(env) <= MAX_HISTORY_CHUNK_BYTES
  }

  /** Closed payloads and the one being filled. */
  datatype Packing = Packing(payloads: seq<Payload>, current: Payload)

  /** `None` where the sender throws: an item that cannot even start a chunk. */
  function PackItem(env: Envelope, packing: Packing, item: Item): Option<Packing> {
    if Extends(env, packing.current, item) then Some(packing.(current := AppendItem(packing.current, item)))
    else if packing.current == NoPayload then None
    else Some(Packing(packing.payloads + [packing.current], AppendItem(NoPayload, item)))
  }

  function Pack(env: Envelope, items: seq<Item>): Option<Packing> {
    if |items| == 0 then Some(Packing([], NoPayload))
    else match Pack(env, items[..|items| - 1])
         case None => None
         case Some(packing) => PackItem(env, packing, items[|items| - 1])
  }

  function Payloads(packing: Packing): (payloads: seq<Payload>)
    ensures |payloads| > 0
  {
    if packing.current != NoPayload || packing.payloads == [] then packing.payloads + [packing.current] else packing.payloads
  }

  function FramesOf(env: Envelope, payloads: seq<Payload>): (frames: seq<Chunk>)
    ensures |frames| == |payloads|
  {
    seq(|payloads|, k requires 0 <= k < |payloads| => MakeChunk(env, payloads[k], k == |payloads| - 1, k))
  }

  predicate AllAcceptable(env: Envelope, frames: seq<Chunk>) {
    forall k :: 0 <= k < |frames| ==> Acceptable(env.chunkBytes, frames[k])
  }

  function PackAll(env: Envelope, items: seq<Item>): Option<seq<Payload>> {
    match Pack(env, items)
    case None => None
    case Some(packing) => Some(Payloads(packing))
  }

  function Emit(env: Envelope, payloads: seq<Payload>): Option<seq<Chunk>> {
    var frames := FramesOf(env, payloads);
    if AllAcceptable(env, frames) then Some(frames) else None
  }

  /** The frames of a window, or `None` where the sender throws. */
  function FragmentWindow(env: Envelope, records: seq<TimelineEvent>): Option<seq<Chunk>> {
    match PackAll(env, ItemsOf(env, records))
    case None => None
    case Some(payloads) => Emit(env, payloads)
  }

  // ----- The sender's loops -----

  method CollectItems(env: Envelope, records: seq<TimelineEvent>) returns (items: seq<Item>)
    ensures items == ItemsOf(env, records)
  {
    items := [];
    for n := 0 to |records|
      invariant items == ItemsOf(env, records[..n])
    {
      assert records[..n + 1][..n] == records[..n];
      var event := records[n];
      if FitsAlone(env, event) {
        items := items + [Whole(event)];
      } else {
        var fragments := CutIntoFragments(env.codec, event);
        items := items + Parts(fragments);
      }
    }
    assert records[..|records|] == records;
  }

  lemma {:induction false} PackStaysFailed(env: Envelope, items: seq<Item>, n: nat)
    requires n <= |items| && Pack(env, items[..n]).None?
    ensures Pack(env, items).None?
    decreases |items| - n
  {
    if n < |items| {
      assert items[..n + 1][..n] == items[..n];
      PackStaysFailed(env, items, n + 1);
    } else {
      assert items[..n] == items;
    }
  }

  method PackItems(env: Envelope, items: seq<Item>) returns (result: Option<seq<Payload>>)
    ensures result == PackAll(env, items)
  {
    hide Extends;
    var payloads, current := [], NoPayload;
    for n := 0 to |items|
      invariant Pack(env, items[..n]) == Some(Packing(payloads, current))
    {
      assert items[..n + 1][..n] == items[..n];
      if Extends(env, current, items[n]) {
        current := AppendItem(current, items[n]);
      } else {
        if current == NoPayload {
          PackStaysFailed(env, items, n + 1);
          return None;
        }
        payloads := payloads + [current];
        current := AppendItem(NoPayload, items[n]);
      }
    }
    assert items[..|items|] == items;
    if current != NoPayload || payloads == [] {
      payloads := payloads + [current];
    }
    return Some(payloads);
  }

  method EmitFrames(env: Envelope, payloads: seq<Payload>) returns (result: Option<seq<Chunk>>)
    ensures result == Emit(env, payloads)
  {
    hide Acceptable;
    var frames := [];
    for k := 0 to |payloads|
      invariant frames == FramesOf(env, payloads)[..k]
      invariant AllAcceptable(env, frames)
    {
      var frame := MakeChunk(env, payloads[k], k == |payloads| - 1, k);
      assert FramesOf(env, payloads)[k] == frame;
      if !Acceptable(env.chunkBytes, frame) {
        return None;
      }
      frames := frames + [frame];
    }
    assert FramesOf(env, payloads)[..|payloads|] == FramesOf(env, payloads);
    return Some(frames);
  }

  method BuildFrames(env: Envelope, records: seq<TimelineEvent>) returns (result: Option<seq<Chunk>>)
    ensures result == FragmentWindow(env, records)
  {
    var items := CollectItems(env, records);
    var payloads := PackItems(env, items);
    if payloads.None? {
      return None;
    }
    result := EmitFrames(env, payloads.value);
  }

  // ----- Nothing is lost or doubled in packing -----

  function EventsIn(payloads: seq<Payload>): seq<TimelineEvent> {
    if |payloads| == 0 then [] else EventsIn(payloads[..|payloads| - 1]) + payloads[|payloads| - 1].events
  }

  function FragmentsIn(payloads: seq<Payload>): seq<Fragment> {
    if |payloads| == 0 then [] else FragmentsIn(payloads[..|payloads| - 1]) + payloads[|payloads| - 1].fragments
  }

  /** The events of a window that travel whole, in order. */
  function Fitting(env: Envelope, records: seq<TimelineEvent>): seq<TimelineEvent> {
    if |records| == 0 then []
    else
      var last := records[|records| - 1];
      Fitting(env, records[..|records| - 1]) + if FitsAlone(env, last) then [last] else []
  }

  /** The fragments of the other events, in order. */
  function Cut(env: Envelope, records: seq<TimelineEvent>): seq<Fragment> {
    if |records| == 0 then []
    else
      var last := records[|records| - 1];
      Cut(env, records[..|records| - 1]) + if FitsAlone(env, last) then [] else FragmentsOf(env.codec, last)
  }

  function WholeItems(items: seq<Item>): seq<TimelineEvent> {
    if |items| == 0 then []
    else WholeItems(items[..|items| - 1]) + if items[|items| - 1].Whole? then [items[|items| - 1].event] else []
  }

  function PartItems(items: seq<Item>): seq<Fragment> {
    if |items| == 0 then []
    else PartItems(items[..|items| - 1]) + if items[|items| - 1].Part? then [items[|items| - 1].fragment] else []
  }

  lemma {:induction false} AddParts(items: seq<Item>, fragments: seq<Fragment>)
    ensures WholeItems(items + Parts(fragments)) == WholeItems(items)
    ensures PartItems(items + Parts(fragments)) == PartItems(items) + fragments
  {
    var all := items + Parts(fragments);
    if |fragments| == 0 {
      assert all == items;
    } else {
      var front := fragments[..|fragments| - 1];
      assert all[..|all| - 1] == items + Parts(front);
      AddParts(items, front);
      assert PartItems(items) + front + [fragments[|fragments| - 1]] == PartItems(items) + fragments;
    }
  }

  lemma {:induction false} ItemsSplit(env: Envelope, records: seq<TimelineEvent>)
    ensures WholeItems(ItemsOf(env, records)) == Fitting(env, records)
    ensures PartItems(ItemsOf(env, records)) == Cut(env, records)
  {
    hide FitsAlone, FragmentsOf;
    if |records| > 0 {
      var front, last := records[..|records| - 1], records[|records| - 1];
      ItemsSplit(env, front);
      var items := ItemsOf(env, front);
      if FitsAlone(env, last) {
        assert (items + [Whole(last)])[..|items|] == items;
      } else {
        AddParts(items, FragmentsOf(env.codec, last));
      }
    }
  }

  lemma {:induction false} InPayloads(payloads: seq<Payload>, last: Payload)
    ensures EventsIn(payloads + [last]) == EventsIn(payloads) + last.events
    ensures FragmentsIn(payloads + [last]) == FragmentsIn(payloads) + last.fragments
  {
    assert (payloads + [last])[..|payloads|] == payloads;
  }

  function EventsOfItem(item: Item): seq<TimelineEvent> { if item.Whole? then [item.event] else [] }

  function FragmentsOfItem(item: Item): seq<Fragment> { if item.Part? then [item.fragment] else [] }

  lemma {:induction false} PackItemKeeps(env: Envelope, packing: Packing, item: Item)
    requires PackItem(env, packing, item).Some?
    ensures var next := PackItem(env, packing, item).value;
            && EventsIn(next.payloads) + next.current.events == EventsIn(packing.payloads) + packing.current.events + EventsOfItem(item)
            && FragmentsIn(next.payloads) + next.current.fragments
               == FragmentsIn(packing.payloads) + packing.current.fragments + FragmentsOfItem(item)
  {
    hide Extends, EventsIn, FragmentsIn;
    InPayloads(packing.payloads, packing.current);
  }

  lemma {:induction false} PackKeepsItems(env: Envelope, items: seq<Item>)
    requires Pack(env, items).Some?
    ensures var packing := Pack(env, items).value;
            && EventsIn(packing.payloads) + packing.current.events == WholeItems(items)
            && FragmentsIn(packing.payloads) + packing.current.fragments == PartItems(items)
  {
    hide PackItem;
    if |items| > 0 {
      var front, item := items[..|items| - 1], items[|items| - 1];
      PackKeepsItems(env, front);
      var before := Pack(env, front).value;
      PackItemKeeps(env, before, item);
    }
  }

  /** The payloads of a window hold its events, whole or in fragments, each exactly once and in window order. */
  lemma {:induction false} PayloadsKeepWindow(env: Envelope, records: seq<TimelineEvent>)
    requires Pack(env, ItemsOf(env, records)).Some?
    ensures var payloads := Payloads(Pack(env, ItemsOf(env, records)).value);
            EventsIn(payloads) == Fitting(env, records) && FragmentsIn(payloads) == Cut(env, records)
  {
    hide Pack, ItemsOf, Fitting, Cut;
    var packing := Pack(env, ItemsOf(env, records)).value;
    PackKeepsItems(env, ItemsOf(env, records));
    ItemsSplit(env, records);
    InPayloads(packing.payloads, packing.current);
  }

  // ----- The window that is sent -----

  /** A page of the pager: events of one scope with schema-sized ids, all different, within the page's byte limit. */
  ghost predicate Transferable(env: Envelope, records: seq<TimelineEvent>) {
    && DistinctIds(records)
    && EventBytes(env.codec, records) <= MAX_WINDOW_BYTES
    && forall e :: e in records ==> InScope(e, env.header.scope) && 1 <= |e.id| <= MAX_ID_CHARS
  }

  ghost function SentOf(env: Envelope, records: seq<TimelineEvent>): Sent {
    if |records| == 0 then map[]
    else
      var front, last := SentOf(env, records[..|records| - 1]), records[|records| - 1];
      if FitsAlone(env, last) then front else front[last.id := Stream(last, Slices(env.codec.serialize(last)))]
  }

  lemma {:induction false} SentIs(env: Envelope, records: seq<TimelineEvent>)
    requires DistinctIds(records)
    ensures forall e :: e in records && !FitsAlone(env, e) ==>
              e.id in SentOf(env, records) && SentOf(env, records)[e.id] == Stream(e, Slices(env.codec.serialize(e)))
    ensures forall id :: id in SentOf(env, records) ==>
              var s := SentOf(env, records)[id];
              s.event.id == id && s.event in records && !FitsAlone(env, s.event) && s.slices == Slices(env.codec.serialize(s.event))
  {
    hide FitsAlone, Slices;
    if |records| > 0 {
      SentIs(env, records[..|records| - 1]);
    }
  }

  lemma {:induction false} FittingIs(env: Envelope, records: seq<TimelineEvent>)
    ensures forall e :: e in Fitting(env, records) <==> e in records && FitsAlone(env, e)
    ensures DistinctIds(records) ==> DistinctIds(Fitting(env, records))
  {
    hide FitsAlone;
    if |records| > 0 {
      var front, last := records[..|records| - 1], records[|records| - 1];
      FittingIs(env, front);
      if DistinctIds(records) {
        forall i | 0 <= i < |Fitting(env, front)|
          ensures Fitting(env, front)[i].id != last.id
        {
          assert Fitting(env, front)[i] in front;
        }
      }
    }
  }

  lemma {:induction false} SizeWithin(codec: Codec, records: seq<TimelineEvent>, e: TimelineEvent)
    requires e in records
    ensures codec.Size(e) <= EventBytes(codec, records)
  {
    if e != records[|records| - 1] {
      SizeWithin(codec, records[..|records| - 1], e);
    }
  }

  lemma {:induction false} SentIsSendable(env: Envelope, records: seq<TimelineEvent>)
    requires Transferable(env, records)
    ensures AllSendable(env.codec, env.header.scope, SentOf(env, records))
  {
    hide FitsAlone, SentOf, EventBytes, Slices, DistinctIds;
    SentIs(env, records);
    var sent := SentOf(env, records);
    forall id | id in sent
      ensures Sendable(env.codec, env.header.scope, sent[id])
    {
      SizeWithin(env.codec, records, sent[id].event);
    }
  }

  // ----- Fragments: every part once -----

  ghost predicate NoRepeats(fragments: seq<Fragment>) {
    forall i, j :: 0 <= i < j < |fragments| ==> !SamePart(fragments[i], fragments[j])
  }

  lemma {:induction false} NoRepeatsSplit(a: seq<Fragment>, b: seq<Fragment>)
    requires NoRepeats(a + b)
    ensures NoRepeats(a) && forall f, g :: f in a && g in b ==> !SamePart(f, g)
  {
    forall i | 0 <= i < |a|
      ensures (a + b)[i] == a[i]
    {
    }
    forall f, g | f in a && g in b
      ensures !SamePart(f, g)
    {
      var i :| 0 <= i < |a| && a[i] == f;
      var j :| 0 <= j < |b| && b[j] == g;
      assert !SamePart((a + b)[i], (a + b)[|a| + j]);
    }
  }

  lemma {:induction false} CutHolds(env: Envelope, records: seq<TimelineEvent>, f: Fragment)
    ensures f in Cut(env, records) <==> exists e :: e in records && !FitsAlone(env, e) && f in FragmentsOf(env.codec, e)
  {
    hide FitsAlone, FragmentsOf;
    if |records| > 0 {
      var front, last := records[..|records| - 1], records[|records| - 1];
      CutHolds(env, front, f);
      assert records == front + [last];
    }
  }

  lemma {:induction false} CutApart(env: Envelope, records: seq<TimelineEvent>)
    requires DistinctIds(records)
    ensures NoRepeats(Cut(env, records))
  {
    hide FitsAlone;
    if |records| > 0 {
      var front, last := records[..|records| - 1], records[|records| - 1];
      CutApart(env, front);
      forall f, g | f in Cut(env, front) && g in FragmentsOf(env.codec, last)
        ensures !SamePart(f, g)
      {
        CutHolds(env, front, f);
        var e :| e in front && !FitsAlone(env, e) && f in FragmentsOf(env.codec, e);
        var i :| 0 <= i < |front| && front[i] == e;
        assert records[i] == e;
      }
    }
  }

  lemma {:induction false} CutIs(env: Envelope, records: seq<TimelineEvent>)
    ensures forall f :: f in Cut(env, records) <==> exists e :: e in records && !FitsAlone(env, e) && f in FragmentsOf(env.codec, e)
    ensures DistinctIds(records) ==> NoRepeats(Cut(env, records))
  {
    hide FitsAlone, Cut, NoRepeats, DistinctIds, FragmentsOf;
    forall f
      ensures f in Cut(env, records) <==> exists e :: e in records && !FitsAlone(env, e) && f in FragmentsOf(env.codec, e)
    {
      CutHolds(env, records, f);
    }
    if DistinctIds(records) {
      CutApart(env, records);
    }
  }

  ghost function AllFragments(frames: seq<Chunk>): seq<Fragment> {
    if |frames| == 0 then [] else AllFragments(frames[..|frames| - 1]) + frames[|frames| - 1].fragments
  }

  lemma {:induction false} FragmentOfFrame(frames: seq<Chunk>, k: nat, f: Fragment)
    requires k < |frames| && f in frames[k].fragments
    ensures f in AllFragments(frames)
  {
    if k < |frames| - 1 {
      FragmentOfFrame(frames[..|frames| - 1], k, f);
    }
  }

  lemma {:induction false} FrameOfFragment(frames: seq<Chunk>, f: Fragment) returns (k: nat)
    requires f in AllFragments(frames)
    ensures k < |frames| && f in frames[k].fragments
  {
    var last := |frames| - 1;
    if f in frames[last].fragments {
      k := last;
    } else {
      k := FrameOfFragment(frames[..last], f);
    }
  }

  lemma {:induction false} FragmentsApart(frames: seq<Chunk>, k: nat, l: nat)
    requires NoRepeats(AllFragments(frames)) && k < l < |frames|
    ensures forall f, g :: f in frames[k].fragments && g in frames[l].fragments ==> !SamePart(f, g)
  {
    var front, last := frames[..|frames| - 1], |frames| - 1;
    NoRepeatsSplit(AllFragments(front), frames[last].fragments);
    if l < last {
      FragmentsApart(front, k, l);
    } else {
      forall f | f in frames[k].fragments
        ensures f in AllFragments(front)
      {
        FragmentOfFrame(front, k, f);
      }
    }
  }

  // ----- Bytes: a chunk weighs what its items weigh -----

  ghost function FragmentBytes(fragments: seq<Fragment>): nat {
    if |fragments| == 0 then 0
    else FragmentBytes(fragments[..|fragments| - 1]) + PieceSize(DecodeFragment(fragments[|fragments| - 1]))
  }

  lemma {:induction false} PieceBytesOf(fragments: seq<Fragment>, pieces: seq<Piece>)
    requires |pieces| == |fragments| && forall j :: 0 <= j < |pieces| ==> pieces[j] == DecodeFragment(fragments[j])
    ensures PieceBytes(pieces) == FragmentBytes(fragments)
  {
    if |fragments| > 0 {
      PieceBytesOf(fragments[..|fragments| - 1], pieces[..|pieces| - 1]);
    }
  }

  lemma {:induction false} EventBytesJoin(codec: Codec, a: seq<TimelineEvent>, b: seq<TimelineEvent>)
    ensures EventBytes(codec, a + b) == EventBytes(codec, a) + EventBytes(codec, b)
  {
    if |b| == 0 {
      assert a + b == a;
    } else {
      assert (a + b)[..|a + b| - 1] == a + b[..|b| - 1];
      EventBytesJoin(codec, a, b[..|b| - 1]);
    }
  }

  lemma {:induction false} FragmentBytesJoin(a: seq<Fragment>, b: seq<Fragment>)
    ensures FragmentBytes(a + b) == FragmentBytes(a) + FragmentBytes(b)
  {
    if |b| == 0 {
      assert a + b == a;
    } else {
      assert (a + b)[..|a + b| - 1] == a + b[..|b| - 1];
      FragmentBytesJoin(a, b[..|b| - 1]);
    }
  }

  lemma {:induction false} CutSize(codec: Codec, scope: Scope, s: Stream, n: nat)
    requires Sendable(codec, scope, s) && n <= |s.slices|
    ensures FragmentBytes(FragmentsOf(codec, s.event)[..n]) == |Flatten(s.slices[..n])|
  {
    hide DecodeFragment, FragmentsOf, Slices;
    if n > 0 {
      CutSize(codec, scope, s, n - 1);
      DecodesToPiece(codec, scope, s, n - 1);
      assert FragmentsOf(codec, s.event)[..n][..n - 1] == FragmentsOf(codec, s.event)[..n - 1];
      assert s.slices[..n][..n - 1] == s.slices[..n - 1];
    }
  }

  /** An event's fragments carry as many bytes as the event. */
  lemma {:induction false} CutWeighs(codec: Codec, scope: Scope, e: TimelineEvent)
    requires Sendable(codec, scope, Stream(e, Slices(codec.serialize(e))))
    ensures FragmentBytes(FragmentsOf(codec, e)) == codec.Size(e)
  {
    var slices := Slices(codec.serialize(e));
    CutSize(codec, scope, Stream(e, slices), |slices|);
    FlattenSlices(codec.serialize(e));
    assert slices[..|slices|] == slices && FragmentsOf(codec, e)[..|slices|] == FragmentsOf(codec, e);
  }

  lemma {:induction false} WindowWeighs(env: Envelope, records: seq<TimelineEvent>)
    requires forall e :: e in records ==>
               Sendable(env.codec, env.header.scope, Stream(e, Slices(env.codec.serialize(e))))
    ensures EventBytes(env.codec, Fitting(env, records)) + FragmentBytes(Cut(env, records)) == EventBytes(env.codec, records)
  {
    hide FitsAlone, Sendable, FragmentsOf, DecodeFragment, FragmentBytes, Slices;
    if |records| == 0 {
      var none: seq<Fragment> := [];
      assert none + none == none;
      FragmentBytesJoin(none, none);
    } else {
      var front, last := records[..|records| - 1], records[|records| - 1];
      WindowWeighs(env, front);
      if FitsAlone(env, last) {
        EventBytesJoin(env.codec, Fitting(env, front), [last]);
        assert Cut(env, records) == Cut(env, front);
      } else {
        CutWeighs(env.codec, env.header.scope, last);
        FragmentBytesJoin(Cut(env, front), FragmentsOf(env.codec, last));
        assert Fitting(env, records) == Fitting(env, front);
      }
    }
  }

  lemma {:induction false} ChunkWeighs(codec: Codec, chunk: Chunk)
    ensures ChunkWeight(codec, chunk) == EventBytes(codec, chunk.events) + FragmentBytes(chunk.fragments)
  {
    PieceBytesOf(chunk.fragments, Pieces(chunk));
  }

  lemma {:induction false} LastNumbered(codec: Codec, frames: seq<Chunk>)
    requires |frames| > 0
    ensures var n: nat := |frames| - 1;
            && Numbering(frames) == Numbering(frames[..n])[n := frames[n]] && n !in Numbering(frames[..n])
            && Weight(codec)(frames[n]) == ChunkWeight(codec, frames[n])
  {
    hide ChunkWeight;
  }

  lemma {:induction false} FramesWeigh(codec: Codec, frames: seq<Chunk>)
    ensures SumOf(Numbering(frames), Weight(codec)) == EventBytes(codec, AllEvents(frames)) + FragmentBytes(AllFragments(frames))
  {
    hide Weight, ChunkWeight;
    if |frames| == 0 {
      assert Numbering(frames) == map[];
    } else {
      var n: nat := |frames| - 1;
      var front, last := frames[..n], frames[n];
      FramesWeigh(codec, front);
      LastNumbered(codec, frames);
      ChunkWeighs(codec, last);
      SumInsert(Numbering(front), Weight(codec), n, last);
      EventBytesJoin(codec, AllEvents(front), last.events);
      FragmentBytesJoin(AllFragments(front), last.fragments);
    }
  }

  // ----- The frames carry the window -----

  ghost predicate Matches(frames: seq<Chunk>, payloads: seq<Payload>) {
    && |frames| == |payloads|
    && forall k :: 0 <= k < |frames| ==> frames[k].events == payloads[k].events && frames[k].fragments == payloads[k].fragments
  }

  lemma {:induction false} FramesHold(frames: seq<Chunk>, payloads: seq<Payload>)
    requires Matches(frames, payloads)
    ensures AllEvents(frames) == EventsIn(payloads) && AllFragments(frames) == FragmentsIn(payloads)
  {
    if |frames| > 0 {
      FramesHold(frames[..|frames| - 1], payloads[..|payloads| - 1]);
    }
  }

  ghost function ResponseOf(env: Envelope, records: seq<TimelineEvent>, frames: seq<Chunk>): Response {
    Response(records, SentOf(env, records), frames, env.header, env.nextBefore)
  }

  lemma {:induction false} FramesNumbered(env: Envelope, records: seq<TimelineEvent>, payloads: seq<Payload>)
    ensures Numbered(ResponseOf(env, records, FramesOf(env, payloads))) && Matches(FramesOf(env, payloads), payloads)
  {
  }

  lemma {:induction false} WholesFit(env: Envelope, records: seq<TimelineEvent>, frames: seq<Chunk>)
    requires Transferable(env, records) && AllEvents(frames) == Fitting(env, records)
    ensures WholesOnce(ResponseOf(env, records, frames))
  {
    hide FitsAlone, SentOf, Fitting, AllEvents, EventBytes, Slices, DistinctIds;
    FittingIs(env, records);
    SentIs(env, records);
    forall e | e in Fitting(env, records)
      ensures e.id !in SentOf(env, records)
    {
      if e.id in SentOf(env, records) {
        SameIdSameEvent(records, e, SentOf(env, records)[e.id].event);
      }
    }
  }

  lemma {:induction false} WindowCovered(env: Envelope, records: seq<TimelineEvent>, frames: seq<Chunk>)
    requires Transferable(env, records) && AllEvents(frames) == Fitting(env, records)
    ensures Covers(ResponseOf(env, records, frames))
  {
    hide FitsAlone, SentOf, Fitting, AllEvents, EventBytes, Slices, DistinctIds;
    FittingIs(env, records);
    SentIs(env, records);
  }

  lemma {:induction false} CutIsPart(env: Envelope, records: seq<TimelineEvent>, f: Fragment)
    requires Transferable(env, records) && f in Cut(env, records)
    ensures IsPart(env.codec, SentOf(env, records), f)
  {
    hide FitsAlone, SentOf, Cut, EventBytes, Slices, DistinctIds;
    CutIs(env, records);
    SentIs(env, records);
    SentIsSendable(env, records);
    var e :| e in records && !FitsAlone(env, e) && f in FragmentsOf(env.codec, e);
    var i :| 0 <= i < |FragmentsOf(env.codec, e)| && FragmentsOf(env.codec, e)[i] == f;
    DecodesToPiece(env.codec, env.header.scope, SentOf(env, records)[e.id], i);
  }

  lemma {:induction false} EveryPartCarried(env: Envelope, records: seq<TimelineEvent>, frames: seq<Chunk>, id: string, i: nat)
    requires Transferable(env, records) && AllFragments(frames) == Cut(env, records)
    requires id in SentOf(env, records) && i < |SentOf(env, records)[id].slices|
    ensures CarriesPart(frames, id, i)
  {
    hide FitsAlone, SentOf, Cut, EventBytes, Slices, DistinctIds, DecodeFragment, AllFragments;
    CutIs(env, records);
    SentIs(env, records);
    var e := SentOf(env, records)[id].event;
    var f := FragmentsOf(env.codec, e)[i];
    assert f in FragmentsOf(env.codec, e);
    var k := FrameOfFragment(frames, f);
    var j :| 0 <= j < |frames[k].fragments| && frames[k].fragments[j] == f;
  }

  lemma {:induction false} PartsApart(frames: seq<Chunk>, k: nat, l: nat, j: nat, m: nat)
    requires NoRepeats(AllFragments(frames)) && k < |frames| && l < |frames| && k != l
    requires j < |frames[k].fragments| && m < |frames[l].fragments|
    ensures !SamePart(frames[k].fragments[j], frames[l].fragments[m])
  {
    if k < l {
      FragmentsApart(frames, k, l);
    } else {
      FragmentsApart(frames, l, k);
      assert !SamePart(frames[l].fragments[m], frames[k].fragments[j]);
    }
  }

  lemma {:induction false} CutPart(env: Envelope, records: seq<TimelineEvent>, frames: seq<Chunk>, k: nat, j: nat)
    requires Transferable(env, records) && AllFragments(frames) == Cut(env, records)
    requires k < |frames| && j < |frames[k].fragments|
    ensures IsPart(env.codec, SentOf(env, records), frames[k].fragments[j])
  {
    hide IsPart;
    FragmentOfFrame(frames, k, frames[k].fragments[j]);
    CutIsPart(env, records, frames[k].fragments[j]);
  }

  lemma {:induction false} PartsFit(env: Envelope, records: seq<TimelineEvent>, frames: seq<Chunk>)
    requires Transferable(env, records) && AllFragments(frames) == Cut(env, records)
    ensures PartsOnce(env.codec, ResponseOf(env, records, frames))
  {
    hide FitsAlone, SentOf, Cut, IsPart, AllFragments, FragmentsOf, NoRepeats, CarriesPart, DistinctIds, SamePart;
    CutIs(env, records);
    assert DistinctIds(records);
    forall k: nat, j: nat | k < |frames| && j < |frames[k].fragments|
      ensures IsPart(env.codec, SentOf(env, records), frames[k].fragments[j])
    {
      CutPart(env, records, frames, k, j);
    }
    forall k: nat, j: nat, l: nat, m: nat | k < |frames| && l < |frames| && k != l && j < |frames[k].fragments| && m < |frames[l].fragments|
      ensures !SamePart(frames[k].fragments[j], frames[l].fragments[m])
    {
      PartsApart(frames, k, l, j, m);
    }
    forall id, i: nat | id in SentOf(env, records) && i < |SentOf(env, records)[id].slices|
      ensures CarriesPart(frames, id, i)
    {
      EveryPartCarried(env, records, frames, id, i);
    }
  }

  lemma {:induction false} WindowWeight(env: Envelope, records: seq<TimelineEvent>, frames: seq<Chunk>)
    requires Transferable(env, records)
    requires AllEvents(frames) == Fitting(env, records) && AllFragments(frames) == Cut(env, records)
    ensures SumOf(Numbering(frames), Weight(env.codec)) == EventBytes(env.codec, records)
  {
    hide Fitting, Cut, Weight, SumOf, Numbering, AllEvents, AllFragments, DistinctIds, FragmentBytes, EventBytes, Slices;
    forall e | e in records
      ensures Sendable(env.codec, env.header.scope, Stream(e, Slices(env.codec.serialize(e))))
    {
      SizeWithin(env.codec, records, e);
    }
    FramesWeigh(env.codec, frames);
    WindowWeighs(env, records);
  }

  /** What the sender returns carries the window, and its whole events are in window order. */
  lemma {:induction false} WindowCarried(env: Envelope, records: seq<TimelineEvent>)
    requires Transferable(env, records) && FragmentWindow(env, records).Some?
    ensures var frames := FragmentWindow(env, records).value;
            && Carries(env.codec, env.chunkBytes, ResponseOf(env, records, frames))
            && AllEvents(frames) == Fitting(env, records)
  {
    hide Fitting, Cut, Weight, SumOf, Numbering, AllEvents, AllFragments, DistinctIds, EventBytes, Covers, PartsOnce,
         WholesOnce, AllSendable, SentOf, EventsIn, FragmentsIn, ItemsOf, Pack, Acceptable, FitsAlone, Numbered,
         Matches, FramesOf, InScope;
    var payloads := PackAll(env, ItemsOf(env, records)).value;
    var frames := FragmentWindow(env, records).value;
    PayloadsKeepWindow(env, records);
    FramesNumbered(env, records, payloads);
    FramesHold(frames, payloads);
    WindowWeight(env, records, frames);
    PartsFit(env, records, frames);
    WholesFit(env, records, frames);
    WindowCovered(env, records, frames);
    SentIsSendable(env, records);
  }

  /**
   For every page, every size function and every delivery order: if the sender returns frames, the browser's window
   is pending until the last of them, and then completes with exactly the events of the page and its `next_before`.
   The events that travelled whole come first and in page order; every frame respects the chunk limit and holds at
   most one fragment of any event.
   */
  lemma {:induction false} WindowRoundTrip(env: Envelope, records: seq<TimelineEvent>, expected: Option<Scope>, order: Order)
    requires env.codec.Lossless() && Transferable(env, records) && FragmentWindow(env, records).Some?
    requires expected.Some? ==> expected.value == env.header.scope
    requires order.Next? && Once(order, |FragmentWindow(env, records).value|)
    ensures var frames := FragmentWindow(env, records).value;
            var result := Receive(env.codec, env.chunkBytes, expected, ResponseOf(env, records, frames), order).1;
            && (forall k :: 0 <= k < |frames| ==> env.chunkBytes(frames[k]) <= MAX_HISTORY_CHUNK_BYTES && DistinctEvents(frames[k].fragments))
            && if |Delivered(order)| < |frames| then result == WindowPending
               else
                 && result.WindowComplete? && result.nextBefore == env.nextBefore
                 && DistinctIds(result.events) && (forall e :: e in result.events <==> e in records)
                 && Fitting(env, records) <= result.events
  {
    hide FragmentWindow, Receive, Fitting, AllEvents, DistinctIds, Once, Delivered;
    WindowCarried(env, records);
    var r := ResponseOf(env, records, FragmentWindow(env, records).value);
    assert forall k :: 0 <= k < |r.frames| ==> Acceptable(env.chunkBytes, r.frames[k]);
    Reassembles(env.codec, env.chunkBytes, expected, r, order);
  }

  // ----- When the sender throws -----

  /** Packing fails only on the first item: later ones always start a chunk of their own, fitting or not. */
  lemma {:induction false} PackFailsAtStart(env: Envelope, items: seq<Item>)
    ensures PackAll(env, items).None? <==> |items| > 0 && !Extends(env, NoPayload, items[0])
  {
    hide Extends;
    if |items| > 1 {
      PackFailsAtStart(env, items[..|items| - 1]);
    } else if |items| == 1 {
      assert Pack(env, items[..0]) == Some(Packing([], NoPayload));
    }
  }

  lemma {:induction false} PackOncePerEvent(env: Envelope, items: seq<Item>)
    requires Pack(env, items).Some?
    ensures var packing := Pack(env, items).value;
            DistinctEvents(packing.current.fragments) && forall p :: p in packing.payloads ==> DistinctEvents(p.fragments)
  {
    if |items| > 0 {
      PackOncePerEvent(env, items[..|items| - 1]);
    }
  }

  /** Within the limits that do not depend on how chunks are formed: entries per array and encoded bytes. */
  predicate WithinLimits(env: Envelope, frame: Chunk) {
    && |frame.events| <= MAX_ARRAY_ITEMS && |frame.fragments| <= MAX_ARRAY_ITEMS
    && env.chunkBytes(frame) <= MAX_HISTORY_CHUNK_BYTES
  }

  lemma {:induction false} FrameAcceptable(env: Envelope, records: seq<TimelineEvent>, frames: seq<Chunk>, k: nat)
    requires Transferable(env, records) && k < |frames| && DistinctEvents(frames[k].fragments)
    requires AllEvents(frames) == Fitting(env, records) && AllFragments(frames) == Cut(env, records)
    ensures Acceptable(env.chunkBytes, frames[k]) <==> WithinLimits(env, frames[k])
  {
    hide SentOf, Fitting, Cut, AllEvents, AllFragments, Transferable, DistinctIds, Base64.IsPadded, Base64.DecodeBody,
         Base64.Body;
    WholesFit(env, records, frames);
    forall i | 0 <= i < |frames[k].events|
      ensures frames[k].events[i].id !in SentOf(env, records)
    {
      EventOfFrame(frames, k, frames[k].events[i]);
    }
    forall j | 0 <= j < |frames[k].fragments|
      ensures IsPart(env.codec, SentOf(env, records), frames[k].fragments[j])
    {
      CutPart(env, records, frames, k, j);
    }
  }

  lemma {:induction false} PlannedFrames(env: Envelope, records: seq<TimelineEvent>, payloads: seq<Payload>)
    requires Transferable(env, records) && PackAll(env, ItemsOf(env, records)) == Some(payloads)
    ensures forall k :: 0 <= k < |payloads| ==>
              (Acceptable(env.chunkBytes, FramesOf(env, payloads)[k]) <==> WithinLimits(env, FramesOf(env, payloads)[k]))
  {
    hide ItemsOf, Fitting, Cut, EventsIn, FragmentsIn, Acceptable, WithinLimits, DistinctEvents, Transferable,
         Numbered, AllEvents, AllFragments, FramesOf;
    var frames := FramesOf(env, payloads);
    PayloadsKeepWindow(env, records);
    PackOncePerEvent(env, ItemsOf(env, records));
    assert forall p :: p in payloads ==> DistinctEvents(p.fragments);
    FramesNumbered(env, records, payloads);
    FramesHold(frames, payloads);
    forall k | 0 <= k < |frames|
      ensures Acceptable(env.chunkBytes, frames[k]) <==> WithinLimits(env, frames[k])
    {
      assert payloads[k] in payloads;
      FrameAcceptable(env, records, frames, k);
    }
  }

  /**
   The sender throws exactly when the first item does not fit an empty chunk, or a planned chunk, under its real
   number, is too large or too long. No page fails for a repeated fragment or for mixing an event with its fragments.
   */
  lemma {:induction false} ThrowsOnlyForSize(env: Envelope, records: seq<TimelineEvent>)
    requires Transferable(env, records)
    ensures var items := ItemsOf(env, records);
            FragmentWindow(env, records).None?
            <==> || (|items| > 0 && !Extends(env, NoPayload, items[0]))
                 || (PackAll(env, items).Some?
                     && exists k :: 0 <= k < |PackAll(env, items).value|
                                    && !WithinLimits(env, FramesOf(env, PackAll(env, items).value)[k]))
  {
    hide ItemsOf, PackAll, Extends, Acceptable, WithinLimits, Transferable;
    var items := ItemsOf(env, records);
    PackFailsAtStart(env, items);
    if PackAll(env, items).Some? {
      PlannedFrames(env, records, PackAll(env, items).value);
    }
  }
}
