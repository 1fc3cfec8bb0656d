/**
 Streaming text is shown at a steady pace. The display never runs ahead of the text, catches up within a bounded number
 of ticks, and never shows a stream beside the formal event that supersedes it.
 */
module StreamDisplayBuffer {
  import opened Bytes
  import opened Timeline
  import opened PartialDeltas

  const DRAIN_TICKS := 8
  const MAX_RELEASE_PER_TICK := 64

  datatype PartialKind = AssistantText | Thinking | ToolOutput

  /** A partial item; `blocks` says that its text comes as finished blocks. */
  datatype PartialView = PartialView(id: string, group: string, kind: PartialKind, text: Text, blocks: bool)

  /** `pending` stands for all displayed fields of a pending request. */
  datatype Item = EventItem(event: TimelineEvent) | PendingItem(id: string, pending: string) | PartialItem(partial: PartialView)

  datatype Stream = Stream(partial: PartialView, target: Text, graphemes: seq<Text>, visible: nat, shown: Text, ticks: nat, seen: bool)

  /** `authoritative` is what the runtime says, `displayed` what is on the screen; `rendered` are the items other than
      partials at the time of the last snapshot. */
  datatype Buffer = Buffer(authoritative: seq<Item>, displayed: seq<Item>, rendered: seq<Item>, streams: seq<Stream>)

  const Empty := Buffer([], [], [], [])

  // ----- Code points -----

  function FirstLength(text: Text): (n: nat)
    requires |text| > 0
    ensures 1 <= n <= |text|
  {
    if |text| > 1 && IsHigh(text[0]) && IsLow(text[1]) then 2 else 1
  }

  function CodePoints(text: Text): seq<Text> {
    if |text| == 0 then [] else [text[..FirstLength(text)]] + CodePoints(text[FirstLength(text)..])
  }

  /** Segments what was appended, starting over from the last segment. */
  function AppendGraphemes(graphemes: seq<Text>, suffix: Text): seq<Text> {
    if |graphemes| == 0 then CodePoints(suffix)
    else graphemes[..|graphemes| - 1] + CodePoints(graphemes[|graphemes| - 1] + suffix)
  }

  method SegmentText(text: Text) returns (points: seq<Text>)
    ensures points == CodePoints(text)
  {
    points := [];
    var offset := 0;
    while offset < |text|
      invariant offset <= |text| && points + CodePoints(text[offset..]) == CodePoints(text)
    {
      var n := FirstLength(text[offset..]);
      assert text[offset..][..n] == text[offset..offset + n] && text[offset..][n..] == text[offset + n..];
      points := points + [text[offset..offset + n]];
      offset := offset + n;
    }
  }

  // ----- One stream -----

  predicate Immediate(p: PartialView) { p.kind.ToolOutput? || p.blocks }

  function Expected(s: Stream): Text {
    if s.visible <= |s.graphemes| then Join(s.graphemes[..s.visible]) else Join(s.graphemes)
  }

  predicate Drained(s: Stream) { s.visible >= |s.graphemes| && s.shown == s.target }

  function Min(a: nat, b: nat): nat { if a <= b then a else b }

  function NewStream(p: PartialView): Stream {
    var graphemes := CodePoints(p.text);
    var visible := if Immediate(p) then |graphemes| else Min(2, |graphemes|);
    Stream(p, p.text, graphemes, visible, Join(graphemes[..visible]), if Immediate(p) then DRAIN_TICKS else 0, true)
  }

  /** The stream after a new state of its partial, and whether the screen has to change at once. */
  function UpdateStream(s: Stream, p: PartialView): (Stream, bool) {
    var base := s.(partial := p, seen := true);
    if s.target != p.text && Immediate(p) then
      var graphemes := CodePoints(p.text);
      (base.(target := p.text, graphemes := graphemes, visible := |graphemes|, shown := p.text, ticks := DRAIN_TICKS), true)
    else if s.target != p.text && s.target <= p.text then
      var graphemes := AppendGraphemes(s.graphemes, p.text[|s.target|..]);
      (base.(target := p.text, graphemes := graphemes, visible := Min(s.visible, |graphemes|), ticks := 0), false)
    else if s.target != p.text then
      var graphemes := CodePoints(p.text);
      (base.(target := p.text, graphemes := graphemes, visible := Min(2, |graphemes|),
             shown := Join(graphemes[..Min(2, |graphemes|)]), ticks := 0), true)
    else if Immediate(p) && !Immediate(s.partial) then
      (base.(visible := |s.graphemes|, shown := p.text, ticks := DRAIN_TICKS), true)
    else (base, false)
  }

  function TicksLeft(ticks: nat): (left: nat)
    ensures 1 <= left <= DRAIN_TICKS
  {
    if ticks < DRAIN_TICKS then DRAIN_TICKS - ticks else 1
  }

  function Ceiling(a: nat, b: nat): nat
    requires b > 0
  {
    (a + b - 1) / b
  }

  /** How many graphemes one tick releases of a backlog, with `left` ticks to go. */
  function Release(backlog: nat, left: nat): (n: nat)
    requires left > 0
    ensures 1 <= n <= MAX_RELEASE_PER_TICK
  {
    var even := if Ceiling(backlog, left) < 1 then 1 else Ceiling(backlog, left);
    Min(MAX_RELEASE_PER_TICK, even)
  }

  function Backlog(s: Stream): nat {
    if s.visible < |s.graphemes| then |s.graphemes| - s.visible else 0
  }

  /** One tick of a stream, and whether it changed. */
  function Tick(s: Stream): (Stream, bool) {
    if Backlog(s) > 0 then
      var ticked := s.(ticks := s.ticks + 1, visible := Min(|s.graphemes|, s.visible + Release(Backlog(s), TicksLeft(s.ticks))));
      (ticked.(shown := Expected(ticked)), true)
    else if s.shown != Expected(s) then (s.(shown := Expected(s)), true)
    else (s, false)
  }

  // ----- Snapshots -----

  predicate MatchesFormal(p: PartialView, e: TimelineEvent) {
    && e.group == Some(p.group)
    && ((e.detail.Assistant? && !p.kind.ToolOutput?) || (e.detail.Tool? && p.kind.ToolOutput?))
  }

  predicate Supersedes(items: seq<Item>, p: PartialView) {
    exists i :: 0 <= i < |items| && items[i].EventItem? && MatchesFormal(p, items[i].event)
  }

  predicate Hidden(streams: seq<Stream>, e: TimelineEvent) {
    exists i :: 0 <= i < |streams| && MatchesFormal(streams[i].partial, e)
  }

  function FindStream(streams: seq<Stream>, id: string): (i: Option<nat>)
    ensures i.Some? ==> i.value < |streams| && streams[i.value].partial.id == id
    ensures i.None? ==> forall k :: 0 <= k < |streams| ==> streams[k].partial.id != id
  {
    if |streams| == 0 then None
    else if streams[|streams| - 1].partial.id == id then Some(|streams| - 1)
    else FindStream(streams[..|streams| - 1], id)
  }

  function Projected(s: Stream): Item {
    PartialItem(if s.partial.blocks then s.partial else s.partial.(text := s.shown))
  }

  function ShowItem(streams: seq<Stream>, item: Item): seq<Item> {
    match item
    case EventItem(e) => if Hidden(streams, e) then [] else [item]
    case PendingItem(_, _) => [item]
    case PartialItem(p) => if FindStream(streams, p.id).Some? then [Projected(streams[FindStream(streams, p.id).value])] else []
  }

  function ShowItems(streams: seq<Stream>, items: seq<Item>): seq<Item> {
    if |items| == 0 then [] else ShowItems(streams, items[..|items| - 1]) + ShowItem(streams, items[|items| - 1])
  }

  /** Streams that have gone from the runtime, but still cover a formal event until they have drained. */
  function ShowLeaving(streams: seq<Stream>, items: seq<Item>): seq<Item> {
    if |streams| == 0 then []
    else
      var last := streams[|streams| - 1];
      ShowLeaving(streams[..|streams| - 1], items) + if !last.seen && Supersedes(items, last.partial) then [Projected(last)] else []
  }

  /** The order of the items on the screen is not part of this model. */
  function BuildSnapshot(items: seq<Item>, streams: seq<Stream>): seq<Item> {
    ShowItems(streams, items) + ShowLeaving(streams, items)
  }

  function NonStream(items: seq<Item>): seq<Item> {
    if |items| == 0 then []
    else NonStream(items[..|items| - 1]) + if items[|items| - 1].PartialItem? then [] else [items[|items| - 1]]
  }

  function Rebuild(items: seq<Item>, streams: seq<Stream>): Buffer {
    Buffer(items, BuildSnapshot(items, streams), NonStream(items), streams)
  }

  // ----- Operations -----

  /** The partial items, the last one of each id, in the order in which the ids first appear. */
  function PutPartial(partials: seq<PartialView>, p: PartialView): seq<PartialView> {
    if |partials| == 0 then [p]
    else
      var last := partials[|partials| - 1];
      if last.id == p.id then partials[|partials| - 1 := p] else PutPartial(partials[..|partials| - 1], p) + [last]
  }

  function CurrentPartials(items: seq<Item>): seq<PartialView> {
    if |items| == 0 then []
    else
      var front := CurrentPartials(items[..|items| - 1]);
      if items[|items| - 1].PartialItem? then PutPartial(front, items[|items| - 1].partial) else front
  }

  function Unseen(streams: seq<Stream>): (unseen: seq<Stream>)
    ensures |unseen| == |streams|
  {
    seq(|streams|, i requires 0 <= i < |streams| => streams[i].(seen := false))
  }

  function TakePartial(streams: seq<Stream>, p: PartialView): (seq<Stream>, bool) {
    match FindStream(streams, p.id)
    case None => (streams + [NewStream(p)], true)
    case Some(i) =>
      var (s, changed) := UpdateStream(streams[i], p);
      (streams[i := s], changed)
  }

  function TakePartials(streams: seq<Stream>, partials: seq<PartialView>): (seq<Stream>, bool) {
    if |partials| == 0 then (streams, false)
    else
      var (before, changed) := TakePartials(streams, partials[..|partials| - 1]);
      var (after, more) := TakePartial(before, partials[|partials| - 1]);
      (after, changed || more)
  }

  /** A stream goes when the runtime dropped it and no event replaced it, or when the event that replaced it may be shown. */
  predicate Stays(items: seq<Item>, s: Stream) {
    if Supersedes(items, s.partial) then !Drained(s) else s.seen
  }

  function Keep(items: seq<Item>, streams: seq<Stream>): seq<Stream> {
    if |streams| == 0 then []
    else Keep(items, streams[..|streams| - 1]) + if Stays(items, streams[|streams| - 1]) then [streams[|streams| - 1]] else []
  }

  function Ingest(b: Buffer, items: seq<Item>): Buffer {
    var (taken, changed) := TakePartials(Unseen(b.streams), CurrentPartials(items));
    var kept := Keep(items, taken);
    if b.rendered != NonStream(items) || changed || |kept| != |taken| then Rebuild(items, kept)
    else b.(authoritative := items, streams := kept)
  }

  function AllShown(partials: seq<PartialView>): (streams: seq<Stream>)
    ensures |streams| == |partials|
  {
    seq(|partials|, i requires 0 <= i < |partials| =>
      Stream(partials[i], partials[i].text, CodePoints(partials[i].text), |CodePoints(partials[i].text)|, partials[i].text, DRAIN_TICKS, true))
  }

  function DropFormal(items: seq<Item>, streams: seq<Stream>): seq<Stream> {
    if |streams| == 0 then []
    else
      DropFormal(items, streams[..|streams| - 1])
      + if Supersedes(items, streams[|streams| - 1].partial) then [] else [streams[|streams| - 1]]
  }

  function Reset(items: seq<Item>): Buffer {
    Rebuild(items, DropFormal(items, AllShown(CurrentPartials(items))))
  }

  function TickAll(streams: seq<Stream>): (seq<Stream>, bool) {
    if |streams| == 0 then ([], false)
    else
      var (before, changed) := TickAll(streams[..|streams| - 1]);
      var (s, more) := Tick(streams[|streams| - 1]);
      (before + [s], changed || more)
  }

  function DropDrained(items: seq<Item>, streams: seq<Stream>): seq<Stream> {
    if |streams| == 0 then []
    else
      var last := streams[|streams| - 1];
      DropDrained(items, streams[..|streams| - 1]) + if Supersedes(items, last.partial) && Drained(last) then [] else [last]
  }

  function Advance(b: Buffer): Buffer {
    var (ticked, changed) := TickAll(b.streams);
    var kept := DropDrained(b.authoritative, ticked);
    if changed || |kept| != |ticked| then Rebuild(b.authoritative, kept) else b.(streams := kept)
  }

  predicate HasPending(b: Buffer) {
    exists i :: 0 <= i < |b.streams| && !Drained(b.streams[i])
  }

  method UpdateStreams(streams: seq<Stream>, partials: seq<PartialView>) returns (taken: seq<Stream>, changed: bool)
    ensures (taken, changed) == TakePartials(streams, partials)
  {
    hide TakePartial;
    taken, changed := streams, false;
    for i := 0 to |partials|
      invariant (taken, changed) == TakePartials(streams, partials[..i])
    {
      assert partials[..i + 1][..i] == partials[..i];
      var (after, more) := TakePartial(taken, partials[i]);
      taken := after;
      changed := changed || more;
    }
    assert partials[..|partials|] == partials;
  }

  method RetainStreams(items: seq<Item>, streams: seq<Stream>) returns (kept: seq<Stream>, changed: bool)
    ensures kept == Keep(items, streams) && changed == (|kept| != |streams|)
  {
    hide Stays;
    kept, changed := [], false;
    for i := 0 to |streams|
      invariant kept == Keep(items, streams[..i]) && |kept| <= i && changed == (|kept| != i)
    {
      assert streams[..i + 1][..i] == streams[..i];
      if Stays(items, streams[i]) {
        kept := kept + [streams[i]];
      } else {
        changed := true;
      }
    }
    assert streams[..|streams|] == streams;
  }

  class DisplayBuffer {
    var authoritative: seq<Item>
    var displayed: seq<Item>
    var renderedNonStreamTokens: seq<Item>
    var streams: seq<Stream>

    function State(): Buffer
      reads this
    {
      Buffer(authoritative, displayed, renderedNonStreamTokens, streams)
    }

    constructor ()
      ensures State() == Empty
    {
      authoritative, displayed, renderedNonStreamTokens, streams := [], [], [], [];
    }

    method Refresh()
      modifies this
      ensures State() == Rebuild(old(authoritative), old(streams))
    {
      displayed := BuildSnapshot(authoritative, streams);
      renderedNonStreamTokens := NonStream(authoritative);
    }

    method IngestItems(items: seq<Item>)
      modifies this
      ensures State() == Ingest(old(State()), items)
    {
      hide TakePartials, Keep, CurrentPartials, NonStream, BuildSnapshot;
      authoritative := items;
      var tokensChanged := renderedNonStreamTokens != NonStream(items);
      var taken, changed := UpdateStreams(Unseen(streams), CurrentPartials(items));
      var kept, dropped := RetainStreams(items, taken);
      streams := kept;
      if tokensChanged || changed || dropped {
        Refresh();
      }
    }

    method ResetItems(items: seq<Item>)
      modifies this
      ensures State() == Reset(items)
    {
      authoritative := items;
      streams := DropFormal(items, AllShown(CurrentPartials(items)));
      Refresh();
    }

    method AdvanceTick()
      modifies this
      ensures State() == Advance(old(State()))
    {
      var ticked := [];
      var changed := false;
      for i := 0 to |streams|
        invariant State() == old(State()) && (ticked, changed) == TickAll(streams[..i])
      {
        assert streams[..i + 1][..i] == streams[..i];
        var (s, more) := Tick(streams[i]);
        ticked := ticked + [s];
        changed := changed || more;
      }
      assert streams[..|streams|] == streams;
      ghost var released := changed;
      var kept := [];
      for i := 0 to |ticked|
        invariant State() == old(State())
        invariant kept == DropDrained(authoritative, ticked[..i]) && |kept| <= i && changed == (released || |kept| != i)
      {
        assert ticked[..i + 1][..i] == ticked[..i];
        if Supersedes(authoritative, ticked[i].partial) && Drained(ticked[i]) {
          changed := true;
        } else {
          kept := kept + [ticked[i]];
        }
      }
      assert ticked[..|ticked|] == ticked;
      streams := kept;
      if changed {
        Refresh();
      }
    }
  }

  // ----- Segmentation -----

  lemma {:induction false} JoinPoints(text: Text)
    ensures Join(CodePoints(text)) == text
    decreases |text|
  {
    if |text| > 0 {
      var n := FirstLength(text);
      JoinPoints(text[n..]);
      assert CodePoints(text)[1..] == CodePoints(text[n..]);
      assert text == text[..n] + text[n..];
    }
  }

  lemma {:induction false} SomePoints(text: Text)
    requires |text| > 0
    ensures |CodePoints(text)| > 0
    ensures FirstLength(text) == |text| ==> CodePoints(text) == [text]
    ensures FirstLength(text) < |text| ==> |CodePoints(text[FirstLength(text)..])| > 0
  {
    if FirstLength(text) == |text| {
      assert text[|text|..] == [] && text[..|text|] == text;
      assert CodePoints(text[|text|..]) == [];
    }
  }

  lemma {:induction false} FirstOfLonger(text: Text, suffix: Text)
    requires |text| > 0
    ensures FirstLength(text) < |text| ==> FirstLength(text + suffix) == FirstLength(text)
    ensures FirstLength(text) == |text| ==> FirstLength(text + suffix) >= |text|
  {
  }

  lemma {:induction false} PointsOfLonger(text: Text, suffix: Text)
    requires |text| > 0 && FirstLength(text) < |text|
    ensures CodePoints(text + suffix) == [text[..FirstLength(text)]] + CodePoints(text[FirstLength(text)..] + suffix)
  {
    var n := FirstLength(text);
    FirstOfLonger(text, suffix);
    assert (text + suffix)[..n] == text[..n] && (text + suffix)[n..] == text[n..] + suffix;
  }

  lemma {:induction false} AppendAfter(head: Text, rest: seq<Text>, suffix: Text)
    requires |rest| > 0
    ensures AppendGraphemes([head] + rest, suffix) == [head] + AppendGraphemes(rest, suffix)
  {
    hide CodePoints;
    var all := [head] + rest;
    assert all[|all| - 1] == rest[|rest| - 1] && all[..|all| - 1] == [head] + rest[..|rest| - 1];
  }

  /** Segmenting from the last segment on gives what segmenting from scratch gives. */
  lemma {:induction false} AppendIsSegmentation(text: Text, suffix: Text)
    ensures AppendGraphemes(CodePoints(text), suffix) == CodePoints(text + suffix)
    decreases |text|
  {
    if |text| == 0 {
      assert text + suffix == suffix;
    } else {
      var n := FirstLength(text);
      SomePoints(text);
      if n == |text| {
        assert [text][..0] == [];
      } else {
        AppendIsSegmentation(text[n..], suffix);
        AppendAfter(text[..n], CodePoints(text[n..]), suffix);
        PointsOfLonger(text, suffix);
      }
    }
  }

  lemma {:induction false} LongerFirst(text: Text, suffix: Text)
    requires |text| > 0 && FirstLength(text) == |text|
    ensures |CodePoints(text + suffix)| >= 1
    ensures Join([text]) <= Join(CodePoints(text + suffix)[..1])
  {
    FirstOfLonger(text, suffix);
    SomePoints(text + suffix);
    var all := text + suffix;
    var m := FirstLength(all);
    assert CodePoints(all)[..1] == [all[..m]];
    assert text == all[..|text|] && all[..m][..|text|] == all[..|text|];
    assert [text][1..] == [] && [all[..m]][1..] == [];
    assert Join([text]) == text && Join([all[..m]]) == all[..m];
  }

  lemma {:induction false} JoinAfter(head: Text, a: seq<Text>, b: seq<Text>)
    requires Join(a) <= Join(b)
    ensures Join([head] + a) <= Join([head] + b)
  {
    assert ([head] + a)[1..] == a && ([head] + b)[1..] == b;
  }

  /** The first code points of a longer text cover at least as much. */
  lemma {:induction false} PointsGrow(text: Text, suffix: Text, i: nat)
    requires i <= |CodePoints(text)|
    ensures |CodePoints(text)| <= |CodePoints(text + suffix)|
    ensures Join(CodePoints(text)[..i]) <= Join(CodePoints(text + suffix)[..i])
    decreases |text|
  {
    if |text| > 0 {
      var n := FirstLength(text);
      SomePoints(text);
      if n == |text| {
        LongerFirst(text, suffix);
        assert i == 1 ==> [text][..1] == [text];
      } else {
        PointsOfLonger(text, suffix);
        var head, rest, longer := text[..n], CodePoints(text[n..]), CodePoints(text[n..] + suffix);
        PointsGrow(text[n..], suffix, if i == 0 then 0 else i - 1);
        if i > 0 {
          assert ([head] + rest)[..i] == [head] + rest[..i - 1] && ([head] + longer)[..i] == [head] + longer[..i - 1];
          JoinAfter(head, rest[..i - 1], longer[..i - 1]);
        }
      }
    }
  }
}
