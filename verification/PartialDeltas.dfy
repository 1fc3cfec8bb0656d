/**
 Streaming text: the extension cuts a delta into pieces of bounded length without splitting a surrogate pair, the
 browser appends what arrives. Whatever the cuts, and wherever status frames fall, the text arrives unchanged.
 */
module PartialDeltas {
  import opened Bytes

  /** UTF-16 code units. */
  type CodeUnit = x: int | 0 <= x < 0x1_0000

  type Text = seq<CodeUnit>

  predicate IsHigh(u: CodeUnit) { 0xD800 <= u <= 0xDBFF }

  predicate IsLow(u: CodeUnit) { 0xDC00 <= u <= 0xDFFF }

  const MAX_PARTIAL_DELTA_CHARS := 64 * 1024

  // ----- Cutting -----

  function PieceEnd(delta: Text, offset: nat): (end: nat)
    requires offset < |delta|
    ensures offset < end <= |delta|
  {
    var end := if |delta| < offset + MAX_PARTIAL_DELTA_CHARS then |delta| else offset + MAX_PARTIAL_DELTA_CHARS;
    if end < |delta| && IsHigh(delta[end - 1]) && IsLow(delta[end]) then end - 1 else end
  }

  function Pieces(delta: Text, offset: nat): seq<Text>
    requires offset <= |delta|
    decreases |delta| - offset
  {
    if offset == |delta| then [] else [delta[offset..PieceEnd(delta, offset)]] + Pieces(delta, PieceEnd(delta, offset))
  }

  method PartialDeltaChunks(delta: Text) returns (chunks: seq<Text>)
    ensures chunks == Pieces(delta, 0)
  {
    chunks := [];
    var offset := 0;
    while offset < |delta|
      invariant offset <= |delta|
      invariant chunks + Pieces(delta, offset) == Pieces(delta, 0)
    {
      var end := if |delta| < offset + MAX_PARTIAL_DELTA_CHARS then |delta| else offset + MAX_PARTIAL_DELTA_CHARS;
      if end < |delta| && IsHigh(delta[end - 1]) && IsLow(delta[end]) {
        end := end - 1;
      }
      assert Pieces(delta, offset) == [delta[offset..end]] + Pieces(delta, end);
      chunks := chunks + [delta[offset..end]];
      offset := end;
    }
  }

  function Join(pieces: seq<Text>): Text {
    if |pieces| == 0 then [] else pieces[0] + Join(pieces[1..])
  }

  /** No surrogate pair has its halves in different pieces. */
  ghost predicate PairsWhole(pieces: seq<Text>) {
    forall i :: 0 <= i < |pieces| - 1 && |pieces[i]| > 0 && |pieces[i + 1]| > 0 ==>
      !(IsHigh(pieces[i][|pieces[i]| - 1]) && IsLow(pieces[i + 1][0]))
  }

  lemma {:induction false} PiecesFit(delta: Text, offset: nat)
    requires offset <= |delta|
    ensures forall i :: 0 <= i < |Pieces(delta, offset)| ==> 1 <= |Pieces(delta, offset)[i]| <= MAX_PARTIAL_DELTA_CHARS
    ensures Join(Pieces(delta, offset)) == delta[offset..]
    decreases |delta| - offset
  {
    if offset < |delta| {
      var end := PieceEnd(delta, offset);
      PiecesFit(delta, end);
      assert delta[offset..] == delta[offset..end] + delta[end..];
      assert Pieces(delta, offset)[1..] == Pieces(delta, end);
    }
  }

  lemma {:induction false} PieceEndsWhole(delta: Text, offset: nat)
    requires offset < |delta| && PieceEnd(delta, offset) < |delta|
    ensures var end := PieceEnd(delta, offset); !(IsHigh(delta[end - 1]) && IsLow(delta[end]))
  {
  }

  lemma {:induction false} PiecesKeepPairs(delta: Text, offset: nat)
    requires offset <= |delta|
    ensures PairsWhole(Pieces(delta, offset))
    decreases |delta| - offset
  {
    if offset < |delta| {
      var end := PieceEnd(delta, offset);
      PiecesKeepPairs(delta, end);
      if end < |delta| {
        PieceEndsWhole(delta, offset);
        assert Pieces(delta, end)[0] == delta[end..PieceEnd(delta, end)];
      }
    }
  }

  // ----- Frames -----

  datatype Status = Running | Delta

  /** A partial frame, or the browser's merged view of one stream; `blocks` replaces all text before it. */
  datatype Partial = Partial(status: Status, delta: Option<Text>, blocks: Option<Text>)

  /** What the model provider reports about one stream. */
  datatype Update = Started | Added(text: Text)

  function FramesOf(pieces: seq<Text>): (frames: seq<Partial>)
    ensures |frames| == |pieces|
  {
    seq(|pieces|, i requires 0 <= i < |pieces| => Partial(Delta, Some(pieces[i]), None))
  }

  /** An empty delta publishes nothing. */
  function Publish(update: Update): seq<Partial> {
    match update
    case Started => [Partial(Running, None, None)]
    case Added(text) => FramesOf(Pieces(text, 0))
  }

  function PublishAll(updates: seq<Update>): seq<Partial> {
    if |updates| == 0 then [] else PublishAll(updates[..|updates| - 1]) + Publish(updates[|updates| - 1])
  }

  function MergePartial(previous: Option<Partial>, next: Partial): Partial {
    if previous.None? || next.blocks.Some? then next
    else if next.delta.None? then Partial(next.status, previous.value.delta, next.blocks)
    else
      var before := if previous.value.delta.Some? then previous.value.delta.value else [];
      Partial(next.status, Some(before + next.delta.value), next.blocks)
  }

  function MergeAll(previous: Option<Partial>, frames: seq<Partial>): Option<Partial> {
    if |frames| == 0 then previous
    else Some(MergePartial(MergeAll(previous, frames[..|frames| - 1]), frames[|frames| - 1]))
  }

  /** The text a merged partial shows. */
  function TextOf(partial: Option<Partial>): Text {
    match partial
    case None => []
    case Some(p) => if p.blocks.Some? then p.blocks.value else if p.delta.Some? then p.delta.value else []
  }

  function Written(updates: seq<Update>): Text {
    if |updates| == 0 then []
    else Written(updates[..|updates| - 1]) + if updates[|updates| - 1].Added? then updates[|updates| - 1].text else []
  }

  ghost predicate NoBlocks(partial: Option<Partial>) {
    partial.Some? ==> partial.value.blocks.None?
  }

  lemma {:induction false} MergeJoin(previous: Option<Partial>, a: seq<Partial>, b: seq<Partial>)
    ensures MergeAll(previous, a + b) == MergeAll(MergeAll(previous, a), b)
  {
    if |b| == 0 {
      assert a + b == a;
    } else {
      assert (a + b)[..|a + b| - 1] == a + b[..|b| - 1];
      MergeJoin(previous, a, b[..|b| - 1]);
    }
  }

  lemma {:induction false} JoinLast(pieces: seq<Text>)
    requires |pieces| > 0
    ensures Join(pieces) == Join(pieces[..|pieces| - 1]) + pieces[|pieces| - 1]
  {
    if |pieces| > 1 {
      JoinLast(pieces[1..]);
      assert pieces[1..][..|pieces| - 2] == pieces[..|pieces| - 1][1..];
    }
  }

  lemma {:induction false} MergePieces(previous: Option<Partial>, pieces: seq<Text>)
    requires NoBlocks(previous)
    ensures NoBlocks(MergeAll(previous, FramesOf(pieces)))
    ensures TextOf(MergeAll(previous, FramesOf(pieces))) == TextOf(previous) + Join(pieces)
  {
    if |pieces| > 0 {
      var front := pieces[..|pieces| - 1];
      MergePieces(previous, front);
      JoinLast(pieces);
      assert FramesOf(pieces)[..|pieces| - 1] == FramesOf(front);
    }
  }

  lemma {:induction false} MergeStatus(previous: Option<Partial>)
    requires NoBlocks(previous)
    ensures NoBlocks(MergeAll(previous, Publish(Started))) && TextOf(MergeAll(previous, Publish(Started))) == TextOf(previous)
  {
    assert MergeAll(previous, Publish(Started)[..0]) == previous;
  }

  /** Folding the published frames gives the concatenation of all deltas, wherever status frames fall. */
  lemma {:induction false} TextArrives(updates: seq<Update>)
    ensures NoBlocks(MergeAll(None, PublishAll(updates)))
    ensures TextOf(MergeAll(None, PublishAll(updates))) == Written(updates)
  {
    if |updates| > 0 {
      var front, last := updates[..|updates| - 1], updates[|updates| - 1];
      TextArrives(front);
      MergeJoin(None, PublishAll(front), Publish(last));
      match last
      case Started => MergeStatus(MergeAll(None, PublishAll(front)));
      case Added(text) =>
        MergePieces(MergeAll(None, PublishAll(front)), Pieces(text, 0));
        PiecesFit(text, 0);
    }
  }
}
