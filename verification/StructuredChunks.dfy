/** Packing parsed blocks into chunks: a heading starts a chunk, blocks are added while
  * they fit, and a chunk ended for want of room is followed by one that repeats some of
  * its last blocks. Lengths are counted in code points. */
module StructuredChunks {

  import opened ChunkSizes

  datatype Block = Block(heading: bool, text: string, level: int, byteStart: nat, byteEnd: nat)

  datatype Chunk = Chunk(text: string, byteStart: nat, byteEnd: nat, indexes: seq<nat>, headerPath: string)

  const NOCHUNK := Chunk("", 0, 0, [], "")

  // ---- Texts and spans ----

  /** The texts of blocks `a` to `b`, newlines between. */
  function Join(blocks: seq<Block>, a: nat, b: nat): string
    requires b <= |blocks|
  {
    if a >= b then ""
    else if b == a + 1 then blocks[a].text
    else Join(blocks, a, b - 1) + "\n" + blocks[b - 1].text
  }

  function Range(a: nat, b: nat): (r: seq<nat>)
    ensures |r| == if a <= b then b - a else 0
    ensures forall k :: 0 <= k < |r| ==> r[k] == a + k
  {
    if a >= b then [] else Range(a, b - 1) + [b - 1]
  }

  ghost predicate Good(blocks: seq<Block>) {
    forall i :: 0 <= i < |blocks| ==> blocks[i].text != ""
  }

  predicate ValidLevel(b: Block) {
    b.heading ==> 1 <= b.level <= 6
  }

  /** The earliest of blocks `a` to `b` from which on they fit the budget, newlines included. */
  function OverlapStart(blocks: seq<Block>, a: nat, b: nat, budget: int): (o: nat)
    requires a <= b <= |blocks|
    ensures a <= o <= b
  {
    if a == b || |blocks[b - 1].text| > budget then b
    else OverlapStart(blocks, a, b - 1, budget - |blocks[b - 1].text| - 1)
  }

  function Budget(blocks: seq<Block>, size: nat, overlap: nat, next: nat): int
    requires next < |blocks|
  {
    var remaining := size - |blocks[next].text| - 1;
    if overlap > remaining then remaining else overlap
  }

  /** A chunk of blocks `a` to `b`; those before `own` repeat the chunk before it. */
  datatype Span = Span(a: nat, own: nat, b: nat)

  ghost predicate Fits(blocks: seq<Block>, size: nat, a: nat, b: nat)
    requires b <= |blocks|
  {
    |Join(blocks, a, b)| <= size
  }

  /** Every block after the first of its own is no heading and fits. */
  ghost predicate Grown(blocks: seq<Block>, size: nat, s: Span) {
    && s.a <= s.own < s.b <= |blocks|
    && (forall m :: s.own < m < s.b ==> !blocks[m].heading && Fits(blocks, size, s.a, m + 1))
  }

  /** A chunk ends only before a heading, or before a block that does not fit. */
  ghost predicate Closed(blocks: seq<Block>, size: nat, s: Span)
    requires s.b < |blocks|
  {
    blocks[s.b].heading || |Join(blocks, s.a, s.b)| + 1 + |blocks[s.b].text| > size
  }

  /** Where the chunk after `s` starts: at the heading, or at the repeated blocks. */
  ghost function NextStart(blocks: seq<Block>, size: nat, overlap: nat, s: Span): nat
    requires s.a <= s.b < |blocks|
  {
    if blocks[s.b].heading then s.b else OverlapStart(blocks, s.a, s.b, Budget(blocks, size, overlap, s.b))
  }

  ghost predicate Follows(blocks: seq<Block>, size: nat, overlap: nat, s: Span, t: Span) {
    && s.a <= s.b < |blocks| && Closed(blocks, size, s)
    && t.own == s.b && t.a == NextStart(blocks, size, overlap, s)
  }

  ghost predicate Chain(blocks: seq<Block>, size: nat, overlap: nat, spans: seq<Span>) {
    && (spans != [] ==> spans[0].a == 0 && spans[0].own == 0)
    && (forall k :: 0 <= k < |spans| ==> Grown(blocks, size, spans[k]))
    && (forall k :: 0 <= k < |spans| - 1 ==> Follows(blocks, size, overlap, spans[k], spans[k + 1]))
  }

  /** The division of all blocks; it is the only one for its blocks, size and overlap. */
  ghost predicate Divides(blocks: seq<Block>, size: nat, overlap: nat, spans: seq<Span>) {
    && Chain(blocks, size, overlap, spans)
    && (if blocks == [] then spans == [] else spans != [] && spans[|spans| - 1].b == |blocks|)
  }

  // ---- Header paths ----

  /** The text of the latest heading of a level among the first `n` blocks. */
  function Latest(blocks: seq<Block>, n: nat, level: int): string
    requires n <= |blocks|
  {
    if n == 0 then ""
    else if blocks[n - 1].heading && blocks[n - 1].level == level then blocks[n - 1].text
    else Latest(blocks, n - 1, level)
  }

  /** The level of the latest heading, or 0. */
  function Depth(blocks: seq<Block>, n: nat): int
    requires n <= |blocks|
  {
    if n == 0 then 0 else if blocks[n - 1].heading then blocks[n - 1].level else Depth(blocks, n - 1)
  }

  function Separated(parts: seq<string>): string {
    if parts == [] then "" else if |parts| == 1 then parts[0] else Separated(parts[..|parts| - 1]) + " › " + parts[|parts| - 1]
  }

  /** What the headings seen so far make: the latest text of each level down to the current one. */
  function Headers(blocks: seq<Block>, n: nat): seq<string>
    requires n <= |blocks|
  {
    var d := Depth(blocks, n);
    seq(if d < 0 then 0 else d, j requires 0 <= j => Latest(blocks, n, j + 1))
  }

  ghost predicate ChunkIs(blocks: seq<Block>, c: Chunk, a: nat, b: nat) {
    && a < b <= |blocks|
    && c.text == Join(blocks, a, b) && c.indexes == Range(a, b)
    && c.byteStart == blocks[a].byteStart && c.byteEnd == blocks[b - 1].byteEnd
  }

  ghost predicate ChunksAre(blocks: seq<Block>, out: seq<Chunk>, spans: seq<Span>) {
    && |out| == |spans|
    && (forall k :: 0 <= k < |spans| ==>
          ChunkIs(blocks, out[k], spans[k].a, spans[k].b) && out[k].headerPath == Separated(Headers(blocks, spans[k].b)))
  }

  // ---- The code ----

  ghost predicate Known(blocks: seq<Block>, indexes: seq<nat>) {
    forall k :: 0 <= k < |indexes| ==> indexes[k] < |blocks|
  }

  /** The indexes from `b` back to `o`. */
  ghost predicate Backward(indexes: seq<nat>, o: nat, b: nat) {
    o <= b && |indexes| == b - o && forall k :: 0 <= k < |indexes| ==> indexes[k] == b - 1 - k
  }

  ghost predicate IsSpan(blocks: seq<Block>, indexes: seq<nat>, a: nat, b: nat) {
    a < b <= |blocks| && indexes == Range(a, b)
  }

  /** The trailing blocks of a chunk that fit the budget, latest first. */
  method Trailing(blocks: seq<Block>, last: seq<nat>, budget: int, ghost a: nat, ghost b: nat) returns (indexes: seq<nat>)
    requires Known(blocks, last)
    ensures Known(blocks, indexes)
    ensures IsSpan(blocks, last, a, b) ==> Backward(indexes, OverlapStart(blocks, a, b, budget), b)
  {
    indexes := [];
    var left := budget;
    var n := |last|;
    while n > 0
      invariant 0 <= n <= |last| && Known(blocks, indexes)
      invariant IsSpan(blocks, last, a, b) ==>
                  Backward(indexes, a + n, b) && OverlapStart(blocks, a, b, budget) == OverlapStart(blocks, a, a + n, left)
    {
      var count := |blocks[last[n - 1]].text|;
      if count > left { return; }
      indexes := indexes + [last[n - 1]];
      left := left - count - 1;
      n := n - 1;
    }
  }

  /** Starts a chunk with those blocks, back in order. */
  method Repeat(blocks: seq<Block>, indexes: seq<nat>, ghost o: nat, ghost b: nat) returns (current: Chunk)
    requires Known(blocks, indexes)
    ensures Known(blocks, current.indexes)
    ensures indexes == [] ==> current == NOCHUNK
    ensures Good(blocks) && Backward(indexes, o, b) && o < b <= |blocks| ==> ChunkIs(blocks, current, o, b) && current.text != ""
  {
    current := NOCHUNK;
    var n := |indexes|;
    while n > 0
      invariant 0 <= n <= |indexes| && Known(blocks, current.indexes)
      invariant n == |indexes| ==> current == NOCHUNK
      invariant Good(blocks) && Backward(indexes, o, b) && b <= |blocks| && n < |indexes| ==>
                  ChunkIs(blocks, current, o, b - n) && current.text != ""
    {
      var idx := indexes[n - 1];
      ghost var before := current;
      current := Added(blocks, current, idx);
      if Good(blocks) && Backward(indexes, o, b) && b <= |blocks| { AddedIs(blocks, before, o, b - n); }
      n := n - 1;
    }
  }

  /** A chunk with one more block. */
  function Added(blocks: seq<Block>, current: Chunk, idx: nat): Chunk
    requires idx < |blocks|
  {
    Chunk(if current.text == "" then blocks[idx].text else current.text + "\n" + blocks[idx].text,
          if current.text == "" then blocks[idx].byteStart else current.byteStart,
          blocks[idx].byteEnd, current.indexes + [idx], current.headerPath)
  }

  lemma AddedIs(blocks: seq<Block>, current: Chunk, a: nat, b: nat)
    requires b < |blocks| && blocks[b].text != ""
    requires if a == b then current == NOCHUNK else ChunkIs(blocks, current, a, b) && current.text != ""
    ensures ChunkIs(blocks, Added(blocks, current, b), a, b + 1) && Added(blocks, current, b).text != ""
  {
  }

  ghost predicate Levels(blocks: seq<Block>) {
    forall i :: 0 <= i < |blocks| ==> ValidLevel(blocks[i])
  }

  function EffectiveOverlap(size: nat, overlap: int): (n: nat)
    ensures (0 <= overlap < size ==> n == overlap) && (!(0 <= overlap < size) ==> n == 0)
  {
    if overlap < 0 || overlap >= size then 0 else overlap
  }

  /** After `i` blocks: the closed chunks, and the one still open. */
  ghost predicate Progress(blocks: seq<Block>, size: nat, overlap: nat, out: seq<Chunk>, current: Chunk, spans: seq<Span>, cur: Span, i: nat) {
    && i <= |blocks|
    && (if i == 0 then out == [] && current == NOCHUNK && spans == []
        else current.text != "" && ChunkIs(blocks, current, cur.a, i) && cur.b == i
             && Chain(blocks, size, overlap, spans + [cur]) && ChunksAre(blocks, out, spans))
  }

  lemma ChainGrow(blocks: seq<Block>, size: nat, overlap: nat, spans: seq<Span>, cur: Span)
    requires Chain(blocks, size, overlap, spans + [cur]) && cur.b < |blocks|
    requires !blocks[cur.b].heading && Fits(blocks, size, cur.a, cur.b + 1)
    ensures Chain(blocks, size, overlap, spans + [cur.(b := cur.b + 1)])
  {
    var old', new' := spans + [cur], spans + [cur.(b := cur.b + 1)];
    assert Grown(blocks, size, old'[|spans|]);
    forall k | 0 <= k < |new'| ensures Grown(blocks, size, new'[k]) {
      if k < |spans| { assert new'[k] == old'[k]; }
    }
    forall k | 0 <= k < |new'| - 1 ensures Follows(blocks, size, overlap, new'[k], new'[k + 1]) {
      assert Follows(blocks, size, overlap, old'[k], old'[k + 1]);
    }
    assert spans != [] ==> new'[0] == old'[0];
  }

  lemma ChainNext(blocks: seq<Block>, size: nat, overlap: nat, spans: seq<Span>, cur: Span)
    requires Chain(blocks, size, overlap, spans + [cur]) && cur.a <= cur.b < |blocks| && Closed(blocks, size, cur)
    ensures Chain(blocks, size, overlap, spans + [cur] + [Span(NextStart(blocks, size, overlap, cur), cur.b, cur.b + 1)])
  {
    var old', next := spans + [cur], Span(NextStart(blocks, size, overlap, cur), cur.b, cur.b + 1);
    var new' := old' + [next];
    forall k | 0 <= k < |new'| ensures Grown(blocks, size, new'[k]) {
      if k < |old'| { assert new'[k] == old'[k]; }
    }
    forall k | 0 <= k < |new'| - 1 ensures Follows(blocks, size, overlap, new'[k], new'[k + 1]) {
      if k < |spans| { assert Follows(blocks, size, overlap, old'[k], old'[k + 1]); }
    }
  }

  lemma ChunksNext(blocks: seq<Block>, out: seq<Chunk>, spans: seq<Span>, c: Chunk, cur: Span)
    requires ChunksAre(blocks, out, spans) && ChunkIs(blocks, c, cur.a, cur.b) && c.headerPath == Separated(Headers(blocks, cur.b))
    ensures ChunksAre(blocks, out + [c], spans + [cur])
  {
  }

  lemma NoBudgetNoRepeat(blocks: seq<Block>, a: nat, b: nat, budget: int)
    requires Good(blocks) && a <= b <= |blocks| && budget <= 0
    ensures OverlapStart(blocks, a, b, budget) == b
  {
  }

  /** The room-making branch: `current` is closed, and its trailing blocks may be repeated. */
  method MakeRoom(blocks: seq<Block>, size: nat, overlap: nat, current: Chunk, i: nat, ghost a: nat) returns (next: Chunk)
    requires i < |blocks| && Known(blocks, current.indexes)
    ensures Known(blocks, next.indexes)
    ensures blocks[i].heading ==> next == NOCHUNK
    ensures Good(blocks) && !blocks[i].heading && ChunkIs(blocks, current, a, i) ==>
              var o := OverlapStart(blocks, a, i, Budget(blocks, size, overlap, i));
              if o == i then next == NOCHUNK else ChunkIs(blocks, next, o, i) && next.text != ""
  {
    next := NOCHUNK;
    if overlap > 0 && !blocks[i].heading {
      var budget := overlap;
      var remaining := size - |blocks[i].text| - 1;
      if budget > remaining { budget := remaining; }
      if budget > 0 {
        var indexes := Trailing(blocks, current.indexes, budget, a, i);
        ghost var o := if a <= i then OverlapStart(blocks, a, i, budget) else 0;
        next := Repeat(blocks, indexes, o, i);
        return;
      }
    }
    if Good(blocks) && a <= i && !blocks[i].heading { NoBudgetNoRepeat(blocks, a, i, Budget(blocks, size, overlap, i)); }
  }

  /** The header slice and its backing array after the first `n` blocks. */
  ghost predicate SlotsAre(blocks: seq<Block>, slots: seq<string>, depth: int, n: nat) {
    && n <= |blocks| && |slots| == 6 && 0 <= depth <= 6 && depth == Depth(blocks, n)
    && (forall j :: 0 <= j < 6 ==> slots[j] == Latest(blocks, n, j + 1))
  }

  lemma SlotsMake(blocks: seq<Block>, slots: seq<string>, depth: int, n: nat)
    requires SlotsAre(blocks, slots, depth, n)
    ensures slots[..depth] == Headers(blocks, n)
  {
  }

  lemma StartsFirst(blocks: seq<Block>, size: nat, overlap: nat)
    requires blocks != [] && Good(blocks)
    ensures Progress(blocks, size, overlap, [], Added(blocks, NOCHUNK, 0), [], Span(0, 0, 1), 1)
  {
    AddedIs(blocks, NOCHUNK, 0, 0);
    assert [] + [Span(0, 0, 1)] == [Span(0, 0, 1)];
  }

  lemma ExtendsChunk(blocks: seq<Block>, size: nat, overlap: nat, out: seq<Chunk>, current: Chunk, spans: seq<Span>, cur: Span, i: nat)
    requires Good(blocks) && 0 < i < |blocks| && Progress(blocks, size, overlap, out, current, spans, cur, i)
    requires !blocks[i].heading && |current.text| + 1 + |blocks[i].text| <= size
    ensures Progress(blocks, size, overlap, out, Added(blocks, current, i), spans, cur.(b := i + 1), i + 1)
  {
    AddedIs(blocks, current, cur.a, i);
    ChainGrow(blocks, size, overlap, spans, cur);
  }

  lemma StartsNext(blocks: seq<Block>, size: nat, overlap: nat, out: seq<Chunk>, current: Chunk, spans: seq<Span>, cur: Span, i: nat,
                   path: string, next: Chunk)
    requires Good(blocks) && 0 < i < |blocks| && Progress(blocks, size, overlap, out, current, spans, cur, i)
    requires blocks[i].heading || |current.text| + 1 + |blocks[i].text| > size
    requires path == Separated(Headers(blocks, i))
    requires var o := NextStart(blocks, size, overlap, cur);
             if o == i then next == NOCHUNK else ChunkIs(blocks, next, o, i) && next.text != ""
    ensures Progress(blocks, size, overlap, out + [current.(headerPath := path)], Added(blocks, next, i), spans + [cur],
                     Span(NextStart(blocks, size, overlap, cur), i, i + 1), i + 1)
  {
    AddedIs(blocks, next, NextStart(blocks, size, overlap, cur), i);
    ChainNext(blocks, size, overlap, spans, cur);
    ChunksNext(blocks, out, spans, current.(headerPath := path), cur);
  }

  /** Re-slices the headings to the level above and appends: deeper slots keep what they held. */
  method PushHeading(blocks: seq<Block>, slots: array<string>, depth: int, i: nat) returns (d: int)
    requires i < |blocks| && SlotsAre(blocks, slots[..], depth, i) && ValidLevel(blocks[i])
    modifies slots
    ensures SlotsAre(blocks, slots[..], d, i + 1)
  {
    if !blocks[i].heading { return depth; }
    slots[blocks[i].level - 1] := blocks[i].text;
    return blocks[i].level;
  }

  /** What the loop carries from block to block. */
  ghost predicate Carries(blocks: seq<Block>, size: nat, overlap: nat, out: seq<Chunk>, current: Chunk, spans: seq<Span>, cur: Span, i: nat) {
    Known(blocks, current.indexes) && (Good(blocks) ==> Progress(blocks, size, overlap, out, current, spans, cur, i))
  }

  /** One block: close the open chunk if the block is a heading or does not fit, then add it. */
  method AddBlock(blocks: seq<Block>, size: nat, overlap: nat, out0: seq<Chunk>, current0: Chunk, path: string, i: nat,
                  ghost spans0: seq<Span>, ghost cur0: Span)
    returns (out: seq<Chunk>, current: Chunk, ghost spans: seq<Span>, ghost cur: Span)
    requires i < |blocks| && Carries(blocks, size, overlap, out0, current0, spans0, cur0, i) && path == Separated(Headers(blocks, i))
    ensures Carries(blocks, size, overlap, out, current, spans, cur, i + 1)
  {
    out, current, spans, cur := out0, current0, spans0, cur0;
    var add := "\n" + blocks[i].text;
    if current.text != "" && (blocks[i].heading || |current.text| + |add| > size) {
      out := out + [current.(headerPath := path)];
      current := MakeRoom(blocks, size, overlap, current, i, cur.a);
      if Good(blocks) {
        StartsNext(blocks, size, overlap, out0, current0, spans0, cur0, i, path, current);
        spans, cur := spans + [cur], Span(NextStart(blocks, size, overlap, cur), i, i + 1);
      }
    } else if Good(blocks) {
      if i == 0 {
        StartsFirst(blocks, size, overlap);
        cur := Span(0, 0, 1);
      } else {
        ExtendsChunk(blocks, size, overlap, out, current, spans, cur, i);
        cur := cur.(b := i + 1);
      }
    }
    current := Added(blocks, current, i);
  }

  method Finish(blocks: seq<Block>, size: nat, overlap: nat, out0: seq<Chunk>, current: Chunk, path: string,
                ghost spans0: seq<Span>, ghost cur: Span)
    returns (out: seq<Chunk>, ghost spans: seq<Span>)
    requires Carries(blocks, size, overlap, out0, current, spans0, cur, |blocks|) && path == Separated(Headers(blocks, |blocks|))
    ensures Good(blocks) ==> Divides(blocks, size, overlap, spans) && ChunksAre(blocks, out, spans)
  {
    out, spans := out0, spans0;
    if current.text != "" {
      out := out + [current.(headerPath := path)];
      if Good(blocks) {
        ChunksNext(blocks, out0, spans0, current.(headerPath := path), cur);
        spans := spans + [cur];
      }
    }
  }

  method ChunkStructured(blocks: seq<Block>, chunkSize: int, chunkOverlap: int) returns (out: seq<Chunk>, ghost spans: seq<Span>)
    ensures !Levels(blocks) ==> out == []
    ensures Good(blocks) && Levels(blocks) ==>
              && Divides(blocks, EffectiveSize(chunkSize), EffectiveOverlap(EffectiveSize(chunkSize), chunkOverlap), spans)
              && ChunksAre(blocks, out, spans)
  {
    var size := if chunkSize <= 0 then DEFAULT_SIZE else chunkSize;
    var overlap := if chunkOverlap < 0 || chunkOverlap >= size then 0 else chunkOverlap;
    out, spans := [], [];
    ghost var cur := Span(0, 0, 0);
    var current := NOCHUNK;
    var slots := new string[6](_ => "");
    var depth := 0;
    for i := 0 to |blocks|
      invariant SlotsAre(blocks, slots[..], depth, i)
      invariant forall j :: 0 <= j < i ==> ValidLevel(blocks[j])
      invariant Carries(blocks, size, overlap, out, current, spans, cur, i)
    {
      SlotsMake(blocks, slots[..], depth, i);
      if blocks[i].heading && (blocks[i].level < 1 || blocks[i].level > 6) { return [], []; }
      out, current, spans, cur := AddBlock(blocks, size, overlap, out, current, Separated(slots[..depth]), i, spans, cur);
      depth := PushHeading(blocks, slots, depth, i);
    }
    SlotsMake(blocks, slots[..], depth, |blocks|);
    out, spans := Finish(blocks, size, overlap, out, current, Separated(slots[..depth]), spans, cur);
  }

  // ---- What every division keeps ----

  lemma {:induction false} OverlapFits(blocks: seq<Block>, a: nat, b: nat, budget: int)
    requires Good(blocks) && a <= b <= |blocks|
    ensures var o := OverlapStart(blocks, a, b, budget); o < b ==> |Join(blocks, o, b)| <= budget
  {
    if a < b && |blocks[b - 1].text| <= budget {
      OverlapFits(blocks, a, b - 1, budget - |blocks[b - 1].text| - 1);
    }
  }

  lemma SpanFacts(blocks: seq<Block>, size: nat, overlap: nat, spans: seq<Span>, k: nat)
    requires Divides(blocks, size, overlap, spans) && k < |spans|
    ensures spans[k].a <= spans[k].own < spans[k].b <= |blocks|
    ensures if k == 0 then spans[k].a == 0 && spans[k].own == 0
            else spans[k].own == spans[k - 1].b && spans[k - 1].a <= spans[k].a <= spans[k].own
    ensures k + 1 < |spans| ==> spans[k].b < spans[k + 1].b
  {
    assert Grown(blocks, size, spans[k]);
    if k > 0 { assert Follows(blocks, size, overlap, spans[k - 1], spans[k - 1 + 1]); }
    if k + 1 < |spans| {
      assert Follows(blocks, size, overlap, spans[k], spans[k + 1]);
      assert Grown(blocks, size, spans[k + 1]);
    }
  }

  /** Every block is a chunk's own exactly once. */
  lemma EveryBlockOnce(blocks: seq<Block>, size: nat, overlap: nat, spans: seq<Span>, i: nat) returns (k: nat)
    requires Divides(blocks, size, overlap, spans) && i < |blocks|
    ensures k < |spans| && spans[k].own <= i < spans[k].b
    ensures forall j :: 0 <= j < |spans| && spans[j].own <= i < spans[j].b ==> j == k
  {
    k := 0;
    SpanFacts(blocks, size, overlap, spans, 0);
    while i >= spans[k].b
      invariant k < |spans| && spans[k].own <= i
      decreases |spans| - k
    {
      SpanFacts(blocks, size, overlap, spans, k + 1);
      k := k + 1;
    }
    forall j | 0 <= j < |spans| && spans[j].own <= i < spans[j].b ensures j == k {
      if j < k { BoundsGrow(blocks, size, overlap, spans, j, k); } else if k < j { BoundsGrow(blocks, size, overlap, spans, k, j); }
    }
  }

  lemma {:induction false} BoundsGrow(blocks: seq<Block>, size: nat, overlap: nat, spans: seq<Span>, j: nat, k: nat)
    requires Divides(blocks, size, overlap, spans) && j < k < |spans|
    ensures spans[j].b <= spans[k].own && spans[j].b < spans[k].b
  {
    SpanFacts(blocks, size, overlap, spans, k);
    SpanFacts(blocks, size, overlap, spans, k - 1);
    if j < k - 1 { BoundsGrow(blocks, size, overlap, spans, j, k - 1); }
  }

  /** A heading stands only first in its chunk, so an overlap never reaches across one. */
  lemma {:induction false} HeadingsOnlyFirst(blocks: seq<Block>, size: nat, overlap: nat, spans: seq<Span>, k: nat, m: nat)
    requires Divides(blocks, size, overlap, spans) && k < |spans| && spans[k].a < m < spans[k].b
    ensures !blocks[m].heading
  {
    SpanFacts(blocks, size, overlap, spans, k);
    assert Grown(blocks, size, spans[k]);
    if m <= spans[k].own {
      var s := spans[k - 1];
      SpanFacts(blocks, size, overlap, spans, k - 1);
      assert Follows(blocks, size, overlap, s, spans[k - 1 + 1]);
      if m < spans[k].own { HeadingsOnlyFirst(blocks, size, overlap, spans, k - 1, m); }
    }
  }

  /** Repeated blocks fit the overlap and leave room for the block after them, which is no heading. */
  lemma RepeatsFit(blocks: seq<Block>, size: nat, overlap: nat, spans: seq<Span>, k: nat)
    requires Good(blocks) && Divides(blocks, size, overlap, spans) && k < |spans|
    ensures spans[k].a < spans[k].own ==>
              && !blocks[spans[k].own].heading
              && |Join(blocks, spans[k].a, spans[k].own)| <= overlap
              && |Join(blocks, spans[k].a, spans[k].own)| + 1 + |blocks[spans[k].own].text| <= size
  {
    SpanFacts(blocks, size, overlap, spans, k);
    if spans[k].a < spans[k].own {
      assert Follows(blocks, size, overlap, spans[k - 1], spans[k - 1 + 1]);
      OverlapFits(blocks, spans[k - 1].a, spans[k].own, Budget(blocks, size, overlap, spans[k].own));
    }
  }

  /** A chunk exceeds the size only if it is a single block. */
  lemma WithinSizeUnlessSingle(blocks: seq<Block>, size: nat, overlap: nat, spans: seq<Span>, k: nat)
    requires Good(blocks) && Divides(blocks, size, overlap, spans) && k < |spans|
    ensures |Join(blocks, spans[k].a, spans[k].b)| <= size || spans[k].b == spans[k].a + 1
  {
    var s := spans[k];
    SpanFacts(blocks, size, overlap, spans, k);
    assert Grown(blocks, size, s);
    if s.own + 1 < s.b {
      assert Fits(blocks, size, s.a, s.b - 1 + 1);
    } else {
      RepeatsFit(blocks, size, overlap, spans, k);
    }
  }

  /** A chunk ends only at the end, before a heading, or where the next block with its line feed
    * would exceed the size. */
  lemma ChunksAreFull(blocks: seq<Block>, size: nat, overlap: nat, spans: seq<Span>, k: nat)
    requires Divides(blocks, size, overlap, spans) && k < |spans|
    ensures spans[k].a <= spans[k].b <= |blocks|
    ensures spans[k].b < |blocks| ==>
              blocks[spans[k].b].heading || |Join(blocks, spans[k].a, spans[k].b) + "\n" + blocks[spans[k].b].text| > size
  {
    SpanFacts(blocks, size, overlap, spans, k);
    if k + 1 < |spans| { assert Follows(blocks, size, overlap, spans[k], spans[k + 1]); }
  }

  lemma {:induction false} OverlapIsLargest(blocks: seq<Block>, a: nat, b: nat, budget: int)
    requires Good(blocks) && a <= b <= |blocks|
    ensures var o := OverlapStart(blocks, a, b, budget); o > a ==> |Join(blocks, o - 1, b)| > budget
  {
    if a < b && |blocks[b - 1].text| <= budget { OverlapIsLargest(blocks, a, b - 1, budget - |blocks[b - 1].text| - 1); }
  }

  /** A chunk ended for want of room is followed by one that repeats all of its last blocks that fit
    * both the overlap and the room left by the next block: one more would exceed either. */
  lemma RepeatsAllThatFit(blocks: seq<Block>, size: nat, overlap: nat, spans: seq<Span>, k: nat)
    requires Good(blocks) && Divides(blocks, size, overlap, spans) && k + 1 < |spans|
    ensures var s, t := spans[k], spans[k + 1];
            && s.a <= t.a <= t.own == s.b < |blocks|
            && (blocks[s.b].heading ==> t.a == t.own)
            && (!blocks[s.b].heading && s.a < t.a ==>
                  |Join(blocks, t.a - 1, s.b)| > overlap || |Join(blocks, t.a - 1, s.b)| + 1 + |blocks[s.b].text| > size)
  {
    SpanFacts(blocks, size, overlap, spans, k);
    SpanFacts(blocks, size, overlap, spans, k + 1);
    assert Follows(blocks, size, overlap, spans[k], spans[k + 1]);
    OverlapIsLargest(blocks, spans[k].a, spans[k].b, Budget(blocks, size, overlap, spans[k].b));
  }

  /** A chunk's text is the texts of its blocks with a line feed between them. */
  lemma JoinAdds(blocks: seq<Block>, a: nat, b: nat)
    requires a <= b < |blocks|
    ensures Join(blocks, a, b + 1) == if a == b then blocks[a].text else Join(blocks, a, b) + "\n" + blocks[b].text
  {
  }

  /** Blocks, size and overlap determine the division. */
  lemma {:induction false} DivisionIsUnique(blocks: seq<Block>, size: nat, overlap: nat, s: seq<Span>, t: seq<Span>, k: nat)
    requires Divides(blocks, size, overlap, s) && Divides(blocks, size, overlap, t) && k < |s|
    ensures k < |t| && s[k] == t[k]
  {
    if k > 0 {
      DivisionIsUnique(blocks, size, overlap, s, t, k - 1);
      SpanFacts(blocks, size, overlap, s, k);
      SpanFacts(blocks, size, overlap, s, k - 1);
      assert Follows(blocks, size, overlap, s[k - 1], s[k - 1 + 1]);
      assert k < |t|;
      assert Follows(blocks, size, overlap, t[k - 1], t[k - 1 + 1]);
    }
    SpanFacts(blocks, size, overlap, t, k);
    SpanFacts(blocks, size, overlap, s, k);
    SameEnd(blocks, size, overlap, s, t, k);
  }

  lemma SameEnd(blocks: seq<Block>, size: nat, overlap: nat, s: seq<Span>, t: seq<Span>, k: nat)
    requires Divides(blocks, size, overlap, s) && Divides(blocks, size, overlap, t) && k < |s| && k < |t|
    requires s[k].a == t[k].a && s[k].own == t[k].own
    ensures s[k].b == t[k].b
  {
    if s[k].b < t[k].b { EndsNoLater(blocks, size, overlap, s, t, k); }
    if t[k].b < s[k].b { EndsNoLater(blocks, size, overlap, t, s, k); }
  }

  lemma EndsNoLater(blocks: seq<Block>, size: nat, overlap: nat, s: seq<Span>, t: seq<Span>, k: nat)
    requires Divides(blocks, size, overlap, s) && Divides(blocks, size, overlap, t) && k < |s| && k < |t|
    requires s[k].a == t[k].a && s[k].own == t[k].own
    ensures s[k].b >= t[k].b
  {
    SpanFacts(blocks, size, overlap, s, k);
    SpanFacts(blocks, size, overlap, t, k);
    if k + 1 < |s| { assert Follows(blocks, size, overlap, s[k], s[k + 1]); }
    assert s[k].b == |blocks| || Closed(blocks, size, s[k]);
    assert Grown(blocks, size, t[k]);
  }

  // ---- Header paths ----

  /** The position of the latest heading of a level among the first `n` blocks, or -1. */
  function Owner(blocks: seq<Block>, n: nat, level: int): (i: int)
    requires n <= |blocks|
    ensures -1 <= i < n && (i >= 0 ==> blocks[i].heading && blocks[i].level == level)
    ensures forall j :: i < j < n ==> !(blocks[j].heading && blocks[j].level == level)
    ensures Latest(blocks, n, level) == if i >= 0 then blocks[i].text else ""
  {
    if n == 0 then -1
    else if blocks[n - 1].heading && blocks[n - 1].level == level then n - 1
    else Owner(blocks, n - 1, level)
  }

  /** A header path has one entry for each level down to the latest heading's, each the text of the
    * latest heading of that level, or nothing. */
  lemma {:induction false} PathNames(blocks: seq<Block>, n: nat, latest: nat)
    requires latest < n <= |blocks| && Levels(blocks) && blocks[latest].heading && forall j :: latest < j < n ==> !blocks[j].heading
    ensures |Headers(blocks, n)| == blocks[latest].level
    ensures forall l :: 1 <= l <= blocks[latest].level ==>
              Headers(blocks, n)[l - 1] == (if Owner(blocks, n, l) >= 0 then blocks[Owner(blocks, n, l)].text else "")
    decreases n
  {
    assert ValidLevel(blocks[latest]);
    if latest < n - 1 { PathNames(blocks, n - 1, latest); }
  }

  lemma PathText(parts: seq<string>, last: string)
    ensures Separated(parts + [last]) == if parts == [] then last else Separated(parts) + " › " + last
  {
    assert (parts + [last])[..|parts + [last]| - 1] == parts;
  }

  ghost predicate Under(blocks: seq<Block>, n: nat, level: int)
    requires n <= |blocks|
  {
    Owner(blocks, n, level) < Owner(blocks, n, level + 1)
  }

  /** The path names true ancestors: each entry stands under the one before it. */
  ghost predicate Ancestry(blocks: seq<Block>, n: nat)
    requires n <= |blocks|
  {
    && (Depth(blocks, n) > 0 ==> Owner(blocks, n, 1) >= 0)
    && (forall l :: 1 <= l < Depth(blocks, n) ==> Under(blocks, n, l))
  }

  /** No heading among the first `n` blocks goes down more than one level. */
  ghost predicate NoSkip(blocks: seq<Block>, n: nat)
    requires n <= |blocks|
  {
    forall i :: 0 <= i < n && blocks[i].heading ==> blocks[i].level <= Depth(blocks, i) + 1
  }

  lemma {:induction false} DepthOwner(blocks: seq<Block>, n: nat)
    requires n <= |blocks| && Levels(blocks)
    ensures 0 <= Depth(blocks, n) <= 6
    ensures Depth(blocks, n) > 0 ==> Owner(blocks, n, Depth(blocks, n)) >= 0
    ensures forall l :: Owner(blocks, n, l) >= 0 ==> Depth(blocks, n) > 0 && Owner(blocks, n, l) <= Owner(blocks, n, Depth(blocks, n))
  {
    if n > 0 {
      assert ValidLevel(blocks[n - 1]);
      if !blocks[n - 1].heading { DepthOwner(blocks, n - 1); }
    }
  }

  /** A heading that skips a level leaves a slot above it that is empty or older. */
  lemma SkipBreaks(blocks: seq<Block>, n: nat)
    requires n < |blocks| && Levels(blocks) && blocks[n].heading && blocks[n].level > Depth(blocks, n) + 1
    ensures !Ancestry(blocks, n + 1)
  {
    DepthOwner(blocks, n);
    var d := Depth(blocks, n);
    assert Owner(blocks, n + 1, d + 1) == Owner(blocks, n, d + 1);
    if d > 0 { assert !Under(blocks, n + 1, d); }
  }

  lemma StepBuilds(blocks: seq<Block>, n: nat)
    requires n < |blocks| && Levels(blocks) && Ancestry(blocks, n)
    requires blocks[n].heading ==> blocks[n].level <= Depth(blocks, n) + 1
    ensures Ancestry(blocks, n + 1)
  {
    var n' := n + 1;
    if blocks[n].heading {
      assert ValidLevel(blocks[n]);
      var l := blocks[n].level;
      assert Owner(blocks, n', l) == n;
      forall j | 1 <= j < l ensures Under(blocks, n', j) {
        assert Owner(blocks, n', j) == Owner(blocks, n, j);
        assert j + 1 < l ==> Under(blocks, n, j);
      }
    } else {
      forall j | 1 <= j < Depth(blocks, n') ensures Under(blocks, n', j) { assert Under(blocks, n, j); }
    }
  }

  /** Header paths name true ancestors throughout exactly when no heading skips a level;
    * after a skip a path brings back a heading of an earlier section, or an empty name. */
  lemma {:induction false} PathsAreAncestryIff(blocks: seq<Block>, n: nat)
    requires n <= |blocks| && Levels(blocks)
    ensures (forall m :: 0 <= m <= n ==> Ancestry(blocks, m)) <==> NoSkip(blocks, n)
  {
    if n > 0 {
      PathsAreAncestryIff(blocks, n - 1);
      if NoSkip(blocks, n - 1) {
        assert Ancestry(blocks, n - 1);
        if NoSkip(blocks, n) { StepBuilds(blocks, n - 1); } else { SkipBreaks(blocks, n - 1); }
      }
    }
  }
}
