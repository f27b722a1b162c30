/** Joining search hits that are neighbouring chunks of one document section. */
module SectionMerge {

  /** A search hit: one chunk of a document. */
  datatype Point = Point(doc: string, header: string, index: int, content: string)

  /** A result: chunks `first` to `last`. */
  datatype Section = Section(doc: string, header: string, first: int, last: int, content: string)

  predicate Grows(s: Section, p: Point) {
    s.doc == p.doc && s.header == p.header && (p.index == s.last + 1 || p.index == s.first - 1)
  }

  function Grown(s: Section, p: Point): Section
    requires Grows(s, p)
  {
    if p.index == s.last + 1 then s.(content := s.content + p.content, last := p.index)
    else s.(content := p.content + s.content, first := p.index)
  }

  /** The first section a point extends, or their number. */
  function FirstGrowing(out: seq<Section>, p: Point): (i: nat)
    ensures i <= |out| && (i < |out| ==> Grows(out[i], p))
    ensures forall k :: 0 <= k < i ==> !Grows(out[k], p)
  {
    if out == [] || Grows(out[0], p) then 0 else 1 + FirstGrowing(out[1..], p)
  }

  /** A point extends a section, or opens one if the limit allows, or is dropped. */
  function Place(out: seq<Section>, p: Point, limit: nat): seq<Section> {
    var i := FirstGrowing(out, p);
    if i < |out| then out[i := Grown(out[i], p)]
    else if |out| < limit then out + [Section(p.doc, p.header, p.index, p.index, p.content)]
    else out
  }

  function PlaceAll(points: seq<Point>, limit: nat, n: nat): seq<Section>
    requires n <= |points|
  {
    if n == 0 then [] else Place(PlaceAll(points, limit, n - 1), points[n - 1], limit)
  }

  predicate Adjoins(a: Section, b: Section) {
    a.doc == b.doc && a.header == b.header && (a.last + 1 == b.first || b.last + 1 == a.first)
  }

  function Joined(a: Section, b: Section): Section {
    if b.first < a.first then a.(content := b.content + a.content, first := b.first)
    else a.(content := a.content + b.content, last := b.last)
  }

  function Absorb(out: seq<Section>, i: nat, j: nat): seq<Section>
    requires i < j < |out|
  {
    var joined := out[i := Joined(out[i], out[j])];
    joined[..j] + joined[j + 1..]
  }

  /** Section `i` takes in what adjoins it from `j` on; nothing before `j` is looked at again. */
  function JoinRow(out: seq<Section>, i: nat, j: nat): seq<Section>
    requires i < j
    decreases |out| - j
  {
    if j >= |out| then out
    else if Adjoins(out[i], out[j]) then JoinRow(Absorb(out, i, j), i, j)
    else JoinRow(out, i, j + 1)
  }

  function JoinAll(out: seq<Section>, i: nat, n: nat): seq<Section>
    decreases n - i
  {
    if i >= n then out else JoinAll(JoinRow(out, i, i + 1), i + 1, n)
  }

  const DEFAULT_LIMIT: nat := 5

  function EffectiveLimit(limit: int): (n: nat)
    ensures (limit > 0 ==> n == limit) && (limit <= 0 ==> n == 5)
  {
    if limit <= 0 then DEFAULT_LIMIT else limit
  }

  function Merged(points: seq<Point>, limit: nat): seq<Section> {
    var placed := PlaceAll(points, limit, |points|);
    JoinAll(placed, 0, |placed|)
  }

  // ---- The code ----

  /** The first pass over the hits. */
  method PlacePoints(points: seq<Point>, limit: nat) returns (out: seq<Section>)
    ensures out == PlaceAll(points, limit, |points|)
  {
    out := [];
    for k := 0 to |points|
      invariant out == PlaceAll(points, limit, k)
    {
      var p := points[k];
      var merged := false;
      ghost var before := out;
      var i := 0;
      while i < |out| && !merged
        invariant i <= |before| == |out|
        invariant !merged ==> out == before && forall l :: 0 <= l < i ==> !Grows(before[l], p)
        invariant merged ==> out == Place(before, p, limit)
        decreases |out| - i, !merged
      {
        if out[i].doc != p.doc || out[i].header != p.header {
          i := i + 1;
        } else if p.index == out[i].last + 1 {
          out := out[i := out[i].(content := out[i].content + p.content, last := p.index)];
          merged := true;
        } else if p.index == out[i].first - 1 {
          out := out[i := out[i].(content := p.content + out[i].content, first := p.index)];
          merged := true;
        } else {
          i := i + 1;
        }
      }
      if !merged && |out| < limit {
        out := out + [Section(p.doc, p.header, p.index, p.index, p.content)];
      }
    }
  }

  /** The second pass: the number of rows is fixed at its start while sections disappear. */
  method JoinSections(placed: seq<Section>) returns (out: seq<Section>)
    ensures out == JoinAll(placed, 0, |placed|)
  {
    out := placed;
    for i := 0 to |placed|
      invariant JoinAll(out, i, |placed|) == JoinAll(placed, 0, |placed|)
    {
      ghost var row := out;
      var j := i + 1;
      while j < |out|
        invariant i < j && JoinRow(out, i, j) == JoinRow(row, i, i + 1)
        decreases |out| - j
      {
        if out[i].doc != out[j].doc || out[i].header != out[j].header
           || (out[i].last + 1 != out[j].first && out[j].last + 1 != out[i].first) {
          j := j + 1;
        } else {
          ghost var absorbed := Absorb(out, i, j);
          if out[j].first < out[i].first {
            out := out[i := out[i].(content := out[j].content + out[i].content, first := out[j].first)];
          } else {
            out := out[i := out[i].(content := out[i].content + out[j].content, last := out[j].last)];
          }
          out := out[..j] + out[j + 1..];
          assert out == absorbed;
        }
      }
    }
  }

  method MergeSearchSections(points: seq<Point>, limit: int) returns (out: seq<Section>)
    ensures out == Merged(points, EffectiveLimit(limit))
  {
    var bound := if limit <= 0 then DEFAULT_LIMIT else limit;
    out := PlacePoints(points, bound);
    out := JoinSections(out);
  }

  // ---- What sections hold ----

  ghost predicate Distinct(points: seq<Point>) {
    forall i, j :: 0 <= i < j < |points| ==>
      !(points[i].doc == points[j].doc && points[i].header == points[j].header && points[i].index == points[j].index)
  }

  predicate IsAt(p: Point, doc: string, header: string, index: int) {
    p.doc == doc && p.header == header && p.index == index
  }

  function ContentAt(points: seq<Point>, doc: string, header: string, index: int): string {
    if points == [] then "" else if IsAt(points[0], doc, header, index) then points[0].content
    else ContentAt(points[1..], doc, header, index)
  }

  /** Whether chunk `index` is among the first `n` hits. */
  ghost predicate Hit(points: seq<Point>, n: nat, doc: string, header: string, index: int) {
    exists k :: 0 <= k < n <= |points| && IsAt(points[k], doc, header, index)
  }

  /** The contents of chunks `a` to `b` in order. */
  function Spell(points: seq<Point>, doc: string, header: string, a: int, b: int): string
    decreases b - a
  {
    if a > b then "" else Spell(points, doc, header, a, b - 1) + ContentAt(points, doc, header, b)
  }

  /** A section holds exactly the contents of the hits `first` to `last`, in order. */
  ghost predicate Holds(points: seq<Point>, n: nat, s: Section) {
    && s.first <= s.last
    && (forall x :: s.first <= x <= s.last ==> Hit(points, n, s.doc, s.header, x))
    && s.content == Spell(points, s.doc, s.header, s.first, s.last)
  }

  ghost predicate Apart(a: Section, b: Section) {
    a.doc == b.doc && a.header == b.header ==> a.last < b.first || b.last < a.first
  }

  ghost predicate Sound(points: seq<Point>, n: nat, out: seq<Section>) {
    && (forall i :: 0 <= i < |out| ==> Holds(points, n, out[i]))
    && (forall i, j :: 0 <= i < j < |out| ==> Apart(out[i], out[j]))
  }

  predicate Contains(s: Section, p: Point) {
    s.doc == p.doc && s.header == p.header && s.first <= p.index <= s.last
  }

  ghost predicate Kept(out: seq<Section>, p: Point) {
    exists i :: 0 <= i < |out| && Contains(out[i], p)
  }

  lemma {:induction false} ContentOf(points: seq<Point>, k: nat)
    requires Distinct(points) && k < |points|
    ensures ContentAt(points, points[k].doc, points[k].header, points[k].index) == points[k].content
  {
    if k > 0 {
      assert !IsAt(points[0], points[k].doc, points[k].header, points[k].index);
      ContentOf(points[1..], k - 1);
    }
  }

  lemma {:induction false} SpellJoins(points: seq<Point>, doc: string, header: string, a: int, m: int, b: int)
    requires a <= m + 1 && m <= b
    ensures Spell(points, doc, header, a, b) == Spell(points, doc, header, a, m) + Spell(points, doc, header, m + 1, b)
    decreases b - m
  {
    if m < b {
      SpellJoins(points, doc, header, a, m, b - 1);
    }
  }

  lemma SpellOne(points: seq<Point>, doc: string, header: string, x: int)
    ensures Spell(points, doc, header, x, x) == ContentAt(points, doc, header, x)
  {
    assert Spell(points, doc, header, x, x - 1) == "";
  }

  lemma GrownHolds(points: seq<Point>, n: nat, s: Section)
    requires Distinct(points) && n < |points| && Holds(points, n, s) && Grows(s, points[n])
    ensures Holds(points, n + 1, Grown(s, points[n]))
  {
    var p := points[n];
    var t := Grown(s, p);
    ContentOf(points, n);
    SpellOne(points, s.doc, s.header, p.index);
    if p.index == s.last + 1 { SpellJoins(points, s.doc, s.header, s.first, s.last, t.last); }
    else { SpellJoins(points, s.doc, s.header, t.first, t.first, s.last); }
    var m := n + 1;
    forall x | t.first <= x <= t.last ensures Hit(points, m, s.doc, s.header, x) {
      if x == p.index { assert IsAt(points[n], s.doc, s.header, x); } else { HitLater(points, n, s.doc, s.header, x); }
    }
  }

  lemma HitLater(points: seq<Point>, n: nat, doc: string, header: string, x: int)
    requires n < |points| && Hit(points, n, doc, header, x)
    ensures Hit(points, n + 1, doc, header, x)
  {
  }

  lemma HoldsLater(points: seq<Point>, n: nat, s: Section)
    requires n < |points| && Holds(points, n, s)
    ensures Holds(points, n + 1, s)
  {
    var m := n + 1;
    forall x | s.first <= x <= s.last ensures Hit(points, m, s.doc, s.header, x) { HitLater(points, n, s.doc, s.header, x); }
  }

  /** No section so far reaches the next hit. */
  lemma NotYet(points: seq<Point>, n: nat, s: Section)
    requires Distinct(points) && n < |points| && Holds(points, n, s)
    ensures !Contains(s, points[n])
  {
    assert Contains(s, points[n]) ==> Hit(points, n, s.doc, s.header, points[n].index);
  }

  lemma PlaceSound(points: seq<Point>, n: nat, out: seq<Section>, limit: nat)
    requires Distinct(points) && n < |points| && Sound(points, n, out)
    ensures Sound(points, n + 1, Place(out, points[n], limit))
  {
    var p := points[n];
    var i := FirstGrowing(out, p);
    var next := Place(out, p, limit);
    forall k | 0 <= k < |out| ensures Holds(points, n + 1, out[k]) && !Contains(out[k], p) {
      HoldsLater(points, n, out[k]);
      NotYet(points, n, out[k]);
    }
    if i < |out| {
      GrownHolds(points, n, out[i]);
    } else if |out| < limit {
      NewHolds(points, n);
    }
  }

  lemma NewHolds(points: seq<Point>, n: nat)
    requires Distinct(points) && n < |points|
    ensures var p := points[n]; Holds(points, n + 1, Section(p.doc, p.header, p.index, p.index, p.content))
  {
    var p := points[n];
    ContentOf(points, n);
    SpellOne(points, p.doc, p.header, p.index);
    assert IsAt(points[n], p.doc, p.header, p.index);
  }

  lemma {:induction false} PlaceAllSound(points: seq<Point>, limit: nat, n: nat)
    requires Distinct(points) && n <= |points|
    ensures Sound(points, n, PlaceAll(points, limit, n)) && |PlaceAll(points, limit, n)| <= n
    ensures |PlaceAll(points, limit, n)| <= limit
  {
    if n > 0 {
      PlaceAllSound(points, limit, n - 1);
      PlaceSound(points, n - 1, PlaceAll(points, limit, n - 1), limit);
    }
  }

  lemma PlaceKeeps(out: seq<Section>, p: Point, limit: nat, q: Point)
    requires Kept(out, q)
    ensures Kept(Place(out, p, limit), q)
  {
    var j :| 0 <= j < |out| && Contains(out[j], q);
    assert Contains(Place(out, p, limit)[j], q);
  }

  lemma PlaceOwn(points: seq<Point>, n: nat, out: seq<Section>, p: Point, limit: nat)
    requires Sound(points, n, out) && |out| < limit
    ensures Kept(Place(out, p, limit), p)
  {
    var i := FirstGrowing(out, p);
    if i < |out| { assert Holds(points, n, out[i]); }
    assert Contains(Place(out, p, limit)[i], p);
  }

  lemma {:induction false} PlaceAllKeeps(points: seq<Point>, limit: nat, n: nat, k: nat)
    requires Distinct(points) && k < n <= |points| <= limit
    ensures Kept(PlaceAll(points, limit, n), points[k])
  {
    PlaceAllSound(points, limit, n - 1);
    var before := PlaceAll(points, limit, n - 1);
    if k == n - 1 {
      PlaceOwn(points, n - 1, before, points[k], limit);
    } else {
      PlaceAllKeeps(points, limit, n - 1, k);
      PlaceKeeps(before, points[n - 1], limit, points[k]);
    }
  }

  lemma JoinedHolds(points: seq<Point>, n: nat, a: Section, b: Section)
    requires Holds(points, n, a) && Holds(points, n, b) && Adjoins(a, b) && Apart(a, b)
    ensures Holds(points, n, Joined(a, b))
    ensures forall p :: Contains(Joined(a, b), p) <==> Contains(a, p) || Contains(b, p)
  {
    var lo, hi := if b.first < a.first then b else a, if b.first < a.first then a else b;
    SpellJoins(points, a.doc, a.header, lo.first, lo.last, hi.last);
    forall x | lo.first <= x <= hi.last ensures Hit(points, n, a.doc, a.header, x) {}
  }

  lemma AbsorbSound(points: seq<Point>, n: nat, out: seq<Section>, i: nat, j: nat)
    requires Sound(points, n, out) && i < j < |out| && Adjoins(out[i], out[j])
    ensures Sound(points, n, Absorb(out, i, j))
    ensures forall p :: Kept(out, p) ==> Kept(Absorb(out, i, j), p)
  {
    var next := Absorb(out, i, j);
    JoinedHolds(points, n, out[i], out[j]);
    assert next[i] == Joined(out[i], out[j]);
    assert forall k :: 0 <= k < |next| && k != i ==> next[k] == (if k < j then out[k] else out[k + 1]);
    forall k | 0 <= k < |next| && k != i ensures Apart(next[k], next[i]) && Apart(next[i], next[k]) && Holds(points, n, next[k]) {
      var l := if k < j then k else k + 1;
      assert next[k] == out[l];
      assert Holds(points, n, out[l]) && Holds(points, n, out[i]) && Holds(points, n, out[j]);
      assert l < i ==> Apart(out[l], out[i]);
      assert i < l ==> Apart(out[i], out[l]);
      assert l < j ==> Apart(out[l], out[j]);
      assert j < l ==> Apart(out[j], out[l]);
    }
    AbsorbApart(points, n, out, i, j);
    forall p | Kept(out, p) ensures Kept(next, p) { AbsorbKeeps(points, n, out, i, j, p); }
  }

  lemma AbsorbApart(points: seq<Point>, n: nat, out: seq<Section>, i: nat, j: nat)
    requires Sound(points, n, out) && i < j < |out|
    ensures var next := Absorb(out, i, j);
            forall k, l :: 0 <= k < l < |next| && k != i && l != i ==> Apart(next[k], next[l])
  {
    var next := Absorb(out, i, j);
    forall k, l | 0 <= k < l < |next| && k != i && l != i ensures Apart(next[k], next[l]) {
      var k', l' := if k < j then k else k + 1, if l < j then l else l + 1;
      assert next[k] == out[k'] && next[l] == out[l'] && k' < l';
    }
  }

  lemma AbsorbKeeps(points: seq<Point>, n: nat, out: seq<Section>, i: nat, j: nat, p: Point)
    requires Sound(points, n, out) && i < j < |out| && Adjoins(out[i], out[j]) && Kept(out, p)
    ensures Kept(Absorb(out, i, j), p)
  {
    var next := Absorb(out, i, j);
    JoinedHolds(points, n, out[i], out[j]);
    assert next[i] == Joined(out[i], out[j]);
    var k :| 0 <= k < |out| && Contains(out[k], p);
    if k == i || k == j { assert Contains(next[i], p); }
    else if k < j { assert next[k] == out[k]; }
    else { assert next[k - 1] == out[k]; }
  }

  lemma {:induction false} JoinRowSound(points: seq<Point>, n: nat, out: seq<Section>, i: nat, j: nat)
    requires Sound(points, n, out) && i < j
    ensures Sound(points, n, JoinRow(out, i, j)) && |JoinRow(out, i, j)| <= |out|
    ensures forall p :: Kept(out, p) ==> Kept(JoinRow(out, i, j), p)
    decreases |out| - j
  {
    if j < |out| {
      if Adjoins(out[i], out[j]) {
        AbsorbSound(points, n, out, i, j);
        JoinRowSound(points, n, Absorb(out, i, j), i, j);
      } else {
        JoinRowSound(points, n, out, i, j + 1);
      }
    }
  }

  lemma {:induction false} JoinAllSound(points: seq<Point>, n: nat, out: seq<Section>, i: nat, rows: nat)
    requires Sound(points, n, out)
    ensures Sound(points, n, JoinAll(out, i, rows)) && |JoinAll(out, i, rows)| <= |out|
    ensures forall p :: Kept(out, p) ==> Kept(JoinAll(out, i, rows), p)
    decreases rows - i
  {
    if i < rows {
      JoinRowSound(points, n, out, i, i + 1);
      JoinAllSound(points, n, JoinRow(out, i, i + 1), i + 1, rows);
    }
  }

  // ---- Main results ----

  /** Every result is exactly the contents of its chunks in index order, no chunk is in two
    * results, and there are never more results than the limit. */
  lemma MergedIsSound(points: seq<Point>, limit: nat)
    requires Distinct(points)
    ensures Sound(points, |points|, Merged(points, limit)) && |Merged(points, limit)| <= limit
  {
    PlaceAllSound(points, limit, |points|);
    var placed := PlaceAll(points, limit, |points|);
    JoinAllSound(points, |points|, placed, 0, |placed|);
  }

  /** With no more hits than the limit, every hit is in a result. */
  lemma NothingIsLost(points: seq<Point>, limit: nat, k: nat)
    requires Distinct(points) && k < |points| <= limit
    ensures Kept(Merged(points, limit), points[k])
  {
    PlaceAllSound(points, limit, |points|);
    PlaceAllKeeps(points, limit, |points|, k);
    var placed := PlaceAll(points, limit, |points|);
    JoinAllSound(points, |points|, placed, 0, |placed|);
  }

  // ---- Which hits are dropped ----

  /** Placing another hit does not bring one in. */
  lemma PlaceAddsOnly(out: seq<Section>, p: Point, limit: nat, q: Point)
    requires Kept(Place(out, p, limit), q) && !IsAt(p, q.doc, q.header, q.index)
    ensures Kept(out, q)
  {
    var next := Place(out, p, limit);
    var i :| 0 <= i < |next| && Contains(next[i], q);
    if i < |out| { assert Contains(out[i], q); }
  }

  lemma {:induction false} PlacedSo(points: seq<Point>, limit: nat, n: nat, k: nat)
    requires Distinct(points) && k < n <= |points|
    ensures Kept(PlaceAll(points, limit, n), points[k]) <==> Kept(PlaceAll(points, limit, k + 1), points[k])
    decreases n
  {
    if k + 1 < n {
      PlacedSo(points, limit, n - 1, k);
      var before := PlaceAll(points, limit, n - 1);
      if Kept(before, points[k]) { PlaceKeeps(before, points[n - 1], limit, points[k]); }
      if Kept(Place(before, points[n - 1], limit), points[k]) { PlaceAddsOnly(before, points[n - 1], limit, points[k]); }
    }
  }

  lemma AbsorbAddsNone(points: seq<Point>, n: nat, out: seq<Section>, i: nat, j: nat, p: Point)
    requires Sound(points, n, out) && i < j < |out| && Adjoins(out[i], out[j]) && Kept(Absorb(out, i, j), p)
    ensures Kept(out, p)
  {
    var next := Absorb(out, i, j);
    JoinedHolds(points, n, out[i], out[j]);
    assert next[i] == Joined(out[i], out[j]);
    var k :| 0 <= k < |next| && Contains(next[k], p);
    if k == i { assert Contains(out[i], p) || Contains(out[j], p); }
    else if k < j { assert next[k] == out[k]; }
    else { assert next[k] == out[k + 1]; }
  }

  lemma {:induction false} JoinRowAddsNone(points: seq<Point>, n: nat, out: seq<Section>, i: nat, j: nat, p: Point)
    requires Sound(points, n, out) && i < j && Kept(JoinRow(out, i, j), p)
    ensures Kept(out, p)
    decreases |out| - j
  {
    if j < |out| {
      if Adjoins(out[i], out[j]) {
        AbsorbSound(points, n, out, i, j);
        JoinRowAddsNone(points, n, Absorb(out, i, j), i, j, p);
        AbsorbAddsNone(points, n, out, i, j, p);
      } else {
        JoinRowAddsNone(points, n, out, i, j + 1, p);
      }
    }
  }

  lemma {:induction false} JoinAllAddsNone(points: seq<Point>, n: nat, out: seq<Section>, i: nat, rows: nat, p: Point)
    requires Sound(points, n, out) && Kept(JoinAll(out, i, rows), p)
    ensures Kept(out, p)
    decreases rows - i
  {
    if i < rows {
      JoinRowSound(points, n, out, i, i + 1);
      JoinAllAddsNone(points, n, JoinRow(out, i, i + 1), i + 1, rows, p);
      JoinRowAddsNone(points, n, out, i, i + 1, p);
    }
  }

  /** The hit comes next before or behind a section of its own document and header. */
  predicate Touches(s: Section, p: Point) {
    s.doc == p.doc && s.header == p.header && (s.last + 1 == p.index || p.index + 1 == s.first)
  }

  /** A hit is in a result exactly if at its turn there was room for another section or one that it
    * comes next to; only then does a hit beyond the limit still count. */
  lemma KeptIff(points: seq<Point>, limit: nat, k: nat)
    requires Distinct(points) && k < |points|
    ensures var before := PlaceAll(points, limit, k);
            Kept(Merged(points, limit), points[k]) <==> |before| < limit || exists i :: 0 <= i < |before| && Touches(before[i], points[k])
  {
    PlaceAllSound(points, limit, |points|);
    PlaceAllSound(points, limit, k);
    var before, placed, p := PlaceAll(points, limit, k), PlaceAll(points, limit, |points|), points[k];
    JoinAllSound(points, |points|, placed, 0, |placed|);
    if Kept(Merged(points, limit), p) { JoinAllAddsNone(points, |points|, placed, 0, |placed|, p); }
    PlacedSo(points, limit, |points|, k);
    var i := FirstGrowing(before, p);
    if i < |before| {
      assert Touches(before[i], p);
      assert Holds(points, k, before[i]);
      assert Contains(Place(before, p, limit)[i], p);
    } else if |before| < limit {
      assert Contains(Place(before, p, limit)[i], p);
    } else {
      forall j | 0 <= j < |before| ensures !Contains(before[j], p) && !Touches(before[j], p) {
        NotYet(points, k, before[j]);
        assert !Grows(before[j], p);
      }
    }
  }

  function FiveHits(doc: string, header: string): seq<Point> {
    [Point(doc, header, 5, "e"), Point(doc, header, 1, "a"), Point(doc, header, 3, "c"), Point(doc, header, 2, "b"),
     Point(doc, header, 4, "d")]
  }

  lemma FiveHitsPlaced(doc: string, header: string)
    ensures PlaceAll(FiveHits(doc, header), 5, 5) ==
            [Section(doc, header, 4, 5, "de"), Section(doc, header, 1, 2, "ab"), Section(doc, header, 3, 3, "c")]
  {
    var points := FiveHits(doc, header);
    var e, a, c := Section(doc, header, 5, 5, "e"), Section(doc, header, 1, 1, "a"), Section(doc, header, 3, 3, "c");
    var ab, de := Section(doc, header, 1, 2, "ab"), Section(doc, header, 4, 5, "de");
    assert "a" + "b" == "ab" && "d" + "e" == "de";
    assert PlaceAll(points, 5, 1) == [e] by { assert PlaceAll(points, 5, 0) == []; }
    assert PlaceAll(points, 5, 3) == [e, a, c] by { assert PlaceAll(points, 5, 2) == [e, a]; }
    assert PlaceAll(points, 5, 4) == [e, ab, c] by { assert FirstGrowing([e, a, c], points[3]) == 1; }
    assert FirstGrowing([e, ab, c], points[4]) == 0;
  }

  lemma FiveHitsJoined(doc: string, header: string)
    ensures JoinAll([Section(doc, header, 4, 5, "de"), Section(doc, header, 1, 2, "ab"), Section(doc, header, 3, 3, "c")], 0, 3)
            == [Section(doc, header, 3, 5, "c" + "de"), Section(doc, header, 1, 2, "ab")]
  {
    var c, cde := Section(doc, header, 3, 3, "c"), Section(doc, header, 3, 5, "c" + "de");
    var ab, de := Section(doc, header, 1, 2, "ab"), Section(doc, header, 4, 5, "de");
    assert Absorb([de, ab, c], 0, 2) == [cde, ab];
    assert JoinRow([de, ab, c], 0, 1) == JoinRow([de, ab, c], 0, 2) == JoinRow([cde, ab], 0, 2) == [cde, ab];
    assert JoinAll([cde, ab], 1, 3) == JoinAll([cde, ab], 2, 3) == JoinAll([cde, ab], 3, 3) == [cde, ab];
  }

  /** Runs of neighbouring chunks are not always joined in full: from these five hits the
    * chunks 1 to 5 come back as two results that adjoin each other. */
  lemma AdjoiningResultsMayRemain(doc: string, header: string)
    ensures Distinct(FiveHits(doc, header))
    ensures var out := Merged(FiveHits(doc, header), 5);
            out == [Section(doc, header, 3, 5, "c" + "de"), Section(doc, header, 1, 2, "ab")] && Adjoins(out[0], out[1])
  {
    FiveHitsPlaced(doc, header);
    FiveHitsJoined(doc, header);
  }
}
