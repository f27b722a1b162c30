/** When joined search results do not adjoin each other.
  *
  * The second pass looks at each pair of sections once. What decides is the order in which
  * the first pass left the sections of one run of neighbouring chunks.
  */
module SectionRuns {
  import opened SectionMerge

  predicate InRange(s: Section, doc: string, header: string, x: int) {
    s.doc == doc && s.header == header && s.first <= x <= s.last
  }

  ghost predicate Covers(out: seq<Section>, doc: string, header: string, x: int) {
    exists i :: 0 <= i < |out| && InRange(out[i], doc, header, x)
  }

  /** Sections that hold at least one chunk each, and share none. */
  ghost predicate WellApart(out: seq<Section>) {
    && (forall i :: 0 <= i < |out| ==> out[i].first <= out[i].last)
    && (forall i, j :: 0 <= i < j < |out| ==> Apart(out[i], out[j]))
  }

  ghost predicate SameCover(base: seq<Section>, out: seq<Section>) {
    forall d, h, x :: Covers(base, d, h, x) <==> Covers(out, d, h, x)
  }

  function Min(a: int, b: int): int { if a < b then a else b }
  function Max(a: int, b: int): int { if a < b then b else a }

  /** Two sections of one run: every chunk from the one to the other is among the results. */
  ghost predicate Bridged(base: seq<Section>, a: Section, b: Section) {
    && a.doc == b.doc && a.header == b.header
    && (forall x :: Min(a.first, b.first) <= x <= Max(a.last, b.last) ==> Covers(base, a.doc, a.header, x))
  }

  ghost predicate BridgedBefore(base: seq<Section>, out: seq<Section>, i: nat, k: nat)
    requires k < |out|
  {
    exists m :: i <= m < k && Bridged(base, out[m], out[k])
  }

  ghost predicate AdjoinsBefore(out: seq<Section>, i: nat, k: nat)
    requires k < |out|
  {
    exists m :: i <= m < k && Adjoins(out[m], out[k])
  }

  /** From section `i` on, a section whose run has come up before adjoins one that came before it. */
  ghost predicate Orderly(base: seq<Section>, out: seq<Section>, i: nat) {
    forall k :: i < k < |out| && BridgedBefore(base, out, i, k) ==> AdjoinsBefore(out, i, k)
  }

  ghost predicate NoneAdjoin(out: seq<Section>) {
    forall i, j :: 0 <= i < j < |out| ==> !Adjoins(out[i], out[j])
  }

  /** No later section belongs to the run of section `i`. */
  ghost predicate Collected(base: seq<Section>, out: seq<Section>, i: nat)
    requires i < |out|
  {
    forall m :: i < m < |out| ==> !Bridged(base, out[i], out[m])
  }

  // ---- Absorbing one section ----

  /** Where section `k` of the shorter list stood. */
  function Source(j: nat, k: nat): nat {
    if k < j then k else k + 1
  }

  lemma AbsorbAt(out: seq<Section>, i: nat, j: nat)
    requires i < j < |out|
    ensures var next := Absorb(out, i, j);
            && |next| == |out| - 1 && next[i] == Joined(out[i], out[j])
            && forall k :: 0 <= k < |next| && k != i ==> next[k] == out[Source(j, k)]
  {
  }

  lemma JoinedRange(a: Section, b: Section)
    requires a.first <= a.last && b.first <= b.last && Adjoins(a, b) && Apart(a, b)
    ensures var c := Joined(a, b);
            && c.doc == a.doc && c.header == a.header && c.first == Min(a.first, b.first) && c.last == Max(a.last, b.last)
            && c.first <= c.last
            && forall d, h, x :: InRange(c, d, h, x) <==> InRange(a, d, h, x) || InRange(b, d, h, x)
  {
  }

  /** A third section adjoins the joined one exactly if it adjoins one of the two. */
  lemma JoinedAdjoins(a: Section, b: Section, s: Section)
    requires a.first <= a.last && b.first <= b.last && s.first <= s.last && Adjoins(a, b)
    requires Apart(a, b) && Apart(a, s) && Apart(b, s)
    ensures Adjoins(Joined(a, b), s) <==> Adjoins(a, s) || Adjoins(b, s)
  {
  }

  lemma AbsorbKeepsApart(out: seq<Section>, i: nat, j: nat)
    requires WellApart(out) && i < j < |out| && Adjoins(out[i], out[j])
    ensures WellApart(Absorb(out, i, j))
  {
    var next := Absorb(out, i, j);
    AbsorbAt(out, i, j);
    JoinedRange(out[i], out[j]);
    forall k, l | 0 <= k < l < |next| ensures Apart(next[k], next[l]) {
      assert k != i ==> next[k] == out[Source(j, k)];
      assert l != i ==> next[l] == out[Source(j, l)];
      if k == i {
        TwoApart(out, i, j, Source(j, l));
      } else if l == i {
        TwoApart(out, i, j, Source(j, k));
      } else {
        assert Source(j, k) < Source(j, l);
      }
    }
  }

  /** What lies apart from two sections lies apart from the joined one. */
  lemma TwoApart(out: seq<Section>, i: nat, j: nat, k: nat)
    requires WellApart(out) && i < j < |out| && k < |out| && k != i && k != j && Adjoins(out[i], out[j])
    ensures Apart(Joined(out[i], out[j]), out[k]) && Apart(out[k], Joined(out[i], out[j]))
    ensures Apart(out[i], out[j]) && Apart(out[i], out[k]) && Apart(out[j], out[k])
  {
    JoinedRange(out[i], out[j]);
    if k < i { assert Apart(out[k], out[i]); } else { assert Apart(out[i], out[k]); }
    if k < j { assert Apart(out[k], out[j]); } else { assert Apart(out[j], out[k]); }
  }

  lemma AbsorbKeepsCover(base: seq<Section>, out: seq<Section>, i: nat, j: nat)
    requires WellApart(out) && SameCover(base, out) && i < j < |out| && Adjoins(out[i], out[j])
    ensures SameCover(base, Absorb(out, i, j))
  {
    var next := Absorb(out, i, j);
    AbsorbAt(out, i, j);
    JoinedRange(out[i], out[j]);
    forall d, h, x ensures Covers(base, d, h, x) <==> Covers(next, d, h, x) {
      if Covers(out, d, h, x) {
        var k :| 0 <= k < |out| && InRange(out[k], d, h, x);
        var l := if k == i || k == j then i else if k < j then k else k - 1;
        assert InRange(next[l], d, h, x);
      }
      if Covers(next, d, h, x) {
        var l :| 0 <= l < |next| && InRange(next[l], d, h, x);
        if l == i { assert InRange(out[i], d, h, x) || InRange(out[j], d, h, x); } else { assert InRange(out[Source(j, l)], d, h, x); }
      }
    }
  }

  // ---- Runs ----

  lemma SelfCovered(base: seq<Section>, out: seq<Section>, i: nat, x: int)
    requires SameCover(base, out) && i < |out| && out[i].first <= x <= out[i].last
    ensures Covers(base, out[i].doc, out[i].header, x)
  {
    assert InRange(out[i], out[i].doc, out[i].header, x);
    assert Covers(out, out[i].doc, out[i].header, x);
  }

  lemma AdjoiningIsBridged(base: seq<Section>, out: seq<Section>, i: nat, j: nat)
    requires SameCover(base, out) && WellApart(out) && i < |out| && j < |out| && Adjoins(out[i], out[j])
    ensures Bridged(base, out[i], out[j])
  {
    var a, b := out[i], out[j];
    forall x | Min(a.first, b.first) <= x <= Max(a.last, b.last) ensures Covers(base, a.doc, a.header, x) {
      if a.first <= x <= a.last { SelfCovered(base, out, i, x); } else { SelfCovered(base, out, j, x); }
    }
  }

  lemma BridgedTurns(base: seq<Section>, a: Section, b: Section)
    ensures Bridged(base, a, b) <==> Bridged(base, b, a)
  {
  }

  lemma BridgedChain(base: seq<Section>, a: Section, b: Section, c: Section)
    requires a.first <= a.last && b.first <= b.last && c.first <= c.last
    requires Bridged(base, a, b) && Bridged(base, b, c)
    ensures Bridged(base, a, c)
  {
  }

  /** The joined section belongs to the run of each of its parts, and to no other. */
  lemma JoinedBridges(base: seq<Section>, out: seq<Section>, i: nat, j: nat, s: Section)
    requires SameCover(base, out) && WellApart(out) && i < j < |out| && Adjoins(out[i], out[j]) && s.first <= s.last
    ensures Bridged(base, Joined(out[i], out[j]), s) <==> Bridged(base, out[i], s)
    ensures Bridged(base, out[j], s) <==> Bridged(base, out[i], s)
  {
    var a, b := out[i], out[j];
    JoinedRange(a, b);
    AdjoiningIsBridged(base, out, i, j);
    BridgedTurns(base, a, b);
    if Bridged(base, b, s) { BridgedChain(base, a, b, s); }
    if Bridged(base, a, s) { BridgedChain(base, b, a, s); }
  }

  // ---- One row ----

  ghost predicate Fine(base: seq<Section>, out: seq<Section>) {
    WellApart(out) && SameCover(base, out)
  }

  lemma AbsorbFine(base: seq<Section>, out: seq<Section>, i: nat, j: nat)
    requires Fine(base, out) && i < j < |out| && Adjoins(out[i], out[j])
    ensures Fine(base, Absorb(out, i, j))
  {
    AbsorbKeepsApart(out, i, j);
    AbsorbKeepsCover(base, out, i, j);
  }

  /** The sections skipped so far in row `i` belong to other runs. */
  ghost predicate SkippedOthers(base: seq<Section>, out: seq<Section>, i: nat, j: nat) {
    i < |out| && forall m :: i < m < j && m < |out| ==> !Bridged(base, out[i], out[m])
  }

  lemma AbsorbSkipped(base: seq<Section>, out: seq<Section>, i: nat, j: nat)
    requires Fine(base, out) && i < j < |out| && Adjoins(out[i], out[j]) && SkippedOthers(base, out, i, j)
    ensures SkippedOthers(base, Absorb(out, i, j), i, j)
  {
    var next := Absorb(out, i, j);
    AbsorbAt(out, i, j);
    forall m | i < m < j && m < |next| ensures !Bridged(base, next[i], next[m]) {
      assert next[m] == out[Source(j, m)];
      JoinedBridges(base, out, i, j, out[m]);
    }
  }

  /** Absorbing keeps the order of what is left. */
  lemma AbsorbOrderly(base: seq<Section>, out: seq<Section>, i: nat, j: nat)
    requires Fine(base, out) && i < j < |out| && Adjoins(out[i], out[j]) && Orderly(base, out, i)
    ensures Orderly(base, Absorb(out, i, j), i)
  {
    var next := Absorb(out, i, j);
    AbsorbAt(out, i, j);
    forall k | i < k < |next| && BridgedBefore(base, next, i, k) ensures AdjoinsBefore(next, i, k) {
      AbsorbOrderlyAt(base, out, i, j, k);
    }
  }

  lemma AbsorbOrderlyAt(base: seq<Section>, out: seq<Section>, i: nat, j: nat, k: nat)
    requires Fine(base, out) && i < j < |out| && Adjoins(out[i], out[j]) && Orderly(base, out, i)
    requires i < k < |Absorb(out, i, j)| && BridgedBefore(base, Absorb(out, i, j), i, k)
    ensures AdjoinsBefore(Absorb(out, i, j), i, k)
  {
    var next, k' := Absorb(out, i, j), Source(j, k);
    AbsorbAt(out, i, j);
    assert next[k] == out[k'];
    var m :| i <= m < k && Bridged(base, next[m], next[k]);
    if m == i { JoinedBridges(base, out, i, j, out[k']); } else { assert next[m] == out[Source(j, m)]; }
    var m0 := if m == i then i else Source(j, m);
    assert Bridged(base, out[m0], out[k']);
    assert BridgedBefore(base, out, i, k');
    var n :| i <= n < k' && Adjoins(out[n], out[k']);
    if n == i || n == j {
      TwoApart(out, i, j, k');
      JoinedAdjoins(out[i], out[j], out[k']);
      assert Adjoins(next[i], next[k]);
    } else {
      var n0 := if n < j then n else n - 1;
      assert next[n0] == out[Source(j, n0)];
      assert Adjoins(next[n0], next[k]);
    }
  }

  /** In order, a row takes in the whole run of its section. */
  lemma {:induction false} RowCollects(base: seq<Section>, out: seq<Section>, i: nat, j: nat)
    requires Fine(base, out) && i < j && Orderly(base, out, i) && SkippedOthers(base, out, i, j)
    ensures var r := JoinRow(out, i, j); Fine(base, r) && i < |r| && Collected(base, r, i) && Orderly(base, r, i)
    ensures JoinRow(out, i, j)[..i] == out[..i]
    decreases |out| - j
  {
    if j < |out| {
      if Adjoins(out[i], out[j]) {
        AbsorbFine(base, out, i, j);
        AbsorbSkipped(base, out, i, j);
        AbsorbOrderly(base, out, i, j);
        RowCollects(base, Absorb(out, i, j), i, j);
        assert Absorb(out, i, j)[..i] == out[..i];
      } else {
        NotInRun(base, out, i, j);
        RowCollects(base, out, i, j + 1);
      }
    }
  }

  /** A section that does not adjoin the row's is of another run: otherwise a skipped one,
    * of another run, would adjoin it. */
  lemma NotInRun(base: seq<Section>, out: seq<Section>, i: nat, j: nat)
    requires Fine(base, out) && i < j < |out| && Orderly(base, out, i) && SkippedOthers(base, out, i, j)
    requires !Adjoins(out[i], out[j])
    ensures !Bridged(base, out[i], out[j])
  {
    if Bridged(base, out[i], out[j]) {
      assert BridgedBefore(base, out, i, j);
      var m :| i <= m < j && Adjoins(out[m], out[j]);
      AdjoiningIsBridged(base, out, m, j);
      BridgedTurns(base, out[m], out[j]);
      BridgedChain(base, out[i], out[j], out[m]);
      assert false;
    }
  }

  /** What is of one run stays after the row's section, which only grows within its run. */
  lemma {:induction false} RowKeeps(base: seq<Section>, out: seq<Section>, i: nat, j: nat, k: nat)
    requires Fine(base, out) && i < k < j && k < |out|
    ensures var r := JoinRow(out, i, j);
            Fine(base, r) && k < |r| && r[k] == out[k] && (Bridged(base, out[i], out[k]) <==> Bridged(base, r[i], r[k]))
    decreases |out| - j
  {
    if j < |out| {
      if Adjoins(out[i], out[j]) {
        var next := Absorb(out, i, j);
        AbsorbFine(base, out, i, j);
        AbsorbAt(out, i, j);
        assert next[k] == out[Source(j, k)];
        JoinedBridges(base, out, i, j, out[k]);
        RowKeeps(base, next, i, j, k);
      } else {
        RowKeeps(base, out, i, j + 1, k);
      }
    }
  }

  /** Conversely, a row that took in its whole run and left order behind had order before it. */
  lemma {:induction false} RowWasOrderly(base: seq<Section>, out: seq<Section>, i: nat, j: nat)
    requires Fine(base, out) && i < j && SkippedOthers(base, out, i, j)
    requires var r := JoinRow(out, i, j); i < |r| && Collected(base, r, i) && Orderly(base, r, i + 1)
    ensures Orderly(base, out, i)
    decreases |out| - j
  {
    if j >= |out| {
      OrderlyFromNext(base, out, i);
    } else if Adjoins(out[i], out[j]) {
      AbsorbFine(base, out, i, j);
      AbsorbSkipped(base, out, i, j);
      RowWasOrderly(base, Absorb(out, i, j), i, j);
      AbsorbWasOrderly(base, out, i, j);
    } else {
      RowKeeps(base, out, i, j + 1, j);
      RowWasOrderly(base, out, i, j + 1);
    }
  }

  lemma OrderlyFromNext(base: seq<Section>, out: seq<Section>, i: nat)
    requires i < |out| && Collected(base, out, i) && Orderly(base, out, i + 1)
    ensures Orderly(base, out, i)
  {
    forall k | i < k < |out| && BridgedBefore(base, out, i, k) ensures AdjoinsBefore(out, i, k) {
      var m :| i <= m < k && Bridged(base, out[m], out[k]);
      assert BridgedBefore(base, out, i + 1, k);
      var n :| i + 1 <= n < k && Adjoins(out[n], out[k]);
    }
  }

  lemma AbsorbWasOrderly(base: seq<Section>, out: seq<Section>, i: nat, j: nat)
    requires Fine(base, out) && i < j < |out| && Adjoins(out[i], out[j]) && SkippedOthers(base, out, i, j)
    requires Orderly(base, Absorb(out, i, j), i)
    ensures Orderly(base, out, i)
  {
    forall k | i < k < |out| && BridgedBefore(base, out, i, k) ensures AdjoinsBefore(out, i, k) {
      if k == j { assert Adjoins(out[i], out[k]); } else { AbsorbWasOrderlyAt(base, out, i, j, k); }
    }
  }

  lemma AbsorbWasOrderlyAt(base: seq<Section>, out: seq<Section>, i: nat, j: nat, k: nat)
    requires Fine(base, out) && i < j < |out| && Adjoins(out[i], out[j]) && SkippedOthers(base, out, i, j)
    requires Orderly(base, Absorb(out, i, j), i) && i < k < |out| && k != j && BridgedBefore(base, out, i, k)
    ensures AdjoinsBefore(out, i, k)
  {
    var next, k0 := Absorb(out, i, j), if k < j then k else k - 1;
    AbsorbAt(out, i, j);
    assert next[k0] == out[Source(j, k0)] && Source(j, k0) == k;
    var m :| i <= m < k && Bridged(base, out[m], out[k]);
    var m0 := if m == i || m == j then i else if m < j then m else m - 1;
    JoinedBridges(base, out, i, j, out[k]);
    if m0 != i { assert next[m0] == out[Source(j, m0)]; }
    assert Bridged(base, next[m0], next[k0]);
    assert BridgedBefore(base, next, i, k0);
    var n0 :| i <= n0 < k0 && Adjoins(next[n0], next[k0]);
    if n0 == i {
      TwoApart(out, i, j, k);
      JoinedAdjoins(out[i], out[j], out[k]);
      if !Adjoins(out[i], out[k]) {
        AdjoiningIsBridged(base, out, j, k);
        JoinedBridges(base, out, i, j, out[k]);
        assert k > j;
      }
    } else {
      assert next[n0] == out[Source(j, n0)];
    }
  }

  // ---- All rows ----

  lemma OrderlyNext(base: seq<Section>, out: seq<Section>, i: nat)
    requires Fine(base, out) && i < |out| && Orderly(base, out, i) && Collected(base, out, i)
    ensures Orderly(base, out, i + 1)
  {
    var i' := i + 1;
    forall k | i' < k < |out| && BridgedBefore(base, out, i', k) ensures AdjoinsBefore(out, i', k) {
      assert BridgedBefore(base, out, i, k);
      var n :| i <= n < k && Adjoins(out[n], out[k]);
      AdjoiningIsBridged(base, out, n, k);
    }
  }

  ghost predicate AllCollected(base: seq<Section>, out: seq<Section>, i: nat) {
    forall a :: 0 <= a < i && a < |out| ==> Collected(base, out, a)
  }

  /** A later row leaves the runs already collected alone. */
  lemma {:induction false} RowKeepsCollected(base: seq<Section>, out: seq<Section>, i: nat, j: nat, a: nat)
    requires Fine(base, out) && a < i < j && i < |out| && Collected(base, out, a)
    ensures var r := JoinRow(out, i, j); a < |r| && r[a] == out[a] && Collected(base, r, a)
    decreases |out| - j
  {
    if j < |out| {
      if Adjoins(out[i], out[j]) {
        var next := Absorb(out, i, j);
        AbsorbFine(base, out, i, j);
        AbsorbAt(out, i, j);
        JoinedBridges(base, out, i, j, out[a]);
        BridgedTurns(base, out[a], out[i]);
        BridgedTurns(base, out[a], next[i]);
        forall m | a < m < |next| ensures !Bridged(base, next[a], next[m]) {
          if m != i { assert next[m] == out[Source(j, m)]; }
        }
        RowKeepsCollected(base, next, i, j, a);
      } else {
        RowKeepsCollected(base, out, i, j + 1, a);
      }
    }
  }

  lemma {:induction false} RowsCollect(base: seq<Section>, out: seq<Section>, i: nat, n: nat)
    requires Fine(base, out) && Orderly(base, out, i) && AllCollected(base, out, i) && |out| <= n
    ensures NoneAdjoin(JoinAll(out, i, n))
    decreases n - i
  {
    if i >= |out| {
      RowsDone(out, i, n);
      forall a, b | 0 <= a < b < |out| ensures !Adjoins(out[a], out[b]) {
        assert Collected(base, out, a);
        if Adjoins(out[a], out[b]) { AdjoiningIsBridged(base, out, a, b); }
      }
    } else {
      var r := JoinRow(out, i, i + 1);
      RowCollects(base, out, i, i + 1);
      RowShrinks(out, i, i + 1);
      OrderlyNext(base, r, i);
      forall a | 0 <= a < i + 1 && a < |r| ensures Collected(base, r, a) {
        if a < i { RowKeepsCollected(base, out, i, i + 1, a); }
      }
      RowsCollect(base, r, i + 1, n);
    }
  }

  lemma {:induction false} RowsDone(out: seq<Section>, i: nat, n: nat)
    requires i >= |out|
    ensures JoinAll(out, i, n) == out
    decreases n - i
  {
    if i < n { RowsDone(out, i + 1, n); }
  }

  lemma {:induction false} RowShrinks(out: seq<Section>, i: nat, j: nat)
    requires i < j
    ensures |JoinRow(out, i, j)| <= |out| && (i < |out| ==> i < |JoinRow(out, i, j)| && JoinRow(out, i, j)[..i] == out[..i])
    decreases |out| - j
  {
    if j < |out| {
      if Adjoins(out[i], out[j]) {
        RowShrinks(Absorb(out, i, j), i, j);
        assert Absorb(out, i, j)[..i] == out[..i];
      } else {
        RowShrinks(out, i, j + 1);
      }
    }
  }

  lemma {:induction false} RowFine(base: seq<Section>, out: seq<Section>, i: nat, j: nat)
    requires Fine(base, out) && i < j
    ensures Fine(base, JoinRow(out, i, j))
    decreases |out| - j
  {
    if j < |out| {
      if Adjoins(out[i], out[j]) {
        AbsorbFine(base, out, i, j);
        RowFine(base, Absorb(out, i, j), i, j);
      } else {
        RowFine(base, out, i, j + 1);
      }
    }
  }

  /** The rows from `i` on leave the sections before `i` as they are. */
  lemma {:induction false} RowsKeepFront(base: seq<Section>, out: seq<Section>, i: nat, n: nat)
    requires Fine(base, out) && i <= |out|
    ensures Fine(base, JoinAll(out, i, n)) && i <= |JoinAll(out, i, n)| && JoinAll(out, i, n)[..i] == out[..i]
    decreases n - i
  {
    if i < n {
      if i < |out| {
        var r := JoinRow(out, i, i + 1);
        RowFine(base, out, i, i + 1);
        RowShrinks(out, i, i + 1);
        RowsKeepFront(base, r, i + 1, n);
        assert JoinAll(r, i + 1, n)[..i] == JoinAll(r, i + 1, n)[..i + 1][..i] == r[..i + 1][..i] == r[..i];
      } else {
        RowsDone(out, i, n);
      }
    }
  }

  /** Two results of one run mean that some two results adjoin. */
  lemma SplitRunAdjoins(base: seq<Section>, out: seq<Section>, i: nat, k: nat)
    requires Fine(base, out) && i < |out| && k < |out| && i != k && Bridged(base, out[i], out[k])
    ensures !NoneAdjoin(out)
  {
    var a, b := out[i], out[k];
    assert Apart(a, b) by { if i < k { assert Apart(out[i], out[k]); } else { assert Apart(out[k], out[i]); } }
    var x := if a.last < b.first then a.last + 1 else a.first - 1;
    assert Covers(base, a.doc, a.header, x);
    assert Covers(out, a.doc, a.header, x);
    var c :| 0 <= c < |out| && InRange(out[c], a.doc, a.header, x);
    if i < c { assert Apart(out[i], out[c]) && Adjoins(out[i], out[c]); }
    else { assert Apart(out[c], out[i]) && Adjoins(out[c], out[i]); }
  }

  /** If the last results do not adjoin, every row took in the whole run of its section. */
  lemma RowCollected(base: seq<Section>, r: seq<Section>, i: nat, n: nat, m: nat)
    requires Fine(base, r) && i < m < |r| && NoneAdjoin(JoinAll(r, i + 1, n))
    ensures !Bridged(base, r[i], r[m])
  {
    var f := JoinAll(r, i + 1, n);
    RowsKeepFront(base, r, i + 1, n);
    assert f[i] == f[..i + 1][i] == r[..i + 1][i] == r[i];
    if Bridged(base, r[i], r[m]) {
      SelfCovered(base, r, m, r[m].first);
      assert Covers(f, r[m].doc, r[m].header, r[m].first);
      var b :| 0 <= b < |f| && InRange(f[b], r[m].doc, r[m].header, r[m].first);
      assert b != i by { assert Apart(r[i], r[m]); }
      ReachesOn(base, f, r[i], r[m], b);
      SplitRunAdjoins(base, f, i, b);
    }
  }

  lemma ReachesOn(base: seq<Section>, f: seq<Section>, a: Section, s: Section, b: nat)
    requires Fine(base, f) && b < |f| && Bridged(base, a, s) && InRange(f[b], s.doc, s.header, s.first)
    requires a.first <= a.last && s.first <= s.last
    ensures Bridged(base, a, f[b])
  {
    var c := f[b];
    forall x | Min(a.first, c.first) <= x <= Max(a.last, c.last) ensures Covers(base, a.doc, a.header, x) {
      if c.first <= x <= c.last { SelfCovered(base, f, b, x); }
    }
  }

  lemma {:induction false} RowsWereOrderly(base: seq<Section>, out: seq<Section>, i: nat, n: nat)
    requires Fine(base, out) && |out| <= n && NoneAdjoin(JoinAll(out, i, n))
    ensures Orderly(base, out, i)
    decreases n - i
  {
    if i < |out| {
      var r := JoinRow(out, i, i + 1);
      RowFine(base, out, i, i + 1);
      RowShrinks(out, i, i + 1);
      RowsWereOrderly(base, r, i + 1, n);
      forall m | i < m < |r| ensures !Bridged(base, r[i], r[m]) { RowCollected(base, r, i, n, m); }
      RowWasOrderly(base, out, i, i + 1);
    }
  }

  // ---- Main results ----

  lemma PlacedFine(points: seq<Point>, limit: nat)
    requires Distinct(points)
    ensures var placed := PlaceAll(points, limit, |points|); Fine(placed, placed)
  {
    PlaceAllSound(points, limit, |points|);
    var placed := PlaceAll(points, limit, |points|);
    forall i | 0 <= i < |placed| ensures placed[i].first <= placed[i].last { assert Holds(points, |points|, placed[i]); }
  }

  /** No two results adjoin each other exactly when, among the sections the first pass made,
    * each one whose run has come up earlier in the list adjoins an earlier one. */
  lemma ResultsStayApartIff(points: seq<Point>, limit: nat)
    requires Distinct(points)
    ensures var placed := PlaceAll(points, limit, |points|);
            NoneAdjoin(Merged(points, limit)) <==> Orderly(placed, placed, 0)
  {
    PlacedFine(points, limit);
    var placed := PlaceAll(points, limit, |points|);
    if Orderly(placed, placed, 0) { RowsCollect(placed, placed, 0, |placed|); }
    if NoneAdjoin(Merged(points, limit)) { RowsWereOrderly(placed, placed, 0, |placed|); }
  }

  /** The hits of each section come in the order of their chunks. */
  predicate InChunkOrder(points: seq<Point>) {
    forall i, j :: 0 <= i < j < |points| && points[i].doc == points[j].doc && points[i].header == points[j].header ==>
      points[i].index < points[j].index
  }

  lemma PlaceStaysApart(points: seq<Point>, n: nat, out: seq<Section>, limit: nat)
    requires InChunkOrder(points) && n < |points| && Sound(points, n, out) && NoneAdjoin(out)
    ensures NoneAdjoin(Place(out, points[n], limit))
  {
    var p, next := points[n], Place(out, points[n], limit);
    forall k | 0 <= k < |out| && out[k].doc == p.doc && out[k].header == p.header
      ensures out[k].first <= out[k].last < p.index
    {
      assert Holds(points, n, out[k]);
      assert Hit(points, n, out[k].doc, out[k].header, out[k].last);
    }
  }

  lemma {:induction false} PlacedInOrderStaysApart(points: seq<Point>, limit: nat, n: nat)
    requires Distinct(points) && InChunkOrder(points) && n <= |points|
    ensures NoneAdjoin(PlaceAll(points, limit, n))
  {
    if n > 0 {
      PlacedInOrderStaysApart(points, limit, n - 1);
      PlaceAllSound(points, limit, n - 1);
      PlaceStaysApart(points, n - 1, PlaceAll(points, limit, n - 1), limit);
    }
  }

  /** So results never adjoin when the hits of each section come in the order of their chunks. */
  lemma HitsInOrderStayApart(points: seq<Point>, limit: nat)
    requires Distinct(points) && InChunkOrder(points)
    ensures NoneAdjoin(Merged(points, limit))
  {
    PlacedFine(points, limit);
    PlacedInOrderStaysApart(points, limit, |points|);
    var placed := PlaceAll(points, limit, |points|);
    forall m, k | 0 <= m < k < |placed| ensures !Bridged(placed, placed[m], placed[k]) {
      if Bridged(placed, placed[m], placed[k]) { SplitRunAdjoins(placed, placed, m, k); }
    }
    ResultsStayApartIff(points, limit);
  }
}
