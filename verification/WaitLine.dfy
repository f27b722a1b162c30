/** A line of waiting callers, numbered in order of arrival. */
module WaitLine {

  type Ticket = nat

  /** The line after one caller left it. */
  function Without(line: seq<Ticket>, w: Ticket): (r: seq<Ticket>)
    ensures forall v :: v in r ==> v in line
  {
    if line == [] then [] else if line[0] == w then line[1..] else [line[0]] + Without(line[1..], w)
  }

  ghost predicate Ascending(line: seq<Ticket>) {
    forall i, j :: 0 <= i < j < |line| ==> line[i] < line[j]
  }

  lemma StillAscending(first: Ticket, rest: seq<Ticket>)
    requires Ascending(rest) && forall v :: v in rest ==> first < v
    ensures Ascending([first] + rest)
  {
    var line := [first] + rest;
    forall i, j | 0 <= i < j < |line| ensures line[i] < line[j] {
      assert line[j] == rest[j - 1] && rest[j - 1] in rest;
      if i > 0 { assert line[i] == rest[i - 1]; }
    }
  }

  /** Leaving keeps everybody else, in order. */
  lemma {:induction false} WithoutFits(line: seq<Ticket>, w: Ticket)
    requires Ascending(line) && w in line
    ensures |Without(line, w)| == |line| - 1
    ensures forall v :: v in Without(line, w) <==> v in line && v != w
    ensures Ascending(Without(line, w))
  {
    if line[0] == w {
      assert line == [w] + line[1..];
    } else {
      WithoutFits(line[1..], w);
      assert line == [line[0]] + line[1..];
      forall v | v in Without(line[1..], w) ensures line[0] < v {
        var i :| 0 <= i < |line[1..]| && line[1..][i] == v;
        assert line[i + 1] == v;
      }
      StillAscending(line[0], Without(line[1..], w));
    }
  }
}
