/** What the line reader is for: the LF-delimited lines of a byte stream, each without one final CR. */
module Lines {
  type Byte = bv8

  const LF: Byte := 10
  const CR: Byte := 13

  /** Index of the first LF, or the length if there is none. */
  function FirstLf(t: seq<Byte>): (k: nat)
    ensures k <= |t| && LF !in t[..k]
    ensures k < |t| ==> t[k] == LF
  {
    if t == [] || t[0] == LF then 0
    else
      var k := FirstLf(t[1..]);
      assert t[..k + 1] == [t[0]] + t[1..][..k];
      k + 1
  }

  function StripCr(line: seq<Byte>): seq<Byte> {
    if line != [] && line[|line| - 1] == CR then line[..|line| - 1] else line
  }

  function SplitLines(t: seq<Byte>): seq<seq<Byte>>
    decreases |t|
  {
    var k := FirstLf(t);
    if k == |t| then [] else [StripCr(t[..k])] + SplitLines(t[k + 1..])
  }

  /** What no line has claimed yet. */
  function Rest(t: seq<Byte>): seq<Byte>
    decreases |t|
  {
    var k := FirstLf(t);
    if k == |t| then t else Rest(t[k + 1..])
  }

  lemma {:induction false} FirstLfIs(t: seq<Byte>, k: nat)
    requires k <= |t| && LF !in t[..k] && (k < |t| ==> t[k] == LF)
    ensures FirstLf(t) == k
  {
    if k > 0 {
      assert t[..k] == [t[0]] + t[1..][..k - 1];
      FirstLfIs(t[1..], k - 1);
    }
  }

  /** More bytes behind a first LF do not move it. */
  lemma FirstLfOfPrefix(a: seq<Byte>, b: seq<Byte>)
    ensures FirstLf(a) < |a| ==> FirstLf(a + b) == FirstLf(a)
    ensures FirstLf(a) == |a| ==> FirstLf(a + b) == |a| + FirstLf(b)
  {
    if FirstLf(a) < |a| {
      assert (a + b)[..FirstLf(a)] == a[..FirstLf(a)];
      FirstLfIs(a + b, FirstLf(a));
    } else {
      assert a[..|a|] == a;
      assert (a + b)[..|a| + FirstLf(b)] == a + b[..FirstLf(b)];
      FirstLfIs(a + b, |a| + FirstLf(b));
    }
  }

  /** Line ends of a text. */
  function JoinLines(lines: seq<seq<Byte>>, end: seq<Byte>): seq<Byte> {
    if lines == [] then [] else lines[0] + end + JoinLines(lines[1..], end)
  }

  predicate IsLineEnd(end: seq<Byte>) {
    end == [LF] || end == [CR, LF]
  }

  /** A line survives this line end: it has no LF and, before a bare LF, no CR of its own at the end. */
  predicate Survives(line: seq<Byte>, end: seq<Byte>) {
    LF !in line && (end == [LF] ==> line == [] || line[|line| - 1] != CR)
  }

  lemma FirstLineOf(line: seq<Byte>, end: seq<Byte>, more: seq<Byte>)
    requires IsLineEnd(end) && Survives(line, end)
    ensures var t := line + end + more; var k := FirstLf(t);
      k < |t| && StripCr(t[..k]) == line && t[k + 1..] == more
  {
    var t := line + end + more;
    var k := |line| + |end| - 1;
    assert t[..k] == line + end[..|end| - 1];
    FirstLfIs(t, k);
  }

  lemma SplitFirst(line: seq<Byte>, end: seq<Byte>, more: seq<Byte>)
    requires IsLineEnd(end) && Survives(line, end)
    ensures SplitLines(line + end + more) == [line] + SplitLines(more)
    ensures Rest(line + end + more) == Rest(more)
  {
    FirstLineOf(line, end, more);
  }

  lemma SplitNone(rest: seq<Byte>)
    requires LF !in rest
    ensures SplitLines(rest) == [] && Rest(rest) == rest
  {
    assert rest[..|rest|] == rest;
    FirstLfIs(rest, |rest|);
  }

  lemma JoinFirst(lines: seq<seq<Byte>>, end: seq<Byte>, rest: seq<Byte>)
    requires lines != []
    ensures JoinLines(lines, end) + rest == lines[0] + end + (JoinLines(lines[1..], end) + rest)
  {
  }

  /** Splitting undoes joining, for either line end and whatever incomplete line follows. */
  lemma {:induction false} SplitUndoesJoin(lines: seq<seq<Byte>>, end: seq<Byte>, rest: seq<Byte>)
    requires IsLineEnd(end) && forall l :: l in lines ==> Survives(l, end)
    requires LF !in rest
    ensures SplitLines(JoinLines(lines, end) + rest) == lines
    ensures Rest(JoinLines(lines, end) + rest) == rest
  {
    if lines == [] {
      assert JoinLines(lines, end) + rest == rest;
      SplitNone(rest);
    } else {
      assert lines == [lines[0]] + lines[1..] && lines[0] in lines;
      SplitUndoesJoin(lines[1..], end, rest);
      JoinFirst(lines, end, rest);
      SplitFirst(lines[0], end, JoinLines(lines[1..], end) + rest);
    }
  }
}
