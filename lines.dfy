/** The shape shared by the analyser's three list extractors: walk the
    document's lines in order, keep the lines a test accepts and record
    each one in a rendered form. */
module LineCollect {

  /** The rendered forms of the accepted lines, in document order. */
  function Collect(lines: seq<string>, keep: string -> bool, render: string -> string): seq<string>
    decreases |lines|
  {
    if lines == [] then []
    else (if keep(lines[0]) then [render(lines[0])] else []) + Collect(lines[1..], keep, render)
  }

  /** Collecting over two blocks of lines is collecting over each block in turn. */
  lemma {:induction false} CollectAppend(a: seq<string>, b: seq<string>, keep: string -> bool, render: string -> string)
    ensures Collect(a + b, keep, render) == Collect(a, keep, render) + Collect(b, keep, render)
    decreases |a|
  {
    if a == [] {
      assert a + b == b;
    } else {
      assert (a + b)[1..] == a[1..] + b;
      CollectAppend(a[1..], b, keep, render);
    }
  }

  /** Every collected entry is the rendering of an accepted line. */
  lemma {:induction false} CollectSound(lines: seq<string>, keep: string -> bool, render: string -> string, g: string)
    requires g in Collect(lines, keep, render)
    ensures exists k :: 0 <= k < |lines| && keep(lines[k]) && render(lines[k]) == g
    decreases |lines|
  {
    if !(keep(lines[0]) && render(lines[0]) == g) {
      CollectSound(lines[1..], keep, render, g);
      var k :| 0 <= k < |lines[1..]| && keep(lines[1..][k]) && render(lines[1..][k]) == g;
      assert lines[k + 1] == lines[1..][k];
    }
  }

  /** Every accepted line is collected. */
  lemma {:induction false} CollectComplete(lines: seq<string>, keep: string -> bool, render: string -> string, k: nat)
    requires k < |lines| && keep(lines[k])
    ensures render(lines[k]) in Collect(lines, keep, render)
    decreases |lines|
  {
    if k > 0 {
      assert lines[1..][k - 1] == lines[k];
      CollectComplete(lines[1..], keep, render, k - 1);
    }
  }

  /** Nothing is collected exactly when no line is accepted. */
  lemma {:induction false} CollectEmpty(lines: seq<string>, keep: string -> bool, render: string -> string)
    ensures Collect(lines, keep, render) == [] <==> forall k :: 0 <= k < |lines| ==> !keep(lines[k])
    decreases |lines|
  {
    if lines != [] {
      CollectEmpty(lines[1..], keep, render);
      assert forall k :: 1 <= k < |lines| ==> lines[k] == lines[1..][k - 1];
    }
  }

  /** Two tests that agree on every line collect the same entries. */
  lemma {:induction false} CollectAgrees(lines: seq<string>, keep1: string -> bool, keep2: string -> bool, render: string -> string)
    requires forall k :: 0 <= k < |lines| ==> keep1(lines[k]) == keep2(lines[k])
    ensures Collect(lines, keep1, render) == Collect(lines, keep2, render)
    decreases |lines|
  {
    if lines != [] {
      assert forall k :: 0 <= k < |lines[1..]| ==> lines[1..][k] == lines[k + 1];
      CollectAgrees(lines[1..], keep1, keep2, render);
    }
  }

  /** The `for line in lines { if … { list.append(…) } }` loop. */
  method CollectLines(lines: seq<string>, keep: string -> bool, render: string -> string) returns (out: seq<string>)
    ensures out == Collect(lines, keep, render)
  {
    out := [];
    for i := 0 to |lines|
      invariant out == Collect(lines[..i], keep, render)
    {
      CollectAppend(lines[..i], [lines[i]], keep, render);
      assert lines[..i + 1] == lines[..i] + [lines[i]];
      if keep(lines[i]) {
        out := out + [render(lines[i])];
      }
    }
    assert lines[..|lines|] == lines;
  }
}
