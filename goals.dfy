/** The goals tab's display rules: the expanded domain cards, the short
    labels and the three-column summary of each goal area, and the two-column
    grid of metrics. */
module Goals {
  import opened Base
  import opened TextOps

  /** `String(s.prefix(50)) + (s.count > 50 ? "..." : "")` */
  function Truncated(s: string): (r: string)
    ensures |s| <= 50 ==> r == s
    ensures |s| > 50 ==> |r| == 53 && r[..50] == s[..50] && r[50..] == "..."
    ensures |r| <= 53 && r[..if |s| < 50 then |s| else 50] == s[..if |s| < 50 then |s| else 50]
  {
    if |s| > 50 then s[..50] + "..." else s
  }

  /** Two long texts that agree on their first fifty characters are shown the
      same: whatever lies past the fiftieth character is lost. */
  lemma TruncatedKeepsPrefix(s: string, t: string)
    requires |s| > 50 && |t| > 50 && s[..50] == t[..50]
    ensures Truncated(s) == Truncated(t)
  {
  }

  /** `title.components(separatedBy: " ").first ?? ""`: the split always has a
      first piece, so the fallback never applies. */
  function DomainLabel(title: string): string {
    Split(title, ' ')[0]
  }

  /** The label is the title up to its first space, or the whole title when it
      has none; it never holds a space. */
  lemma DomainLabelIsFirstWord(title: string)
    ensures ' ' in title ==> DomainLabel(title) == title[..FirstIndex(title, ' ')]
    ensures ' ' !in title ==> DomainLabel(title) == title
    ensures ' ' !in DomainLabel(title) && DomainLabel(title) <= title
  {
    if ' ' in title {
      var i := FirstIndex(title, ' ');
      assert title == title[..i] + [' '] + title[i + 1..];
      SplitAtSeparator(title[..i], title[i + 1..], ' ');
    } else {
      SplitWithoutSeparator(title, ' ');
    }
  }

  /** `domains.prefix(3)`: the first three, in order, or all of them when fewer. */
  function HeaderDomains<T>(domains: seq<T>): (r: seq<T>)
    ensures r <= domains
    ensures |r| == if |domains| < 3 then |domains| else 3
  {
    if |domains| < 3 then domains else domains[..3]
  }

  /** One row of the metrics grid: a card, and a second card or a spacer. */
  datatype Row<T> = Row(left: T, right: Option<T>)

  /** The grid: a row for each even index, holding that metric and the next one if any. */
  function Rows<T>(metrics: seq<T>): (rows: seq<Row<T>>)
    ensures |rows| == (|metrics| + 1) / 2
    decreases |metrics|
  {
    if |metrics| == 0 then []
    else if |metrics| == 1 then [Row(metrics[0], None)]
    else [Row(metrics[0], Some(metrics[1]))] + Rows(metrics[2..])
  }

  /** Row `i` holds metric `2i` and, when there is one, metric `2i + 1`. */
  lemma {:induction false} RowPlacesPair<T>(metrics: seq<T>, i: nat)
    requires i < |Rows(metrics)|
    ensures 2 * i < |metrics| && Rows(metrics)[i].left == metrics[2 * i]
    ensures Rows(metrics)[i].right == (if 2 * i + 1 < |metrics| then Some(metrics[2 * i + 1]) else None)
    decreases i
  {
    if i > 0 {
      RowPlacesPair(metrics[2..], i - 1);
      assert Rows(metrics)[i] == Rows(metrics[2..])[i - 1];
      assert metrics[2..][2 * (i - 1)] == metrics[2 * i];
      if 2 * i + 1 < |metrics| {
        assert metrics[2..][2 * (i - 1) + 1] == metrics[2 * i + 1];
      }
    }
  }

  /** Reading the grid row by row, left then right. */
  function Flatten<T>(rows: seq<Row<T>>): seq<T>
    decreases |rows|
  {
    if rows == [] then []
    else [rows[0].left] + (if rows[0].right.Some? then [rows[0].right.value] else []) + Flatten(rows[1..])
  }

  /** Every metric appears exactly once in the grid, in order. */
  lemma {:induction false} GridShowsEachMetricOnce<T>(metrics: seq<T>)
    ensures Flatten(Rows(metrics)) == metrics
    decreases |metrics|
  {
    if |metrics| >= 2 {
      GridShowsEachMetricOnce(metrics[2..]);
      var rows := Rows(metrics);
      assert rows[1..] == Rows(metrics[2..]);
      assert metrics == [metrics[0], metrics[1]] + metrics[2..];
    } else if |metrics| == 1 {
      assert Rows(metrics)[1..] == [];
    }
  }

  /** The tab's expanded domain cards; each random identifier becomes a number. */
  class GoalsTab {
    var expandedDomains: set<nat>

    constructor ()
      ensures expandedDomains == {}
    {
      expandedDomains := {};
    }

    /** `toggleDomain`: opens a closed card and closes an open one. */
    method ToggleDomain(id: nat)
      modifies this
      ensures expandedDomains == Toggle(old(expandedDomains), id)
      ensures id in expandedDomains <==> id !in old(expandedDomains)
      ensures expandedDomains - {id} == old(expandedDomains) - {id}
    {
      if id in expandedDomains {
        expandedDomains := expandedDomains - {id};
      } else {
        expandedDomains := expandedDomains + {id};
      }
    }
  }
}
