/** The Foundation string operations the analyser relies on, over plain
    character sequences: `lowercased()` (ASCII letters only),
    `contains(_:)` for substrings, `trimmingCharacters(in: .whitespaces)`
    (space and tab), `components(separatedBy:)` for one separator
    character, `joined(separator:)`, `replacingOccurrences(of:with:)`
    and decimal rendering of a count. */
module TextOps {

  // ---------------------------------------------------------------
  // Lower case
  // ---------------------------------------------------------------

  /** ASCII upper-case letters become lower case; every other character is kept. */
  function LowerChar(c: char): char {
    if 'A' <= c <= 'Z' then (c as int + 32) as char else c
  }

  function Lower(s: string): (r: string)
    ensures |r| == |s|
  {
    seq(|s|, i requires 0 <= i < |s| => LowerChar(s[i]))
  }

  /** ASCII lower-case letters become upper case; every other character is kept. */
  function UpperChar(c: char): char {
    if 'a' <= c <= 'z' then (c as int - 32) as char else c
  }

  /** `capitalized` on a single word: its first letter upper case, the rest lower case. */
  function Capitalized(word: string): (r: string)
    ensures |r| == |word|
  {
    if word == [] then [] else [UpperChar(word[0])] + Lower(word[1..])
  }

  /** Capitalising changes nothing but letter case. */
  lemma CapitalizedSameLetters(word: string)
    ensures Lower(Capitalized(word)) == Lower(word)
  {
    if word != [] {
      assert LowerChar(UpperChar(word[0])) == LowerChar(word[0]);
      assert forall i :: 1 <= i < |word| ==> LowerChar(LowerChar(word[i])) == LowerChar(word[i]);
    }
  }

  lemma LowerAppend(a: string, b: string)
    ensures Lower(a + b) == Lower(a) + Lower(b)
  {
  }

  // ---------------------------------------------------------------
  // Substring search
  // ---------------------------------------------------------------

  /** `p` occurs in `s` starting at index `i`. */
  predicate OccursAt(s: string, p: string, i: int) {
    0 <= i && i + |p| <= |s| && s[i..i + |p|] == p
  }

  /** `s.contains(p)` */
  predicate Contains(s: string, p: string) {
    exists i :: 0 <= i <= |s| - |p| && OccursAt(s, p, i)
  }

  /** An occurrence in the tail of `s` is an occurrence in `s`. */
  lemma ContainsTail(s: string, p: string)
    requires s != []
    requires Contains(s[1..], p)
    ensures Contains(s, p)
  {
    var i :| 0 <= i <= |s[1..]| - |p| && OccursAt(s[1..], p, i);
    assert s[1..][i..i + |p|] == s[i + 1..i + 1 + |p|];
    assert OccursAt(s, p, i + 1);
  }

  /** Every character of the pattern appears in a string that contains it. */
  lemma ContainsHasChar(s: string, p: string, j: int)
    requires Contains(s, p) && 0 <= j < |p|
    ensures p[j] in s
  {
    var i :| 0 <= i <= |s| - |p| && OccursAt(s, p, i);
    assert s[i..i + |p|][j] == s[i + j];
  }

  /** Lower-casing creates no character other than a lower-case letter. */
  lemma LowerKeepsOthers(s: string, c: char)
    requires !('a' <= c <= 'z') && c in Lower(s)
    ensures c in s
  {
    var i :| 0 <= i < |s| && Lower(s)[i] == c;
    assert s[i] == c;
  }

  /** An occurrence that does not start at index 0 lies in the tail. */
  lemma ContainsSplitsAtHead(s: string, p: string)
    requires Contains(s, p)
    ensures OccursAt(s, p, 0) || (s != [] && Contains(s[1..], p))
  {
    var i :| 0 <= i <= |s| - |p| && OccursAt(s, p, i);
    if i > 0 {
      assert s[1..][i - 1..i - 1 + |p|] == s[i..i + |p|];
      assert OccursAt(s[1..], p, i - 1);
    }
  }

  /** Occurrences never straddle a character that the pattern does not contain:
      if `x` ends in such a character, an occurrence in `x + y` lies inside `x` or inside `y`. */
  lemma ContainsConcat(x: string, y: string, p: string)
    requires x != [] && x[|x| - 1] !in p
    requires Contains(x + y, p)
    ensures Contains(x, p) || Contains(y, p)
  {
    var i :| 0 <= i <= |x + y| - |p| && OccursAt(x + y, p, i);
    if i + |p| <= |x| {
      assert (x + y)[i..i + |p|] == x[i..i + |p|];
      assert OccursAt(x, p, i);
    } else if i >= |x| {
      assert (x + y)[i..i + |p|] == y[i - |x|..i - |x| + |p|];
      assert OccursAt(y, p, i - |x|);
    } else {
      StraddleCoversLast(x, y, p, i);
      assert false;
    }
  }

  /** An occurrence that starts inside `x` and ends inside `y` covers the last character of `x`. */
  lemma StraddleCoversLast(x: string, y: string, p: string, i: int)
    requires OccursAt(x + y, p, i) && i < |x| < i + |p|
    ensures x[|x| - 1] in p
  {
    assert p[|x| - 1 - i] == (x + y)[i..i + |p|][|x| - 1 - i] == x[|x| - 1];
  }

  // ---------------------------------------------------------------
  // Trimming
  // ---------------------------------------------------------------

  /** The horizontal whitespace that `.whitespaces` stands for here. */
  predicate IsBlank(c: char) {
    c == ' ' || c == '\t'
  }

  function TrimStart(s: string): (r: string)
    ensures |r| <= |s| && r == s[|s| - |r|..]
    ensures forall i :: 0 <= i < |s| - |r| ==> IsBlank(s[i])
    ensures r == [] || !IsBlank(r[0])
    decreases |s|
  {
    if s != [] && IsBlank(s[0]) then TrimStart(s[1..]) else s
  }

  function TrimEnd(s: string): (r: string)
    ensures |r| <= |s| && r == s[..|r|]
    ensures forall i :: |r| <= i < |s| ==> IsBlank(s[i])
    ensures r == [] || !IsBlank(r[|r| - 1])
    decreases |s|
  {
    if s != [] && IsBlank(s[|s| - 1]) then TrimEnd(s[..|s| - 1]) else s
  }

  /** `r` is `s` with the blanks before index `a` and after `a + |r|` removed,
      and `r` neither starts nor ends with a blank. */
  predicate TrimmedAt(s: string, r: string, a: int) {
    && 0 <= a && a + |r| <= |s| && r == s[a..a + |r|]
    && (forall i :: 0 <= i < a ==> IsBlank(s[i]))
    && (forall i :: a + |r| <= i < |s| ==> IsBlank(s[i]))
    && (r == [] || (!IsBlank(r[0]) && !IsBlank(r[|r| - 1])))
  }

  /** `s.trimmingCharacters(in: .whitespaces)` */
  function Trim(s: string): (r: string)
    ensures exists a :: TrimmedAt(s, r, a)
    ensures r == [] <==> forall i :: 0 <= i < |s| ==> IsBlank(s[i])
  {
    var t := TrimStart(s);
    var r := TrimEnd(t);
    assert TrimmedAt(s, r, |s| - |t|);
    r
  }

  /** One leading space in front of a text that starts and ends with a non-blank is trimmed away. */
  lemma TrimOneSpace(x: string)
    requires x != [] && !IsBlank(x[0]) && !IsBlank(x[|x| - 1])
    ensures Trim(" " + x) == x
  {
    var s := " " + x;
    assert s[0] == ' ' && s[1..] == x;
    assert TrimStart(x) == x;
    assert TrimStart(s) == x;
    assert TrimEnd(x) == x;
  }

  /** A character that is not blank is kept by trimming the start, shifted left. */
  lemma TrimStartKeeps(s: string, i: nat)
    requires i < |s| && !IsBlank(s[i])
    ensures |s| - |TrimStart(s)| <= i && TrimStart(s)[i - (|s| - |TrimStart(s)|)] == s[i]
  {
    var t := TrimStart(s);
    assert t == s[|s| - |t|..];
  }

  /** A character that is not blank is kept in place by trimming the end. */
  lemma TrimEndKeeps(t: string, j: nat)
    requires j < |t| && !IsBlank(t[j])
    ensures j < |TrimEnd(t)| && TrimEnd(t)[j] == t[j]
  {
    var r := TrimEnd(t);
    assert r == t[..|r|];
  }

  /** A character that is not blank survives trimming. */
  lemma TrimKeeps(s: string, c: char)
    requires c in s && !IsBlank(c)
    ensures c in Trim(s)
  {
    var i :| 0 <= i < |s| && s[i] == c;
    TrimStartKeeps(s, i);
    var t := TrimStart(s);
    var j := i - (|s| - |t|);
    TrimEndKeeps(t, j);
    assert Trim(s)[j] == c;
  }

  // ---------------------------------------------------------------
  // Splitting and joining
  // ---------------------------------------------------------------

  /** `s.components(separatedBy: String(c))`: the maximal runs between
      separators, one more than there are separators, none holding `c`. */
  function Split(s: string, c: char): (parts: seq<string>)
    ensures |parts| == multiset(s)[c] + 1
    ensures forall k :: 0 <= k < |parts| ==> c !in parts[k]
    decreases |s|
  {
    if s == [] then [""]
    else
      var rest := Split(s[1..], c);
      assert s == [s[0]] + s[1..];
      assert multiset(s) == multiset([s[0]]) + multiset(s[1..]);
      if s[0] == c then [""] + rest
      else [[s[0]] + rest[0]] + rest[1..]
  }

  /** `parts.joined(separator: sep)` */
  function Join(parts: seq<string>, sep: string): string
    decreases |parts|
  {
    if |parts| == 0 then ""
    else if |parts| == 1 then parts[0]
    else parts[0] + sep + Join(parts[1..], sep)
  }

  /** Prefixing the first part prefixes the joined string. */
  lemma JoinExtendHead(x: string, parts: seq<string>, sep: string)
    requires |parts| >= 1
    ensures Join([x + parts[0]] + parts[1..], sep) == x + Join(parts, sep)
  {
    var q := [x + parts[0]] + parts[1..];
    assert q[1..] == parts[1..];
  }

  /** An empty first part contributes only the separator. */
  lemma JoinEmptyHead(parts: seq<string>, sep: string)
    requires |parts| >= 1
    ensures Join([""] + parts, sep) == sep + Join(parts, sep)
  {
    assert ([""] + parts)[1..] == parts;
  }

  /** One step of `Split`: a leading separator opens an empty piece, any other
      character joins the first piece of the rest. */
  lemma SplitHead(s: string, c: char)
    requires s != []
    ensures s[0] == c ==> Split(s, c) == [""] + Split(s[1..], c)
    ensures s[0] != c ==> Split(s, c) == [[s[0]] + Split(s[1..], c)[0]] + Split(s[1..], c)[1..]
  {
  }

  /** Joining the pieces back with the separator gives the original string. */
  lemma {:induction false} SplitJoin(s: string, c: char)
    ensures Join(Split(s, c), [c]) == s
    decreases |s|
  {
    if s != [] {
      var rest := Split(s[1..], c);
      SplitJoin(s[1..], c);
      assert s == [s[0]] + s[1..];
      if s[0] == c {
        calc {
          Join(Split(s, c), [c]);
          { SplitHead(s, c); }
          Join([""] + rest, [c]);
          { JoinEmptyHead(rest, [c]); }
          [c] + Join(rest, [c]);
        }
      } else {
        calc {
          Join(Split(s, c), [c]);
          { SplitHead(s, c); }
          Join([[s[0]] + rest[0]] + rest[1..], [c]);
          { JoinExtendHead([s[0]], rest, [c]); }
          [s[0]] + Join(rest, [c]);
        }
      }
    }
  }

  /** A string without the separator is a single piece. */
  lemma {:induction false} SplitWithoutSeparator(x: string, c: char)
    requires c !in x
    ensures Split(x, c) == [x]
    decreases |x|
  {
    if x != [] {
      assert c !in x[1..];
      SplitWithoutSeparator(x[1..], c);
      assert [x[0]] + x[1..] == x;
    }
  }

  /** The piece before the first separator comes first, the rest is split on its own. */
  lemma {:induction false} SplitAtSeparator(x: string, t: string, c: char)
    requires c !in x
    ensures Split(x + [c] + t, c) == [x] + Split(t, c)
    decreases |x|
  {
    var s := x + [c] + t;
    if x == [] {
      assert s[1..] == t;
    } else {
      assert s[1..] == x[1..] + [c] + t;
      assert c !in x[1..];
      SplitAtSeparator(x[1..], t, c);
      assert [x[0]] + x[1..] == x;
    }
  }

  /** Splitting a join of separator-free pieces gives the pieces back. */
  lemma {:induction false} JoinSplit(parts: seq<string>, c: char)
    requires |parts| >= 1
    requires forall k :: 0 <= k < |parts| ==> c !in parts[k]
    ensures Split(Join(parts, [c]), c) == parts
    decreases |parts|
  {
    if |parts| == 1 {
      SplitWithoutSeparator(parts[0], c);
    } else {
      JoinSplit(parts[1..], c);
      SplitAtSeparator(parts[0], Join(parts[1..], [c]), c);
      assert [parts[0]] + parts[1..] == parts;
    }
  }

  /** Index of the first `c` in `s`. */
  function FirstIndex(s: string, c: char): (i: nat)
    requires c in s
    ensures i < |s| && s[i] == c && c !in s[..i]
  {
    if s[0] == c then 0
    else
      var j := FirstIndex(s[1..], c);
      assert s[..j + 1] == [s[0]] + s[1..][..j];
      j + 1
  }

  /** `s.components(separatedBy: c).dropFirst().joined(separator: c)`:
      everything after the first separator, later separators kept. */
  lemma AfterFirstSeparator(s: string, c: char)
    requires c in s
    ensures Join(Split(s, c)[1..], [c]) == s[FirstIndex(s, c) + 1..]
  {
    var i := FirstIndex(s, c);
    assert s == s[..i] + [c] + s[i + 1..];
    SplitAtSeparator(s[..i], s[i + 1..], c);
    assert Split(s, c)[1..] == Split(s[i + 1..], c);
    SplitJoin(s[i + 1..], c);
  }

  // ---------------------------------------------------------------
  // Replacing
  // ---------------------------------------------------------------

  /** `s.replacingOccurrences(of: pat, with: rep)`: non-overlapping
      occurrences, found from left to right. A string without `pat`
      comes back unchanged. */
  function ReplaceAll(s: string, pat: string, rep: string): (r: string)
    requires |pat| > 0
    ensures !Contains(s, pat) ==> r == s
    decreases |s|
  {
    if |s| < |pat| then s
    else if s[..|pat|] == pat then assert OccursAt(s, pat, 0); rep + ReplaceAll(s[|pat|..], pat, rep)
    else
      var tail := ReplaceAll(s[1..], pat, rep);
      if Contains(s[1..], pat) then ContainsTail(s, pat); [s[0]] + tail
      else [s[0]] + tail
  }

  /** Replacing one character by another works position by position: the
      length is kept and exactly the occurrences of `c` become `d`. */
  lemma {:induction false} ReplaceCharPointwise(s: string, c: char, d: char)
    ensures |ReplaceAll(s, [c], [d])| == |s|
    ensures forall i :: 0 <= i < |s| ==> ReplaceAll(s, [c], [d])[i] == (if s[i] == c then d else s[i])
    decreases |s|
  {
    if |s| >= 1 {
      ReplaceCharPointwise(s[1..], c, d);
      assert s[..1] == [c] <==> s[0] == c;
      assert s[1..] == s[|[c]|..];
      var r := ReplaceAll(s, [c], [d]);
      var tail := ReplaceAll(s[1..], [c], [d]);
      assert r == [if s[0] == c then d else s[0]] + tail;
      forall i | 1 <= i < |s|
        ensures r[i] == (if s[i] == c then d else s[i])
      {
        assert r[i] == tail[i - 1] && s[i] == s[1..][i - 1];
      }
    }
  }

  // ---------------------------------------------------------------
  // Assembling text
  // ---------------------------------------------------------------

  /** `s.hasSuffix(t)`. */
  predicate EndsWith(s: string, t: string) {
    |t| <= |s| && s[|s| - |t|..] == t
  }

  /** Regrouping the tail of a chain of appends. */
  lemma AppendRegroup(a: string, b: string, c: string, d: string)
    ensures a + b + c + d == a + (b + c + d)
  {
  }

  /** The pieces written one after another. */
  function Concat(parts: seq<string>): string
    decreases |parts|
  {
    if parts == [] then "" else parts[0] + Concat(parts[1..])
  }

  lemma {:induction false} ConcatAppend(a: seq<string>, b: seq<string>)
    ensures Concat(a + b) == Concat(a) + Concat(b)
    decreases |a|
  {
    if a != [] {
      assert (a + b)[1..] == a[1..] + b;
      ConcatAppend(a[1..], b);
    } else {
      assert a + b == b;
    }
  }

  /** Concatenating one more part of a prefix appends that part. */
  lemma ConcatStep(parts: seq<string>, i: nat)
    requires i < |parts|
    ensures Concat(parts[..i + 1]) == Concat(parts[..i]) + parts[i]
  {
    ConcatAppend(parts[..i], [parts[i]]);
    assert parts[..i + 1] == parts[..i] + [parts[i]];
    assert Concat([parts[i]]) == parts[i] + Concat([]);
  }

  function DigitChar(d: nat): char
    requires d < 10
  {
    "0123456789"[d]
  }

  /** `"\(n)"` for a non-negative count: decimal digits, most significant first. */
  function Decimal(n: nat): (r: string)
    ensures |r| >= 1 && forall k :: 0 <= k < |r| ==> '0' <= r[k] <= '9'
    decreases n
  {
    if n < 10 then [DigitChar(n)] else Decimal(n / 10) + [DigitChar(n % 10)]
  }
}
