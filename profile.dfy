/** The profile screen: the avatar's initials, computed from the name, and the
    Edit/Save switch. */
module Profile {
  import opened TextOps

  /** `compactMap { $0.first }`: the first character of every non-empty piece, in order. */
  function Firsts(parts: seq<string>): (r: string)
    ensures |r| <= |parts|
    decreases |parts|
  {
    if parts == [] then []
    else (if parts[0] != [] then [parts[0][0]] else []) + Firsts(parts[1..])
  }

  /** The initials shown in the avatar: the first two of those characters, or
      all of them when the name has fewer than two non-empty words. */
  function Initials(name: string): (r: string)
    ensures |r| <= 2
    ensures r <= Firsts(Split(name, ' '))
    ensures |r| == if |Firsts(Split(name, ' '))| < 2 then |Firsts(Split(name, ' '))| else 2
  {
    var firsts := Firsts(Split(name, ' '));
    if |firsts| <= 2 then firsts else firsts[..2]
  }

  /** First characters over two lists of pieces come one list after the other. */
  lemma {:induction false} FirstsAppend(a: seq<string>, b: seq<string>)
    ensures Firsts(a + b) == Firsts(a) + Firsts(b)
    decreases |a|
  {
    if a == [] {
      assert a + b == b;
    } else {
      var ab := a + b;
      assert ab != [] && ab[0] == a[0] && ab[1..] == a[1..] + b;
      FirstsAppend(a[1..], b);
      var head := if a[0] != [] then [a[0][0]] else [];
      assert Firsts(ab) == head + Firsts(ab[1..]);
      assert Firsts(a) == head + Firsts(a[1..]);
    }
  }

  /** Extra spaces give empty pieces, and empty pieces contribute nothing: a
      leading space does not change the initials. */
  lemma LeadingSpaceIgnored(name: string)
    ensures Initials(" " + name) == Initials(name)
  {
    SplitAtSeparator("", name, ' ');
    assert "" + [' '] + name == " " + name;
    FirstsAppend([""], Split(name, ' '));
  }

  /** A word followed by a space contributes its first letter ahead of the rest. */
  lemma WordThenRest(word: string, rest: string)
    requires word != [] && ' ' !in word
    ensures Firsts(Split(word + " " + rest, ' ')) == [word[0]] + Firsts(Split(rest, ' '))
  {
    SplitAtSeparator(word, rest, ' ');
    assert word + [' '] + rest == word + " " + rest;
    FirstsAppend([word], Split(rest, ' '));
  }

  /** A single word gives its first letter; two words give their two first letters. */
  lemma WordInitials(first: string, last: string)
    requires first != [] && last != [] && ' ' !in first && ' ' !in last
    ensures Initials(first) == [first[0]]
    ensures Initials(first + " " + last) == [first[0], last[0]]
  {
    SplitWithoutSeparator(first, ' ');
    SplitWithoutSeparator(last, ' ');
    WordThenRest(first, last);
  }

  /** Names with more than two words keep only the first two initials. */
  lemma ThreeWordInitials(name: string, a: string, b: string, c: string)
    requires Split(name, ' ') == [a, b, c] && a != [] && b != [] && c != []
    ensures Initials(name) == [a[0], b[0]]
  {
    FirstsAppend([a], [b, c]);
    FirstsAppend([b], [c]);
  }

  /** The label of the edit button. */
  function EditLabel(isEditing: bool): string {
    if isEditing then "Save" else "Edit"
  }

  class ProfileScreen {
    var isEditing: bool
    var name: string

    constructor ()
      ensures !isEditing && name == "John Doe"
    {
      isEditing := false;
      name := "John Doe";
    }

    /** `isEditing.toggle()`: the label switches between "Edit" and "Save". */
    method ToggleEditing()
      modifies this
      ensures isEditing == !old(isEditing) && name == old(name)
      ensures EditLabel(isEditing) == (if old(isEditing) then "Edit" else "Save")
    {
      isEditing := !isEditing;
    }
  }
}
