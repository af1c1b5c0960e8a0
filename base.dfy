/** Small shared vocabulary: an optional value (Swift's `T?`) and the
    insert-or-remove toggle that two of the tab views apply to their
    sets of expanded sections. */
module Base {

  /** Swift's optional: `nil` is `None`. */
  datatype Option<T> = None | Some(value: T)

  /** `if s.contains(x) { s.remove(x) } else { s.insert(x) }`:
      membership of `x` flips and every other element keeps its membership. */
  function Toggle<T>(s: set<T>, x: T): (r: set<T>)
    ensures x in r <==> x !in s
    ensures r - {x} == s - {x}
  {
    if x in s then s - {x} else s + {x}
  }

  /** Toggling the same element twice restores the set. */
  lemma ToggleTwice<T>(s: set<T>, x: T)
    ensures Toggle(Toggle(s, x), x) == s
  {
  }

  /** Toggles of two different elements commute. */
  lemma ToggleCommutes<T>(s: set<T>, x: T, y: T)
    ensures Toggle(Toggle(s, x), y) == Toggle(Toggle(s, y), x)
  {
  }
}
