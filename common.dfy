/** Small value types shared by the pages: an optional value and a filter selection. */
module Common {

  /** A value that may be absent (`undefined` / `null` in the dashboard). */
  datatype Option<+T> = None | Some(value: T)

  /** The value of a filter drop-down: the 'all' entry, or one specific value. */
  datatype Selection<+T> = All | Only(value: T)

  /** Whether a selection lets `x` through: 'all' lets everything through. */
  predicate Admits<T(==)>(sel: Selection<T>, x: T)
  {
    sel.All? || sel.value == x
  }

  function Min(a: int, b: int): int
  {
    if a <= b then a else b
  }

  function Max(a: int, b: int): int
  {
    if a >= b then a else b
  }
}
