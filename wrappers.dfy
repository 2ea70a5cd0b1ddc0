/** A Java reference that may be null: `None` stands for `null`. */
module Wrappers {

  datatype Option<+T> = None | Some(value: T)

  /** `java.util.Objects.equals` on two nullable values whose `equals` is value
      equality (as for `Integer`): two nulls are equal, a null and a non-null
      value are not, and two non-null values are compared by value. */
  function ObjectsEquals<T(==)>(a: Option<T>, b: Option<T>): (r: bool)
    ensures r <==> a == b
  {
    (a.None? && b.None?) || (a.Some? && b.Some? && a.value == b.value)
  }
}
