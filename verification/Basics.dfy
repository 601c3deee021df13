/** Notions several modules share. */
module Basics {

  datatype Option<T> = None | Some(value: T)

  predicate NoDup<T(==)>(s: seq<T>) { forall i, j :: 0 <= i < j < |s| ==> s[i] != s[j] }

  function Min(a: int, b: int): int { if a < b then a else b }

  function Elements<T(==)>(s: seq<T>): set<T> { set x | x in s }
}
