/** Small notions every part uses. */
module Basics {

  datatype Option<+T> = None | Some(value: T) {
    function GetOr(d: T): T
    {
      if Some? then value else d
    }
  }

  /** A slot of a slice's storage, zeroed or not. */
  datatype Cell<T> = Zero | Full(item: T)

  function Fulls<T>(s: seq<T>): (r: seq<Cell<T>>)
    ensures |r| == |s| && forall i :: 0 <= i < |s| ==> r[i] == Full(s[i])
  {
    seq(|s|, i requires 0 <= i < |s| => Full(s[i]))
  }

  function Items<T>(a: seq<Cell<T>>): (r: seq<T>)
    requires forall i :: 0 <= i < |a| ==> a[i].Full?
    ensures |r| == |a| && forall i :: 0 <= i < |a| ==> r[i] == a[i].item
  {
    seq(|a|, i requires 0 <= i < |a| => a[i].item)
  }

  function Min(a: int, b: int): int
  {
    if a < b then a else b
  }

  function Reversed<T>(s: seq<T>): (r: seq<T>)
    ensures |r| == |s| && forall i :: 0 <= i < |s| ==> r[i] == s[|s| - 1 - i]
  {
    if s == [] then [] else Reversed(s[1..]) + [s[0]]
  }
}
