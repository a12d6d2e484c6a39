/** Option, and the few sequence helpers shared by the models. */
module Basics {
  datatype Option<+T> = None | Some(value: T)

  /** JavaScript's `s.slice(-n)` for n > 0: the last n elements, or all of a shorter sequence. */
  function LastN<T>(s: seq<T>, n: nat): (r: seq<T>)
    ensures |r| <= n && |r| <= |s|
    ensures r == s[|s| - |r|..]
    ensures |s| <= n ==> r == s
  {
    if |s| <= n then s else s[|s| - n..]
  }

  function Min(a: int, b: int): int { if a <= b then a else b }

  function Max(a: int, b: int): int { if a <= b then b else a }
}
