/** Values that may be missing, results that may be an error, and list comprehensions. */
module Common {

  /** A value that may be absent: a JSON key that may be missing, a call that may fail. */
  datatype Option<+T> = None | Some(value: T) {

    /** Python's `d.get(key, default)`. */
    function GetOr(default: T): T {
      match this
      case Some(v) => v
      case None => default
    }
  }

  /** The outcome of a call that may raise: its value, or the message of the exception. */
  datatype Result<+T> = Ok(value: T) | Err(message: string)

  function Min(a: int, b: int): int {
    if a <= b then a else b
  }

  /** The records `keep` accepts, in input order (a list comprehension's `if`). */
  function Select<R>(rs: seq<R>, keep: R -> bool): (out: seq<R>)
    ensures |out| <= |rs|
    ensures forall k :: 0 <= k < |out| ==> keep(out[k]) && out[k] in rs
  {
    if rs == [] then []
    else
      var init := Select(rs[..|rs| - 1], keep);
      init + (if keep(rs[|rs| - 1]) then [rs[|rs| - 1]] else [])
  }

  /** `f` applied to every element, in order. */
  function MapSeq<R, T>(rs: seq<R>, f: R -> T): (out: seq<T>)
    ensures |out| == |rs| && forall k :: 0 <= k < |rs| ==> out[k] == f(rs[k])
  {
    seq(|rs|, k requires 0 <= k < |rs| => f(rs[k]))
  }

  /** Filtering a sequence with a new first element. */
  lemma {:induction false} SelectCons<R>(r: R, rs: seq<R>, keep: R -> bool)
    ensures Select([r] + rs, keep) == (if keep(r) then [r] else []) + Select(rs, keep)
    decreases |rs|
  {
    if rs != [] {
      var last := rs[|rs| - 1];
      assert ([r] + rs)[..|rs|] == [r] + rs[..|rs| - 1];
      SelectCons(r, rs[..|rs| - 1], keep);
    }
  }

  /** Mapping distributes over concatenation. */
  lemma MapSeqAppend<R, T>(a: seq<R>, b: seq<R>, f: R -> T)
    ensures MapSeq(a + b, f) == MapSeq(a, f) + MapSeq(b, f)
  {
  }
}
