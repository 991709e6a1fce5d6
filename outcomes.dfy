/** Option, Result and the ways one hook invocation of the plug-in can abort. */
module Outcomes {

  datatype Option<T> = None | Some(value: T)

  /** Why a build hook aborts. Every failure is fatal: the host build tool only sees the abort. */
  datatype Failure =
    /** the plug-in printed this diagnostic (prefixed with the tool name) and raised RuntimeError */
    | Reported(message: string)
    /** a Python exception of this class escaped without a diagnostic of the plug-in's own */
    | Raised(exception: string)

  datatype Result<T> = Ok(value: T) | Err(failure: Failure)

  /** Keeps the elements of `s` that satisfy `keep`, in their order (a Python list comprehension
      or generator expression with an `if` clause). */
  function Filter<T>(s: seq<T>, keep: T -> bool): (r: seq<T>)
    ensures |r| <= |s|
    ensures forall i :: 0 <= i < |r| ==> r[i] in s && keep(r[i])
    ensures forall i :: 0 <= i < |s| && keep(s[i]) ==> s[i] in r
  {
    if |s| == 0 then [] else (if keep(s[0]) then [s[0]] else []) + Filter(s[1..], keep)
  }

  /** Filtering commutes with concatenation: the kept elements stay in their original order. */
  lemma {:induction false} FilterConcat<T>(a: seq<T>, b: seq<T>, keep: T -> bool)
    ensures Filter(a + b, keep) == Filter(a, keep) + Filter(b, keep)
  {
    if |a| > 0 {
      assert (a + b)[1..] == a[1..] + b;
      FilterConcat(a[1..], b, keep);
    } else {
      assert a + b == b;
    }
  }

  /** Nothing is dropped when every element is kept. */
  lemma {:induction false} FilterKeepsAll<T>(s: seq<T>, keep: T -> bool)
    requires forall i :: 0 <= i < |s| ==> keep(s[i])
    ensures Filter(s, keep) == s
  {
    if |s| > 0 {
      FilterKeepsAll(s[1..], keep);
      assert [s[0]] + s[1..] == s;
    }
  }
}
