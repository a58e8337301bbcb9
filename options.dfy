/** Optional values and the fallback rule every lookup chain of the client is
    built from: try a candidate, and only when it came back null try the next
    one. `OrElse` is that step; `FirstSome` says independently what a chain of
    such steps returns. */
module Options {

  /** A nullable handle: `None` plays the part of `nullptr`. */
  datatype Option<+T> = None | Some(value: T)

  /** The first candidate that holds a value, trying them in order; `None`
      only when every candidate missed. */
  function FirstSome<T>(cands: seq<Option<T>>): (r: Option<T>)
    ensures r.Some? <==> exists i :: 0 <= i < |cands| && cands[i].Some?
    ensures r.Some? ==>
      exists i :: 0 <= i < |cands| && cands[i] == r && forall j :: 0 <= j < i ==> cands[j].None?
    ensures forall i :: 0 <= i < |cands| && cands[i].Some? && (forall j :: 0 <= j < i ==> cands[j].None?) ==>
      r == cands[i]
  {
    if cands == [] then None
    else if cands[0].Some? then cands[0]
    else
      var r := FirstSome(cands[1..]);
      assert forall i :: 1 <= i < |cands| ==> cands[i] == cands[1..][i - 1];
      r
  }

  /** `a` when it holds a value, `b` otherwise: one step of a fallback chain
      (`if (!x) x = next;`). */
  function OrElse<T>(a: Option<T>, b: Option<T>): Option<T> {
    if a.Some? then a else b
  }

  /** A chain of fallbacks picks the first candidate that succeeded. */
  lemma {:induction false} OrElseChainIsFirstSome<T>(cands: seq<Option<T>>)
    requires cands != []
    ensures OrElseChain(cands) == FirstSome(cands)
    decreases |cands|
  {
    if |cands| > 1 {
      var n := |cands|;
      var front := cands[..n - 1];
      OrElseChainIsFirstSome(front);
      if FirstSome(front).Some? {
        var i :| 0 <= i < |front| && front[i] == FirstSome(front) && forall j :: 0 <= j < i ==> front[j].None?;
        assert cands[i] == front[i];
        assert forall j :: 0 <= j < i ==> cands[j] == front[j];
      } else {
        assert forall j :: 0 <= j < n - 1 ==> cands[j] == front[j];
        if cands[n - 1].None? {
          assert forall j :: 0 <= j < n ==> cands[j].None?;
        }
      }
    }
  }

  /** `OrElse(OrElse(c0, c1), c2) ...`, left to right. */
  function OrElseChain<T>(cands: seq<Option<T>>): Option<T>
    requires cands != []
  {
    if |cands| == 1 then cands[0] else OrElse(OrElseChain(cands[..|cands| - 1]), cands[|cands| - 1])
  }
}
