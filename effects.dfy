/**
 * Requests started by a React effect. Each run of an effect that fetches creates an
 * AbortController; the run's cleanup aborts it. A request stays in flight until it settles, and an
 * aborted one settles with a `CanceledError` whatever the server does.
 */
module Effects {

  /** A request in flight: what its run was started from, and whether its controller was aborted. */
  datatype Pending<S> = Pending(source: S, aborted: bool)

  predicate Live<S>(rs: seq<Pending<S>>, i: int) {
    0 <= i < |rs| && !rs[i].aborted
  }

  predicate NoLive<S>(rs: seq<Pending<S>>) {
    forall i :: 0 <= i < |rs| ==> rs[i].aborted
  }

  /** Every live request was started from `src`. */
  ghost predicate LiveFrom<S>(rs: seq<Pending<S>>, src: S) {
    forall i :: Live(rs, i) ==> rs[i].source == src
  }

  ghost predicate AtMostOneLive<S>(rs: seq<Pending<S>>) {
    forall i, j :: Live(rs, i) && Live(rs, j) ==> i == j
  }

  /** The cleanup of the last run: every controller aborted. */
  function AbortAll<S>(rs: seq<Pending<S>>): (r: seq<Pending<S>>)
    ensures |r| == |rs| && NoLive(r)
    ensures forall i :: 0 <= i < |rs| ==> r[i].source == rs[i].source
  {
    seq(|rs|, i requires 0 <= i < |rs| => rs[i].(aborted := true))
  }

  /** `rs` with the request at `i`, which has settled, removed. */
  function RemoveAt<S>(rs: seq<Pending<S>>, i: nat): (r: seq<Pending<S>>)
    requires i < |rs|
    ensures |r| == |rs| - 1
    ensures forall k :: 0 <= k < |r| ==> r[k] == if k < i then rs[k] else rs[k + 1]
  {
    rs[..i] + rs[i + 1..]
  }

  /** Removing a settled request leaves no new live request behind. */
  lemma RemoveKeepsLive<S>(rs: seq<Pending<S>>, i: nat, src: S)
    requires i < |rs|
    ensures NoLive(rs) ==> NoLive(RemoveAt(rs, i))
    ensures LiveFrom(rs, src) ==> LiveFrom(RemoveAt(rs, i), src)
    ensures AtMostOneLive(rs) ==> AtMostOneLive(RemoveAt(rs, i))
  {
    var rest := RemoveAt(rs, i);
    forall k | Live(rest, k)
      ensures Live(rs, if k < i then k else k + 1) && rest[k] == rs[if k < i then k else k + 1]
    {
    }
  }

  /** Starting one live request after every other one was aborted leaves exactly that one live. */
  lemma StartAfterAbort<S>(rs: seq<Pending<S>>, src: S)
    requires NoLive(rs)
    ensures LiveFrom(rs + [Pending(src, false)], src)
    ensures AtMostOneLive(rs + [Pending(src, false)])
    ensures Live(rs + [Pending(src, false)], |rs|)
  {
    var r := rs + [Pending(src, false)];
    assert forall k :: 0 <= k < |rs| ==> r[k] == rs[k];
  }
}
