/** `choose_deterministic` (api/analyze.py:436-440): the same upload always
    picks the same element, by its MD5 digest read as a number. The digest is
    a parameter: hashing is not modelled. */
module Picker {
  import opened Wrappers

  function ChooseDeterministic<T>(pool: seq<T>, audio: seq<bv8>, md5: seq<bv8> -> nat): (choice: Option<T>)
    ensures choice.None? <==> |pool| == 0
    ensures choice.Some? ==> choice.value in pool
    ensures choice.Some? ==> exists i :: 0 <= i < |pool| && i == md5(audio) % |pool| && choice.value == pool[i]
  {
    if |pool| == 0 then None else Some(pool[md5(audio) % |pool|])
  }

  /** Pools of equal size are indexed at the same position for the same
      upload, whatever they hold. */
  lemma SamePositionInEqualPools<T, U>(p: seq<T>, q: seq<U>, audio: seq<bv8>, md5: seq<bv8> -> nat)
    requires |p| == |q| > 0
    ensures exists i :: 0 <= i < |p| && ChooseDeterministic(p, audio, md5) == Some(p[i])
                                     && ChooseDeterministic(q, audio, md5) == Some(q[i])
  {
    var i := md5(audio) % |p|;
    assert ChooseDeterministic(p, audio, md5) == Some(p[i]);
  }

  /** A pool of one always yields its only element. */
  lemma SingletonPool<T>(x: T, audio: seq<bv8>, md5: seq<bv8> -> nat)
    ensures ChooseDeterministic([x], audio, md5) == Some(x)
  {
  }
}
