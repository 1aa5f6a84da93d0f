/**
 * `forEachAsync` (packages/server/src/resolvers/resolvers.js and, identically,
 * packages/client/src/pages/home/EditEntryModal.tsx): awaits the callback on each
 * element of an array in turn. Everything the callback does to captured state is
 * modelled as a transformation of a state value `S`.
 */
module Async {

  /** The state after `callback` has run on every element of `elements`, first to last. */
  function Run<T, S>(callback: (S, T, nat) -> S, init: S, elements: seq<T>): S
    decreases |elements|
  {
    if |elements| == 0 then init
    else callback(Run(callback, init, elements[..|elements| - 1]), elements[|elements| - 1], |elements| - 1)
  }

  /**
   * The index loop. `visited` lists the indices the callback was awaited on, in
   * the order of the calls: every index exactly once, in increasing order.
   */
  method ForEachAsync<T, S>(elements: seq<T>, init: S, callback: (S, T, nat) -> S)
    returns (state: S, visited: seq<nat>)
    ensures state == Run(callback, init, elements)
    ensures |visited| == |elements|
    ensures forall i :: 0 <= i < |visited| ==> visited[i] == i
  {
    state, visited := init, [];
    var index := 0;
    while index < |elements|
      invariant 0 <= index <= |elements|
      invariant state == Run(callback, init, elements[..index])
      invariant |visited| == index
      invariant forall i :: 0 <= i < index ==> visited[i] == i
    {
      assert elements[..index + 1][..index] == elements[..index];
      state := callback(state, elements[index], index);
      visited := visited + [index];
      index := index + 1;
    }
    assert elements[..index] == elements;
  }
}
