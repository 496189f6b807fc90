/**
 * The cursor-pagination drain shared by `listCourses`, `listAllCourses`
 * (frontend/src/api/courseApi.ts) and the ratings scan loop
 * (backend/user/ratings/update/main.go).
 *
 * The remote source is modelled as the finite sequence of responses it
 * gives to successive requests: response i answers request i. The driver
 * sends the caller's start key first, then passes each returned key back
 * verbatim, and stops on an empty or absent key or on an error.
 */
module Pagination {
  import opened Wrappers
  import opened Strings

  /** One page of a paged endpoint: its items and the continuation key. */
  datatype Page<T> = Page(items: seq<T>, lastEvaluatedKey: Option<string>)

  /** A response after which the driver sends no further request. */
  predicate Stops<T, E>(r: Result<Page<T>, E>) {
    r.Failure? || !Truthy(r.value.lastEvaluatedKey)
  }

  /** Some response ends the loop; otherwise the source itself would loop forever. */
  predicate Terminates<T, E>(responses: seq<Result<Page<T>, E>>) {
    exists i :: 0 <= i < |responses| && Stops(responses[i])
  }

  /** The index of the response that ends the loop: the first one that stops it. */
  function StopIndex<T, E>(responses: seq<Result<Page<T>, E>>): (k: nat)
    requires Terminates(responses)
    ensures k < |responses| && Stops(responses[k])
    ensures forall i :: 0 <= i < k ==> !Stops(responses[i])
    decreases |responses|
  {
    if Stops(responses[0]) then 0
    else
      assert Terminates(responses[1..]) by {
        var i :| 0 <= i < |responses| && Stops(responses[i]);
        assert i > 0 && Stops(responses[1..][i - 1]);
      }
      1 + StopIndex(responses[1..])
  }

  /** The items of the first n responses, concatenated in the order received. */
  function Items<T, E>(responses: seq<Result<Page<T>, E>>, n: nat): seq<T>
    requires n <= |responses|
    requires forall i :: 0 <= i < n ==> responses[i].Success?
    decreases n
  {
    if n == 0 then [] else Items(responses, n - 1) + responses[n - 1].value.items
  }

  /**
   * The do-while drain. `keys[i]` is the key sent with request i; `result`
   * is the concatenation of every page's items, or the first error.
   */
  method Drain<T, E>(start: Option<string>, responses: seq<Result<Page<T>, E>>)
    returns (result: Result<seq<T>, E>, keys: seq<Option<string>>)
    requires Terminates(responses)
    ensures |keys| == StopIndex(responses) + 1
    ensures keys[0] == start
    ensures forall i :: 0 < i < |keys| ==>
              responses[i - 1].Success? && keys[i] == responses[i - 1].value.lastEvaluatedKey
    ensures forall i :: 0 < i < |keys| ==> Truthy(keys[i])
    ensures var k := StopIndex(responses);
            responses[k].Failure? ==> result == Failure(responses[k].error)
    ensures var k := StopIndex(responses);
            responses[k].Success? ==> result == Success(Items(responses, k + 1))
  {
    var k := StopIndex(responses);
    var acc: seq<T> := [];
    var key := start;
    keys := [];
    var n := 0;
    while true
      invariant 0 <= n <= k
      invariant |keys| == n
      invariant forall i :: 0 <= i < n ==> responses[i].Success?
      invariant acc == Items(responses, n)
      invariant n == 0 ==> key == start
      invariant n > 0 ==> key == responses[n - 1].value.lastEvaluatedKey
      invariant n > 0 ==> keys[0] == start
      invariant forall i :: 0 < i < n ==> keys[i] == responses[i - 1].value.lastEvaluatedKey
      invariant forall i :: 0 < i < n ==> Truthy(keys[i])
      decreases k - n
    {
      keys := keys + [key];
      var response := responses[n];
      if response.Failure? {
        return Failure(response.error), keys;
      }
      acc := acc + response.value.items;
      key := response.value.lastEvaluatedKey;
      if !Truthy(key) {
        return Success(acc), keys;
      }
      n := n + 1;
    }
  }

  /** What a drain promises: the keys it sent and the result it returns for the given responses. */
  ghost predicate Drained<T, E>(start: Option<string>, responses: seq<Result<Page<T>, E>>,
                                result: Result<seq<T>, E>, keys: seq<Option<string>>)
    requires Terminates(responses)
  {
    var k := StopIndex(responses);
    && |keys| == k + 1
    && keys[0] == start
    && (forall i :: 0 < i < |keys| ==>
          responses[i - 1].Success? && keys[i] == responses[i - 1].value.lastEvaluatedKey)
    && (responses[k].Failure? ==> result == Failure(responses[k].error))
    && (responses[k].Success? ==> result == Success(Items(responses, k + 1)))
  }

  /** A page with no items but a non-empty key does not end the loop. */
  lemma EmptyPageContinues<T, E>(responses: seq<Result<Page<T>, E>>, key: string)
    requires Terminates(responses)
    requires |responses| > 0 && responses[0] == Success(Page([], Some(key)))
    requires key != ""
    ensures StopIndex(responses) > 0
    ensures Items(responses, 1) == []
  {
  }
}
