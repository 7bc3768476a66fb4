/**
 * The duplicate-request guard of src/config/axiosConfig.ts: a module-level list
 * of in-flight request configs. The request interceptor refuses a config that
 * is already in flight and otherwise appends it; both response paths remove it.
 * Configs are compared by identity, so they are modelled as opaque ids.
 */
module RequestQueue {
  import opened Wrappers

  /** The identity of one request config object. */
  type RequestConfig = nat

  /** The message a repeated submission is rejected with ("do not submit twice"). */
  const RepeatMessage: string := "请勿重复提交"

  predicate NoDuplicates(q: seq<RequestConfig>) {
    forall i, j :: 0 <= i < j < |q| ==> q[i] != q[j]
  }

  /** `q.filter(item => item !== c)`. */
  function Without(q: seq<RequestConfig>, c: RequestConfig): (r: seq<RequestConfig>)
    ensures |r| <= |q|
    ensures forall x :: x in r <==> x in q && x != c
  {
    if q == [] then []
    else (if q[0] == c then [] else [q[0]]) + Without(q[1..], c)
  }

  /** Removing a config that is not queued leaves the queue as it was. */
  lemma {:induction false} WithoutAbsent(q: seq<RequestConfig>, c: RequestConfig)
    requires c !in q
    ensures Without(q, c) == q
  {
    if q != [] {
      WithoutAbsent(q[1..], c);
      assert [q[0]] + q[1..] == q;
    }
  }

  /** Removal works piece by piece: the entries that stay keep their relative order. */
  lemma {:induction false} WithoutAppend(a: seq<RequestConfig>, b: seq<RequestConfig>, c: RequestConfig)
    ensures Without(a + b, c) == Without(a, c) + Without(b, c)
  {
    if a == [] {
      assert a + b == b;
    } else {
      assert (a + b)[0] == a[0];
      assert (a + b)[1..] == a[1..] + b;
      WithoutAppend(a[1..], b, c);
    }
  }

  /** Removal keeps a duplicate-free queue duplicate-free. */
  lemma {:induction false} WithoutNoDuplicates(q: seq<RequestConfig>, c: RequestConfig)
    requires NoDuplicates(q)
    ensures NoDuplicates(Without(q, c))
  {
    if q != [] {
      WithoutNoDuplicates(q[1..], c);
      var rest := Without(q[1..], c);
      if q[0] != c {
        assert q[0] !in q[1..];
        var r := [q[0]] + rest;
        forall i, j | 0 <= i < j < |r| ensures r[i] != r[j] {
          if i == 0 {
            assert r[j] in rest;
          } else {
            assert r[i] == rest[i - 1] && r[j] == rest[j - 1];
          }
        }
      }
    }
  }

  /** Removing the config just appended gives back the queue before the append, when it was not there. */
  lemma AddThenRemove(q: seq<RequestConfig>, c: RequestConfig)
    requires c !in q
    ensures Without(q + [c], c) == q
  {
    WithoutAppend(q, [c], c);
    WithoutAbsent(q, c);
    assert Without([c], c) == [];
  }

  /** The authorization header the request interceptor sets: only in a browser and with a non-empty stored token. */
  function AuthorizationHeader(inBrowser: bool, storedToken: Option<string>): (h: Option<string>)
    ensures h.Some? <==> inBrowser && storedToken.Some? && storedToken.value != ""
    ensures h.Some? ==> h.value == "Bearer " + storedToken.value
  {
    if inBrowser && storedToken.Some? && storedToken.value != "" then Some("Bearer " + storedToken.value)
    else None
  }

  /** The `requestQueue` module variable together with the interceptors that use it. */
  class RequestTracker {
    var requestQueue: seq<RequestConfig>

    ghost predicate Valid()
      reads this
    {
      NoDuplicates(requestQueue)
    }

    constructor ()
      ensures requestQueue == [] && Valid()
    {
      requestQueue := [];
    }

    /** `isRepeatRequest`: the config is already in flight. */
    predicate IsRepeatRequest(c: RequestConfig)
      reads this
    {
      c in requestQueue
    }

    /** `addRequestQueue`. */
    method AddRequestQueue(c: RequestConfig)
      modifies this
      ensures requestQueue == old(requestQueue) + [c]
    {
      requestQueue := requestQueue + [c];
    }

    /** `removeRequestQueue`: drop every occurrence of `c`. */
    method RemoveRequestQueue(c: RequestConfig)
      modifies this
      ensures requestQueue == Without(old(requestQueue), c)
      ensures c !in requestQueue
    {
      requestQueue := Without(requestQueue, c);
    }

    /** The request interceptor: refuse a repeat, otherwise queue the config and let it through. */
    method OnRequest(c: RequestConfig) returns (result: Result<RequestConfig, string>)
      requires Valid()
      modifies this
      ensures Valid()
      ensures old(c in requestQueue) ==> result == Failure(RepeatMessage) && requestQueue == old(requestQueue)
      ensures old(c !in requestQueue) ==> result == Success(c) && requestQueue == old(requestQueue) + [c]
      ensures c in requestQueue
    {
      if IsRepeatRequest(c) {
        return Failure(RepeatMessage);
      }
      AddRequestQueue(c);
      result := Success(c);
    }

    /** The response interceptor, on success and on error alike: the request is no longer in flight. */
    method OnResponse(c: RequestConfig)
      requires Valid()
      modifies this
      ensures Valid()
      ensures requestQueue == Without(old(requestQueue), c)
      ensures c !in requestQueue
    {
      WithoutNoDuplicates(requestQueue, c);
      RemoveRequestQueue(c);
    }
  }
}
