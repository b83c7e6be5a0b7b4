/**
  Shared vocabulary of the model: an optional value, the subsequence relation
  used to describe partial-batch failure lists, and the response shape of the
  HTTP handlers.
 */
module Base {

  /** A value that may be absent (a missing attribute, a payload that did not parse). */
  datatype Option<+T> = None | Some(value: T) {

    /** The wrapped value, or `default` when absent. */
    function GetOr(default: T): T {
      match this
      case Some(v) => v
      case None => default
    }
  }

  /**
    `a` is obtained from `b` by deleting elements, keeping the order of the rest.
    Defined by cases on the last element of `b`: either it is dropped, or it is
    the last element of `a`.
   */
  predicate IsSubsequence<T(==)>(a: seq<T>, b: seq<T>)
    decreases |b|
  {
    if |b| == 0 then |a| == 0
    else
      IsSubsequence(a, b[..|b| - 1])
      || (|a| > 0 && a[|a| - 1] == b[|b| - 1] && IsSubsequence(a[..|a| - 1], b[..|b| - 1]))
  }

  /** The image of a sequence under `f`, element by element. */
  function Project<T, U>(xs: seq<T>, f: T -> U): (ys: seq<U>)
    ensures |ys| == |xs|
    ensures forall i :: 0 <= i < |xs| ==> ys[i] == f(xs[i])
  {
    if |xs| == 0 then [] else Project(xs[..|xs| - 1], f) + [f(xs[|xs| - 1])]
  }

  /** Appending an element to the longer sequence only, keeps the relation. */
  lemma SubsequenceSkip<T>(a: seq<T>, b: seq<T>, x: T)
    requires IsSubsequence(a, b)
    ensures IsSubsequence(a, b + [x])
  {
    assert (b + [x])[..|b + [x]| - 1] == b;
  }

  /** Appending the same element to both sides keeps the relation. */
  lemma SubsequenceKeep<T>(a: seq<T>, b: seq<T>, x: T)
    requires IsSubsequence(a, b)
    ensures IsSubsequence(a + [x], b + [x])
  {
    assert (b + [x])[..|b + [x]| - 1] == b;
    assert (a + [x])[..|a + [x]| - 1] == a;
  }

  /**
    The body of an API Gateway response produced by the balance handlers:
    HTTP status code, the `status` echoed in the JSON body (which differs from
    the HTTP code on the generic error path), the `success` flag, the message
    and, for reads, the returned data.
   */
  datatype ApiResponse<+D> = ApiResponse(
    statusCode: int,
    status: int,
    success: bool,
    message: string,
    data: Option<D>)

  /**
    An HTTP request as the balance handlers see it: the raw body, absent or
    possibly empty, and the outcome of JSON.parse on it (None when it throws).
   */
  datatype HttpRequest<+P> = HttpRequest(body: Option<string>, parsed: Option<P>)

  /** `!event.body` is false: a body is present and non-empty. */
  predicate HasBody<P>(req: HttpRequest<P>) {
    req.body.Some? && req.body.value != ""
  }

  /** A response without data. */
  function Reply<D>(statusCode: int, status: int, message: string): ApiResponse<D> {
    ApiResponse(statusCode, status, status / 100 == 2, message, None)
  }

  /** JavaScript truthiness of an optional string: present and non-empty. */
  predicate TruthyString(s: Option<string>) {
    s.Some? && s.value != ""
  }

  /** JavaScript truthiness of an optional number: present and non-zero. */
  predicate TruthyNumber(n: Option<int>) {
    n.Some? && n.value != 0
  }
}
