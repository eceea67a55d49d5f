/** What the transport sees of one HTTP exchange, and what it hands back.
    The network is an input: attempt `a` of a request receives `replies(a)`. */
module Http {
  import opened Json
  import opened Text

  /** The server's answer to one attempt.  `body` is None when the body is not
      JSON; `retryAfter` is the `Retry-After` header when present. */
  datatype Reply =
    | Response(status: int, retryAfter: Option<string>, body: Option<Json>)
    | ConnectionFailed

  /** What a request returns to its caller, or the exception it raises. */
  datatype Outcome = Returned(value: Json) | Raised(failure: Failure)

  datatype Verb = Get | Patch

  /** What one attempt does next: sleep (possibly for no time) and try again, or
      stop with an outcome. */
  datatype Step = Retry(wait: Option<nat>) | Finish(outcome: Outcome)

  /** A whole request: its outcome, the sleeps taken in order, and the number of
      requests sent. */
  datatype Trace = Trace(outcome: Outcome, waits: seq<nat>, sent: nat)

  function Pow2(n: nat): (p: nat)
    ensures p >= 1
  {
    if n == 0 then 1 else 2 * Pow2(n - 1)
  }

  predicate IsServerError(status: int)
  {
    500 <= status < 600
  }

  /** The statuses `raise_for_status` raises for. */
  predicate IsErrorStatus(status: int)
  {
    400 <= status < 600
  }

  /** A 429: `int(headers.get("Retry-After", "2"))` then `time.sleep` of it.  An
      unparseable header or a negative time raises `ValueError`. */
  function RateLimited(retryAfter: Option<string>): (s: Step)
    ensures s.Retry? || s == Finish(Raised(ValueError))
    ensures s.Retry? ==> s.wait.Some?
    ensures retryAfter.Some? ==>
      (s.Retry? <==> IsIntegerText(Strip(retryAfter.value)) && ParseInt(retryAfter.value).value >= 0)
    ensures retryAfter.Some? && s.Retry? ==> s.wait == Some(ParseInt(retryAfter.value).value)
  {
    var header := if retryAfter.Some? then retryAfter.value else "2";
    match ParseInt(header)
    case None => Finish(Raised(ValueError))
    case Some(w) => if w < 0 then Finish(Raised(ValueError)) else Retry(Some(w))
  }

  /** Without the header the wait is two seconds. */
  lemma RateLimitedDefault()
    ensures RateLimited(None) == Retry(Some(2))
  {
    assert "" + ShowInt(2) + "" == "2";
    ParseIntShow("", 2, "");
  }

  /** A header holding a number of seconds, whitespace around it or not, is
      slept for that long. */
  lemma RateLimitedSeconds(ws1: string, n: nat, ws2: string)
    requires forall i :: 0 <= i < |ws1| ==> IsSpace(ws1[i])
    requires forall i :: 0 <= i < |ws2| ==> IsSpace(ws2[i])
    ensures RateLimited(Some(ws1 + ShowInt(n) + ws2)) == Retry(Some(n))
  {
    ParseIntShow(ws1, n, ws2);
  }

  /** A negative number of seconds raises `ValueError` from `time.sleep`. */
  lemma RateLimitedNegative(n: int)
    requires n < 0
    ensures RateLimited(Some(ShowInt(n))) == Finish(Raised(ValueError))
  {
    assert "" + ShowInt(n) + "" == ShowInt(n);
    ParseIntShow("", n, "");
  }

  /** A header that is not an integer, an HTTP date for instance, raises
      `ValueError` instead of falling back to two seconds. */
  lemma RateLimitedUnparseable(h: string)
    requires !IsIntegerText(Strip(h))
    ensures RateLimited(Some(h)) == Finish(Raised(ValueError))
  {
  }

  function WaitsOf(w: Option<nat>): seq<nat>
  {
    if w.Some? then [w.value] else []
  }

  /** A trace that first takes `waits` over `sent` attempts and then goes on as `t`. */
  function Prefixed(waits: seq<nat>, sent: nat, t: Trace): Trace
  {
    Trace(t.outcome, waits + t.waits, sent + t.sent)
  }

  /** Two prefixes in a row are one prefix. */
  lemma PrefixedTwice(waits: seq<nat>, sent: nat, more: seq<nat>, t: Trace)
    ensures Prefixed(waits, sent, Prefixed(more, 1, t)) == Prefixed(waits + more, sent + 1, t)
  {
    assert (waits + more) + t.waits == waits + (more + t.waits);
  }

  /** A reply that makes either transport sleep and try again, whichever attempt it
      comes on: a 5xx, or a 429 whose `Retry-After` is a non-negative integer. */
  predicate Transient(reply: Reply)
  {
    reply.Response? &&
    (IsServerError(reply.status) || (reply.status == 429 && RateLimited(reply.retryAfter).Retry?))
  }
}
