/** The GUI package's API client: GET and PATCH with retries, and the write-back
    payload.  Paging lives in module Paging, which the CLI script shares. */
module ApiClient {
  import opened Json
  import opened Text
  import opened Http

  /** One attempt of `_get` / `_patch`.  `last` says whether this is attempt
      `max_retries - 1`. */
  function Step(verb: Verb, attempt: nat, last: bool, reply: Reply): Step
  {
    match reply
    case ConnectionFailed => RequestFailed(ConnectionError, attempt, last)
    case Response(status, retryAfter, body) =>
      if status == 429 then RateLimited(retryAfter)
      else if IsServerError(status) then Retry(Some(Pow2(attempt)))
      else match verb
        case Get =>
          if IsErrorStatus(status) then RequestFailed(HttpError(status), attempt, last)
          else if body.None? then RequestFailed(InvalidJson, attempt, last)
          else Finish(Returned(body.value))
        case Patch =>
          if status == 200 || status == 202 then
            Finish(Returned(if body.Some? then body.value else EmptyObject))
          else if IsErrorStatus(status) then RequestFailed(HttpError(status), attempt, last)
          else Retry(None)
  }

  /** The `except RequestException` branch: re-raise on the last attempt,
      otherwise back off for `2 ** attempt` seconds. */
  function RequestFailed(f: Failure, attempt: nat, last: bool): Step
  {
    if last then Finish(Raised(f)) else Retry(Some(Pow2(attempt)))
  }

  /** The request from attempt `attempt` on; when the attempts run out the
      client returns `{}`. */
  function Run(verb: Verb, maxRetries: int, replies: nat -> Reply, attempt: nat): Trace
    decreases if attempt < maxRetries then maxRetries - attempt else 0
  {
    if attempt >= maxRetries then Trace(Returned(EmptyObject), [], 0)
    else match Step(verb, attempt, attempt == maxRetries - 1, replies(attempt))
      case Finish(o) => Trace(o, [], 1)
      case Retry(w) => Prefixed(WaitsOf(w), 1, Run(verb, maxRetries, replies, attempt + 1))
  }

  /** The body of one iteration of the retry loop in `_get` / `_patch`, branch by
      branch: what the attempt does with the reply it received. */
  method Attempt(verb: Verb, attempt: nat, last: bool, reply: Reply) returns (s: Step)
    ensures s == Step(verb, attempt, last, reply)
  {
    var raised: Option<Failure> := None;
    if reply.ConnectionFailed? {
      raised := Some(ConnectionError);
    } else if reply.status == 429 {
      var header := if reply.retryAfter.Some? then reply.retryAfter.value else "2";
      var wait := ParseInt(header);
      if wait.None? || wait.value < 0 {
        return Finish(Raised(ValueError));
      }
      return Retry(Some(wait.value));
    } else if IsServerError(reply.status) {
      return Retry(Some(Pow2(attempt)));
    } else if verb == Get {
      if IsErrorStatus(reply.status) {
        raised := Some(HttpError(reply.status));
      } else if reply.body.None? {
        raised := Some(InvalidJson);
      } else {
        return Finish(Returned(reply.body.value));
      }
    } else {
      if reply.status == 200 || reply.status == 202 {
        return Finish(Returned(if reply.body.Some? then reply.body.value else EmptyObject));
      }
      if IsErrorStatus(reply.status) {
        raised := Some(HttpError(reply.status));
      }
    }
    if raised.Some? {
      if last {
        return Finish(Raised(raised.value));
      }
      return Retry(Some(Pow2(attempt)));
    }
    return Retry(None);
  }

  /** `_get` (verb Get) and `_patch` (verb Patch) of `KlaviyoApiClient`: the
      request as `Run` describes it, sleeps and all. */
  method Request(verb: Verb, maxRetries: int, replies: nat -> Reply) returns (outcome: Outcome, waits: seq<nat>, sent: nat)
    ensures Trace(outcome, waits, sent) == Run(verb, maxRetries, replies, 0)
  {
    waits, sent := [], 0;
    var attempt: nat := 0;
    while attempt < maxRetries
      invariant sent == attempt
      invariant Run(verb, maxRetries, replies, 0) == Prefixed(waits, sent, Run(verb, maxRetries, replies, attempt))
      decreases maxRetries - attempt
    {
      var done;
      done, outcome, waits := Advance(verb, maxRetries, replies, attempt, waits, sent);
      sent := sent + 1;
      if done {
        return;
      }
      attempt := attempt + 1;
    }
    outcome := Returned(EmptyObject);
    RunEnd(verb, maxRetries, replies, attempt);
    assert waits + [] == waits;
  }

  /** One pass of the retry loop: the attempt's request, then either the
      request's end or the wait before the next attempt. */
  method Advance(verb: Verb, maxRetries: int, replies: nat -> Reply, attempt: nat, waits: seq<nat>, sent: nat)
    returns (done: bool, outcome: Outcome, waits': seq<nat>)
    requires attempt < maxRetries
    ensures done ==> Prefixed(waits, sent, Run(verb, maxRetries, replies, attempt)) == Trace(outcome, waits', sent + 1)
    ensures !done ==> (Prefixed(waits, sent, Run(verb, maxRetries, replies, attempt)) ==
                       Prefixed(waits', sent + 1, Run(verb, maxRetries, replies, attempt + 1)))
  {
    var step := Attempt(verb, attempt, attempt == maxRetries - 1, replies(attempt));
    if step.Finish? {
      RunFinish(verb, maxRetries, replies, attempt, step.outcome);
      assert waits + [] == waits;
      return true, step.outcome, waits;
    }
    RunRetry(verb, maxRetries, replies, attempt, step.wait);
    PrefixedTwice(waits, sent, WaitsOf(step.wait), Run(verb, maxRetries, replies, attempt + 1));
    return false, Returned(EmptyObject), waits + WaitsOf(step.wait);
  }

  /** An attempt that retries: its wait, one request, then the rest. */
  lemma RunRetry(verb: Verb, maxRetries: int, replies: nat -> Reply, attempt: nat, w: Option<nat>)
    requires attempt < maxRetries && Step(verb, attempt, attempt == maxRetries - 1, replies(attempt)) == Retry(w)
    ensures Run(verb, maxRetries, replies, attempt) == Prefixed(WaitsOf(w), 1, Run(verb, maxRetries, replies, attempt + 1))
  {
  }

  /** An attempt that finishes ends the request with one more request sent. */
  lemma RunFinish(verb: Verb, maxRetries: int, replies: nat -> Reply, attempt: nat, o: Outcome)
    requires attempt < maxRetries && Step(verb, attempt, attempt == maxRetries - 1, replies(attempt)) == Finish(o)
    ensures Run(verb, maxRetries, replies, attempt) == Trace(o, [], 1)
  {
  }

  /** Once the attempts run out, nothing more is sent and the result is `{}`. */
  lemma RunEnd(verb: Verb, maxRetries: int, replies: nat -> Reply, attempt: nat)
    requires attempt >= maxRetries
    ensures Run(verb, maxRetries, replies, attempt) == Trace(Returned(EmptyObject), [], 0)
  {
  }

  /** At most `max_retries` requests are sent, and never more sleeps than requests. */
  lemma {:induction false} SentBound(verb: Verb, maxRetries: int, replies: nat -> Reply, attempt: nat)
    ensures var t := Run(verb, maxRetries, replies, attempt);
      t.sent == 0 <==> attempt >= maxRetries
    ensures var t := Run(verb, maxRetries, replies, attempt);
      attempt < maxRetries ==> t.sent <= maxRetries - attempt
    ensures var t := Run(verb, maxRetries, replies, attempt); |t.waits| <= t.sent
    decreases if attempt < maxRetries then maxRetries - attempt else 0
  {
    if attempt < maxRetries {
      SentBound(verb, maxRetries, replies, attempt + 1);
    }
  }

  /** When every attempt meets a 429 or a 5xx the client gives up quietly: it
      returns `{}` after sending all `max_retries` requests. */
  lemma {:induction false} AllTransientReturnsEmpty(verb: Verb, maxRetries: int, replies: nat -> Reply, attempt: nat)
    requires forall a: nat :: attempt <= a < maxRetries ==> Transient(replies(a))
    ensures Run(verb, maxRetries, replies, attempt).outcome == Returned(EmptyObject)
    ensures Run(verb, maxRetries, replies, attempt).sent == if attempt < maxRetries then maxRetries - attempt else 0
    decreases if attempt < maxRetries then maxRetries - attempt else 0
  {
    if attempt < maxRetries {
      AllTransientReturnsEmpty(verb, maxRetries, replies, attempt + 1);
    }
  }

  /** A run of 5xx replies backs off exponentially: the sleep after attempt `a` is
      `2 ** a` seconds. */
  lemma {:induction false} ServerErrorBackoff(verb: Verb, maxRetries: int, replies: nat -> Reply, attempt: nat)
    requires attempt <= maxRetries
    requires forall a: nat :: attempt <= a < maxRetries ==> replies(a).Response? && IsServerError(replies(a).status)
    ensures var t := Run(verb, maxRetries, replies, attempt);
      |t.waits| == maxRetries - attempt && forall a :: 0 <= a < |t.waits| ==> t.waits[a] == Pow2(attempt + a)
    decreases maxRetries - attempt
  {
    if attempt < maxRetries {
      ServerErrorBackoff(verb, maxRetries, replies, attempt + 1);
    }
  }

  /** Any other error status is a `RequestException` that is retried: a series of
      4xx replies (other than 429) ends in that error only on the last attempt,
      after `max_retries - 1` exponential sleeps. */
  lemma {:induction false} ClientErrorRetried(verb: Verb, maxRetries: int, status: int, replies: nat -> Reply, attempt: nat)
    requires attempt < maxRetries
    requires IsErrorStatus(status) && !IsServerError(status) && status != 429
    requires forall a: nat :: attempt <= a < maxRetries ==> replies(a).Response? && replies(a).status == status
    ensures var t := Run(verb, maxRetries, replies, attempt);
      && t.outcome == Raised(HttpError(status))
      && t.sent == maxRetries - attempt
      && |t.waits| == maxRetries - attempt - 1
      && forall a :: 0 <= a < |t.waits| ==> t.waits[a] == Pow2(attempt + a)
    decreases maxRetries - attempt
  {
    if attempt < maxRetries - 1 {
      ClientErrorRetried(verb, maxRetries, status, replies, attempt + 1);
    }
  }

  /** A 429 with `Retry-After: w` sleeps `w` seconds and sends exactly one more
      request; without the header it sleeps two seconds. */
  lemma RateLimitThenSuccess(maxRetries: int, replies: nat -> Reply, w: nat, body: Json)
    requires maxRetries >= 2
    requires replies(0).Response? && replies(0).status == 429
    requires replies(0).retryAfter.None? ==> w == 2
    requires replies(0).retryAfter.Some? ==> ParseInt(replies(0).retryAfter.value) == Some(w)
    requires replies(1) == Response(200, None, Some(body))
    ensures Run(Get, maxRetries, replies, 0) == Trace(Returned(body), [w], 2)
  {
    if replies(0).retryAfter.None? {
      RateLimitedDefault();
    }
  }

  /** `_patch` sends the same PATCH again after a 2xx other than 200 and 202 (a 204,
      say), without sleeping; if every attempt gets one it returns `{}`. */
  lemma {:induction false} PatchResendsOtherSuccess(maxRetries: int, replies: nat -> Reply, attempt: nat)
    requires forall a: nat :: attempt <= a < maxRetries ==>
      (replies(a).Response? && 200 <= replies(a).status < 300 && replies(a).status != 200 && replies(a).status != 202)
    ensures Run(Patch, maxRetries, replies, attempt)
      == Trace(Returned(EmptyObject), [], if attempt < maxRetries then maxRetries - attempt else 0)
    decreases if attempt < maxRetries then maxRetries - attempt else 0
  {
    if attempt < maxRetries {
      PatchResendsOtherSuccess(maxRetries, replies, attempt + 1);
    }
  }

  /** `_patch` accepts a 200 or 202 whatever its body, returning `{}` for a body
      that is not JSON; `_get` retries a 2xx whose body is not JSON. */
  lemma AcceptedBodies(maxRetries: int, replies: nat -> Reply, status: int)
    requires maxRetries >= 2 && 200 <= status < 300
    requires replies(0) == Response(status, None, None)
    ensures status == 200 || status == 202 ==> Run(Patch, maxRetries, replies, 0) == Trace(Returned(EmptyObject), [], 1)
    ensures Run(Get, maxRetries, replies, 0) == Prefixed([1], 1, Run(Get, maxRetries, replies, 1))
  {
  }

  /** The body `patch_profile_snapshot` sends to `profiles/{id}`. */
  function PatchPayload(profileId: Json, snapshot: Json): Json
  {
    Obj([("data", Obj([("type", Str("profile")),
                       ("id", profileId),
                       ("attributes", Obj([("properties", Obj([("last_checkout_snapshot", snapshot)]))]))]))])
  }

  /** The payload is a `profile` resource with the member's id whose
      `properties.last_checkout_snapshot` is the snapshot. */
  lemma PayloadFields(profileId: Json, snapshot: Json)
    ensures var p := PatchPayload(profileId, snapshot);
      p.Obj? && Keys(p.fields) == ["data"] &&
      var data := Lookup(p.fields, "data");
      data.Obj? && Keys(data.fields) == ["type", "id", "attributes"] &&
      Lookup(data.fields, "type") == Str("profile") && Lookup(data.fields, "id") == profileId &&
      var attrs := Lookup(data.fields, "attributes");
      attrs.Obj? && Keys(attrs.fields) == ["properties"] &&
      var props := Lookup(attrs.fields, "properties");
      props.Obj? && Keys(props.fields) == ["last_checkout_snapshot"] &&
      Lookup(props.fields, "last_checkout_snapshot") == snapshot
  {
    var p := PatchPayload(profileId, snapshot);
    var data := Lookup(p.fields, "data");
    LookupDistinct(data.fields, 0, Null);
    LookupDistinct(data.fields, 1, Null);
    LookupDistinct(data.fields, 2, Null);
  }
}
