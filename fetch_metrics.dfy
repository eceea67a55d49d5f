/** The standalone command-line script: its own GET/PATCH retry loops, its
    copy of the snapshot mapping (returning dicts, with a placeholder image),
    the dry-run printout and the `main` counter loop.  Paging and the event
    search are the same code as the GUI's and come from modules Segments and
    Events. */
module FetchMetrics {
  import opened Json
  import opened Http
  import opened Paging
  import opened Models
  import Segments
  import Events
  import DataProcessor

  // ---------------------------------------------------------------------------
  // Transport

  /** One attempt of the script's `_get` / `_patch`.  Unlike the GUI client it
      catches nothing: a connection failure or an error status raises at once. */
  function Step(verb: Verb, attempt: nat, reply: Reply): Step
  {
    match reply
    case ConnectionFailed => Finish(Raised(ConnectionError))
    case Response(status, retryAfter, body) =>
      if status == 429 then RateLimited(retryAfter)
      else if IsServerError(status) then Retry(Some(Pow2(attempt)))
      else match verb
        case Get =>
          if IsErrorStatus(status) then Finish(Raised(HttpError(status)))
          else Finish(Returned(if body.Some? then body.value else EmptyObject))
        case Patch =>
          if status == 200 || status == 202 then
            Finish(Returned(if body.Some? then body.value else EmptyObject))
          else if IsErrorStatus(status) then Finish(Raised(HttpError(status)))
          else Retry(None)
  }

  /** `r.raise_for_status(); return {}` after the loop, on the last reply. */
  function RaiseForStatus(reply: Reply): Outcome
  {
    if reply.Response? && IsErrorStatus(reply.status) then Raised(HttpError(reply.status)) else Returned(EmptyObject)
  }

  /** What the code after the loop does: `r.raise_for_status()` on the last
      response, or fail because no request was sent and `r` is unbound. */
  function AfterLoop(last: Option<Reply>): Outcome
  {
    if last.None? then Raised(UnboundLocal) else RaiseForStatus(last.value)
  }

  /** The request from attempt `attempt` of `retry` on, `last` being the reply
      to the attempt before. */
  function RunFrom(verb: Verb, retry: int, replies: nat -> Reply, attempt: nat, last: Option<Reply>): Trace
    decreases if attempt < retry then retry - attempt else 0
  {
    if attempt >= retry then Trace(AfterLoop(last), [], 0)
    else match Step(verb, attempt, replies(attempt))
      case Finish(o) => Trace(o, [], 1)
      case Retry(w) => Prefixed(WaitsOf(w), 1, RunFrom(verb, retry, replies, attempt + 1, Some(replies(attempt))))
  }

  /** A whole request. */
  function Run(verb: Verb, retry: int, replies: nat -> Reply): Trace
  {
    RunFrom(verb, retry, replies, 0, None)
  }

  /** The body of one iteration of the loop, branch by branch. */
  method Attempt(verb: Verb, attempt: nat, reply: Reply) returns (s: Step)
    ensures s == Step(verb, attempt, reply)
  {
    if reply.ConnectionFailed? {
      return Finish(Raised(ConnectionError));
    }
    if reply.status == 429 {
      return RateLimited(reply.retryAfter);
    }
    if IsServerError(reply.status) {
      return Retry(Some(Pow2(attempt)));
    }
    if verb == Patch && reply.status != 200 && reply.status != 202 {
      if IsErrorStatus(reply.status) {
        return Finish(Raised(HttpError(reply.status)));
      }
      return Retry(None);
    }
    if IsErrorStatus(reply.status) {
      return Finish(Raised(HttpError(reply.status)));
    }
    return Finish(Returned(if reply.body.Some? then reply.body.value else EmptyObject));
  }

  /** An attempt that retries: its wait, one request, then the rest. */
  lemma RunFromRetry(verb: Verb, retry: int, replies: nat -> Reply, attempt: nat, last: Option<Reply>, w: Option<nat>)
    requires attempt < retry && Step(verb, attempt, replies(attempt)) == Retry(w)
    ensures RunFrom(verb, retry, replies, attempt, last)
         == Prefixed(WaitsOf(w), 1, RunFrom(verb, retry, replies, attempt + 1, Some(replies(attempt))))
  {
  }

  /** An attempt that finishes: one request, and its outcome is the request's. */
  lemma RunFromFinish(verb: Verb, retry: int, replies: nat -> Reply, attempt: nat, last: Option<Reply>, o: Outcome)
    requires attempt < retry && Step(verb, attempt, replies(attempt)) == Finish(o)
    ensures RunFrom(verb, retry, replies, attempt, last) == Trace(o, [], 1)
  {
  }

  /** Past the last attempt nothing more is sent, and `r` decides the outcome. */
  lemma RunFromEnd(verb: Verb, retry: int, replies: nat -> Reply, attempt: nat, last: Option<Reply>)
    requires attempt >= retry
    ensures RunFrom(verb, retry, replies, attempt, last) == Trace(AfterLoop(last), [], 0)
  {
  }

  /** `_get` (verb Get) and `_patch` (verb Patch) of the script.  `last` is the
      response `r` of the code, unbound until the first request. */
  method Request(verb: Verb, retry: int, replies: nat -> Reply) returns (outcome: Outcome, waits: seq<nat>, sent: nat)
    ensures Trace(outcome, waits, sent) == Run(verb, retry, replies)
  {
    waits, sent := [], 0;
    var last: Option<Reply> := None;
    var attempt: nat := 0;
    while attempt < retry
      invariant sent == attempt
      invariant Run(verb, retry, replies) == Prefixed(waits, sent, RunFrom(verb, retry, replies, attempt, last))
      decreases retry - attempt
    {
      var done;
      done, outcome, waits := Advance(verb, retry, replies, attempt, last, waits, sent);
      sent := sent + 1;
      if done {
        return;
      }
      last := Some(replies(attempt));
      attempt := attempt + 1;
    }
    outcome := AfterLoop(last);
    RunEnds(verb, retry, replies, attempt, last, waits, sent);
  }

  /** Once the attempts are used up, the request ends with the code after the
      loop, behind the waits and requests already made. */
  lemma RunEnds(verb: Verb, retry: int, replies: nat -> Reply, attempt: nat, last: Option<Reply>, waits: seq<nat>, sent: nat)
    requires attempt >= retry
    requires Run(verb, retry, replies) == Prefixed(waits, sent, RunFrom(verb, retry, replies, attempt, last))
    ensures Trace(AfterLoop(last), waits, sent) == Run(verb, retry, replies)
  {
    RunFromEnd(verb, retry, replies, attempt, last);
    assert waits + [] == waits;
  }

  /** One pass of the retry loop: the attempt's request, then either the
      request's end or the wait before the next attempt. */
  method Advance(verb: Verb, retry: int, replies: nat -> Reply, attempt: nat, last: Option<Reply>, waits: seq<nat>, sent: nat)
    returns (done: bool, outcome: Outcome, waits': seq<nat>)
    requires attempt < retry
    ensures done ==> Prefixed(waits, sent, RunFrom(verb, retry, replies, attempt, last)) == Trace(outcome, waits', sent + 1)
    ensures !done ==> (Prefixed(waits, sent, RunFrom(verb, retry, replies, attempt, last)) ==
                       Prefixed(waits', sent + 1, RunFrom(verb, retry, replies, attempt + 1, Some(replies(attempt)))))
  {
    var step := Attempt(verb, attempt, replies(attempt));
    if step.Finish? {
      RunFromFinish(verb, retry, replies, attempt, last, step.outcome);
      assert waits + [] == waits;
      return true, step.outcome, waits;
    }
    RunFromRetry(verb, retry, replies, attempt, last, step.wait);
    PrefixedTwice(waits, sent, WaitsOf(step.wait), RunFrom(verb, retry, replies, attempt + 1, Some(replies(attempt))));
    return false, Returned(EmptyObject), waits + WaitsOf(step.wait);
  }

  /** At most `retry` requests are sent, at least one when `retry > 0`. */
  lemma {:induction false} SentBound(verb: Verb, retry: int, replies: nat -> Reply, attempt: nat, last: Option<Reply>)
    ensures var t := RunFrom(verb, retry, replies, attempt, last);
      && (attempt < retry ==> 1 <= t.sent <= retry - attempt)
      && (attempt >= retry ==> t.sent == 0)
      && |t.waits| <= t.sent
    decreases if attempt < retry then retry - attempt else 0
  {
    if attempt < retry {
      SentBound(verb, retry, replies, attempt + 1, Some(replies(attempt)));
    }
  }

  /** An error status other than 429 and 5xx raises on the attempt it arrives
      on, with no retry (the GUI client retries it instead). */
  lemma ClientErrorRaisesAtOnce(verb: Verb, retry: int, replies: nat -> Reply, status: int)
    requires retry >= 1
    requires replies(0).Response? && replies(0).status == status
    requires IsErrorStatus(status) && !IsServerError(status) && status != 429
    ensures Run(verb, retry, replies) == Trace(Raised(HttpError(status)), [], 1)
  {
  }

  /** A GET answered 2xx with a body that is not JSON returns `{}` at once. */
  lemma UnparseableGetIsEmpty(retry: int, replies: nat -> Reply, status: int)
    requires retry >= 1 && 200 <= status < 300
    requires replies(0) == Response(status, None, None)
    ensures Run(Get, retry, replies) == Trace(Returned(EmptyObject), [], 1)
  {
  }

  /** `retry <= 0` sends nothing and fails on the unbound response. */
  lemma NoAttempts(verb: Verb, retry: int, replies: nat -> Reply)
    requires retry <= 0
    ensures Run(verb, retry, replies) == Trace(Raised(UnboundLocal), [], 0)
  {
  }

  /** When every attempt meets a 5xx the script raises that status after
      sending all `retry` requests and sleeping `2 ** a` after each (the GUI
      client returns `{}` instead). */
  lemma {:induction false} PersistentServerError(verb: Verb, retry: int, replies: nat -> Reply, attempt: nat, last: Option<Reply>)
    requires attempt < retry
    requires forall a: nat :: attempt <= a < retry ==> replies(a).Response? && IsServerError(replies(a).status)
    ensures var t := RunFrom(verb, retry, replies, attempt, last);
      && t.outcome == Raised(HttpError(replies(retry - 1).status))
      && t.sent == retry - attempt
      && |t.waits| == retry - attempt
      && forall a :: 0 <= a < |t.waits| ==> t.waits[a] == Pow2(attempt + a)
    decreases retry - attempt
  {
    if attempt + 1 < retry {
      PersistentServerError(verb, retry, replies, attempt + 1, Some(replies(attempt)));
    }
  }

  /** A PATCH answered 2xx other than 200 and 202 every time is sent `retry`
      times without sleeping, and the final `raise_for_status` lets it return
      `{}`. */
  lemma {:induction false} PatchOtherSuccess(retry: int, replies: nat -> Reply, attempt: nat, last: Option<Reply>)
    requires attempt < retry
    requires forall a: nat :: attempt <= a < retry ==>
      (replies(a).Response? && 200 <= replies(a).status < 300 && replies(a).status != 200 && replies(a).status != 202)
    ensures RunFrom(Patch, retry, replies, attempt, last) == Trace(Returned(EmptyObject), [], retry - attempt)
    decreases retry - attempt
  {
    if attempt + 1 < retry {
      PatchOtherSuccess(retry, replies, attempt + 1, Some(replies(attempt)));
    }
  }

  // ---------------------------------------------------------------------------
  // Mapping

  /** `PLACEHOLDER_IMAGE_URL = os.getenv("PLACEHOLDER_IMAGE_URL") or None`: an
      unset or empty variable gives None. */
  function Placeholder(env: Option<string>): (p: Json)
    ensures p == Null <==> (env.None? || env.value == "")
    ensures p != Null ==> p == Str(env.value)
  {
    if env.Some? && env.value != "" then Str(env.value) else Null
  }

  /** `pick_image_url`: the same probes as the GUI's, with the placeholder last. */
  function PickImageUrl(item: Dict, placeholder: Json): Result<Json>
  {
    var url :- DataProcessor.PickImageUrl(item);
    Ok(Or(url, placeholder))
  }

  /** The image fallback is variant images, then product images, then the
      placeholder; it fails exactly when the GUI's does. */
  lemma PickImageUrlSpec(item: Dict, placeholder: Json)
    ensures PickImageUrl(item, placeholder).Ok? <==> DataProcessor.PickImageUrl(item).Ok?
    ensures PickImageUrl(item, placeholder).Ok? ==>
      var product := DataProcessor.ProductOf(item).value;
      var variant := AsDict(Or(Lookup(product, "variant"), EmptyObject)).value;
      Picks(PickImageUrl(item, placeholder).value,
            [DataProcessor.FirstSrc(Or(Lookup(variant, "images"), Arr([]))),
             DataProcessor.FirstSrc(Or(Lookup(product, "images"), Arr([]))),
             placeholder])
  {
    if PickImageUrl(item, placeholder).Ok? {
      var product := DataProcessor.ProductOf(item).value;
      var variant := AsDict(Or(Lookup(product, "variant"), EmptyObject)).value;
      var candidates := [DataProcessor.FirstSrc(Or(Lookup(variant, "images"), Arr([]))),
                         DataProcessor.FirstSrc(Or(Lookup(product, "images"), Arr([]))),
                         placeholder];
      OrChainPicks(candidates);
      assert candidates[1..][1..] == [placeholder];
      assert OrChain(candidates) == PickImageUrl(item, placeholder).value;
    }
  }

  /** The GUI's line item with the placeholder image applied. */
  function WithImage(li: LineItem, placeholder: Json): LineItem
  {
    li.(imageUrl := Or(li.imageUrl, placeholder))
  }

  /** `line_item_to_snapshot`: the same expressions as the GUI's, evaluated in
      the same order, building a dict instead of a `LineItem`. */
  function LineItemToSnapshot(x: Json, placeholder: Json): Result<Json>
  {
    var li :- DataProcessor.LineItemToSnapshot(x);
    Ok(LineItemToDict(WithImage(li, placeholder)))
  }

  /** The script's line item is the GUI's `to_dict` except for the image, which
      is `pick_image_url`'s; with no placeholder the two agree whenever the
      image is truthy or None. */
  lemma LineItemAgrees(x: Json, placeholder: Json)
    ensures LineItemToSnapshot(x, placeholder).Ok? <==> DataProcessor.LineItemToSnapshot(x).Ok?
    ensures LineItemToSnapshot(x, placeholder).Ok? ==>
      var d := LineItemToSnapshot(x, placeholder).value;
      var li := DataProcessor.LineItemToSnapshot(x).value;
      && d.Obj? && Keys(d.fields) == ["product_id", "variant_id", "title", "image_url", "quantity", "line_price"]
      && Lookup(d.fields, "image_url") == PickImageUrl(x.fields, placeholder).value
      && (placeholder == Null && (Truthy(li.imageUrl) || li.imageUrl == Null) ==> d == LineItemToDict(li))
  {
    if LineItemToSnapshot(x, placeholder).Ok? {
      var li := DataProcessor.LineItemToSnapshot(x).value;
      var d := LineItemToDict(WithImage(li, placeholder));
      LookupDistinct(d.fields, 3, Null);
    }
  }

  /** The GUI's snapshot with the placeholder image applied to every item. */
  function WithImages(s: CheckoutSnapshot, placeholder: Json): (r: CheckoutSnapshot)
    ensures r.checkoutUrl == s.checkoutUrl && r.currency == s.currency && r.updatedAt == s.updatedAt
    ensures |r.items| == |s.items| && forall i :: 0 <= i < |s.items| ==> r.items[i] == WithImage(s.items[i], placeholder)
  {
    s.(items := seq(|s.items|, i requires 0 <= i < |s.items| => WithImage(s.items[i], placeholder)))
  }

  /** `event_to_snapshot` of the script: the GUI's probes and gate, returning
      the four-key dict (or None). */
  function EventToSnapshot(event: Json, placeholder: Json): Result<Option<Json>>
  {
    var s :- DataProcessor.EventToSnapshot(event);
    if s.None? then Ok(None) else Ok(Some(SnapshotToDict(WithImages(s.value, placeholder))))
  }

  /** The script converts exactly the events the GUI converts, gives None
      exactly when the GUI does, and otherwise returns a dict with the four
      keys holding the GUI snapshot's values, with each item as the script's
      line item. */
  lemma EventToSnapshotAgrees(event: Json, placeholder: Json)
    ensures EventToSnapshot(event, placeholder).Ok? <==> DataProcessor.EventToSnapshot(event).Ok?
    ensures EventToSnapshot(event, placeholder).Ok? ==>
      var r := EventToSnapshot(event, placeholder).value;
      var s := DataProcessor.EventToSnapshot(event).value;
      && (r.None? <==> s.None?)
      && (r.Some? ==>
            && r.value.Obj? && Keys(r.value.fields) == ["checkout_url", "currency", "updated_at", "items"]
            && Lookup(r.value.fields, "checkout_url") == s.value.checkoutUrl
            && Lookup(r.value.fields, "currency") == s.value.currency
            && Lookup(r.value.fields, "updated_at") == s.value.updatedAt
            && Lookup(r.value.fields, "items") == Arr(ItemsToDicts(WithImages(s.value, placeholder).items)))
  {
    var g := DataProcessor.EventToSnapshot(event);
    if g.Ok? && g.value.Some? {
      var w := WithImages(g.value.value, placeholder);
      assert EventToSnapshot(event, placeholder) == Ok(Some(SnapshotToDict(w)));
      SnapshotDictLookups(w);
    }
  }

  // ---------------------------------------------------------------------------
  // Dry-run printout

  /** `profile_attrs.get("email") or profile_attrs.get("properties", {}).get("$email") or fallback`. */
  function EmailOf(attrs: Json, fallback: string): (r: Result<Json>)
  {
    var a :- AsDict(attrs);
    if Truthy(Lookup(a, "email")) then Ok(Lookup(a, "email"))
    else
      var props :- AsDict(LookupOr(a, "properties", EmptyObject));
      Ok(Or(Lookup(props, "$email"), Str(fallback)))
  }

  /** The script's email and the GUI's `display_email` read the same places
      and fail together.  They agree on a truthy `email` and on a truthy
      `properties.$email`; past those the script shows its fallback, where the
      GUI shows `$email` as it is, or `no-email` when it is absent. */
  lemma EmailAgrees(id: Json, a: Dict, fallback: string)
    ensures var cli := EmailOf(Obj(a), fallback);
      var gui := DisplayEmail(ProfileInfo(id, Lookup(a, "email"), a));
      && (cli.Ok? <==> gui.Ok?)
      && (cli.Ok? && Truthy(Lookup(a, "email")) ==> cli.value == gui.value == Lookup(a, "email"))
      && (cli.Ok? && !Truthy(Lookup(a, "email")) ==>
            var props := LookupOr(a, "properties", EmptyObject).fields;
            && (Truthy(Lookup(props, "$email")) ==> cli.value == gui.value == Lookup(props, "$email"))
            && (!Truthy(Lookup(props, "$email")) ==>
                  cli.value == Str(fallback) && gui.value == LookupOr(props, "$email", Str("no-email"))))
  {
    var props := LookupOr(a, "properties", EmptyObject);
    if props.Obj? {
      LookupOrLookup(props.fields, "$email", Str("no-email"));
    }
  }

  /** The items of the printed snapshot, `snapshot.get("items") or []`: a
      number or `True` has no `len`, and the elements of a string or a dict
      have no `.get`. */
  function ItemsToPrint(v: Json): (r: Result<seq<Json>>)
    ensures v.Arr? <==> r.Ok?
    ensures r.Ok? ==> r.value == v.elems
  {
    match v
    case Arr(elems) => Ok(elems)
    case Str(_) => Err(AttributeError)
    case Obj(_) => Err(AttributeError)
    case _ => Err(TypeError)
  }

  /** The two printed lines of item number `n`. */
  function PrintedItem(n: nat, it: Dict): seq<SummaryLine>
  {
    [ItemLine(n, Or(Lookup(it, "title"), Str("-")), LookupOr(it, "quantity", Int(0)), LookupOr(it, "line_price", Float(0.0))),
     ImageLine(Or(Lookup(it, "image_url"), Str("-")))]
  }

  /** The item lines of the printout; an item that is not a dict raises. */
  function PrintItemLines(items: seq<Json>): (r: Result<seq<SummaryLine>>)
    ensures r.Ok? <==> forall i :: 0 <= i < |items| ==> items[i].Obj?
    ensures r.Err? ==> r.error == AttributeError
    ensures r.Ok? ==> |r.value| == 2 * |items|
    ensures r.Ok? ==> forall i :: 0 <= i < |items| ==> r.value[2 * i..2 * i + 2] == PrintedItem(i + 1, items[i].fields)
    decreases |items|
  {
    if items == [] then Ok([])
    else
      var n := |items|;
      assert forall i :: 0 <= i < n - 1 ==> items[..n - 1][i] == items[i];
      var init :- PrintItemLines(items[..n - 1]);
      var it :- AsDict(items[n - 1]);
      Ok(init + PrintedItem(n, it))
  }

  /** The header lines of the printout. */
  function PrintHeader(profileId: Json, email: Json, snap: Dict, count: nat): seq<SummaryLine>
  {
    [ProfileLine(profileId, email),
     CheckoutUrlLine(Or(Lookup(snap, "checkout_url"), Str("-"))),
     CurrencyLine(LookupOr(snap, "currency", Str("USD")), LookupOr(snap, "updated_at", Str("-"))),
     ItemsHeaderLine(count)]
  }

  /** `summarize_snapshot_for_print`, line by line before formatting. */
  function PrintSummary(profileId: Json, attrs: Json, snapshot: Json): Result<Summary>
  {
    var email :- EmailOf(attrs, "-");
    var snap :- AsDict(snapshot);
    var items :- ItemsToPrint(Or(Lookup(snap, "items"), Arr([])));
    var lines :- PrintItemLines(items);
    Ok(PrintHeader(profileId, email, snap, |items|) + lines)
  }

  /** `summarize_snapshot_for_print`: the header, then a loop adding two lines
      per item. */
  method SummarizeForPrint(profileId: Json, attrs: Json, snapshot: Json) returns (r: Result<Summary>)
    ensures r == PrintSummary(profileId, attrs, snapshot)
  {
    var email := EmailOf(attrs, "-");
    if email.Err? {
      return Err(email.error);
    }
    if !snapshot.Obj? {
      return Err(AttributeError);
    }
    var snap := snapshot.fields;
    var found := ItemsToPrint(Or(Lookup(snap, "items"), Arr([])));
    if found.Err? {
      return Err(found.error);
    }
    var items := found.value;
    var header := PrintHeader(profileId, email.value, snap, |items|);
    r := AppendItemLines(header, items);
  }

  /** The item loop of `summarize_snapshot_for_print`: two lines per item
      appended to the header, or the `AttributeError` of the first item that is
      not a dict. */
  method AppendItemLines(header: Summary, items: seq<Json>) returns (r: Result<Summary>)
    ensures r == (var lines :- PrintItemLines(items); Ok(header + lines))
  {
    var lines := header;
    var i := 0;
    while i < |items|
      invariant 0 <= i <= |items|
      invariant PrintItemLines(items[..i]).Ok?
      invariant lines == header + PrintItemLines(items[..i]).value
    {
      assert items[..i + 1][..i] == items[..i];
      if !items[i].Obj? {
        assert items[..i + 1][i] == items[i];
        assert !PrintItemLines(items).Ok?;
        return Err(AttributeError);
      }
      lines := lines + PrintedItem(i + 1, items[i].fields);
      i := i + 1;
    }
    assert items[..i] == items;
    return Ok(lines);
  }

  /** The printout has a header of four lines, from the email with `-` as
      its fallback, the snapshot's URL or `-`, the currency (default `USD`)
      and the raw `updated_at`, and the item count; then two lines per item,
      with `-` for a falsy title or image. */
  lemma PrintSummarySpec(profileId: Json, attrs: Json, snapshot: Json)
    ensures var r := PrintSummary(profileId, attrs, snapshot);
      r.Ok? ==>
        && EmailOf(attrs, "-").Ok? && snapshot.Obj?
        && var snap := snapshot.fields;
        && var items := ItemsToPrint(Or(Lookup(snap, "items"), Arr([]))).value;
        && |r.value| == 4 + 2 * |items|
        && r.value[0] == ProfileLine(profileId, EmailOf(attrs, "-").value)
        && r.value[1] == CheckoutUrlLine(Or(Lookup(snap, "checkout_url"), Str("-")))
        && r.value[2] == CurrencyLine(LookupOr(snap, "currency", Str("USD")), LookupOr(snap, "updated_at", Str("-")))
        && r.value[3] == ItemsHeaderLine(|items|)
        && forall i :: 0 <= i < |items| ==> items[i].Obj? && r.value[4 + 2 * i..6 + 2 * i] == PrintedItem(i + 1, items[i].fields)
  {
    var r := PrintSummary(profileId, attrs, snapshot);
    if r.Ok? {
      var snap := snapshot.fields;
      var items := ItemsToPrint(Or(Lookup(snap, "items"), Arr([]))).value;
      var lines := PrintItemLines(items).value;
      assert r.value == PrintHeader(profileId, EmailOf(attrs, "-").value, snap, |items|) + lines;
      forall i | 0 <= i < |items|
        ensures r.value[4 + 2 * i..6 + 2 * i] == PrintedItem(i + 1, items[i].fields)
      {
        assert r.value[4 + 2 * i..6 + 2 * i] == lines[2 * i..2 * i + 2];
      }
    }
  }

  // ---------------------------------------------------------------------------
  // main

  /** The counters of `main`, the printed summaries of a dry run and the PATCH
      calls of a live run, as `(profile id, snapshot dict)`. */
  datatype Tally = Tally(updated: nat, matched: nat, noEvent: nat, noSnapshot: nat,
                         printed: seq<Summary>, writes: seq<(Json, Json)>)

  const NoTally := Tally(0, 0, 0, 0, [], [])

  /** The profiles `main` has accounted for: without an event, without a
      snapshot, or matched. */
  function Handled(t: Tally): nat
  {
    t.noEvent + t.noSnapshot + t.matched
  }

  /** One profile: the loop goes on, or an exception ends `main`. */
  datatype Member = Next(tally: Tally) | Crash(tally: Tally, failure: Failure)

  /** `event_to_snapshot` of the script with the placeholder image fixed. */
  function Convert(placeholder: Json): Json -> Result<Option<Json>>
  {
    e => EventToSnapshot(e, placeholder)
  }

  /** One iteration of `main`'s loop, given what `find_matching_event`
      returned or raised and the converter.  Only the PATCH is guarded: its
      exception is logged with the email (the lookup of which can itself
      raise) and the profile is not counted as updated. */
  function HandleMember(t: Tally, id: Json, attrs: Json, found: Result<Option<Json>>, convert: Json -> Result<Option<Json>>,
                        dryRun: bool, patch: Outcome): Member
  {
    match found
    case Err(f) => Crash(t, f)
    case Ok(event) =>
      if event.None? || !Truthy(event.value) then Next(t.(noEvent := t.noEvent + 1))
      else Converted(t, id, attrs, convert(event.value), dryRun, patch)
  }

  /** The loop body once the matching event has been converted. */
  function Converted(t: Tally, id: Json, attrs: Json, snapshot: Result<Option<Json>>, dryRun: bool, patch: Outcome): Member
  {
    match snapshot
    case Err(f) => Crash(t, f)
    case Ok(None) => Next(t.(noSnapshot := t.noSnapshot + 1))
    case Ok(Some(s)) => Deliver(t.(matched := t.matched + 1), id, attrs, s, dryRun, patch)
  }

  /** What `main` does with a matched profile's snapshot: print it (dry run),
      or PATCH it and count it as updated when the PATCH returns. */
  function Deliver(t: Tally, id: Json, attrs: Json, snapshot: Json, dryRun: bool, patch: Outcome): Member
  {
    if dryRun then
      match PrintSummary(id, attrs, snapshot)
      case Err(f) => Crash(t, f)
      case Ok(lines) => Next(t.(printed := t.printed + [lines]))
    else
      var t1 := t.(writes := t.writes + [(id, snapshot)]);
      if patch.Returned? then Next(t1.(updated := t1.updated + 1))
      else
        match EmailOf(attrs, "no-email")
        case Err(f) => Crash(t1, f)
        case Ok(_) => Next(t1)
  }

  /** The end of `main`: the counters, and the exception that ended it if any. */
  datatype Ended = Ended(tally: Tally, crash: Option<Failure>)

  /** `main`'s loop over `n` profiles from profile `i` on, whatever a profile's
      step does: `step(t, i)` is what iteration `i` does from tally `t`. */
  function MainLoop(n: nat, i: nat, t: Tally, step: (Tally, nat) -> Member): Ended
    decreases n - i
  {
    if i >= n then Ended(t, None)
    else
      match step(t, i)
      case Crash(t', f) => Ended(t', Some(f))
      case Next(t') => MainLoop(n, i + 1, t', step)
  }

  /** The step of profile `i`: `eventPages(i)` are the event pages
      `find_matching_event` reads for it and `patchOutcomes(i)` what its PATCH
      returns or raises. */
  function MainSteps(ps: Segments.Members, dryRun: bool, eventPages: nat -> seq<Outcome>, patchOutcomes: nat -> Outcome,
                     placeholder: Json): (Tally, nat) -> Member
  {
    (t: Tally, i: nat) =>
      if i < |ps| && PagesEnd(eventPages(i))
      then HandleMember(t, ps[i].0, ps[i].1, Events.FindFirstMatch(eventPages(i), 0).result, Convert(placeholder),
                        dryRun, patchOutcomes(i))
      else Next(t)
  }

  /** The steps of `main`'s loop for each segment it may read. */
  function StepsFor(dryRun: bool, eventPages: nat -> seq<Outcome>, patchOutcomes: nat -> Outcome, placeholder: Json)
    : Segments.Members -> (Tally, nat) -> Member
  {
    ps => MainSteps(ps, dryRun, eventPages, patchOutcomes, placeholder)
  }

  /** `main` once the segment read has returned or raised, from the counters
      `start`, whatever the steps of its loop do. */
  function MainWith(segment: Result<Segments.Members>, start: Tally, steps: Segments.Members -> (Tally, nat) -> Member)
    : Ended
  {
    match segment
    case Err(f) => Ended(start, Some(f))
    case Ok(ps) => if ps == [] then Ended(start, None) else MainLoop(|ps|, 0, start, steps(ps))
  }

  /** `main` after argument parsing. */
  function Main(segmentPages: seq<Outcome>, limit: Option<int>, dryRun: bool, eventPages: nat -> seq<Outcome>,
                patchOutcomes: nat -> Outcome, placeholder: Json): Ended
    requires PagesEnd(segmentPages) && AllPagesEnd(eventPages)
  {
    MainWith(Segments.SegmentRun(segmentPages, 0, [], limit).result, NoTally,
             StepsFor(dryRun, eventPages, patchOutcomes, placeholder))
  }

  /** One iteration of `main`'s loop, statement by statement. */
  method ProcessMember(t: Tally, id: Json, attrs: Json, events: seq<Outcome>, dryRun: bool, patch: Outcome,
                       placeholder: Json) returns (next: Tally, crash: Option<Failure>)
    requires PagesEnd(events)
    ensures (if crash.Some? then Crash(next, crash.value) else Next(next))
         == HandleMember(t, id, attrs, Events.FindFirstMatch(events, 0).result, Convert(placeholder), dryRun, patch)
  {
    next, crash := t, None;
    var found, _ := Events.FindMatchingEvent(events);
    if found.Err? {
      crash := Some(found.error);
      return;
    }
    if found.value.None? || !Truthy(found.value.value) {
      next := next.(noEvent := next.noEvent + 1);
      return;
    }
    var snapshot := EventToSnapshot(found.value.value, placeholder);
    assert HandleMember(t, id, attrs, found, Convert(placeholder), dryRun, patch) == Converted(t, id, attrs, snapshot, dryRun, patch);
    next, crash := ProcessConverted(next, id, attrs, snapshot, dryRun, patch);
  }

  /** The converted snapshot: counted as missing, or delivered. */
  method ProcessConverted(t: Tally, id: Json, attrs: Json, snapshot: Result<Option<Json>>, dryRun: bool, patch: Outcome)
    returns (next: Tally, crash: Option<Failure>)
    ensures (if crash.Some? then Crash(next, crash.value) else Next(next)) == Converted(t, id, attrs, snapshot, dryRun, patch)
  {
    next, crash := t, None;
    if snapshot.Err? {
      crash := Some(snapshot.error);
      return;
    }
    if snapshot.value.None? {
      next := next.(noSnapshot := next.noSnapshot + 1);
      return;
    }
    next, crash := DeliverSnapshot(next.(matched := next.matched + 1), id, attrs, snapshot.value.value, dryRun, patch);
  }

  /** The dry-run print or the guarded PATCH of a matched profile. */
  method DeliverSnapshot(t: Tally, id: Json, attrs: Json, snapshot: Json, dryRun: bool, patch: Outcome)
    returns (next: Tally, crash: Option<Failure>)
    ensures (if crash.Some? then Crash(next, crash.value) else Next(next)) == Deliver(t, id, attrs, snapshot, dryRun, patch)
  {
    next, crash := t, None;
    if dryRun {
      var lines := SummarizeForPrint(id, attrs, snapshot);
      if lines.Err? {
        crash := Some(lines.error);
        return;
      }
      next := next.(printed := next.printed + [lines.value]);
    } else {
      next := next.(writes := next.writes + [(id, snapshot)]);
      if patch.Returned? {
        next := next.(updated := next.updated + 1);
      } else {
        var email := EmailOf(attrs, "no-email");
        if email.Err? {
          crash := Some(email.error);
        }
      }
    }
  }

  /** `main` of the script after argument parsing: the segment, then every
      member in order.  The pages, the event pages of member `i` and the
      outcome of its PATCH are inputs, as is the placeholder image. */
  method RunMain(segmentPages: seq<Outcome>, limit: Option<int>, dryRun: bool, eventPages: nat -> seq<Outcome>,
                 patchOutcomes: nat -> Outcome, placeholder: Json) returns (tally: Tally, crash: Option<Failure>)
    requires PagesEnd(segmentPages) && AllPagesEnd(eventPages)
    ensures Ended(tally, crash) == Main(segmentPages, limit, dryRun, eventPages, patchOutcomes, placeholder)
  {
    tally, crash := NoTally, None;
    var profiles, _ := Segments.GetSegmentProfiles(segmentPages, limit);
    if profiles.Err? {
      crash := Some(profiles.error);
      return;
    }
    var ps := profiles.value;
    if ps == [] {
      return;
    }
    assert StepsFor(dryRun, eventPages, patchOutcomes, placeholder)(ps) == MainSteps(ps, dryRun, eventPages, patchOutcomes, placeholder);
    tally, crash := RunMembers(ps, dryRun, eventPages, patchOutcomes, placeholder);
  }

  /** The `for` loop of `main` over the segment's members, from a fresh tally:
      one `ProcessMember` per member until one crashes. */
  method RunMembers(ps: Segments.Members, dryRun: bool, eventPages: nat -> seq<Outcome>,
                    patchOutcomes: nat -> Outcome, placeholder: Json) returns (tally: Tally, crash: Option<Failure>)
    requires AllPagesEnd(eventPages)
    ensures Ended(tally, crash) == MainLoop(|ps|, 0, NoTally, MainSteps(ps, dryRun, eventPages, patchOutcomes, placeholder))
  {
    tally, crash := NoTally, None;
    var i := 0;
    while i < |ps| && crash.None?
      invariant 0 <= i <= |ps|
      invariant MainLoop(|ps|, 0, NoTally, MainSteps(ps, dryRun, eventPages, patchOutcomes, placeholder))
             == if crash.None? then MainLoop(|ps|, i, tally, MainSteps(ps, dryRun, eventPages, patchOutcomes, placeholder))
                else Ended(tally, crash)
    {
      MainStepAt(ps, dryRun, eventPages, patchOutcomes, placeholder, tally, i);
      tally, crash := ProcessMember(tally, ps[i].0, ps[i].1, eventPages(i), dryRun, patchOutcomes(i), placeholder);
      i := i + 1;
    }
  }

  /** Step `i` of the loop handles member `i` with its own event pages and
      PATCH outcome. */
  lemma MainStepAt(ps: Segments.Members, dryRun: bool, eventPages: nat -> seq<Outcome>,
                   patchOutcomes: nat -> Outcome, placeholder: Json, t: Tally, i: nat)
    requires i < |ps| && AllPagesEnd(eventPages)
    ensures PagesEnd(eventPages(i))
    ensures MainSteps(ps, dryRun, eventPages, patchOutcomes, placeholder)(t, i) ==
      HandleMember(t, ps[i].0, ps[i].1, Events.FindFirstMatch(eventPages(i), 0).result, Convert(placeholder),
                   dryRun, patchOutcomes(i))
  {
  }

  // ---------------------------------------------------------------------------
  // What main promises

  /** The counters of a loop that goes on: at most every matched profile
      updated; a dry run prints one summary per matched profile and PATCHes
      nothing; a live run prints nothing and PATCHes every matched profile. */
  predicate Counted(t: Tally, dryRun: bool)
  {
    && t.updated <= t.matched
    && (dryRun ==> t.updated == 0 && t.writes == [] && |t.printed| == t.matched)
    && (!dryRun ==> t.printed == [] && |t.writes| == t.matched)
  }

  /** The counters once an exception ended the loop: the same, except that the
      summary of the last matched profile of a dry run may be missing. */
  predicate CrashCounted(t: Tally, dryRun: bool)
  {
    && t.updated <= t.matched
    && (dryRun ==> t.updated == 0 && t.writes == [] && t.matched <= |t.printed| + 1 && |t.printed| <= t.matched)
    && (!dryRun ==> t.printed == [] && |t.writes| == t.matched)
  }

  /** What one step does to the counters: a step that goes on accounts for
      exactly one more profile and keeps `Counted`; one that crashes accounts for
      at most one more and keeps `CrashCounted`. */
  predicate StepCounted(t: Tally, m: Member, dryRun: bool)
  {
    && (m.Next? ==> Counted(m.tally, dryRun) && Handled(m.tally) == Handled(t) + 1)
    && (m.Crash? ==> CrashCounted(m.tally, dryRun) && Handled(t) <= Handled(m.tally) <= Handled(t) + 1)
  }

  /** A step that had updated every matched profile still has. */
  predicate StepUpdated(t: Tally, m: Member)
  {
    t.updated == t.matched ==> m.tally.updated == m.tally.matched
  }

  /** A matched profile's delivery keeps the counters; a PATCH that returns is
      counted as updated, one that raises is not.  A raised PATCH is caught: the
      loop goes on exactly when the email for the log can be read, and otherwise
      the AttributeError of that lookup ends `main`.  A dry run goes on exactly
      when the summary can be printed. */
  lemma DeliverCounts(t: Tally, id: Json, attrs: Json, snapshot: Json, dryRun: bool, patch: Outcome)
    requires Counted(t, dryRun)
    ensures var m := Deliver(t.(matched := t.matched + 1), id, attrs, snapshot, dryRun, patch);
      && StepCounted(t, m, dryRun)
      && (!dryRun ==> |m.tally.writes| == |t.writes| + 1 && m.tally.writes[|t.writes|] == (id, snapshot))
      && (!dryRun && patch.Returned? ==> m.Next? && m.tally.updated == t.updated + 1)
      && (!dryRun && patch.Raised? ==> m.tally.updated == t.updated)
      && (!dryRun && patch.Raised? ==> (m.Next? <==> EmailOf(attrs, "no-email").Ok?))
      && (m.Crash? && !dryRun ==> m.failure == AttributeError)
      && (dryRun ==> (m.Next? <==> PrintSummary(id, attrs, snapshot).Ok?))
  {
  }

  /** Every step of `main`'s loop keeps the counters. */
  lemma HandleMemberCounts(t: Tally, id: Json, attrs: Json, found: Result<Option<Json>>, convert: Json -> Result<Option<Json>>,
                           dryRun: bool, patch: Outcome)
    requires Counted(t, dryRun)
    ensures StepCounted(t, HandleMember(t, id, attrs, found, convert, dryRun, patch), dryRun)
  {
    if found.Ok? && found.value.Some? && Truthy(found.value.value) {
      var snapshot := convert(found.value.value);
      assert HandleMember(t, id, attrs, found, convert, dryRun, patch) == Converted(t, id, attrs, snapshot, dryRun, patch);
      ConvertedCounts(t, id, attrs, snapshot, dryRun, patch);
    }
  }

  /** A converted snapshot keeps the counters, whatever the conversion gave. */
  lemma ConvertedCounts(t: Tally, id: Json, attrs: Json, snapshot: Result<Option<Json>>, dryRun: bool, patch: Outcome)
    requires Counted(t, dryRun)
    ensures StepCounted(t, Converted(t, id, attrs, snapshot, dryRun, patch), dryRun)
  {
    if snapshot.Ok? && snapshot.value.Some? {
      var s := snapshot.value.value;
      assert Converted(t, id, attrs, snapshot, dryRun, patch) == Deliver(t.(matched := t.matched + 1), id, attrs, s, dryRun, patch);
      DeliverCounts(t, id, attrs, s, dryRun, patch);
    }
  }

  /** In a live run whose PATCH returns, a step keeps every matched profile
      updated. */
  lemma HandleMemberUpdates(t: Tally, id: Json, attrs: Json, found: Result<Option<Json>>, convert: Json -> Result<Option<Json>>,
                            patch: Outcome)
    requires patch.Returned?
    ensures StepUpdated(t, HandleMember(t, id, attrs, found, convert, false, patch))
  {
    if found.Ok? && found.value.Some? && Truthy(found.value.value) {
      var snapshot := convert(found.value.value);
      assert HandleMember(t, id, attrs, found, convert, false, patch) == Converted(t, id, attrs, snapshot, false, patch);
    }
  }

  /** Every step of a loop over `n` profiles keeps the counters. */
  ghost predicate StepsKeepCounts(n: nat, step: (Tally, nat) -> Member, dryRun: bool)
  {
    forall t: Tally, j: nat :: Counted(t, dryRun) && j < n ==> StepCounted(t, step(t, j), dryRun)
  }

  /** Every step of a loop over `n` profiles keeps every matched profile updated. */
  ghost predicate StepsKeepUpdated(n: nat, step: (Tally, nat) -> Member)
  {
    forall t: Tally, j: nat :: j < n ==> StepUpdated(t, step(t, j))
  }

  /** Every step of a segment keeps the counters. */
  lemma StepsCounted(ps: Segments.Members, dryRun: bool, eventPages: nat -> seq<Outcome>, patchOutcomes: nat -> Outcome,
                     placeholder: Json)
    requires AllPagesEnd(eventPages)
    ensures StepsKeepCounts(|ps|, StepsFor(dryRun, eventPages, patchOutcomes, placeholder)(ps), dryRun)
  {
    forall t: Tally, j: nat | Counted(t, dryRun) && j < |ps|
      ensures StepCounted(t, StepsFor(dryRun, eventPages, patchOutcomes, placeholder)(ps)(t, j), dryRun)
    {
      HandleMemberCounts(t, ps[j].0, ps[j].1, Events.FindFirstMatch(eventPages(j), 0).result, Convert(placeholder),
                         dryRun, patchOutcomes(j));
    }
  }

  /** In a live run whose every PATCH returns, every step of a segment keeps
      every matched profile updated. */
  lemma StepsUpdated(ps: Segments.Members, eventPages: nat -> seq<Outcome>, patchOutcomes: nat -> Outcome,
                     placeholder: Json)
    requires AllPagesEnd(eventPages)
    requires forall j: nat :: patchOutcomes(j).Returned?
    ensures StepsKeepUpdated(|ps|, StepsFor(false, eventPages, patchOutcomes, placeholder)(ps))
  {
    forall t: Tally, j: nat | j < |ps|
      ensures StepUpdated(t, StepsFor(false, eventPages, patchOutcomes, placeholder)(ps)(t, j))
    {
      HandleMemberUpdates(t, ps[j].0, ps[j].1, Events.FindFirstMatch(eventPages(j), 0).result, Convert(placeholder),
                          patchOutcomes(j));
    }
  }

  /** The loop accounts for every profile when nothing crashes and for at most
      every profile otherwise, and keeps the counters, whenever every step does. */
  lemma {:induction false} MainLoopCounts(n: nat, i: nat, t: Tally, step: (Tally, nat) -> Member, dryRun: bool)
    requires i <= n && Handled(t) == i && Counted(t, dryRun)
    requires StepsKeepCounts(n, step, dryRun)
    ensures var e := MainLoop(n, i, t, step);
      && CrashCounted(e.tally, dryRun)
      && Handled(e.tally) <= n
      && (e.crash.None? ==> Counted(e.tally, dryRun) && Handled(e.tally) == n)
    decreases n - i
  {
    if i < n {
      var m := step(t, i);
      if m.Next? {
        MainLoopCounts(n, i + 1, m.tally, step, dryRun);
      }
    }
  }

  /** The loop keeps every matched profile updated, even when an exception
      ends it, whenever every step does. */
  lemma {:induction false} MainLoopUpdated(n: nat, i: nat, t: Tally, step: (Tally, nat) -> Member)
    requires t.updated == t.matched
    requires StepsKeepUpdated(n, step)
    ensures MainLoop(n, i, t, step).tally.updated == MainLoop(n, i, t, step).tally.matched
    decreases n - i
  {
    if i < n {
      var m := step(t, i);
      if m.Next? {
        MainLoopUpdated(n, i + 1, m.tally, step);
      }
    }
  }

  /** `main` starts with nothing accounted for and the counters kept. */
  lemma StartCounted(dryRun: bool)
    ensures Counted(NoTally, dryRun) && CrashCounted(NoTally, dryRun) && Handled(NoTally) == 0
  {
  }

  /** How `main` ends, from `start`, with the counters kept: a segment read
      that raises ends it at once; without a crash every member is accounted
      for once, with one at most every member is. */
  predicate EndsCounted(segment: Result<Segments.Members>, start: Tally, e: Ended, dryRun: bool)
  {
    && (segment.Err? ==> e == Ended(start, Some(segment.error)))
    && (segment.Ok? ==> Handled(e.tally) <= |segment.value|)
    && (segment.Ok? && e.crash.None? ==> Handled(e.tally) == |segment.value|)
    && CrashCounted(e.tally, dryRun)
    && (e.crash.None? ==> Counted(e.tally, dryRun))
  }

  /** Whatever the segment read gave, `main` ends with the counters kept
      whenever every step of the loop keeps them. */
  lemma MainWithCounts(segment: Result<Segments.Members>, start: Tally, steps: Segments.Members -> (Tally, nat) -> Member,
                       dryRun: bool)
    requires Counted(start, dryRun) && Handled(start) == 0
    requires segment.Ok? ==> StepsKeepCounts(|segment.value|, steps(segment.value), dryRun)
    ensures EndsCounted(segment, start, MainWith(segment, start, steps), dryRun)
  {
    if segment.Ok? && segment.value != [] {
      MainLoopCounts(|segment.value|, 0, start, steps(segment.value), dryRun);
    }
  }

  /** The steps of `main`'s loop keep the counters, so `main` ends with them
      kept. */
  lemma MainStepsCounts(segment: Result<Segments.Members>, start: Tally, dryRun: bool, eventPages: nat -> seq<Outcome>,
                        patchOutcomes: nat -> Outcome, placeholder: Json)
    requires AllPagesEnd(eventPages)
    requires Counted(start, dryRun) && Handled(start) == 0
    ensures var steps := StepsFor(dryRun, eventPages, patchOutcomes, placeholder);
      EndsCounted(segment, start, MainWith(segment, start, steps), dryRun)
  {
    var steps := StepsFor(dryRun, eventPages, patchOutcomes, placeholder);
    if segment.Ok? {
      StepsCounted(segment.value, dryRun, eventPages, patchOutcomes, placeholder);
    }
    MainWithCounts(segment, start, steps, dryRun);
  }

  /** What `main` promises:
      - a segment read that raises ends `main` with nothing counted;
      - without a crash every member is accounted for once (no event, no
        snapshot or matched), and with one at most every member is;
      - `updated <= matched`;
      - a dry run PATCHes nothing, and it prints one summary per matched
        profile, all but possibly the last when it crashes;
      - a live run prints nothing and PATCHes every matched profile once. */
  lemma MainSpec(segmentPages: seq<Outcome>, limit: Option<int>, dryRun: bool, eventPages: nat -> seq<Outcome>,
                 patchOutcomes: nat -> Outcome, placeholder: Json)
    requires PagesEnd(segmentPages) && AllPagesEnd(eventPages)
    ensures EndsCounted(Segments.SegmentRun(segmentPages, 0, [], limit).result, NoTally,
                        Main(segmentPages, limit, dryRun, eventPages, patchOutcomes, placeholder), dryRun)
  {
    var seg := Segments.SegmentRun(segmentPages, 0, [], limit).result;
    StartCounted(dryRun);
    MainStepsCounts(seg, NoTally, dryRun, eventPages, patchOutcomes, placeholder);
  }

  /** Whatever the segment read gave, every matched profile is updated when
      every step of the loop keeps them updated. */
  lemma MainWithUpdated(segment: Result<Segments.Members>, start: Tally, steps: Segments.Members -> (Tally, nat) -> Member)
    requires start.updated == start.matched
    requires segment.Ok? ==> StepsKeepUpdated(|segment.value|, steps(segment.value))
    ensures MainWith(segment, start, steps).tally.updated == MainWith(segment, start, steps).tally.matched
  {
    if segment.Ok? && segment.value != [] {
      MainLoopUpdated(|segment.value|, 0, start, steps(segment.value));
    }
  }

  /** In a live run whose every PATCH returns, `main` updates every matched
      profile, whatever the segment read gave. */
  lemma MainStepsUpdated(segment: Result<Segments.Members>, start: Tally, eventPages: nat -> seq<Outcome>,
                         patchOutcomes: nat -> Outcome, placeholder: Json)
    requires AllPagesEnd(eventPages)
    requires forall j: nat :: patchOutcomes(j).Returned?
    requires start.updated == start.matched
    ensures var e := MainWith(segment, start, StepsFor(false, eventPages, patchOutcomes, placeholder));
      e.tally.updated == e.tally.matched
  {
    var steps := StepsFor(false, eventPages, patchOutcomes, placeholder);
    if segment.Ok? {
      StepsUpdated(segment.value, eventPages, patchOutcomes, placeholder);
    }
    MainWithUpdated(segment, start, steps);
  }

  /** A live run whose every PATCH returns updates every matched profile, even
      when an exception ends it. */
  lemma MainAllUpdated(segmentPages: seq<Outcome>, limit: Option<int>, eventPages: nat -> seq<Outcome>,
                       patchOutcomes: nat -> Outcome, placeholder: Json)
    requires PagesEnd(segmentPages) && AllPagesEnd(eventPages)
    requires forall j: nat :: patchOutcomes(j).Returned?
    ensures var e := Main(segmentPages, limit, false, eventPages, patchOutcomes, placeholder);
      e.tally.updated == e.tally.matched
  {
    var seg := Segments.SegmentRun(segmentPages, 0, [], limit).result;
    MainStepsUpdated(seg, NoTally, eventPages, patchOutcomes, placeholder);
    assert Main(segmentPages, limit, false, eventPages, patchOutcomes, placeholder)
        == MainWith(seg, NoTally, StepsFor(false, eventPages, patchOutcomes, placeholder));
  }
}
