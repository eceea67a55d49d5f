/** `iterate_profile_events` and the consumer that looks for the newest checkout
    event.  The generator is lazy: a page's metric lookup is built when the page
    arrives, each event is annotated when it is yielded, and the next link is
    read only after the page's last event was consumed.  The GUI client and the
    CLI script share this logic line for line. */
module Events {
  import opened Json
  import opened Text
  import opened Http
  import opened Paging

  /** The metric id to name lookup of one page. */
  type MetricNames = map<Json, Json>

  /** An `included` entry that contributes `mid -> name` to the lookup. */
  predicate DeclaresMetric(inc: Json, mid: Json, name: Json)
  {
    && inc.Obj?
    && Lookup(inc.fields, "type") == Str("metric")
    && Lookup(inc.fields, "id") == mid
    && AsDict(Or(LookupOr(inc.fields, "attributes", EmptyObject), EmptyObject)).Ok?
    && Lookup(AsDict(Or(LookupOr(inc.fields, "attributes", EmptyObject), EmptyObject)).value, "name") == name
    && Truthy(mid) && Truthy(name)
  }

  /** The loop over `data.get("included", [])`. */
  function CollectMetricNames(included: seq<Json>, names: MetricNames): Result<MetricNames>
    decreases |included|
  {
    if included == [] then Ok(names)
    else
      var inc :- AsDict(included[0]);
      if Lookup(inc, "type") == Str("metric") then
        var mid := Lookup(inc, "id");
        var attrs :- AsDict(Or(LookupOr(inc, "attributes", EmptyObject), EmptyObject));
        var name := Lookup(attrs, "name");
        if Truthy(mid) && Truthy(name) then
          if !Hashable(mid) then Err(TypeError)
          else CollectMetricNames(included[1..], names[mid := name])
        else CollectMetricNames(included[1..], names)
      else CollectMetricNames(included[1..], names)
  }

  /** The lookup keeps what it held, holds only what it held or what an entry
      declares with a truthy id and a truthy name, holds every such declaration,
      and a later declaration of the same id wins. */
  lemma {:induction false} CollectMetricNamesSpec(included: seq<Json>, names: MetricNames)
    ensures CollectMetricNames(included, names).Ok? ==>
      var m := CollectMetricNames(included, names).value;
      && (forall mid :: mid in names ==> mid in m)
      && (forall mid :: mid in m ==>
            (mid in names && m[mid] == names[mid]) ||
            exists j :: 0 <= j < |included| && DeclaresMetric(included[j], mid, m[mid]))
      && (forall j, mid, name :: 0 <= j < |included| && DeclaresMetric(included[j], mid, name) ==>
            mid in m && (m[mid] == name || exists j' :: j < j' < |included| && DeclaresMetric(included[j'], mid, m[mid])))
    decreases |included|
  {
    var r := CollectMetricNames(included, names);
    if included != [] && r.Ok? {
      var tail := included[1..];
      assert forall j :: 0 <= j < |tail| ==> tail[j] == included[j + 1];
      var inc := included[0].fields;
      var mid0 := Lookup(inc, "id");
      var attrs := AsDict(Or(LookupOr(inc, "attributes", EmptyObject), EmptyObject));
      var declares := Lookup(inc, "type") == Str("metric") && attrs.Ok? && Truthy(mid0) && Truthy(Lookup(attrs.value, "name"));
      var names' := if declares then names[mid0 := Lookup(attrs.value, "name")] else names;
      assert r == CollectMetricNames(tail, names');
      CollectMetricNamesSpec(tail, names');
      var m := r.value;
      assert !declares ==> forall mid, name :: !DeclaresMetric(included[0], mid, name);
      assert declares ==> DeclaresMetric(included[0], mid0, Lookup(attrs.value, "name"));
      forall mid | mid in m
        ensures (mid in names && m[mid] == names[mid]) ||
                exists j :: 0 <= j < |included| && DeclaresMetric(included[j], mid, m[mid])
      {
        if !(mid in names' && m[mid] == names'[mid]) {
          var j :| 0 <= j < |tail| && DeclaresMetric(tail[j], mid, m[mid]);
          assert DeclaresMetric(included[j + 1], mid, m[mid]);
        } else if declares && mid == mid0 {
          assert DeclaresMetric(included[0], mid, m[mid]);
        }
      }
      forall j, mid, name | 0 <= j < |included| && DeclaresMetric(included[j], mid, name)
        ensures mid in m && (m[mid] == name || exists j' :: j < j' < |included| && DeclaresMetric(included[j'], mid, m[mid]))
      {
        if j == 0 {
          assert declares && mid == mid0 && name == Lookup(attrs.value, "name");
          assert mid in names';
          assert mid in m;
          if m[mid] != name {
            var j1 :| 0 <= j1 < |tail| && DeclaresMetric(tail[j1], mid, m[mid]);
            assert DeclaresMetric(included[j1 + 1], mid, m[mid]);
          }
        } else {
          assert DeclaresMetric(tail[j - 1], mid, name);
          assert mid in m;
          if m[mid] != name {
            var j1 :| j - 1 < j1 < |tail| && DeclaresMetric(tail[j1], mid, m[mid]);
            assert DeclaresMetric(included[j1 + 1], mid, m[mid]);
          }
        }
      }
    }
  }

  /** `((e.get("relationships") or {}).get("metric") or {})` and then
      `(rel.get("data") or {}).get("id")`. */
  function MetricIdOf(e: Dict): Result<Json>
  {
    var relationships :- AsDict(Or(Lookup(e, "relationships"), EmptyObject));
    var rel :- AsDict(Or(Lookup(relationships, "metric"), EmptyObject));
    var data :- AsDict(Or(Lookup(rel, "data"), EmptyObject));
    Ok(Lookup(data, "id"))
  }

  /** `e["_metric_name"] = metric_name_by_id.get(mid, "")`, applied to the event
      as it is yielded. */
  function Annotate(event: Json, names: MetricNames): (r: Result<Json>)
    ensures r.Ok? ==> event.Obj? && r.value.Obj?
    ensures r.Ok? ==> forall k :: k != "_metric_name" ==> Lookup(r.value.fields, k) == Lookup(event.fields, k)
    ensures r.Ok? ==> MetricIdOf(event.fields).Ok?
    ensures r.Ok? ==> var mid := MetricIdOf(event.fields).value;
      Lookup(r.value.fields, "_metric_name") == if mid in names then names[mid] else Str("")
  {
    var e :- AsDict(event);
    var mid :- MetricIdOf(e);
    if !Hashable(mid) then Err(TypeError)
    else Ok(Obj(Put(e, "_metric_name", if mid in names then names[mid] else Str(""))))
  }

  /** `(event.get("_metric_name") or "").strip().lower()`. */
  function MetricLabel(event: Json): (r: Result<string>)
    ensures event.Obj? && !Truthy(Lookup(event.fields, "_metric_name")) ==> r == Ok("")
    ensures event.Obj? && Lookup(event.fields, "_metric_name").Str? ==>
      r == Ok(Lower(Strip(Lookup(event.fields, "_metric_name").s)))
  {
    var e :- AsDict(event);
    match Or(Lookup(e, "_metric_name"), Str(""))
    case Str(s) => Ok(Lower(Strip(s)))
    case _ => Err(AttributeError)
  }

  /** `target_metric_names`: "Checkout Started" and "Started Checkout" in lower
      case (see `TargetNames`). */
  const TargetMetricNames: set<string> := {"checkout started", "started checkout"}

  /** The targets are the two names `.lower()`ed. */
  lemma TargetNames()
    ensures TargetMetricNames == {Lower("Checkout Started"), Lower("Started Checkout")}
  {
    var a, b := "Checkout Started", "Started Checkout";
    forall i | 0 <= i < |a| ensures Lower(a)[i] == "checkout started"[i] && Lower(b)[i] == "started checkout"[i] {
      assert i == 0 || i == 1 || i == 2 || i == 3 || i == 4 || i == 5 || i == 6 || i == 7 ||
        i == 8 || i == 9 || i == 10 || i == 11 || i == 12 || i == 13 || i == 14 || i == 15;
    }
    assert Lower(a) == "checkout started";
    assert Lower(b) == "started checkout";
  }

  /** An event whose metric name is one of the targets. */
  predicate Matches(event: Json)
  {
    MetricLabel(event).Ok? && MetricLabel(event).value in TargetMetricNames
  }

  /** An event whose metric name can be read and is not a target. */
  predicate Misses(event: Json)
  {
    MetricLabel(event).Ok? && MetricLabel(event).value !in TargetMetricNames
  }

  /** The consumer over one page's events: annotate, read the metric name, stop at the
      first target. */
  function ScanEvents(events: seq<Json>, names: MetricNames): Result<Option<Json>>
    decreases |events|
  {
    if events == [] then Ok(None)
    else
      var e :- Annotate(events[0], names);
      var metricName :- MetricLabel(e);
      if metricName in TargetMetricNames then Ok(Some(e)) else ScanEvents(events[1..], names)
  }

  /** The part of a page read that comes before its first event is yielded: the
      page as a dict, its metric lookup and its `data` events. */
  datatype PageStart = PageStart(data: Dict, names: MetricNames, events: seq<Json>)

  function StartPage(body: Json): (r: Result<PageStart>)
    ensures r.Ok? ==> body.Obj? && r.value.data == body.fields
    ensures r.Ok? ==> Iterate(LookupOr(body.fields, "data", Arr([]))) == Ok(r.value.events)
  {
    var data :- AsDict(body);
    var included :- Iterate(LookupOr(data, "included", Arr([])));
    var names :- CollectMetricNames(included, map[]);
    var events :- Iterate(LookupOr(data, "data", Arr([])));
    Ok(PageStart(data, names, events))
  }

  datatype PageScan = Found(event: Json) | NotFound(next: Json)

  /** One page of the generator with the consumer attached. */
  function EventPage(body: Json): (r: Result<PageScan>)
    ensures r.Ok? && r.value.NotFound? ==> r.value.next == NextLink(Returned(body))
  {
    var start :- StartPage(body);
    var found :- ScanEvents(start.events, start.names);
    if found.Some? then Ok(Found(found.value))
    else
      var links :- AsDict(LookupOr(start.data, "links", EmptyObject));
      Ok(NotFound(Lookup(links, "next")))
  }

  /** `find_matching_event` from page `k` on: the newest target event, None when
      the pages run out without one, or the exception raised on the way. */
  function FindFirstMatch(pages: seq<Outcome>, k: nat): Paged<Option<Json>>
    requires k < |pages| && PagesEnd(pages)
    decreases |pages| - k
  {
    match pages[k]
    case Raised(f) => Paged(Err(f), k + 1)
    case Returned(body) =>
      match EventPage(body)
      case Err(f) => Paged(Err(f), k + 1)
      case Ok(Found(e)) => Paged(Ok(Some(e)), k + 1)
      case Ok(NotFound(next)) =>
        if !Truthy(next) then Paged(Ok(None), k + 1)
        else if k + 1 < |pages| then FindFirstMatch(pages, k + 1)
        else assert false; Paged(Ok(None), k)
  }

  /** The loop building `metric_name_by_id` for one page. */
  method BuildMetricNames(included: seq<Json>) returns (r: Result<MetricNames>)
    ensures r == CollectMetricNames(included, map[])
  {
    var names: MetricNames := map[];
    var i := 0;
    while i < |included|
      invariant 0 <= i <= |included|
      invariant CollectMetricNames(included, map[]) == CollectMetricNames(included[i..], names)
    {
      assert included[i..][1..] == included[i + 1..];
      if !included[i].Obj? {
        return Err(AttributeError);
      }
      var inc := included[i].fields;
      if Lookup(inc, "type") == Str("metric") {
        var mid := Lookup(inc, "id");
        var attrs := Or(LookupOr(inc, "attributes", EmptyObject), EmptyObject);
        if !attrs.Obj? {
          return Err(AttributeError);
        }
        var name := Lookup(attrs.fields, "name");
        if Truthy(mid) && Truthy(name) {
          if !Hashable(mid) {
            return Err(TypeError);
          }
          names := names[mid := name];
        }
      }
      i := i + 1;
    }
    return Ok(names);
  }

  /** What a page read does before it yields its first event: the page must be
      a dict, its metric lookup is built, and its `data` is iterated. */
  method ReadPageStart(body: Json) returns (r: Result<PageStart>)
    ensures r == StartPage(body)
  {
    if !body.Obj? {
      return Err(AttributeError);
    }
    var data := body.fields;
    var included := Iterate(LookupOr(data, "included", Arr([])));
    if included.Err? {
      return Err(included.error);
    }
    var names := BuildMetricNames(included.value);
    if names.Err? {
      return Err(names.error);
    }
    var events := Iterate(LookupOr(data, "data", Arr([])));
    if events.Err? {
      return Err(events.error);
    }
    return Ok(PageStart(data, names.value, events.value));
  }

  /** `find_matching_event(profile_id)` driving `iterate_profile_events`, where
      `pages[k]` is what the k-th `_get` of the read returns or raises. */
  method FindMatchingEvent(pages: seq<Outcome>) returns (r: Result<Option<Json>>, fetched: nat)
    requires PagesEnd(pages)
    ensures Paged(r, fetched) == FindFirstMatch(pages, 0)
  {
    var k: nat := 0;
    while true
      invariant k < |pages|
      invariant FindFirstMatch(pages, 0) == FindFirstMatch(pages, k)
      decreases |pages| - k
    {
      fetched := k + 1;
      if pages[k].Raised? {
        return Err(pages[k].failure), fetched;
      }
      var start := ReadPageStart(pages[k].value);
      if start.Err? {
        return Err(start.error), fetched;
      }
      var data, names, events := start.value.data, start.value.names, start.value.events;
      var i := 0;
      while i < |events|
        invariant 0 <= i <= |events|
        invariant ScanEvents(events, names) == ScanEvents(events[i..], names)
      {
        assert events[i..][1..] == events[i + 1..];
        var e := Annotate(events[i], names);
        if e.Err? {
          return Err(e.error), fetched;
        }
        var metricName := MetricLabel(e.value);
        if metricName.Err? {
          return Err(metricName.error), fetched;
        }
        if metricName.value in TargetMetricNames {
          return Ok(Some(e.value)), fetched;
        }
        i := i + 1;
      }
      var links := LookupOr(data, "links", EmptyObject);
      if !links.Obj? {
        return Err(AttributeError), fetched;
      }
      if !Truthy(Lookup(links.fields, "next")) {
        return Ok(None), fetched;
      }
      k := k + 1;
    }
  }

  // The generator on its own, as the consumer sees it: the events it yields, in
  // page order and pages in next-link order, and the exception, if any, that ends
  // the stream after them.

  /** What a generator yields before it stops: its events, and the exception it
      raises when it does not simply run out. */
  datatype Yielded = Yielded(events: seq<Json>, failure: Option<Failure>)

  /** A loop that yields values one by one, each value or the exception
      computing it raises given in order: the values yielded before the first
      exception, and that exception. */
  function YieldUntilError(rs: seq<Result<Json>>): (y: Yielded)
    ensures |y.events| <= |rs|
    ensures forall i :: 0 <= i < |y.events| ==> rs[i] == Ok(y.events[i])
    ensures y.failure.None? <==> |y.events| == |rs|
    ensures y.failure.None? <==> forall i :: 0 <= i < |rs| ==> rs[i].Ok?
    ensures y.failure.Some? ==> rs[|y.events|] == Err(y.failure.value)
    decreases |rs|
  {
    if rs == [] then Yielded([], None)
    else if rs[0].Err? then Yielded([], Some(rs[0].error))
    else
      var rest := YieldUntilError(rs[1..]);
      assert forall i :: 1 <= i < |rs| ==> rs[1..][i - 1] == rs[i];
      Yielded([rs[0].value] + rest.events, rest.failure)
  }

  /** What annotating each event of a page gives, event by event. */
  function Annotations(events: seq<Json>, names: MetricNames): (rs: seq<Result<Json>>)
    ensures |rs| == |events|
    ensures forall i {:trigger rs[i]} :: 0 <= i < |events| ==> rs[i] == Annotate(events[i], names)
    decreases |events|
  {
    if events == [] then []
    else
      var rest := Annotations(events[1..], names);
      assert forall i :: 1 <= i < |events| ==> events[1..][i - 1] == events[i];
      [Annotate(events[0], names)] + rest
  }

  /** One page of the generator: what it yields, and the page's next link when
      the page ends without an exception (`links` is read after the last event). */
  function PageYield(body: Json): (r: (Yielded, Json))
    ensures r.0.failure.None? ==> r.1 == NextLink(Returned(body))
  {
    match StartPage(body)
    case Err(f) => (Yielded([], Some(f)), Null)
    case Ok(start) =>
      var y := YieldUntilError(Annotations(start.events, start.names));
      if y.failure.Some? then (y, Null)
      else match AsDict(LookupOr(start.data, "links", EmptyObject))
        case Err(f) => (Yielded(y.events, Some(f)), Null)
        case Ok(links) => (y, Lookup(links, "next"))
  }

  /** Everything `iterate_profile_events` yields from page `k` on, and how it
      ends: a page that raises, or that cannot be read, ends the stream with its
      exception after the events it did yield. */
  function Stream(pages: seq<Outcome>, k: nat): Yielded
    requires k < |pages| && PagesEnd(pages)
    decreases |pages| - k
  {
    match pages[k]
    case Raised(f) => Yielded([], Some(f))
    case Returned(body) =>
      var p := PageYield(body);
      if p.0.failure.Some? || !Truthy(p.1) then p.0
      else if k + 1 < |pages| then
        var rest := Stream(pages, k + 1);
        Yielded(p.0.events + rest.events, rest.failure)
      else assert false; p.0
  }

  /** The consumer on a stream: the first target event. */
  function FirstTarget(events: seq<Json>): Result<Option<Json>>
    decreases |events|
  {
    if events == [] then Ok(None)
    else
      var metricName :- MetricLabel(events[0]);
      if metricName in TargetMetricNames then Ok(Some(events[0])) else FirstTarget(events[1..])
  }

  /** The consumer returns the first event of the stream whose metric name is a
      target, all earlier names being readable non-targets. */
  lemma {:induction false} FirstTargetFound(events: seq<Json>)
    requires FirstTarget(events).Ok? && FirstTarget(events).value.Some?
    ensures exists j {:trigger Matches(events[j])} ::
      && 0 <= j < |events|
      && events[j] == FirstTarget(events).value.value
      && Matches(events[j])
      && (forall i {:trigger Misses(events[i])} :: 0 <= i < j ==> Misses(events[i]))
    decreases |events|
  {
    var found := FirstTarget(events).value.value;
    FirstTargetHead(events);
    if Matches(events[0]) {
      FirstTargetHit(events);
      assert events[0] == found;
    } else {
      var tail := events[1..];
      FirstTargetMiss(events);
      FirstTargetFound(tail);
      var j :| 0 <= j < |tail| && tail[j] == found && Matches(tail[j]) &&
        (forall i {:trigger Misses(tail[i])} :: 0 <= i < j ==> Misses(tail[i]));
      assert events[j + 1] == tail[j];
      forall i {:trigger Misses(events[i])} | 0 <= i < j + 1 ensures Misses(events[i]) {
        if i > 0 {
          assert events[i] == tail[i - 1];
        }
      }
    }
  }

  /** The consumer returns None exactly when every metric name of the stream is a
      readable non-target. */
  lemma {:induction false} FirstTargetNone(events: seq<Json>)
    ensures FirstTarget(events) == Ok(None) <==> forall i {:trigger Misses(events[i])} :: 0 <= i < |events| ==> Misses(events[i])
    decreases |events|
  {
    if events != [] {
      var tail := events[1..];
      FirstTargetNone(tail);
      if forall i {:trigger Misses(events[i])} :: 0 <= i < |events| ==> Misses(events[i]) {
        assert Misses(events[0]);
        forall i {:trigger Misses(tail[i])} | 0 <= i < |tail| ensures Misses(tail[i]) {
          assert tail[i] == events[i + 1] && Misses(events[i + 1]);
        }
        FirstTargetMiss(events);
      }
      if FirstTarget(events) == Ok(None) {
        FirstTargetHead(events);
        if Matches(events[0]) {
          FirstTargetHit(events);
        }
        FirstTargetMiss(events);
        forall i {:trigger Misses(events[i])} | 0 <= i < |events| ensures Misses(events[i]) {
          if i > 0 {
            assert events[i] == tail[i - 1] && Misses(tail[i - 1]);
          }
        }
      }
    }
  }

  lemma {:induction false} FirstTargetAppend(a: seq<Json>, b: seq<Json>)
    ensures FirstTarget(a + b) == if FirstTarget(a) == Ok(None) then FirstTarget(b) else FirstTarget(a)
    decreases |a|
  {
    if a == [] {
      assert a + b == b;
    } else {
      assert (a + b)[1..] == a[1..] + b;
      FirstTargetAppend(a[1..], b);
    }
  }

  /** One step of the consumer: a readable non-target is passed over. */
  lemma FirstTargetMiss(events: seq<Json>)
    requires events != [] && Misses(events[0])
    ensures FirstTarget(events) == FirstTarget(events[1..])
  {
  }

  /** One step of the consumer: a target is returned. */
  lemma FirstTargetHit(events: seq<Json>)
    requires events != [] && Matches(events[0])
    ensures FirstTarget(events) == Ok(Some(events[0]))
  {
  }

  /** The consumer gets past the first event only when its metric name can be
      read. */
  lemma FirstTargetHead(events: seq<Json>)
    requires events != [] && FirstTarget(events).Ok?
    ensures Matches(events[0]) || Misses(events[0])
  {
  }

  /** The consumer on a single event. */
  lemma FirstTargetSingle(e: Json)
    ensures FirstTarget([e]) ==
      match MetricLabel(e)
      case Err(f) => Err(f)
      case Ok(n) => if n in TargetMetricNames then Ok(Some(e)) else Ok(None)
  {
    assert [e][1..] == [];
  }

  /** `find_matching_event` on a page that was returned: the page's scan
      decides, or the next page does. */
  lemma FindFirstMatchStep(pages: seq<Outcome>, k: nat)
    requires k < |pages| && PagesEnd(pages) && pages[k].Returned?
    ensures FindFirstMatch(pages, k).result ==
      match EventPage(pages[k].value)
      case Err(f) => Err(f)
      case Ok(Found(e)) => Ok(Some(e))
      case Ok(NotFound(next)) =>
        if !Truthy(next) || k + 1 >= |pages| then Ok(None) else FindFirstMatch(pages, k + 1).result
  {
  }

  /** How the consumer ends, given what it found among the events yielded and
      how the stream ended: the first target, the exception of reading a
      metric name, or, when every event yielded is a readable non-target, the
      exception that ends the stream, and None when it simply runs out. */
  function Settle(found: Result<Option<Json>>, failure: Option<Failure>): (r: Result<Option<Json>>)
    ensures r.Ok? && r.value.Some? ==> found == r
    ensures r == Ok(None) <==> found == Ok(None) && failure.None?
    ensures r.Err? ==> found == r || (found == Ok(None) && failure == Some(r.error))
  {
    match found
    case Ok(None) => if failure.Some? then Err(failure.value) else Ok(None)
    case _ => found
  }

  /** The consumer on a stream. */
  function Consume(y: Yielded): Result<Option<Json>>
  {
    Settle(FirstTarget(y.events), y.failure)
  }

  /** Consuming events and then a stream consumes the events first; the stream
      matters only when they hold no target and raise nothing. */
  lemma ConsumeAppend(a: seq<Json>, rest: Yielded)
    ensures Consume(Yielded(a + rest.events, rest.failure)) ==
      if FirstTarget(a) == Ok(None) then Consume(rest) else FirstTarget(a)
  {
    FirstTargetAppend(a, rest.events);
  }

  /** The consumer fails on the first event whose metric name cannot be read,
      every earlier one being a readable non-target. */
  lemma {:induction false} FirstTargetFails(events: seq<Json>)
    requires FirstTarget(events).Err?
    ensures exists j {:trigger MetricLabel(events[j])} ::
      && 0 <= j < |events|
      && MetricLabel(events[j]) == Err(FirstTarget(events).error)
      && (forall i {:trigger Misses(events[i])} :: 0 <= i < j ==> Misses(events[i]))
    decreases |events|
  {
    FirstTargetErrHead(events);
    if Misses(events[0]) {
      var tail := events[1..];
      FirstTargetFails(tail);
      var j :| 0 <= j < |tail| && MetricLabel(tail[j]) == Err(FirstTarget(tail).error) &&
        (forall i {:trigger Misses(tail[i])} :: 0 <= i < j ==> Misses(tail[i]));
      assert events[j + 1] == tail[j];
      forall i {:trigger Misses(events[i])} | 0 <= i < j + 1 ensures Misses(events[i]) {
        if i > 0 {
          assert events[i] == tail[i - 1];
        }
      }
      assert MetricLabel(events[j + 1]) == Err(FirstTarget(events).error);
    } else {
      assert MetricLabel(events[0]) == Err(FirstTarget(events).error);
    }
  }

  /** One step of the consumer towards a failure: the first event's metric name
      cannot be read, or it is not a target and the failure comes later. */
  lemma FirstTargetErrHead(events: seq<Json>)
    requires FirstTarget(events).Err?
    ensures events != []
    ensures || (MetricLabel(events[0]).Err? && FirstTarget(events) == Err(MetricLabel(events[0]).error))
            || (Misses(events[0]) && FirstTarget(events) == FirstTarget(events[1..]))
  {
  }


  /** A target preceded only by readable non-targets is what the consumer
      returns, whatever follows it. */
  lemma {:induction false} FirstTargetAt(events: seq<Json>, j: nat)
    requires j < |events| && Matches(events[j])
    requires forall i {:trigger Misses(events[i])} :: 0 <= i < j ==> Misses(events[i])
    ensures FirstTarget(events) == Ok(Some(events[j]))
    decreases j
  {
    if j == 0 {
      FirstTargetHit(events);
    } else {
      var tail := events[1..];
      assert tail[j - 1] == events[j];
      forall i {:trigger Misses(tail[i])} | 0 <= i < j - 1 ensures Misses(tail[i]) {
        assert tail[i] == events[i + 1] && Misses(events[i + 1]);
      }
      FirstTargetAt(tail, j - 1);
      assert Misses(events[0]);
      FirstTargetMiss(events);
    }
  }

  /** The fused annotate-and-test loop of one page is the consumer on what the
      page's annotation loop yields. */
  lemma {:induction false} ScanMatchesConsume(events: seq<Json>, names: MetricNames)
    ensures ScanEvents(events, names) == Consume(YieldUntilError(Annotations(events, names)))
    decreases |events|
  {
    if events != [] {
      var rs := Annotations(events, names);
      var tail := Annotations(events[1..], names);
      assert rs == [Annotate(events[0], names)] + tail;
      if rs[0].Ok? {
        assert rs[1..] == tail;
        ScanMatchesConsume(events[1..], names);
        ConsumeAppend([rs[0].value], YieldUntilError(tail));
        FirstTargetSingle(rs[0].value);
      }
    }
  }

  /** The fused page scan finds what the consumer finds on what the page yields,
      raises what it raises, and otherwise passes on the page's next link. */
  lemma PageScanAgrees(body: Json)
    ensures var p := PageYield(body);
      match Consume(p.0)
      case Err(f) => EventPage(body) == Err(f)
      case Ok(Some(e)) => EventPage(body) == Ok(Found(e))
      case Ok(None) => EventPage(body) == Ok(NotFound(p.1))
  {
    if StartPage(body).Ok? {
      var start := StartPage(body).value;
      ScanMatchesConsume(start.events, start.names);
    }
  }

  /** `iterate_profile_events` on a page that was returned: what the page
      yields, followed by the rest of the stream when the page ends without an
      exception and links on. */
  lemma StreamStep(pages: seq<Outcome>, k: nat)
    requires k < |pages| && PagesEnd(pages) && pages[k].Returned?
    ensures var p := PageYield(pages[k].value);
      Stream(pages, k) ==
        if p.0.failure.Some? || !Truthy(p.1) || k + 1 >= |pages| then p.0
        else Yielded(p.0.events + Stream(pages, k + 1).events, Stream(pages, k + 1).failure)
  {
  }

  /** One page, on values: when the fused scan of a page agrees with the consumer
      on what the page yields, the search's next step agrees with the consumer on
      that page followed by the rest (`after` being the consumer on the page's
      events and then the rest of the stream, `rest` the consumer on the rest). */
  lemma PageStepAgrees(found: Result<Option<Json>>, failure: Option<Failure>, link: Json,
                       scan: Result<PageScan>, rest: Result<Option<Json>>, after: Result<Option<Json>>, more: bool)
    requires match Settle(found, failure)
      case Err(f) => scan == Err(f)
      case Ok(Some(e)) => scan == Ok(Found(e))
      case Ok(None) => scan == Ok(NotFound(link))
    requires after == if found == Ok(None) then rest else found
    ensures
      (match scan
       case Err(f) => Err(f)
       case Ok(Found(e)) => Ok(Some(e))
       case Ok(NotFound(next)) => if !Truthy(next) || !more then Ok(None) else rest)
      ==
      (if failure.Some? || !Truthy(link) || !more then Settle(found, failure) else after)
  {
  }

  /** Laziness, stated: `find_matching_event` returns what the consumer makes of
      the stream `iterate_profile_events` yields.  A target is returned even when
      a later event or a later page would raise, since those are never reached. */
  lemma {:induction false} LazyScanMatchesStream(pages: seq<Outcome>, k: nat)
    requires k < |pages| && PagesEnd(pages)
    ensures FindFirstMatch(pages, k).result == Consume(Stream(pages, k))
    decreases |pages| - k
  {
    if pages[k].Returned? {
      var body := pages[k].value;
      var more := k + 1 < |pages|;
      var rest := if more then Stream(pages, k + 1) else Yielded([], None);
      if more {
        LazyScanMatchesStream(pages, k + 1);
      }
      var p := PageYield(body);
      PageScanAgrees(body);
      ConsumeAppend(p.0.events, rest);
      PageStepAgrees(FirstTarget(p.0.events), p.0.failure, p.1, EventPage(body),
                     Consume(rest), Consume(Yielded(p.0.events + rest.events, rest.failure)), more);
      FindFirstMatchStep(pages, k);
      StreamStep(pages, k);
    }
  }

  /** Hence the event found is a target whose every predecessor in the stream is
      a readable non-target; None means the stream ran out holding no target; and
      an exception is either that of the first unreadable metric name or, after
      readable non-targets only, the one that ended the stream. */
  lemma FindMatchingEventSpec(pages: seq<Outcome>)
    requires PagesEnd(pages)
    ensures var r := FindFirstMatch(pages, 0).result; var s := Stream(pages, 0);
      && (r.Ok? && r.value.Some? ==>
            exists j {:trigger Matches(s.events[j])} ::
              && 0 <= j < |s.events|
              && s.events[j] == r.value.value
              && Matches(s.events[j])
              && (forall i {:trigger Misses(s.events[i])} :: 0 <= i < j ==> Misses(s.events[i])))
      && (r == Ok(None) <==> s.failure.None? && forall i {:trigger Misses(s.events[i])} :: 0 <= i < |s.events| ==> Misses(s.events[i]))
      && (r.Err? ==>
            || (exists j {:trigger MetricLabel(s.events[j])} ::
                  && 0 <= j < |s.events|
                  && MetricLabel(s.events[j]) == Err(r.error)
                  && (forall i {:trigger Misses(s.events[i])} :: 0 <= i < j ==> Misses(s.events[i])))
            || (s.failure == Some(r.error) && forall i {:trigger Misses(s.events[i])} :: 0 <= i < |s.events| ==> Misses(s.events[i])))
  {
    LazyScanMatchesStream(pages, 0);
    var s := Stream(pages, 0);
    FirstTargetNone(s.events);
    var t := FirstTarget(s.events);
    if t.Ok? && t.value.Some? {
      FirstTargetFound(s.events);
    } else if t.Err? {
      FirstTargetFails(s.events);
    }
  }

  /** The converse of the found case: the first target of the stream is
      returned whenever only readable non-targets come before it. */
  lemma TargetReturned(pages: seq<Outcome>, j: nat)
    requires PagesEnd(pages) && j < |Stream(pages, 0).events|
    requires Matches(Stream(pages, 0).events[j])
    requires forall i {:trigger Misses(Stream(pages, 0).events[i])} :: 0 <= i < j ==> Misses(Stream(pages, 0).events[i])
    ensures FindFirstMatch(pages, 0).result == Ok(Some(Stream(pages, 0).events[j]))
  {
    LazyScanMatchesStream(pages, 0);
    FirstTargetAt(Stream(pages, 0).events, j);
  }

  /** A page the search reads to its end and leaves for the next one: it was
      returned, every event on it annotates to a readable non-target, and it
      links on. */
  predicate PassesOn(page: Outcome)
  {
    && page.Returned?
    && PageYield(page.value).0.failure.None?
    && Truthy(PageYield(page.value).1)
    && FirstTarget(PageYield(page.value).0.events) == Ok(None)
  }

  /** On values: a scan that agrees with the consumer passes a page on exactly
      when the page yields only readable non-targets, ends without an exception
      and links on, and finds what the consumer finds on the page. */
  lemma ScanPassesOn(found: Result<Option<Json>>, failure: Option<Failure>, link: Json, scan: Result<PageScan>)
    requires match Settle(found, failure)
      case Err(f) => scan == Err(f)
      case Ok(Some(e)) => scan == Ok(Found(e))
      case Ok(None) => scan == Ok(NotFound(link))
    ensures (failure.None? && Truthy(link) && found == Ok(None)) <==>
      (scan.Ok? && scan.value.NotFound? && Truthy(scan.value.next))
    ensures scan.Ok? && scan.value.Found? ==> found == Ok(Some(scan.value.event))
  {
  }

  /** A page passes on exactly when its fused scan finds nothing and its next
      link is truthy; an event the scan finds is the consumer's first target on
      that page. */
  lemma PassesOnScan(page: Outcome)
    ensures PassesOn(page) <==>
      page.Returned? && EventPage(page.value).Ok? && EventPage(page.value).value.NotFound? &&
      Truthy(EventPage(page.value).value.next)
    ensures page.Returned? && EventPage(page.value).Ok? && EventPage(page.value).value.Found? ==>
      FirstTarget(PageYield(page.value).0.events) == Ok(Some(EventPage(page.value).value.event))
  {
    if page.Returned? {
      PageScanAgrees(page.value);
      var p := PageYield(page.value);
      ScanPassesOn(FirstTarget(p.0.events), p.0.failure, p.1, EventPage(page.value));
    }
  }

  /** `find_matching_event` leaves a page that passes on for the next one, which
      exists since the last page has no next link. */
  lemma FindFirstMatchNext(pages: seq<Outcome>, k: nat)
    requires k < |pages| && PagesEnd(pages) && PassesOn(pages[k])
    ensures k + 1 < |pages| && FindFirstMatch(pages, k) == FindFirstMatch(pages, k + 1)
  {
    PassesOnScan(pages[k]);
  }

  /** `find_matching_event` stops at a page that does not pass on, having
      requested it and no later one. */
  lemma FindFirstMatchStops(pages: seq<Outcome>, k: nat)
    requires k < |pages| && PagesEnd(pages) && !PassesOn(pages[k])
    ensures FindFirstMatch(pages, k).fetched == k + 1
    ensures FindFirstMatch(pages, k).result.Ok? && FindFirstMatch(pages, k).result.value.Some? ==>
      pages[k].Returned? && EventPage(pages[k].value).Ok? && EventPage(pages[k].value).value.Found? &&
      FindFirstMatch(pages, k).result.value.value == EventPage(pages[k].value).value.event
    ensures FindFirstMatch(pages, k).result.Ok? && FindFirstMatch(pages, k).result.value.Some? ==>
      FindFirstMatch(pages, k).result == FirstTarget(PageYield(pages[k].value).0.events)
  {
    PassesOnScan(pages[k]);
    var p := FindFirstMatch(pages, k);
    if p.result.Ok? && p.result.value.Some? {
      assert p.result == Ok(Some(EventPage(pages[k].value).value.event));
    }
  }

  /** An event the search finds is the consumer's first target on the last
      page it requested. */
  lemma {:induction false} FoundOnFetchedPage(pages: seq<Outcome>, k: nat)
    requires k < |pages| && PagesEnd(pages)
    requires FindFirstMatch(pages, k).result.Ok? && FindFirstMatch(pages, k).result.value.Some?
    ensures var p := FindFirstMatch(pages, k);
      && 0 < p.fetched <= |pages|
      && pages[p.fetched - 1].Returned?
      && p.result == FirstTarget(PageYield(pages[p.fetched - 1].value).0.events)
    decreases |pages| - k
  {
    var p := FindFirstMatch(pages, k);
    if PassesOn(pages[k]) {
      FindFirstMatchNext(pages, k);
      assert p == FindFirstMatch(pages, k + 1);
      FoundOnFetchedPage(pages, k + 1);
    } else {
      FindFirstMatchStops(pages, k);
    }
  }

  /** The search stops at a page that does not pass on, at most the last one. */
  lemma {:induction false} FetchedStops(pages: seq<Outcome>, k: nat)
    requires k < |pages| && PagesEnd(pages)
    ensures var p := FindFirstMatch(pages, k);
      k < p.fetched <= |pages| && !PassesOn(pages[p.fetched - 1])
    decreases |pages| - k
  {
    if PassesOn(pages[k]) {
      FindFirstMatchNext(pages, k);
      FetchedStops(pages, k + 1);
    } else {
      FindFirstMatchStops(pages, k);
    }
  }

  /** Every page the search requested before its last one passed on. */
  lemma {:induction false} FetchedPassedOn(pages: seq<Outcome>, k: nat)
    requires k < |pages| && PagesEnd(pages)
    ensures var p := FindFirstMatch(pages, k);
      p.fetched <= |pages| && forall j {:trigger PassesOn(pages[j])} :: k <= j < p.fetched - 1 ==> PassesOn(pages[j])
    decreases |pages| - k
  {
    if PassesOn(pages[k]) {
      FindFirstMatchNext(pages, k);
      FetchedPassedOn(pages, k + 1);
    } else {
      FindFirstMatchStops(pages, k);
    }
  }

  /** The search requests page after page while they pass on and stops at the
      first that does not: `fetched` is one more than that page's index, no
      later page is requested, and an event found is the first target on that
      page. */
  lemma FetchedUpTo(pages: seq<Outcome>, k: nat)
    requires k < |pages| && PagesEnd(pages)
    ensures var p := FindFirstMatch(pages, k);
      && k < p.fetched <= |pages|
      && (forall j {:trigger PassesOn(pages[j])} :: k <= j < p.fetched - 1 ==> PassesOn(pages[j]))
      && !PassesOn(pages[p.fetched - 1])
      && (p.result.Ok? && p.result.value.Some? ==>
            pages[p.fetched - 1].Returned? &&
            p.result == FirstTarget(PageYield(pages[p.fetched - 1].value).0.events))
  {
    FetchedStops(pages, k);
    FetchedPassedOn(pages, k);
    var p := FindFirstMatch(pages, k);
    if p.result.Ok? && p.result.value.Some? {
      FoundOnFetchedPage(pages, k);
    }
  }
}
