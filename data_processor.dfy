/** `DataProcessor`: turning a Klaviyo event into a checkout snapshot, finding
    the newest checkout event of a member, summarising a snapshot for display,
    and `process_profiles`, the run over a whole segment. */
module DataProcessor {
  import opened Json
  import opened Text
  import opened Http
  import opened Paging
  import opened Models
  import Segments
  import Events

  // ---------------------------------------------------------------------------
  // Extraction

  /** `_first_src`: `arr[0]["src"]` when `arr` is a non-empty list whose first
      element is a dict, else None. */
  function FirstSrc(arr: Json): (r: Json)
    ensures arr.Arr? && arr.elems != [] && arr.elems[0].Obj? ==> r == Lookup(arr.elems[0].fields, "src")
    ensures !(arr.Arr? && arr.elems != [] && arr.elems[0].Obj?) ==> r == Null
  {
    match arr
    case Arr(elems) =>
      if elems != [] then
        match elems[0]
        case Obj(first) => Lookup(first, "src")
        case _ => Null
      else Null
    case _ => Null
  }

  /** `_coerce_float`: never raises; a number gives its value (a bool counts as
      0 or 1), a string its parsed value, and anything else, or a string that
      does not parse, 0.0. */
  function CoerceFloat(x: Json): (r: real)
    ensures x.Int? ==> r == x.i as real
    ensures x.Float? ==> r == x.r
    ensures x.Bool? ==> r == if x.b then 1.0 else 0.0
    ensures x.Str? && ParseDecimal(x.s).Some? ==> r == ParseDecimal(x.s).value
    ensures x.Str? && ParseDecimal(x.s).None? ==> r == 0.0
    ensures x.Null? || x.Arr? || x.Obj? ==> r == 0.0
  {
    match x
    case Int(i) => i as real
    case Bool(b) => if b then 1.0 else 0.0
    case Float(f) => f
    case Str(s) =>
      ParseDecimalStripped(s);
      (match ParseDecimal(Strip(s))
       case Some(v) => v
       case None => 0.0)
    case _ => 0.0
  }

  /** Python's conversion of a float to int, which truncates toward zero. */
  function Truncate(r: real): (n: int)
    ensures r >= 0.0 ==> n >= 0 && n as real <= r < n as real + 1.0
    ensures r < 0.0 ==> n <= 0 && n as real - 1.0 < r <= n as real
  {
    if r >= 0.0 then r.Floor else -((-r).Floor)
  }

  /** `int(v)`: integers as they are, a bool as 0 or 1, a float truncated toward
      zero, a string through `int(str)` (ValueError when it does not parse);
      None, lists and dicts raise TypeError. */
  function PyInt(v: Json): (r: Result<int>)
    ensures v.Int? ==> r == Ok(v.i)
    ensures v.Bool? ==> r == Ok(if v.b then 1 else 0)
    ensures v.Float? ==> r.Ok? && r.value == Truncate(v.r)
    ensures v.Str? ==> r == if ParseInt(v.s).Some? then Ok(ParseInt(v.s).value) else Err(ValueError)
    ensures v.Null? || v.Arr? || v.Obj? ==> r == Err(TypeError)
  {
    match v
    case Int(i) => Ok(i)
    case Bool(b) => Ok(if b then 1 else 0)
    case Float(f) => Ok(Truncate(f))
    case Str(s) =>
      (match ParseInt(s)
       case Some(n) => Ok(n)
       case None => Err(ValueError))
    case _ => Err(TypeError)
  }

  /** `item.get("product") or {}`, which must be a dict for the `.get`s after it. */
  function ProductOf(item: Dict): Result<Dict>
  {
    AsDict(Or(Lookup(item, "product"), EmptyObject))
  }

  /** `_pick_image_url`: the first `src` of the variant's images, or else of the
      product's images; there is no placeholder. */
  function PickImageUrl(item: Dict): (r: Result<Json>)
    ensures r.Ok? ==> ProductOf(item).Ok?
    ensures ProductOf(item).Ok? ==>
      var variant := AsDict(Or(Lookup(ProductOf(item).value, "variant"), EmptyObject));
      && (r.Ok? <==> variant.Ok?)
      && (r.Ok? ==>
            var fromVariant := FirstSrc(Or(Lookup(variant.value, "images"), Arr([])));
            var fromProduct := FirstSrc(Or(Lookup(ProductOf(item).value, "images"), Arr([])));
            r.value == if Truthy(fromVariant) then fromVariant else fromProduct)
  {
    var product :- ProductOf(item);
    var variant :- AsDict(Or(Lookup(product, "variant"), EmptyObject));
    var variantImages := Or(Lookup(variant, "images"), Arr([]));
    var productImages := Or(Lookup(product, "images"), Arr([]));
    Ok(Or(FirstSrc(variantImages), FirstSrc(productImages)))
  }

  /** The title candidates, in probe order. */
  function TitleProbes(item: Dict, product: Dict): (c: seq<Json>)
    ensures |c| == 4
  {
    [Lookup(product, "title"), Lookup(item, "presentment_title"), Lookup(item, "title"), Str("")]
  }

  /** `item.get("variant_id") or (product.get("variant") or {}).get("id")`; the
      right-hand side is evaluated only when the left is falsy. */
  function VariantIdOf(item: Dict, product: Dict): (r: Result<Json>)
    ensures Truthy(Lookup(item, "variant_id")) ==> r == Ok(Lookup(item, "variant_id"))
    ensures !Truthy(Lookup(item, "variant_id")) ==>
      match Or(Lookup(product, "variant"), EmptyObject)
      case Obj(variant) => r == Ok(Lookup(variant, "id"))
      case _ => r == Err(AttributeError)
  {
    if Truthy(Lookup(item, "variant_id")) then Ok(Lookup(item, "variant_id"))
    else
      var variant :- AsDict(Or(Lookup(product, "variant"), EmptyObject));
      Ok(Lookup(variant, "id"))
  }

  /** `_line_item_to_snapshot`. */
  function LineItemToSnapshot(x: Json): Result<LineItem>
  {
    var item :- AsDict(x);
    var product :- ProductOf(item);
    var title := OrChain(TitleProbes(item, product));
    var variantId :- VariantIdOf(item, product);
    var imageUrl :- PickImageUrl(item);
    var quantity :- PyInt(Or(Lookup(item, "quantity"), Int(0)));
    Ok(LineItem(Lookup(product, "id"), variantId, title, imageUrl, quantity, CoerceFloat(Lookup(item, "line_price"))))
  }

  /** A converted line item: the title is the first truthy of product.title,
      presentment_title and title, else ""; the variant id falls back to
      product.variant.id; a missing or falsy quantity is 0; the price is the
      coerced `line_price`.  An item converts whenever it is a dict whose
      product and variant are dicts or falsy and whose quantity is falsy or an
      integer. */
  lemma LineItemSpec(x: Json)
    ensures LineItemToSnapshot(x).Ok? ==>
      && x.Obj? && ProductOf(x.fields).Ok?
      && var item := x.fields; var product := ProductOf(item).value; var li := LineItemToSnapshot(x).value;
      && Picks(li.title, TitleProbes(item, product))
      && li.productId == Lookup(product, "id")
      && li.variantId == VariantIdOf(item, product).value
      && li.imageUrl == PickImageUrl(item).value
      && (!Truthy(Lookup(item, "quantity")) ==> li.quantity == 0)
      && (Lookup(item, "quantity").Int? ==> li.quantity == Lookup(item, "quantity").i)
      && li.linePrice == CoerceFloat(Lookup(item, "line_price"))
    ensures (&& x.Obj? && ProductOf(x.fields).Ok?
             && AsDict(Or(Lookup(ProductOf(x.fields).value, "variant"), EmptyObject)).Ok?
             && (!Truthy(Lookup(x.fields, "quantity")) || Lookup(x.fields, "quantity").Int?))
      ==> LineItemToSnapshot(x).Ok?
  {
    if x.Obj? && ProductOf(x.fields).Ok? {
      OrChainPicks(TitleProbes(x.fields, ProductOf(x.fields).value));
    }
  }

  /** `[self._line_item_to_snapshot(item) for item in line_items_data]`: one
      item per source line item, in source order; the first item that fails
      to convert raises. */
  function MapLineItems(xs: seq<Json>): (r: Result<seq<LineItem>>)
    ensures r.Ok? <==> forall i :: 0 <= i < |xs| ==> LineItemToSnapshot(xs[i]).Ok?
    ensures r.Ok? ==> |r.value| == |xs| && forall i :: 0 <= i < |xs| ==> r.value[i] == LineItemToSnapshot(xs[i]).value
    decreases |xs|
  {
    if xs == [] then Ok([])
    else
      var li :- LineItemToSnapshot(xs[0]);
      var rest :- MapLineItems(xs[1..]);
      assert forall i :: 1 <= i < |xs| ==> xs[i] == xs[1..][i - 1];
      Ok([li] + rest)
  }

  /** The property bags of an event. */
  datatype Bags = Bags(attrs: Dict, props: Dict, extra: Dict)

  // The probe tables: each list is tried left to right, the first truthy entry
  // wins and the last entry is the fallback.

  function PropsProbes(attrs: Dict): seq<Json>
  {
    [Lookup(attrs, "properties"), Lookup(attrs, "event_properties"), EmptyObject]
  }

  function ExtraProbes(props: Dict): seq<Json>
  {
    [Lookup(props, "extra"), Lookup(props, "$extra"), EmptyObject]
  }

  function LineItemsProbes(b: Bags): seq<Json>
  {
    [Lookup(b.extra, "line_items"), Lookup(b.props, "Items"), Lookup(b.props, "items"), Arr([])]
  }

  function CheckoutUrlProbes(b: Bags): seq<Json>
  {
    [Lookup(b.extra, "checkout_url"), Lookup(b.extra, "responsive_checkout_url"),
     Lookup(b.props, "checkout_url"), Lookup(b.props, "Checkout URL")]
  }

  function CurrencyProbes(b: Bags): seq<Json>
  {
    [Lookup(b.extra, "presentment_currency"), Lookup(b.props, "presentment_currency"),
     Lookup(b.props, "$currency_code"), Str("USD")]
  }

  function TimestampProbes(attrs: Dict): seq<Json>
  {
    [Lookup(attrs, "timestamp"), Lookup(attrs, "datetime"), Lookup(attrs, "time")]
  }

  /** `attrs`, `props` and `extra`; each must be a dict for the lookups after it. */
  function BagsOf(event: Dict): (r: Result<Bags>)
    ensures r.Ok? ==> AsDict(Or(Lookup(event, "attributes"), EmptyObject)) == Ok(r.value.attrs)
    ensures r.Ok? ==> Picks(Obj(r.value.props), PropsProbes(r.value.attrs))
    ensures r.Ok? ==> Picks(Obj(r.value.extra), ExtraProbes(r.value.props))
  {
    var attrs :- AsDict(Or(Lookup(event, "attributes"), EmptyObject));
    OrChainPicks(PropsProbes(attrs));
    var props :- AsDict(OrChain(PropsProbes(attrs)));
    OrChainPicks(ExtraProbes(props));
    var extra :- AsDict(OrChain(ExtraProbes(props)));
    Ok(Bags(attrs, props, extra))
  }

  /** `event_to_snapshot`: None when there is neither a checkout URL nor any item. */
  function EventToSnapshot(event: Json): Result<Option<CheckoutSnapshot>>
  {
    var e :- AsDict(event);
    var b :- BagsOf(e);
    var lineItems :- Iterate(OrChain(LineItemsProbes(b)));
    var items :- MapLineItems(lineItems);
    var url := OrChain(CheckoutUrlProbes(b));
    var currency := OrChain(CurrencyProbes(b));
    var updatedAt := OrChain(TimestampProbes(b.attrs));
    if !Truthy(url) && items == [] then Ok(None)
    else Ok(Some(CheckoutSnapshot(url, currency, updatedAt, items)))
  }

  /** A converted event: no snapshot exactly when the checkout URL is falsy and
      there are no line items; otherwise one item per source line item in order,
      and every field the first truthy entry of its probe table (the currency
      falling back to "USD", so it is always set). */
  lemma EventToSnapshotSpec(event: Json)
    requires EventToSnapshot(event).Ok?
    ensures event.Obj? && BagsOf(event.fields).Ok?
    ensures var b := BagsOf(event.fields).value;
      var r := EventToSnapshot(event).value;
      && Iterate(OrChain(LineItemsProbes(b))).Ok?
      && var lineItems := Iterate(OrChain(LineItemsProbes(b))).value;
      && (r.None? <==> !Truthy(OrChain(CheckoutUrlProbes(b))) && lineItems == [])
      && (r.Some? ==>
            && Picks(r.value.checkoutUrl, CheckoutUrlProbes(b))
            && Picks(r.value.currency, CurrencyProbes(b))
            && Truthy(r.value.currency)
            && Picks(r.value.updatedAt, TimestampProbes(b.attrs))
            && |r.value.items| == |lineItems|
            && forall i :: 0 <= i < |lineItems| ==> r.value.items[i] == LineItemToSnapshot(lineItems[i]).value)
  {
    var b := BagsOf(event.fields).value;
    OrChainPicks(CheckoutUrlProbes(b));
    OrChainPicks(CurrencyProbes(b));
    OrChainPicks(TimestampProbes(b.attrs));
    OrChainTruthy(CurrencyProbes(b));
    assert Truthy(CurrencyProbes(b)[3]);
  }

  // ---------------------------------------------------------------------------
  // Display summary

  /** The two lines per item of a summary, numbered from 1. */
  function ItemLines(items: seq<LineItem>): (r: seq<SummaryLine>)
    ensures |r| == 2 * |items|
    ensures forall i :: 0 <= i < |items| ==>
      && r[2 * i] == ItemLine(i + 1, items[i].title, Int(items[i].quantity), Float(items[i].linePrice))
      && r[2 * i + 1] == ImageLine(Or(items[i].imageUrl, Str("-")))
    decreases |items|
  {
    if items == [] then []
    else
      var n := |items|;
      var last := items[n - 1];
      assert forall i :: 0 <= i < n - 1 ==> items[..n - 1][i] == items[i];
      ItemLines(items[..n - 1]) + [ItemLine(n, last.title, Int(last.quantity), Float(last.linePrice)),
                                   ImageLine(Or(last.imageUrl, Str("-")))]
  }

  /** `summarize_snapshot_for_display`, line by line before formatting. */
  function DisplaySummary(profile: ProfileInfo, snapshot: CheckoutSnapshot): (r: Result<Summary>)
    ensures r.Ok? <==> DisplayEmail(profile).Ok?
    ensures r.Ok? ==>
      && |r.value| == 4 + 2 * |snapshot.items|
      && r.value[0] == ProfileLine(profile.profileId, DisplayEmail(profile).value)
      && r.value[1] == CheckoutUrlLine(Or(snapshot.checkoutUrl, Str("-")))
      && r.value[2] == CurrencyLine(snapshot.currency, Or(snapshot.updatedAt, Str("-")))
      && r.value[3] == ItemsHeaderLine(|snapshot.items|)
      && r.value[4..] == ItemLines(snapshot.items)
  {
    var email :- DisplayEmail(profile);
    Ok(SummaryHeader(profile.profileId, email, snapshot) + ItemLines(snapshot.items))
  }

  function SummaryHeader(profileId: Json, email: Json, snapshot: CheckoutSnapshot): seq<SummaryLine>
  {
    [ProfileLine(profileId, email),
     CheckoutUrlLine(Or(snapshot.checkoutUrl, Str("-"))),
     CurrencyLine(snapshot.currency, Or(snapshot.updatedAt, Str("-"))),
     ItemsHeaderLine(|snapshot.items|)]
  }

  /** `summarize_snapshot_for_display`: the header lines, then a loop adding two
      lines per item. */
  method SummarizeForDisplay(profile: ProfileInfo, snapshot: CheckoutSnapshot) returns (r: Result<Summary>)
    ensures r == DisplaySummary(profile, snapshot)
  {
    var email := DisplayEmail(profile);
    if email.Err? {
      return Err(email.error);
    }
    var header := SummaryHeader(profile.profileId, email.value, snapshot);
    var lines := header;
    var items := snapshot.items;
    var i := 0;
    while i < |items|
      invariant 0 <= i <= |items|
      invariant lines == header + ItemLines(items[..i])
    {
      var item := items[i];
      lines := lines + [ItemLine(i + 1, item.title, Int(item.quantity), Float(item.linePrice)),
                        ImageLine(Or(item.imageUrl, Str("-")))];
      assert items[..i + 1][..i] == items[..i];
      i := i + 1;
    }
    assert items[..i] == items;
    return Ok(lines);
  }

  // ---------------------------------------------------------------------------
  // process_profiles

  /** What a run has built so far: the counters, the dry-run summaries and the
      PATCH bodies sent, as `(profile id, snapshot.to_dict())`. */
  datatype RunState = RunState(stats: ProcessingStats, summaries: seq<Summary>, writes: seq<(Json, Json)>)

  /** The per-member `try` block: it either runs to its end or raises, leaving
      the state reached when it raised. */
  datatype Tried = Done(state: RunState) | Threw(state: RunState)

  /** `event_to_snapshot` as the member loop calls it.  The bookkeeping lemmas
      below hold for any converter; the loop passes `EventToSnapshot`. */
  type Converter = Json -> Result<Option<CheckoutSnapshot>>

  /** The `try` block of a member, given what `find_matching_event` returned or
      raised for it. */
  function TryMember(s: RunState, profile: ProfileInfo, found: Result<Option<Json>>, convert: Converter, dryRun: bool, patch: Outcome): Tried
  {
    match found
    case Err(_) => Threw(s)
    case Ok(event) =>
      if event.None? || !Truthy(event.value) then Done(s.(stats := s.stats.(noEvent := s.stats.noEvent + 1)))
      else Converted(s, profile, convert(event.value), dryRun, patch)
  }

  /** The rest of the `try` block once the matching event has been converted. */
  function Converted(s: RunState, profile: ProfileInfo, snapshot: Result<Option<CheckoutSnapshot>>, dryRun: bool,
                     patch: Outcome): Tried
  {
    match snapshot
    case Err(_) => Threw(s)
    case Ok(None) => Done(s.(stats := s.stats.(noSnapshot := s.stats.noSnapshot + 1)))
    case Ok(Some(snapshot)) =>
      var s1 := s.(stats := s.stats.(matched := s.stats.matched + 1));
      if dryRun then
        match DisplaySummary(profile, snapshot)
        case Err(_) => Threw(s1)
        case Ok(summary) => Done(s1.(summaries := s1.summaries + [summary]))
      else
        var s2 := s1.(writes := s1.writes + [(profile.profileId, SnapshotToDict(snapshot))]);
        if patch.Raised? then Threw(s2)
        else Done(s2.(stats := s2.stats.(updated := s2.stats.updated + 1)))
  }

  /** One member: the loop goes on, or an exception escapes the loop. */
  datatype MemberStep = Continue(state: RunState) | Abort(state: RunState, failure: Failure)

  /** One iteration of the member loop.  Building `ProfileInfo` needs the
      attributes to be a dict; a caught exception counts an error and logs
      `display_email`, which can itself raise. */
  function HandleMember(s: RunState, id: Json, attrs: Json, found: Result<Option<Json>>, convert: Converter, dryRun: bool, patch: Outcome): MemberStep
  {
    match AsDict(attrs)
    case Err(f) => Abort(s, f)
    case Ok(a) => Admitted(s, ProfileInfo(id, Lookup(a, "email"), a), found, convert, dryRun, patch)
  }

  /** A member whose attributes are a dict: counted as processed, then its
      `try` block and the `except` clause around it. */
  function Admitted(s: RunState, profile: ProfileInfo, found: Result<Option<Json>>, convert: Converter, dryRun: bool, patch: Outcome): MemberStep
  {
    Caught(profile, TryMember(s.(stats := s.stats.(processed := s.stats.processed + 1)), profile, found, convert, dryRun, patch))
  }

  /** The `except` clause around the `try` block of a member. */
  function Caught(profile: ProfileInfo, t: Tried): MemberStep
  {
    match t
    case Done(s2) => Continue(s2)
    case Threw(s2) =>
      var s3 := s2.(stats := s2.stats.(errors := s2.stats.errors + 1));
      match DisplayEmail(profile)
      case Err(f) => Abort(s3, f)
      case Ok(_) => Continue(s3)
  }

  /** The end of the member loop: the state, and the exception that escaped it
      if any. */
  datatype Finished = Finished(state: RunState, crash: Option<Failure>)

  /** The member loop over `n` members from member `i` on, whatever a member's
      step does: `shouldStop(i)` is the answer of `should_stop()` at the top of
      iteration `i`, and `step(s, i)` what iteration `i` does from state `s`. */
  function Loop(n: nat, i: nat, s: RunState, shouldStop: nat -> bool, step: (RunState, nat) -> MemberStep): Finished
    decreases n - i
  {
    if i >= n || shouldStop(i) then Finished(s, None)
    else
      match step(s, i)
      case Abort(s', f) => Finished(s', Some(f))
      case Continue(s') => Loop(n, i + 1, s', shouldStop, step)
  }

  /** The step of member `i` of the segment: `eventPages(i)` are the event
      pages `find_matching_event` reads for it and `patchOutcomes(i)` what its
      PATCH returns or raises. */
  function Steps(ps: Segments.Members, dryRun: bool, eventPages: nat -> seq<Outcome>, patchOutcomes: nat -> Outcome)
    : (RunState, nat) -> MemberStep
  {
    (s: RunState, i: nat) =>
      if i < |ps| && PagesEnd(eventPages(i))
      then HandleMember(s, ps[i].0, ps[i].1, Events.FindFirstMatch(eventPages(i), 0).result, EventToSnapshot, dryRun, patchOutcomes(i))
      else Continue(s)
  }

  /** A run's result and the PATCH bodies it sent. */
  datatype Run = Run(result: SyncResult, writes: seq<(Json, Json)>)

  /** `process_profiles`. */
  function Process(segmentPages: seq<Outcome>, segmentId: string, limit: Option<int>, dryRun: bool,
                   shouldStop: nat -> bool, eventPages: nat -> seq<Outcome>, patchOutcomes: nat -> Outcome): Run
    requires PagesEnd(segmentPages) && AllPagesEnd(eventPages)
  {
    var noResults: Option<seq<Summary>> := if dryRun then Some([]) else None;
    match Segments.SegmentRun(segmentPages, 0, [], limit).result
    case Err(f) => Run(SyncResult(false, FreshStats, Some(ExceptionText(f)), noResults), [])
    case Ok(ps) =>
      if ps == [] then Run(SyncResult(false, FreshStats, Some(NoProfilesFound(segmentId)), None), [])
      else
        var start := RunState(FreshStats.(totalProfiles := |ps|), [], []);
        var end := Loop(|ps|, 0, start, shouldStop, Steps(ps, dryRun, eventPages, patchOutcomes));
        var results := if dryRun then Some(end.state.summaries) else None;
        match end.crash
        case None => Run(SyncResult(true, end.state.stats, None, results), end.state.writes)
        case Some(f) => Run(SyncResult(false, end.state.stats, Some(ExceptionText(f)), results), end.state.writes)
  }

  /** The `try` block of one member: find the event, convert it, then summarise
      it (dry run) or PATCH it. */
  method TryProfile(s: RunState, profile: ProfileInfo, events: seq<Outcome>, dryRun: bool, patch: Outcome)
    returns (t: Tried)
    requires PagesEnd(events)
    ensures t == TryMember(s, profile, Events.FindFirstMatch(events, 0).result, EventToSnapshot, dryRun, patch)
    ensures !dryRun ==> t.state.summaries == s.summaries
  {
    var found, _ := Events.FindMatchingEvent(events);
    t := TryFound(s, profile, found, dryRun, patch);
  }

  /** The `try` block once `find_matching_event` has returned or raised: no
      event counts `no_event`, an event is converted and the rest follows. */
  method TryFound(s: RunState, profile: ProfileInfo, found: Result<Option<Json>>, dryRun: bool, patch: Outcome)
    returns (t: Tried)
    ensures t == TryMember(s, profile, found, EventToSnapshot, dryRun, patch)
    ensures !dryRun ==> t.state.summaries == s.summaries
  {
    if found.Err? {
      return Threw(s);
    }
    if found.value.None? || !Truthy(found.value.value) {
      return Done(s.(stats := s.stats.(noEvent := s.stats.noEvent + 1)));
    }
    var snapshot := EventToSnapshot(found.value.value);
    assert TryMember(s, profile, found, EventToSnapshot, dryRun, patch) == Converted(s, profile, snapshot, dryRun, patch);
    t := TryConverted(s, profile, snapshot, dryRun, patch);
  }

  /** The rest of the `try` block: summarise the snapshot (dry run) or PATCH it. */
  method TryConverted(s: RunState, profile: ProfileInfo, snapshot: Result<Option<CheckoutSnapshot>>, dryRun: bool,
                      patch: Outcome) returns (t: Tried)
    ensures t == Converted(s, profile, snapshot, dryRun, patch)
    ensures !dryRun ==> t.state.summaries == s.summaries
  {
    if snapshot.Err? {
      return Threw(s);
    }
    if snapshot.value.None? {
      return Done(s.(stats := s.stats.(noSnapshot := s.stats.noSnapshot + 1)));
    }
    var next := s.(stats := s.stats.(matched := s.stats.matched + 1));
    if dryRun {
      var summary := SummarizeForDisplay(profile, snapshot.value.value);
      if summary.Err? {
        return Threw(next);
      }
      return Done(next.(summaries := next.summaries + [summary.value]));
    }
    next := next.(writes := next.writes + [(profile.profileId, SnapshotToDict(snapshot.value.value))]);
    if patch.Raised? {
      return Threw(next);
    }
    return Done(next.(stats := next.stats.(updated := next.stats.updated + 1)));
  }

  /** One iteration of the member loop of `process_profiles`: build the
      profile, count it, run the `try` block and, when it raised, count the
      error and log it with `display_email`. */
  method ProcessMember(s: RunState, id: Json, attrs: Json, events: seq<Outcome>, dryRun: bool, patch: Outcome)
    returns (next: RunState, crash: Option<Failure>)
    requires PagesEnd(events)
    ensures (if crash.Some? then Abort(next, crash.value) else Continue(next))
         == HandleMember(s, id, attrs, Events.FindFirstMatch(events, 0).result, EventToSnapshot, dryRun, patch)
    ensures !dryRun ==> next.summaries == s.summaries
  {
    if !attrs.Obj? {
      return s, Some(AttributeError);
    }
    var profile := ProfileInfo(id, Lookup(attrs.fields, "email"), attrs.fields);
    var counted := s.(stats := s.stats.(processed := s.stats.processed + 1));
    var t := TryProfile(counted, profile, events, dryRun, patch);
    assert HandleMember(s, id, attrs, Events.FindFirstMatch(events, 0).result, EventToSnapshot, dryRun, patch) == Caught(profile, t);
    next, crash := t.state, None;
    if t.Threw? {
      next := next.(stats := next.stats.(errors := next.stats.errors + 1));
      var email := DisplayEmail(profile);
      if email.Err? {
        crash := Some(email.error);
      }
    }
  }

  /** `process_profiles` of `DataProcessor`.  The segment read, the event
      lookups and the PATCHes arrive as their outcomes; `writes` lists the
      `patch_profile_snapshot` calls made, in order. */
  method ProcessProfiles(segmentPages: seq<Outcome>, segmentId: string, limit: Option<int>, dryRun: bool,
                         shouldStop: nat -> bool, eventPages: nat -> seq<Outcome>, patchOutcomes: nat -> Outcome)
    returns (result: SyncResult, writes: seq<(Json, Json)>)
    requires PagesEnd(segmentPages) && AllPagesEnd(eventPages)
    ensures Run(result, writes) == Process(segmentPages, segmentId, limit, dryRun, shouldStop, eventPages, patchOutcomes)
  {
    var stats := FreshStats;
    var dryRunResults: Option<seq<Summary>> := if dryRun then Some([]) else None;
    writes := [];
    var profiles, _ := Segments.GetSegmentProfiles(segmentPages, limit);
    if profiles.Err? {
      return SyncResult(false, stats, Some(ExceptionText(profiles.error)), dryRunResults), writes;
    }
    var ps := profiles.value;
    if ps == [] {
      return SyncResult(false, stats, Some(NoProfilesFound(segmentId)), None), writes;
    }
    stats := stats.(totalProfiles := |ps|);
    var crash;
    stats, dryRunResults, writes, crash := ProcessMembers(ps, stats, dryRunResults, dryRun, shouldStop, eventPages, patchOutcomes);
    if crash.Some? {
      return SyncResult(false, stats, Some(ExceptionText(crash.value)), dryRunResults), writes;
    }
    return SyncResult(true, stats, None, dryRunResults), writes;
  }

  /** The member loop of `process_profiles`, from fresh counters to the end of
      the segment, a stop request or an exception that escapes the loop. */
  method ProcessMembers(ps: Segments.Members, stats0: ProcessingStats, results0: Option<seq<Summary>>, dryRun: bool,
                        shouldStop: nat -> bool, eventPages: nat -> seq<Outcome>, patchOutcomes: nat -> Outcome)
    returns (stats: ProcessingStats, dryRunResults: Option<seq<Summary>>, writes: seq<(Json, Json)>, crash: Option<Failure>)
    requires results0 == if dryRun then Some([]) else None
    requires AllPagesEnd(eventPages)
    ensures dryRunResults.Some? <==> dryRun
    ensures Finished(RunState(stats, Results(dryRunResults), writes), crash)
         == Loop(|ps|, 0, RunState(stats0, [], []), shouldStop, Steps(ps, dryRun, eventPages, patchOutcomes))
  {
    ghost var step := Steps(ps, dryRun, eventPages, patchOutcomes);
    stats, dryRunResults, writes, crash := stats0, results0, [], None;
    var i := 0;
    while i < |ps|
      invariant 0 <= i <= |ps|
      invariant dryRunResults.Some? <==> dryRun
      invariant crash.None?
      invariant Loop(|ps|, 0, RunState(stats0, [], []), shouldStop, step)
             == Loop(|ps|, i, RunState(stats, Results(dryRunResults), writes), shouldStop, step)
    {
      if shouldStop(i) {
        break;
      }
      var next;
      var before := RunState(stats, Results(dryRunResults), writes);
      next, crash := ProcessMember(before, ps[i].0, ps[i].1, eventPages(i), dryRun, patchOutcomes(i));
      assert step(before, i) == HandleMember(before, ps[i].0, ps[i].1, Events.FindFirstMatch(eventPages(i), 0).result,
                                             EventToSnapshot, dryRun, patchOutcomes(i));
      stats, writes := next.stats, next.writes;
      if dryRun {
        dryRunResults := Some(next.summaries);
      }
      assert RunState(stats, Results(dryRunResults), writes) == next;
      if crash.Some? {
        return;
      }
      i := i + 1;
    }
  }

  /** The summaries gathered so far: `dry_run_results`, or none outside a dry run. */
  function Results(dryRunResults: Option<seq<Summary>>): seq<Summary>
  {
    if dryRunResults.Some? then dryRunResults.value else []
  }

  // ---------------------------------------------------------------------------
  // What a run promises

  /** The bookkeeping of a run: every processed member is counted exactly once
      as without an event, without a snapshot, done (summarised or updated) or
      an error; `matched` counts the members that got past the conversion;
      a dry run sends nothing and a live run summarises nothing. */
  predicate Accounted(s: RunState, dryRun: bool)
  {
    var st := s.stats;
    var done := if dryRun then |s.summaries| else st.updated;
    && st.processed == st.noEvent + st.noSnapshot + done + st.errors
    && st.noEvent + st.noSnapshot + st.matched <= st.processed
    && done <= st.matched
    && (dryRun ==> st.updated == 0 && s.writes == [])
    && (!dryRun ==> s.summaries == [] && |s.writes| == st.matched)
  }

  /** The ways the `try` block of one member can end, and what each changes. */
  predicate TryEffect(s: RunState, profile: ProfileInfo, dryRun: bool, patch: Outcome, t: Tried)
  {
    var a := s.stats;
    var b := t.state.stats;
    var matchedOne := a.(matched := a.matched + 1);
    || t == Threw(s)
    || t == Done(s.(stats := a.(noEvent := a.noEvent + 1)))
    || t == Done(s.(stats := a.(noSnapshot := a.noSnapshot + 1)))
    || (dryRun && t.Threw? && t.state == s.(stats := matchedOne) && DisplayEmail(profile).Err?)
    || (dryRun && t.Done? && b == matchedOne && t.state.writes == s.writes
        && |t.state.summaries| == |s.summaries| + 1 && s.summaries <= t.state.summaries)
    || (!dryRun && t.Threw? && patch.Raised? && b == matchedOne && t.state.summaries == s.summaries
        && |t.state.writes| == |s.writes| + 1 && s.writes <= t.state.writes)
    || (!dryRun && t.Done? && patch.Returned? && b == matchedOne.(updated := a.updated + 1) && t.state.summaries == s.summaries
        && |t.state.writes| == |s.writes| + 1 && s.writes <= t.state.writes)
  }

  /** Every `try` block ends in one of those ways. */
  lemma TryMemberEffect(s: RunState, profile: ProfileInfo, found: Result<Option<Json>>, convert: Converter, dryRun: bool, patch: Outcome)
    ensures TryEffect(s, profile, dryRun, patch, TryMember(s, profile, found, convert, dryRun, patch))
  {
    if found.Ok? && found.value.Some? && Truthy(found.value.value) {
      ConvertedEffect(s, profile, convert(found.value.value), dryRun, patch);
    }
  }

  /** The ways the `try` block can end once the event has been converted. */
  lemma ConvertedEffect(s: RunState, profile: ProfileInfo, snapshot: Result<Option<CheckoutSnapshot>>, dryRun: bool,
                        patch: Outcome)
    ensures TryEffect(s, profile, dryRun, patch, Converted(s, profile, snapshot, dryRun, patch))
  {
    if snapshot.Ok? && snapshot.value.Some? && dryRun {
      var summary := DisplaySummary(profile, snapshot.value.value);
      assert summary.Err? ==> DisplayEmail(profile).Err?;
    }
  }

  /** A step that keeps the bookkeeping, leaves the total alone, processes at
      most one member and only adds to the summaries and the writes. */
  predicate StepAccounted(s: RunState, step: MemberStep, dryRun: bool)
  {
    && Accounted(step.state, dryRun)
    && step.state.stats.totalProfiles == s.stats.totalProfiles
    && s.stats.processed <= step.state.stats.processed <= s.stats.processed + 1
    && s.summaries <= step.state.summaries
    && s.writes <= step.state.writes
  }

  /** A step the loop goes on from processed one member, and a dry run that had
      a summary for every matched member still has. */
  predicate StepAdvances(s: RunState, step: MemberStep, dryRun: bool)
  {
    && (step.Continue? ==> step.state.stats.processed == s.stats.processed + 1)
    && (dryRun && step.Continue? && |s.summaries| == s.stats.matched ==>
          |step.state.summaries| == step.state.stats.matched)
  }

  /** A step that had updated every matched member still has. */
  predicate StepUpdates(s: RunState, step: MemberStep)
  {
    s.stats.updated == s.stats.matched ==> step.state.stats.updated == step.state.stats.matched
  }

  /** One member keeps the bookkeeping, counts the member as processed unless
      its attributes are not a dict, and only adds to the summaries and the
      writes. */
  lemma HandleMemberAccounts(s: RunState, id: Json, attrs: Json, found: Result<Option<Json>>, convert: Converter, dryRun: bool, patch: Outcome)
    requires Accounted(s, dryRun)
    ensures StepAccounted(s, HandleMember(s, id, attrs, found, convert, dryRun, patch), dryRun)
  {
    if attrs.Obj? {
      AdmittedAccounts(s, ProfileInfo(id, Lookup(attrs.fields, "email"), attrs.fields), found, convert, dryRun, patch);
    }
  }

  /** A member the loop goes on from was processed.  A dry run keeps a summary
      for every matched member (a summary fails only when `display_email`
      fails, and then the error log raises too), and a live run whose PATCH
      returns keeps every matched member updated. */
  lemma HandleMemberProgress(s: RunState, id: Json, attrs: Json, found: Result<Option<Json>>, convert: Converter, dryRun: bool, patch: Outcome)
    ensures StepAdvances(s, HandleMember(s, id, attrs, found, convert, dryRun, patch), dryRun)
    ensures !dryRun && patch.Returned? ==> StepUpdates(s, HandleMember(s, id, attrs, found, convert, dryRun, patch))
  {
    if attrs.Obj? {
      AdmittedProgress(s, ProfileInfo(id, Lookup(attrs.fields, "email"), attrs.fields), found, convert, dryRun, patch);
    }
  }

  /** A member whose attributes are a dict keeps the bookkeeping. */
  lemma AdmittedAccounts(s: RunState, profile: ProfileInfo, found: Result<Option<Json>>, convert: Converter, dryRun: bool, patch: Outcome)
    requires Accounted(s, dryRun)
    ensures StepAccounted(s, Admitted(s, profile, found, convert, dryRun, patch), dryRun)
  {
    var s1 := s.(stats := s.stats.(processed := s.stats.processed + 1));
    var t := TryMember(s1, profile, found, convert, dryRun, patch);
    assert Admitted(s, profile, found, convert, dryRun, patch) == Caught(profile, t);
    TryMemberEffect(s1, profile, found, convert, dryRun, patch);
    CaughtAccounts(s, profile, t, dryRun, patch);
  }

  /** A member whose attributes are a dict advances. */
  lemma AdmittedProgress(s: RunState, profile: ProfileInfo, found: Result<Option<Json>>, convert: Converter, dryRun: bool, patch: Outcome)
    ensures StepAdvances(s, Admitted(s, profile, found, convert, dryRun, patch), dryRun)
    ensures !dryRun && patch.Returned? ==> StepUpdates(s, Admitted(s, profile, found, convert, dryRun, patch))
  {
    var s1 := s.(stats := s.stats.(processed := s.stats.processed + 1));
    var t := TryMember(s1, profile, found, convert, dryRun, patch);
    assert Admitted(s, profile, found, convert, dryRun, patch) == Caught(profile, t);
    TryMemberEffect(s1, profile, found, convert, dryRun, patch);
    CaughtProgress(s, profile, t, dryRun, patch);
  }

  /** The `except` clause keeps the bookkeeping of a `try` block that ended in
      one of the ways above, counting the member as processed. */
  lemma CaughtAccounts(s: RunState, profile: ProfileInfo, t: Tried, dryRun: bool, patch: Outcome)
    requires Accounted(s, dryRun)
    requires TryEffect(s.(stats := s.stats.(processed := s.stats.processed + 1)), profile, dryRun, patch, t)
    ensures StepAccounted(s, Caught(profile, t), dryRun)
    ensures Caught(profile, t).state.stats.processed == s.stats.processed + 1
  {
    if t.Threw? {
      var s3 := t.state.(stats := t.state.stats.(errors := t.state.stats.errors + 1));
      assert Caught(profile, t).state == s3;
    }
  }

  /** The `except` clause after a `try` block that ended in one of the ways
      above: a dry run that goes on has summarised every matched member, and a
      live run whose PATCH returned has updated every matched member. */
  lemma CaughtProgress(s: RunState, profile: ProfileInfo, t: Tried, dryRun: bool, patch: Outcome)
    requires TryEffect(s.(stats := s.stats.(processed := s.stats.processed + 1)), profile, dryRun, patch, t)
    ensures StepAdvances(s, Caught(profile, t), dryRun)
    ensures !dryRun && patch.Returned? ==> StepUpdates(s, Caught(profile, t))
  {
    if t.Threw? {
      var s3 := t.state.(stats := t.state.stats.(errors := t.state.stats.errors + 1));
      assert Caught(profile, t).state == s3;
    }
  }

  /** Every member step of a segment keeps the bookkeeping. */
  lemma StepsAccounted(ps: Segments.Members, dryRun: bool, eventPages: nat -> seq<Outcome>, patchOutcomes: nat -> Outcome)
    requires AllPagesEnd(eventPages)
    ensures forall s: RunState, j: nat :: Accounted(s, dryRun) && j < |ps| ==>
      StepAccounted(s, Steps(ps, dryRun, eventPages, patchOutcomes)(s, j), dryRun)
  {
    forall s: RunState, j: nat | Accounted(s, dryRun) && j < |ps|
      ensures StepAccounted(s, Steps(ps, dryRun, eventPages, patchOutcomes)(s, j), dryRun)
    {
      HandleMemberAccounts(s, ps[j].0, ps[j].1, Events.FindFirstMatch(eventPages(j), 0).result, EventToSnapshot, dryRun, patchOutcomes(j));
    }
  }

  /** Every member step of a segment advances, and keeps every matched member
      updated when its PATCH returns. */
  lemma StepsAdvance(ps: Segments.Members, dryRun: bool, eventPages: nat -> seq<Outcome>, patchOutcomes: nat -> Outcome)
    requires AllPagesEnd(eventPages)
    ensures forall s: RunState, j: nat :: j < |ps| ==>
      StepAdvances(s, Steps(ps, dryRun, eventPages, patchOutcomes)(s, j), dryRun)
    ensures forall s: RunState, j: nat :: j < |ps| && !dryRun && patchOutcomes(j).Returned? ==>
      StepUpdates(s, Steps(ps, dryRun, eventPages, patchOutcomes)(s, j))
  {
    forall s: RunState, j: nat | j < |ps|
      ensures StepAdvances(s, Steps(ps, dryRun, eventPages, patchOutcomes)(s, j), dryRun)
      ensures !dryRun && patchOutcomes(j).Returned? ==> StepUpdates(s, Steps(ps, dryRun, eventPages, patchOutcomes)(s, j))
    {
      HandleMemberProgress(s, ps[j].0, ps[j].1, Events.FindFirstMatch(eventPages(j), 0).result, EventToSnapshot, dryRun, patchOutcomes(j));
    }
  }

  /** The member loop keeps the bookkeeping, leaves the total alone, processes
      at most every member and only adds to the summaries and the writes,
      whenever every step does. */
  lemma {:induction false} LoopAccounts(n: nat, i: nat, s: RunState, shouldStop: nat -> bool,
                                        step: (RunState, nat) -> MemberStep, dryRun: bool)
    requires i <= n && s.stats.processed <= i && Accounted(s, dryRun)
    requires forall st: RunState, j: nat :: Accounted(st, dryRun) && j < n ==> StepAccounted(st, step(st, j), dryRun)
    ensures var f := Loop(n, i, s, shouldStop, step);
      && Accounted(f.state, dryRun)
      && f.state.stats.totalProfiles == s.stats.totalProfiles
      && s.stats.processed <= f.state.stats.processed <= n
      && s.summaries <= f.state.summaries
      && s.writes <= f.state.writes
    decreases n - i
  {
    if i < n && !shouldStop(i) {
      var next := step(s, i);
      if next.Continue? {
        LoopAccounts(n, i + 1, next.state, shouldStop, step, dryRun);
      }
    }
  }

  /** When no exception escapes the member loop, it stopped at the end of the
      segment or at the first stop request, and a dry run has one summary per
      matched member, whenever every step advances. */
  lemma {:induction false} LoopStops(n: nat, i: nat, s: RunState, shouldStop: nat -> bool,
                                     step: (RunState, nat) -> MemberStep, dryRun: bool)
    requires i <= n && s.stats.processed == i
    requires dryRun ==> |s.summaries| == s.stats.matched
    requires forall st: RunState, j: nat :: j < n ==> StepAdvances(st, step(st, j), dryRun)
    ensures var f := Loop(n, i, s, shouldStop, step);
      f.crash.None? ==>
        && (f.state.stats.processed == n || shouldStop(f.state.stats.processed))
        && (forall j :: i <= j < f.state.stats.processed ==> !shouldStop(j))
        && (dryRun ==> |f.state.summaries| == f.state.stats.matched)
    decreases n - i
  {
    if i < n && !shouldStop(i) {
      var next := step(s, i);
      if next.Continue? {
        LoopStops(n, i + 1, next.state, shouldStop, step, dryRun);
      }
    }
  }

  /** The member loop keeps every matched member updated, even when a later
      exception ends it, whenever every step does. */
  lemma {:induction false} LoopAllUpdated(n: nat, i: nat, s: RunState, shouldStop: nat -> bool,
                                          step: (RunState, nat) -> MemberStep)
    requires s.stats.updated == s.stats.matched
    requires forall st: RunState, j: nat :: j < n ==> StepUpdates(st, step(st, j))
    ensures var f := Loop(n, i, s, shouldStop, step);
      f.state.stats.updated == f.state.stats.matched
    decreases n - i
  {
    if i < n && !shouldStop(i) {
      var next := step(s, i);
      if next.Continue? {
        LoopAllUpdated(n, i + 1, next.state, shouldStop, step);
      }
    }
  }

  /** What `process_profiles` promises about its result.
      - It succeeds only with members to process and without an error message;
        it then processed every member, or stopped at the first stop request.
      - Every processed member is counted once (no event, no snapshot, done or
        error), and `updated <= matched <= processed <= total_profiles`.
      - A run that fails before the member loop reports fresh counters.
      - A dry run PATCHes nothing, and when it succeeds it returns one summary
        per matched member; a live run returns no summaries and PATCHes every
        matched member once, and when every PATCH succeeds it updated them all. */
  lemma ProcessSpec(segmentPages: seq<Outcome>, segmentId: string, limit: Option<int>, dryRun: bool,
                    shouldStop: nat -> bool, eventPages: nat -> seq<Outcome>, patchOutcomes: nat -> Outcome)
    requires PagesEnd(segmentPages) && AllPagesEnd(eventPages)
    ensures var run := Process(segmentPages, segmentId, limit, dryRun, shouldStop, eventPages, patchOutcomes);
      var r := run.result;
      var st := r.stats;
      && (r.success <==> r.errorMessage.None?)
      && (r.success ==>
            && st.totalProfiles > 0
            && (st.processed == st.totalProfiles || shouldStop(st.processed))
            && (forall j :: 0 <= j < st.processed ==> !shouldStop(j)))
      && (st.totalProfiles == 0 ==> st == FreshStats && !r.success && run.writes == [])
      && st.processed <= st.totalProfiles
      && st.processed == st.noEvent + st.noSnapshot + (if dryRun then |Results(r.dryRunResults)| else st.updated) + st.errors
      && st.noEvent + st.noSnapshot + st.matched <= st.processed
      && st.updated <= st.matched
      && (r.dryRunResults.Some? ==> dryRun)
      && (dryRun ==> run.writes == [] && st.updated == 0)
      && (dryRun && r.success ==> r.dryRunResults.Some? && |r.dryRunResults.value| == st.matched)
      && (!dryRun ==> |run.writes| == st.matched)
      && ((forall j: nat :: patchOutcomes(j).Returned?) && !dryRun ==> st.updated == st.matched)
  {
    var seg := Segments.SegmentRun(segmentPages, 0, [], limit).result;
    if seg.Ok? && seg.value != [] {
      var ps := seg.value;
      var start := RunState(FreshStats.(totalProfiles := |ps|), [], []);
      var step := Steps(ps, dryRun, eventPages, patchOutcomes);
      StepsAccounted(ps, dryRun, eventPages, patchOutcomes);
      StepsAdvance(ps, dryRun, eventPages, patchOutcomes);
      LoopAccounts(|ps|, 0, start, shouldStop, step, dryRun);
      LoopStops(|ps|, 0, start, shouldStop, step, dryRun);
      if !dryRun && forall j: nat :: patchOutcomes(j).Returned? {
        LoopAllUpdated(|ps|, 0, start, shouldStop, step);
      }
    }
  }

  /** A segment with no members ends the run at once: no success, the message
      naming the segment, nothing counted and nothing sent. */
  lemma EmptySegment(segmentPages: seq<Outcome>, segmentId: string, limit: Option<int>, dryRun: bool,
                     shouldStop: nat -> bool, eventPages: nat -> seq<Outcome>, patchOutcomes: nat -> Outcome)
    requires PagesEnd(segmentPages) && AllPagesEnd(eventPages)
    requires Segments.SegmentRun(segmentPages, 0, [], limit).result == Ok([])
    ensures Process(segmentPages, segmentId, limit, dryRun, shouldStop, eventPages, patchOutcomes)
      == Run(SyncResult(false, FreshStats, Some(NoProfilesFound(segmentId)), None), [])
  {
  }

  /** A stop request before the first member: the run succeeds having
      processed nothing, with the total still reported. */
  lemma StopBeforeFirst(segmentPages: seq<Outcome>, segmentId: string, limit: Option<int>, dryRun: bool,
                        shouldStop: nat -> bool, eventPages: nat -> seq<Outcome>, patchOutcomes: nat -> Outcome)
    requires PagesEnd(segmentPages) && AllPagesEnd(eventPages)
    requires Segments.SegmentRun(segmentPages, 0, [], limit).result.Ok?
    requires Segments.SegmentRun(segmentPages, 0, [], limit).result.value != []
    requires shouldStop(0)
    ensures var run := Process(segmentPages, segmentId, limit, dryRun, shouldStop, eventPages, patchOutcomes);
      && run.result.success
      && run.result.stats == FreshStats.(totalProfiles := |Segments.SegmentRun(segmentPages, 0, [], limit).result.value|)
      && run.writes == []
      && run.result.dryRunResults == if dryRun then Some([]) else None
  {
  }

  // ---------------------------------------------------------------------------
  // Which member ends a run, and how

  /** The per-member `try` block raises: `find_matching_event` raises, the
      conversion raises, or the summary (dry run) or the PATCH (live run)
      raises. */
  predicate TryRaises(profile: ProfileInfo, found: Result<Option<Json>>, convert: Converter, dryRun: bool, patch: Outcome)
  {
    || found.Err?
    || (found.Ok? && found.value.Some? && Truthy(found.value.value) &&
        var snapshot := convert(found.value.value);
        || snapshot.Err?
        || (snapshot.Ok? && snapshot.value.Some? &&
            if dryRun then DisplaySummary(profile, snapshot.value.value).Err? else patch.Raised?))
  }

  /** A member lets an exception out of the loop: its attributes are not a dict,
      so building `ProfileInfo` raises, or its `try` block raises and the error
      log's `display_email` raises as well. */
  predicate Escapes(id: Json, attrs: Json, found: Result<Option<Json>>, convert: Converter, dryRun: bool, patch: Outcome)
  {
    || !attrs.Obj?
    || (var profile := ProfileInfo(id, Lookup(attrs.fields, "email"), attrs.fields);
        TryRaises(profile, found, convert, dryRun, patch) && DisplayEmail(profile).Err?)
  }

  /** Member `j` of the segment lets an exception out of the loop. */
  predicate MemberEscapes(ps: Segments.Members, j: nat, dryRun: bool, eventPages: nat -> seq<Outcome>, patchOutcomes: nat -> Outcome)
    requires j < |ps| && PagesEnd(eventPages(j))
  {
    Escapes(ps[j].0, ps[j].1, Events.FindFirstMatch(eventPages(j), 0).result, EventToSnapshot, dryRun, patchOutcomes(j))
  }

  /** The `try` block raises exactly when `TryRaises` says, whatever the run
      has counted so far. */
  lemma TryMemberThrows(s: RunState, profile: ProfileInfo, found: Result<Option<Json>>, convert: Converter, dryRun: bool, patch: Outcome)
    ensures TryMember(s, profile, found, convert, dryRun, patch).Threw? <==> TryRaises(profile, found, convert, dryRun, patch)
  {
    if found.Ok? && found.value.Some? && Truthy(found.value.value) {
      var snapshot := convert(found.value.value);
      assert TryMember(s, profile, found, convert, dryRun, patch) == Converted(s, profile, snapshot, dryRun, patch);
    }
  }

  /** An iteration lets an exception out exactly when the member escapes, and
      that exception is always the AttributeError of `.get` on a non-dict; an
      iteration the loop goes on from has counted its member as processed. */
  lemma HandleMemberEscapes(s: RunState, id: Json, attrs: Json, found: Result<Option<Json>>, convert: Converter, dryRun: bool, patch: Outcome)
    ensures var step := HandleMember(s, id, attrs, found, convert, dryRun, patch);
      && (step.Abort? <==> Escapes(id, attrs, found, convert, dryRun, patch))
      && (step.Abort? ==> step.failure == AttributeError)
      && (step.Continue? ==> step.state.stats.processed == s.stats.processed + 1)
  {
    if attrs.Obj? {
      var profile := ProfileInfo(id, Lookup(attrs.fields, "email"), attrs.fields);
      var s1 := s.(stats := s.stats.(processed := s.stats.processed + 1));
      TryMemberThrows(s1, profile, found, convert, dryRun, patch);
      TryMemberEffect(s1, profile, found, convert, dryRun, patch);
    }
  }

  /** The `except` clause: a member whose `try` block raises, and whose
      `display_email` can be read for the error log, counts one error and the
      loop goes on.  An exception from `find_matching_event` changes nothing
      else. */
  lemma MemberErrorCounted(s: RunState, id: Json, a: Dict, found: Result<Option<Json>>, convert: Converter, dryRun: bool, patch: Outcome)
    requires TryRaises(ProfileInfo(id, Lookup(a, "email"), a), found, convert, dryRun, patch)
    requires DisplayEmail(ProfileInfo(id, Lookup(a, "email"), a)).Ok?
    ensures var step := HandleMember(s, id, Obj(a), found, convert, dryRun, patch);
      && step.Continue?
      && step.state.stats.processed == s.stats.processed + 1
      && step.state.stats.errors == s.stats.errors + 1
      && (found.Err? ==> step.state == s.(stats := s.stats.(processed := s.stats.processed + 1, errors := s.stats.errors + 1)))
  {
    var profile := ProfileInfo(id, Lookup(a, "email"), a);
    var s1 := s.(stats := s.stats.(processed := s.stats.processed + 1));
    TryMemberThrows(s1, profile, found, convert, dryRun, patch);
    TryMemberEffect(s1, profile, found, convert, dryRun, patch);
  }

  /** A member whose `try` block does not raise is not counted as an error. */
  lemma MemberWithoutError(s: RunState, id: Json, a: Dict, found: Result<Option<Json>>, convert: Converter, dryRun: bool, patch: Outcome)
    requires !TryRaises(ProfileInfo(id, Lookup(a, "email"), a), found, convert, dryRun, patch)
    ensures var step := HandleMember(s, id, Obj(a), found, convert, dryRun, patch);
      && step.Continue?
      && step.state.stats.processed == s.stats.processed + 1
      && step.state.stats.errors == s.stats.errors
  {
    var profile := ProfileInfo(id, Lookup(a, "email"), a);
    var s1 := s.(stats := s.stats.(processed := s.stats.processed + 1));
    TryMemberThrows(s1, profile, found, convert, dryRun, patch);
    TryMemberEffect(s1, profile, found, convert, dryRun, patch);
  }

  /** The steps of a segment escape exactly as `MemberEscapes` says, with an
      AttributeError, and count their member when the loop goes on. */
  lemma StepsEscape(ps: Segments.Members, dryRun: bool, eventPages: nat -> seq<Outcome>, patchOutcomes: nat -> Outcome)
    requires AllPagesEnd(eventPages)
    ensures forall st: RunState, j: nat :: j < |ps| ==>
      var step := Steps(ps, dryRun, eventPages, patchOutcomes)(st, j);
      && (step.Abort? <==> MemberEscapes(ps, j, dryRun, eventPages, patchOutcomes))
      && (step.Abort? ==> step.failure == AttributeError)
      && (step.Continue? ==> step.state.stats.processed == st.stats.processed + 1)
  {
    forall st: RunState, j: nat | j < |ps|
      ensures var step := Steps(ps, dryRun, eventPages, patchOutcomes)(st, j);
        && (step.Abort? <==> MemberEscapes(ps, j, dryRun, eventPages, patchOutcomes))
        && (step.Abort? ==> step.failure == AttributeError)
        && (step.Continue? ==> step.state.stats.processed == st.stats.processed + 1)
    {
      HandleMemberEscapes(st, ps[j].0, ps[j].1, Events.FindFirstMatch(eventPages(j), 0).result, EventToSnapshot, dryRun, patchOutcomes(j));
    }
  }

  /** The loop runs through members `i .. k - 1` and ends cleanly at member `k`
      when none of them escapes or asks to stop, and `k` is the end of the
      segment or asks to stop. */
  lemma {:induction false} LoopReaches(n: nat, i: nat, s: RunState, shouldStop: nat -> bool,
                                       step: (RunState, nat) -> MemberStep, k: nat)
    requires i <= k <= n && s.stats.processed == i
    requires k < n ==> shouldStop(k)
    requires forall j :: i <= j < k ==> !shouldStop(j)
    requires forall st: RunState, j: nat :: i <= j < k ==>
      step(st, j).Continue? && step(st, j).state.stats.processed == st.stats.processed + 1
    ensures var f := Loop(n, i, s, shouldStop, step);
      f.crash.None? && f.state.stats.processed == k
    decreases n - i
  {
    if i < k {
      var next := step(s, i);
      LoopReaches(n, i + 1, next.state, shouldStop, step, k);
    }
  }

  /** The loop ends with the exception of member `k` when the members before it
      neither escape nor ask to stop, and `k` does not ask to stop but escapes. */
  lemma {:induction false} LoopCrashes(n: nat, i: nat, s: RunState, shouldStop: nat -> bool,
                                       step: (RunState, nat) -> MemberStep, k: nat, f: Failure)
    requires i <= k < n
    requires forall j :: i <= j <= k ==> !shouldStop(j)
    requires forall st: RunState, j: nat :: i <= j < k ==> step(st, j).Continue?
    requires forall st: RunState :: step(st, k).Abort? && step(st, k).failure == f
    ensures Loop(n, i, s, shouldStop, step).crash == Some(f)
    decreases n - i
  {
    if i < k {
      LoopCrashes(n, i + 1, step(s, i).state, shouldStop, step, k, f);
    } else {
      assert step(s, k).Abort?;
    }
  }

  /** A run whose members before `k` neither escape nor ask to stop, and that
      reaches the end of the segment or a stop request at `k`, succeeds having
      processed exactly `k` members. */
  lemma ProcessStopsAt(segmentPages: seq<Outcome>, segmentId: string, limit: Option<int>, dryRun: bool,
                       shouldStop: nat -> bool, eventPages: nat -> seq<Outcome>, patchOutcomes: nat -> Outcome, k: nat)
    requires PagesEnd(segmentPages) && AllPagesEnd(eventPages)
    requires Segments.SegmentRun(segmentPages, 0, [], limit).result.Ok?
    requires Segments.SegmentRun(segmentPages, 0, [], limit).result.value != []
    requires k <= |Segments.SegmentRun(segmentPages, 0, [], limit).result.value|
    requires k < |Segments.SegmentRun(segmentPages, 0, [], limit).result.value| ==> shouldStop(k)
    requires forall j :: 0 <= j < k ==>
      (!shouldStop(j) &&
       !MemberEscapes(Segments.SegmentRun(segmentPages, 0, [], limit).result.value, j, dryRun, eventPages, patchOutcomes))
    ensures var r := Process(segmentPages, segmentId, limit, dryRun, shouldStop, eventPages, patchOutcomes).result;
      && r.success && r.errorMessage.None?
      && r.stats.processed == k
      && r.stats.totalProfiles == |Segments.SegmentRun(segmentPages, 0, [], limit).result.value|
  {
    var ps := Segments.SegmentRun(segmentPages, 0, [], limit).result.value;
    var start := RunState(FreshStats.(totalProfiles := |ps|), [], []);
    var step := Steps(ps, dryRun, eventPages, patchOutcomes);
    StepsEscape(ps, dryRun, eventPages, patchOutcomes);
    StepsAccounted(ps, dryRun, eventPages, patchOutcomes);
    LoopAccounts(|ps|, 0, start, shouldStop, step, dryRun);
    LoopReaches(|ps|, 0, start, shouldStop, step, k);
  }

  /** A run whose members before `k` neither escape nor ask to stop, and whose
      member `k` does not ask to stop but escapes, fails with the text of that
      member's AttributeError. */
  lemma ProcessCrashesAt(segmentPages: seq<Outcome>, segmentId: string, limit: Option<int>, dryRun: bool,
                         shouldStop: nat -> bool, eventPages: nat -> seq<Outcome>, patchOutcomes: nat -> Outcome, k: nat)
    requires PagesEnd(segmentPages) && AllPagesEnd(eventPages)
    requires Segments.SegmentRun(segmentPages, 0, [], limit).result.Ok?
    requires k < |Segments.SegmentRun(segmentPages, 0, [], limit).result.value|
    requires forall j :: 0 <= j < k ==>
      (!shouldStop(j) &&
       !MemberEscapes(Segments.SegmentRun(segmentPages, 0, [], limit).result.value, j, dryRun, eventPages, patchOutcomes))
    requires !shouldStop(k) && MemberEscapes(Segments.SegmentRun(segmentPages, 0, [], limit).result.value, k, dryRun, eventPages, patchOutcomes)
    ensures var r := Process(segmentPages, segmentId, limit, dryRun, shouldStop, eventPages, patchOutcomes).result;
      !r.success && r.errorMessage == Some(ExceptionText(AttributeError))
  {
    var ps := Segments.SegmentRun(segmentPages, 0, [], limit).result.value;
    var start := RunState(FreshStats.(totalProfiles := |ps|), [], []);
    var step := Steps(ps, dryRun, eventPages, patchOutcomes);
    StepsEscape(ps, dryRun, eventPages, patchOutcomes);
    LoopCrashes(|ps|, 0, start, shouldStop, step, k, AttributeError);
  }

  /** A segment read that raises fails the run with the text of its exception,
      fresh counters and nothing sent. */
  lemma SegmentReadFails(segmentPages: seq<Outcome>, segmentId: string, limit: Option<int>, dryRun: bool,
                         shouldStop: nat -> bool, eventPages: nat -> seq<Outcome>, patchOutcomes: nat -> Outcome)
    requires PagesEnd(segmentPages) && AllPagesEnd(eventPages)
    requires Segments.SegmentRun(segmentPages, 0, [], limit).result.Err?
    ensures var run := Process(segmentPages, segmentId, limit, dryRun, shouldStop, eventPages, patchOutcomes);
      && !run.result.success
      && run.result.errorMessage == Some(ExceptionText(Segments.SegmentRun(segmentPages, 0, [], limit).result.error))
      && run.result.stats == FreshStats
      && run.result.dryRunResults == (if dryRun then Some([]) else None)
      && run.writes == []
  {
  }
}
