/** The records of the sync tool: line items, checkout snapshots, profiles,
    processing statistics and the result of a run, with their dict forms. */
module Models {
  import opened Json

  /** One product line of a checkout. */
  datatype LineItem = LineItem(
    productId: Json,
    variantId: Json,
    title: Json,
    imageUrl: Json,
    quantity: int,
    linePrice: real)

  /** `LineItem.to_dict`. */
  function LineItemToDict(li: LineItem): (r: Json)
    ensures r.Obj? && Keys(r.fields) == ["product_id", "variant_id", "title", "image_url", "quantity", "line_price"]
  {
    Obj([("product_id", li.productId),
         ("variant_id", li.variantId),
         ("title", li.title),
         ("image_url", li.imageUrl),
         ("quantity", Int(li.quantity)),
         ("line_price", Float(li.linePrice))])
  }

  /** Reads a line item back from its dict form; the inverse of `LineItemToDict`. */
  function LineItemFromDict(j: Json): Option<LineItem>
  {
    match j
    case Obj(d) =>
      var q := Lookup(d, "quantity");
      var p := Lookup(d, "line_price");
      if q.Int? && p.Float? then
        Some(LineItem(Lookup(d, "product_id"), Lookup(d, "variant_id"), Lookup(d, "title"),
                      Lookup(d, "image_url"), q.i, p.r))
      else None
    case _ => None
  }

  /** `to_dict` keeps every field of a line item unchanged. */
  lemma LineItemRoundTrip(li: LineItem)
    ensures LineItemFromDict(LineItemToDict(li)) == Some(li)
  {
    var d := LineItemToDict(li).fields;
    LookupAt(d, "product_id", 0, Null);
    LookupAt(d, "variant_id", 1, Null);
    LookupAt(d, "title", 2, Null);
    LookupAt(d, "image_url", 3, Null);
    LookupAt(d, "quantity", 4, Null);
    LookupAt(d, "line_price", 5, Null);
  }

  /** The normalised summary of one checkout event. */
  datatype CheckoutSnapshot = CheckoutSnapshot(
    checkoutUrl: Json,
    currency: Json,
    updatedAt: Json,
    items: seq<LineItem>)

  /** `[item.to_dict() for item in items]`. */
  function ItemsToDicts(items: seq<LineItem>): (r: seq<Json>)
    ensures |r| == |items|
    ensures forall i :: 0 <= i < |items| ==> r[i] == LineItemToDict(items[i])
  {
    seq(|items|, i requires 0 <= i < |items| => LineItemToDict(items[i]))
  }

  /** `CheckoutSnapshot.to_dict`. */
  function SnapshotToDict(s: CheckoutSnapshot): (r: Json)
    ensures r.Obj? && Keys(r.fields) == ["checkout_url", "currency", "updated_at", "items"]
  {
    Obj([("checkout_url", s.checkoutUrl),
         ("currency", s.currency),
         ("updated_at", s.updatedAt),
         ("items", Arr(ItemsToDicts(s.items)))])
  }

  function ItemsFromDicts(js: seq<Json>): Option<seq<LineItem>>
  {
    if js == [] then Some([])
    else match (LineItemFromDict(js[0]), ItemsFromDicts(js[1..]))
      case (Some(li), Some(rest)) => Some([li] + rest)
      case _ => None
  }

  /** Reads a snapshot back from its dict form; the inverse of `SnapshotToDict`. */
  function SnapshotFromDict(j: Json): Option<CheckoutSnapshot>
  {
    match j
    case Obj(d) =>
      var items := Lookup(d, "items");
      if items.Arr? then
        match ItemsFromDicts(items.elems)
        case Some(lis) =>
          Some(CheckoutSnapshot(Lookup(d, "checkout_url"), Lookup(d, "currency"), Lookup(d, "updated_at"), lis))
        case None => None
      else None
    case _ => None
  }

  lemma {:induction false} ItemsRoundTrip(items: seq<LineItem>)
    ensures ItemsFromDicts(ItemsToDicts(items)) == Some(items)
  {
    if items != [] {
      ItemsRoundTrip(items[1..]);
      assert ItemsToDicts(items)[1..] == ItemsToDicts(items[1..]);
      LineItemRoundTrip(items[0]);
      assert [items[0]] + items[1..] == items;
    }
  }

  /** Each of the four keys of `to_dict` holds the field of its name. */
  lemma SnapshotDictLookups(s: CheckoutSnapshot)
    ensures var d := SnapshotToDict(s).fields;
      && Lookup(d, "checkout_url") == s.checkoutUrl
      && Lookup(d, "currency") == s.currency
      && Lookup(d, "updated_at") == s.updatedAt
      && Lookup(d, "items") == Arr(ItemsToDicts(s.items))
  {
    var d := SnapshotToDict(s).fields;
    LookupDistinct(d, 0, Null);
    LookupDistinct(d, 1, Null);
    LookupDistinct(d, 2, Null);
    LookupDistinct(d, 3, Null);
  }

  /** `to_dict` maps the items element-wise, in order, and copies the other three
      fields: reading the dict back gives the same snapshot. */
  lemma SnapshotRoundTrip(s: CheckoutSnapshot)
    ensures SnapshotFromDict(SnapshotToDict(s)) == Some(s)
  {
    SnapshotDictLookups(s);
    ItemsRoundTrip(s.items);
  }

  /** A segment member: its id, the `email` attribute and all attributes. */
  datatype ProfileInfo = ProfileInfo(profileId: Json, email: Json, attributes: Dict)

  /** `ProfileInfo.display_email`: the email when truthy, else
      `attributes.get("properties", {}).get("$email", "no-email")`, which raises
      when `properties` is present but not a dict. */
  function DisplayEmail(p: ProfileInfo): (r: Result<Json>)
    ensures Truthy(p.email) ==> r == Ok(p.email)
    ensures !Truthy(p.email) ==> match LookupOr(p.attributes, "properties", EmptyObject)
      case Obj(props) => r == Ok(LookupOr(props, "$email", Str("no-email")))
      case _ => r == Err(AttributeError)
  {
    if Truthy(p.email) then Ok(p.email)
    else
      var props :- AsDict(LookupOr(p.attributes, "properties", EmptyObject));
      Ok(LookupOr(props, "$email", Str("no-email")))
  }

  /** The counters of one run. */
  datatype ProcessingStats = ProcessingStats(
    totalProfiles: nat,
    processed: nat,
    matched: nat,
    updated: nat,
    noEvent: nat,
    noSnapshot: nat,
    errors: nat)

  /** `ProcessingStats()`: every counter starts at 0. */
  const FreshStats := ProcessingStats(0, 0, 0, 0, 0, 0, 0)

  /** `progress_percentage`. */
  function ProgressPercentage(s: ProcessingStats): (p: real)
    ensures s.totalProfiles == 0 ==> p == 0.0
    ensures s.totalProfiles > 0 ==> p * s.totalProfiles as real == s.processed as real * 100.0
  {
    if s.totalProfiles == 0 then 0.0
    else (s.processed as real / s.totalProfiles as real) * 100.0
  }

  /** While the processed count stays within the total, progress lies in [0, 100]. */
  lemma ProgressBounds(s: ProcessingStats)
    requires s.processed <= s.totalProfiles
    ensures 0.0 <= ProgressPercentage(s) <= 100.0
  {
    if s.totalProfiles > 0 {
      var t := s.totalProfiles as real;
      var p := s.processed as real;
      assert p / t <= t / t;
    }
  }

  /** `ProcessingStats.to_dict`. */
  function StatsToDict(s: ProcessingStats): (r: Json)
    ensures r.Obj? && Keys(r.fields) == ["total_profiles", "processed", "matched", "updated",
                                          "no_event", "no_snapshot", "errors", "progress_percentage"]
  {
    Obj([("total_profiles", Int(s.totalProfiles)),
         ("processed", Int(s.processed)),
         ("matched", Int(s.matched)),
         ("updated", Int(s.updated)),
         ("no_event", Int(s.noEvent)),
         ("no_snapshot", Int(s.noSnapshot)),
         ("errors", Int(s.errors)),
         ("progress_percentage", Float(ProgressPercentage(s)))])
  }

  /** Reads the counters back from the stats dict; the inverse of `StatsToDict`. */
  function StatsFromDict(j: Json): Option<ProcessingStats>
  {
    match j
    case Obj(d) =>
      var c := [Lookup(d, "total_profiles"), Lookup(d, "processed"), Lookup(d, "matched"),
                Lookup(d, "updated"), Lookup(d, "no_event"), Lookup(d, "no_snapshot"), Lookup(d, "errors")];
      if forall k :: 0 <= k < |c| ==> c[k].Int? && c[k].i >= 0 then
        Some(ProcessingStats(c[0].i, c[1].i, c[2].i, c[3].i, c[4].i, c[5].i, c[6].i))
      else None
    case _ => None
  }

  /** Each counter key of the stats dict holds the counter of its name. */
  lemma StatsCounterLookups(s: ProcessingStats)
    ensures var d := StatsToDict(s).fields;
      && Lookup(d, "total_profiles") == Int(s.totalProfiles)
      && Lookup(d, "processed") == Int(s.processed)
      && Lookup(d, "matched") == Int(s.matched)
      && Lookup(d, "updated") == Int(s.updated)
      && Lookup(d, "no_event") == Int(s.noEvent)
      && Lookup(d, "no_snapshot") == Int(s.noSnapshot)
      && Lookup(d, "errors") == Int(s.errors)
  {
    var d := StatsToDict(s).fields;
    LookupAt(d, "total_profiles", 0, Null);
    LookupAt(d, "processed", 1, Null);
    LookupAt(d, "matched", 2, Null);
    LookupAt(d, "updated", 3, Null);
    LookupAt(d, "no_event", 4, Null);
    LookupAt(d, "no_snapshot", 5, Null);
    LookupAt(d, "errors", 6, Null);
  }

  /** Each key of the stats dict holds the counter of its name, and
      `progress_percentage` the percentage: reading the counters back gives the
      same stats. */
  lemma StatsRoundTrip(s: ProcessingStats)
    ensures StatsFromDict(StatsToDict(s)) == Some(s)
    ensures Lookup(StatsToDict(s).fields, "progress_percentage") == Float(ProgressPercentage(s))
  {
    StatsCounterLookups(s);
    LookupAt(StatsToDict(s).fields, "progress_percentage", 7, Null);
  }

  /** One line of a human-readable snapshot summary, before formatting. */
  datatype SummaryLine =
    | ProfileLine(profileId: Json, email: Json)
    | CheckoutUrlLine(url: Json)
    | CurrencyLine(currency: Json, updatedAt: Json)
    | ItemsHeaderLine(count: nat)
    | ItemLine(index: nat, title: Json, quantity: Json, price: Json)
    | ImageLine(imageUrl: Json)

  type Summary = seq<SummaryLine>

  /** Why a run failed: no segment members, or the text of an exception. */
  datatype ErrorMessage = NoProfilesFound(segmentId: string) | ExceptionText(failure: Failure)

  /** The outcome of `process_profiles`. */
  datatype SyncResult = SyncResult(
    success: bool,
    stats: ProcessingStats,
    errorMessage: Option<ErrorMessage>,
    dryRunResults: Option<seq<Summary>>)

  /** `SyncResult(success, stats)`: the error message and dry-run results default
      to None. */
  function NewSyncResult(success: bool, stats: ProcessingStats): (r: SyncResult)
    ensures r.success == success && r.stats == stats
    ensures r.errorMessage == None && r.dryRunResults == None
  {
    SyncResult(success, stats, None, None)
  }

  /** `SyncResult.to_dict`; the text of the message and of each summary comes from
      the given renderers. */
  function SyncResultToDict(r: SyncResult, message: ErrorMessage -> string, render: Summary -> string): (j: Json)
    ensures j.Obj? && Keys(j.fields) == ["success", "stats", "error_message", "dry_run_results"]
    ensures Lookup(j.fields, "stats") == StatsToDict(r.stats)
    ensures Lookup(j.fields, "success") == Bool(r.success)
    ensures Lookup(j.fields, "error_message") == (if r.errorMessage.Some? then Str(message(r.errorMessage.value)) else Null)
    ensures Lookup(j.fields, "dry_run_results") == Null <==> r.dryRunResults.None?
    ensures r.dryRunResults.Some? ==>
      var rs := r.dryRunResults.value;
      var v := Lookup(j.fields, "dry_run_results");
      v.Arr? && |v.elems| == |rs| && forall i :: 0 <= i < |rs| ==> v.elems[i] == Str(render(rs[i]))
  {
    var d := [("success", Bool(r.success)),
         ("stats", StatsToDict(r.stats)),
         ("error_message", match r.errorMessage
            case Some(m) => Str(message(m))
            case None => Null),
         ("dry_run_results", match r.dryRunResults
            case Some(rs) => Arr(seq(|rs|, i requires 0 <= i < |rs| => Str(render(rs[i]))))
            case None => Null)];
    LookupDistinct(d, 0, Null);
    LookupDistinct(d, 1, Null);
    LookupDistinct(d, 2, Null);
    LookupDistinct(d, 3, Null);
    Obj(d)
  }
}
