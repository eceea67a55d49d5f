/** `get_segment_profiles`: the members of a segment, keyed by profile id in the
    order they were first seen, read page by page until the optional limit is
    reached or the pages run out.  The GUI client and the CLI script share this
    logic line for line. */
module Segments {
  import opened Json
  import opened Http
  import opened Paging

  /** The `{profile_id: attributes}` dict, in insertion order. */
  type Members = seq<(Json, Json)>

  predicate DistinctIds(ps: Members)
  {
    forall i, j :: 0 <= i < j < |ps| ==> ps[i].0 != ps[j].0
  }

  /** `profiles[id] = attrs`: an id already present keeps its place and takes the
      new value; a new id goes to the end.  Nothing else changes. */
  function Assign(ps: Members, id: Json, attrs: Json): (r: Members)
    ensures |r| == if id in Keys(ps) then |ps| else |ps| + 1
    ensures forall i :: 0 <= i < |ps| ==> r[i].0 == ps[i].0 && r[i].1 == (if ps[i].0 == id then attrs else ps[i].1)
    ensures id !in Keys(ps) ==> r[|ps|] == (id, attrs)
    ensures id in Keys(r) && Keys(ps) <= Keys(r)
    ensures DistinctIds(ps) ==> DistinctIds(r)
  {
    var updated := seq(|ps|, i requires 0 <= i < |ps| => if ps[i].0 == id then (id, attrs) else ps[i]);
    assert Keys(updated) == Keys(ps);
    if id in Keys(ps) then updated else updated + [(id, attrs)]
  }

  /** `limit and len(profiles) >= limit`. */
  predicate LimitReached(limit: Option<int>, size: nat)
  {
    limit.Some? && limit.value != 0 && size >= limit.value
  }

  /** A row the loop records: a dict of type `profile` with this id. */
  predicate IsProfileRow(row: Json, id: Json)
  {
    row.Obj? && Lookup(row.fields, "type") == Str("profile") && Lookup(row.fields, "id") == id
  }

  /** `row.get("attributes") or {}`. */
  function RowAttributes(row: Json): Json
    requires row.Obj?
  {
    Or(Lookup(row.fields, "attributes"), EmptyObject)
  }

  /** What the loop makes of rows it reads without an exception and without
      stopping: `profiles[id] = attributes` for each `profile` row, in order. */
  function AssignRows(ps: Members, rows: seq<Json>): Members
    decreases |rows|
  {
    if rows == [] then ps
    else if rows[0].Obj? && Lookup(rows[0].fields, "type") == Str("profile") then
      AssignRows(Assign(ps, Lookup(rows[0].fields, "id"), RowAttributes(rows[0])), rows[1..])
    else AssignRows(ps, rows[1..])
  }

  /** The last `profile` row with this id among `rows` records `attrs`. */
  predicate LastProfileRow(rows: seq<Json>, id: Json, attrs: Json)
  {
    exists j {:trigger IsProfileRow(rows[j], id)} ::
      && 0 <= j < |rows|
      && IsProfileRow(rows[j], id)
      && RowAttributes(rows[j]) == attrs
      && forall j' {:trigger IsProfileRow(rows[j'], id)} :: j < j' < |rows| ==> !IsProfileRow(rows[j'], id)
  }

  datatype Collected = Reached(members: Members) | Exhausted(members: Members)

  /** The loop over one page's rows: keep the `profile` rows, stop as soon as the
      limit is reached.  A row that is not a dict raises AttributeError, an
      unhashable id TypeError. */
  function CollectRows(ps: Members, rows: seq<Json>, limit: Option<int>): Result<Collected>
    decreases |rows|
  {
    if rows == [] then Ok(Exhausted(ps))
    else
      var row :- AsDict(rows[0]);
      if Lookup(row, "type") == Str("profile") then
        var id := Lookup(row, "id");
        if !Hashable(id) then Err(TypeError)
        else
          var ps' := Assign(ps, id, Or(Lookup(row, "attributes"), EmptyObject));
          if LimitReached(limit, |ps'|) then Ok(Reached(ps'))
          else CollectRows(ps', rows[1..], limit)
      else CollectRows(ps, rows[1..], limit)
  }

  datatype PageStep = AtLimit(members: Members) | NextPage(members: Members) | LastPage(members: Members)

  /** One iteration of the `while True` loop on a page body. */
  function SegmentPage(ps: Members, body: Json, limit: Option<int>): (r: Result<PageStep>)
    ensures r.Ok? && r.value.NextPage? ==> Truthy(NextLink(Returned(body)))
    ensures r.Ok? && r.value.LastPage? ==> !Truthy(NextLink(Returned(body)))
  {
    var data :- AsDict(body);
    var rows :- Iterate(LookupOr(data, "data", Arr([])));
    var collected :- CollectRows(ps, rows, limit);
    match collected
    case Reached(out) => Ok(AtLimit(out))
    case Exhausted(out) =>
      var links :- AsDict(LookupOr(data, "links", EmptyObject));
      if Truthy(Lookup(links, "next")) then Ok(NextPage(out)) else Ok(LastPage(out))
  }

  /** The read from page `k` on, with `ps` collected so far. */
  function SegmentRun(pages: seq<Outcome>, k: nat, ps: Members, limit: Option<int>): Paged<Members>
    requires k < |pages| && PagesEnd(pages)
    decreases |pages| - k
  {
    match pages[k]
    case Raised(f) => Paged(Err(f), k + 1)
    case Returned(body) =>
      match SegmentPage(ps, body, limit)
      case Err(f) => Paged(Err(f), k + 1)
      case Ok(AtLimit(out)) => Paged(Ok(out), k + 1)
      case Ok(LastPage(out)) => Paged(Ok(out), k + 1)
      case Ok(NextPage(out)) =>
        if k + 1 < |pages| then SegmentRun(pages, k + 1, out, limit)
        else assert false; Paged(Ok(out), k)
  }

  /** `get_segment_profiles(segment_id, limit)`, where `pages[k]` is what the k-th
      `_get` of the read returns or raises. */
  method GetSegmentProfiles(pages: seq<Outcome>, limit: Option<int>) returns (r: Result<Members>, fetched: nat)
    requires PagesEnd(pages)
    ensures Paged(r, fetched) == SegmentRun(pages, 0, [], limit)
  {
    var profiles: Members := [];
    var k: nat := 0;
    while true
      invariant k < |pages|
      invariant SegmentRun(pages, 0, [], limit) == SegmentRun(pages, k, profiles, limit)
      decreases |pages| - k
    {
      fetched := k + 1;
      if pages[k].Raised? {
        return Err(pages[k].failure), fetched;
      }
      var body := pages[k].value;
      if !body.Obj? {
        return Err(AttributeError), fetched;
      }
      var data := body.fields;
      var rowsOrError := Iterate(LookupOr(data, "data", Arr([])));
      if rowsOrError.Err? {
        return Err(rowsOrError.error), fetched;
      }
      var rows := rowsOrError.value;
      ghost var start := profiles;
      var i := 0;
      while i < |rows|
        invariant 0 <= i <= |rows|
        invariant CollectRows(start, rows, limit) == CollectRows(profiles, rows[i..], limit)
      {
        assert rows[i..][1..] == rows[i + 1..];
        var row := rows[i];
        if !row.Obj? {
          return Err(AttributeError), fetched;
        }
        if Lookup(row.fields, "type") == Str("profile") {
          var id := Lookup(row.fields, "id");
          if !Hashable(id) {
            return Err(TypeError), fetched;
          }
          profiles := Assign(profiles, id, Or(Lookup(row.fields, "attributes"), EmptyObject));
          if LimitReached(limit, |profiles|) {
            return Ok(profiles), fetched;
          }
        }
        i := i + 1;
      }
      var links := LookupOr(data, "links", EmptyObject);
      if !links.Obj? {
        return Err(AttributeError), fetched;
      }
      if !Truthy(Lookup(links.fields, "next")) {
        return Ok(profiles), fetched;
      }
      k := k + 1;
    }
  }

  /** One page's rows keep the dict an ordered dict with distinct ids; the loop
      stops exactly when the limit is reached, so with a positive limit `n` it
      never holds more than `n` members. */
  lemma {:induction false} CollectRowsBounds(ps: Members, rows: seq<Json>, limit: Option<int>)
    requires DistinctIds(ps)
    requires limit.Some? && limit.value > 0 ==> |ps| < limit.value
    ensures CollectRows(ps, rows, limit).Ok? ==>
      var out := CollectRows(ps, rows, limit).value.members;
      && DistinctIds(out)
      && (limit.Some? && limit.value > 0 ==> |out| <= limit.value)
      && (CollectRows(ps, rows, limit).value.Reached? ==> LimitReached(limit, |out|))
      && (CollectRows(ps, rows, limit).value.Exhausted? && limit.Some? && limit.value > 0 ==> |out| < limit.value)
    decreases |rows|
  {
    if rows != [] && rows[0].Obj? {
      var row := rows[0].fields;
      if Lookup(row, "type") == Str("profile") {
        var id := Lookup(row, "id");
        if Hashable(id) {
          var ps' := Assign(ps, id, Or(Lookup(row, "attributes"), EmptyObject));
          if !LimitReached(limit, |ps'|) {
            CollectRowsBounds(ps', rows[1..], limit);
          }
        }
      } else {
        CollectRowsBounds(ps, rows[1..], limit);
      }
    }
  }

  /** The dict only grows; every member comes from a `profile` row or was there
      before, and when the page is read to its end every `profile` row is a
      member. */
  lemma {:induction false} CollectRowsMembers(ps: Members, rows: seq<Json>, limit: Option<int>)
    ensures CollectRows(ps, rows, limit).Ok? ==>
      var out := CollectRows(ps, rows, limit).value.members;
      && Keys(ps) <= Keys(out)
      && (forall id :: id in Keys(out) ==> id in Keys(ps) || exists j {:trigger IsProfileRow(rows[j], id)} :: 0 <= j < |rows| && IsProfileRow(rows[j], id))
      && (CollectRows(ps, rows, limit).value.Exhausted? ==>
            forall j, id {:trigger IsProfileRow(rows[j], id)} :: 0 <= j < |rows| && IsProfileRow(rows[j], id) ==> id in Keys(out))
    decreases |rows|
  {
    if rows != [] && rows[0].Obj? {
      var row := rows[0].fields;
      var tail := rows[1..];
      assert forall j :: 0 <= j < |tail| ==> tail[j] == rows[j + 1];
      if Lookup(row, "type") == Str("profile") {
        var id := Lookup(row, "id");
        if Hashable(id) {
          var ps' := Assign(ps, id, Or(Lookup(row, "attributes"), EmptyObject));
          assert IsProfileRow(rows[0], id);
          if !LimitReached(limit, |ps'|) {
            CollectRowsMembers(ps', tail, limit);
          }
        }
      } else {
        CollectRowsMembers(ps, tail, limit);
        assert forall id :: !IsProfileRow(rows[0], id);
      }
    }
  }

  /** Reading two runs of rows is reading the first and then the second. */
  lemma {:induction false} AssignRowsAppend(ps: Members, a: seq<Json>, b: seq<Json>)
    ensures AssignRows(ps, a + b) == AssignRows(AssignRows(ps, a), b)
    decreases |a|
  {
    if a == [] {
      assert a + b == b;
    } else {
      assert (a + b)[1..] == a[1..] + b;
      if a[0].Obj? && Lookup(a[0].fields, "type") == Str("profile") {
        AssignRowsAppend(Assign(ps, Lookup(a[0].fields, "id"), RowAttributes(a[0])), a[1..], b);
      } else {
        AssignRowsAppend(ps, a[1..], b);
      }
    }
  }

  /** The dict after reading rows: its ids start with those it had, in their
      places; each id came from before or from a `profile` row; and every
      `profile` row's id is in it. */
  lemma {:induction false} AssignRowsKeys(ps: Members, rows: seq<Json>)
    ensures var out := AssignRows(ps, rows);
      && Keys(ps) <= Keys(out)
      && (forall id :: id in Keys(out) ==>
            id in Keys(ps) || exists j {:trigger IsProfileRow(rows[j], id)} :: 0 <= j < |rows| && IsProfileRow(rows[j], id))
      && (forall j, id {:trigger IsProfileRow(rows[j], id)} :: 0 <= j < |rows| && IsProfileRow(rows[j], id) ==> id in Keys(out))
    decreases |rows|
  {
    if rows != [] {
      var tail := rows[1..];
      var profile := rows[0].Obj? && Lookup(rows[0].fields, "type") == Str("profile");
      var id0 := if rows[0].Obj? then Lookup(rows[0].fields, "id") else Null;
      var ps' := if profile then Assign(ps, id0, RowAttributes(rows[0])) else ps;
      assert AssignRows(ps, rows) == AssignRows(ps', tail);
      AssignRowsKeys(ps', tail);
      var out := AssignRows(ps', tail);
      assert Keys(ps) <= Keys(ps');
      forall id | id in Keys(out)
        ensures id in Keys(ps) || exists j {:trigger IsProfileRow(rows[j], id)} :: 0 <= j < |rows| && IsProfileRow(rows[j], id)
      {
        if id !in Keys(ps') {
          var j :| 0 <= j < |tail| && IsProfileRow(tail[j], id);
          assert rows[j + 1] == tail[j];
        } else if id !in Keys(ps) {
          assert IsProfileRow(rows[0], id);
        }
      }
      forall j, id | 0 <= j < |rows| && IsProfileRow(rows[j], id) ensures id in Keys(out) {
        if j > 0 {
          assert rows[j] == tail[j - 1];
          assert IsProfileRow(tail[j - 1], id);
        } else {
          assert profile && id == id0;
        }
      }
    }
  }

  /** Each id's value after reading rows is the attributes of its last `profile`
      row, or, when no row names it, what it had. */
  lemma {:induction false} AssignRowsValues(ps: Members, rows: seq<Json>)
    ensures var out := AssignRows(ps, rows);
      forall i :: 0 <= i < |out| ==>
        || LastProfileRow(rows, out[i].0, out[i].1)
        || (i < |ps| && out[i] == ps[i] &&
            forall j {:trigger IsProfileRow(rows[j], ps[i].0)} :: 0 <= j < |rows| ==> !IsProfileRow(rows[j], ps[i].0))
    decreases |rows|
  {
    if rows != [] {
      var tail := rows[1..];
      var profile := rows[0].Obj? && Lookup(rows[0].fields, "type") == Str("profile");
      var id0 := if rows[0].Obj? then Lookup(rows[0].fields, "id") else Null;
      var ps' := if profile then Assign(ps, id0, RowAttributes(rows[0])) else ps;
      assert AssignRows(ps, rows) == AssignRows(ps', tail);
      AssignRowsValues(ps', tail);
      var out := AssignRows(ps', tail);
      forall i | 0 <= i < |out|
        ensures || LastProfileRow(rows, out[i].0, out[i].1)
                || (i < |ps| && out[i] == ps[i] &&
                    forall j {:trigger IsProfileRow(rows[j], ps[i].0)} :: 0 <= j < |rows| ==> !IsProfileRow(rows[j], ps[i].0))
      {
        RowValueStep(ps, rows, i);
      }
    }
  }

  /** One row of `AssignRowsValues`: what holds of an id after the rest of the
      rows, given the first row's assignment, holds after all of them. */
  lemma RowValueStep(ps: Members, rows: seq<Json>, i: nat)
    requires rows != []
    requires var profile := rows[0].Obj? && Lookup(rows[0].fields, "type") == Str("profile");
      var ps' := if profile then Assign(ps, Lookup(rows[0].fields, "id"), RowAttributes(rows[0])) else ps;
      var out := AssignRows(ps', rows[1..]);
      && i < |out|
      && (|| LastProfileRow(rows[1..], out[i].0, out[i].1)
          || (i < |ps'| && out[i] == ps'[i] &&
              forall j {:trigger IsProfileRow(rows[1..][j], ps'[i].0)} :: 0 <= j < |rows[1..]| ==> !IsProfileRow(rows[1..][j], ps'[i].0)))
    ensures var profile := rows[0].Obj? && Lookup(rows[0].fields, "type") == Str("profile");
      var ps' := if profile then Assign(ps, Lookup(rows[0].fields, "id"), RowAttributes(rows[0])) else ps;
      var out := AssignRows(ps', rows[1..]);
      || LastProfileRow(rows, out[i].0, out[i].1)
      || (i < |ps| && out[i] == ps[i] &&
          forall j {:trigger IsProfileRow(rows[j], ps[i].0)} :: 0 <= j < |rows| ==> !IsProfileRow(rows[j], ps[i].0))
  {
    var tail := rows[1..];
    var profile := rows[0].Obj? && Lookup(rows[0].fields, "type") == Str("profile");
    var id0 := if rows[0].Obj? then Lookup(rows[0].fields, "id") else Null;
    var ps' := if profile then Assign(ps, id0, RowAttributes(rows[0])) else ps;
    var out := AssignRows(ps', tail);
    var id := out[i].0;
    if LastProfileRow(tail, id, out[i].1) {
      var j :| 0 <= j < |tail| && IsProfileRow(tail[j], id) && RowAttributes(tail[j]) == out[i].1 &&
        forall j' {:trigger IsProfileRow(tail[j'], id)} :: j < j' < |tail| ==> !IsProfileRow(tail[j'], id);
      assert rows[j + 1] == tail[j];
      forall j' | j + 1 < j' < |rows| ensures !IsProfileRow(rows[j'], id) {
        assert rows[j'] == tail[j' - 1];
        assert !IsProfileRow(tail[j' - 1], id);
      }
      assert LastProfileRow(rows, id, out[i].1);
    } else if profile && ps'[i].0 == id0 {
      assert IsProfileRow(rows[0], id) && RowAttributes(rows[0]) == out[i].1;
      forall j' | 0 < j' < |rows| ensures !IsProfileRow(rows[j'], id) {
        assert rows[j'] == tail[j' - 1];
        assert !IsProfileRow(tail[j' - 1], id);
      }
      assert LastProfileRow(rows, id, out[i].1);
    } else {
      assert i < |ps| && ps'[i] == ps[i];
      forall j | 0 <= j < |rows| ensures !IsProfileRow(rows[j], ps[i].0) {
        if j > 0 {
          assert rows[j] == tail[j - 1];
          assert !IsProfileRow(tail[j - 1], ps[i].0);
        }
      }
    }
  }

  /** The loop over one page's rows is `AssignRows` on the rows it read: all of
      them when the page runs out, the first `n` when the `n`-th reaches the
      limit. */
  lemma {:induction false} CollectRowsAssigns(ps: Members, rows: seq<Json>, limit: Option<int>)
    ensures CollectRows(ps, rows, limit).Ok? ==>
      var c := CollectRows(ps, rows, limit).value;
      && (c.Exhausted? ==> c.members == AssignRows(ps, rows))
      && (c.Reached? ==> exists n {:trigger AssignRows(ps, rows[..n])} :: 0 < n <= |rows| && c.members == AssignRows(ps, rows[..n]))
    decreases |rows|
  {
    if rows != [] && rows[0].Obj? {
      var row := rows[0].fields;
      var tail := rows[1..];
      if Lookup(row, "type") == Str("profile") {
        var id := Lookup(row, "id");
        if Hashable(id) {
          var ps' := Assign(ps, id, Or(Lookup(row, "attributes"), EmptyObject));
          assert rows[..1][1..] == [];
          assert AssignRows(ps, rows[..1]) == AssignRows(ps', []);
          if !LimitReached(limit, |ps'|) {
            CollectRowsAssigns(ps', tail, limit);
            var c := CollectRows(ps', tail, limit);
            if c.Ok? && c.value.Reached? {
              var n :| 0 < n <= |tail| && c.value.members == AssignRows(ps', tail[..n]);
              assert rows[..n + 1][1..] == tail[..n];
              assert AssignRows(ps, rows[..n + 1]) == AssignRows(ps', tail[..n]);
            }
          }
        }
      } else {
        CollectRowsAssigns(ps, tail, limit);
        var c := CollectRows(ps, tail, limit);
        if c.Ok? && c.value.Reached? {
          var n :| 0 < n <= |tail| && c.value.members == AssignRows(ps, tail[..n]);
          assert rows[..n + 1][1..] == tail[..n];
          assert AssignRows(ps, rows[..n + 1]) == AssignRows(ps, tail[..n]);
        }
      }
    }
  }

  /** The rows of a page: `data.get("data", [])` of a page returned as a dict,
      nothing for any other page. */
  function PageRows(page: Outcome): seq<Json>
  {
    match page
    case Returned(Obj(data)) =>
      (match Iterate(LookupOr(data, "data", Arr([])))
       case Ok(rows) => rows
       case _ => [])
    case _ => []
  }

  /** The rows of pages `k` to `n - 1`, in order. */
  function RowsOf(pages: seq<Outcome>, k: nat, n: nat): seq<Json>
    requires k <= n <= |pages|
    decreases n - k
  {
    if k == n then [] else PageRows(pages[k]) + RowsOf(pages, k + 1, n)
  }

  lemma {:induction false} RowsOfLast(pages: seq<Outcome>, k: nat, n: nat)
    requires k <= n < |pages|
    ensures RowsOf(pages, k, n + 1) == RowsOf(pages, k, n) + PageRows(pages[n])
    decreases n - k
  {
    if k < n {
      RowsOfLast(pages, k + 1, n);
      assert RowsOf(pages, k, n + 1) == PageRows(pages[k]) + (RowsOf(pages, k + 1, n) + PageRows(pages[n]));
    }
  }

  /** The rows a read from page `k` went through when it stopped on page `last`
      after `m` of that page's rows. */
  function RowsRead(pages: seq<Outcome>, k: nat, last: nat, m: nat): seq<Json>
    requires k <= last < |pages| && m <= |PageRows(pages[last])|
  {
    RowsOf(pages, k, last) + PageRows(pages[last])[..m]
  }

  /** The dict the rest of the read returns is `AssignRows` on the rows it went
      through: every row of the pages before the last one requested, and of that
      page all its rows or, when the limit was reached, the first `m`. */
  ghost predicate RunReads(pages: seq<Outcome>, k: nat, ps: Members, limit: Option<int>, p: Paged<Members>)
  {
    && k < p.fetched <= |pages|
    && (p.result.Ok? ==>
          exists m {:trigger RowsRead(pages, k, p.fetched - 1, m)} ::
            && 0 <= m <= |PageRows(pages[p.fetched - 1])|
            && p.result.value == AssignRows(ps, RowsRead(pages, k, p.fetched - 1, m))
            && (!LimitReached(limit, |p.result.value|) ==> m == |PageRows(pages[p.fetched - 1])|))
  }

  /** What the rest of the read returns, from page `k` with `ps` collected:
      it asks at least once and no further than the pages given; an ordered
      dict with distinct ids that keeps what `ps` had, of at most a positive
      `limit` members; it stops on a page that still links onward only because
      the limit was reached, and a positive limit `n` then gives exactly `n`
      members. */
  ghost predicate RunKept(pages: seq<Outcome>, k: nat, ps: Members, limit: Option<int>, p: Paged<Members>)
  {
    && k < p.fetched <= |pages|
    && (p.result.Ok? ==>
          && DistinctIds(p.result.value)
          && Keys(ps) <= Keys(p.result.value)
          && (limit.Some? && limit.value > 0 ==> |p.result.value| <= limit.value)
          && (LimitReached(limit, |p.result.value|) || !Truthy(NextLink(pages[p.fetched - 1])))
          && (Truthy(NextLink(pages[p.fetched - 1])) && limit.Some? && limit.value > 0 ==>
                |p.result.value| == limit.value))
    && RunReads(pages, k, ps, limit, p)
  }

  /** Under the loop's invariant (distinct ids, below a positive limit) the rest
      of the read keeps it. */
  lemma {:induction false} SegmentRunSpec(pages: seq<Outcome>, k: nat, ps: Members, limit: Option<int>)
    requires k < |pages| && PagesEnd(pages)
    requires DistinctIds(ps)
    requires limit.Some? && limit.value > 0 ==> |ps| < limit.value
    ensures RunKept(pages, k, ps, limit, SegmentRun(pages, k, ps, limit))
    decreases |pages| - k
  {
    if pages[k].Returned? {
      var body := pages[k].value;
      var step := SegmentPage(ps, body, limit);
      if step.Ok? && step.value.NextPage? && k + 1 < |pages| {
        SegmentPageSpec(ps, body, limit);
        SegmentRunSpec(pages, k + 1, step.value.members, limit);
        assert SegmentRun(pages, k, ps, limit) == SegmentRun(pages, k + 1, step.value.members, limit);
      } else {
        SegmentLastPage(pages, k, ps, limit);
      }
    }
    SegmentRunReads(pages, k, ps, limit);
  }

  /** The rest of the read is `AssignRows` on the rows it went through. */
  lemma {:induction false} SegmentRunReads(pages: seq<Outcome>, k: nat, ps: Members, limit: Option<int>)
    requires k < |pages| && PagesEnd(pages)
    requires DistinctIds(ps)
    requires limit.Some? && limit.value > 0 ==> |ps| < limit.value
    ensures RunReads(pages, k, ps, limit, SegmentRun(pages, k, ps, limit))
    decreases |pages| - k
  {
    if pages[k].Returned? {
      var body := pages[k].value;
      var step := SegmentPage(ps, body, limit);
      SegmentPageSpec(ps, body, limit);
      if step.Ok? && step.value.NextPage? && k + 1 < |pages| {
        var mid := step.value.members;
        SegmentRunReads(pages, k + 1, mid, limit);
        ReadsThroughPage(pages, k, ps, limit, mid, SegmentRun(pages, k + 1, mid, limit));
        assert SegmentRun(pages, k, ps, limit) == SegmentRun(pages, k + 1, mid, limit);
      } else {
        SegmentRunStops(pages, k, ps, limit);
        ReadsOnLastPage(pages, k, ps, limit, step);
      }
    }
  }

  /** A page read to its end before the rest of the read: the rows went through
      from it are its rows followed by the rest's. */
  lemma ReadsThroughPage(pages: seq<Outcome>, k: nat, ps: Members, limit: Option<int>, mid: Members, q: Paged<Members>)
    requires k + 1 < |pages|
    requires mid == AssignRows(ps, PageRows(pages[k]))
    requires RunReads(pages, k + 1, mid, limit, q)
    ensures RunReads(pages, k, ps, limit, q)
  {
    if q.result.Ok? {
      var last := q.fetched - 1;
      var m :| 0 <= m <= |PageRows(pages[last])| &&
        q.result.value == AssignRows(mid, RowsRead(pages, k + 1, last, m)) &&
        (!LimitReached(limit, |q.result.value|) ==> m == |PageRows(pages[last])|);
      RowsReadStep(pages, k, last, m);
      AssignRowsThrough(ps, PageRows(pages[k]), RowsRead(pages, k + 1, last, m), RowsRead(pages, k, last, m), mid, q.result.value);
    }
  }

  /** On values: reading `here` then `later` is reading `here + later`. */
  lemma AssignRowsThrough(ps: Members, here: seq<Json>, later: seq<Json>, rows: seq<Json>, mid: Members, out: Members)
    requires rows == here + later
    requires mid == AssignRows(ps, here) && out == AssignRows(mid, later)
    ensures out == AssignRows(ps, rows)
  {
    AssignRowsAppend(ps, here, later);
  }

  /** The rows went through from page `k` are that page's rows followed by those
      went through from page `k + 1`. */
  lemma RowsReadStep(pages: seq<Outcome>, k: nat, last: nat, m: nat)
    requires k < last < |pages| && m <= |PageRows(pages[last])|
    ensures RowsRead(pages, k, last, m) == PageRows(pages[k]) + RowsRead(pages, k + 1, last, m)
  {
    var here, later, part := PageRows(pages[k]), RowsOf(pages, k + 1, last), PageRows(pages[last])[..m];
    assert RowsOf(pages, k, last) == here + later;
    assert (here + later) + part == here + (later + part);
  }

  /** The read stops on a page that fails, reaches the limit or has no next
      link, returning what that page gave and having requested it last. */
  lemma SegmentRunStops(pages: seq<Outcome>, k: nat, ps: Members, limit: Option<int>)
    requires k < |pages| && PagesEnd(pages) && pages[k].Returned?
    requires var step := SegmentPage(ps, pages[k].value, limit);
      !(step.Ok? && step.value.NextPage? && k + 1 < |pages|)
    ensures SegmentRun(pages, k, ps, limit) ==
      match SegmentPage(ps, pages[k].value, limit)
      case Err(f) => Paged(Err(f), k + 1)
      case Ok(step) => Paged(Ok(step.members), k + 1)
  {
  }

  /** On values: a last page whose rows were read as `SegmentPageSpec` says. */
  lemma ReadsOnLastPage(pages: seq<Outcome>, k: nat, ps: Members, limit: Option<int>, step: Result<PageStep>)
    requires k < |pages|
    requires step.Ok? && step.value.AtLimit? ==>
      && LimitReached(limit, |step.value.members|)
      && exists n {:trigger AssignRows(ps, PageRows(pages[k])[..n])} :: 0 < n <= |PageRows(pages[k])| && step.value.members == AssignRows(ps, PageRows(pages[k])[..n])
    requires step.Ok? && !step.value.AtLimit? ==> step.value.members == AssignRows(ps, PageRows(pages[k]))
    ensures RunReads(pages, k, ps, limit,
      match step
      case Err(f) => Paged(Err(f), k + 1)
      case Ok(st) => Paged(Ok(st.members), k + 1))
  {
    var rows := PageRows(pages[k]);
    if step.Ok? {
      var out := step.value.members;
      if step.value.AtLimit? {
        var n :| 0 < n <= |rows| && out == AssignRows(ps, rows[..n]);
        assert RowsRead(pages, k, k, n) == rows[..n];
      } else {
        assert RowsRead(pages, k, k, |rows|) == rows;
      }
    }
  }

  /** A page on which the read stops keeps the loop's invariant. */
  lemma SegmentLastPage(pages: seq<Outcome>, k: nat, ps: Members, limit: Option<int>)
    requires k < |pages| && PagesEnd(pages)
    requires DistinctIds(ps)
    requires limit.Some? && limit.value > 0 ==> |ps| < limit.value
    requires pages[k].Returned?
    requires var step := SegmentPage(ps, pages[k].value, limit);
      !(step.Ok? && step.value.NextPage? && k + 1 < |pages|)
    ensures RunKept(pages, k, ps, limit, SegmentRun(pages, k, ps, limit))
  {
    SegmentPageSpec(ps, pages[k].value, limit);
    SegmentRunStops(pages, k, ps, limit);
    SegmentRunReads(pages, k, ps, limit);
  }

  /** One page keeps the loop's invariant: distinct ids, only growth, at most a
      positive limit, and the page ends the read early only at the limit. */
  lemma SegmentPageSpec(ps: Members, body: Json, limit: Option<int>)
    requires DistinctIds(ps)
    requires limit.Some? && limit.value > 0 ==> |ps| < limit.value
    ensures var r := SegmentPage(ps, body, limit);
      r.Ok? ==>
        var out := r.value.members;
        && DistinctIds(out)
        && Keys(ps) <= Keys(out)
        && (limit.Some? && limit.value > 0 ==> |out| <= limit.value)
        && (r.value.AtLimit? ==> LimitReached(limit, |out|))
        && (!r.value.AtLimit? && limit.Some? && limit.value > 0 ==> |out| < limit.value)
        && (r.value.AtLimit? ==>
              exists n {:trigger AssignRows(ps, PageRows(Returned(body))[..n])} :: 0 < n <= |PageRows(Returned(body))| && out == AssignRows(ps, PageRows(Returned(body))[..n]))
        && (!r.value.AtLimit? ==> out == AssignRows(ps, PageRows(Returned(body))))
  {
    if body.Obj? {
      var rows := Iterate(LookupOr(body.fields, "data", Arr([])));
      if rows.Ok? {
        assert PageRows(Returned(body)) == rows.value;
        CollectRowsBounds(ps, rows.value, limit);
        CollectRowsMembers(ps, rows.value, limit);
        CollectRowsAssigns(ps, rows.value, limit);
      }
    }
  }

  /** What a whole read that returned `out` holds, over `all`, the rows of the
      pages it requested: each id in `out` is the id of a `profile` row among
      them; `out` is `profiles[id] = attributes` applied to the rows it went
      through, a prefix of `all` that is all of it unless the limit was reached,
      so each id holds the attributes of its last `profile` row read; and unless
      the limit was reached every `profile` row's id is in `out`. */
  ghost predicate ProfilesRead(pages: seq<Outcome>, limit: Option<int>, p: Paged<Members>)
  {
    && 0 < p.fetched <= |pages|
    && (p.result.Ok? ==>
          var out, all := p.result.value, RowsOf(pages, 0, p.fetched);
          && (forall id :: id in Keys(out) ==>
                exists j {:trigger IsProfileRow(all[j], id)} :: 0 <= j < |all| && IsProfileRow(all[j], id))
          && (exists m {:trigger RowsRead(pages, 0, p.fetched - 1, m)} ::
                && 0 <= m <= |PageRows(pages[p.fetched - 1])|
                && var read := RowsRead(pages, 0, p.fetched - 1, m);
                   && read <= all
                   && out == AssignRows([], read)
                   && (forall i {:trigger out[i]} :: 0 <= i < |out| ==> LastProfileRow(read, out[i].0, out[i].1))
                   && (!LimitReached(limit, |out|) ==> read == all))
          && (!LimitReached(limit, |out|) ==>
                forall j, id {:trigger IsProfileRow(all[j], id)} :: 0 <= j < |all| && IsProfileRow(all[j], id) ==> id in Keys(out)))
  }

  /** The whole read: `get_segment_profiles` returns a dict with distinct ids; with
      a positive limit it holds at most `limit` members, and exactly `limit` when
      the read stopped before the last page; without a limit (None or 0) it reads
      until a page has no next link.  Its ids are those of `profile` rows on the
      pages requested; it is `profiles[id] = attributes` applied to the rows read
      (all rows of those pages unless the limit was reached), so each id holds
      the attributes of its last `profile` row read; and unless the limit was
      reached every `profile` row's id is in it. */
  lemma SegmentProfilesSpec(pages: seq<Outcome>, limit: Option<int>)
    requires PagesEnd(pages)
    ensures var p := SegmentRun(pages, 0, [], limit);
      && 0 < p.fetched <= |pages|
      && (p.result.Ok? ==>
            && DistinctIds(p.result.value)
            && (limit.Some? && limit.value > 0 ==> |p.result.value| <= limit.value)
            && (Truthy(NextLink(pages[p.fetched - 1])) ==> LimitReached(limit, |p.result.value|))
            && (Truthy(NextLink(pages[p.fetched - 1])) && limit.Some? && limit.value > 0 ==>
                  |p.result.value| == limit.value)
            && ((limit.None? || limit.value == 0) ==> !Truthy(NextLink(pages[p.fetched - 1]))))
    ensures ProfilesRead(pages, limit, SegmentRun(pages, 0, [], limit))
    ensures ReadEnds(pages, limit, SegmentRun(pages, 0, [], limit))
  {
    SegmentRunSpec(pages, 0, [], limit);
    ProfilesFromReads(pages, limit, SegmentRun(pages, 0, [], limit));
    SegmentFetchedUpTo(pages, limit);
  }

  /** On values: a whole read that is `AssignRows` on the rows it went through
      holds the ids and values `SegmentProfilesSpec` states. */
  lemma ProfilesFromReads(pages: seq<Outcome>, limit: Option<int>, p: Paged<Members>)
    requires RunReads(pages, 0, [], limit, p)
    ensures ProfilesRead(pages, limit, p)
  {
    if p.result.Ok? {
      var out, last := p.result.value, p.fetched - 1;
      var m :| 0 <= m <= |PageRows(pages[last])| && out == AssignRows([], RowsRead(pages, 0, last, m)) &&
        (!LimitReached(limit, |out|) ==> m == |PageRows(pages[last])|);
      ReadIsPrefix(pages, last, m);
      ReadRowsHold(RowsRead(pages, 0, last, m), RowsOf(pages, 0, p.fetched), out);
    }
  }

  /** The rows went through up to `m` rows into page `last` lead the rows of
      pages `0` to `last`, and are all of them at the page's end. */
  lemma ReadIsPrefix(pages: seq<Outcome>, last: nat, m: nat)
    requires last < |pages| && m <= |PageRows(pages[last])|
    ensures RowsRead(pages, 0, last, m) <= RowsOf(pages, 0, last + 1)
    ensures m == |PageRows(pages[last])| ==> RowsRead(pages, 0, last, m) == RowsOf(pages, 0, last + 1)
  {
    RowsOfLast(pages, 0, last);
    var before, rows := RowsOf(pages, 0, last), PageRows(pages[last]);
    assert rows[..m] <= rows;
    assert RowsOf(pages, 0, last + 1) == before + rows;
    assert m == |rows| ==> rows[..m] == rows;
  }

  /** On values: a dict read from a prefix `read` of `all` has the ids of
      `profile` rows of `all`, each holding its last such row's attributes, and
      when `read` is all of `all` it has every `profile` row's id. */
  lemma ReadRowsHold(read: seq<Json>, all: seq<Json>, out: Members)
    requires read <= all && out == AssignRows([], read)
    ensures forall id :: id in Keys(out) ==>
      exists j {:trigger IsProfileRow(all[j], id)} :: 0 <= j < |all| && IsProfileRow(all[j], id)
    ensures forall i {:trigger out[i]} :: 0 <= i < |out| ==> LastProfileRow(read, out[i].0, out[i].1)
    ensures read == all ==>
      forall j, id {:trigger IsProfileRow(all[j], id)} :: 0 <= j < |all| && IsProfileRow(all[j], id) ==> id in Keys(out)
  {
    AssignRowsKeys([], read);
    AssignRowsValues([], read);
    forall id | id in Keys(out)
      ensures exists j {:trigger IsProfileRow(all[j], id)} :: 0 <= j < |all| && IsProfileRow(all[j], id)
    {
      var j :| 0 <= j < |read| && IsProfileRow(read[j], id);
      assert all[j] == read[j];
    }
  }

  // ---------------------------------------------------------------------------
  // Where the read stops

  /** A row the loop records, whatever its id. */
  predicate ProfileRow(row: Json)
  {
    row.Obj? && Lookup(row.fields, "type") == Str("profile")
  }

  /** Row `i`, read after `ps` and the rows before it, is not a `profile` row
      that brings the dict to the limit. */
  predicate RowBelow(ps: Members, rows: seq<Json>, i: nat, limit: Option<int>)
    requires i < |rows|
  {
    ProfileRow(rows[i]) ==> !LimitReached(limit, |AssignRows(ps, rows[..i + 1])|)
  }

  /** Among the first `n` rows read after `ps`, no `profile` row brings the dict
      to the limit. */
  predicate BelowLimit(ps: Members, rows: seq<Json>, n: nat, limit: Option<int>)
    requires n <= |rows|
  {
    forall i: nat {:trigger RowBelow(ps, rows, i, limit)} :: i < n ==> RowBelow(ps, rows, i, limit)
  }

  /** Row `n - 1` is the first `profile` row that brings the dict to the limit. */
  predicate ReachedAt(ps: Members, rows: seq<Json>, n: nat, limit: Option<int>)
  {
    && 0 < n <= |rows|
    && ProfileRow(rows[n - 1])
    && LimitReached(limit, |AssignRows(ps, rows[..n])|)
    && BelowLimit(ps, rows, n - 1, limit)
  }

  /** The loop over `rows` stops after `n` of them: right after the first
      `profile` row that reaches the limit, or at their end when none does. */
  predicate StopsAt(ps: Members, rows: seq<Json>, n: nat, limit: Option<int>)
  {
    || (n == |rows| && BelowLimit(ps, rows, n, limit))
    || ReachedAt(ps, rows, n, limit)
  }

  /** A `profile` row before the place where the loop stops leaves the dict
      below the limit. */
  lemma BelowLimitBefore(ps: Members, rows: seq<Json>, lo: nat, hi: nat, limit: Option<int>)
    requires 0 < lo < hi && StopsAt(ps, rows, hi, limit) && ProfileRow(rows[lo - 1])
    ensures !LimitReached(limit, |AssignRows(ps, rows[..lo])|)
  {
    var i := lo - 1;
    assert rows[..i + 1] == rows[..lo];
    assert i < hi - 1 || hi == |rows|;
    assert RowBelow(ps, rows, i, limit);
  }

  /** No row before the place where the loop stops reaches the limit. */
  lemma NotReachedBefore(ps: Members, rows: seq<Json>, lo: nat, hi: nat, limit: Option<int>)
    requires StopsAt(ps, rows, hi, limit)
    ensures lo < hi ==> !ReachedAt(ps, rows, lo, limit)
  {
    if 0 < lo < hi && lo <= |rows| && ProfileRow(rows[lo - 1]) {
      BelowLimitBefore(ps, rows, lo, hi, limit);
    }
  }

  /** The loop over a run of rows has one stopping point. */
  lemma StopsAtUnique(ps: Members, rows: seq<Json>, n1: nat, n2: nat, limit: Option<int>)
    requires StopsAt(ps, rows, n1, limit) && StopsAt(ps, rows, n2, limit)
    ensures n1 == n2
  {
    NotReachedBefore(ps, rows, n1, n2, limit);
    NotReachedBefore(ps, rows, n2, n1, limit);
  }

  /** `BelowLimit` over `a + b` splits at the end of `a`. */
  lemma BelowLimitAppend(ps: Members, a: seq<Json>, b: seq<Json>, n: nat, limit: Option<int>)
    requires n <= |b|
    requires BelowLimit(ps, a, |a|, limit) && BelowLimit(AssignRows(ps, a), b, n, limit)
    ensures BelowLimit(ps, a + b, |a| + n, limit)
  {
    forall i: nat | i < |a| + n
      ensures RowBelow(ps, a + b, i, limit)
    {
      if i < |a| {
        BelowLimitInHead(ps, a, b, i, limit);
      } else {
        BelowLimitInTail(ps, a, b, n, i, limit);
      }
    }
  }

  /** On values: a row of `a` in `a + b` is read below the limit. */
  lemma BelowLimitInHead(ps: Members, a: seq<Json>, b: seq<Json>, i: nat, limit: Option<int>)
    requires i < |a| && BelowLimit(ps, a, |a|, limit)
    ensures RowBelow(ps, a + b, i, limit)
  {
    assert RowBelow(ps, a, i, limit);
    assert (a + b)[..i + 1] == a[..i + 1];
    assert (a + b)[i] == a[i];
  }

  /** On values: a row of `b` in `a + b` is read below the limit. */
  lemma BelowLimitInTail(ps: Members, a: seq<Json>, b: seq<Json>, n: nat, i: nat, limit: Option<int>)
    requires |a| <= i < |a| + n && n <= |b| && BelowLimit(AssignRows(ps, a), b, n, limit)
    ensures RowBelow(ps, a + b, i, limit)
  {
    var j := i - |a|;
    assert RowBelow(AssignRows(ps, a), b, j, limit);
    assert (a + b)[..i + 1] == a + b[..j + 1];
    assert (a + b)[i] == b[j];
    AssignRowsAppend(ps, a, b[..j + 1]);
  }

  /** The limit first reached in `b`, read after `a` that stays below it, is
      first reached at the same row of `a + b`. */
  lemma ReachedAppend(ps: Members, a: seq<Json>, b: seq<Json>, n: nat, limit: Option<int>)
    requires BelowLimit(ps, a, |a|, limit) && ReachedAt(AssignRows(ps, a), b, n, limit)
    ensures ReachedAt(ps, a + b, |a| + n, limit)
    ensures AssignRows(ps, (a + b)[..|a| + n]) == AssignRows(AssignRows(ps, a), b[..n])
  {
    BelowLimitAppend(ps, a, b, n - 1, limit);
    assert (a + b)[..|a| + n] == a + b[..n];
    assert (a + b)[|a| + n - 1] == b[n - 1];
    AssignRowsAppend(ps, a, b[..n]);
  }

  /** What a page's row loop `c` did with `rows` after `ps`: when it ran out of
      rows, none reached the limit; when it returned, it did so right after the
      first `profile` row that reached the limit, with the dict of the rows up
      to it. */
  ghost predicate RowsStop(ps: Members, rows: seq<Json>, limit: Option<int>, c: Result<Collected>)
  {
    c.Ok? ==>
      && (c.value.Exhausted? ==> BelowLimit(ps, rows, |rows|, limit))
      && (c.value.Reached? ==>
            exists n: nat {:trigger ReachedAt(ps, rows, n, limit)} ::
              ReachedAt(ps, rows, n, limit) && c.value.members == AssignRows(ps, rows[..n]))
  }

  /** On values: a first row that stays below the limit, then a loop over the
      rest, stops where the loop over all the rows does. */
  lemma RowsStopAfterHead(ps: Members, head: seq<Json>, tail: seq<Json>, limit: Option<int>, c: Result<Collected>)
    requires BelowLimit(ps, head, |head|, limit)
    requires RowsStop(AssignRows(ps, head), tail, limit, c)
    ensures RowsStop(ps, head + tail, limit, c)
  {
    if c.Ok? {
      if c.value.Exhausted? {
        BelowLimitAppend(ps, head, tail, |tail|, limit);
      } else {
        var n: nat :| ReachedAt(AssignRows(ps, head), tail, n, limit) && c.value.members == AssignRows(AssignRows(ps, head), tail[..n]);
        ReachedAppend(ps, head, tail, n, limit);
      }
    }
  }

  /** The loop over one page's rows stops as `RowsStop` says. */
  lemma {:induction false} CollectRowsFirst(ps: Members, rows: seq<Json>, limit: Option<int>)
    ensures RowsStop(ps, rows, limit, CollectRows(ps, rows, limit))
    decreases |rows|
  {
    if rows != [] && rows[0].Obj? {
      var row, tail := rows[0].fields, rows[1..];
      var head := [rows[0]];
      assert rows == head + tail && head[1..] == [] && rows[..1] == head;
      if Lookup(row, "type") == Str("profile") {
        var id := Lookup(row, "id");
        if Hashable(id) {
          var ps' := Assign(ps, id, Or(Lookup(row, "attributes"), EmptyObject));
          assert AssignRows(ps, head) == ps';
          if LimitReached(limit, |ps'|) {
            assert ReachedAt(ps, rows, 1, limit);
          } else {
            assert head[..1] == head && RowBelow(ps, head, 0, limit);
            assert BelowLimit(ps, head, 1, limit);
            CollectRowsFirst(ps', tail, limit);
            RowsStopAfterHead(ps, head, tail, limit, CollectRows(ps', tail, limit));
          }
        }
      } else {
        assert AssignRows(ps, head) == ps;
        assert head[..1] == head && RowBelow(ps, head, 0, limit);
        assert BelowLimit(ps, head, 1, limit);
        CollectRowsFirst(ps, tail, limit);
        RowsStopAfterHead(ps, head, tail, limit, CollectRows(ps, tail, limit));
      }
    }
  }

  /** One page stops where its rows do: after the first `profile` row reaching
      the limit, or, when it goes on to its links, at its end with no row
      reaching it. */
  lemma SegmentPageStops(ps: Members, body: Json, limit: Option<int>)
    ensures var r, rows := SegmentPage(ps, body, limit), PageRows(Returned(body));
      r.Ok? ==>
        && (r.value.AtLimit? ==>
              exists n: nat {:trigger ReachedAt(ps, rows, n, limit)} ::
                ReachedAt(ps, rows, n, limit) && r.value.members == AssignRows(ps, rows[..n]))
        && (!r.value.AtLimit? ==> BelowLimit(ps, rows, |rows|, limit) && r.value.members == AssignRows(ps, rows))
  {
    if body.Obj? {
      var rows := Iterate(LookupOr(body.fields, "data", Arr([])));
      if rows.Ok? {
        assert PageRows(Returned(body)) == rows.value;
        CollectRowsFirst(ps, rows.value, limit);
        CollectRowsAssigns(ps, rows.value, limit);
      }
    }
  }

  /** The dict a read holds when it reaches page `j`: every row of the pages
      before it assigned. */
  function DictAt(pages: seq<Outcome>, j: nat): Members
    requires j <= |pages|
  {
    AssignRows([], RowsOf(pages, 0, j))
  }

  /** Reaching page `j + 1` is reaching page `j` and then assigning its rows. */
  lemma DictAtNext(pages: seq<Outcome>, j: nat)
    requires j < |pages|
    ensures DictAt(pages, j + 1) == AssignRows(DictAt(pages, j), PageRows(pages[j]))
  {
    RowsOfLast(pages, 0, j);
    AssignRowsAppend([], RowsOf(pages, 0, j), PageRows(pages[j]));
  }

  /** Page `j`, reached with the dict of the pages before it, was returned, read
      to its end without an exception or reaching the limit, and links on: the
      read asks for the next page. */
  predicate PassesOn(pages: seq<Outcome>, j: nat, limit: Option<int>)
    requires j < |pages|
  {
    LinksOn(pages[j], DictAt(pages, j), limit)
  }

  /** A page reached with `ps` that the read goes past. */
  predicate LinksOn(page: Outcome, ps: Members, limit: Option<int>)
  {
    && page.Returned?
    && var step := SegmentPage(ps, page.value, limit);
       step.Ok? && step.value.NextPage?
  }

  /** What the read returns when it stops on a page reached with `ps`: the
      page's exception, or the dict its rows leave. */
  function PageResult(page: Outcome, ps: Members, limit: Option<int>): Result<Members>
  {
    match page
    case Raised(f) => Err(f)
    case Returned(body) =>
      match SegmentPage(ps, body, limit)
      case Err(f) => Err(f)
      case Ok(step) => Ok(step.members)
  }

  /** The read, from page `k` on, requested pages `k` to `fetched - 1`: each
      page before the last one passed on, the last one did not, and the result
      is what that last page gave. */
  ghost predicate FetchedFrom(pages: seq<Outcome>, k: nat, limit: Option<int>, p: Paged<Members>)
  {
    && k < p.fetched <= |pages|
    && (forall j {:trigger PassesOn(pages, j, limit)} :: k <= j < p.fetched - 1 ==> PassesOn(pages, j, limit))
    && !PassesOn(pages, p.fetched - 1, limit)
    && p.result == PageResult(pages[p.fetched - 1], DictAt(pages, p.fetched - 1), limit)
  }

  /** The read from page `k`, reached with the dict of the pages before it,
      requests pages up to the first one that does not pass on, and returns
      what that page gave. */
  lemma {:induction false} SegmentRunFetched(pages: seq<Outcome>, k: nat, ps: Members, limit: Option<int>)
    requires k < |pages| && PagesEnd(pages) && ps == DictAt(pages, k)
    ensures FetchedFrom(pages, k, limit, SegmentRun(pages, k, ps, limit))
    decreases |pages| - k
  {
    if pages[k].Returned? {
      var body := pages[k].value;
      var step := SegmentPage(ps, body, limit);
      if step.Ok? && step.value.NextPage? && k + 1 < |pages| {
        var mid := step.value.members;
        PassedToNext(pages, k, ps, limit);
        SegmentRunFetched(pages, k + 1, mid, limit);
        assert SegmentRun(pages, k, ps, limit) == SegmentRun(pages, k + 1, mid, limit);
        FetchedAfterPass(pages, k, limit, SegmentRun(pages, k + 1, mid, limit));
      } else {
        SegmentRunStops(pages, k, ps, limit);
      }
    }
  }

  /** A page reached with the dict of the pages before it that links on passes
      on, and leaves the dict of the pages up to it. */
  lemma PassedToNext(pages: seq<Outcome>, k: nat, ps: Members, limit: Option<int>)
    requires k < |pages| && ps == DictAt(pages, k) && pages[k].Returned?
    requires var step := SegmentPage(ps, pages[k].value, limit); step.Ok? && step.value.NextPage?
    ensures PassesOn(pages, k, limit)
    ensures SegmentPage(ps, pages[k].value, limit).value.members == DictAt(pages, k + 1)
  {
    var body := pages[k].value;
    SegmentPageStops(ps, body, limit);
    assert PageRows(Returned(body)) == PageRows(pages[k]);
    DictAtNext(pages, k);
  }

  /** A page that passes on, followed by the read from the next page, is the
      read from that page. */
  lemma FetchedAfterPass(pages: seq<Outcome>, k: nat, limit: Option<int>, q: Paged<Members>)
    requires k + 1 < |pages| && PassesOn(pages, k, limit) && FetchedFrom(pages, k + 1, limit, q)
    ensures FetchedFrom(pages, k, limit, q)
  {
  }

  /** Pages that all passed on were read below the limit, row after row. */
  lemma {:induction false} PassedBelowLimit(pages: seq<Outcome>, limit: Option<int>, j: nat)
    requires j < |pages|
    requires forall i {:trigger PassesOn(pages, i, limit)} :: 0 <= i < j ==> PassesOn(pages, i, limit)
    ensures BelowLimit([], RowsOf(pages, 0, j), |RowsOf(pages, 0, j)|, limit)
    decreases j
  {
    if j > 0 {
      var i := j - 1;
      var before, rows := RowsOf(pages, 0, i), PageRows(pages[i]);
      PassedBelowLimit(pages, limit, i);
      assert PassesOn(pages, i, limit);
      assert pages[i] == Returned(pages[i].value);
      SegmentPageStops(DictAt(pages, i), pages[i].value, limit);
      assert BelowLimit(AssignRows([], before), rows, |rows|, limit);
      RowsOfLast(pages, 0, i);
      assert RowsOf(pages, 0, j) == before + rows;
      BelowLimitAppend([], before, rows, |rows|, limit);
    }
  }

  /** How a whole read ends.  Every page before the last one requested was
      returned, read to its end with no `profile` row reaching the limit, and
      linked on; the last one did not; the result is that page's exception or
      dict.  On success the rows read are those of the pages requested up to
      and including the first `profile` row that brought the dict to the limit,
      or all of them when none did, and the dict is `AssignRows` on them. */
  ghost predicate ReadEnds(pages: seq<Outcome>, limit: Option<int>, p: Paged<Members>)
  {
    && FetchedFrom(pages, 0, limit, p)
    && (p.result.Ok? ==>
          exists n: nat {:trigger StopsAt([], RowsOf(pages, 0, p.fetched), n, limit)} ::
            && StopsAt([], RowsOf(pages, 0, p.fetched), n, limit)
            && |RowsOf(pages, 0, p.fetched - 1)| <= n
            && p.result.value == AssignRows([], RowsOf(pages, 0, p.fetched)[..n]))
  }

  /** A read from the first page that requested the pages `FetchedFrom` says
      stopped at its first row reaching the limit. */
  lemma ReadStopsAtFirstReach(pages: seq<Outcome>, limit: Option<int>, p: Paged<Members>)
    requires FetchedFrom(pages, 0, limit, p)
    ensures ReadEnds(pages, limit, p)
  {
    if p.result.Ok? {
      var last := p.fetched - 1;
      var before, rows := RowsOf(pages, 0, last), PageRows(pages[last]);
      PassedBelowLimit(pages, limit, last);
      RowsOfLast(pages, 0, last);
      var all := RowsOf(pages, 0, p.fetched);
      assert all == before + rows;
      var ps := DictAt(pages, last);
      var body := pages[last].value;
      SegmentPageStops(ps, body, limit);
      var step := SegmentPage(ps, body, limit).value;
      if step.AtLimit? {
        var n: nat :| ReachedAt(ps, rows, n, limit) && step.members == AssignRows(ps, rows[..n]);
        ReachedAppend([], before, rows, n, limit);
        assert StopsAt([], all, |before| + n, limit);
      } else {
        BelowLimitAppend([], before, rows, |rows|, limit);
        assert all[..|before| + |rows|] == all;
        AssignRowsAppend([], before, rows);
        assert StopsAt([], all, |before| + |rows|, limit);
      }
    }
  }

  /** `get_segment_profiles` requests pages until the first one that does not
      pass on, and stops reading rows at the first `profile` row that reaches
      the limit (see `ReadEnds`). */
  lemma SegmentFetchedUpTo(pages: seq<Outcome>, limit: Option<int>)
    requires PagesEnd(pages)
    ensures ReadEnds(pages, limit, SegmentRun(pages, 0, [], limit))
  {
    assert RowsOf(pages, 0, 0) == [];
    SegmentRunFetched(pages, 0, [], limit);
    ReadStopsAtFirstReach(pages, limit, SegmentRun(pages, 0, [], limit));
  }

  /** Of two rows for the same id on a page read with limit 1, the first is
      kept: the read stops on it, so the second never overwrites it. */
  lemma FirstReachKept(pages: seq<Outcome>, a: Json, b: Json, p: Paged<Members>)
    requires a == Obj([("type", Str("profile")), ("id", Str("A")), ("attributes", Str("x"))])
    requires b == Obj([("type", Str("profile")), ("id", Str("A")), ("attributes", Str("y"))])
    requires pages == [Returned(Obj([("data", Arr([a, b]))]))]
    requires ReadEnds(pages, Some(1), p)
    ensures p.fetched == 1
    ensures p.result.Ok? ==> p.result.value == [(Str("A"), Str("x"))]
  {
    if p.result.Ok? {
      var rows := RowsOf(pages, 0, 1);
      TwoRowsStop(pages, a, b);
      var n: nat :| StopsAt([], rows, n, Some(1)) && p.result.value == AssignRows([], rows[..n]);
      StopsAtUnique([], rows, n, 1, Some(1));
    }
  }

  /** The page of `FirstReachKept` stops after its first row, with that row's
      attributes. */
  lemma TwoRowsStop(pages: seq<Outcome>, a: Json, b: Json)
    requires a == Obj([("type", Str("profile")), ("id", Str("A")), ("attributes", Str("x"))])
    requires b == Obj([("type", Str("profile")), ("id", Str("A")), ("attributes", Str("y"))])
    requires pages == [Returned(Obj([("data", Arr([a, b]))]))]
    ensures StopsAt([], RowsOf(pages, 0, 1), 1, Some(1))
    ensures AssignRows([], RowsOf(pages, 0, 1)[..1]) == [(Str("A"), Str("x"))]
  {
    var data := [("data", Arr([a, b]))];
    assert LookupOr(data, "data", Arr([])) == Arr([a, b]);
    assert Iterate(Arr([a, b])) == Ok([a, b]);
    var rows := RowsOf(pages, 0, 1);
    assert rows == [a, b];
    assert rows[..1] == [a];
    assert AssignRows([], [a]) == [(Str("A"), Str("x"))];
    assert BelowLimit([], rows, 0, Some(1));
    assert ReachedAt([], rows, 1, Some(1));
  }

  /** A page whose rows reach the limit is the last one requested, even when it
      links to a next page. */
  lemma ReachingPageIsLast(pages: seq<Outcome>, a: Json, p: Paged<Members>)
    requires a == Obj([("type", Str("profile")), ("id", Str("A")), ("attributes", Str("x"))])
    requires pages == [Returned(Obj([("data", Arr([a])), ("links", Obj([("next", Str("u"))]))])), Returned(Obj([]))]
    requires ReadEnds(pages, Some(1), p)
    ensures p.fetched == 1 && p.result == Ok([(Str("A"), Str("x"))])
  {
    var data := [("data", Arr([a])), ("links", Obj([("next", Str("u"))]))];
    assert LookupOr(data, "data", Arr([])) == Arr([a]);
    assert Iterate(Arr([a])) == Ok([a]);
    assert Assign([], Str("A"), Str("x")) == [(Str("A"), Str("x"))];
    assert CollectRows([], [a], Some(1)) == Ok(Reached([(Str("A"), Str("x"))]));
    assert SegmentPage([], Obj(data), Some(1)) == Ok(AtLimit([(Str("A"), Str("x"))]));
    assert !PassesOn(pages, 0, Some(1));
  }

  /** A negative limit is truthy and already met: the read returns after the first
      profile row. */
  lemma NegativeLimitStopsAtFirst(pages: seq<Outcome>, limit: int, row: Dict, rest: seq<Json>, links: Json)
    requires limit < 0
    requires Lookup(row, "type") == Str("profile") && Hashable(Lookup(row, "id"))
    requires pages == [Returned(Obj([("data", Arr([Obj(row)] + rest)), ("links", links)]))]
    requires !Truthy(NextLink(pages[0]))
    ensures SegmentRun(pages, 0, [], Some(limit))
      == Paged(Ok([(Lookup(row, "id"), Or(Lookup(row, "attributes"), EmptyObject))]), 1)
  {
    var data := [("data", Arr([Obj(row)] + rest)), ("links", links)];
    assert LookupOr(data, "data", Arr([])) == Arr([Obj(row)] + rest);
    var id := Lookup(row, "id");
    var attrs := Or(Lookup(row, "attributes"), EmptyObject);
    assert Assign([], id, attrs) == [(id, attrs)];
    assert LimitReached(Some(limit), 1);
    assert ([Obj(row)] + rest)[0] == Obj(row);
    assert CollectRows([], [Obj(row)] + rest, Some(limit)) == Ok(Reached([(id, attrs)]));
    assert Iterate(Arr([Obj(row)] + rest)) == Ok([Obj(row)] + rest);
    assert SegmentPage([], Obj(data), Some(limit)) == Ok(AtLimit([(id, attrs)]));
    assert pages[0] == Returned(Obj(data));
  }
}
