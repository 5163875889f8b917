/**
 * The search dispatcher (`_get_search` and `_search`): it pops the field
 * hints and the `fuzzy` flag out of the request, then either fetches one
 * record directly by its identifiers or scans the candidates and keeps
 * those in which some lookup parameter deep-matches.
 */
module Search {
  import opened Values
  import opened DeepSearch
  import opened Normalize
  import opened Store

  // ---------------------------------------------------------------------
  // Reading the request

  /** The request keys `_get_search` pops: the five field hints and `fuzzy`. */
  const PoppedKeys: set<string> := {"tag", "port", "var", "link", "contact", "fuzzy"}

  /** What remains of the request map after the pops. */
  function Popped(query: Record): Record {
    query - PoppedKeys
  }

  /** `self.query.pop('fuzzy', False)`, read for its truthiness. */
  predicate FuzzyFlag(query: Record) {
    "fuzzy" in query && Truthy(query["fuzzy"])
  }

  /** Whether hint `hint` was given (truthy) in the request. */
  predicate Hinted(query: Record, hint: string) {
    hint in query && Truthy(query[hint])
  }

  /** One entry of `search_items`: the hint's value under its record field, when the hint is truthy. */
  function HintItem(query: Record, hint: string, parent: string): seq<(string, Value)> {
    if Hinted(query, hint) then [(parent, query[hint])] else []
  }

  /** `search_items`: tag, port, var, link and contact rekeyed to the fields they search. */
  function SearchItems(query: Record): seq<(string, Value)> {
    HintItem(query, "tag", "tags") + HintItem(query, "port", "ports") + HintItem(query, "var", "vars")
    + HintItem(query, "link", "links") + HintItem(query, "contact", "contacts")
  }

  /** The lookup parameters after `_search` has written the truthy search items into them, in order. */
  function WithItems(lookup: Record, items: seq<(string, Value)>): Record
    decreases |items|
  {
    if items == [] then lookup
    else WithItems(if Truthy(items[0].1) then lookup[items[0].0 := items[0].1] else lookup, items[1..])
  }

  /** The filter map `_search` evaluates: the popped request plus the rekeyed hints. */
  function LookupParams(query: Record): Record {
    WithItems(Popped(query), SearchItems(query))
  }

  lemma {:induction false} WithItemsAppend(lookup: Record, a: seq<(string, Value)>, b: seq<(string, Value)>)
    ensures WithItems(lookup, a + b) == WithItems(WithItems(lookup, a), b)
    decreases |a|
  {
    if a == [] {
      assert a + b == b;
    } else {
      assert (a + b)[0] == a[0];
      assert (a + b)[1..] == a[1..] + b;
      WithItemsAppend(if Truthy(a[0].1) then lookup[a[0].0 := a[0].1] else lookup, a[1..], b);
    }
  }

  /** One hint, as `_search` writes it: under its record field, and only when truthy. */
  function PutHint(lookup: Record, query: Record, hint: string, parent: string): Record {
    if Hinted(query, hint) then lookup[parent := query[hint]] else lookup
  }

  lemma WithHintItem(lookup: Record, query: Record, hint: string, parent: string)
    ensures WithItems(lookup, HintItem(query, hint, parent)) == PutHint(lookup, query, hint, parent)
  {
    if Hinted(query, hint) {
      assert HintItem(query, hint, parent)[1..] == [];
    }
  }

  /** The five truthy hints, each written under its record field. */
  function HintedLookup(query: Record): Record {
    var l1 := PutHint(Popped(query), query, "tag", "tags");
    var l2 := PutHint(l1, query, "port", "ports");
    var l3 := PutHint(l2, query, "var", "vars");
    var l4 := PutHint(l3, query, "link", "links");
    PutHint(l4, query, "contact", "contacts")
  }

  lemma LookupParamsIsHinted(query: Record)
    ensures LookupParams(query) == HintedLookup(query)
  {
    var p := Popped(query);
    var t := HintItem(query, "tag", "tags");
    var o := HintItem(query, "port", "ports");
    var v := HintItem(query, "var", "vars");
    var l := HintItem(query, "link", "links");
    var c := HintItem(query, "contact", "contacts");
    WithItemsAppend(p, t + o + v + l, c);
    WithItemsAppend(p, t + o + v, l);
    WithItemsAppend(p, t + o, v);
    WithItemsAppend(p, t, o);
    var l1 := PutHint(p, query, "tag", "tags");
    var l2 := PutHint(l1, query, "port", "ports");
    var l3 := PutHint(l2, query, "var", "vars");
    var l4 := PutHint(l3, query, "link", "links");
    WithHintItem(p, query, "tag", "tags");
    WithHintItem(l1, query, "port", "ports");
    WithHintItem(l2, query, "var", "vars");
    WithHintItem(l3, query, "link", "links");
    WithHintItem(l4, query, "contact", "contacts");
  }

  /**
   * The filter map `_search` evaluates: no hint and no `fuzzy` survive; each
   * truthy hint sits under its record field; every other request entry is
   * kept unless a hint overwrote it; nothing else is added.
   */
  lemma LookupParamsShape(query: Record)
    ensures forall k :: k in PoppedKeys ==> k !in LookupParams(query)
    ensures Hinted(query, "tag") ==> "tags" in LookupParams(query) && LookupParams(query)["tags"] == query["tag"]
    ensures Hinted(query, "port") ==> "ports" in LookupParams(query) && LookupParams(query)["ports"] == query["port"]
    ensures Hinted(query, "var") ==> "vars" in LookupParams(query) && LookupParams(query)["vars"] == query["var"]
    ensures Hinted(query, "link") ==> "links" in LookupParams(query) && LookupParams(query)["links"] == query["link"]
    ensures Hinted(query, "contact") ==> "contacts" in LookupParams(query) && LookupParams(query)["contacts"] == query["contact"]
    ensures forall k :: k in query && k !in PoppedKeys && k !in {"tags", "ports", "vars", "links", "contacts"} ==>
      k in LookupParams(query) && LookupParams(query)[k] == query[k]
    ensures forall k :: k in LookupParams(query) ==>
      (k in query && k !in PoppedKeys) || k in {"tags", "ports", "vars", "links", "contacts"}
  {
    LookupParamsIsHinted(query);
  }

  // ---------------------------------------------------------------------
  // Filtering the candidates

  /** One lookup key selects a candidate when the candidate's value there is truthy and deep-matches. */
  predicate KeyHits(item: Record, k: string, want: Value, fuzzy: bool) {
    k in item && Truthy(item[k]) && Matches(item[k], want, fuzzy)
  }

  /** With no lookup parameters every candidate is kept; otherwise one hitting key suffices (OR). */
  predicate Selected(item: Record, lookup: Record, fuzzy: bool) {
    lookup == map[] || exists k | k in lookup :: KeyHits(item, k, lookup[k], fuzzy)
  }

  /** The selected candidates, each once, in candidate order. */
  function Filtered(items: seq<Record>, lookup: Record, fuzzy: bool): (out: seq<Record>)
    ensures |out| <= |items|
    ensures forall x :: x in out <==> x in items && Selected(x, lookup, fuzzy)
  {
    if items == [] then []
    else (if Selected(items[0], lookup, fuzzy) then [items[0]] else []) + Filtered(items[1..], lookup, fuzzy)
  }

  lemma {:induction false} FilteredAppend(items: seq<Record>, x: Record, lookup: Record, fuzzy: bool)
    ensures Filtered(items + [x], lookup, fuzzy) ==
      Filtered(items, lookup, fuzzy) + (if Selected(x, lookup, fuzzy) then [x] else [])
    decreases |items|
  {
    var tail := if Selected(x, lookup, fuzzy) then [x] else [];
    if items == [] {
      assert [] + [x] == [x];
      assert Filtered([x], lookup, fuzzy) == tail + Filtered([], lookup, fuzzy);
    } else {
      var head := if Selected(items[0], lookup, fuzzy) then [items[0]] else [];
      assert (items + [x])[0] == items[0];
      assert (items + [x])[1..] == items[1..] + [x];
      calc {
        Filtered(items + [x], lookup, fuzzy);
        head + Filtered(items[1..] + [x], lookup, fuzzy);
        { FilteredAppend(items[1..], x, lookup, fuzzy); }
        head + (Filtered(items[1..], lookup, fuzzy) + tail);
        (head + Filtered(items[1..], lookup, fuzzy)) + tail;
      }
    }
  }

  /** Filtering keeps input order and never repeats a candidate. */
  lemma {:induction false} FilteredKeepsOrder(items: seq<Record>, lookup: Record, fuzzy: bool)
    ensures IsSubsequence(Filtered(items, lookup, fuzzy), items)
    ensures multiset(Filtered(items, lookup, fuzzy)) <= multiset(items)
    decreases |items|
  {
    if items != [] {
      FilteredKeepsOrder(items[1..], lookup, fuzzy);
      var rest := Filtered(items[1..], lookup, fuzzy);
      assert items == [items[0]] + items[1..];
      if Selected(items[0], lookup, fuzzy) {
        assert ([items[0]] + rest)[1..] == rest;
      } else {
        assert [] + rest == rest;
      }
    }
  }

  /** With no lookup parameters the scan returns every candidate. */
  lemma {:induction false} EmptyLookupKeepsAll(items: seq<Record>, fuzzy: bool)
    ensures Filtered(items, map[], fuzzy) == items
    decreases |items|
  {
    if items != [] {
      EmptyLookupKeepsAll(items[1..], fuzzy);
      assert [items[0]] + items[1..] == items;
    }
  }

  /** `[convert_from_json(dict(i)) for i in q.all()]` */
  function NormalizedRows(rows: seq<Record>, decode: string -> Option<Value>): seq<Record>
    requires AllStored(rows)
  {
    seq(|rows|, i requires 0 <= i < |rows| => NormalizedRecord(rows[i], decode))
  }

  /** `_search`'s first loop: each truthy search item is written into the lookup parameters. */
  method AddSearchItems(lookupParams: Record, searchItems: seq<(string, Value)>) returns (lookup: Record)
    ensures lookup == WithItems(lookupParams, searchItems)
  {
    lookup := lookupParams;
    var i := 0;
    while i < |searchItems|
      invariant 0 <= i <= |searchItems|
      invariant WithItems(lookup, searchItems[i..]) == WithItems(lookupParams, searchItems)
    {
      var (k, v) := searchItems[i];
      assert searchItems[i..][1..] == searchItems[i + 1..];
      if Truthy(v) {
        lookup := lookup[k := v];
      }
      i := i + 1;
    }
  }

  /** The inner loop over the lookup keys: stops at the first key that hits. */
  method SelectItem(item: Record, lookup: Record, fuzzy: bool) returns (keep: bool)
    ensures keep == Selected(item, lookup, fuzzy)
  {
    if lookup == map[] {
      return true;
    }
    keep := false;
    var keys := lookup.Keys;
    while keys != {} && !keep
      invariant keys <= lookup.Keys
      invariant keep ==> Selected(item, lookup, fuzzy)
      invariant !keep ==> forall k :: k in lookup && k !in keys ==> !KeyHits(item, k, lookup[k], fuzzy)
      decreases keys
    {
      var k :| k in keys;
      var qItem := Get(item, k);
      if qItem.Some? && Truthy(qItem.value) && Matches(qItem.value, lookup[k], fuzzy) {
        keep := true;
      }
      keys := keys - {k};
    }
  }

  /** `_search`'s second loop: appends each selected candidate to the result, in order. */
  method FilterRows(allList: seq<Record>, lookup: Record, fuzzy: bool) returns (found: seq<Record>)
    ensures found == Filtered(allList, lookup, fuzzy)
  {
    found := [];
    var j := 0;
    while j < |allList|
      invariant 0 <= j <= |allList|
      invariant found == Filtered(allList[..j], lookup, fuzzy)
    {
      var item := allList[j];
      var keep := SelectItem(item, lookup, fuzzy);
      FilteredAppend(allList[..j], item, lookup, fuzzy);
      assert allList[..j + 1] == allList[..j] + [item];
      if keep {
        found := found + [item];
      }
      j := j + 1;
    }
    assert allList[..j] == allList;
  }

  /**
   * `_search`: writes the truthy search items into the lookup parameters
   * (which the caller sees change), normalises every candidate, and keeps a
   * candidate as soon as one lookup key hits.
   */
  method SearchRows(rows: seq<Record>, searchItems: seq<(string, Value)>, lookupParams: Record,
                    fuzzy: bool, decode: string -> Option<Value>)
    returns (found: seq<Record>, lookup: Record)
    requires AllStored(rows)
    ensures lookup == WithItems(lookupParams, searchItems)
    ensures found == Filtered(NormalizedRows(rows, decode), lookup, fuzzy)
  {
    lookup := AddSearchItems(lookupParams, searchItems);
    found := FilterRows(NormalizedRows(rows, decode), lookup, fuzzy);
  }

  // ---------------------------------------------------------------------
  // The dispatcher

  /** `lookup_params` built from the truthy identifiers ("" stands for an absent identifier). */
  function IdFilter(ent: string, env: string, dev: string): Record {
    (if ent != "" then map["ent_id" := Str(ent)] else map[])
    + (if env != "" then map["env_id" := Str(env)] else map[])
    + (if dev != "" then map["dev_id" := Str(dev)] else map[])
  }

  /** `any([ent_id, env_id, dev_id]) and not fuzzy`: the direct-fetch path is taken. */
  predicate DirectFetch(query: Record, ent: string, env: string, dev: string) {
    (ent != "" || env != "" || dev != "") && !FuzzyFlag(query)
  }

  lemma WhereStored(table: seq<Record>, filter: Record)
    requires AllStored(table)
    ensures AllStored(Where(table, filter))
  {
    var out := Where(table, filter);
    forall i | 0 <= i < |out| ensures StoredForm(out[i]) {
      assert out[i] in table;
    }
  }

  /**
   * What `_get_search` returns for a table. The direct path fetches with
   * `get()`, which raises unless exactly one row fits, and any raise gives
   * the empty list; the scan path filters the normalised candidates.
   */
  function SearchResult(table: seq<Record>, query: Record, ent: string, env: string, dev: string,
                        fetch: Outcome, decode: string -> Option<Value>): seq<Record>
    requires AllStored(table)
  {
    var candidates := Where(table, IdFilter(ent, env, dev));
    WhereStored(table, IdFilter(ent, env, dev));
    if DirectFetch(query, ent, env, dev) then
      if fetch.Fail? || |candidates| != 1 then [] else [NormalizedRecord(candidates[0], decode)]
    else
      Filtered(NormalizedRows(candidates, decode), LookupParams(query), FuzzyFlag(query))
  }

  /**
   * The direct path returns at most one record, and the same one whatever
   * other filter keys the request carries.
   */
  lemma DirectFetchIgnoresFilters(table: seq<Record>, q1: Record, q2: Record, ent: string, env: string, dev: string,
                                  fetch: Outcome, decode: string -> Option<Value>)
    requires AllStored(table)
    requires DirectFetch(q1, ent, env, dev) && DirectFetch(q2, ent, env, dev)
    ensures |SearchResult(table, q1, ent, env, dev, fetch, decode)| <= 1
    ensures SearchResult(table, q1, ent, env, dev, fetch, decode) == SearchResult(table, q2, ent, env, dev, fetch, decode)
  {
  }

  /**
   * The direct path needs exactly one fitting row: with two or more (a
   * listing by parent identifier only), `get()` raises and the result is
   * empty.
   */
  lemma DirectFetchOfSeveralIsEmpty(table: seq<Record>, query: Record, ent: string, env: string, dev: string,
                                    fetch: Outcome, decode: string -> Option<Value>)
    requires AllStored(table)
    requires DirectFetch(query, ent, env, dev)
    requires |Where(table, IdFilter(ent, env, dev))| >= 2
    ensures SearchResult(table, query, ent, env, dev, fetch, decode) == []
  {
  }

  /**
   * The scan path returns normalised candidates, in table order, each at
   * most once, and exactly those some lookup parameter selects.
   */
  lemma ScanSelectsInOrder(table: seq<Record>, query: Record, ent: string, env: string, dev: string,
                           fetch: Outcome, decode: string -> Option<Value>)
    requires AllStored(table)
    requires !DirectFetch(query, ent, env, dev)
    ensures var candidates := Where(table, IdFilter(ent, env, dev));
      && AllStored(candidates)
      && IsSubsequence(SearchResult(table, query, ent, env, dev, fetch, decode), NormalizedRows(candidates, decode))
      && forall x :: x in SearchResult(table, query, ent, env, dev, fetch, decode) <==>
           x in NormalizedRows(candidates, decode) && Selected(x, LookupParams(query), FuzzyFlag(query))
  {
    var candidates := Where(table, IdFilter(ent, env, dev));
    WhereStored(table, IdFilter(ent, env, dev));
    FilteredKeepsOrder(NormalizedRows(candidates, decode), LookupParams(query), FuzzyFlag(query));
  }

  /** A scan with no filter left returns every normalised candidate. */
  lemma ScanWithoutFiltersReturnsAll(table: seq<Record>, query: Record, ent: string, env: string, dev: string,
                                     fetch: Outcome, decode: string -> Option<Value>)
    requires AllStored(table)
    requires !DirectFetch(query, ent, env, dev)
    requires LookupParams(query) == map[]
    ensures var candidates := Where(table, IdFilter(ent, env, dev));
      && AllStored(candidates)
      && SearchResult(table, query, ent, env, dev, fetch, decode) == NormalizedRows(candidates, decode)
  {
    var candidates := Where(table, IdFilter(ent, env, dev));
    WhereStored(table, IdFilter(ent, env, dev));
    EmptyLookupKeepsAll(NormalizedRows(candidates, decode), FuzzyFlag(query));
  }

  /** A direct fetch over a table whose one row fits the identifiers returns that row, normalised. */
  lemma DirectFetchOfOnlyRow(row: Record, query: Record, ent: string, env: string, dev: string,
                             decode: string -> Option<Value>)
    requires StoredForm(row) && Fits(row, IdFilter(ent, env, dev))
    requires DirectFetch(query, ent, env, dev)
    ensures AllStored([row])
    ensures SearchResult([row], query, ent, env, dev, Pass, decode) == [NormalizedRecord(row, decode)]
  {
    assert Where([row], IdFilter(ent, env, dev)) == [row];
  }

  /** With all three identifiers given, the identifier lookup names all three columns. */
  lemma IdFilterAllGiven(ent: string, env: string, dev: string)
    requires ent != "" && env != "" && dev != ""
    ensures IdFilter(ent, env, dev) == map["env_id" := Str(env), "ent_id" := Str(ent), "dev_id" := Str(dev)]
  {
    var f := IdFilter(ent, env, dev);
    assert f.Keys == {"ent_id", "env_id", "dev_id"};
  }
}
