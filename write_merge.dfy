/**
 * The write merger (`_update_tags`, `_put_item`) and the link rule of
 * `_put_links`: what a payload becomes before it is written.
 */
module WriteMerge {
  import opened Values

  // ---------------------------------------------------------------------
  // Tag coalescing

  /**
   * `list(v)`: the elements of a list, the one-character strings of a
   * string, the keys of a dict; an int is not iterable.
   */
  function Items(v: Value): Option<seq<Value>> {
    match v
    case List(items) => Some(items)
    case Str(s) => Some(seq(|s|, i requires 0 <= i < |s| => Str([s[i]])))
    case Dict(entries) => Some(seq(|entries|, i requires 0 <= i < |entries| => Str(entries[i].0)))
    case Int(_) => None
  }

  /** What a Python `set` accepts as an element. */
  predicate Hashable(v: Value) {
    v.Str? || v.Int?
  }

  predicate NoDup(s: seq<Value>) {
    forall i, j :: 0 <= i < j < |s| ==> s[i] != s[j]
  }

  /** `set(s)`, as a duplicate-free list keeping first occurrences in order. */
  function Dedup(s: seq<Value>): (r: seq<Value>)
    ensures forall x :: x in r <==> x in s
    ensures NoDup(r)
    ensures |r| <= |s|
  {
    if s == [] then []
    else
      var rest := Dedup(s[..|s| - 1]);
      assert forall x :: x in s <==> x in s[..|s| - 1] || x == s[|s| - 1] by {
        assert s == s[..|s| - 1] + [s[|s| - 1]];
      }
      if s[|s| - 1] in rest then rest else rest + [s[|s| - 1]]
  }

  /** The tags of the stored record: an absent column reads as the empty set. */
  function StoredTags(row: Record): Option<seq<Value>> {
    if "tags" in row then Items(row["tags"]) else Some([])
  }

  /** `list(args.pop('tags', list()))` */
  function IncomingTags(args: Record): Option<seq<Value>> {
    if "tags" in args then Items(args["tags"]) else Some([])
  }

  /**
   * `_update_tags`: when the record is found, the payload's tags become the
   * union of the stored and the incoming tags and the write is an update.
   * When the fetch fails, or the stored tags cannot be listed, the payload is
   * untouched and the write is a create. Once the incoming tags have been
   * popped, a failure (tags not iterable, an element not hashable) leaves
   * the payload without `tags`.
   */
  function UpdateTags(stored: Option<Record>, args: Record): (r: (Record, bool))
    ensures r.1 <==>
      && stored.Some? && StoredTags(stored.value).Some? && IncomingTags(args).Some?
      && forall x :: x in StoredTags(stored.value).value + IncomingTags(args).value ==> Hashable(x)
    ensures r.1 ==>
      && r.0.Keys == args.Keys + {"tags"}
      && (forall f :: f in args && f != "tags" ==> r.0[f] == args[f])
      && r.0["tags"].List?
      && NoDup(r.0["tags"].items)
      && forall x :: x in r.0["tags"].items <==> x in StoredTags(stored.value).value || x in IncomingTags(args).value
    ensures stored.None? || (stored.Some? && StoredTags(stored.value).None?) ==> r == (args, false)
    ensures !r.1 ==> r.0 == args || r.0 == args - {"tags"}
  {
    match stored
    case None => (args, false)
    case Some(row) =>
      match StoredTags(row)
      case None => (args, false)
      case Some(have) =>
        var rest := args - {"tags"};
        match IncomingTags(args)
        case None => (rest, false)
        case Some(incoming) =>
          if forall x | x in have + incoming :: Hashable(x) then
            (rest["tags" := List(Dedup(have + incoming))], true)
          else
            (rest, false)
  }

  /** Adding one element to the input of `Dedup` adds it at the end unless it is already there. */
  lemma DedupSnoc(s: seq<Value>, x: Value)
    ensures Dedup(s + [x]) == if x in Dedup(s) then Dedup(s) else Dedup(s) + [x]
  {
    assert (s + [x])[..|s + [x]| - 1] == s;
  }

  /** The duplicate-free list of `[a, b, b, c]` is `[a, b, c]`. */
  lemma DedupExample()
    ensures Dedup([Str("a"), Str("b"), Str("b"), Str("c")]) == [Str("a"), Str("b"), Str("c")]
  {
    var a, b, c := Str("a"), Str("b"), Str("c");
    var s1: seq<Value> := [a];
    assert Dedup(s1) == [a] by {
      DedupSnoc([], a);
      assert [] + [a] == s1;
    }
    var s2 := s1 + [b];
    assert Dedup(s2) == [a, b] by {
      DedupSnoc(s1, b);
    }
    var s3 := s2 + [b];
    assert Dedup(s3) == [a, b] by {
      DedupSnoc(s2, b);
    }
    assert Dedup(s3 + [c]) == [a, b, c] by {
      DedupSnoc(s3, c);
    }
    assert s3 + [c] == [a, b, b, c];
  }

  /** Updating `{"a", "b"}` with `{"b", "c"}` stores `{"a", "b", "c"}`. */
  lemma TagUnionExample()
    ensures UpdateTags(Some(map["tags" := List([Str("a"), Str("b")])]),
                       map["tags" := List([Str("b"), Str("c")])])
         == (map["tags" := List([Str("a"), Str("b"), Str("c")])], true)
  {
    var have := [Str("a"), Str("b")];
    var incoming := [Str("b"), Str("c")];
    assert have + incoming == [Str("a"), Str("b"), Str("b"), Str("c")];
    DedupExample();
    var args: Record := map["tags" := List(incoming)];
    assert (args - {"tags"})["tags" := List([Str("a"), Str("b"), Str("c")])] == map["tags" := List([Str("a"), Str("b"), Str("c")])];
  }

  // ---------------------------------------------------------------------
  // Preparing the payload

  /** Identifiers of the item written; "" stands for an identifier not given. */
  datatype Ids = Ids(ent: string, env: string, dev: string)

  predicate Structured(v: Value) {
    v.List? || v.Dict?
  }

  /** One `vars` entry before storage: a dict or list value is JSON-encoded, anything else is kept. */
  function EncodedEntry(e: (string, Value), encode: Value -> string): (string, Value) {
    if Structured(e.1) then (e.0, Str(encode(e.1))) else e
  }

  /** The Python type name an `AttributeError` message uses. */
  function TypeName(v: Value): string {
    match v
    case Str(_) => "str"
    case Int(_) => "int"
    case List(_) => "list"
    case Dict(_) => "dict"
  }

  /** The payload with its `vars` encoded, or the error `.items()` raises when `vars` is not a dict. */
  function EncodedVars(args: Record, encode: Value -> string): Result<Record>
  {
    if "vars" !in args then Success(args)
    else match args["vars"]
      case Dict(entries) =>
        Success(args["vars" := Dict(seq(|entries|, i requires 0 <= i < |entries| => EncodedEntry(entries[i], encode)))])
      case other => Failure("'" + TypeName(other) + "' object has no attribute 'items'")
  }

  /** The identifier columns a create injects: those whose identifier was given. */
  function IdColumns(ids: Ids): set<string> {
    (if ids.ent != "" then {"ent_id"} else {})
    + (if ids.env != "" then {"env_id"} else {})
    + (if ids.dev != "" then {"dev_id"} else {})
  }

  /** The create path's stamps: `created_at` copies `updated_at`, and each given identifier is injected. */
  function Stamped(item: Record, ids: Ids): Record
    requires "updated_at" in item
  {
    var r := item["created_at" := item["updated_at"]];
    var r := if ids.ent != "" then r["ent_id" := Str(ids.ent)] else r;
    var r := if ids.env != "" then r["env_id" := Str(ids.env)] else r;
    if ids.dev != "" then r["dev_id" := Str(ids.dev)] else r
  }

  /**
   * The payload `_put_item` writes: `vars` encoded, `updated_at` set to
   * `now`, and on create also `created_at` and the identifiers. Nothing
   * else changes.
   */
  function PreparedItem(args: Record, ids: Ids, update: bool, now: int, encode: Value -> string): (r: Result<Record>)
    ensures r.Failure? <==> "vars" in args && !args["vars"].Dict?
    ensures r.Success? ==> "updated_at" in r.value && r.value["updated_at"] == Int(now)
    ensures r.Success? && update ==> r.value.Keys == args.Keys + {"updated_at"}
    ensures r.Success? && update ==> forall f :: f in args && f !in {"vars", "updated_at"} ==> r.value[f] == args[f]
    ensures r.Success? && !update ==>
      && r.value.Keys == args.Keys + {"updated_at", "created_at"} + IdColumns(ids)
      && r.value["created_at"] == r.value["updated_at"]
    ensures r.Success? && !update ==>
      && (ids.ent == "" && "ent_id" in args ==> r.value["ent_id"] == args["ent_id"])
      && (ids.env == "" && "env_id" in args ==> r.value["env_id"] == args["env_id"])
      && (ids.dev == "" && "dev_id" in args ==> r.value["dev_id"] == args["dev_id"])
    ensures r.Success? && !update ==>
      && (ids.ent != "" ==> "ent_id" in r.value && r.value["ent_id"] == Str(ids.ent))
      && (ids.env != "" ==> "env_id" in r.value && r.value["env_id"] == Str(ids.env))
      && (ids.dev != "" ==> "dev_id" in r.value && r.value["dev_id"] == Str(ids.dev))
    ensures r.Success? ==>
      forall f :: f in args && f !in {"vars", "updated_at", "created_at", "ent_id", "env_id", "dev_id"} ==>
        f in r.value && r.value[f] == args[f]
    ensures r.Success? && "vars" in args ==>
      && "vars" in r.value && r.value["vars"].Dict?
      && |r.value["vars"].entries| == |args["vars"].entries|
      && forall i :: 0 <= i < |args["vars"].entries| ==>
           var e := args["vars"].entries[i];
           && r.value["vars"].entries[i].0 == e.0
           && (Structured(e.1) ==> r.value["vars"].entries[i].1 == Str(encode(e.1)))
           && (!Structured(e.1) ==> r.value["vars"].entries[i].1 == e.1)
  {
    match EncodedVars(args, encode)
    case Failure(e) => Failure(e)
    case Success(item) =>
      var item := item["updated_at" := Int(now)];
      if update then Success(item) else Success(Stamped(item, ids))
  }

  /**
   * `_put_item` up to the write: walks `vars` replacing each dict or list
   * value by its encoding, then stamps the timestamps and identifiers.
   */
  method PrepareItem(args: Record, ids: Ids, update: bool, now: int, encode: Value -> string)
    returns (r: Result<Record>)
    ensures r == PreparedItem(args, ids, update, now, encode)
  {
    var item := args;
    if "vars" in item {
      var vars := item["vars"];
      if !vars.Dict? {
        return Failure("'" + TypeName(vars) + "' object has no attribute 'items'");
      }
      var entries := vars.entries;
      var i := 0;
      while i < |entries|
        invariant 0 <= i <= |entries|
        invariant |entries| == |vars.entries|
        invariant forall j :: 0 <= j < i ==> entries[j] == EncodedEntry(vars.entries[j], encode)
        invariant forall j :: i <= j < |entries| ==> entries[j] == vars.entries[j]
      {
        var (k, v) := entries[i];
        if v.List? || v.Dict? {
          entries := entries[i := (k, Str(encode(v)))];
        }
        i := i + 1;
      }
      assert entries == seq(|vars.entries|, j requires 0 <= j < |vars.entries| => EncodedEntry(vars.entries[j], encode));
      item := item["vars" := Dict(entries)];
    }
    item := item["updated_at" := Int(now)];
    if !update {
      item := item["created_at" := item["updated_at"]];
      if ids.ent != "" {
        item := item["ent_id" := Str(ids.ent)];
      }
      if ids.env != "" {
        item := item["env_id" := Str(ids.env)];
      }
      if ids.dev != "" {
        item := item["dev_id" := Str(ids.dev)];
      }
    }
    r := Success(item);
  }

  // ---------------------------------------------------------------------
  // Links

  predicate EndsWith(s: string, suffix: string) {
    |suffix| <= |s| && s[|s| - |suffix|..] == suffix
  }

  /**
   * The link stamped on the parent: the endpoint itself when it already
   * ends with the child's id, otherwise the endpoint, a slash and the id.
   * Either way it ends with the child's id.
   */
  function LinkFor(endpoint: string, childId: string): (link: string)
    ensures EndsWith(link, childId)
    ensures EndsWith(endpoint, childId) ==> link == endpoint
    ensures !EndsWith(endpoint, childId) ==> link == endpoint + "/" + childId && |link| == |endpoint| + 1 + |childId|
  {
    if EndsWith(endpoint, childId) then endpoint
    else
      var link := endpoint + "/" + childId;
      assert link[|link| - |childId|..] == childId;
      link
  }

  lemma LinkExamples()
    ensures LinkFor("https://x/dev", "dev") == "https://x/dev"
    ensures LinkFor("https://x/env", "dev1") == "https://x/env/dev1"
  {
    assert "https://x/dev"[10..] == "dev";
    assert "https://x/env"[9..] != "dev1" by {
      assert "https://x/env"[9..][0] == '/';
    }
  }

  /** The columns `_put_links` sets on the parent: a one-entry `links` map and the child's `updated_at`. */
  function LinkFields(endpoint: string, childId: string, item: Record): (fields: Record)
    requires "updated_at" in item
    ensures fields.Keys == {"links", "updated_at"}
    ensures fields["updated_at"] == item["updated_at"]
    ensures fields["links"].Dict? && |fields["links"].entries| == 1 && fields["links"].entries[0].0 == childId
    ensures fields["links"].entries[0].1.Str? && EndsWith(fields["links"].entries[0].1.s, childId)
  {
    map["links" := Dict([(childId, Str(LinkFor(endpoint, childId)))]), "updated_at" := item["updated_at"]]
  }
}
