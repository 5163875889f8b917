/**
 * The driver object: the request's filter map (`self.query`), the three
 * tables of the inventory (entities, environments, devices) and the
 * service endpoint links are built from. Reads go through the search
 * dispatcher; writes check the ancestors, coalesce tags, write the child
 * and stamp a link on its parent.
 */
module Driver {
  import opened Values
  import opened Normalize
  import opened Store
  import opened Search
  import opened WriteMerge

  /** A response: the body and the status code. */
  datatype Response = Response(body: Record, status: int)

  /** The three tables, as a value the write rules are stated on. */
  datatype Tables = Tables(entities: seq<Record>, environments: seq<Record>, devices: seq<Record>)

  predicate TablesStored(t: Tables) {
    AllStored(t.entities) && AllStored(t.environments) && AllStored(t.devices)
  }

  function ErrorBody(message: string): Record {
    map["ERROR" := Str(message)]
  }

  /** The message of a write the object mapper refuses (see README, "Left out"). */
  const RejectedMessage: string := "invalid value for a stored column"

  function EntityKey(ent: string): Record {
    map["ent_id" := Str(ent)]
  }

  function EnvironmentKey(ent: string, env: string): Record {
    map["env_id" := Str(env), "ent_id" := Str(ent)]
  }

  function DeviceKey(ent: string, env: string, dev: string): Record {
    map["env_id" := Str(env), "ent_id" := Str(ent), "dev_id" := Str(dev)]
  }

  /**
   * What the mapper accepts for a write addressed by `key`: `vars` holds
   * only text; an update names no key column at all; a create gives each
   * key column it names the addressed value, and names every one.
   */
  predicate Writable(key: Record, item: Record, update: bool) {
    && StoredForm(item)
    && if update then key.Keys !! item.Keys else Compatible(key, item) && key.Keys <= item.Keys
  }

  /** `_update_tags`' verdict for the row addressed by `key`: update it, or create it. */
  predicate Updating(table: seq<Record>, key: Record, args: Record) {
    UpdateTags(FirstWhere(table, key), args).1
  }

  /**
   * `_update_tags` followed by `_put_item` against the row addressed by
   * `key`: the payload as written, or the message of the error raised on
   * the way (a non-dict `vars`, a refused write, a backend fault).
   */
  function Written(table: seq<Record>, key: Record, args: Record, ids: Ids, now: int,
                   encode: Value -> string, fault: Outcome): (r: Result<Record>)
    ensures var p := PreparedItem(UpdateTags(FirstWhere(table, key), args).0, ids, Updating(table, key, args), now, encode);
      r.Success? <==> p.Success? && Writable(key, p.value, Updating(table, key, args)) && fault.Pass?
    ensures r.Success? ==>
      && PreparedItem(UpdateTags(FirstWhere(table, key), args).0, ids, Updating(table, key, args), now, encode) == Success(r.value)
      && "updated_at" in r.value && r.value["updated_at"] == Int(now)
  {
    var (merged, update) := UpdateTags(FirstWhere(table, key), args);
    match PreparedItem(merged, ids, update, now, encode)
    case Failure(e) => Failure(e)
    case Success(item) =>
      if !Writable(key, item, update) then Failure(RejectedMessage)
      else if fault.Fail? then Failure(fault.message)
      else Success(item)
  }

  /** The table after `_put_item` wrote `item`: `query.update` or `query.create`, as `_update_tags` chose. */
  function ItemStored(table: seq<Record>, key: Record, args: Record, item: Record): seq<Record> {
    Write(table, key, item, Updating(table, key, args))
  }

  /** `put_entity`: no ancestor to check; the entity is written (200) or the error reported (400). */
  function PutEntityOutcome(t: Tables, ent: string, args: Record, now: int, encode: Value -> string,
                            itemFault: Outcome): (r: (Response, Tables))
    ensures var w := Written(t.entities, EntityKey(ent), args, Ids(ent, "", ""), now, encode, itemFault);
      && (r.0.status == 200 <==> w.Success?)
      && (w.Failure? ==> r == (Response(ErrorBody(w.error), 400), t))
      && (w.Success? ==>
            && r.0.body == w.value
            && r.1 == t.(entities := ItemStored(t.entities, EntityKey(ent), args, w.value)))
    ensures TablesStored(t) ==> TablesStored(r.1)
  {
    var key := EntityKey(ent);
    match Written(t.entities, key, args, Ids(ent, "", ""), now, encode, itemFault)
    case Failure(e) => (Response(ErrorBody(e), 400), t)
    case Success(item) =>
      WriteKeepsStoredIf(t.entities, key, item, Updating(t.entities, key, args));
      (Response(item, 200), t.(entities := ItemStored(t.entities, key, args, item)))
  }

  /**
   * `put_environment`: the entity must exist (412 otherwise); then the
   * environment is written and a link to it stamped on the entity. A fault
   * in the environment write changes nothing; a fault in the link stamp
   * answers 400 with the environment already written.
   */
  function PutEnvironmentOutcome(t: Tables, ent: string, env: string, args: Record, now: int,
                                 endpoint: string, encode: Value -> string,
                                 itemFault: Outcome, linkFault: Outcome): (r: (Response, Tables))
    ensures r.0.status == 200 || r.0.status == 400 || r.0.status == 412
    ensures r.0.status == 412 <==> FirstWhere(t.entities, EntityKey(ent)).None?
    ensures r.0.status == 412 ==> r.1 == t && r.0.body == ErrorBody("Entity [" + ent + "] was not found")
    ensures var w := Written(t.environments, EnvironmentKey(ent, env), args, Ids(ent, env, ""), now, encode, itemFault);
      && (r.0.status == 200 <==> FirstWhere(t.entities, EntityKey(ent)).Some? && w.Success? && linkFault.Pass?)
      && (r.0.status == 400 ==> r.1.entities == t.entities && r.1.devices == t.devices)
      && (r.0.status == 400 && w.Failure? ==> r.0.body == ErrorBody(w.error) && r.1.environments == t.environments)
      && (r.0.status == 400 && w.Success? ==>
            r.0.body == ErrorBody(linkFault.message) && r.1.environments == ItemStored(t.environments, EnvironmentKey(ent, env), args, w.value))
      && (r.0.status == 200 ==>
            && r.0.body == w.value && r.1.devices == t.devices
            && r.1.environments == ItemStored(t.environments, EnvironmentKey(ent, env), args, w.value)
            && r.1.entities == Update(t.entities, EntityKey(ent), LinkFields(endpoint, env, w.value)))
    ensures TablesStored(t) ==> TablesStored(r.1)
  {
    var entKey := EntityKey(ent);
    if FirstWhere(t.entities, entKey).None? then
      (Response(ErrorBody("Entity [" + ent + "] was not found"), 412), t)
    else
      var key := EnvironmentKey(ent, env);
      match Written(t.environments, key, args, Ids(ent, env, ""), now, encode, itemFault)
      case Failure(e) => (Response(ErrorBody(e), 400), t)
      case Success(item) =>
        WriteKeepsStoredIf(t.environments, key, item, Updating(t.environments, key, args));
        var t1 := t.(environments := ItemStored(t.environments, key, args, item));
        if linkFault.Fail? then (Response(ErrorBody(linkFault.message), 400), t1)
        else
          WriteKeepsStoredIf(t.entities, entKey, LinkFields(endpoint, env, item), true);
          (Response(item, 200), t1.(entities := Update(t.entities, entKey, LinkFields(endpoint, env, item))))
  }

  /**
   * `put_device`: the environment must exist (checked by its id alone),
   * then the entity (412 otherwise, environment first); then the device is
   * written and a link to it stamped on the environment addressed by both
   * parent ids. A fault in the link stamp answers 400 with the device
   * already written.
   */
  function PutDeviceOutcome(t: Tables, ent: string, env: string, dev: string, args: Record, now: int,
                            endpoint: string, encode: Value -> string,
                            itemFault: Outcome, linkFault: Outcome): (r: (Response, Tables))
    ensures r.0.status == 200 || r.0.status == 400 || r.0.status == 412
    ensures r.0.status == 412 <==>
      FirstWhere(t.environments, map["env_id" := Str(env)]).None? || FirstWhere(t.entities, EntityKey(ent)).None?
    ensures FirstWhere(t.environments, map["env_id" := Str(env)]).None? ==>
      r.0.body == ErrorBody("Environment [" + env + "] was not found")
    ensures FirstWhere(t.environments, map["env_id" := Str(env)]).Some? && FirstWhere(t.entities, EntityKey(ent)).None? ==>
      r.0.body == ErrorBody("Entity [" + ent + "] was not found")
    ensures r.0.status == 412 ==> r.1 == t
    ensures var w := Written(t.devices, DeviceKey(ent, env, dev), args, Ids(ent, env, dev), now, encode, itemFault);
      && (r.0.status == 200 <==>
            && FirstWhere(t.environments, map["env_id" := Str(env)]).Some? && FirstWhere(t.entities, EntityKey(ent)).Some?
            && w.Success? && linkFault.Pass?)
      && (r.0.status == 400 ==> r.1.entities == t.entities && r.1.environments == t.environments)
      && (r.0.status == 400 && w.Failure? ==> r.0.body == ErrorBody(w.error) && r.1.devices == t.devices)
      && (r.0.status == 400 && w.Success? ==>
            r.0.body == ErrorBody(linkFault.message) && r.1.devices == ItemStored(t.devices, DeviceKey(ent, env, dev), args, w.value))
      && (r.0.status == 200 ==>
            && r.0.body == w.value && r.1.entities == t.entities
            && r.1.devices == ItemStored(t.devices, DeviceKey(ent, env, dev), args, w.value)
            && r.1.environments == Update(t.environments, EnvironmentKey(ent, env), LinkFields(endpoint, dev, w.value)))
    ensures TablesStored(t) ==> TablesStored(r.1)
  {
    if FirstWhere(t.environments, map["env_id" := Str(env)]).None? then
      (Response(ErrorBody("Environment [" + env + "] was not found"), 412), t)
    else if FirstWhere(t.entities, EntityKey(ent)).None? then
      (Response(ErrorBody("Entity [" + ent + "] was not found"), 412), t)
    else
      var key := DeviceKey(ent, env, dev);
      match Written(t.devices, key, args, Ids(ent, env, dev), now, encode, itemFault)
      case Failure(e) => (Response(ErrorBody(e), 400), t)
      case Success(item) =>
        WriteKeepsStoredIf(t.devices, key, item, Updating(t.devices, key, args));
        var t1 := t.(devices := ItemStored(t.devices, key, args, item));
        var parentKey := EnvironmentKey(ent, env);
        if linkFault.Fail? then (Response(ErrorBody(linkFault.message), 400), t1)
        else
          WriteKeepsStoredIf(t.environments, parentKey, LinkFields(endpoint, dev, item), true);
          (Response(item, 200), t1.(environments := Update(t.environments, parentKey, LinkFields(endpoint, dev, item))))
  }

  /** The outcome of `put_device` when its parents are present, by the result of the child write. */
  lemma PutDeviceOutcomeWrite(t: Tables, ent: string, env: string, dev: string, args: Record, now: int,
                                endpoint: string, encode: Value -> string, itemFault: Outcome, linkFault: Outcome, w: Result<Record>)
    requires FirstWhere(t.environments, map["env_id" := Str(env)]).Some? && FirstWhere(t.entities, EntityKey(ent)).Some?
    requires w == Written(t.devices, DeviceKey(ent, env, dev), args, Ids(ent, env, dev), now, encode, itemFault)
    ensures
      && (w.Failure? ==> PutDeviceOutcome(t, ent, env, dev, args, now, endpoint, encode, itemFault, linkFault) == (Response(ErrorBody(w.error), 400), t))
      && (w.Success? && linkFault.Fail? ==>
            PutDeviceOutcome(t, ent, env, dev, args, now, endpoint, encode, itemFault, linkFault)
            == (Response(ErrorBody(linkFault.message), 400), t.(devices := ItemStored(t.devices, DeviceKey(ent, env, dev), args, w.value))))
      && (w.Success? && linkFault.Pass? ==>
            PutDeviceOutcome(t, ent, env, dev, args, now, endpoint, encode, itemFault, linkFault)
            == (Response(w.value, 200),
                t.(devices := ItemStored(t.devices, DeviceKey(ent, env, dev), args, w.value),
                   environments := Update(t.environments, EnvironmentKey(ent, env), LinkFields(endpoint, dev, w.value)))))
  {
  }

  /** `WriteKeepsStored`, for a filter made of key columns (which never hold `vars`). */
  lemma WriteKeepsStoredIf(table: seq<Record>, filter: Record, fields: Record, update: bool)
    requires "vars" !in filter
    ensures AllStored(table) && StoredForm(fields) ==> AllStored(Write(table, filter, fields, update))
  {
    if AllStored(table) && StoredForm(fields) {
      WriteKeepsStored(table, filter, fields, update);
    }
  }

  /** Popping one hint leaves what another hint reads unchanged. */
  lemma HintItemFrame(query: Record, popped: string, hint: string, parent: string)
    requires popped != hint
    ensures HintItem(query - {popped}, hint, parent) == HintItem(query, hint, parent)
  {
  }

  class Driver {
    /** The request's filter map, which the read path consumes. */
    var query: Record
    var entities: seq<Record>
    var environments: seq<Record>
    var devices: seq<Record>
    /** The service's base address, used to build links. */
    const endpoint: string
    /** `json.loads`, undefined where it raises. */
    const decode: string -> Option<Value>
    /** `json.dumps`. */
    const encode: Value -> string

    predicate Valid()
      reads this
    {
      TablesStored(Tables(entities, environments, devices))
    }

    constructor (endpoint: string, query: Record, decode: string -> Option<Value>, encode: Value -> string)
      ensures Valid()
      ensures this.endpoint == endpoint && this.query == query
      ensures this.decode == decode && this.encode == encode
      ensures entities == [] && environments == [] && devices == []
    {
      this.endpoint := endpoint;
      this.query := query;
      this.decode := decode;
      this.encode := encode;
      entities := [];
      environments := [];
      devices := [];
    }

    /** `self.query.pop(key, None)` */
    method Pop(key: string) returns (v: Option<Value>)
      modifies this`query
      ensures v == Get(old(query), key)
      ensures query == old(query) - {key}
    {
      v := Get(query, key);
      query := query - {key};
    }

    /** One entry of `search_dict`: pops `hint` and yields `(parent, value)` when the value is truthy. */
    method PopHint(hint: string, parent: string) returns (item: seq<(string, Value)>)
      modifies this`query
      ensures item == HintItem(old(query), hint, parent)
      ensures query == old(query) - {hint}
    {
      var v := Pop(hint);
      item := if v.Some? && Truthy(v.value) then [(parent, v.value)] else [];
    }

    /**
     * The `search_dict` pops: each of the five hints is taken out of the
     * request, and the truthy ones become (record field, value) pairs in
     * the order tag, port, var, link, contact.
     */
    method PopSearchItems() returns (searchItems: seq<(string, Value)>)
      modifies this`query
      ensures searchItems == SearchItems(old(query))
      ensures query == old(query) - {"tag", "port", "var", "link", "contact"}
    {
      ghost var q0 := query;
      var tag := PopHint("tag", "tags");
      ghost var q1 := query;
      var port := PopHint("port", "ports");
      ghost var q2 := query;
      var varHint := PopHint("var", "vars");
      ghost var q3 := query;
      var link := PopHint("link", "links");
      ghost var q4 := query;
      var contact := PopHint("contact", "contacts");
      HintItemFrame(q0, "tag", "port", "ports");
      HintItemFrame(q1, "port", "var", "vars");
      HintItemFrame(q0, "tag", "var", "vars");
      HintItemFrame(q2, "var", "link", "links");
      HintItemFrame(q1, "port", "link", "links");
      HintItemFrame(q0, "tag", "link", "links");
      HintItemFrame(q3, "link", "contact", "contacts");
      HintItemFrame(q2, "var", "contact", "contacts");
      HintItemFrame(q1, "port", "contact", "contacts");
      HintItemFrame(q0, "tag", "contact", "contacts");
      searchItems := tag + port + varHint + link + contact;
      assert query == q0 - {"tag", "port", "var", "link", "contact"};
    }

    /** The `lookup_params` of `_get_search`: the truthy identifiers under their column names. */
    static method IdLookup(ent: string, env: string, dev: string) returns (lookupParams: Record)
      ensures lookupParams == IdFilter(ent, env, dev)
    {
      lookupParams := map[];
      if ent != "" {
        lookupParams := lookupParams["ent_id" := Str(ent)];
      }
      if env != "" {
        lookupParams := lookupParams["env_id" := Str(env)];
      }
      if dev != "" {
        lookupParams := lookupParams["dev_id" := Str(dev)];
      }
    }

    /**
     * `_get_search` over `table`: pops the hints and `fuzzy`, then either
     * fetches the one record the identifiers address or scans and filters.
     * On the scan path the request map ends up holding the rekeyed hints,
     * because `_search` writes them into it.
     */
    method GetSearch(table: seq<Record>, ent: string, env: string, dev: string, fetch: Outcome)
      returns (result: seq<Record>)
      requires AllStored(table)
      modifies this`query
      ensures result == SearchResult(table, old(query), ent, env, dev, fetch, decode)
      ensures query == if DirectFetch(old(query), ent, env, dev) then Popped(old(query)) else LookupParams(old(query))
    {
      ghost var q0 := query;
      var searchItems := PopSearchItems();
      var lookupParams := IdLookup(ent, env, dev);
      var fuzzyHint := Pop("fuzzy");
      var fuzzy := fuzzyHint.Some? && Truthy(fuzzyHint.value);
      assert fuzzy == FuzzyFlag(q0);
      assert query == Popped(q0);

      var candidates := Where(table, lookupParams);
      WhereStored(table, lookupParams);
      if (ent != "" || env != "" || dev != "") && !fuzzy {
        if fetch.Fail? || |candidates| != 1 {
          return [];
        }
        var item := ConvertFromJson(candidates[0], decode);
        return [item];
      }
      var found, lookup := SearchRows(candidates, searchItems, query, fuzzy, decode);
      query := lookup;
      result := found;
    }

    /** `get_entity` */
    method GetEntity(ent: string, fetch: Outcome) returns (result: seq<Record>)
      requires Valid()
      modifies this`query
      ensures result == SearchResult(entities, old(query), ent, "", "", fetch, decode)
      ensures query == if DirectFetch(old(query), ent, "", "") then Popped(old(query)) else LookupParams(old(query))
    {
      result := GetSearch(entities, ent, "", "", fetch);
    }

    /** `get_environment` */
    method GetEnvironment(ent: string, env: string, fetch: Outcome) returns (result: seq<Record>)
      requires Valid()
      modifies this`query
      ensures result == SearchResult(environments, old(query), ent, env, "", fetch, decode)
      ensures query == if DirectFetch(old(query), ent, env, "") then Popped(old(query)) else LookupParams(old(query))
    {
      result := GetSearch(environments, ent, env, "", fetch);
    }

    /** `get_device` */
    method GetDevice(ent: string, env: string, dev: string, fetch: Outcome) returns (result: seq<Record>)
      requires Valid()
      modifies this`query
      ensures result == SearchResult(devices, old(query), ent, env, dev, fetch, decode)
      ensures query == if DirectFetch(old(query), ent, env, dev) then Popped(old(query)) else LookupParams(old(query))
    {
      result := GetSearch(devices, ent, env, dev, fetch);
    }

    /**
     * The write step shared by the `put_*` methods: coalesce the tags
     * against the addressed row, prepare the payload and check it the way
     * the mapper does.
     */
    method WriteItem(table: seq<Record>, key: Record, args: Record, ids: Ids, now: int, fault: Outcome)
      returns (r: Result<Record>, update: bool)
      ensures r == Written(table, key, args, ids, now, encode, fault)
      ensures update == Updating(table, key, args)
    {
      var merged;
      merged, update := UpdateTags(FirstWhere(table, key), args).0, UpdateTags(FirstWhere(table, key), args).1;
      r := PrepareItem(merged, ids, update, now, encode);
      if r.Success? {
        if !Writable(key, r.value, update) {
          r := Failure(RejectedMessage);
        } else if fault.Fail? {
          r := Failure(fault.message);
        }
      }
    }

    /** `put_entity` */
    method PutEntity(ent: string, args: Record, now: int, itemFault: Outcome) returns (r: Response)
      requires Valid()
      modifies this`entities
      ensures Valid()
      ensures (r, Tables(entities, environments, devices))
           == PutEntityOutcome(Tables(old(entities), environments, devices), ent, args, now, encode, itemFault)
    {
      var key := EntityKey(ent);
      var item, update := WriteItem(entities, key, args, Ids(ent, "", ""), now, itemFault);
      if item.Failure? {
        return Response(ErrorBody(item.error), 400);
      }
      WriteKeepsStoredIf(entities, key, item.value, update);
      entities := Write(entities, key, item.value, update);
      r := Response(item.value, 200);
    }

    /** `put_environment` */
    method PutEnvironment(ent: string, env: string, args: Record, now: int, itemFault: Outcome, linkFault: Outcome)
      returns (r: Response)
      requires Valid()
      modifies this`entities, this`environments
      ensures Valid()
      ensures (r, Tables(entities, environments, devices))
           == PutEnvironmentOutcome(Tables(old(entities), old(environments), devices), ent, env, args, now,
                                    endpoint, encode, itemFault, linkFault)
    {
      var entKey := EntityKey(ent);
      if FirstWhere(entities, entKey).None? {
        return Response(ErrorBody("Entity [" + ent + "] was not found"), 412);
      }
      var key := EnvironmentKey(ent, env);
      var item, update := WriteItem(environments, key, args, Ids(ent, env, ""), now, itemFault);
      if item.Failure? {
        return Response(ErrorBody(item.error), 400);
      }
      WriteKeepsStoredIf(environments, key, item.value, update);
      environments := Write(environments, key, item.value, update);
      if linkFault.Fail? {
        return Response(ErrorBody(linkFault.message), 400);
      }
      WriteKeepsStoredIf(entities, entKey, LinkFields(endpoint, env, item.value), true);
      entities := Update(entities, entKey, LinkFields(endpoint, env, item.value));
      r := Response(item.value, 200);
    }

    /** `put_device` */
    method PutDevice(ent: string, env: string, dev: string, args: Record, now: int,
                     itemFault: Outcome, linkFault: Outcome)
      returns (r: Response)
      requires Valid()
      modifies this`environments, this`devices
      ensures Valid()
      ensures (r, Tables(entities, environments, devices))
           == PutDeviceOutcome(Tables(entities, old(environments), old(devices)), ent, env, dev, args, now,
                               endpoint, encode, itemFault, linkFault)
    {
      if FirstWhere(environments, map["env_id" := Str(env)]).None? {
        return Response(ErrorBody("Environment [" + env + "] was not found"), 412);
      }
      if FirstWhere(entities, EntityKey(ent)).None? {
        return Response(ErrorBody("Entity [" + ent + "] was not found"), 412);
      }
      r := StoreDevice(ent, env, dev, args, now, itemFault, linkFault);
    }

    /** The part of `put_device` after both parents were found: the device write, then the link stamp. */
    method StoreDevice(ent: string, env: string, dev: string, args: Record, now: int,
                       itemFault: Outcome, linkFault: Outcome)
      returns (r: Response)
      requires Valid()
      requires FirstWhere(environments, map["env_id" := Str(env)]).Some? && FirstWhere(entities, EntityKey(ent)).Some?
      modifies this`environments, this`devices
      ensures Valid()
      ensures (r, Tables(entities, environments, devices))
           == PutDeviceOutcome(Tables(entities, old(environments), old(devices)), ent, env, dev, args, now,
                               endpoint, encode, itemFault, linkFault)
    {
      var key := DeviceKey(ent, env, dev);
      var item, update := WriteItem(devices, key, args, Ids(ent, env, dev), now, itemFault);
      PutDeviceOutcomeWrite(Tables(entities, environments, devices), ent, env, dev, args, now, endpoint, encode, itemFault, linkFault, item);
      if item.Failure? {
        return Response(ErrorBody(item.error), 400);
      }
      devices := Write(devices, key, item.value, update);
      if linkFault.Fail? {
        return Response(ErrorBody(linkFault.message), 400);
      }
      var parentKey := EnvironmentKey(ent, env);
      environments := Update(environments, parentKey, LinkFields(endpoint, dev, item.value));
      r := Response(item.value, 200);
    }
  }
}
