/**
 * Properties of the write sequence (`put_entity`, `put_environment`,
 * `put_device`) stated on the outcome functions the driver's methods are
 * proved against.
 */
module WriteProperties {
  import opened Values
  import opened Normalize
  import opened Store
  import opened Search
  import opened WriteMerge
  import opened Driver

  /**
   * `parent` carries `link` under `childId` and the stamp `time`, and
   * keeps every other link and every other column `before` had.
   */
  ghost predicate LinkStamped(parent: Record, before: Option<Record>, childId: string, link: string, time: Value) {
    && "links" in parent && parent["links"].Dict?
    && DictGet(parent["links"].entries, childId) == Some(Str(link))
    && "updated_at" in parent && parent["updated_at"] == time
    && (before.Some? ==>
          && (forall f | f in before.value && f != "links" && f != "updated_at" :: f in parent && parent[f] == before.value[f])
          && ("links" in before.value && before.value["links"].Dict? ==>
                forall k | k != childId :: DictGet(parent["links"].entries, k) == DictGet(before.value["links"].entries, k)))
  }

  /**
   * After a link stamp, a fetch by the parent's filter finds the link under
   * the child's id and the child's time, next to every link and column the
   * parent had before.
   */
  lemma LinkLands(table: seq<Record>, parentKey: Record, endpoint: string, childId: string, item: Record)
    requires "updated_at" in item && item["updated_at"].Int?
    requires "links" !in parentKey && "updated_at" !in parentKey
    ensures FirstWhere(Update(table, parentKey, LinkFields(endpoint, childId, item)), parentKey).Some?
    ensures LinkStamped(FirstWhere(Update(table, parentKey, LinkFields(endpoint, childId, item)), parentKey).value,
                        FirstWhere(table, parentKey), childId, LinkFor(endpoint, childId), item["updated_at"])
  {
    var links := LinkFields(endpoint, childId, item);
    var entries := [(childId, Str(LinkFor(endpoint, childId)))];
    assert links["links"] == Dict(entries);
    assert forall k :: DictGet(entries, k) == if k == childId then Some(Str(LinkFor(endpoint, childId))) else None by {
      forall k ensures DictGet(entries, k) == if k == childId then Some(Str(LinkFor(endpoint, childId))) else None {
        assert entries[1..] == [];
      }
    }
    WriteLands(table, parentKey, links, true);
  }

  /** Two link stamps on one entity leave both links side by side. */
  lemma SecondLinkKeepsFirst()
    ensures var t0 := [map["ent_id" := Str("e")]];
      var t1 := Update(t0, EntityKey("e"), LinkFields("https://x", "v1", map["updated_at" := Int(1)]));
      var t2 := Update(t1, EntityKey("e"), LinkFields("https://x", "v2", map["updated_at" := Int(2)]));
      && FirstWhere(t2, EntityKey("e")).Some?
      && var parent := FirstWhere(t2, EntityKey("e")).value;
         && "links" in parent && parent["links"].Dict?
         && DictGet(parent["links"].entries, "v1") == Some(Str(LinkFor("https://x", "v1")))
         && DictGet(parent["links"].entries, "v2") == Some(Str(LinkFor("https://x", "v2")))
  {
    var t0 := [map["ent_id" := Str("e")]];
    var t1 := Update(t0, EntityKey("e"), LinkFields("https://x", "v1", map["updated_at" := Int(1)]));
    LinkLands(t0, EntityKey("e"), "https://x", "v1", map["updated_at" := Int(1)]);
    LinkLands(t1, EntityKey("e"), "https://x", "v2", map["updated_at" := Int(2)]);
  }

  /**
   * A successful `put_entity` can be read back: the entity row shows every
   * field of the response body (map columns hold every entry of the body's
   * map), and when the entity was updated it keeps every column and map
   * entry the body does not overwrite.
   */
  lemma PutEntityThenFetch(t: Tables, ent: string, args: Record, now: int, encode: Value -> string, itemFault: Outcome)
    requires PutEntityOutcome(t, ent, args, now, encode, itemFault).0.status == 200
    ensures var out := PutEntityOutcome(t, ent, args, now, encode, itemFault);
      && FirstWhere(out.1.entities, EntityKey(ent)).Some?
      && var row := FirstWhere(out.1.entities, EntityKey(ent)).value;
         && "updated_at" in row && row["updated_at"] == Int(now)
         && Holds(row, out.0.body)
         && (Updating(t.entities, EntityKey(ent), args) ==>
               Keeps(row, FirstWhere(t.entities, EntityKey(ent)).value, out.0.body))
  {
    var key := EntityKey(ent);
    var w := Written(t.entities, key, args, Ids(ent, "", ""), now, encode, itemFault);
    WriteLands(t.entities, key, w.value, Updating(t.entities, key, args));
  }

  /**
   * A successful `put_environment` can be read back as `put_entity` can,
   * and the entity now carries the link to the environment, stamped with
   * the environment's time, next to every link it had.
   */
  lemma PutEnvironmentThenFetch(t: Tables, ent: string, env: string, args: Record, now: int,
                                endpoint: string, encode: Value -> string, itemFault: Outcome, linkFault: Outcome)
    requires PutEnvironmentOutcome(t, ent, env, args, now, endpoint, encode, itemFault, linkFault).0.status == 200
    ensures var out := PutEnvironmentOutcome(t, ent, env, args, now, endpoint, encode, itemFault, linkFault);
      && FirstWhere(out.1.environments, EnvironmentKey(ent, env)).Some?
      && (var row := FirstWhere(out.1.environments, EnvironmentKey(ent, env)).value;
          && "updated_at" in row && row["updated_at"] == Int(now)
          && Holds(row, out.0.body)
          && (Updating(t.environments, EnvironmentKey(ent, env), args) ==>
                Keeps(row, FirstWhere(t.environments, EnvironmentKey(ent, env)).value, out.0.body)))
      && FirstWhere(out.1.entities, EntityKey(ent)).Some?
      && LinkStamped(FirstWhere(out.1.entities, EntityKey(ent)).value, FirstWhere(t.entities, EntityKey(ent)),
                     env, LinkFor(endpoint, env), Int(now))
  {
    var key := EnvironmentKey(ent, env);
    var w := Written(t.environments, key, args, Ids(ent, env, ""), now, encode, itemFault);
    WriteLands(t.environments, key, w.value, Updating(t.environments, key, args));
    LinkLands(t.entities, EntityKey(ent), endpoint, env, w.value);
  }

  /** The device half of `PutDeviceThenFetch`. */
  lemma PutDeviceRowLands(t: Tables, ent: string, env: string, dev: string, args: Record, now: int,
                           endpoint: string, encode: Value -> string, itemFault: Outcome, linkFault: Outcome)
    requires PutDeviceOutcome(t, ent, env, dev, args, now, endpoint, encode, itemFault, linkFault).0.status == 200
    ensures var out := PutDeviceOutcome(t, ent, env, dev, args, now, endpoint, encode, itemFault, linkFault);
      && FirstWhere(out.1.devices, DeviceKey(ent, env, dev)).Some?
      && (var row := FirstWhere(out.1.devices, DeviceKey(ent, env, dev)).value;
          && "updated_at" in row && row["updated_at"] == Int(now)
          && Holds(row, out.0.body)
          && (Updating(t.devices, DeviceKey(ent, env, dev), args) ==>
                Keeps(row, FirstWhere(t.devices, DeviceKey(ent, env, dev)).value, out.0.body)))
  {
    var key := DeviceKey(ent, env, dev);
    var w := Written(t.devices, key, args, Ids(ent, env, dev), now, encode, itemFault);
    WriteLands(t.devices, key, w.value, Updating(t.devices, key, args));
  }

  /** The environment half of `PutDeviceThenFetch`. */
  lemma PutDeviceLinkLands(t: Tables, ent: string, env: string, dev: string, args: Record, now: int,
                           endpoint: string, encode: Value -> string, itemFault: Outcome, linkFault: Outcome)
    requires PutDeviceOutcome(t, ent, env, dev, args, now, endpoint, encode, itemFault, linkFault).0.status == 200
    ensures var out := PutDeviceOutcome(t, ent, env, dev, args, now, endpoint, encode, itemFault, linkFault);
      && FirstWhere(out.1.environments, EnvironmentKey(ent, env)).Some?
      && LinkStamped(FirstWhere(out.1.environments, EnvironmentKey(ent, env)).value,
                     FirstWhere(t.environments, EnvironmentKey(ent, env)), dev, LinkFor(endpoint, dev), Int(now))
  {
    var w := Written(t.devices, DeviceKey(ent, env, dev), args, Ids(ent, env, dev), now, encode, itemFault);
    LinkLands(t.environments, EnvironmentKey(ent, env), endpoint, dev, w.value);
  }

  /**
   * A successful `put_device` can be read back as `put_entity` can, and
   * the environment addressed by both parent ids now carries the link to
   * the device, stamped with the device's time, next to every link it had.
   */
  lemma PutDeviceThenFetch(t: Tables, ent: string, env: string, dev: string, args: Record, now: int,
                           endpoint: string, encode: Value -> string, itemFault: Outcome, linkFault: Outcome)
    requires PutDeviceOutcome(t, ent, env, dev, args, now, endpoint, encode, itemFault, linkFault).0.status == 200
    ensures var out := PutDeviceOutcome(t, ent, env, dev, args, now, endpoint, encode, itemFault, linkFault);
      && FirstWhere(out.1.devices, DeviceKey(ent, env, dev)).Some?
      && (var row := FirstWhere(out.1.devices, DeviceKey(ent, env, dev)).value;
          && "updated_at" in row && row["updated_at"] == Int(now)
          && Holds(row, out.0.body)
          && (Updating(t.devices, DeviceKey(ent, env, dev), args) ==>
                Keeps(row, FirstWhere(t.devices, DeviceKey(ent, env, dev)).value, out.0.body)))
      && FirstWhere(out.1.environments, EnvironmentKey(ent, env)).Some?
      && LinkStamped(FirstWhere(out.1.environments, EnvironmentKey(ent, env)).value,
                     FirstWhere(t.environments, EnvironmentKey(ent, env)), dev, LinkFor(endpoint, dev), Int(now))
  {
    PutDeviceRowLands(t, ent, env, dev, args, now, endpoint, encode, itemFault, linkFault);
    PutDeviceLinkLands(t, ent, env, dev, args, now, endpoint, encode, itemFault, linkFault);
  }

  /**
   * On the update path the written payload's tags are the stored tags
   * together with the incoming ones, each once.
   */
  lemma UpdateCoalescesTags(table: seq<Record>, key: Record, args: Record, ids: Ids, now: int,
                            encode: Value -> string, fault: Outcome)
    requires Written(table, key, args, ids, now, encode, fault).Success?
    requires UpdateTags(FirstWhere(table, key), args).1
    ensures var item := Written(table, key, args, ids, now, encode, fault).value;
      && "tags" in item && item["tags"].List? && NoDup(item["tags"].items)
      && forall x :: x in item["tags"].items <==>
           x in StoredTags(FirstWhere(table, key).value).value || x in IncomingTags(args).value
  {
    var merged := UpdateTags(FirstWhere(table, key), args).0;
    assert "tags" in merged;
  }

  /**
   * A `put_device` that updates an existing device keeps every tag the
   * device had and adds the incoming ones.
   */
  lemma PutDeviceAccumulatesTags(t: Tables, ent: string, env: string, dev: string, args: Record, now: int,
                                 endpoint: string, encode: Value -> string, itemFault: Outcome, linkFault: Outcome)
    requires PutDeviceOutcome(t, ent, env, dev, args, now, endpoint, encode, itemFault, linkFault).0.status == 200
    requires UpdateTags(FirstWhere(t.devices, DeviceKey(ent, env, dev)), args).1
    ensures var t2 := PutDeviceOutcome(t, ent, env, dev, args, now, endpoint, encode, itemFault, linkFault).1;
      && FirstWhere(t2.devices, DeviceKey(ent, env, dev)).Some?
      && var row := FirstWhere(t2.devices, DeviceKey(ent, env, dev)).value;
         && "tags" in row && row["tags"].List?
         && forall x :: x in row["tags"].items <==>
              x in StoredTags(FirstWhere(t.devices, DeviceKey(ent, env, dev)).value).value || x in IncomingTags(args).value
  {
    var key := DeviceKey(ent, env, dev);
    UpdateCoalescesTags(t.devices, key, args, Ids(ent, env, dev), now, encode, itemFault);
    PutDeviceThenFetch(t, ent, env, dev, args, now, endpoint, encode, itemFault, linkFault);
  }

  /** Into an empty device table, a successful `put_device` writes exactly the response body, as a new row. */
  lemma FirstDeviceWrite(t: Tables, ent: string, env: string, dev: string, args: Record, now: int,
                         endpoint: string, encode: Value -> string, itemFault: Outcome, linkFault: Outcome)
    requires t.devices == []
    requires PutDeviceOutcome(t, ent, env, dev, args, now, endpoint, encode, itemFault, linkFault).0.status == 200
    ensures var out := PutDeviceOutcome(t, ent, env, dev, args, now, endpoint, encode, itemFault, linkFault);
      && out.1.devices == [out.0.body]
      && Fits(out.0.body, DeviceKey(ent, env, dev))
      && (ent != "" && env != "" && dev != "" ==> Fits(out.0.body, IdFilter(ent, env, dev)))
      && StoredForm(out.0.body)
  {
    var key := DeviceKey(ent, env, dev);
    var w := Written(t.devices, key, args, Ids(ent, env, dev), now, encode, itemFault);
    assert w.Success? && linkFault.Pass?;
    var item := w.value;
    assert FirstWhere(t.devices, key) == None;
    assert Writable(key, item, false);
    CreateAddsRow(t.devices, key, item);
    assert ItemStored(t.devices, key, args, item) == [item];
    if ent != "" && env != "" && dev != "" {
      IdFilterAllGiven(ent, env, dev);
    }
  }

  /**
   * The first device written under an environment is what a direct fetch
   * by its three ids returns, normalised.
   */
  lemma FirstDeviceIsFoundById(t: Tables, ent: string, env: string, dev: string, args: Record, now: int,
                               endpoint: string, encode: Value -> string, itemFault: Outcome, linkFault: Outcome,
                               query: Record, decode: string -> Option<Value>)
    requires t.devices == []
    requires ent != "" && env != "" && dev != ""
    requires !FuzzyFlag(query)
    requires PutDeviceOutcome(t, ent, env, dev, args, now, endpoint, encode, itemFault, linkFault).0.status == 200
    ensures var out := PutDeviceOutcome(t, ent, env, dev, args, now, endpoint, encode, itemFault, linkFault);
      && AllStored(out.1.devices) && StoredForm(out.0.body)
      && SearchResult(out.1.devices, query, ent, env, dev, Pass, decode) == [NormalizedRecord(out.0.body, decode)]
  {
    FirstDeviceWrite(t, ent, env, dev, args, now, endpoint, encode, itemFault, linkFault);
    DirectFetchOfOnlyRow(PutDeviceOutcome(t, ent, env, dev, args, now, endpoint, encode, itemFault, linkFault).0.body,
                         query, ent, env, dev, decode);
  }

  /**
   * `put_device` checks the environment by its id alone but stamps the link
   * on the row addressed by both parent ids: when the environment id exists
   * only under another entity, the stamp adds a new environment row that
   * holds nothing but the keys, the link and the time.
   */
  lemma DeviceLinkMayAddEnvironment(t: Tables, ent: string, env: string, dev: string, args: Record, now: int,
                                    endpoint: string, encode: Value -> string, itemFault: Outcome, linkFault: Outcome)
    requires FirstWhere(t.environments, EnvironmentKey(ent, env)).None?
    requires PutDeviceOutcome(t, ent, env, dev, args, now, endpoint, encode, itemFault, linkFault).0.status == 200
    ensures var out := PutDeviceOutcome(t, ent, env, dev, args, now, endpoint, encode, itemFault, linkFault); var r := out.0; var t2 := out.1;
      && |t2.environments| == |t.environments| + 1
      && t2.environments[..|t.environments|] == t.environments
      && t2.environments[|t.environments|].Keys == {"env_id", "ent_id", "links", "updated_at"}
  {
  }

  /** The situation above arises: the environment exists, but under another entity. */
  lemma EnvironmentUnderAnotherEntity()
    ensures var t := Tables([map["ent_id" := Str("e1")]], [map["env_id" := Str("v"), "ent_id" := Str("e2")]], []);
      && FirstWhere(t.environments, map["env_id" := Str("v")]).Some?
      && FirstWhere(t.entities, EntityKey("e1")).Some?
      && FirstWhere(t.environments, EnvironmentKey("e1", "v")).None?
  {
    var t := Tables([map["ent_id" := Str("e1")]], [map["env_id" := Str("v"), "ent_id" := Str("e2")]], []);
    assert Fits(t.environments[0], map["env_id" := Str("v")]);
    assert Fits(t.entities[0], EntityKey("e1"));
    assert !Fits(t.environments[0], EnvironmentKey("e1", "v")) by {
      assert t.environments[0]["ent_id"] != Str("e1");
    }
  }
}
