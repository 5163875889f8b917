/**
 * The storage layer as the driver uses it: a table is its rows in the
 * order a full scan returns them, a query is a set of field=value
 * constraints, and a write names the columns it sets. Both the update and
 * the insert statement behave as an upsert of the named columns; they
 * differ on map columns, which an insert replaces whole and an update
 * extends entry by entry.
 */
module Store {
  import opened Values
  import opened Normalize

  /** A row meets a query filter when it holds every filtered field with the filtered value. */
  predicate Fits(row: Record, filter: Record) {
    forall f | f in filter :: f in row && row[f] == filter[f]
  }

  predicate AnyFits(table: seq<Record>, filter: Record) {
    exists i | 0 <= i < |table| :: Fits(table[i], filter)
  }

  predicate AllStored(table: seq<Record>) {
    forall i | 0 <= i < |table| :: StoredForm(table[i])
  }

  /** `a` is `b` with some rows left out, the rest kept in order. */
  predicate IsSubsequence(a: seq<Record>, b: seq<Record>)
    decreases |b|
  {
    a == [] || (b != [] && ((a[0] == b[0] && IsSubsequence(a[1..], b[1..])) || IsSubsequence(a, b[1..])))
  }

  /**
   * `objects.filter(**filter)` (or `objects()` for an empty filter): the
   * fitting rows, in table order, each as often as the table holds it.
   */
  function Where(table: seq<Record>, filter: Record): (out: seq<Record>)
    ensures |out| <= |table|
    ensures forall r :: r in out <==> r in table && Fits(r, filter)
    ensures IsSubsequence(out, table)
    ensures forall r :: multiset(out)[r] == if Fits(r, filter) then multiset(table)[r] else 0
  {
    if table == [] then []
    else
      var rest := Where(table[1..], filter);
      assert table == [table[0]] + table[1..];
      if Fits(table[0], filter) then
        assert ([table[0]] + rest)[1..] == rest;
        [table[0]] + rest
      else rest
  }

  /** `objects(**filter).limit(1).get()`: the first fitting row, or nothing when none fits. */
  function FirstWhere(table: seq<Record>, filter: Record): (r: Option<Record>)
    ensures r.Some? <==> AnyFits(table, filter)
    ensures r.Some? ==> r.value in table && Fits(r.value, filter)
  {
    if table == [] then None
    else if Fits(table[0], filter) then Some(table[0])
    else
      assert forall i :: 1 <= i < |table| ==> table[1..][i - 1] == table[i];
      FirstWhere(table[1..], filter)
  }

  /** The position of the first fitting row. */
  function FirstIndex(table: seq<Record>, filter: Record): (k: int)
    requires AnyFits(table, filter)
    ensures 0 <= k < |table| && Fits(table[k], filter)
    ensures forall j :: 0 <= j < k ==> !Fits(table[j], filter)
  {
    if Fits(table[0], filter) then 0
    else
      assert AnyFits(table[1..], filter) by {
        var i :| 0 <= i < |table| && Fits(table[i], filter);
        assert table[1..][i - 1] == table[i];
      }
      1 + FirstIndex(table[1..], filter)
  }

  lemma {:induction false} FirstWhereAt(table: seq<Record>, filter: Record, k: int)
    requires 0 <= k < |table| && Fits(table[k], filter)
    requires forall j :: 0 <= j < k ==> !Fits(table[j], filter)
    ensures FirstWhere(table, filter) == Some(table[k])
    decreases k
  {
    if k > 0 {
      FirstWhereAt(table[1..], filter, k - 1);
    }
  }

  /** The fields a write sets agree with the filter it is addressed by. */
  predicate Compatible(filter: Record, fields: Record) {
    forall f | f in filter && f in fields :: fields[f] == filter[f]
  }

  /**
   * An insert (`create`) of `fields` addressed by `filter`: every fitting
   * row gets the fields, each named column replaced whole; when no row
   * fits, a row made of the filter's key fields and the written fields is
   * added.
   */
  function Insert(table: seq<Record>, filter: Record, fields: Record): seq<Record> {
    if AnyFits(table, filter) then
      seq(|table|, i requires 0 <= i < |table| => if Fits(table[i], filter) then table[i] + fields else table[i])
    else
      table + [filter + fields]
  }

  lemma MergeKeepsFit(row: Record, filter: Record, fields: Record)
    requires Fits(row, filter) && Compatible(filter, fields)
    ensures Fits(row + fields, filter)
  {
  }

  /**
   * After a write, a fetch by the same filter returns the row as written:
   * the first row that fitted, with the fields laid over it, or the new
   * row when none fitted.
   */
  lemma InsertThenFetch(table: seq<Record>, filter: Record, fields: Record)
    requires Compatible(filter, fields)
    ensures FirstWhere(Insert(table, filter, fields), filter) ==
      match FirstWhere(table, filter)
      case Some(r) => Some(r + fields)
      case None => Some(filter + fields)
  {
    var t := Insert(table, filter, fields);
    if AnyFits(table, filter) {
      var k := FirstIndex(table, filter);
      FirstWhereAt(table, filter, k);
      MergeKeepsFit(table[k], filter, fields);
      FirstWhereAt(t, filter, k);
    } else {
      assert Fits(filter + fields, filter);
      assert forall j :: 0 <= j < |table| ==> t[j] == table[j];
      FirstWhereAt(t, filter, |table|);
    }
  }

  /** A write leaves every row that does not fit its filter where and as it was. */
  lemma InsertFrame(table: seq<Record>, filter: Record, fields: Record)
    ensures |Insert(table, filter, fields)| == |table| + (if AnyFits(table, filter) then 0 else 1)
    ensures forall i :: 0 <= i < |table| && !Fits(table[i], filter) ==> Insert(table, filter, fields)[i] == table[i]
  {
  }

  lemma MergeStored(row: Record, fields: Record)
    requires StoredForm(row) && StoredForm(fields)
    ensures StoredForm(row + fields)
  {
    if "vars" in fields {
      assert (row + fields)["vars"] == fields["vars"];
    } else if "vars" in row {
      assert (row + fields)["vars"] == row["vars"];
    }
  }

  /** Writes in stored form keep a table in stored form. */
  lemma InsertKeepsStored(table: seq<Record>, filter: Record, fields: Record)
    requires AllStored(table) && StoredForm(filter) && StoredForm(fields)
    ensures AllStored(Insert(table, filter, fields))
  {
    var t := Insert(table, filter, fields);
    forall i | 0 <= i < |t| ensures StoredForm(t[i]) {
      if i < |table| {
        if Fits(table[i], filter) && AnyFits(table, filter) {
          MergeStored(table[i], fields);
        }
      } else {
        MergeStored(filter, fields);
      }
    }
  }

  /** The first fitting row is the head of the fitting rows. */
  lemma {:induction false} FirstWhereIsHeadOfWhere(table: seq<Record>, filter: Record)
    ensures FirstWhere(table, filter) == if Where(table, filter) == [] then None else Some(Where(table, filter)[0])
  {
    if table != [] {
      FirstWhereIsHeadOfWhere(table[1..], filter);
    }
  }

  /** A create that names every filtered column with its filtered value adds exactly the written row. */
  lemma CreateAddsRow(table: seq<Record>, filter: Record, fields: Record)
    requires !AnyFits(table, filter)
    requires Compatible(filter, fields) && filter.Keys <= fields.Keys
    ensures Fits(fields, filter)
    ensures Insert(table, filter, fields) == table + [fields]
  {
    assert filter + fields == fields;
  }

  // ---------------------------------------------------------------------
  // Map columns under an update

  /** The value a map holds under key `k`: the last entry under `k` wins, as in `dict(pairs)`. */
  function DictGet(entries: seq<(string, Value)>, k: string): Option<Value> {
    if entries == [] then None
    else match DictGet(entries[1..], k)
      case Some(v) => Some(v)
      case None => if entries[0].0 == k then Some(entries[0].1) else None
  }

  /** The entries not under key `k`, in order. */
  function Without(entries: seq<(string, Value)>, k: string): seq<(string, Value)> {
    if entries == [] then []
    else (if entries[0].0 == k then [] else [entries[0]]) + Without(entries[1..], k)
  }

  /** The statement `"col"[k] = v`: the map gains the entry, which replaces any entry under `k`. */
  function DictPut(entries: seq<(string, Value)>, k: string, v: Value): seq<(string, Value)> {
    Without(entries, k) + [(k, v)]
  }

  /** An update of a map column: one `"col"[k] = v` per written entry, in order. */
  function DictMerge(stored: seq<(string, Value)>, written: seq<(string, Value)>): seq<(string, Value)>
    decreases |written|
  {
    if written == [] then stored
    else DictMerge(DictPut(stored, written[0].0, written[0].1), written[1..])
  }

  /**
   * What an update sets on a row it reaches: a map column the row already
   * holds gains the written entries; an empty written map is assigned
   * whole and clears the column; any other named column takes the written
   * value; unnamed columns stay.
   */
  function MergeFields(row: Record, fields: Record): Record {
    map f | f in row.Keys + fields.Keys ::
      if f !in fields then row[f]
      else if f in row && row[f].Dict? && fields[f].Dict? && fields[f].entries != [] then
        Dict(DictMerge(row[f].entries, fields[f].entries))
      else fields[f]
  }

  /**
   * An update (`update`) of `fields` addressed by `filter`: every fitting
   * row is merged with the fields; when no row fits, the statement creates
   * a row of the filter's key fields and the written fields.
   */
  function Update(table: seq<Record>, filter: Record, fields: Record): seq<Record> {
    if AnyFits(table, filter) then
      seq(|table|, i requires 0 <= i < |table| => if Fits(table[i], filter) then MergeFields(table[i], fields) else table[i])
    else
      table + [filter + fields]
  }

  /** `query.update(**fields)` when `update` holds, `query.create(**fields)` otherwise. */
  function Write(table: seq<Record>, filter: Record, fields: Record, update: bool): seq<Record> {
    if update then Update(table, filter, fields) else Insert(table, filter, fields)
  }

  /** A column shows a write: a map holds every written entry, any other value is the written one. */
  ghost predicate Covers(stored: Value, written: Value) {
    if written.Dict? then
      stored.Dict? && forall k | DictGet(written.entries, k).Some? :: DictGet(stored.entries, k) == DictGet(written.entries, k)
    else
      stored == written
  }

  /** `row` shows every column a write of `fields` named. */
  ghost predicate Holds(row: Record, fields: Record) {
    forall f | f in fields :: f in row && Covers(row[f], fields[f])
  }

  /**
   * `row` keeps what `before` had and a write of `fields` did not
   * overwrite: every column the write did not name, and in a map column
   * written with at least one entry, every entry under a key the write did
   * not name.
   */
  ghost predicate Keeps(row: Record, before: Record, fields: Record) {
    && (forall f | f in before && f !in fields :: f in row && row[f] == before[f])
    && (forall f | f in before && f in fields && before[f].Dict? && fields[f].Dict? && fields[f].entries != [] ::
          f in row && row[f].Dict? &&
          forall k | DictGet(fields[f].entries, k).None? :: DictGet(row[f].entries, k) == DictGet(before[f].entries, k))
  }

  lemma {:induction false} DictGetAppend(a: seq<(string, Value)>, b: seq<(string, Value)>, k: string)
    ensures DictGet(a + b, k) == if DictGet(b, k).Some? then DictGet(b, k) else DictGet(a, k)
    decreases |a|
  {
    if a != [] {
      assert (a + b)[1..] == a[1..] + b;
      DictGetAppend(a[1..], b, k);
    } else {
      assert a + b == b;
    }
  }

  lemma {:induction false} DictGetWithout(entries: seq<(string, Value)>, k: string, j: string)
    ensures DictGet(Without(entries, k), j) == if j == k then None else DictGet(entries, j)
    decreases |entries|
  {
    if entries != [] {
      var head := if entries[0].0 == k then [] else [entries[0]];
      DictGetWithout(entries[1..], k, j);
      DictGetAppend(head, Without(entries[1..], k), j);
    }
  }

  /** One `"col"[k] = v`: the map now gives `v` under `k` and what it gave before under every other key. */
  lemma DictPutGet(entries: seq<(string, Value)>, k: string, v: Value, j: string)
    ensures DictGet(DictPut(entries, k, v), j) == if j == k then Some(v) else DictGet(entries, j)
  {
    DictGetWithout(entries, k, j);
    DictGetAppend(Without(entries, k), [(k, v)], j);
  }

  /**
   * A map column after an update gives the written value under every
   * written key, and its earlier value under every other key.
   */
  lemma {:induction false} DictMergeGet(stored: seq<(string, Value)>, written: seq<(string, Value)>, k: string)
    ensures DictGet(DictMerge(stored, written), k) ==
      if DictGet(written, k).Some? then DictGet(written, k) else DictGet(stored, k)
    decreases |written|
  {
    if written != [] {
      DictMergeGet(DictPut(stored, written[0].0, written[0].1), written[1..], k);
      DictPutGet(stored, written[0].0, written[0].1, k);
    }
  }

  lemma {:induction false} AllTextWithout(entries: seq<(string, Value)>, k: string)
    requires AllText(entries)
    ensures AllText(Without(entries, k))
    decreases |entries|
  {
    if entries != [] {
      AllTextWithout(entries[1..], k);
    }
  }

  lemma {:induction false} AllTextMerge(stored: seq<(string, Value)>, written: seq<(string, Value)>)
    requires AllText(stored) && AllText(written)
    ensures AllText(DictMerge(stored, written))
    decreases |written|
  {
    if written != [] {
      AllTextWithout(stored, written[0].0);
      AllTextMerge(DictPut(stored, written[0].0, written[0].1), written[1..]);
    }
  }

  /** A merged row shows the write and keeps everything the write did not overwrite. */
  lemma MergeFieldsShowsWrite(row: Record, fields: Record)
    ensures Holds(MergeFields(row, fields), fields)
    ensures Keeps(MergeFields(row, fields), row, fields)
  {
    var m := MergeFields(row, fields);
    forall f, k | f in fields && f in row && row[f].Dict? && fields[f].Dict? && fields[f].entries != []
      ensures DictGet(m[f].entries, k) ==
        if DictGet(fields[f].entries, k).Some? then DictGet(fields[f].entries, k) else DictGet(row[f].entries, k)
    {
      DictMergeGet(row[f].entries, fields[f].entries, k);
    }
  }

  lemma MergeFieldsStored(row: Record, fields: Record)
    requires StoredForm(row) && StoredForm(fields)
    ensures StoredForm(MergeFields(row, fields))
  {
    if "vars" in fields && "vars" in row {
      AllTextMerge(row["vars"].entries, fields["vars"].entries);
    }
  }

  /**
   * After an update that names no filtered column, a fetch by the same
   * filter returns the first fitting row merged with the fields, or the
   * new row when none fitted.
   */
  lemma UpdateThenFetch(table: seq<Record>, filter: Record, fields: Record)
    requires filter.Keys !! fields.Keys
    ensures FirstWhere(Update(table, filter, fields), filter) ==
      match FirstWhere(table, filter)
      case Some(r) => Some(MergeFields(r, fields))
      case None => Some(filter + fields)
  {
    var t := Update(table, filter, fields);
    if AnyFits(table, filter) {
      var k := FirstIndex(table, filter);
      FirstWhereAt(table, filter, k);
      assert Fits(MergeFields(table[k], fields), filter);
      FirstWhereAt(t, filter, k);
    } else {
      assert Fits(filter + fields, filter);
      assert forall j :: 0 <= j < |table| ==> t[j] == table[j];
      FirstWhereAt(t, filter, |table|);
    }
  }

  /** An update that writes an empty map clears the column on every row it reaches, whatever the column held. */
  lemma EmptyMapUpdateClears(table: seq<Record>, filter: Record, f: string)
    ensures forall i :: 0 <= i < |table| && Fits(table[i], filter) ==>
      var t := Update(table, filter, map[f := Dict([])]);
      f in t[i] && t[i][f] == Dict([])
  {
  }

  /** An update leaves every row that does not fit its filter where and as it was. */
  lemma UpdateFrame(table: seq<Record>, filter: Record, fields: Record)
    ensures |Update(table, filter, fields)| == |table| + (if AnyFits(table, filter) then 0 else 1)
    ensures forall i :: 0 <= i < |table| && !Fits(table[i], filter) ==> Update(table, filter, fields)[i] == table[i]
  {
  }

  /** Writes in stored form keep a table in stored form, on either path. */
  lemma WriteKeepsStored(table: seq<Record>, filter: Record, fields: Record, update: bool)
    requires AllStored(table) && StoredForm(filter) && StoredForm(fields)
    ensures AllStored(Write(table, filter, fields, update))
  {
    if !update {
      InsertKeepsStored(table, filter, fields);
    } else {
      var t := Update(table, filter, fields);
      forall i | 0 <= i < |t| ensures StoredForm(t[i]) {
        if i < |table| {
          if Fits(table[i], filter) && AnyFits(table, filter) {
            MergeFieldsStored(table[i], fields);
          }
        } else {
          MergeStored(filter, fields);
        }
      }
    }
  }

  /**
   * After a write the mapper accepts (fields that agree with the filter;
   * on an update, no filtered column named), a fetch by the filter finds a
   * row that shows every written column; after an update of an existing
   * row, that row also keeps every column and map entry the write did not
   * overwrite.
   */
  lemma WriteLands(table: seq<Record>, filter: Record, fields: Record, update: bool)
    requires Compatible(filter, fields)
    requires update ==> filter.Keys !! fields.Keys
    ensures FirstWhere(Write(table, filter, fields, update), filter).Some?
    ensures Holds(FirstWhere(Write(table, filter, fields, update), filter).value, fields)
    ensures update && FirstWhere(table, filter).Some? ==>
      Keeps(FirstWhere(Write(table, filter, fields, update), filter).value, FirstWhere(table, filter).value, fields)
  {
    if update {
      UpdateThenFetch(table, filter, fields);
      match FirstWhere(table, filter)
      case Some(r) => MergeFieldsShowsWrite(r, fields);
      case None => MergeFieldsShowsWrite(filter + fields, fields);
    } else {
      InsertThenFetch(table, filter, fields);
      var row := FirstWhere(Insert(table, filter, fields), filter).value;
      assert forall f :: f in fields ==> f in row && row[f] == fields[f];
    }
  }
}
