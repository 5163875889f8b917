/**
 * The record normaliser (`convert_from_json`): every entry of a stored
 * record's `vars` is replaced by its JSON decoding when it decodes, and is
 * otherwise kept as the raw string. JSON decoding itself is an opaque
 * partial function passed in as `decode`.
 */
module Normalize {
  import opened Values

  /**
   * The shape a row has in storage: `vars`, when present, is a map whose
   * values are all text. This is what the normaliser may be handed: the
   * source raises an uncaught error on a non-text value.
   */
  predicate StoredForm(r: Record) {
    "vars" in r ==> r["vars"].Dict? && AllText(r["vars"].entries)
  }

  predicate AllText(entries: seq<(string, Value)>) {
    forall i | 0 <= i < |entries| :: entries[i].1.Str?
  }

  /** One `vars` value after normalisation: its decoding, or itself when it does not decode. */
  function DecodedOrRaw(v: Value, decode: string -> Option<Value>): Value
    requires v.Str?
  {
    match decode(v.s)
    case Some(d) => d
    case None => v
  }

  function DecodedEntries(entries: seq<(string, Value)>, decode: string -> Option<Value>): seq<(string, Value)>
    requires AllText(entries)
  {
    seq(|entries|, i requires 0 <= i < |entries| => (entries[i].0, DecodedOrRaw(entries[i].1, decode)))
  }

  /**
   * The normalised record. Only `vars` changes; it keeps its keys and their
   * order, and each value becomes its decoding or stays the raw string.
   */
  function NormalizedRecord(r: Record, decode: string -> Option<Value>): (n: Record)
    requires StoredForm(r)
    ensures n.Keys == r.Keys
    ensures forall f :: f in r && f != "vars" ==> n[f] == r[f]
    ensures "vars" in r ==>
      && n["vars"].Dict?
      && |n["vars"].entries| == |r["vars"].entries|
      && forall i :: 0 <= i < |r["vars"].entries| ==>
           && n["vars"].entries[i].0 == r["vars"].entries[i].0
           && (decode(r["vars"].entries[i].1.s).Some? ==> n["vars"].entries[i].1 == decode(r["vars"].entries[i].1.s).value)
           && (decode(r["vars"].entries[i].1.s).None? ==> n["vars"].entries[i].1 == r["vars"].entries[i].1)
  {
    if "vars" in r then r["vars" := Dict(DecodedEntries(r["vars"].entries, decode))] else r
  }

  /** `convert_from_json`: overwrites each `vars` entry in turn. */
  method ConvertFromJson(r: Record, decode: string -> Option<Value>) returns (n: Record)
    requires StoredForm(r)
    ensures n == NormalizedRecord(r, decode)
  {
    n := r;
    if "vars" !in r {
      return;
    }
    var entries := r["vars"].entries;
    var i := 0;
    while i < |entries|
      invariant 0 <= i <= |entries|
      invariant |entries| == |r["vars"].entries|
      invariant forall j :: 0 <= j < i ==>
        entries[j] == (r["vars"].entries[j].0, DecodedOrRaw(r["vars"].entries[j].1, decode))
      invariant forall j :: i <= j < |entries| ==> entries[j] == r["vars"].entries[j]
    {
      var (k, v) := entries[i];
      match decode(v.s) {
        case Some(d) => entries := entries[i := (k, d)];
        case None =>
      }
      i := i + 1;
    }
    assert entries == DecodedEntries(r["vars"].entries, decode);
    n := n["vars" := Dict(entries)];
  }

  /**
   * Normalising twice is not defined: once some entry decodes to a
   * non-string, the normalised record is no longer in stored form, and the
   * source's second `json.loads` on that value raises.
   */
  lemma SecondPassLeavesDomain(r: Record, decode: string -> Option<Value>, i: int)
    requires StoredForm(r) && "vars" in r
    requires 0 <= i < |r["vars"].entries|
    requires decode(r["vars"].entries[i].1.s).Some?
    requires !decode(r["vars"].entries[i].1.s).value.Str?
    ensures !StoredForm(NormalizedRecord(r, decode))
  {
    var n := NormalizedRecord(r, decode);
    assert !n["vars"].entries[i].1.Str?;
  }

  /** A record whose `vars` decode nowhere comes back unchanged. */
  lemma UndecodableIsFixed(r: Record, decode: string -> Option<Value>)
    requires StoredForm(r)
    requires "vars" in r ==> forall i :: 0 <= i < |r["vars"].entries| ==> decode(r["vars"].entries[i].1.s).None?
    ensures NormalizedRecord(r, decode) == r
  {
    if "vars" in r {
      var n := NormalizedRecord(r, decode);
      assert n["vars"].entries == r["vars"].entries;
      assert n["vars"] == r["vars"];
    }
  }
}
