/**
 * The documents the commands of lib/gitem/__main__.py hand to the renderer:
 * ordered dictionaries built from normalized records. An ordered dictionary
 * built from (key, value) pairs keeps one entry per key, at the position
 * where the key first appeared, with the value it was given last; keys are
 * compared with Python's `==`, under which `True` and `1` are one key.
 */
module Documents {
  import opened Values
  import opened ApiErrors
  import opened Analytics
  import opened OutputStdout

  /** `record[name]`: the value of the first entry under `name`, or a KeyError. */
  function Field(r: Record, name: string): (v: Outcome<Scalar>)
    ensures v.Ok? ==> (name, v.value) in r
    ensures v.Fail? ==> v.failure == MissingField(name)
    decreases |r|
  {
    if r == [] then Fail(MissingField(name))
    else if r[0].0 == name then Ok(r[0].1)
    else Field(r[1..], name)
  }

  /** An entry whose key does not occur earlier is the one `record[name]` finds. */
  lemma {:induction false} FieldAt(r: Record, i: nat)
    requires i < |r| && forall j :: 0 <= j < i ==> r[j].0 != r[i].0
    ensures Field(r, r[i].0) == Ok(r[i].1)
    decreases i
  {
    if i > 0 {
      assert r[1..][i - 1] == r[i];
      forall j | 0 <= j < i - 1
        ensures r[1..][j].0 != r[i].0
      {
        assert r[1..][j] == r[j + 1];
      }
      FieldAt(r[1..], i - 1);
    }
  }

  /** A name no entry carries raises KeyError. */
  lemma {:induction false} FieldMissing(r: Record, name: string)
    requires forall j :: 0 <= j < |r| ==> r[j].0 != name
    ensures Field(r, name) == Fail(MissingField(name))
    decreases |r|
  {
    if r != [] {
      assert forall j :: 0 <= j < |r[1..]| ==> r[1..][j] == r[j + 1];
      FieldMissing(r[1..], name);
    }
  }

  /** A value normalized under the human-readable name `fields[i].1` is found under that name. */
  lemma NormalizedField(fields: Fields, raw: RawRecord, i: nat)
    requires Normalize(fields, raw).Ok? && Distinct(HumanNames(fields)) && i < |fields|
    ensures Field(Normalize(fields, raw).value, fields[i].1) == Ok(raw[fields[i].0])
  {
    var rec := Normalize(fields, raw).value;
    forall j | 0 <= j < i
      ensures rec[j].0 != rec[i].0
    {
      assert HumanNames(fields)[j] != HumanNames(fields)[i];
    }
    FieldAt(rec, i);
  }

  /** A record as an ordered dictionary of scalar entries: the same items, in the same order. */
  function RecordDoc(r: Record): (m: Mapping)
    ensures |m.entries| == |r|
    ensures forall i :: 0 <= i < |r| ==> m.entries[i] == (Str(r[i].0), Leaf(r[i].1))
  {
    Mapping(seq(|r|, i requires 0 <= i < |r| => (Str(r[i].0), Leaf(r[i].1))))
  }

  /** No two entries have keys that Python considers equal. */
  predicate DistinctKeys(entries: seq<(Scalar, Value)>)
  {
    forall i, j :: 0 <= i < j < |entries| ==> !ScalarEquals(entries[i].0, entries[j].0)
  }

  /** `d[key] = value` on an ordered dictionary. */
  function Assign(entries: seq<(Scalar, Value)>, key: Scalar, value: Value): (r: seq<(Scalar, Value)>)
    decreases |entries|
  {
    if entries == [] then [(key, value)]
    else if ScalarEquals(entries[0].0, key) then [(entries[0].0, value)] + entries[1..]
    else [entries[0]] + Assign(entries[1..], key, value)
  }

  /** `OrderedDict(pairs)`: the pairs assigned one after the other. */
  function FromPairs(pairs: seq<(Scalar, Value)>): (r: seq<(Scalar, Value)>)
    decreases |pairs|
  {
    if pairs == [] then []
    else
      var n := |pairs| - 1;
      Assign(FromPairs(pairs[..n]), pairs[n].0, pairs[n].1)
  }

  /** A new key is appended at the end. */
  lemma {:induction false} AssignFresh(entries: seq<(Scalar, Value)>, key: Scalar, value: Value)
    requires forall i :: 0 <= i < |entries| ==> !ScalarEquals(entries[i].0, key)
    ensures Assign(entries, key, value) == entries + [(key, value)]
    decreases |entries|
  {
    if entries != [] {
      AssignFresh(entries[1..], key, value);
      assert entries == [entries[0]] + entries[1..];
    }
  }

  /** A present key keeps its position and its original key object; only the value changes. */
  lemma {:induction false} AssignExisting(entries: seq<(Scalar, Value)>, i: nat, key: Scalar, value: Value)
    requires DistinctKeys(entries) && i < |entries| && ScalarEquals(entries[i].0, key)
    ensures Assign(entries, key, value) == entries[i := (entries[i].0, value)]
    decreases |entries|
  {
    if i == 0 {
      assert entries[0 := (entries[0].0, value)] == [(entries[0].0, value)] + entries[1..];
    } else {
      ScalarEqualsEquivalence(entries[0].0, key, entries[i].0);
      ScalarEqualsEquivalence(entries[0].0, entries[i].0, key);
      assert !ScalarEquals(entries[0].0, key);
      assert entries[1..][i - 1] == entries[i];
      AssignExisting(entries[1..], i - 1, key, value);
      assert entries[i := (entries[i].0, value)] == [entries[0]] + entries[1..][i - 1 := (entries[i].0, value)];
    }
  }

  /** Every key of an assignment's result was already there or is the assigned key. */
  lemma {:induction false} AssignKeys(entries: seq<(Scalar, Value)>, key: Scalar, value: Value)
    ensures forall k :: 0 <= k < |Assign(entries, key, value)| ==>
      Assign(entries, key, value)[k].0 == key ||
      exists j :: 0 <= j < |entries| && entries[j].0 == Assign(entries, key, value)[k].0
    decreases |entries|
  {
    if entries != [] && !ScalarEquals(entries[0].0, key) {
      AssignKeys(entries[1..], key, value);
      var r := Assign(entries, key, value);
      forall k | 0 <= k < |r| && r[k].0 != key
        ensures exists j :: 0 <= j < |entries| && entries[j].0 == r[k].0
      {
        if k == 0 {
          assert entries[0].0 == r[k].0;
        } else {
          assert r[k] == Assign(entries[1..], key, value)[k - 1];
          var j :| 0 <= j < |entries[1..]| && entries[1..][j].0 == r[k].0;
          assert entries[j + 1].0 == r[k].0;
        }
      }
    } else if entries != [] {
      var r := Assign(entries, key, value);
      forall k | 0 <= k < |r| && r[k].0 != key
        ensures exists j :: 0 <= j < |entries| && entries[j].0 == r[k].0
      {
        assert entries[k].0 == r[k].0;
      }
    }
  }

  lemma {:induction false} AssignDistinct(entries: seq<(Scalar, Value)>, key: Scalar, value: Value)
    requires DistinctKeys(entries)
    ensures DistinctKeys(Assign(entries, key, value))
    decreases |entries|
  {
    if entries != [] && !ScalarEquals(entries[0].0, key) {
      var rest := Assign(entries[1..], key, value);
      AssignDistinct(entries[1..], key, value);
      AssignKeys(entries[1..], key, value);
      forall k | 0 <= k < |rest|
        ensures !ScalarEquals(entries[0].0, rest[k].0)
      {
        if rest[k].0 != key {
          var j :| 0 <= j < |entries[1..]| && entries[1..][j].0 == rest[k].0;
          assert entries[j + 1].0 == rest[k].0;
        }
      }
      var r := Assign(entries, key, value);
      forall a, b | 0 <= a < b < |r|
        ensures !ScalarEquals(r[a].0, r[b].0)
      {
        if a > 0 {
          assert r[a] == rest[a - 1] && r[b] == rest[b - 1];
        } else {
          assert r[b] == rest[b - 1];
        }
      }
    } else if entries != [] {
      var r := Assign(entries, key, value);
      forall a, b | 0 <= a < b < |r|
        ensures !ScalarEquals(r[a].0, r[b].0)
      {
        assert r[a].0 == entries[a].0 && r[b].0 == entries[b].0;
      }
    }
  }

  /** An ordered dictionary never holds two equal keys. */
  lemma {:induction false} FromPairsDistinct(pairs: seq<(Scalar, Value)>)
    ensures DistinctKeys(FromPairs(pairs))
    decreases |pairs|
  {
    if pairs != [] {
      var n := |pairs| - 1;
      FromPairsDistinct(pairs[..n]);
      AssignDistinct(FromPairs(pairs[..n]), pairs[n].0, pairs[n].1);
    }
  }

  /** Pairs with distinct keys come out as they went in: same entries, same order. */
  lemma {:induction false} FromPairsIdentity(pairs: seq<(Scalar, Value)>)
    requires DistinctKeys(pairs)
    ensures FromPairs(pairs) == pairs
    decreases |pairs|
  {
    if pairs != [] {
      var n := |pairs| - 1;
      assert DistinctKeys(pairs[..n]);
      FromPairsIdentity(pairs[..n]);
      forall i | 0 <= i < n
        ensures !ScalarEquals(pairs[..n][i].0, pairs[n].0)
      {
      }
      AssignFresh(pairs[..n], pairs[n].0, pairs[n].1);
      assert pairs[..n] + [pairs[n]] == pairs;
    }
  }

  /** The pairs `(record[keyName], OrderedDict(record.items()))`, in record order. */
  function KeyedEntries(records: seq<Record>, keyName: string): (r: Outcome<seq<(Scalar, Value)>>)
    ensures r.Ok? <==> forall i :: 0 <= i < |records| ==> Field(records[i], keyName).Ok?
    ensures r.Ok? ==> |r.value| == |records|
    ensures r.Ok? ==> forall i :: 0 <= i < |records| ==>
      Field(records[i], keyName) == Ok(r.value[i].0) && r.value[i].1 == Dict(RecordDoc(records[i]))
    ensures r.Fail? ==> r.failure == MissingField(keyName)
    decreases |records|
  {
    if records == [] then Ok([])
    else
      match Field(records[0], keyName)
      case Fail(f) => Fail(f)
      case Ok(k) =>
        match KeyedEntries(records[1..], keyName)
        case Fail(f) =>
          assert forall i :: 1 <= i < |records| ==> records[i] == records[1..][i - 1];
          Fail(f)
        case Ok(rest) => Ok([(k, Dict(RecordDoc(records[0])))] + rest)
  }

  /** `OrderedDict([(title, OrderedDict((record[keyName], OrderedDict(record.items())) for record in records))])`. */
  function Listing(title: string, keyName: string, records: seq<Record>): (r: Outcome<Mapping>)
    ensures r.Ok? <==> KeyedEntries(records, keyName).Ok?
    ensures r.Ok? ==> r.value == Mapping([(Str(title), Dict(Mapping(FromPairs(KeyedEntries(records, keyName).value))))])
  {
    match KeyedEntries(records, keyName)
    case Fail(f) => Fail(f)
    case Ok(pairs) => Ok(Mapping([(Str(title), Dict(Mapping(FromPairs(pairs))))]))
  }

  /**
   * When the records' keys are pairwise distinct, a listing has one entry per
   * record, in record order, each holding that record's items.
   */
  lemma ListingEntries(title: string, keyName: string, records: seq<Record>)
    requires KeyedEntries(records, keyName).Ok? && DistinctKeys(KeyedEntries(records, keyName).value)
    ensures Listing(title, keyName, records).Ok?
    ensures var inner := Listing(title, keyName, records).value.entries[0].1.mapping.entries;
      |inner| == |records| &&
      forall i :: 0 <= i < |records| ==>
        Field(records[i], keyName) == Ok(inner[i].0) && inner[i].1 == Dict(RecordDoc(records[i]))
  {
    FromPairsIdentity(KeyedEntries(records, keyName).value);
  }
}
