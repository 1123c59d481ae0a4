/** The `list_devices` projection: `data.devices.map(device => ({ id: device.id, ... }))`
    keeps nine fields of each device, and JSON.stringify then leaves out the
    fields that came out `undefined`. */
module Devices {
  import opened Wrappers
  import opened JsValues

  /** The nine fields kept for each device, in the order they are written. */
  const SummaryFields: seq<string> :=
    ["id", "name", "hostname", "clientVersion", "os", "addresses", "enabled", "online", "lastSeen"]

  /** The TypeError raised when `data.devices` exists but is not an array. */
  const NotAFunctionMessage := "data.devices.map is not a function"

  predicate DistinctKeys<V>(s: seq<(string, V)>) {
    forall a, b :: 0 <= a < b < |s| ==> s[a].0 != s[b].0
  }

  lemma SummaryFieldsDistinct()
    ensures forall a, b :: 0 <= a < b < |SummaryFields| ==> SummaryFields[a] != SummaryFields[b]
  {
  }

  /** An object literal `{ k1: v.k1, k2: v.k2, ... }`: the properties are read
      in order, so a receiver that is `undefined` or `null` throws on the first key. */
  function ReadFields(v: JsValue, keys: seq<string>): (r: Result<seq<(string, JsValue)>, string>)
    ensures r.Failure? <==> |keys| > 0 && (v == Undefined || v == Defined(Null))
    ensures r.Failure? ==> r == Member(v, keys[0]).PropagateFailure()
    ensures r.Success? ==>
      && |r.value| == |keys|
      && forall i :: 0 <= i < |keys| ==> r.value[i].0 == keys[i] && Member(v, keys[i]) == Success(r.value[i].1)
    decreases |keys|
  {
    if |keys| == 0 then Success([])
    else
      var first :- Member(v, keys[0]);
      var rest := ReadFields(v, keys[1..]);
      if rest.Failure? then rest else Success([(keys[0], first)] + rest.value)
  }

  /** The record one device is mapped to. */
  function Summarize(device: Json): (r: Result<seq<(string, JsValue)>, string>)
    ensures r.Failure? <==> device == Null
    ensures r.Failure? ==> r.error == ReadError("null", "id")
  {
    ReadFields(Defined(device), SummaryFields)
  }

  /** `data.devices.map(device => ({ id: device.id, ... }))`: it succeeds
      exactly when no device is `null`, and then keeps count and order. */
  function ProjectDevices(items: seq<Json>): (r: Result<seq<seq<(string, JsValue)>>, string>)
    ensures r.Success? <==> forall i :: 0 <= i < |items| ==> items[i] != Null
    ensures r.Failure? ==> r.error == ReadError("null", "id")
    ensures r.Success? ==>
      |r.value| == |items| && forall i :: 0 <= i < |items| ==> Summarize(items[i]) == Success(r.value[i])
  {
    MapOrThrow(Summarize, items)
  }

  /** `data.devices` as the array `.map` runs over, or the TypeError the
      expression `data.devices.map(...)` raises. */
  function DeviceList(data: Json): (r: Result<seq<Json>, string>)
    ensures r.Success? <==>
      data.Obj? && Lookup(data.members, "devices").Some? && Lookup(data.members, "devices").value.Arr?
    ensures r.Success? ==> r.value == Lookup(data.members, "devices").value.items
    ensures data == Null ==> r == Failure(ReadError("null", "devices"))
    ensures data != Null && Member(Defined(data), "devices") == Success(Undefined) ==>
      r == Failure(ReadError("undefined", "map"))
    ensures data.Obj? && Lookup(data.members, "devices") == Some(Null) ==>
      r == Failure(ReadError("null", "map"))
    ensures (data.Obj? && Lookup(data.members, "devices").Some?
             && Lookup(data.members, "devices").value != Null && !Lookup(data.members, "devices").value.Arr?) ==>
      r == Failure(NotAFunctionMessage)
  {
    var devices :- Member(Defined(data), "devices");
    match devices
    case Undefined => Failure(ReadError("undefined", "map"))
    case Defined(Null) => Failure(ReadError("null", "map"))
    case Defined(Arr(items)) => Success(items)
    case Defined(_) => Failure(NotAFunctionMessage)
  }

  /** JSON.stringify's treatment of a record: members whose value is
      `undefined` are left out, the rest keep their order. */
  function DropUndefined(s: seq<(string, JsValue)>): (m: seq<(string, Json)>)
    ensures |m| <= |s|
    ensures forall j :: 0 <= j < |m| ==>
      exists i :: 0 <= i < |s| && s[i] == (m[j].0, Defined(m[j].1))
    decreases |s|
  {
    if |s| == 0 then []
    else
      var init := DropUndefined(s[..|s| - 1]);
      assert forall i :: 0 <= i < |s| - 1 ==> s[..|s| - 1][i] == s[i];
      match s[|s| - 1].1
      case Undefined => init
      case Defined(v) => init + [(s[|s| - 1].0, v)]
  }

  /** Serialising keeps order: the members of a concatenation serialise as
      the members of each part, one part after the other. */
  lemma {:induction false} DropUndefinedSplits(a: seq<(string, JsValue)>, b: seq<(string, JsValue)>)
    ensures DropUndefined(a + b) == DropUndefined(a) + DropUndefined(b)
    decreases |b|
  {
    if |b| == 0 {
      assert a + b == a;
    } else {
      var n := |b|;
      assert (a + b)[..|a + b| - 1] == a + b[..n - 1];
      assert (a + b)[|a + b| - 1] == b[n - 1];
      DropUndefinedSplits(a, b[..n - 1]);
    }
  }

  /** Every defined member survives serialisation, in its place: after the
      serialised members before it and before those after it. */
  lemma DropUndefinedKeepsDefined(s: seq<(string, JsValue)>, i: nat)
    requires i < |s| && s[i].1.Defined?
    ensures DropUndefined(s) == DropUndefined(s[..i]) + [(s[i].0, s[i].1.value)] + DropUndefined(s[i + 1..])
  {
    var before, entry, after := s[..i], [s[i]], s[i + 1..];
    assert s == (before + entry) + after;
    DropUndefinedSplits(before + entry, after);
    DropUndefinedSplits(before, entry);
    assert DropUndefined(entry) == [(s[i].0, s[i].1.value)] by {
      assert entry[..0] == [];
    }
  }

  /** The JSON object a device record serialises as. */
  function SummaryJson(summary: seq<(string, JsValue)>): Json {
    Obj(DropUndefined(summary))
  }

  /** In a record with distinct keys, a serialised member reads back as the
      record's value: defined values survive, undefined ones are absent. */
  lemma {:induction false} LookupDropUndefined(s: seq<(string, JsValue)>, i: nat)
    requires i < |s|
    requires DistinctKeys(s)
    ensures OfOption(Lookup(DropUndefined(s), s[i].0)) == s[i].1
    decreases |s|
  {
    var n := |s|;
    var init := s[..n - 1];
    var key := s[i].0;
    assert forall a :: 0 <= a < n - 1 ==> init[a] == s[a];
    var m0 := DropUndefined(init);
    if i == n - 1 {
      match s[n - 1].1
      case Undefined =>
        forall j | 0 <= j < |m0|
          ensures m0[j].0 != key
        {
          var a :| 0 <= a < |init| && init[a] == (m0[j].0, Defined(m0[j].1));
          assert s[a].0 == m0[j].0 && a < i;
        }
      case Defined(v) =>
    } else {
      LookupDropUndefined(init, i);
      match s[n - 1].1
      case Undefined =>
      case Defined(v) =>
        assert (m0 + [(s[n - 1].0, v)])[..|m0|] == m0;
    }
  }

  /** A device that is not `null` projects to one entry per field, in
      order, each holding the device's own value for that field. */
  lemma SummarizeReads(device: Json)
    requires device != Null
    ensures Summarize(device).Success?
    ensures var s := Summarize(device).value;
      && |s| == |SummaryFields|
      && forall k :: 0 <= k < |SummaryFields| ==>
           s[k].0 == SummaryFields[k] && Member(Defined(device), SummaryFields[k]) == Success(s[k].1)
  {
  }

  /** What the projection keeps of `device`, read directly off the parsed
      object: for each key in turn, the device's member of that name, or
      nothing when it has none. A value that is not an object has none. */
  function KeptFields(device: Json, keys: seq<string>): seq<(string, Json)>
    decreases |keys|
  {
    if |keys| == 0 then []
    else
      var found := if device.Obj? then Lookup(device.members, keys[0]) else None;
      (if found.Some? then [(keys[0], found.value)] else []) + KeptFields(device, keys[1..])
  }

  /** `record` is what the projection keeps of `device`: an object holding,
      in the order the nine fields are written, each field the device has,
      with the device's value for it. */
  predicate IsProjectionOf(record: Json, device: Json) {
    record == Obj(KeptFields(device, SummaryFields))
  }

  /** Serialising the record `{k: v.k, ...}` gives, in key order, exactly
      the keys `v` has, each with `v`'s value. */
  lemma {:induction false} ReadFieldsSerialised(v: JsValue, keys: seq<string>)
    requires v.Defined? && v != Defined(Null)
    ensures ReadFields(v, keys).Success?
    ensures DropUndefined(ReadFields(v, keys).value) == KeptFields(v.value, keys)
    decreases |keys|
  {
    if |keys| > 0 {
      var s := ReadFields(v, keys).value;
      var rest := ReadFields(v, keys[1..]).value;
      var head := [(keys[0], s[0].1)];
      assert s == head + rest;
      ReadFieldsSerialised(v, keys[1..]);
      DropUndefinedSplits(head, rest);
      assert DropUndefined(head) ==
        (if s[0].1.Defined? then [(keys[0], s[0].1.value)] else []);
    }
  }

  /** The serialised record of a device is its projection. */
  lemma SummaryJsonFields(device: Json)
    requires device != Null
    ensures Summarize(device).Success?
    ensures IsProjectionOf(SummaryJson(Summarize(device).value), device)
  {
    ReadFieldsSerialised(Defined(device), SummaryFields);
  }

  /** Reading a record `{k: v.k, ...}` with distinct keys back after
      serialising it: only those keys are present, each with `v`'s value. */
  lemma ReadFieldsReadBack(v: JsValue, keys: seq<string>)
    requires v != Undefined && v != Defined(Null)
    requires forall a, b :: 0 <= a < b < |keys| ==> keys[a] != keys[b]
    ensures ReadFields(v, keys).Success?
    ensures var m := DropUndefined(ReadFields(v, keys).value);
      && (forall j :: 0 <= j < |m| ==> m[j].0 in keys)
      && forall k :: 0 <= k < |keys| ==> Member(Defined(Obj(m)), keys[k]) == Member(v, keys[k])
  {
    var s := ReadFields(v, keys).value;
    var m := DropUndefined(s);
    assert DistinctKeys(s);
    forall j | 0 <= j < |m|
      ensures m[j].0 in keys
    {
      var i :| 0 <= i < |s| && s[i] == (m[j].0, Defined(m[j].1));
      assert s[i].0 == keys[i];
    }
    forall k | 0 <= k < |keys|
      ensures Member(Defined(Obj(m)), keys[k]) == Member(v, keys[k])
    {
      LookupDropUndefined(s, k);
    }
  }

  /** A projection reads back as its device: its keys are among the nine
      fields, and each field holds the device's own value or is absent with it. */
  lemma ProjectionReadsBack(record: Json, device: Json)
    requires device != Null
    requires IsProjectionOf(record, device)
    ensures forall j :: 0 <= j < |record.members| ==> record.members[j].0 in SummaryFields
    ensures forall k :: 0 <= k < |SummaryFields| ==>
      Member(Defined(record), SummaryFields[k]) == Member(Defined(device), SummaryFields[k])
  {
    SummaryJsonFields(device);
    SummaryFieldsDistinct();
    ReadFieldsReadBack(Defined(device), SummaryFields);
  }
}
