/** The carbon-credit asset contract `CarbonPastureContract` of
    chaincode/lib/assetTransfer.js, run against a model of the chaincode stub
    (`ctx.stub`): a world state mapping keys to stored values, with the get, put,
    delete and full range scan the contract uses. */
module AssetLedger {
  import opened Wrappers
  import opened Js
  import KeyOrder

  /** What the world state holds under a key: the text of a JSON object, decoded, or
      text that `JSON.parse` rejects, kept as it is. */
  datatype Stored = Doc(fields: map<string, Json>) | Raw(text: string)

  /** What `getState` returns for a key that holds nothing: an empty buffer. */
  const Empty: Stored := Raw("")

  /** An element of the array `GetAllAssets` returns: the parsed object, or the raw
      text of an entry that did not parse. */
  datatype Entry = Object(fields: map<string, Json>) | Text(text: string)

  /** The errors the contract throws. */
  datatype LedgerError =
    | NotFound(message: string)
    | Unparsable  // JSON.parse of the stored text throws

  /** `assetJSON && assetJSON.length > 0`: the key holds a non-empty value. */
  predicate Holds(state: map<string, Stored>, id: string)
  {
    id in state && state[id] != Empty
  }

  /** `parseInt(carbonCredits)` as JSON.stringify writes it: NaN becomes null. */
  function CreditsJson(credits: Option<int>): Json
  {
    match credits
    case Some(n) => JNum(n)
    case None => JNull
  }

  /** The object `CreateAsset` and `UpdateAsset` build from their string arguments. */
  function AssetRecord(id: string, sequestrationType: string, carbonCredits: string,
                       farmerId: string, issuanceDate: string): map<string, Json>
  {
    map["ID" := JStr(id),
        "SequestrationType" := JStr(sequestrationType),
        "CarbonCredits" := CreditsJson(ParseInt(carbonCredits)),
        "FarmerID" := JStr(farmerId),
        "IssuanceDate" := JStr(issuanceDate)]
  }

  /** One of the fixed records `InitLedger` writes. */
  datatype Seed = Seed(id: string, sequestrationType: string, credits: int,
                       farmerId: string, issuanceDate: string)

  function SeedRecord(s: Seed): map<string, Json>
  {
    map["ID" := JStr(s.id),
        "SequestrationType" := JStr(s.sequestrationType),
        "CarbonCredits" := JNum(s.credits),
        "FarmerID" := JStr(s.farmerId),
        "IssuanceDate" := JStr(s.issuanceDate)]
  }

  const SeedAssets: seq<Seed> := [
    Seed("carbonAsset1", "pasture-restoration", 120, "kisumu_farmer01", "2025-08-01"),
    Seed("carbonAsset2", "livestock-methane-reduction", 90, "eldoret_farmer22", "2025-08-02"),
    Seed("carbonAsset3", "agroforestry", 200, "nyeri_farmer08", "2025-08-03"),
    Seed("carbonAsset4", "biochar-soil-enrichment", 75, "narok_farmer15", "2025-08-04")
  ]

  /** The state after writing the seeds in order, each write overwriting its key. */
  function PutSeeds(state: map<string, Stored>, seeds: seq<Seed>): map<string, Stored>
  {
    if seeds == [] then state
    else
      var last := seeds[|seeds| - 1];
      PutSeeds(state, seeds[..|seeds| - 1])[last.id := Doc(SeedRecord(last))]
  }

  /** The writes of a seed list depend on nothing already in the state: they
      override it key by key. */
  lemma {:induction false} PutSeedsOverrides(state: map<string, Stored>, seeds: seq<Seed>)
    ensures PutSeeds(state, seeds) == state + PutSeeds(map[], seeds)
  {
    if seeds != [] {
      PutSeedsOverrides(state, seeds[..|seeds| - 1]);
    }
  }

  /** The records `InitLedger` leaves behind, whatever the state was before. */
  function SeedState(): map<string, Stored>
  {
    PutSeeds(map[], SeedAssets)
  }

  /** `InitLedger` writes exactly the keys carbonAsset1 to carbonAsset4, each with
      its fixed seed record. */
  lemma SeedStateContents()
    ensures SeedState().Keys == {"carbonAsset1", "carbonAsset2", "carbonAsset3", "carbonAsset4"}
    ensures forall i :: 0 <= i < |SeedAssets| ==> SeedState()[SeedAssets[i].id] == Doc(SeedRecord(SeedAssets[i]))
  {
    var s := SeedAssets;
    assert s[..4] == s;
    assert s[..4][..3] == s[..3];
    assert s[..3][..2] == s[..2];
    assert s[..2][..1] == s[..1];
    assert s[..1][..0] == [];
    var m1 := PutSeeds(map[], s[..1]);
    var m2 := PutSeeds(map[], s[..2]);
    var m3 := PutSeeds(map[], s[..3]);
    assert PutSeeds(map[], s[..1][..0]) == map[];
    assert m1 == PutSeeds(map[], s[..1][..0])[s[0].id := Doc(SeedRecord(s[0]))];
    assert m2 == m1[s[1].id := Doc(SeedRecord(s[1]))];
    assert m3 == m2[s[2].id := Doc(SeedRecord(s[2]))];
    assert SeedState() == m3[s[3].id := Doc(SeedRecord(s[3]))];
  }

  /** Running `InitLedger` twice leaves the state it leaves after running once. */
  lemma InitLedgerIdempotent(state: map<string, Stored>)
    ensures (state + SeedState()) + SeedState() == state + SeedState()
  {
  }

  /** `keys` lists the keys of `state` in scan order, each once. */
  ghost predicate Indexes(keys: seq<string>, state: map<string, Stored>)
  {
    && KeyOrder.Sorted(keys)
    && KeyOrder.Elems(keys) == state.Keys
    && |keys| == |state|
  }

  /** Writing a key keeps the index matched to the state. */
  lemma IndexPut(keys: seq<string>, state: map<string, Stored>, key: string, v: Stored)
    requires Indexes(keys, state)
    ensures Indexes(KeyOrder.Insert(keys, key), state[key := v])
  {
    assert key in keys <==> key in state by {
      assert key in KeyOrder.Elems(keys) <==> key in keys;
    }
    assert state[key := v].Keys == state.Keys + {key};
  }

  /** Deleting a key keeps the index matched to the state. */
  lemma IndexDelete(keys: seq<string>, state: map<string, Stored>, key: string)
    requires Indexes(keys, state)
    ensures Indexes(KeyOrder.Remove(keys, key), state - {key})
  {
    assert key in keys <==> key in state by {
      assert key in KeyOrder.Elems(keys) <==> key in keys;
    }
    assert (state - {key}).Keys == state.Keys - {key};
  }

  /** The chaincode stub's view of the world state. `keys` is the state database's
      index: the stored keys in scan order. */
  class ChaincodeStub {
    var state: map<string, Stored>
    var keys: seq<string>

    ghost predicate Valid()
      reads this
    {
      Indexes(keys, state)
    }

    /** An empty world state. */
    constructor ()
      ensures Valid() && state == map[]
    {
      state := map[];
      keys := [];
    }

    /** `getState(key)`: the stored value, or an empty buffer for an absent key. */
    method GetState(key: string) returns (v: Stored)
      ensures key in state ==> v == state[key]
      ensures key !in state ==> v == Empty
    {
      v := if key in state then state[key] else Empty;
    }

    /** `putState(key, value)`: writes the key, overwriting what it held. */
    method PutState(key: string, v: Stored)
      requires Valid()
      modifies this
      ensures Valid()
      ensures state == old(state)[key := v]
    {
      IndexPut(keys, state, key, v);
      keys := KeyOrder.Insert(keys, key);
      state := state[key := v];
    }

    /** `deleteState(key)`: removes the key. */
    method DeleteState(key: string)
      requires Valid()
      modifies this
      ensures Valid()
      ensures state == old(state) - {key}
    {
      IndexDelete(keys, state, key);
      keys := KeyOrder.Remove(keys, key);
      state := state - {key};
    }

    /** `getStateByRange('', '')`: every key with its value, in key order. */
    method GetStateByRange() returns (kvs: seq<(string, Stored)>)
      requires Valid()
      ensures |kvs| == |state|
      ensures forall i :: 0 <= i < |kvs| ==> kvs[i].0 == keys[i] && keys[i] in state && kvs[i].1 == state[keys[i]]
    {
      var ks, st := keys, state;
      assert forall i :: 0 <= i < |ks| ==> ks[i] in st by {
        forall i | 0 <= i < |ks| ensures ks[i] in st {
          assert ks[i] in KeyOrder.Elems(ks);
        }
      }
      kvs := seq(|ks|, i requires 0 <= i < |ks| => (ks[i], st[ks[i]]));
    }
  }

  /** `InitLedger`: writes the four seed records, one `putState` each. */
  method InitLedger(stub: ChaincodeStub)
    requires stub.Valid()
    modifies stub
    ensures stub.Valid()
    ensures stub.state == old(stub.state) + SeedState()
  {
    var seeds := SeedAssets;
    for i := 0 to |seeds|
      invariant stub.Valid()
      invariant stub.state == PutSeeds(old(stub.state), seeds[..i])
    {
      assert seeds[..i + 1][..i] == seeds[..i];
      stub.PutState(seeds[i].id, Doc(SeedRecord(seeds[i])));
    }
    assert seeds[..|seeds|] == seeds;
    PutSeedsOverrides(old(stub.state), seeds);
  }

  /** `CreateAsset`: writes the record with no existence check, overwriting any
      value the key held, and returns the record it wrote. */
  method CreateAsset(stub: ChaincodeStub, id: string, sequestrationType: string,
                     carbonCredits: string, farmerId: string, issuanceDate: string)
    returns (record: map<string, Json>)
    requires stub.Valid()
    modifies stub
    ensures stub.Valid()
    ensures record == AssetRecord(id, sequestrationType, carbonCredits, farmerId, issuanceDate)
    ensures stub.state == old(stub.state)[id := Doc(record)]
  {
    record := AssetRecord(id, sequestrationType, carbonCredits, farmerId, issuanceDate);
    stub.PutState(id, Doc(record));
  }

  /** `ReadAsset`: the stored value, unless the key holds nothing. */
  method ReadAsset(stub: ChaincodeStub, id: string) returns (r: Result<Stored, LedgerError>)
    ensures r.Err? <==> !Holds(stub.state, id)
    ensures r.Ok? ==> id in stub.state && r.value == stub.state[id]
    ensures r.Err? ==> r.error == NotFound("Asset " + id + " does not exist")
  {
    var assetJson := stub.GetState(id);
    if assetJson == Empty {
      return Err(NotFound("Asset " + id + " does not exist"));
    }
    r := Ok(assetJson);
  }

  /** `AssetExists`: the key holds a non-empty value. */
  method AssetExists(stub: ChaincodeStub, id: string) returns (exists_: bool)
    ensures exists_ <==> Holds(stub.state, id)
  {
    var assetJson := stub.GetState(id);
    exists_ := assetJson != Empty;
  }

  /** `UpdateAsset`: overwrites a key that holds a value with the record built from
      the arguments; fails, writing nothing, on a key that holds nothing. */
  method UpdateAsset(stub: ChaincodeStub, id: string, sequestrationType: string,
                     carbonCredits: string, farmerId: string, issuanceDate: string)
    returns (r: Result<map<string, Json>, LedgerError>)
    requires stub.Valid()
    modifies stub
    ensures stub.Valid()
    ensures !Holds(old(stub.state), id) ==>
      r == Err(NotFound("Cannot update: Asset " + id + " does not exist")) && stub.state == old(stub.state)
    ensures Holds(old(stub.state), id) ==>
      && r == Ok(AssetRecord(id, sequestrationType, carbonCredits, farmerId, issuanceDate))
      && stub.state == old(stub.state)[id := Doc(r.value)]
  {
    var exists_ := AssetExists(stub, id);
    if !exists_ {
      return Err(NotFound("Cannot update: Asset " + id + " does not exist"));
    }
    var updated := AssetRecord(id, sequestrationType, carbonCredits, farmerId, issuanceDate);
    stub.PutState(id, Doc(updated));
    r := Ok(updated);
  }

  /** `DeleteAsset`: removes a key that holds a value; fails, writing nothing, on a
      key that holds nothing. */
  method DeleteAsset(stub: ChaincodeStub, id: string) returns (r: Result<(), LedgerError>)
    requires stub.Valid()
    modifies stub
    ensures stub.Valid()
    ensures !Holds(old(stub.state), id) ==>
      r == Err(NotFound("Cannot delete: Asset " + id + " does not exist")) && stub.state == old(stub.state)
    ensures Holds(old(stub.state), id) ==> r == Ok(()) && stub.state == old(stub.state) - {id}
  {
    var exists_ := AssetExists(stub, id);
    if !exists_ {
      return Err(NotFound("Cannot delete: Asset " + id + " does not exist"));
    }
    stub.DeleteState(id);
    r := Ok(());
  }

  /** `TransferAsset`: reads the record, sets its FarmerID to the new owner, writes it
      back and returns the previous FarmerID (None when the record had none). Fails,
      writing nothing, when the key holds nothing or its text does not parse. */
  method TransferAsset(stub: ChaincodeStub, id: string, newOwnerId: string)
    returns (r: Result<Option<Json>, LedgerError>)
    requires stub.Valid()
    modifies stub
    ensures stub.Valid()
    ensures !Holds(old(stub.state), id) ==>
      r == Err(NotFound("Asset " + id + " does not exist")) && stub.state == old(stub.state)
    ensures Holds(old(stub.state), id) && old(stub.state)[id].Raw? ==>
      r == Err(Unparsable) && stub.state == old(stub.state)
    ensures Holds(old(stub.state), id) && old(stub.state)[id].Doc? ==>
      var before := old(stub.state)[id].fields;
      && r == Ok(Get(before, "FarmerID"))
      && stub.state == old(stub.state)[id := Doc(before["FarmerID" := JStr(newOwnerId)])]
  {
    var assetString := ReadAsset(stub, id);
    if assetString.Err? {
      return Err(assetString.error);
    }
    match assetString.value
    case Raw(_) =>
      r := Err(Unparsable);
    case Doc(asset) =>
      var oldOwner := Get(asset, "FarmerID");
      stub.PutState(id, Doc(asset["FarmerID" := JStr(newOwnerId)]));
      r := Ok(oldOwner);
  }

  /** How `GetAllAssets` decodes one stored value: an object parses, anything else
      is kept as its raw text. */
  function Decode(v: Stored): Entry
  {
    match v
    case Doc(fields) => Object(fields)
    case Raw(text) => Text(text)
  }

  /** `GetAllAssets`: one entry per stored key, in key order; a value that does not
      parse is kept as its text and the scan goes on. */
  method GetAllAssets(stub: ChaincodeStub) returns (allResults: seq<Entry>)
    requires stub.Valid()
    ensures |allResults| == |stub.state|
    ensures forall i :: 0 <= i < |allResults| ==>
      stub.keys[i] in stub.state && allResults[i] == Decode(stub.state[stub.keys[i]])
  {
    allResults := [];
    var scan := stub.GetStateByRange();
    var next := 0;
    while next < |scan|
      invariant 0 <= next <= |scan|
      invariant |allResults| == next
      invariant forall i :: 0 <= i < next ==> allResults[i] == Decode(scan[i].1)
    {
      var record := Decode(scan[next].1);
      allResults := allResults + [record];
      next := next + 1;
    }
  }

  /** Creating an asset and reading it back returns the record written, with the
      credits `String(n)` carried as the integer `n`. */
  method CreateThenRead(stub: ChaincodeStub, id: string, sequestrationType: string, credits: int,
                        farmerId: string, issuanceDate: string)
    returns (r: Result<Stored, LedgerError>)
    requires stub.Valid()
    modifies stub
    ensures r == Ok(Doc(AssetRecord(id, sequestrationType, IntToString(credits), farmerId, issuanceDate)))
    ensures r.value.fields["CarbonCredits"] == JNum(credits)
  {
    var _ := CreateAsset(stub, id, sequestrationType, IntToString(credits), farmerId, issuanceDate);
    r := ReadAsset(stub, id);
    ParseIntOfString(credits);
  }
}
