/** The REST helpers of application-gateway/src/app.js: `createAsset` and
    `getAllAssets` each open a gRPC client and a Fabric gateway, call the contract
    once and close both in a `finally` block; `getAllAssets` maps every decoded
    record onto the canonical field names, falling back to the field names of the
    older basic asset sample. The gateway connection is reduced to which
    resources get built and whether a step fails or the 5 s race is lost. */
module GatewayApp {
  import opened Wrappers
  import opened Js
  import AssetLedger

  // ---- Records seen by the REST layer -------------------------------------------

  /** The object the REST layer returns for one asset; None is `undefined`. */
  datatype AssetView = AssetView(id: Option<Json>, sequestrationType: Option<Json>, carbonCredits: Option<Json>,
                                 farmerId: Option<Json>, issuanceDate: Option<Json>)

  /** `a[name]` on a decoded element of the `GetAllAssets` result; a string element
      has none of the record's properties. */
  function Field(e: AssetLedger.Entry, name: string): Option<Json>
  {
    match e
    case Object(fields) => Get(fields, name)
    case Text(_) => None
  }

  /** The mapping applied to each element in `getAllAssets`: ID as it is, every
      other field from its canonical name when that is truthy, else from its
      legacy alias. */
  function Normalize(e: AssetLedger.Entry): AssetView
  {
    AssetView(
      Field(e, "ID"),
      Or(Field(e, "SequestrationType"), Field(e, "Color")),
      Or(Field(e, "CarbonCredits"), Field(e, "Size")),
      Or(Field(e, "FarmerID"), Field(e, "Owner")),
      Or(Field(e, "IssuanceDate"), Field(e, "AppraisedValue")))
  }

  /** Each field of the view is the canonical field when that is truthy, and the
      legacy alias otherwise; ID has no alias. */
  lemma NormalizePrefersCanonical(e: AssetLedger.Entry)
    ensures Normalize(e).id == Field(e, "ID")
    ensures Normalize(e).sequestrationType ==
      if Truthy(Field(e, "SequestrationType")) then Field(e, "SequestrationType") else Field(e, "Color")
    ensures Normalize(e).carbonCredits ==
      if Truthy(Field(e, "CarbonCredits")) then Field(e, "CarbonCredits") else Field(e, "Size")
    ensures Normalize(e).farmerId ==
      if Truthy(Field(e, "FarmerID")) then Field(e, "FarmerID") else Field(e, "Owner")
    ensures Normalize(e).issuanceDate ==
      if Truthy(Field(e, "IssuanceDate")) then Field(e, "IssuanceDate") else Field(e, "AppraisedValue")
  {
  }

  /** The id `createAsset` gives a new asset at clock reading `now`. */
  function AssetId(now: nat): (id: string)
    ensures |id| > |"carbonAsset"| && id[..|"carbonAsset"|] == "carbonAsset"
  {
    "carbonAsset" + NatToString(now)
  }

  /** The object `createAsset` returns: the arguments as given, credits included. */
  function CreatedView(id: string, sequestrationType: string, credits: int, farmerId: string,
                       issuanceDate: string): AssetView
  {
    AssetView(Some(JStr(id)), Some(JStr(sequestrationType)), Some(JNum(credits)),
              Some(JStr(farmerId)), Some(JStr(issuanceDate)))
  }

  /** A record written by the contract's `CreateAsset` from `String(credits)` is
      listed by `getAllAssets` exactly as `createAsset` returned it, as long as no
      field is falsy. */
  lemma CreatedAssetListedAsReturned(id: string, sequestrationType: string, credits: int,
                                     farmerId: string, issuanceDate: string)
    requires sequestrationType != "" && credits != 0 && farmerId != "" && issuanceDate != ""
    ensures Normalize(AssetLedger.Decode(AssetLedger.Doc(
              AssetLedger.AssetRecord(id, sequestrationType, IntToString(credits), farmerId, issuanceDate))))
         == CreatedView(id, sequestrationType, credits, farmerId, issuanceDate)
  {
    CreatedRecordFields(id, sequestrationType, credits, farmerId, issuanceDate);
    var e := AssetLedger.Decode(AssetLedger.Doc(
      AssetLedger.AssetRecord(id, sequestrationType, IntToString(credits), farmerId, issuanceDate)));
    assert Normalize(e).sequestrationType == Some(JStr(sequestrationType));
    assert Normalize(e).carbonCredits == Some(JNum(credits));
    assert Normalize(e).farmerId == Some(JStr(farmerId));
    assert Normalize(e).issuanceDate == Some(JStr(issuanceDate));
  }

  /** The falsy fallback loses a zero: an asset created with 0 credits is listed with
      the record's `Size`, which a created record lacks. */
  lemma ZeroCreditsListedAsSize(id: string, sequestrationType: string, farmerId: string, issuanceDate: string)
    ensures var e := AssetLedger.Decode(AssetLedger.Doc(
              AssetLedger.AssetRecord(id, sequestrationType, IntToString(0), farmerId, issuanceDate)));
      && Field(e, "CarbonCredits") == Some(JNum(0))
      && Normalize(e).carbonCredits == Field(e, "Size") == None
      && CreatedView(id, sequestrationType, 0, farmerId, issuanceDate).carbonCredits == Some(JNum(0))
  {
    CreatedRecordFields(id, sequestrationType, 0, farmerId, issuanceDate);
  }

  /** The record the contract writes from `String(credits)`: the credits as the
      integer, and none of the legacy field names. */
  lemma CreatedRecordFields(id: string, sequestrationType: string, credits: int, farmerId: string,
                            issuanceDate: string)
    ensures var record := AssetLedger.AssetRecord(id, sequestrationType, IntToString(credits), farmerId, issuanceDate);
      && Get(record, "CarbonCredits") == Some(JNum(credits))
      && Get(record, "Color") == Get(record, "Size") == Get(record, "Owner") == Get(record, "AppraisedValue") == None
  {
    ParseIntOfString(credits);
  }

  /** A record of the basic asset sample, stored under the legacy names only, is
      listed under the canonical ones. */
  lemma LegacyRecordListedCanonically(id: Json, color: Json, size: Json, owner: Json, appraisedValue: Json)
    ensures Normalize(AssetLedger.Object(map["ID" := id, "Color" := color, "Size" := size,
                                             "Owner" := owner, "AppraisedValue" := appraisedValue]))
         == AssetView(Some(id), Some(color), Some(size), Some(owner), Some(appraisedValue))
  {
  }

  /** An element kept as raw text has no fields, so every field is `undefined`. */
  lemma TextEntryListedEmpty(text: string)
    ensures Normalize(AssetLedger.Text(text)) == AssetView(None, None, None, None, None)
  {
  }

  // ---- Sessions: what is opened and what is closed ------------------------------

  datatype Resource = Client | Gateway

  /** What the process does to the outside world, in order. */
  datatype Event =
    | Opened(resource: Resource)
    | Closed(resource: Resource)
    | Submitted(name: string, args: seq<string>)
    | Evaluated(name: string)

  /** How often `e` occurs in `log`. */
  function Count(log: seq<Event>, e: Event): nat
  {
    multiset(log)[e]
  }

  /** Every resource opened in `log` is closed in it as often as it was opened. */
  predicate Released(log: seq<Event>)
  {
    && Count(log, Opened(Client)) == Count(log, Closed(Client))
    && Count(log, Opened(Gateway)) == Count(log, Closed(Gateway))
  }

  /** The steps of `initializeGateway` that can throw: reading the TLS root
      certificate, reading the signing certificate (listing its directory and
      reading the first file), reading the private key the same way, and parsing
      the key. */
  datatype Step = ReadTlsCert | ReadSignCert | ReadPrivateKey | ParsePrivateKey

  datatype InitError = StepFailed(step: Step) | Timeout

  /** How one connection attempt goes: the first step that throws, if any, and
      whether the 5 s timer fires before the attempt settles. */
  datatype Attempt = Attempt(failsAt: Option<Step>, timedOut: bool)

  /** The resources the attempt constructs, in order: the client once the TLS
      certificate is read, the gateway once every step has succeeded. On a timeout
      the attempt goes on in the background and builds the same. */
  function Built(failsAt: Option<Step>): (rs: seq<Resource>)
    ensures Client in rs <==> failsAt != Some(ReadTlsCert)
    ensures Gateway in rs <==> failsAt.None?
  {
    match failsAt
    case Some(ReadTlsCert) => []
    case Some(_) => [Client]
    case None => [Client, Gateway]
  }

  function Opens(rs: seq<Resource>): seq<Event>
  {
    seq(|rs|, i requires 0 <= i < |rs| => Opened(rs[i]))
  }

  /** Closes in the reverse of the order of construction. */
  function Closes(rs: seq<Resource>): seq<Event>
  {
    seq(|rs|, i requires 0 <= i < |rs| => Closed(rs[|rs| - 1 - i]))
  }

  /** How the race settles: the timer, else the failing step, else success. */
  function Failure(a: Attempt): Option<InitError>
  {
    if a.timedOut then Some(Timeout)
    else match a.failsAt
      case Some(step) => Some(StepFailed(step))
      case None => None
  }

  /** The attempt yields a session: no step throws and the timer does not win. */
  predicate Connects(a: Attempt)
  {
    !a.timedOut && a.failsAt.None?
  }

  /** The events of one call and how the caller sees it settle. */
  datatype Init = Init(events: seq<Event>, result: Result<(), InitError>)

  function Settle(a: Attempt): Result<(), InitError>
  {
    match Failure(a)
    case Some(err) => Err(err)
    case None => Ok(())
  }

  /** `initializeGateway()` as written: whatever it constructed before a step throws,
      or before the timer wins, is never closed. */
  function InitializeAsWritten(a: Attempt): Init
  {
    Init(Opens(Built(a.failsAt)), Settle(a))
  }

  /** `initializeGateway()` closing, on every failure, what it constructed. */
  function InitializeGateway(a: Attempt): Init
  {
    var built := Built(a.failsAt);
    Init(Opens(built) + (if Failure(a).Some? then Closes(built) else []), Settle(a))
  }

  /** As written, a failure after the client is constructed leaves it open, and a
      lost race leaves both the client and the gateway open. */
  lemma InitializeLeaksAsWritten()
    ensures var i := InitializeAsWritten(Attempt(Some(ReadSignCert), false));
      i.result == Err(StepFailed(ReadSignCert)) && Count(i.events, Opened(Client)) == 1 && Count(i.events, Closed(Client)) == 0
    ensures var i := InitializeAsWritten(Attempt(None, true));
      && i.result == Err(Timeout)
      && Count(i.events, Opened(Client)) == 1 && Count(i.events, Closed(Client)) == 0
      && Count(i.events, Opened(Gateway)) == 1 && Count(i.events, Closed(Gateway)) == 0
  {
    assert Opens([Client]) == [Opened(Client)];
    assert Opens([Client, Gateway]) == [Opened(Client), Opened(Gateway)];
  }

  /** The corrected initialization settles as the code as written does and records
      the same events, followed by closes. */
  lemma InitializeExtendsAsWritten(a: Attempt)
    ensures InitializeGateway(a).result == InitializeAsWritten(a).result
    ensures InitializeGateway(a).result.Ok? <==> Connects(a)
    ensures InitializeGateway(a).events[..|InitializeAsWritten(a).events|] == InitializeAsWritten(a).events
  {
    var opens := Opens(Built(a.failsAt));
    assert InitializeGateway(a).events[..|opens|] == opens;
  }

  /** The corrected initialization leaves the client and the gateway open for the
      caller on success, and on every failure releases all that it opened. */
  lemma InitializeGatewayReleases(a: Attempt)
    ensures Connects(a) ==> InitializeGateway(a).events == [Opened(Client), Opened(Gateway)]
    ensures !Connects(a) ==> Released(InitializeGateway(a).events)
  {
    var built := Built(a.failsAt);
    if built == [] {
      assert Opens(built) == [] && Closes(built) == [];
    } else if built == [Client] {
      assert Opens(built) == [Opened(Client)];
      assert Closes(built) == [Closed(Client)];
    } else {
      assert built == [Client, Gateway];
      assert Opens(built) == [Opened(Client), Opened(Gateway)];
      assert Closes(built) == [Closed(Gateway), Closed(Client)];
    }
  }

  /** A connection that succeeds has opened the client and then the gateway. */
  lemma SessionOpened(a: Attempt)
    requires Connects(a)
    ensures InitializeGateway(a) == Init([Opened(Client), Opened(Gateway)], Ok(()))
  {
    assert Opens([Client, Gateway]) == [Opened(Client), Opened(Gateway)];
  }

  /** What a REST helper can fail with. */
  datatype AppError = InitFailed(error: InitError) | SubmitFailed | NoFabricResponse

  /** The events of a session that was obtained and used for one call. */
  function Session(call: Event): seq<Event>
  {
    [Opened(Client), Opened(Gateway), call, Closed(Gateway), Closed(Client)]
  }

  /** The log of a session, built up step by step: the opens, the call, the closes. */
  lemma SessionLog(start: seq<Event>, call: Event)
    ensures ((start + [Opened(Client), Opened(Gateway)]) + [call]) + [Closed(Gateway), Closed(Client)]
         == start + Session(call)
  {
    var s := ((start + [Opened(Client), Opened(Gateway)]) + [call]) + [Closed(Gateway), Closed(Client)];
    assert |s| == |start| + 5;
    forall i | 0 <= i < |s| ensures s[i] == (start + Session(call))[i] {
      if i >= |start| {
        assert s[i] == Session(call)[i - |start|];
      }
    }
  }

  /** The events of one REST call: the connection attempt, and, once it yields a
      session, that session. */
  function CallEvents(a: Attempt, call: Event): seq<Event>
  {
    if Connects(a) then Session(call) else InitializeGateway(a).events
  }

  /** Every REST call releases all it opens; once a session is obtained the gateway
      and the client are closed exactly once each, after the call. */
  lemma CallReleases(a: Attempt, call: Event)
    requires call.Submitted? || call.Evaluated?
    ensures Released(CallEvents(a, call))
    ensures Connects(a) ==>
      && Count(CallEvents(a, call), Closed(Client)) == 1 && Count(CallEvents(a, call), Closed(Gateway)) == 1
      && CallEvents(a, call)[2] == call
  {
    InitializeGatewayReleases(a);
  }

  /** The gateway process: its record of opened and closed resources and of the
      calls made to the contract. */
  class GatewayProcess {
    var log: seq<Event>

    constructor ()
      ensures log == []
    {
      log := [];
    }

    /** `await initializeGateway()`: records what the attempt opens and, when it
        fails, closes again. */
    method Connect(a: Attempt) returns (r: Result<(), InitError>)
      modifies this
      ensures r == InitializeGateway(a).result
      ensures log == old(log) + InitializeGateway(a).events
      ensures r.Ok? <==> Connects(a)
      ensures Connects(a) ==> log == old(log) + [Opened(Client), Opened(Gateway)]
      ensures !Connects(a) ==> Failure(a).Some? && r == Err(Failure(a).value)
    {
      var init := InitializeGateway(a);
      log := log + init.events;
      r := init.result;
      if Connects(a) {
        SessionOpened(a);
      }
    }

    /** `contract.submitTransaction('CreateAsset', id, type, credits, farmerId, date)`:
        recorded, and run by the contract on `ledger` when the transaction commits. */
    method SubmitCreateAsset(id: string, sequestrationType: string, credits: string, farmerId: string,
                             issuanceDate: string, ledger: AssetLedger.ChaincodeStub, committed: bool)
      requires ledger.Valid()
      modifies this, ledger
      ensures ledger.Valid()
      ensures log == old(log) + [Submitted("CreateAsset", [id, sequestrationType, credits, farmerId, issuanceDate])]
      ensures committed ==>
        ledger.state == old(ledger.state)[id := AssetLedger.Doc(AssetLedger.AssetRecord(id, sequestrationType, credits, farmerId, issuanceDate))]
      ensures !committed ==> ledger.state == old(ledger.state)
    {
      log := log + [Submitted("CreateAsset", [id, sequestrationType, credits, farmerId, issuanceDate])];
      if committed {
        var _ := AssetLedger.CreateAsset(ledger, id, sequestrationType, credits, farmerId, issuanceDate);
      }
    }

    /** The `finally` block: `await gateway.close(); client.close();`. */
    method Release()
      modifies this
      ensures log == old(log) + [Closed(Gateway), Closed(Client)]
    {
      log := log + [Closed(Gateway)];
      log := log + [Closed(Client)];
    }

    /** `createAsset(type, credits, farmerId, date)` at clock reading `now`, where `a`
        is how the connection attempt goes and `committed` whether the submitted
        transaction commits. A committed transaction runs the contract's
        `CreateAsset` on `ledger`. */
    method CreateAsset(sequestrationType: string, credits: int, farmerId: string, issuanceDate: string,
                       now: nat, a: Attempt, ledger: AssetLedger.ChaincodeStub, committed: bool)
      returns (r: Result<AssetView, AppError>)
      requires ledger.Valid()
      modifies this, ledger
      ensures ledger.Valid()
      ensures log == old(log) + CallEvents(a, Submitted("CreateAsset",
        [AssetId(now), sequestrationType, IntToString(credits), farmerId, issuanceDate]))
      ensures !Connects(a) ==>
        r == Err(InitFailed(Failure(a).value)) && ledger.state == old(ledger.state)
      ensures Connects(a) && committed ==>
        && r == Ok(CreatedView(AssetId(now), sequestrationType, credits, farmerId, issuanceDate))
        && ledger.state == old(ledger.state)[AssetId(now) := AssetLedger.Doc(
             AssetLedger.AssetRecord(AssetId(now), sequestrationType, IntToString(credits), farmerId, issuanceDate))]
      ensures Connects(a) && !committed ==>
        r == Err(SubmitFailed) && ledger.state == old(ledger.state)
    {
      ghost var start := log;
      var init := Connect(a);
      if init.Err? {
        return Err(InitFailed(init.error));
      }
      // try
      var id := AssetId(now);
      ghost var call := Submitted("CreateAsset", [id, sequestrationType, IntToString(credits), farmerId, issuanceDate]);
      SubmitCreateAsset(id, sequestrationType, IntToString(credits), farmerId, issuanceDate, ledger, committed);
      if committed {
        r := Ok(CreatedView(id, sequestrationType, credits, farmerId, issuanceDate));
      } else {
        r := Err(SubmitFailed);
      }
      // finally
      Release();
      SessionLog(start, call);
    }

    /** `getAllAssets()`, where `a` is how the connection attempt goes and `answered`
        whether the evaluation returns within its 10 s race. */
    method GetAllAssets(a: Attempt, ledger: AssetLedger.ChaincodeStub, answered: bool)
      returns (r: Result<seq<AssetView>, AppError>)
      requires ledger.Valid()
      modifies this
      ensures log == old(log) + CallEvents(a, Evaluated("GetAllAssets"))
      ensures !Connects(a) ==> r == Err(InitFailed(Failure(a).value))
      ensures Connects(a) && !answered ==> r == Err(NoFabricResponse)
      ensures Connects(a) && answered ==>
        && r.Ok? && |r.value| == |ledger.state|
        && forall i :: 0 <= i < |r.value| ==>
             ledger.keys[i] in ledger.state && r.value[i] == Normalize(AssetLedger.Decode(ledger.state[ledger.keys[i]]))
    {
      ghost var start := log;
      var init := Connect(a);
      if init.Err? {
        return Err(InitFailed(init.error));
      }
      // try
      log := log + [Evaluated("GetAllAssets")];
      if answered {
        var raw := AssetLedger.GetAllAssets(ledger);
        r := Ok(seq(|raw|, i requires 0 <= i < |raw| => Normalize(raw[i])));
      } else {
        r := Err(NoFabricResponse);
      }
      // finally
      Release();
      SessionLog(start, Evaluated("GetAllAssets"));
    }
  }
}
