# CarbonPasture ledger and gateway, modelled in Dafny

This project models the carbon-credit asset contract of the CarbonPasture
Hyperledger Fabric network and the parts of its Node.js gateway that decide
something:

- `AssetLedger` (asset_ledger.dfy) is the chaincode `CarbonPastureContract`. It
  runs against `ChaincodeStub`, a class holding the world state as a
  `map<string, Stored>`. A stored value is a decoded JSON object or raw text that
  does not parse. Text that parses as JSON but is not an object is not
  represented (see "## Left out"). The stub also keeps a sorted key index for the range scan.
  `KeyOrder` (key_order.dfy) supplies the key order and the sorted insert and
  remove.
- `RoleAuth` (role_auth.dfy) is the static role check: an exact lookup of the
  whole `authorization` header in a three-entry table, giving 401, 403 or a pass
  with the role.
- `BearerAuth` (bearer_auth.dfy) is the token check: the `DISABLE_AUTH` bypass,
  the strip of a leading case-insensitive `Bearer` and its spaces, the trim, and
  membership in the list of three valid tokens.
- `AccessToken` (access_token.dfy) is the Daraja OAuth helper:
  - the configuration read from the environment;
  - `mockToken`;
  - the field selection and validation of `fetchDarajaToken`;
  - `getAccessToken`, whose module-level cache becomes the class `TokenCache`.

  The clock reading and the outcome of the HTTP exchange are parameters.
- `GatewayApp` (gateway_app.dfy) covers the REST helpers of the gateway:
  - the `createAsset` record and its id;
  - the legacy-alias mapping of `getAllAssets`;
  - an abstract session model. `GatewayProcess` logs every resource opened and
    closed and every contract call. Its helpers connect through the corrected
    initialization, `GatewayApp.InitializeGateway`, which closes what a failed
    attempt built. Lemmas prove that, with that correction, every call releases
    what it opens. The code as written calls `initializeGateway` outside its
    `try` block and leaks on a failed or timed-out attempt; the as-written
    initialization is modelled separately and its leak is stated (see
    "## Findings").
- `Js` (js.dfy) holds the JavaScript semantics the rest relies on:
  - JSON values seen through property access;
  - truthiness and `||`;
  - ECMAScript white space and `trim`;
  - `String(n)`, `parseInt(s)` and `Number(v)` on integers.
- `Wrappers` (wrappers.dfy) holds `Option` and `Result`.

The Fabric stub calls, the HTTP fetch and the gateway connection are reduced to
abstract outcomes:
- a committed or failed submit;
- an answered or unanswered evaluation;
- the connection step that throws, and whether the 5 s timer wins.

Two points about what the code does:
- `getAllAssets` falls back to a legacy field whenever the canonical field is
  *falsy*. The field names suggest a fallback only for an absent field, but the
  code uses `||`, so a `CarbonCredits` of 0 or an empty string also falls back.
  `GatewayApp.ZeroCreditsListedAsSize` shows the consequence.
- `parseInt` of a non-numeric credits string yields NaN, and `JSON.stringify`
  writes NaN as `null`. The model stores exactly that.

## Model

| member | source | states |
|---|---|---|
| AssetLedger.ChaincodeStub.GetState | chaincode/lib/assetTransfer.js:69 | returns the stored value, or the empty buffer for a key that holds nothing |
| AssetLedger.ChaincodeStub.PutState | chaincode/lib/assetTransfer.js:63 | the state becomes the old state with that one key overwritten; the sorted key index stays matched to the state |
| AssetLedger.ChaincodeStub.DeleteState | chaincode/lib/assetTransfer.js:101 | the state loses exactly that key; the index stays matched |
| AssetLedger.ChaincodeStub.GetStateByRange | chaincode/lib/assetTransfer.js:118 | yields every stored key once, in key order, each with its value |
| AssetLedger.IndexPut | chaincode/lib/assetTransfer.js:118 | after a write, the sorted index still lists each stored key exactly once |
| AssetLedger.IndexDelete | chaincode/lib/assetTransfer.js:118 | after a delete, the sorted index still lists each stored key exactly once |
| KeyOrder.Insert | chaincode/lib/assetTransfer.js:118 | inserting a key keeps the index sorted, adds exactly that key, and grows the index only when the key is new |
| KeyOrder.Remove | chaincode/lib/assetTransfer.js:118 | removing a key keeps the index sorted, drops exactly that key, and shrinks the index only when the key was there |
| AssetLedger.InitLedger | chaincode/lib/assetTransfer.js:12-51 | the loop of four writes leaves the old state overridden by the seed records, and no other key is touched |
| AssetLedger.SeedAssets | chaincode/lib/assetTransfer.js:15-44 | the four seed assets with their ids, types, credits, farmers and dates; SeedStateContents states the records they produce |
| AssetLedger.SeedRecord | chaincode/lib/assetTransfer.js:16-22 | the object literal of one seed, credits as a number; SeedStateContents states that each key holds it |
| AssetLedger.PutSeeds | chaincode/lib/assetTransfer.js:46-49 | the state after the loop has written the given seeds in order, each overwriting its key; InitLedger's loop invariant ties each iteration to it and PutSeedsOverrides states that it is an override |
| AssetLedger.SeedState | chaincode/lib/assetTransfer.js:12-51 | the records InitLedger writes; InitLedger states that the new state is the old one overridden by it, SeedStateContents lists its keys and records, and InitLedgerIdempotent states that a second run changes nothing |
| AssetLedger.SeedStateContents | chaincode/lib/assetTransfer.js:15-44 | the seed writes produce exactly the keys carbonAsset1 to carbonAsset4, each holding its fixed record |
| AssetLedger.PutSeedsOverrides | chaincode/lib/assetTransfer.js:46-49 | writing the seeds one by one over any state equals overriding that state with the seeds written into an empty one |
| AssetLedger.InitLedgerIdempotent | chaincode/lib/assetTransfer.js:12-51 | running InitLedger twice leaves the state that running it once leaves |
| AssetLedger.CreateAsset | chaincode/lib/assetTransfer.js:55-65 | with no existence check, the key is overwritten by the record built from the arguments, with the credits from parseInt; that same record is returned, and other keys are unchanged |
| AssetLedger.ReadAsset | chaincode/lib/assetTransfer.js:68-74 | fails with "Asset id does not exist" exactly when the key holds nothing or an empty value, and otherwise returns the stored value; the ledger is not modified |
| AssetLedger.AssetExists | chaincode/lib/assetTransfer.js:137-140 | true exactly when the key holds a non-empty value |
| AssetLedger.UpdateAsset | chaincode/lib/assetTransfer.js:77-93 | a key that does not exist fails with the update message and the ledger unchanged; an existing key is fully overwritten with the rebuilt record, and that record is returned |
| AssetLedger.DeleteAsset | chaincode/lib/assetTransfer.js:96-102 | a key that does not exist fails with the delete message and the ledger unchanged; an existing key is removed and nothing else changes |
| AssetLedger.TransferAsset | chaincode/lib/assetTransfer.js:105-113 | returns the previous FarmerID, and the record afterwards is the old one with only FarmerID replaced; a missing key fails through ReadAsset and an unparsable value fails, both with no write |
| AssetLedger.GetAllAssets | chaincode/lib/assetTransfer.js:116-134 | one entry per stored key, in key order; a value that does not parse is kept as its raw text and the scan goes on |
| AssetLedger.CreateThenRead | chaincode/lib/assetTransfer.js:55-74 | reading back a created asset returns the record written, and credits sent as `String(n)` come back as the integer n (plain decimal `String`, see "## Left out") |
| AssetLedger.Holds | chaincode/lib/assetTransfer.js:139 | `assetJSON && assetJSON.length > 0`: the key is stored and its value is not the empty buffer; ReadAsset, AssetExists, UpdateAsset, DeleteAsset and TransferAsset state their failure cases as its negation |
| AssetLedger.CreditsJson | chaincode/lib/assetTransfer.js:59-63 | how `JSON.stringify` writes `parseInt(carbonCredits)`: a number as itself and NaN as null; CreatedRecordFields and CreateThenRead state that `String(n)` is stored as the number n |
| AssetLedger.AssetRecord | chaincode/lib/assetTransfer.js:56-62 | the five-field record CreateAsset and UpdateAsset build, with the credits from parseInt and NaN written as null; CreatedRecordFields and CreateThenRead state that credits sent as `String(n)` are stored as n |
| AssetLedger.Decode | chaincode/lib/assetTransfer.js:122-129 | a stored object decodes to itself and unparsable text is kept as its raw text; GetAllAssets states that each scanned value goes through it |
| Js.Or | application-gateway/src/app.js:150-153 | the logical or of two values is truthy exactly when one operand is, and is the left operand when that one is truthy, else the right one |
| Js.Get | application-gateway/src/app.js:149-153 | property access on a decoded object: the field when present, undefined otherwise; AccessTokenField, NormalizePrefersCanonical and TransferAsset state their results through it |
| Js.Truthy | application-gateway/src/app.js:150-153 | JavaScript truthiness of a property value: undefined, null, false, 0 and "" are falsy and everything else truthy; Or, AccessTokenField, FetchDarajaToken and NormalizePrefersCanonical state their choices through it |
| Js.TrimStart | application-gateway/token.js:22-23 | the result is a suffix of the input; everything cut off is white space, and the result does not start with white space |
| Js.TrimEnd | application-gateway/token.js:22-23 | the result is a prefix of the input; everything cut off is white space, and the result does not end with white space |
| Js.Trim | application-gateway/token.js:22-23 | a trimmed string neither starts nor ends with white space |
| Js.Unpadded | application-gateway/token.js:22-23 | neither end is white space; Trim states that its result is unpadded and TrimOfTrimmed that an unpadded string is its own trim |
| Js.TrimCutsSpaces | application-gateway/token.js:22-23 | the trim is a slice of the input with only white space outside it |
| Js.TrimOfTrimmed | application-gateway/application-gateway-javascript/roleAuth.js:10 | a string with no white space at either end is its own trim |
| Js.TrimIdempotent | application-gateway/application-gateway-javascript/roleAuth.js:10 | trimming twice is trimming once |
| Js.NatToString | application-gateway/src/app.js:122 | `String(n)` of a natural number is a non-empty run of decimal digits with no leading zero (JavaScript agrees below 1e21) |
| Js.IntToString | application-gateway/src/app.js:123 | `String(credits)` for an integer: a minus sign before the decimal digits of a negative number; ParseIntOfString, NumberOfString and IntToStringTrimmed state that parseInt and Number read it back (plain decimal, see "## Left out") |
| Js.ParseIntOfString | chaincode/lib/assetTransfer.js:59 | parseInt of `String(i)` gives back i for every integer of the model, whose `String` is plain decimal (JavaScript agrees for magnitudes below 1e21) |
| Js.ParseInt | chaincode/lib/assetTransfer.js:59 | `parseInt(s)` with no radix: leading white space, an optional sign, an optional 0x prefix and the longest digit run, NaN (None) when there is none; ParseIntOfString and ParseIntWithoutDigits state its round trip with `String` and its NaN case |
| Js.ParseIntWithoutDigits | chaincode/lib/assetTransfer.js:59 | parseInt of a string with no decimal digit is NaN |
| Js.StringToNumber | application-gateway/token.js:99 | `Number` of a string: white space trimmed, empty text is 0, a 0x, 0o or 0b literal or a signed decimal integer, anything else NaN; NumberOfString states that it reads back `String(i)` |
| Js.ToNumber | application-gateway/token.js:99 | `Number(v)` of a property value: undefined is NaN, null and false are 0, true is 1, a number is itself, a string goes through StringToNumber, an array or object is NaN; NumberOfString and ExpiresFieldOfString state what it gives for an integer's string |
| Js.NumberOfString | application-gateway/token.js:99 | `Number` of the string form of an integer is that integer |
| RoleAuth.Decide | application-gateway/middleware/roleAuth.js:11-28 | passes exactly when the header is one of the table's own keys and the required roles are empty or name its role, and then the role is the table's; a missing or unknown header gets 401 before any role test; a known token whose role is not required gets 403 with its role in the message |
| RoleAuth.Tokens | application-gateway/middleware/roleAuth.js:5-9 | the table from the three full "Bearer …" headers to Farmer, Verifier and Admin; Decide, OnlyListedHeadersPass and EmptyRequiredRolesPassAllTokens state what passes through it |
| RoleAuth.OnlyListedHeadersPass | application-gateway/middleware/roleAuth.js:5-19 | only the three listed header strings, "Bearer " prefix included, ever pass, and each passes with one of the three roles |
| RoleAuth.EmptyRequiredRolesPassAllTokens | application-gateway/middleware/roleAuth.js:21-26 | with no required roles every listed header passes with its role |
| RoleAuth.LookupAsWritten | application-gateway/middleware/roleAuth.js:15-19 | `TOKENS[token]` finds a role exactly for the three own keys, an inherited property for the names Object.prototype provides, and is undefined for everything else |
| RoleAuth.Show | application-gateway/middleware/roleAuth.js:22 | a role prints as its name, `constructor` as the function `Object`, `__proto__` as `[object Object]`, and every other inherited property as the native function of that name; InheritedHeaderForbiddenAsWritten states the resulting 403 message |
| RoleAuth.DecideAsWritten | application-gateway/middleware/roleAuth.js:15-26 | as written, 401 exactly for a missing header or one the lookup finds undefined; otherwise a pass exactly when no role is required or the value is a required role, carrying the value `TOKENS[token]` reads, and else 403 naming that value as JavaScript prints it |
| RoleAuth.AsWrittenAgreesOffPrototype | application-gateway/middleware/roleAuth.js:15-26 | the code as written and the corrected lookup decide alike on every header that does not name an inherited property |
| RoleAuth.InheritedHeaderPassesAsWritten | application-gateway/middleware/roleAuth.js:15-26 | as written, the header `toString` passes a route with no required roles; the corrected lookup answers 401 |
| RoleAuth.InheritedHeaderForbiddenAsWritten | application-gateway/middleware/roleAuth.js:15-23 | as written, the unknown header `constructor` gets 403 on an Admin route, with the message "Forbidden: Role function Object() { [native code] } not allowed"; the corrected lookup answers 401 |
| BearerAuth.StripBearer | application-gateway/application-gateway-javascript/roleAuth.js:10 | `replace(/^Bearer\s+/i, '')`: a leading "Bearer" in any case followed by white space loses both, anything else is left as it is; ExtractAfterBearer, SkipSpaces and DoublePrefixRefused state what it strips |
| BearerAuth.IsBearerWord | application-gateway/application-gateway-javascript/roleAuth.js:10 | six characters spelling "bearer" under ASCII case folding, the `Bearer` of `/^Bearer\s+/i`; ExtractAfterBearer and PrefixedTokensAccepted hold for every such spelling |
| BearerAuth.IsValidToken | application-gateway/application-gateway-javascript/roleAuth.js:12-14 | `validTokens.includes(token)`: exactly farmer-token, verifier-token and admin-token; Authenticate passes exactly when it holds of the extracted token, and PrefixedTokenShape states that no prefixed header satisfies it |
| BearerAuth.ExtractToken | application-gateway/application-gateway-javascript/roleAuth.js:9-10 | the missing header read as "", stripped and trimmed; ExtractAfterBearer, BareTokensAccepted and MissingHeaderRefused state the token it yields |
| BearerAuth.Authenticate | application-gateway/application-gateway-javascript/roleAuth.js:4-20 | with `DISABLE_AUTH` equal to "true" the request passes uninspected; otherwise it passes exactly when the extracted token is valid, and every refusal is 401 with the fixed message |
| BearerAuth.ExtractAfterBearer | application-gateway/application-gateway-javascript/roleAuth.js:9-10 | a case-insensitive "Bearer", at least one white space and a token with no white space at either end yield exactly that token |
| BearerAuth.SkipSpaces | application-gateway/application-gateway-javascript/roleAuth.js:10 | the white space after the prefix is skipped up to the first other character |
| BearerAuth.PrefixedTokensAccepted | application-gateway/application-gateway-javascript/roleAuth.js:9-17 | every valid token passes behind any spelling of "Bearer" and any non-empty run of white space |
| BearerAuth.BareTokensAccepted | application-gateway/application-gateway-javascript/roleAuth.js:10-17 | a valid token with no prefix passes too, since the strip leaves it alone |
| BearerAuth.MissingHeaderRefused | application-gateway/application-gateway-javascript/roleAuth.js:9-20 | without the bypass, a missing header is treated as an empty one and refused with 401 |
| BearerAuth.DoublePrefixRefused | application-gateway/application-gateway-javascript/roleAuth.js:10-20 | only one prefix is stripped, so a valid token behind two prefixes is refused |
| BearerAuth.PrefixedTokenShape | application-gateway/application-gateway-javascript/roleAuth.js:10-14 | a prefixed valid token neither starts nor ends with white space and is not itself a valid token |
| AccessToken.MockToken | application-gateway/token.js:33-36 | a mock token is marked mock, lives 3600 s, carries "mock-demo-token-" followed by the clock reading, and is truthy |
| AccessToken.MockTokensDiffer | application-gateway/token.js:33-35 | mock tokens made at different instants differ |
| Js.NatToStringInjective | application-gateway/token.js:34 | distinct clock readings have distinct decimal forms, so two mock tokens made at different times differ (MockTokensDiffer) |
| AccessToken.EnvOr | application-gateway/token.js:22-23 | the primary variable when it is set and non-empty, else the fallback variable, else "" |
| AccessToken.TrimmedEnvOr | application-gateway/token.js:22-23 | the trim of the first set, non-empty variable of the pair, or "" when neither is set; the result has no white space at either end |
| AccessToken.LoadConfig | application-gateway/token.js:22-26 | the key is the trim of MPESA_KEY or else MPESA_CONSUMER_KEY, the secret the trim of MPESA_SECRET or else MPESA_CONSUMER_SECRET; both have no white space at either end and are empty when neither of their variables is set; the force-mock switch is on exactly when MPESA_FORCE_MOCK or FORCE_MOCK is "1" |
| AccessToken.ForceMockEnv | application-gateway/token.js:26 | MPESA_FORCE_MOCK or FORCE_MOCK equals "1"; LoadConfig sets the force-mock switch exactly when it holds |
| AccessToken.AccessTokenField | application-gateway/token.js:98 | the token is the first truthy field of access_token, AccessToken and token, in that priority, and there is one exactly when one of them is truthy |
| AccessToken.IsOk | application-gateway/token.js:90 | `resp.ok`: a status from 200 to 299; FetchDarajaToken fails with the status exactly when it does not hold |
| AccessToken.FetchDarajaToken | application-gateway/token.js:49-104 | succeeds exactly when key and secret are set, the response is 2xx with an object body, and a token field is truthy; an empty key or secret fails first, a non-2xx status fails with that status; a fetched token is not a mock, carries the selected field and has the `Number` of the first truthy expiry field, defaulting to 3600 |
| AccessToken.ExpiresField | application-gateway/token.js:99 | `Number` of the first truthy of expires_in, expiresIn and expires, else of 3600; ExpiresFieldDefaults and ExpiresFieldOfString state its default and its reading of numbers and numeric strings |
| AccessToken.ExpiresFieldDefaults | application-gateway/token.js:99 | without a truthy expiry field the lifetime is 3600; a non-zero numeric expires_in is taken as it is |
| AccessToken.ExpiresFieldOfString | application-gateway/token.js:99 | an expires_in sent as the decimal string of an integer is read as that integer |
| AccessToken.Ttl | application-gateway/token.js:124 | the cache lifetime is the token's lifetime less 60 s but never below 30 s; a NaN or zero lifetime counts as 3600 s, giving 3540 s |
| AccessToken.TokenCache.constructor | application-gateway/token.js:30 | the cache starts empty |
| AccessToken.TokenCache.Live | application-gateway/token.js:117 | the cache is set and `now` is before its expiry; GetAccessToken states that a live cache is returned with no fetch and the cache unchanged |
| AccessToken.TokenCache.GetAccessToken | application-gateway/token.js:110-133 | forced mocking returns a mock with the cache unchanged; a cached token still before its expiry is returned with no fetch; a successful fetch is returned and cached until now + ttl × 1000 ms; a failed fetch returns a mock with the cache unchanged; the cache never holds a mock |
| AccessToken.Served | application-gateway/token.js:110-133 | the token a call returns: a mock when forced, the cached token while live, else the fetched token or a mock when the fetch fails; GetAccessToken is proved to return it, and MockOnlyWhenForcedOrFailed, FetchedTokenReused and MissingCredentialsServeMock state its properties |
| AccessToken.MockOnlyWhenForcedOrFailed | application-gateway/token.js:110-133 | the caller gets a mock exactly when mocking is forced, or when there is no live cached token and the fetch fails |
| AccessToken.FetchedTokenReused | application-gateway/token.js:117-125 | a token fetched at `now` is served from the cache at every instant before now + 30 s, whatever a new request would receive |
| AccessToken.MissingCredentialsServeMock | application-gateway/token.js:122-132 | without a key or secret, every uncached call returns a mock |
| GatewayApp.Normalize | application-gateway/src/app.js:148-154 | the mapping applied to each decoded element; NormalizePrefersCanonical, LegacyRecordListedCanonically, TextEntryListedEmpty and ZeroCreditsListedAsSize state what it lists |
| GatewayApp.NormalizePrefersCanonical | application-gateway/src/app.js:148-154 | ID is passed through unaliased, and every other field is the canonical field when that is truthy, else its legacy alias Color, Size, Owner or AppraisedValue |
| GatewayApp.Field | application-gateway/src/app.js:149-153 | `a.X` on a decoded element: the field of an object, undefined on a string element; NormalizePrefersCanonical and TextEntryListedEmpty state the view through it |
| GatewayApp.LegacyRecordListedCanonically | application-gateway/src/app.js:148-154 | a record stored under the legacy names only is listed under the canonical ones |
| GatewayApp.TextEntryListedEmpty | application-gateway/src/app.js:148-154 | an entry kept as raw text is listed with every field undefined |
| GatewayApp.ZeroCreditsListedAsSize | application-gateway/src/app.js:151 | an asset created with 0 credits is listed with its Size field, which a created record lacks, so its credits are lost |
| GatewayApp.AssetId | application-gateway/src/app.js:122 | the id of a new asset is "carbonAsset" followed by the clock reading |
| GatewayApp.CreatedView | application-gateway/src/app.js:125 | the object createAsset returns: its arguments as given, with the id; GatewayProcess.CreateAsset returns it and CreatedAssetListedAsReturned states that a listing shows it back |
| GatewayApp.CreatedRecordFields | application-gateway/src/app.js:123 | the record the contract writes from `String(credits)` holds the credits as the integer (plain decimal `String`, see "## Left out") and none of the legacy field names |
| GatewayApp.CreatedAssetListedAsReturned | application-gateway/src/app.js:123-153 | with no falsy field, a created asset is listed by getAllAssets exactly as createAsset returned it |
| GatewayApp.Built | application-gateway/src/app.js:73-97 | the client exists unless reading the TLS certificate fails, and the gateway exists exactly when no step fails |
| GatewayApp.Failure | application-gateway/src/app.js:71-106 | how the race settles: the timer first, else the step that threw, else no error; Connect states that it is the error a failed call reports |
| GatewayApp.Connects | application-gateway/src/app.js:71-106 | no step throws and the timer does not win; Connect succeeds exactly when it holds, and InitializeGatewayReleases and CallReleases split on it |
| GatewayApp.Closes | application-gateway/src/app.js:126-130 | closes in the reverse order of construction, the gateway before the client as in the `finally` blocks; InitializeGatewayReleases states that they release what was opened |
| GatewayApp.Released | application-gateway/src/app.js:126-159 | every resource is closed as often as it is opened; InitializeGatewayReleases and CallReleases state that every call's events satisfy it |
| GatewayApp.InitializeAsWritten | application-gateway/src/app.js:71-106 | `initializeGateway` as written: the resources built are opened and never closed, and the race settles with the timer, else the failing step, else success; InitializeLeaksAsWritten states its leak |
| GatewayApp.InitializeGateway | application-gateway/src/app.js:71-106 | `initializeGateway` corrected to close, in reverse order, what a failed or timed-out attempt built; InitializeExtendsAsWritten ties it to the code as written and InitializeGatewayReleases states that it releases everything on failure |
| GatewayApp.InitializeLeaksAsWritten | application-gateway/src/app.js:71-106 | as written, a failing signing-certificate read leaves the client open and a lost race leaves both the client and the gateway open, each opened once and never closed |
| GatewayApp.InitializeExtendsAsWritten | application-gateway/src/app.js:71-106 | the corrected initialization settles as the code as written does, succeeds exactly when the attempt connects, and only appends closes to the events as written |
| GatewayApp.InitializeGatewayReleases | application-gateway/src/app.js:71-106 | the corrected initialization leaves exactly the client and gateway open on success, and on every failure closes all it opened |
| GatewayApp.SessionOpened | application-gateway/src/app.js:71-104 | a successful connection has opened the client and then the gateway |
| GatewayApp.Session | application-gateway/src/app.js:118-160 | the events of a call that obtained a session: client and gateway opened, the one contract call, gateway and client closed; CallReleases states its closes and the place of the call |
| GatewayApp.CallEvents | application-gateway/src/app.js:118-160 | the events one createAsset or getAllAssets produces: the session when the attempt connects, else the attempt's own events; GatewayProcess.CreateAsset and GetAllAssets append exactly it to the log, and CallReleases states that it releases all it opens |
| GatewayApp.CallReleases | application-gateway/src/app.js:118-160 | every REST call releases all it opens; once a session is obtained, the gateway and the client are closed exactly once each, after the call |
| GatewayApp.GatewayProcess.Connect | application-gateway/src/app.js:120 | `await initializeGateway()` with the corrected initialization, not the call as written: logs the attempt's opens and, on failure, its closes; succeeds exactly when the attempt connects, and otherwise fails with the attempt's error |
| GatewayApp.GatewayProcess.SubmitCreateAsset | application-gateway/src/app.js:123 | logs the submit with the id, the type, the credits string, the farmer and the date; a committed transaction runs the contract's CreateAsset on the ledger, and an uncommitted one leaves the ledger unchanged |
| GatewayApp.GatewayProcess.Release | application-gateway/src/app.js:126-130 | closes the gateway, then the client |
| GatewayApp.GatewayProcess.CreateAsset | application-gateway/src/app.js:118-131 | logs a full session around one CreateAsset submit of `String(credits)`, or only the failed attempt; a connection failure aborts before any ledger call; a committed submit stores the record and returns the arguments with the credits un-reparsed; a failed submit returns an error with the ledger unchanged |
| GatewayApp.GatewayProcess.GetAllAssets | application-gateway/src/app.js:133-160 | logs a full session around one GetAllAssets evaluation, or only the failed attempt; when answered it returns one normalized view per stored key, in key order; an unanswered evaluation fails with no Fabric response |

## Left out

- JSON and byte encoding (`JSON.stringify`, `JSON.parse`, `Buffer`, `TextDecoder`) are not modelled. Records are maps of decoded JSON values, and text that does not parse is a separate variant.
- Numbers are integers. Floating point, `Infinity`, exponent notation and fractional strings are not modelled. `parseInt` and `Number` are modelled for integer text, including signs, leading white space and hexadecimal prefixes.
- Fabric's validation of keys and its read-your-writes rules inside one transaction are not modelled. The stub is a plain map with a sorted index.
- Each `Date.now()` is one clock reading passed as a parameter. Two calls in one operation may read different instants in the source; the model uses the same reading.
- Logging (`console.*`) is not modelled. Neither is the `MPESA_DEBUG` DNS lookup, the configured `TOKEN_URL`, `MPESA_TOKEN_TIMEOUT_MS`, the https agent, or the Basic authorization header of token.js, all of which are I/O.
- The gRPC client, TLS credentials, certificate and key file reads, `crypto.createPrivateKey` and `connect` are reduced to the step that throws. The deadlines of the four call tiers are not modelled.
- `Promise.race` timing is reduced to two flags: whether the 5 s connection timer wins, and whether the 10 s evaluation timer wins. An attempt that loses the connection race still finishes in the background. Its later rejection or resolution is not modelled beyond the resources it builds.
- `connectGateway` in app.js is not modelled. It drops the gateway and client it obtains, and nothing in the REST helpers calls it.
- `gateway.close()` throwing inside `finally` is not modelled: close is assumed to succeed.
- `Js.IntToString`: `String(n)` is plain decimal for every integer. JavaScript switches to exponent form at magnitudes of 1e21 and above, where `parseInt("1e+21")` is 1, and numbers above 2^53 are not exact. The round trips stated by `Js.ParseIntOfString`, `AssetLedger.CreateThenRead` and `GatewayApp.CreatedRecordFields` therefore hold in JavaScript only below 1e21 in magnitude (and exactly only up to 2^53).
- `Js.ToNumber`: every array or object value is NaN. In JavaScript `Number([])` is 0 and `Number([5])` is 5; array contents are not modelled.
- `AssetLedger.Stored`: text that is valid JSON but not an object (`5`, `"x"`, `[1]`, `null`) is not represented; the model has only objects and unparsable text. For such a value `GetAllAssets` pushes the parsed value itself, and `TransferAsset` throws on a primitive or `null` under strict mode, or writes an array back unchanged. None of that is modelled.
- `GatewayApp.GatewayProcess.CreateAsset`: `credits` is an integer. A string or fractional `credits` from the HTTP layer, returned as given but stored through `parseInt`, is not modelled.
- `GatewayApp.GatewayProcess.Connect`: it runs the corrected initialization. As written, `createAsset` and `getAllAssets` call `initializeGateway` outside their `try` block, so a failed or timed-out attempt leaks what it built (the second row of "## Findings"). The release lemmas hold of the corrected helpers only.
- `GatewayApp.GatewayProcess.CreateAsset`: a submit that fails is modelled as leaving the ledger unchanged. The transaction may in fact have committed when only the commit-status wait failed.
- `AccessToken.FetchDarajaToken`: the token value is one decoded JSON value. Arbitrary JavaScript values such as functions and nested objects are not modelled, and a body that is valid JSON but not an object is treated like an invalid one.
- payment.js, mpesa-callback.js, server.js, mini-test.js, ping.js and the CLI flows of app.js are not part of this model. They are Express servers, HTTP calls and file appends with no logic of their own.

## Findings

| source | as written | input that shows it | evidently intended | confidence | as-written member | corrected member |
|---|---|---|---|---|---|---|
| application-gateway/middleware/roleAuth.js:15-19 | `!TOKENS[token]` reads through Object.prototype, so a header naming an inherited property counts as a known token | header `toString` on a route with no required roles passes, authenticated as the function `Object.prototype.toString`; header `constructor` on an Admin route gets 403 instead of 401 | only the three own keys of the table authenticate; anything else gets 401 | high, not executed | RoleAuth.DecideAsWritten, RoleAuth.InheritedHeaderPassesAsWritten | RoleAuth.Decide, RoleAuth.OnlyListedHeadersPass |
| application-gateway/src/app.js:71-106 | `initializeGateway` closes nothing when a step after `new grpc.Client` throws, or when the 5 s timer wins the race | a signing-certificate directory that cannot be read leaves the client open; a timeout leaves the client and the gateway open | whatever the attempt constructed is closed when the caller gets no session | high, not executed | GatewayApp.InitializeAsWritten, GatewayApp.InitializeLeaksAsWritten | GatewayApp.InitializeGateway, GatewayApp.InitializeGatewayReleases |
