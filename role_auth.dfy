/** The static role check of application-gateway/middleware/roleAuth.js: the whole
    `authorization` header is looked up in a fixed table of tokens, giving 401 for
    an unknown or missing header, 403 for a known token whose role is not among the
    required roles, and otherwise passing the request on with its role. */
module RoleAuth {
  import opened Wrappers

  /** `TOKENS`: the whole header, "Bearer " prefix included, to its role. */
  const Tokens: map<string, string> := map[
    "Bearer farmer-token" := "Farmer",
    "Bearer verifier-token" := "Verifier",
    "Bearer admin-token" := "Admin"
  ]

  const UnauthorizedError := "Unauthorized: Invalid or missing token"

  function ForbiddenError(role: string): string
  {
    "Forbidden: Role " + role + " not allowed"
  }

  /** What the middleware does with a request. `Pass` sets `req.userRole` and calls
      `next()` once; `Reject` sends the status and error body and does not call
      `next()`. */
  datatype Response<R> = Pass(userRole: R) | Reject(status: int, error: string)

  /** The middleware `roleAuth(requiredRoles)` applied to a request whose
      `authorization` header is `header` (None when the request has none). The
      table is consulted for its own entries only. */
  function Decide(requiredRoles: seq<string>, header: Option<string>): (r: Response<string>)
    ensures r.Pass? <==>
      header.Some? && header.value in Tokens && (requiredRoles == [] || Tokens[header.value] in requiredRoles)
    ensures r.Pass? ==> r.userRole == Tokens[header.value]
    ensures (header.None? || header.value !in Tokens) ==> r == Reject(401, UnauthorizedError)
    ensures header.Some? && header.value in Tokens && requiredRoles != [] && Tokens[header.value] !in requiredRoles ==>
      r == Reject(403, ForbiddenError(Tokens[header.value]))
  {
    if header.None? || header.value == "" || header.value !in Tokens then Reject(401, UnauthorizedError)
    else
      var userRole := Tokens[header.value];
      if |requiredRoles| > 0 && userRole !in requiredRoles then Reject(403, ForbiddenError(userRole))
      else Pass(userRole)
  }

  /** Only the three listed header strings ever pass, and only with an empty list of
      required roles or one that names their role. */
  lemma OnlyListedHeadersPass(requiredRoles: seq<string>, header: Option<string>)
    requires Decide(requiredRoles, header).Pass?
    ensures header == Some("Bearer farmer-token") || header == Some("Bearer verifier-token")
         || header == Some("Bearer admin-token")
    ensures Decide(requiredRoles, header).userRole in {"Farmer", "Verifier", "Admin"}
  {
  }

  /** With no required roles every listed token passes, whatever its role. */
  lemma EmptyRequiredRolesPassAllTokens(header: string)
    requires header in Tokens
    ensures Decide([], Some(header)) == Pass(Tokens[header])
  {
  }

  // ---- The lookup as written -------------------------------------------------

  /** The properties a plain object literal inherits from Object.prototype. Each
      is a function, or for `__proto__` the prototype object itself, so each is
      truthy when read through `TOKENS[token]`. */
  const InheritedProperties: set<string> := {
    "constructor", "__defineGetter__", "__defineSetter__", "hasOwnProperty",
    "__lookupGetter__", "__lookupSetter__", "isPrototypeOf", "propertyIsEnumerable",
    "toString", "valueOf", "__proto__", "toLocaleString"
  }

  /** What `TOKENS[token]` yields: an own entry, an inherited property, or
      `undefined`. */
  datatype Lookup = Role(name: string) | Inherited(property: string) | Undefined

  function LookupAsWritten(token: string): (v: Lookup)
    ensures v.Role? <==> token in Tokens
    ensures v.Role? ==> v.name == Tokens[token]
    ensures v.Undefined? <==> token !in Tokens && token !in InheritedProperties
  {
    if token in Tokens then Role(Tokens[token])
    else if token in InheritedProperties then Inherited(token)
    else Undefined
  }

  /** `${Object}`: how the function `Object` prints. */
  const ObjectText := "function Object() { [native code] }"

  /** How a looked-up value prints inside the 403 message. `constructor` is the
      function `Object`, `__proto__` is the prototype object, and every other
      inherited property is the native method of that name. */
  function Show(v: Lookup): (s: string)
    ensures v.Role? ==> s == v.name
    ensures v.Inherited? && v.property != "__proto__" ==> |s| > 9 && s[..9] == "function "
  {
    match v
    case Role(name) => name
    case Inherited(p) =>
      if p == "__proto__" then "[object Object]"
      else if p == "constructor" then ObjectText
      else "function " + p + "() { [native code] }"
    case Undefined => "undefined"
  }

  /** The middleware as written: `!TOKENS[token]` tests the value found through the
      prototype chain, so a header naming an inherited property is taken for a
      known token. `requiredRoles.includes(userRole)` compares with strict
      equality, which no string meets for an inherited function. */
  function DecideAsWritten(requiredRoles: seq<string>, header: Option<string>): (r: Response<Lookup>)
    ensures r.Pass? ==> header.Some? && r.userRole == LookupAsWritten(header.value)
    ensures r == Reject(401, UnauthorizedError) <==> header.None? || LookupAsWritten(header.value).Undefined?
    ensures header.Some? && !LookupAsWritten(header.value).Undefined? ==>
      var v := LookupAsWritten(header.value);
      (r.Pass? <==> requiredRoles == [] || (v.Role? && v.name in requiredRoles))
      && (!r.Pass? ==> r == Reject(403, ForbiddenError(Show(v))))
  {
    if header.None? || header.value == "" || LookupAsWritten(header.value).Undefined? then
      Reject(401, UnauthorizedError)
    else
      var userRole := LookupAsWritten(header.value);
      var included := userRole.Role? && userRole.name in requiredRoles;
      if |requiredRoles| > 0 && !included then Reject(403, ForbiddenError(Show(userRole)))
      else Pass(userRole)
  }

  /** The two agree on every header that does not name an inherited property. */
  lemma AsWrittenAgreesOffPrototype(requiredRoles: seq<string>, header: Option<string>)
    requires header.None? || header.value !in InheritedProperties
    ensures match Decide(requiredRoles, header)
      case Pass(role) => DecideAsWritten(requiredRoles, header) == Pass(Role(role))
      case Reject(s, e) => DecideAsWritten(requiredRoles, header) == Reject(s, e)
  {
  }

  /** As written, the header `toString` passes a route that requires no role,
      authenticated as the function `Object.prototype.toString`. */
  lemma InheritedHeaderPassesAsWritten()
    ensures DecideAsWritten([], Some("toString")) == Pass(Inherited("toString"))
    ensures Decide([], Some("toString")) == Reject(401, UnauthorizedError)
  {
  }

  /** As written, an unknown token can get 403 instead of 401: the header
      `constructor` on a route that requires Admin. */
  lemma InheritedHeaderForbiddenAsWritten()
    ensures DecideAsWritten(["Admin"], Some("constructor")) == Reject(403, ForbiddenError(ObjectText))
    ensures Decide(["Admin"], Some("constructor")) == Reject(401, UnauthorizedError)
  {
    assert LookupAsWritten("constructor") == Inherited("constructor");
  }
}
