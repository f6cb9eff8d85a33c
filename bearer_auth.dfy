/** The token check of application-gateway/application-gateway-javascript/roleAuth.js:
    unless authentication is switched off by the environment, the `authorization`
    header loses a leading "Bearer" and the white space after it, is trimmed, and
    must then be one of three fixed tokens. */
module BearerAuth {
  import opened Wrappers
  import opened Js

  /** `validTokens.includes(token)`. */
  predicate IsValidToken(token: string)
  {
    token == "farmer-token" || token == "verifier-token" || token == "admin-token"
  }

  const UnauthorizedError := "Unauthorized: Invalid or missing token"

  /** `Next` calls `next()`; `Unauthorized` sends 401 and does not. */
  datatype Outcome = Next | Unauthorized(status: int, error: string)

  /** ASCII case folding, the only folding a non-Unicode `/i` regular expression
      applies to the letters of "Bearer". */
  function Lower(c: char): char
  {
    if 'A' <= c <= 'Z' then (c as int + 32) as char else c
  }

  /** `s` spells "bearer" in any mix of cases. */
  predicate IsBearerWord(s: string)
  {
    |s| == 6 && forall i :: 0 <= i < 6 ==> Lower(s[i]) == "bearer"[i]
  }

  /** `header.replace(/^Bearer\s+/i, '')`: a leading "Bearer" in any case followed
      by at least one space is removed together with all the spaces after it. */
  function StripBearer(header: string): string
  {
    if |header| > 6 && IsBearerWord(header[..6]) && IsSpace(header[6]) then TrimStart(header[6..])
    else header
  }

  /** The token the middleware checks; a missing header counts as empty. */
  function ExtractToken(header: Option<string>): string
  {
    var authHeader := match header case Some(h) => h case None => "";
    Trim(StripBearer(authHeader))
  }

  /** The middleware, given the value of `DISABLE_AUTH` in the environment (None when
      unset) and the request's `authorization` header. */
  function Authenticate(disableAuth: Option<string>, header: Option<string>): (r: Outcome)
    ensures disableAuth == Some("true") ==> r == Next
    ensures disableAuth != Some("true") ==> (r == Next <==> IsValidToken(ExtractToken(header)))
    ensures r != Next ==> r == Unauthorized(401, UnauthorizedError)
  {
    if disableAuth == Some("true") then Next
    else if IsValidToken(ExtractToken(header)) then Next
    else Unauthorized(401, UnauthorizedError)
  }

  /** A header made of a case-insensitive "Bearer", at least one space, and a token
      with no space at either end yields exactly that token. */
  lemma {:induction false} ExtractAfterBearer(word: string, spaces: string, token: string)
    requires IsBearerWord(word)
    requires spaces != [] && forall i :: 0 <= i < |spaces| ==> IsSpace(spaces[i])
    requires Unpadded(token)
    ensures ExtractToken(Some(word + spaces + token)) == token
  {
    var h := word + spaces + token;
    assert h[..6] == word;
    assert h[6] == spaces[0];
    assert h[6..] == spaces + token;
    SkipSpaces(spaces, token);
    TrimOfTrimmed(token);
  }

  /** Leading spaces are skipped up to the first character that is not one. */
  lemma {:induction false} SkipSpaces(spaces: string, rest: string)
    requires forall i :: 0 <= i < |spaces| ==> IsSpace(spaces[i])
    requires rest != [] ==> !IsSpace(rest[0])
    ensures TrimStart(spaces + rest) == rest
    decreases |spaces|
  {
    if spaces != [] {
      assert (spaces + rest)[1..] == spaces[1..] + rest;
      SkipSpaces(spaces[1..], rest);
    } else {
      assert spaces + rest == rest;
    }
  }

  /** Every valid token is accepted after a "Bearer" prefix in any case and any
      non-empty run of spaces. */
  lemma PrefixedTokensAccepted(word: string, spaces: string, token: string)
    requires IsValidToken(token) && IsBearerWord(word)
    requires spaces != [] && forall i :: 0 <= i < |spaces| ==> IsSpace(spaces[i])
    ensures Authenticate(None, Some(word + spaces + token)) == Next
  {
    assert !IsSpace(token[0]) && !IsSpace(token[|token| - 1]);
    ExtractAfterBearer(word, spaces, token);
  }

  /** A valid token is accepted bare too: it does not start with "bearer", so the
      strip leaves it alone. */
  lemma BareTokensAccepted(token: string)
    requires IsValidToken(token)
    ensures Authenticate(None, Some(token)) == Next
  {
    assert Lower(token[0]) != 'b';
    assert !IsBearerWord(token[..6]);
    assert StripBearer(token) == token;
    assert !IsSpace(token[0]) && !IsSpace(token[|token| - 1]);
    TrimOfTrimmed(token);
  }

  /** Without the switch, a missing header is an empty one and is refused. */
  lemma MissingHeaderRefused(disableAuth: Option<string>)
    requires disableAuth != Some("true")
    ensures Authenticate(disableAuth, None) == Authenticate(disableAuth, Some(""))
    ensures Authenticate(disableAuth, None) == Unauthorized(401, UnauthorizedError)
  {
    assert StripBearer("") == "";
    assert Trim("") == "";
    assert ExtractToken(None) == "" && ExtractToken(Some("")) == "";
    assert !IsValidToken("");
  }

  /** Only one prefix is stripped: a valid token after two "Bearer" prefixes is
      refused. */
  lemma DoublePrefixRefused(word: string, spaces: string, word2: string, spaces2: string, token: string)
    requires IsBearerWord(word) && IsBearerWord(word2) && IsValidToken(token)
    requires spaces != [] && forall i :: 0 <= i < |spaces| ==> IsSpace(spaces[i])
    requires spaces2 != [] && forall i :: 0 <= i < |spaces2| ==> IsSpace(spaces2[i])
    ensures Authenticate(None, Some(word + spaces + (word2 + spaces2 + token))) == Unauthorized(401, UnauthorizedError)
  {
    PrefixedTokenShape(word2, spaces2, token);
    ExtractAfterBearer(word, spaces, word2 + spaces2 + token);
  }

  /** A valid token behind a prefix neither starts nor ends with a space, and is too
      long to be a valid token itself. */
  lemma PrefixedTokenShape(word: string, spaces: string, token: string)
    requires IsBearerWord(word) && IsValidToken(token) && spaces != []
    ensures var rest := word + spaces + token;
      && !IsSpace(rest[0]) && !IsSpace(rest[|rest| - 1]) && !IsValidToken(rest)
  {
    var rest := word + spaces + token;
    assert Lower(word[0]) == 'b';
    assert rest[0] == word[0] && (word[0] == 'b' || word[0] == 'B');
    assert rest[|rest| - 1] == token[|token| - 1];
    assert |rest| > 14;
  }
}
