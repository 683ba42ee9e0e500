/** The authentication gate (internal/middleware/auth.go): a protected
    handler runs only when the Authorization header carries the configured
    token under the Bearer scheme of section 2.1 of RFC 6750. The scheme name
    is matched case-sensitively, as the code does, although section 11.1 of
    RFC 9110 makes scheme names case-insensitive. The constant-time
    comparison is modelled as equality. */
module Auth {
  import opened Common
  import opened Http

  const BearerPrefix: string := "Bearer "

  /** Every rejection: 401, JSON content type, and the fixed body
      {"error":"unauthorized"} followed by a newline, which is byte for byte
      what writeError would write for the message "unauthorized". */
  const Unauthorized: Response := Response(StatusUnauthorized, Some(ApplicationJson), ErrorBody("unauthorized"))

  /** The test the code makes. `header` is r.Header.Get("Authorization"),
      which is "" when the header is missing. */
  predicate Authorized(header: string, token: string) {
    HasPrefix(header, BearerPrefix) && TrimPrefix(header, BearerPrefix) == token
  }

  /** What the wrapper does with a request: answer it itself, or hand it to
      the wrapped handler untouched. */
  datatype Decision = Reject(response: Response) | Forward

  /** Auth(token, next), applied to one request. */
  function Gate(token: string, header: string): Decision {
    if Authorized(header, token) then Forward else Reject(Unauthorized)
  }

  /** The wrapped handler runs if and only if the header is exactly "Bearer "
      followed by the configured token; every other request gets the one
      fixed 401 response. */
  lemma GateIsExactMatch(token: string, header: string)
    ensures Gate(token, header).Forward? <==> header == BearerPrefix + token
    ensures Gate(token, header).Reject? ==> Gate(token, header).response == Unauthorized
  {
    if header == BearerPrefix + token {
      assert header[..|BearerPrefix|] == BearerPrefix;
    }
  }

  /** The rejections the tests name: no header, the Basic scheme, a bare
      "Bearer " when the token is not empty, a wrong token, the scheme in
      lower case, and two spaces before the token. */
  lemma NamedRejections(token: string)
    requires token != ""
    ensures Gate(token, "").Reject?
    ensures Gate(token, "Basic dXNlcjpwYXNz").Reject?
    ensures Gate(token, "Bearer ").Reject?
    ensures Gate(token, "bearer " + token).Reject?
    ensures Gate(token, "Bearer  " + token).Reject?
    ensures Gate(token, "Bearer " + token).Forward?
  {
    GateIsExactMatch(token, "");
    GateIsExactMatch(token, "Basic dXNlcjpwYXNz");
    assert "Basic dXNlcjpwYXNz"[1] != (BearerPrefix + token)[1];
    GateIsExactMatch(token, "Bearer ");
    GateIsExactMatch(token, "bearer " + token);
    assert ("bearer " + token)[0] != (BearerPrefix + token)[0];
    GateIsExactMatch(token, "Bearer  " + token);
    assert |"Bearer  " + token| != |BearerPrefix + token|;
    GateIsExactMatch(token, "Bearer " + token);
  }

  /** The decision depends only on the token the gate was built with: a
      header accepted by one gate is refused by a gate with another token. */
  lemma TokensDoNotMix(tokenA: string, tokenB: string)
    requires tokenA != tokenB
    ensures Gate(tokenA, BearerPrefix + tokenA).Forward?
    ensures Gate(tokenB, BearerPrefix + tokenA).Reject?
  {
    GateIsExactMatch(tokenA, BearerPrefix + tokenA);
    GateIsExactMatch(tokenB, BearerPrefix + tokenA);
    assert (BearerPrefix + tokenA)[|BearerPrefix|..] == tokenA;
    assert (BearerPrefix + tokenB)[|BearerPrefix|..] == tokenB;
  }
}
