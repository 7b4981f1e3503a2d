/** The bearer-token gate in front of the report and fortnight routes. The
    token is the second space-separated field of the `Authorization` header;
    a missing token is 401, a token that does not verify is 403, and a
    verified token attaches its claims to the request and calls `next`. */
module AuthMiddleware {

  import opened Options
  import opened Js
  import opened Text
  import opened Http

  /** `authHeader && authHeader.split(" ")[1]`: absent for an absent header;
      an empty header is itself the (falsy) result of the `&&`. A non-empty
      token holds no space and comes from a header that holds one. */
  function Token(header: Option<string>): (r: Option<string>)
    ensures header.None? ==> r.None?
    ensures header == Some("") ==> r == Some("")
    ensures r.Some? && r.value != "" ==> ' ' !in r.value && ' ' in header.value
  {
    match header
    case None => None
    case Some(h) =>
      if h == "" then Some("")
      else
        SplitPiecesFree(h, ' ');
        SeparatorSplits(h, ' ');
        Field(Split(h, ' '), 1)
  }

  /** `if (token)` on `undefined` or a text: the token is present and not empty. */
  function TokenPresent(token: Option<string>): (b: bool)
    ensures b <==> Truthy(if token.Some? then Str(token.value) else Undefined)
  {
    token.Some? && token.value != ""
  }

  /** Whatever the first word is (the scheme is never checked), the token is
      the run of non-space characters after the first space. */
  lemma {:induction false} TokenIsSecondField(scheme: string, token: string, tail: string)
    requires ' ' !in scheme && ' ' !in token
    requires tail == [] || tail[0] == ' '
    ensures Token(Some(scheme + " " + token + tail)) == Some(token)
  {
    var h := scheme + " " + token + tail;
    assert h == scheme + [' '] + (token + tail);
    SplitAfterPrefix(scheme, token + tail, ' ');
    if tail == [] {
      assert token + tail == token;
      NoSeparatorSplit(token, ' ');
    } else {
      assert token + tail == token + [' '] + tail[1..];
      SplitAfterPrefix(token, tail[1..], ' ');
    }
  }

  /** A header without any space carries no token. */
  lemma {:induction false} NoSpaceNoToken(h: string)
    requires ' ' !in h
    ensures !TokenPresent(Token(Some(h)))
  {
    if h != "" {
      NoSeparatorSplit(h, ' ');
    }
  }

  /** Two spaces after the first word leave an empty second field: no token. */
  lemma {:induction false} DoubleSpaceNoToken(scheme: string, rest: string)
    requires ' ' !in scheme
    ensures !TokenPresent(Token(Some(scheme + "  " + rest)))
  {
    var h := scheme + "  " + rest;
    assert h == scheme + [' '] + ([' '] + rest);
    SplitAfterPrefix(scheme, [' '] + rest, ' ');
    assert [' '] + rest == [] + [' '] + rest;
    SplitAfterPrefix([], rest, ' ');
  }

  /** The gate's three ways out. */
  datatype GateOutcome = Unauthorized | Verified(claims: JsValue) | Forbidden

  /** The gate as a decision: `verify` is `jwt.verify` with the configured
      secret, None where it throws (bad signature, expired token). */
  function Gate(header: Option<string>, verify: string -> Option<JsValue>): (g: GateOutcome)
    ensures g == Unauthorized <==> !TokenPresent(Token(header))
    ensures g.Verified? <==> TokenPresent(Token(header)) && verify(Token(header).value).Some?
    ensures g.Verified? ==> g.claims == verify(Token(header).value).value
  {
    var token := Token(header);
    if !TokenPresent(token) then Unauthorized
    else match verify(token.value)
      case None => Forbidden
      case Some(claims) => Verified(claims)
  }

  const NoToken := Response(401, Message("Access denied, no token provided."))
  const InvalidToken := Response(403, Message("Invalid token."))

  /** One request passing through the gate: the claims attached to it, the
      responses written, how often `next` was called and which tokens were
      handed to `verify`. */
  class Exchange {
    var user: Option<JsValue>
    var responses: seq<Response>
    var nextCalls: nat
    var verifyCalls: seq<string>

    constructor ()
      ensures user == None && responses == [] && nextCalls == 0 && verifyCalls == []
    {
      user, responses, nextCalls, verifyCalls := None, [], 0, [];
    }

    /** `authenticateToken(req, res, next)`. `nextThrows` says whether the
        downstream `next()` throws, which the surrounding `try` turns into a
        403 after the request has already been forwarded. */
    method Authenticate(header: Option<string>, verify: string -> Option<JsValue>, nextThrows: bool)
      modifies this
      ensures Gate(header, verify) == Unauthorized ==>
                responses == old(responses) + [NoToken] && nextCalls == old(nextCalls)
                && user == old(user) && verifyCalls == old(verifyCalls)
      ensures Gate(header, verify) == Forbidden ==>
                responses == old(responses) + [InvalidToken] && nextCalls == old(nextCalls)
                && user == old(user) && verifyCalls == old(verifyCalls) + [Token(header).value]
      ensures Gate(header, verify).Verified? ==>
                user == Some(Gate(header, verify).claims) && nextCalls == old(nextCalls) + 1
                && verifyCalls == old(verifyCalls) + [Token(header).value]
                && responses == old(responses) + (if nextThrows then [InvalidToken] else [])
      ensures !nextThrows ==> (|responses| - |old(responses)|) + (nextCalls - old(nextCalls)) == 1
    {
      var token := Token(header);
      if !TokenPresent(token) {
        responses := responses + [NoToken];
      }
      if TokenPresent(token) {
        verifyCalls := verifyCalls + [token.value];
        var decoded := verify(token.value);
        if decoded.None? {
          responses := responses + [InvalidToken];
        } else {
          user := Some(decoded.value);
          nextCalls := nextCalls + 1;
          if nextThrows {
            responses := responses + [InvalidToken];
          }
        }
      }
    }
  }

  /** A `Bearer <token>` header whose token verifies passes the gate with
      the decoded claims. */
  lemma BearerHeaderVerified(token: string, verify: string -> Option<JsValue>, claims: JsValue)
    requires token != "" && ' ' !in token && verify(token) == Some(claims)
    ensures Gate(Some("Bearer " + token), verify) == Verified(claims)
  {
    TokenIsSecondField("Bearer", token, "");
    assert "Bearer " + token == "Bearer" + " " + token + "";
  }
}
