/**
 * The access control of the newest server: the bearer-token gate in front of
 * the protected routes and the login decision that issues tokens. Token
 * verification, token signing and the password-hash comparison are
 * cryptographic calls outside the model; they are parameters here.
 */
module Access {
  import opened Wrappers
  import opened Text
  import opened Http
  import opened Sequences

  /**
   * `authHeader && authHeader.split(" ")[1]`: no header gives no token; an
   * empty header short-circuits to the empty token; otherwise the token is
   * the second space-separated part, which exists exactly when the header
   * holds a space.
   */
  function BearerToken(header: Option<string>): (token: Option<string>)
    ensures header.None? ==> token.None?
    ensures header == Some([]) ==> token == Some([])
    ensures header.Some? && header.value != [] ==> (token.Some? <==> ' ' in header.value)
    ensures token.Some? ==> ' ' !in token.value
  {
    match header
    case None => None
    case Some(h) =>
      if h == [] then Some([])
      else
        var pieces := Split(h, ' ');
        SplitCount(h, ' ');
        if |pieces| > 1 then
          assert pieces[1] in pieces;
          Some(pieces[1])
        else None
  }

  /**
   * A header `<scheme> <token><rest>`, where the scheme and the token hold no
   * space and the rest is empty or starts with a space, yields that token:
   * the piece after the first space, up to the next one. This covers the
   * empty token of `"Bearer  tok"` and the ignored tail of `"Bearer tok x"`.
   */
  lemma BearerTokenOfScheme(scheme: string, t: string, rest: string)
    requires ' ' !in scheme && ' ' !in t
    requires rest == [] || rest[0] == ' '
    ensures BearerToken(Some(scheme + [' '] + t + rest)) == Some(t)
  {
    assert scheme + [' '] + t + rest == scheme + [' '] + (t + rest);
    SplitAtFirst(scheme, t + rest, ' ');
    if rest == [] {
      assert t + rest == t;
      SplitNoSeparator(t, ' ');
    } else {
      assert t + rest == t + [' '] + rest[1..];
      SplitAtFirst(t, rest[1..], ' ');
    }
  }

  /**
   * Conversely, every header holding a space has that shape around the
   * token it yields: a space-free scheme, one space, the token, then nothing
   * or a space. With `BearerTokenOfScheme` this fixes the token's value.
   */
  lemma BearerTokenSplitsHeader(h: string)
    requires ' ' in h
    ensures BearerToken(Some(h)).Some?
    ensures exists scheme, rest ::
      && h == scheme + [' '] + BearerToken(Some(h)).value + rest
      && ' ' !in scheme && (rest == [] || rest[0] == ' ')
  {
    var pieces := Split(h, ' ');
    SplitCount(h, ' ');
    JoinSplit(h, ' ');
    JoinFirstTwo(pieces, ' ');
    assert pieces[0] in pieces;
    var rest := AfterSecond(pieces, ' ');
    assert h == pieces[0] + [' '] + pieces[1] + rest;
  }

  /** What a join holds after its second piece: nothing, or the separator and the joined remainder. */
  function AfterSecond(pieces: seq<string>, sep: char): (rest: string)
    requires |pieces| >= 2
    ensures rest == [] || rest[0] == sep
  {
    if |pieces| == 2 then [] else [sep] + Join(pieces[2..], sep)
  }

  /** A join of two or more pieces is the first, the separator, the second, then the rest. */
  lemma JoinFirstTwo(pieces: seq<string>, sep: char)
    requires |pieces| >= 2
    ensures Join(pieces, sep) == pieces[0] + [sep] + pieces[1] + AfterSecond(pieces, sep)
  {
    var tail := pieces[1..];
    var rest := AfterSecond(pieces, sep);
    assert Join(pieces, sep) == pieces[0] + [sep] + Join(tail, sep);
    if |pieces| == 2 {
      assert Join(tail, sep) == pieces[1] + rest;
    } else {
      assert tail[1..] == pieces[2..];
      assert Join(tail, sep) == pieces[1] + rest by {
        PrependAssociates(pieces[1], [sep], Join(pieces[2..], sep));
      }
    }
    PrependAssociates(pieces[0] + [sep], pieces[1], rest);
  }

  /**
   * `authenticateToken`: 401 when there is no token, 403 when the token does
   * not verify, and the token handed on otherwise.
   */
  function Gate(header: Option<string>, verify: string -> bool): (r: Result<string, Error>)
    ensures r.Failure? ==> r.error == Unauthorized || r.error == Forbidden
    ensures r == Failure(Unauthorized) <==>
      header.None? || (header.value != [] && ' ' !in header.value)
    ensures r == Failure(Forbidden) <==>
      BearerToken(header).Some? && !verify(BearerToken(header).value)
    ensures r.Success? ==> BearerToken(header) == Some(r.value) && verify(r.value)
  {
    match BearerToken(header)
    case None => Failure(Unauthorized)
    case Some(token) => if verify(token) then Success(token) else Failure(Forbidden)
  }

  /**
   * A request carrying `<scheme> <token><rest>` passes the gate exactly when
   * the token verifies, whatever follows the token's closing space.
   */
  lemma GateOfScheme(scheme: string, t: string, rest: string, verify: string -> bool)
    requires ' ' !in scheme && ' ' !in t
    requires rest == [] || rest[0] == ' '
    ensures Gate(Some(scheme + [' '] + t + rest), verify) == if verify(t) then Success(t) else Failure(Forbidden)
  {
    BearerTokenOfScheme(scheme, t, rest);
  }

  /**
   * `/api/login`: a token signed for the configured user when the username
   * equals it and the password matches the configured hash; 401 otherwise.
   * An unset configuration value or an absent body field is `None`.
   */
  function Login(
    username: Option<string>, password: Option<string>, adminUser: Option<string>,
    passwordMatches: Option<string> -> bool, sign: Option<string> -> string): (r: Result<string, Error>)
    ensures r.Success? <==> username == adminUser && passwordMatches(password)
    ensures r.Success? ==> r.value == sign(adminUser)
    ensures r.Failure? ==> r.error == Unauthorized && r.error.Status() == 401
  {
    if username == adminUser && passwordMatches(password) then Success(sign(adminUser))
    else Failure(Unauthorized)
  }

  /**
   * Login and the gate fit together: when signed tokens contain no space and
   * verify, the token a successful login returns, sent as `Bearer <token>`,
   * passes the gate.
   */
  lemma LoginTokenPassesGate(
    username: Option<string>, password: Option<string>, adminUser: Option<string>,
    passwordMatches: Option<string> -> bool, sign: Option<string> -> string, verify: string -> bool)
    requires Login(username, password, adminUser, passwordMatches, sign).Success?
    requires forall u :: ' ' !in sign(u) && verify(sign(u))
    ensures var t := Login(username, password, adminUser, passwordMatches, sign).value;
      Gate(Some("Bearer " + t), verify) == Success(t)
  {
    var t := Login(username, password, adminUser, passwordMatches, sign).value;
    assert "Bearer " + t == "Bearer" + [' '] + t + [];
    GateOfScheme("Bearer", t, [], verify);
  }
}
