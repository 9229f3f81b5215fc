/** The OAuth state parameter: a base64url body, a dot, and the body's signature. */
module SignedState {
  import opened Wrappers
  import opened Octets
  import opened Base64Url

  datatype StateError = Malformed | BadSignature | BadBody

  /** JSON printing and parsing, and the keyed hash. */
  datatype Scheme<!P> = Scheme(dumps: P -> seq<Byte>, loads: seq<Byte> -> Option<P>,
                               mac: (seq<Byte>, string) -> seq<Byte>)

  ghost predicate Faithful<P(!new)>(c: Scheme<P>) {
    forall p :: c.loads(c.dumps(p)) == Some(p)
  }

  function SignState<P>(c: Scheme<P>, payload: P, key: seq<Byte>): string {
    var body := B64Url(c.dumps(payload));
    body + "." + B64Url(c.mac(key, body))
  }

  /** Index of the first dot, or the length. */
  function Dot(s: string): (n: nat)
    ensures n <= |s|
  {
    if s == "" || s[0] == '.' then 0 else 1 + Dot(s[1..])
  }

  function VerifyState<P>(c: Scheme<P>, token: string, key: seq<Byte>): Result<P, StateError> {
    var n := Dot(token);
    if n == |token| then Err(Malformed)
    else
      var body, sig := token[..n], token[n + 1..];
      if sig != B64Url(c.mac(key, body)) then Err(BadSignature)
      else
        match UnB64Url(body)
        case None => Err(BadBody)
        case Some(bytes) =>
          match c.loads(bytes)
          case None => Err(BadBody)
          case Some(payload) => Ok(payload)
  }

  lemma {:induction false} DotOf(body: string, rest: string)
    requires '.' !in body
    ensures Dot(body + "." + rest) == |body|
  {
    if body != "" {
      assert (body + "." + rest)[1..] == body[1..] + "." + rest;
      DotOf(body[1..], rest);
    }
  }

  lemma {:induction false} BeforeDot(s: string)
    ensures '.' !in s[..Dot(s)]
    ensures Dot(s) < |s| ==> s[Dot(s)] == '.'
  {
    if s != "" && s[0] != '.' {
      BeforeDot(s[1..]);
      assert s[..Dot(s)] == [s[0]] + s[1..][..Dot(s[1..])];
    }
  }

  /** A signed state verifies under its key to the payload signed. */
  lemma RoundTrip<P(!new)>(c: Scheme<P>, payload: P, key: seq<Byte>)
    requires Faithful(c)
    ensures VerifyState(c, SignState(c, payload, key), key) == Ok(payload)
  {
    var body := B64Url(c.dumps(payload));
    Base64Url.RoundTrip(c.dumps(payload));
    DotOf(body, B64Url(c.mac(key, body)));
    var token := SignState(c, payload, key);
    assert token[..|body|] == body && token[|body| + 1..] == B64Url(c.mac(key, body));
  }

  /** `token` is this body, decoding to this payload, with its own signature. */
  ghost predicate SignedBody<P>(c: Scheme<P>, token: string, key: seq<Byte>, payload: P, body: string) {
    && '.' !in body && token == body + "." + B64Url(c.mac(key, body))
    && UnB64Url(body).Some? && c.loads(UnB64Url(body).value) == Some(payload)
  }

  lemma AcceptsSignedBody<P>(c: Scheme<P>, token: string, key: seq<Byte>, payload: P, body: string)
    requires SignedBody(c, token, key, payload, body)
    ensures VerifyState(c, token, key) == Ok(payload)
  {
    DotOf(body, B64Url(c.mac(key, body)));
    assert token[..|body|] == body && token[|body| + 1..] == B64Url(c.mac(key, body));
  }

  /** The tokens accepted are exactly a dot-free decodable body followed by its own signature. */
  lemma AcceptsExactly<P>(c: Scheme<P>, token: string, key: seq<Byte>, payload: P)
    ensures VerifyState(c, token, key) == Ok(payload) <==>
            exists body :: SignedBody(c, token, key, payload, body)
  {
    if VerifyState(c, token, key) == Ok(payload) {
      BeforeDot(token);
      var body := token[..Dot(token)];
      assert token == body + "." + token[Dot(token) + 1..];
      assert SignedBody(c, token, key, payload, body);
    }
    if exists body :: SignedBody(c, token, key, payload, body) {
      var body :| SignedBody(c, token, key, payload, body);
      AcceptsSignedBody(c, token, key, payload, body);
    }
  }

  /** Which error a refused token gives: no dot, then a wrong signature of what stands before the first dot. */
  lemma RefusesExactly<P>(c: Scheme<P>, token: string, key: seq<Byte>, body: string, sig: string)
    ensures VerifyState(c, token, key) == Err(Malformed) <==> '.' !in token
    ensures token == body + "." + sig && '.' !in body ==>
              (VerifyState(c, token, key) == Err(BadSignature) <==> sig != B64Url(c.mac(key, body)))
  {
    BeforeDot(token);
    if Dot(token) == |token| { assert token[..Dot(token)] == token; }
    if token == body + "." + sig && '.' !in body {
      DotOf(body, sig);
      assert token[..|body|] == body && token[|body| + 1..] == sig;
    }
  }

  /** Another key accepts a state exactly when it hashes the body to the same bytes. */
  lemma OtherKey<P(!new)>(c: Scheme<P>, payload: P, key: seq<Byte>, other: seq<Byte>)
    requires Faithful(c)
    ensures var body := B64Url(c.dumps(payload));
            VerifyState(c, SignState(c, payload, key), other) ==
            if c.mac(other, body) == c.mac(key, body) then Ok(payload) else Err(BadSignature)
  {
    var body := B64Url(c.dumps(payload));
    Base64Url.RoundTrip(c.dumps(payload));
    DotOf(body, B64Url(c.mac(key, body)));
    Base64Url.Injective(c.mac(other, body), c.mac(key, body));
    var token := SignState(c, payload, key);
    assert token[..|body|] == body && token[|body| + 1..] == B64Url(c.mac(key, body));
  }
}
