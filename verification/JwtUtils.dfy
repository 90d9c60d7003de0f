/** server/src/base/JwtUtils.cpp: compact tokens (section 7.1 of RFC 7515) carrying a user and an expiry
    (section 4.1.4 of RFC 7519). HMAC and JSON are parameters. */
module JwtUtils {
  import opened Base64Url
  import LogStream
  import opened Options

  const LIFETIME: int := 7 * 24 * 3600

  datatype Claims = Claims(user: Option<string>, exp: Option<int>)

  /** The library calls: a keyed digest, the dumped header, dump of {user, exp}, and parse, which is
      None where reading the claims throws. */
  datatype Library = Library(
    hmac: string -> string,
    header: string,
    dump: (string, int) -> string,
    parse: string -> Option<Claims>
  ) {
    /** Byte strings everywhere, and dumped claims of this user read back. */
    ghost predicate Sound(user: string) {
      (forall s :: IsBytes(hmac(s))) && IsBytes(header)
      && (forall e :: IsBytes(dump(user, e)) && parse(dump(user, e)) == Some(Claims(Some(user), Some(e))))
    }

    ghost predicate DigestsAreBytes() {
      forall s :: IsBytes(hmac(s))
    }
  }

  /** Libraries like that exist: this one dumps nothing but the expiry. */
  lemma SoundLibrary(user: string)
    ensures exists lib: Library :: lib.Sound(user)
  {
    var lib := Library(s => "", "", (u, e) => LogStream.Decimal(e),
                       s => Some(Claims(Some(user), Some(LogStream.ParseInt(s)))));
    forall e: int
      ensures IsBytes(lib.dump(user, e)) && lib.parse(lib.dump(user, e)) == Some(Claims(Some(user), Some(e)))
    {
      LogStream.DecimalIsExact(e);
      assert LogStream.Canonical(LogStream.Decimal(e));
    }
    assert lib.Sound(user);
  }

  predicate NoDot(s: string) {
    forall k :: 0 <= k < |s| ==> s[k] != '.'
  }

  /** string::find('.'): the first dot, or the length when there is none. */
  function FirstDot(s: string): (k: nat)
    ensures k <= |s|
  {
    if s == [] || s[0] == '.' then 0 else 1 + FirstDot(s[1..])
  }

  /** string::rfind('.'): the last dot, or the length when there is none. */
  function LastDot(s: string): (k: nat)
    ensures k <= |s|
  {
    if s == [] then 0
    else if s[|s| - 1] == '.' then |s| - 1
    else var k := LastDot(s[..|s| - 1]); if k == |s| - 1 then |s| else k
  }

  lemma {:induction false} FirstDotFacts(s: string)
    ensures var k := FirstDot(s); NoDot(s[..k]) && (k < |s| ==> s[k] == '.')
  {
    if s != [] && s[0] != '.' {
      FirstDotFacts(s[1..]);
      var k := FirstDot(s);
      assert s[..k] == [s[0]] + s[1..][..k - 1];
    }
  }

  lemma {:induction false} LastDotFacts(s: string)
    ensures var k := LastDot(s);
            if k < |s| then s[k] == '.' && NoDot(s[k + 1..]) else NoDot(s)
  {
    if s != [] && s[|s| - 1] != '.' {
      var front := s[..|s| - 1];
      LastDotFacts(front);
      var k := LastDot(s);
      assert k < |s| ==> s[k + 1..] == front[k + 1..] + [s[|s| - 1]];
      assert s == front + [s[|s| - 1]];
    }
  }

  function Signature(lib: Library, header: string, payload: string): string
    requires lib.DigestsAreBytes()
  {
    Encode(lib.hmac(header + "." + payload))
  }

  function GenerateToken(lib: Library, user: string, now: int): string
    requires lib.Sound(user)
  {
    var header := Encode(lib.header);
    var payload := Encode(lib.dump(user, now + LIFETIME));
    header + "." + payload + "." + Signature(lib, header, payload)
  }

  lemma LastNotBeforeFirst(s: string)
    ensures FirstDot(s) <= LastDot(s) && (FirstDot(s) < |s| ==> LastDot(s) < |s| && s[FirstDot(s)] == s[LastDot(s)] == '.')
  {
    hide FirstDot, LastDot;
    FirstDotFacts(s);
    LastDotFacts(s);
    assert forall j :: 0 <= j < FirstDot(s) ==> s[j] == s[..FirstDot(s)][j];
  }

  /** The user of an accepted token. */
  function VerifyToken(lib: Library, token: string, now: int): Option<string>
    requires lib.DigestsAreBytes()
  {
    var first, last := FirstDot(token), LastDot(token);
    LastNotBeforeFirst(token);
    if first == |token| || last == |token| || first == last then None
    else
      var header, payload, signature := token[..first], token[first + 1..last], token[last + 1..];
      if signature != Signature(lib, header, payload) then None
      else
        match lib.parse(Decode(payload))
        case None => None
        case Some(c) => if c.exp.Some? && now > c.exp.value then None else c.user
  }

  lemma SymbolsHaveNoDot(s: string)
    requires AllSymbols(s)
    ensures NoDot(s)
  {
  }

  lemma {:induction false} FirstDotIs(h: string, rest: string)
    requires NoDot(h)
    ensures FirstDot(h + "." + rest) == |h|
  {
    var s := h + "." + rest;
    var k := FirstDot(s);
    FirstDotFacts(s);
    assert forall j :: 0 <= j < k ==> s[j] == s[..k][j];
    assert forall j :: 0 <= j < |h| ==> s[j] == h[j];
    assert s[|h|] == '.';
  }

  lemma {:induction false} LastDotIs(front: string, t: string)
    requires NoDot(t)
    ensures LastDot(front + "." + t) == |front|
  {
    var s := front + "." + t;
    var k := LastDot(s);
    LastDotFacts(s);
    assert s[|front|] == '.';
    assert forall j :: k < j < |s| ==> s[j] == s[k + 1..][j - k - 1];
    assert forall j :: |front| < j < |s| ==> s[j] == t[j - |front| - 1];
  }

  lemma SignatureHasNoDot(lib: Library, h: string, p: string)
    requires lib.DigestsAreBytes()
    ensures NoDot(Encode(lib.hmac(h + "." + p)))
  {
    EncodeShape(lib.hmac(h + "." + p));
    SymbolsHaveNoDot(Encode(lib.hmac(h + "." + p)));
  }

  lemma CutAtDots(h: string, p: string, sig: string)
    requires NoDot(h) && NoDot(sig)
    ensures var token := h + "." + p + "." + sig;
            var first, last := FirstDot(token), LastDot(token);
            first < last < |token|
            && token[..first] == h && token[first + 1..last] == p && token[last + 1..] == sig
  {
    hide FirstDot, LastDot;
    var token := h + "." + p + "." + sig;
    assert token == h + "." + (p + "." + sig);
    FirstDotIs(h, p + "." + sig);
    LastDotIs(h + "." + p, sig);
  }

  /** Three parts joined by dots come apart again when the first and last hold none. */
  lemma PartsOfToken(lib: Library, h: string, p: string, now: int)
    requires lib.DigestsAreBytes() && NoDot(h)
    ensures VerifyToken(lib, h + "." + p + "." + Encode(lib.hmac(h + "." + p)), now)
         == match lib.parse(Decode(p))
            case None => None
            case Some(c) => if c.exp.Some? && now > c.exp.value then None else c.user
  {
    hide Decode, Encode;
    SignatureHasNoDot(lib, h, p);
    CutAtDots(h, p, Encode(lib.hmac(h + "." + p)));
  }

  /** A token issued at t0 names its user at every t up to and including t0 + 7 days, and never after. */
  lemma TokenLifetime(lib: Library, user: string, t0: int, t: int)
    requires lib.Sound(user)
    ensures VerifyToken(lib, GenerateToken(lib, user, t0), t) == if t <= t0 + 604800 then Some(user) else None
  {
    hide VerifyToken, Decode, Encode;
    var claims := lib.dump(user, t0 + LIFETIME);
    EncodeShape(lib.header);
    SymbolsHaveNoDot(Encode(lib.header));
    PartsOfToken(lib, Encode(lib.header), Encode(claims), t);
    RoundTrip(claims);
  }

  /** The token consists of a header, a payload and the encoded digest of these two joined by a dot. */
  ghost predicate Signed(lib: Library, token: string, h: string, p: string)
    requires lib.DigestsAreBytes()
  {
    NoDot(h) && token == h + "." + p + "." + Encode(lib.hmac(h + "." + p))
  }

  /** Claims that name the user and have not expired. */
  ghost predicate Names(lib: Library, p: string, user: string, now: int) {
    var c := lib.parse(Decode(p));
    c.Some? && c.value.user == Some(user) && (c.value.exp.Some? ==> now <= c.value.exp.value)
  }

  /** Three parts around two dots. */
  ghost predicate CutAt(s: string, i: nat, j: nat) {
    i < j < |s| && s == s[..i] + "." + s[i + 1..j] + "." + s[j + 1..]
  }

  lemma JoinAt(s: string, i: nat, j: nat)
    requires i < j < |s| && s[i] == '.' && s[j] == '.'
    ensures CutAt(s, i, j)
  {
    assert s[..j] == s[..i] + "." + s[i + 1..j];
    assert s == s[..j] + "." + s[j + 1..];
  }

  lemma DotsCut(s: string)
    requires FirstDot(s) != |s| && FirstDot(s) != LastDot(s)
    ensures CutAt(s, FirstDot(s), LastDot(s))
  {
    LastNotBeforeFirst(s);
    hide *;
    JoinAt(s, FirstDot(s), LastDot(s));
  }

  /** What is accepted: exactly the strings signed over a payload whose claims name the user. */
  lemma AcceptedIffSigned(lib: Library, token: string, user: string, now: int)
    requires lib.DigestsAreBytes()
    ensures VerifyToken(lib, token, now) == Some(user)
       <==> exists h, p :: Signed(lib, token, h, p) && Names(lib, p, user, now)
  {
    hide Decode, Encode;
    if VerifyToken(lib, token, now) == Some(user) {
      var first, last := FirstDot(token), LastDot(token);
      DotsCut(token);
      FirstDotFacts(token);
      assert Signed(lib, token, token[..first], token[first + 1..last]);
      assert Names(lib, token[first + 1..last], user, now);
    }
    forall h, p | Signed(lib, token, h, p) && Names(lib, p, user, now)
      ensures VerifyToken(lib, token, now) == Some(user)
    {
      PartsOfToken(lib, h, p, now);
    }
  }

  // ---- What a signature covers

  /** The token ends in a dot and a signature, and the signature decodes to the digest of everything
      before that dot. */
  ghost predicate Covered(lib: Library, token: string, m: string, sig: string) {
    token == m + "." + sig && NoDot(sig) && Decode(sig) == lib.hmac(m)
  }

  lemma SignedIsCovered(lib: Library, token: string, h: string, p: string)
    requires lib.DigestsAreBytes() && Signed(lib, token, h, p)
    ensures Covered(lib, token, h + "." + p, Encode(lib.hmac(h + "." + p)))
  {
    hide Decode, Encode;
    SignatureHasNoDot(lib, h, p);
    RoundTrip(lib.hmac(h + "." + p));
  }

  /** Everything before the last dot of an accepted token is what its signature was made over. */
  lemma AcceptedIsCovered(lib: Library, token: string, now: int)
    requires lib.DigestsAreBytes() && VerifyToken(lib, token, now).Some?
    ensures exists m, sig :: token == m + "." + sig && NoDot(sig) && Decode(sig) == lib.hmac(m)
  {
    hide VerifyToken, Decode, Encode, NoDot;
    AcceptedIffSigned(lib, token, VerifyToken(lib, token, now).value, now);
    var h, p :| Signed(lib, token, h, p);
    SignedIsCovered(lib, token, h, p);
  }

  lemma GeneratedIsSigned(lib: Library, user: string, t0: int)
    requires lib.Sound(user)
    ensures Signed(lib, GenerateToken(lib, user, t0), Encode(lib.header), Encode(lib.dump(user, t0 + 604800)))
  {
    EncodeShape(lib.header);
    SymbolsHaveNoDot(Encode(lib.header));
  }

  /** The same of every token that is issued. */
  lemma GeneratedIsCovered(lib: Library, user: string, t0: int)
    requires lib.Sound(user)
    ensures exists m, sig :: GenerateToken(lib, user, t0) == m + "." + sig && NoDot(sig) && Decode(sig) == lib.hmac(m)
  {
    hide GenerateToken, Decode, Encode, NoDot;
    GeneratedIsSigned(lib, user, t0);
    SignedIsCovered(lib, GenerateToken(lib, user, t0), Encode(lib.header), Encode(lib.dump(user, t0 + 604800)));
  }

  lemma OneLastDot(m: string, sig: string, m': string, sig': string)
    requires m + "." + sig == m' + "." + sig' && NoDot(sig) && NoDot(sig')
    ensures m == m' && sig == sig'
  {
    LastDotIs(m, sig);
    LastDotIs(m', sig');
    assert (m + "." + sig)[..|m|] == m && (m + "." + sig)[|m| + 1..] == sig;
    assert (m' + "." + sig')[..|m'|] == m' && (m' + "." + sig')[|m'| + 1..] == sig';
  }

  /** Nothing but the text that was signed passes under an issued signature, unless it has the same digest. */
  lemma NothingElsePasses(lib: Library, user: string, t0: int, m: string, m': string, sig: string, now: int)
    requires lib.Sound(user) && (lib.hmac(m') == lib.hmac(m) ==> m' == m)
    requires NoDot(sig) && GenerateToken(lib, user, t0) == m + "." + sig
    requires VerifyToken(lib, m' + "." + sig, now).Some?
    ensures m' == m
  {
    hide GenerateToken, VerifyToken, Decode, NoDot;
    GeneratedIsCovered(lib, user, t0);
    var a, sig0 :| GenerateToken(lib, user, t0) == a + "." + sig0 && NoDot(sig0) && Decode(sig0) == lib.hmac(a);
    OneLastDot(m, sig, a, sig0);
    AcceptedIsCovered(lib, m' + "." + sig, now);
    var b, sig1 :| m' + "." + sig == b + "." + sig1 && NoDot(sig1) && Decode(sig1) == lib.hmac(b);
    OneLastDot(m', sig, b, sig1);
  }
}
