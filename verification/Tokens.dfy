/**
 Session tokens: base64url(claims) "." base64url(mac). The MAC and the JSON of
 the claims are functions of the manager; times are nanoseconds.
 */
module Tokens {
  import opened Wrappers
  import opened Decimal
  import opened Base64Url
  import opened Strings

  const SECOND := 1_000_000_000
  const UINT64_LIMIT := 0x1_0000_0000_0000_0000

  datatype Claims = Claims(uid: nat, exp: int, nonce: string)

  datatype TokenManager = TokenManager(mac: string -> seq<byte>, ttl: int,
                                       marshal: Claims -> seq<byte>, unmarshal: seq<byte> -> Option<Claims>)

  /** time.Time.Unix: whole seconds, rounded down. */
  function Unix(t: int): int {
    t / SECOND
  }

  function SignInput(payload: string): string {
    payload + ":v1:" + Print(|payload|)
  }

  function Sign(m: TokenManager, payload: string): string {
    Encode(m.mac(SignInput(payload)))
  }

  function Expiry(m: TokenManager, now: int): int {
    Unix(now + m.ttl)
  }

  function Issue(m: TokenManager, uid: nat, now: int, nonce: seq<byte>): string {
    var payload := Encode(m.marshal(Claims(uid, Expiry(m, now), Encode(nonce))));
    payload + "." + Sign(m, payload)
  }

  /** strings.Split on a single character. */
  function Split(s: string, c: char): (parts: seq<string>)
    ensures parts != []
    decreases |s|
  {
    var i := IndexOf(s, c);
    if i == |s| then [s] else [s[..i]] + Split(s[i + 1..], c)
  }

  function Verify(m: TokenManager, token: string, now: int): Option<nat> {
    var parts := Split(token, '.');
    if |parts| != 2 || parts[1] != Sign(m, parts[0]) then None
    else match Decode(parts[0])
      case None => None
      case Some(payload) =>
        match m.unmarshal(payload)
        case None => None
        case Some(claims) => if claims.uid == 0 || claims.exp <= Unix(now) then None else Some(claims.uid)
  }

  /** Claims as Issue makes them survive the JSON round trip. */
  ghost predicate JsonRoundTrips(m: TokenManager) {
    forall c: Claims :: c.uid < UINT64_LIMIT && InAlphabet(c.nonce) ==> m.unmarshal(m.marshal(c)) == Some(c)
  }

  lemma NoDot(b: seq<byte>)
    ensures '.' !in Encode(b)
  {
    RoundTrip(b);
  }

  lemma SplitTwo(a: string, b: string)
    requires '.' !in a && '.' !in b
    ensures Split(a + "." + b, '.') == [a, b]
  {
    var s := a + ['.'] + b;
    IndexAt(a, '.', b);
    assert s[..|a|] == a && s[|a| + 1..] == b;
    assert IndexOf(b, '.') == |b|;
  }

  /** A token verifies as its user exactly until its expiry second. */
  lemma TokenRoundTrip(m: TokenManager, uid: nat, issued: int, nonce: seq<byte>, now: int)
    requires JsonRoundTrips(m) && uid < UINT64_LIMIT
    ensures Verify(m, Issue(m, uid, issued, nonce), now) ==
            if uid != 0 && now / 1_000_000_000 < (issued + m.ttl) / 1_000_000_000 then Some(uid) else None
  {
    var claims := Claims(uid, Expiry(m, issued), Encode(nonce));
    var payload := Encode(m.marshal(claims));
    RoundTrip(nonce);
    NoDot(m.marshal(claims));
    NoDot(m.mac(SignInput(payload)));
    SplitTwo(payload, Sign(m, payload));
    RoundTrip(m.marshal(claims));
  }

  /** Tokens tell their user, their expiry and their nonce: with a fresh nonce a token is new. */
  lemma IssueInjective(m: TokenManager, u: nat, t: int, n: seq<byte>, u': nat, t': int, n': seq<byte>)
    requires JsonRoundTrips(m) && u < UINT64_LIMIT && u' < UINT64_LIMIT
    requires Issue(m, u, t, n) == Issue(m, u', t', n')
    ensures u == u' && Expiry(m, t) == Expiry(m, t') && n == n'
  {
    var c, c' := Claims(u, Expiry(m, t), Encode(n)), Claims(u', Expiry(m, t'), Encode(n'));
    PayloadOf(m, u, t, n);
    PayloadOf(m, u', t', n');
    RoundTrip(m.marshal(c));
    RoundTrip(m.marshal(c'));
    assert c == c' by {
      RoundTrip(n);
      RoundTrip(n');
    }
    RoundTrip(n);
    RoundTrip(n');
  }

  lemma PayloadOf(m: TokenManager, u: nat, t: int, n: seq<byte>)
    ensures Split(Issue(m, u, t, n), '.')[0] == Encode(m.marshal(Claims(u, Expiry(m, t), Encode(n))))
  {
    var claims := Claims(u, Expiry(m, t), Encode(n));
    var payload := Encode(m.marshal(claims));
    NoDot(m.marshal(claims));
    NoDot(m.mac(SignInput(payload)));
    SplitTwo(payload, Sign(m, payload));
  }

  lemma SplitOne(s: string)
    requires |Split(s, '.')| == 1
    ensures Split(s, '.') == [s]
  {
  }

  lemma {:induction false} SplitJoin(s: string)
    requires |Split(s, '.')| == 2
    ensures s == Split(s, '.')[0] + "." + Split(s, '.')[1]
  {
    var i := IndexOf(s, '.');
    if i < |s| {
      var rest := s[i + 1..];
      assert Split(s, '.') == [s[..i]] + Split(rest, '.');
      SplitOne(rest);
      assert s == s[..i] + [s[i]] + rest;
    }
  }

  /** Conversely, whatever verifies is a payload followed by that payload's own MAC,
      and its claims name the user and have not expired. */
  lemma VerifiedIsSigned(m: TokenManager, token: string, now: int) returns (payload: string, claims: Claims)
    requires Verify(m, token, now).Some?
    ensures token == payload + "." + Encode(m.mac(payload + ":v1:" + Print(|payload|))) && '.' !in payload
    ensures Decode(payload).Some? && m.unmarshal(Decode(payload).value) == Some(claims)
    ensures Verify(m, token, now) == Some(claims.uid) && claims.uid != 0 && now / 1_000_000_000 < claims.exp
  {
    SplitJoin(token);
    payload := Split(token, '.')[0];
    claims := m.unmarshal(Decode(payload).value).value;
  }

  /** The two parts of a token that verifies, and what its second part decodes to. */
  lemma VerifiedMac(m: TokenManager, token: string, now: int)
    requires Verify(m, token, now).Some?
    ensures var parts := Split(token, '.');
      |parts| == 2 && Decode(parts[1]) == Some(m.mac(parts[0] + ":v1:" + Print(|parts[0]|)))
  {
    RoundTrip(m.mac(SignInput(Split(token, '.')[0])));
  }

  /** Without MAC collisions, a payload cannot be exchanged for another under the same signature. */
  lemma NotTransferable(m: TokenManager, p: string, q: string, signature: string, now: int, now': int)
    requires forall a, b :: m.mac(a) == m.mac(b) ==> a == b
    requires Verify(m, p + "." + signature, now).Some? && Verify(m, q + "." + signature, now').Some?
    requires '.' !in p && '.' !in q && '.' !in signature
    ensures p == q
  {
    SplitTwo(p, signature);
    SplitTwo(q, signature);
    VerifiedMac(m, p + "." + signature, now);
    VerifiedMac(m, q + "." + signature, now');
    SignInputInjective(p, q);
  }

  /** Different payloads never feed the MAC the same bytes. */
  lemma SignInputInjective(p: string, q: string)
    requires SignInput(p) == SignInput(q)
    ensures p == q
  {
    if |p| < |q| {
      PrintMonotone(|p|, |q|);
    } else {
      PrintMonotone(|q|, |p|);
    }
    assert |p| == |q|;
    assert SignInput(p)[..|p|] == p && SignInput(q)[..|q|] == q;
  }
}
