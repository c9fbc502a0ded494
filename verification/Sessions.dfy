/**
 Login sessions with Redis: a token is accepted as long as it verifies, its
 Redis entry is there and names the same user. Times are nanoseconds of one
 clock that never runs backwards; it may advance between any two statements.
 */
module Sessions {
  import opened Wrappers
  import opened Decimal
  import Base64Url
  import opened Tokens
  import opened RedisKeys

  /** `expires` is when Redis drops the entry. */
  datatype Stored = Stored(value: string, expires: int)

  /** A session as Login saved it. */
  datatype Grant = Grant(user: nat, issued: int, exp: int, expires: int, nonce: seq<byte>)

  /** How a write to Redis goes: it is done and confirmed, done but the answer is lost, or not done. */
  datatype Delivery = Confirmed | Unconfirmed | Lost

  datatype AuthError = Unauthorized | RedisFailed | TtlNotPositive | StoreFailed

  /** int(d.Seconds()) with a whole number of seconds cut off towards zero. */
  function WholeSeconds(d: int): int {
    if d >= 0 then d / SECOND else -(-d / SECOND)
  }

  /** strings.TrimSpace(s) == "", for the ASCII spaces. */
  predicate Blank(s: string) {
    forall i :: 0 <= i < |s| ==> IsSpace(s[i])
  }

  /** Space, or tab to carriage return. */
  predicate IsSpace(c: char) {
    c == ' ' || 9 <= c as int <= 13
  }

  /** Any other character makes a token that is not blank. */
  lemma BlankMeans(s: string)
    ensures Blank(s) <==> !exists i :: 0 <= i < |s| && s[i] !in [' ', '\t', '\n', '\r', 11 as char, 12 as char]
  {
  }

  /** Both expiries lie within the last two seconds before `issued + ttl`, or later for Redis. */
  ghost predicate Timed(s: Grant, ttl: int) {
    && s.exp == Unix(s.issued + ttl)
    && s.expires > s.exp * SECOND - SECOND
  }

  /** The session works up to two seconds before `issued + ttl` and never from then on. */
  lemma Window(s: Grant, ttl: int, t: int)
    requires Timed(s, ttl)
    ensures t <= s.issued + ttl - 2 * SECOND ==> Unix(t) < s.exp && t < s.expires
    ensures t >= s.issued + ttl ==> Unix(t) >= s.exp
  {
  }

  /** Two seconds it is: two nanoseconds into them a session may already be gone from Redis. */
  lemma WindowIsTight() returns (s: Grant, ttl: int, asked: int)
    ensures s.issued <= asked && Timed(s, ttl)
    ensures s.expires == asked + WholeSeconds(s.exp * SECOND - asked) * SECOND
    ensures s.expires == s.issued + ttl - 2 * SECOND + 2
  {
    ttl, asked := 10 * SECOND, SECOND + 1;
    s := Grant(1, SECOND - 1, 10, 9 * SECOND + 1, []);
  }

  type Verifier = (string, int) -> Option<nat>

  /** The token verifies as this user exactly before this expiry second. */
  ghost predicate VerifiesAs(verify: Verifier, token: string, user: nat, exp: int) {
    forall now :: verify(token, now) == if Unix(now) < exp then Some(user) else None
  }

  function VerifierOf(m: TokenManager): Verifier {
    (token: string, now: int) => Verify(m, token, now)
  }

  type Minter = (nat, int, seq<byte>) -> string

  function MinterOf(m: TokenManager): Minter {
    (user: nat, issued: int, nonce: seq<byte>) => Issue(m, user, issued, nonce)
  }

  /** Where tokens are issued and checked. */
  datatype Desk = Desk(mint: Minter, verify: Verifier, ttl: int)

  function DeskOf(m: TokenManager): Desk {
    Desk(MinterOf(m), VerifierOf(m), m.ttl)
  }

  /** Tokens are not blank and verify as their user until their expiry. */
  ghost predicate Serves(d: Desk) {
    forall u: nat, t, n {:trigger d.mint(u, t, n)} :: 0 < u < UINT64_LIMIT ==>
      !Blank(d.mint(u, t, n)) && VerifiesAs(d.verify, d.mint(u, t, n), u, Unix(t + d.ttl))
  }

  /** Tokens differ if their nonces do. */
  ghost predicate Distinguishes(d: Desk) {
    forall u: nat, t, n, u': nat, t', n' {:trigger d.mint(u, t, n), d.mint(u', t', n')} ::
      u < UINT64_LIMIT && u' < UINT64_LIMIT && d.mint(u, t, n) == d.mint(u', t', n') ==> n == n'
  }

  ghost predicate Works(d: Desk) {
    Serves(d) && Distinguishes(d)
  }

  lemma DeskServes(m: TokenManager)
    requires JsonRoundTrips(m)
    ensures Serves(DeskOf(m))
  {
    var d := DeskOf(m);
    forall u: nat, t, n | 0 < u < UINT64_LIMIT
      ensures !Blank(d.mint(u, t, n)) && VerifiesAs(d.verify, d.mint(u, t, n), u, Unix(t + d.ttl))
    {
      assert d.mint(u, t, n) == Issue(m, u, t, n);
      IssuedVerifies(m, u, t, n);
    }
  }

  lemma DeskDistinguishes(m: TokenManager)
    requires JsonRoundTrips(m)
    ensures Distinguishes(DeskOf(m))
  {
    var d := DeskOf(m);
    forall u: nat, t, n, u': nat, t', n' |
      u < UINT64_LIMIT && u' < UINT64_LIMIT && d.mint(u, t, n) == d.mint(u', t', n')
      ensures n == n'
    {
      IssueInjective(m, u, t, n, u', t', n');
    }
  }

  function KeyOf(prefix: string, digest: string -> string): string -> string {
    (token: string) => SessionKey(prefix, digest, token)
  }

  lemma IssuedVerifies(m: TokenManager, user: nat, issued: int, nonce: seq<byte>)
    requires JsonRoundTrips(m) && 0 < user < UINT64_LIMIT
    ensures VerifiesAs(VerifierOf(m), Issue(m, user, issued, nonce), user, Expiry(m, issued))
    ensures !Blank(Issue(m, user, issued, nonce))
  {
    var verify, token := VerifierOf(m), Issue(m, user, issued, nonce);
    forall now ensures verify(token, now) == if Unix(now) < Expiry(m, issued) then Some(user) else None {
      TokenRoundTrip(m, user, issued, nonce, now);
    }
    var payload := Base64Url.Encode(m.marshal(Claims(user, Expiry(m, issued), Base64Url.Encode(nonce))));
    assert token[|payload|] == '.';
  }

  lemma KeysCollisionFree(prefix: string, digest: string -> string)
    requires CollisionFree(digest)
    ensures CollisionFree(KeyOf(prefix, digest))
  {
    var keyOf := KeyOf(prefix, digest);
    forall a, b | keyOf(a) == keyOf(b) ensures a == b {
      NameInjective(prefix, digest, Session(a), Session(b));
    }
  }

  /** A session Login may have saved: a good user, both expiries in the window, a token that verifies. */
  ghost predicate Granted(verify: Verifier, ttl: int, token: string, g: Grant) {
    0 < g.user < UINT64_LIMIT && Timed(g, ttl) && !Blank(token) && VerifiesAs(verify, token, g.user, g.exp)
  }

  /** The token is the one issued for this session. */
  ghost predicate Minted(d: Desk, token: string, g: Grant) {
    0 < g.user < UINT64_LIMIT && token == d.mint(g.user, g.issued, g.nonce)
  }

  /** Redis holds exactly the live sessions. */
  ghost predicate Mirrors(keyOf: string -> string, redis: map<string, Stored>, live: map<string, Grant>) {
    && (forall token {:trigger keyOf(token)} :: token in live <==> keyOf(token) in redis)
    && (forall token {:trigger keyOf(token)} :: token in live ==>
          redis[keyOf(token)] == Stored(Print(live[token].user), live[token].expires))
  }

  lemma SaveMirrors(keyOf: string -> string, redis: map<string, Stored>, live: map<string, Grant>, token: string,
                    g: Grant)
    requires CollisionFree(keyOf) && Mirrors(keyOf, redis, live)
    ensures Mirrors(keyOf, redis[keyOf(token) := Stored(Print(g.user), g.expires)], live[token := g])
  {
    assert forall other :: keyOf(other) == keyOf(token) ==> other == token;
  }

  /** The map without one key. */
  function Minus<V>(m: map<string, V>, key: string): map<string, V> {
    map k | k in m && k != key :: m[k]
  }

  lemma DropMirrors(keyOf: string -> string, redis: map<string, Stored>, live: map<string, Grant>, token: string)
    requires CollisionFree(keyOf) && Mirrors(keyOf, redis, live)
    ensures Mirrors(keyOf, Minus(redis, keyOf(token)), Minus(live, token))
  {
    assert forall other :: keyOf(other) == keyOf(token) ==> other == token;
  }

  ghost predicate SessionOk(d: Desk, nonces: set<seq<byte>>, token: string, g: Grant) {
    Granted(d.verify, d.ttl, token, g) && Minted(d, token, g) && g.nonce in nonces
  }

  ghost predicate AllOk(d: Desk, nonces: set<seq<byte>>, live: map<string, Grant>) {
    forall token {:trigger SessionOk(d, nonces, token, live[token])} :: token in live ==>
      SessionOk(d, nonces, token, live[token])
  }

  /** Redis mirrors the live sessions, each of which works as issued. */
  ghost predicate SessionsOk(d: Desk, keyOf: string -> string,
                             redis: map<string, Stored>, live: map<string, Grant>, nonces: set<seq<byte>>) {
    Works(d) && CollisionFree(keyOf) && Mirrors(keyOf, redis, live) && AllOk(d, nonces, live)
  }

  lemma SaveKeepsOk(d: Desk, keyOf: string -> string, redis: map<string, Stored>,
                    live: map<string, Grant>,
                    nonces: set<seq<byte>>, token: string, g: Grant)
    requires SessionsOk(d, keyOf, redis, live, nonces) && SessionOk(d, nonces, token, g)
    ensures var after := redis[keyOf(token) := Stored(Print(g.user), g.expires)];
      SessionsOk(d, keyOf, after, live[token := g], nonces)
  {
    SaveMirrors(keyOf, redis, live, token, g);
    var after := live[token := g];
    forall t | t in after ensures SessionOk(d, nonces, t, after[t]) {
      assert t != token ==> SessionOk(d, nonces, t, live[t]);
    }
  }

  lemma DropKeepsOk(d: Desk, keyOf: string -> string, redis: map<string, Stored>,
                    live: map<string, Grant>,
                    nonces: set<seq<byte>>, token: string)
    requires SessionsOk(d, keyOf, redis, live, nonces)
    ensures SessionsOk(d, keyOf, Minus(redis, keyOf(token)), Minus(live, token), nonces)
  {
    DropMirrors(keyOf, redis, live, token);
    var after := Minus(live, token);
    forall t | t in after ensures SessionOk(d, nonces, t, after[t]) {
      assert SessionOk(d, nonces, t, live[t]);
    }
  }

  lemma MoreNoncesOk(d: Desk, nonces: set<seq<byte>>, live: map<string, Grant>,
                     nonce: seq<byte>)
    requires AllOk(d, nonces, live)
    ensures AllOk(d, nonces + {nonce}, live)
  {
    forall token | token in live ensures SessionOk(d, nonces + {nonce}, token, live[token]) {
      assert SessionOk(d, nonces, token, live[token]);
    }
  }

  /** A token with a nonce not used before is none of the live ones. */
  lemma FreshToken(d: Desk, nonces: set<seq<byte>>, live: map<string, Grant>,
                   token: string, g: Grant)
    requires Works(d) && AllOk(d, nonces, live) && Minted(d, token, g)
    ensures g.nonce !in nonces ==> token !in live
  {
    if token in live {
      assert SessionOk(d, nonces, token, live[token]);
      var h := live[token];
      assert d.mint(g.user, g.issued, g.nonce) == d.mint(h.user, h.issued, h.nonce);
    }
  }

  /** The Redis entry outlives the last second before the token's expiry. */
  lemma EntryOutlives(exp: int, left: int, asked: int, written: int)
    requires left >= exp * SECOND - asked && written >= asked && WholeSeconds(left) > 0
    ensures written + WholeSeconds(left) * SECOND > exp * SECOND - SECOND
  {
  }

  /** Less than a second of the ttl is left only if the better part of it has passed. */
  lemma LateBound(issued: int, ttl: int, now: int)
    ensures WholeSeconds(Unix(issued + ttl) * SECOND - now) <= 0 ==> now > issued + ttl - 2 * SECOND
  {
  }

  // ---------- histories ----------

  /** A command that reached Redis, and the request it came from. */
  datatype Act = Saved(who: nat, token: string, grant: Grant) | Dropped(who: nat, token: string)

  /** The sessions that these acts leave. */
  ghost function Replay(acts: seq<Act>): map<string, Grant> {
    if acts == [] then map[]
    else
      var before := Replay(acts[..|acts| - 1]);
      match acts[|acts| - 1]
      case Saved(_, token, g) => before[token := g]
      case Dropped(_, token) => Minus(before, token)
  }

  lemma ReplaySnoc(acts: seq<Act>, act: Act)
    ensures Replay(acts + [act]) ==
            if act.Saved? then Replay(acts)[act.token := act.grant] else Minus(Replay(acts), act.token)
  {
    assert (acts + [act])[..|acts|] == acts;
  }

  /** The last act on this token is the `i`-th, and it saved it. */
  predicate LastSaved(acts: seq<Act>, i: int, token: string) {
    && 0 <= i < |acts| && acts[i].Saved? && acts[i].token == token
    && forall j :: i < j < |acts| ==> acts[j].token != token
  }

  /** A session is live exactly if Login saved it and no act on its token came later. */
  lemma {:induction false} LiveMeansLastSaved(acts: seq<Act>, token: string)
    ensures token in Replay(acts) <==> exists i :: LastSaved(acts, i, token)
    ensures forall i :: LastSaved(acts, i, token) ==> token in Replay(acts) && Replay(acts)[token] == acts[i].grant
  {
    if acts == [] {
      assert Replay(acts) == map[];
    } else {
      var n := |acts| - 1;
      var front := acts[..n];
      LiveMeansLastSaved(front, token);
      if acts[n].token == token {
        assert acts[n].Saved? ==> LastSaved(acts, n, token);
        assert forall i :: LastSaved(acts, i, token) ==> i == n;
      } else {
        assert forall i :: LastSaved(front, i, token) ==> LastSaved(acts, i, token);
        assert forall i :: LastSaved(acts, i, token) ==> i < n && LastSaved(front, i, token);
      }
    }
  }

  /** The acts of one request. */
  ghost function By(acts: seq<Act>, me: nat): seq<Act> {
    if acts == [] then [] else
      var before, last := By(acts[..|acts| - 1], me), acts[|acts| - 1];
      if last.who == me then before + [last] else before
  }

  lemma BySnoc(acts: seq<Act>, act: Act, me: nat)
    ensures By(acts + [act], me) == By(acts, me) + if act.who == me then [act] else []
  {
    assert (acts + [act])[..|acts|] == acts;
  }

  /** Acts were added, of which these are the request's own. */
  ghost predicate Grew(before: seq<Act>, after: seq<Act>, me: nat, mine: seq<Act>) {
    before <= after && By(after, me) == By(before, me) + mine
  }

  lemma GrewTrans(a: seq<Act>, b: seq<Act>, c: seq<Act>, me: nat, first: seq<Act>, second: seq<Act>)
    requires Grew(a, b, me, first) && Grew(b, c, me, second)
    ensures Grew(a, c, me, first + second)
  {
    assert By(a, me) + first + second == By(a, me) + (first + second);
  }

  /** The request's acts are one save like this, up to when Redis drops it, or none. */
  predicate OwnSave(mine: seq<Act>, none: bool, me: nat, token: string, g: Grant) {
    if none then mine == [] else
      && |mine| == 1 && mine[0].Saved? && mine[0].who == me && mine[0].token == token
      && mine[0].grant == g.(expires := mine[0].grant.expires)
  }

  /** Sixteen random bytes. */
  function NonceOf(random: nat, size: nat): seq<byte> {
    if size == 0 then [] else NonceOf(random / 256, size - 1) + [random % 256]
  }

  /** The entry lives for the ttl less a part of a second, from some instant between these two. */
  predicate WithinTtl(expires: int, ttl: int, from: int, to: int) {
    from + ttl - 1_000_000_000 < expires <= to + ttl
  }

  /** The whole seconds of a duration, cut off towards zero. */
  lemma WholeSecondsMeans(d: int)
    ensures d >= 0 ==> WholeSeconds(d) * 1_000_000_000 <= d < (WholeSeconds(d) + 1) * 1_000_000_000
    ensures d < 1_000_000_000 <==> WholeSeconds(d) <= 0
    ensures WholeSeconds(-d) == -WholeSeconds(d)
  {
  }

  class SessionService {
    const desk: Desk
    /** The Redis key of a token. */
    const keyOf: string -> string
    var clock: int
    var redis: map<string, Stored>
    /** The commands that reached Redis, by whichever request. */
    ghost var acts: seq<Act>
    /** Sessions saved by Login and not removed by Logout since. */
    ghost var live: map<string, Grant>
    /** Nonces drawn so far. */
    ghost var nonces: set<seq<byte>>

    ghost predicate Valid()
      reads this
    {
      live == Replay(acts) && SessionsOk(desk, keyOf, redis, live, nonces)
    }

    constructor (tokens: TokenManager, prefix: string, digest: string -> string, now: int)
      requires JsonRoundTrips(tokens) && CollisionFree(digest)
      ensures Valid() && acts == [] && nonces == {} && clock == now
      ensures this.desk == DeskOf(tokens) && this.keyOf == KeyOf(prefix, digest)
    {
      KeysCollisionFree(prefix, digest);
      DeskServes(tokens);
      DeskDistinguishes(tokens);
      this.desk, this.keyOf, this.clock := DeskOf(tokens), KeyOf(prefix, digest), now;
      this.redis, this.acts, this.live, this.nonces := map[], [], map[], {};
    }

    /** Time passes. */
    method Elapse()
      modifies this`clock
      ensures clock >= old(clock)
    {
      var d: int := *;
      if d > 0 {
        clock := clock + d;
      }
    }

    /** Time passes, and other requests log in and out. */
    method Others(me: nat)
      requires Valid()
      modifies this
      ensures Valid() && clock >= old(clock) && old(nonces) <= nonces && Grew(old(acts), acts, me, [])
    {
      Elapse();
      var n: int := *;
      while n > 0
        invariant Valid() && clock >= old(clock) && old(nonces) <= nonces && Grew(old(acts), acts, me, [])
        decreases n
      {
        if * {
          OtherLogin(me);
        } else {
          var token: string := *;
          Del(me + 1, token);
          BySnoc(acts[..|acts| - 1], acts[|acts| - 1], me);
        }
        n := n - 1;
      }
    }

    /** Some login of another request, with a session saved or not. */
    method OtherLogin(me: nat)
      requires Valid()
      modifies this
      ensures Valid() && clock >= old(clock) && old(nonces) <= nonces && Grew(old(acts), acts, me, [])
    {
      Elapse();
      var random, user, lost: int := *, *, *;
      var nonce := NonceOf(if random < 0 then 0 else random, 16);
      Draw(nonce);
      var u := if 0 < user < UINT64_LIMIT then user else 1;
      var token, exp := IssueNow(u, nonce);
      var delivery := if lost == 0 then Lost else Confirmed;
      ghost var issued := clock;
      var error := SaveSession(me + 1, token, u, exp * SECOND - clock, delivery, issued, exp, nonce);
    }

    ghost method Draw(nonce: seq<byte>)
      requires Valid()
      modifies this`nonces
      ensures Valid() && nonces == old(nonces) + {nonce}
    {
      MoreNoncesOk(desk, nonces, live, nonce);
      nonces := nonces + {nonce};
    }

    /** SET key user EX seconds. Without confirmation the caller cannot know whether the entry was written. */
    method SaveSession(me: nat, token: string, user: nat, ttl: int, delivery: Delivery,
                       ghost issued: int, ghost exp: int, ghost nonce: seq<byte>)
      returns (error: Option<AuthError>)
      requires Valid() && 0 < user < UINT64_LIMIT && exp == Unix(issued + desk.ttl)
      requires token == desk.mint(user, issued, nonce) && nonce in nonces
      requires ttl >= exp * SECOND - clock
      modifies this`clock, this`redis, this`live, this`acts
      ensures Valid() && clock >= old(clock)
      ensures error ==
        if WholeSeconds(ttl) <= 0 then Some(TtlNotPositive)
        else if delivery == Confirmed then None else Some(RedisFailed)
      ensures if WholeSeconds(ttl) <= 0 || delivery == Lost then acts == old(acts) else
        && |acts| == |old(acts)| + 1 && acts == old(acts) + [acts[|old(acts)|]]
        && acts[|old(acts)|].Saved? && acts[|old(acts)|].who == me && acts[|old(acts)|].token == token
        && acts[|old(acts)|].grant == Grant(user, issued, exp, acts[|old(acts)|].grant.expires, nonce)
        && WithinTtl(acts[|old(acts)|].grant.expires, ttl, old(clock), clock)
      ensures forall other :: other != me ==> Grew(old(acts), acts, other, [])
    {
      var seconds := WholeSeconds(ttl);
      if seconds <= 0 {
        return Some(TtlNotPositive);
      }
      Elapse();
      WholeSecondsMeans(ttl);
      EntryOutlives(exp, ttl, old(clock), clock);
      if delivery != Lost {
        ghost var g := Grant(user, issued, exp, clock + seconds * SECOND, nonce);
        Set(me, token, user, clock + seconds * SECOND, g);
        forall other | other != me ensures Grew(old(acts), acts, other, []) {
          BySnoc(old(acts), Saved(me, token, g), other);
        }
      }
      return if delivery == Confirmed then None else Some(RedisFailed);
    }

    /** The command itself, at one instant of the server's clock. */
    method Set(me: nat, token: string, user: nat, expires: int, ghost g: Grant)
      requires Valid() && SessionOk(desk, nonces, token, g) && g.user == user && g.expires == expires
      modifies this`redis, this`live, this`acts
      ensures Valid() && acts == old(acts) + [Saved(me, token, g)]
    {
      ghost var after := live[token := g];
      var entries := redis[keyOf(token) := Stored(Print(user), expires)];
      assert SessionsOk(desk, keyOf, entries, after, nonces) by {
        SaveKeepsOk(desk, keyOf, redis, live, nonces, token, g);
      }
      ReplaySnoc(acts, Saved(me, token, g));
      redis, live, acts := entries, after, acts + [Saved(me, token, g)];
    }

    method Del(me: nat, token: string)
      requires Valid()
      modifies this`redis, this`live, this`acts
      ensures Valid() && acts == old(acts) + [Dropped(me, token)]
    {
      ghost var after := Minus(live, token);
      var entries := Minus(redis, keyOf(token));
      assert SessionsOk(desk, keyOf, entries, after, nonces) by {
        DropKeepsOk(desk, keyOf, redis, live, nonces, token);
      }
      ReplaySnoc(acts, Dropped(me, token));
      redis, live, acts := entries, after, acts + [Dropped(me, token)];
    }

    /** A token for the user, issued now. */
    method IssueNow(user: nat, nonce: seq<byte>) returns (token: string, exp: int)
      requires Valid() && 0 < user < UINT64_LIMIT
      ensures exp == Unix(clock + desk.ttl) && token == desk.mint(user, clock, nonce)
    {
      token, exp := desk.mint(user, clock, nonce), Unix(clock + desk.ttl);
    }

    /** Saves the session for what is left of its time, with other requests at work before, between and after. */
    method SaveMine(me: nat, token: string, user: nat, delivery: Delivery,
                    ghost issued: int, exp: int, ghost nonce: seq<byte>)
      returns (error: Option<AuthError>, ghost mine: seq<Act>, ghost late: bool)
      requires Valid() && 0 < user < UINT64_LIMIT && exp == Unix(issued + desk.ttl)
      requires token == desk.mint(user, issued, nonce) && nonce in nonces
      modifies this
      ensures Valid() && clock >= old(clock) && old(nonces) <= nonces && Grew(old(acts), acts, me, mine)
      ensures late ==> clock > issued + desk.ttl - 2 * SECOND
      ensures OwnSave(mine, late || delivery == Lost, me, token, Grant(user, issued, exp, 0, nonce))
      ensures mine != [] ==> mine[0].grant.expires <= exp * SECOND + clock - old(clock)
      ensures error ==
        if late then Some(TtlNotPositive) else if delivery == Confirmed then None else Some(RedisFailed)
    {
      Others(me);
      var ttl := exp * SECOND - clock;
      late := WholeSeconds(ttl) <= 0;
      LateBound(issued, desk.ttl, clock);
      error, mine := SaveAmid(me, token, user, ttl, delivery, issued, exp, nonce);
    }

    /** SaveSession with other requests at work before and after. */
    method SaveAmid(me: nat, token: string, user: nat, ttl: int, delivery: Delivery,
                    ghost issued: int, ghost exp: int, ghost nonce: seq<byte>)
      returns (error: Option<AuthError>, ghost mine: seq<Act>)
      requires Valid() && 0 < user < UINT64_LIMIT && exp == Unix(issued + desk.ttl)
      requires token == desk.mint(user, issued, nonce) && nonce in nonces
      requires ttl >= exp * SECOND - clock
      modifies this
      ensures Valid() && clock >= old(clock) && old(nonces) <= nonces && Grew(old(acts), acts, me, mine)
      ensures OwnSave(mine, WholeSeconds(ttl) <= 0 || delivery == Lost, me, token, Grant(user, issued, exp, 0, nonce))
      ensures mine != [] ==> mine[0].grant.expires <= clock + ttl
      ensures error ==
        if WholeSeconds(ttl) <= 0 then Some(TtlNotPositive)
        else if delivery == Confirmed then None else Some(RedisFailed)
    {
      Others(me);
      ghost var a := acts;
      error, mine := SaveOwn(me, token, user, ttl, delivery, issued, exp, nonce);
      ghost var b := acts;
      Others(me);
      GrewTrans(old(acts), a, b, me, [], mine);
      GrewTrans(old(acts), b, acts, me, mine, []);
    }

    /** SaveSession, with what it did as an act of this request. */
    method SaveOwn(me: nat, token: string, user: nat, ttl: int, delivery: Delivery,
                   ghost issued: int, ghost exp: int, ghost nonce: seq<byte>)
      returns (error: Option<AuthError>, ghost mine: seq<Act>)
      requires Valid() && 0 < user < UINT64_LIMIT && exp == Unix(issued + desk.ttl)
      requires token == desk.mint(user, issued, nonce) && nonce in nonces
      requires ttl >= exp * SECOND - clock
      modifies this
      ensures Valid() && clock >= old(clock) && nonces == old(nonces) && Grew(old(acts), acts, me, mine)
      ensures OwnSave(mine, WholeSeconds(ttl) <= 0 || delivery == Lost, me, token, Grant(user, issued, exp, 0, nonce))
      ensures mine != [] ==> mine[0].grant.expires <= clock + ttl
      ensures error ==
        if WholeSeconds(ttl) <= 0 then Some(TtlNotPositive)
        else if delivery == Confirmed then None else Some(RedisFailed)
    {
      error := SaveSession(me, token, user, ttl, delivery, issued, exp, nonce);
      mine := acts[|old(acts)|..];
      if mine != [] {
        BySnoc(old(acts), acts[|old(acts)|], me);
      }
    }

    /** The part of Login after the password was checked, with other requests at work between
        any two of its statements; `profileRead` says how the final profile read goes. The request
        saves a session exactly if enough of the ttl was left and the command reached
        Redis, whatever it answers: it answers an error although the session works if
        the confirmation was lost or the profile read failed. */
    method Login(me: nat, user: nat, nonce: seq<byte>, delivery: Delivery, profileRead: bool)
      returns (r: Result<string, AuthError>, ghost mine: seq<Act>, ghost late: bool)
      requires Valid() && 0 < user < UINT64_LIMIT
      modifies this
      ensures Valid() && clock >= old(clock) && old(nonces) + {nonce} <= nonces && Grew(old(acts), acts, me, mine)
      ensures late ==> clock > old(clock) + desk.ttl - 2 * SECOND
      ensures if late || delivery == Lost then mine == [] else |mine| == 1 && mine[0].Saved? && mine[0].who == me
      ensures mine != [] ==> var g := mine[0].grant;
        && g.user == user && old(clock) <= g.issued <= clock && g.nonce == nonce
        && g.exp == (g.issued + desk.ttl) / 1_000_000_000 && g.expires <= g.exp * SECOND + clock - old(clock)
        && (nonce !in old(nonces) ==> mine[0].token !in Replay(old(acts)))
      ensures r ==
        if late then Err(TtlNotPositive)
        else if delivery != Confirmed then Err(RedisFailed)
        else if !profileRead then Err(StoreFailed)
        else Ok(mine[0].token)
    {
      Elapse();
      ghost var issued := clock;
      Draw(nonce);
      var token, exp := IssueNow(user, nonce);
      FreshToken(desk, old(nonces), live, token, Grant(user, issued, exp, 0, nonce));
      var error;
      error, mine, late := SaveMine(me, token, user, delivery, issued, exp, nonce);
      if error.Some? {
        r := Err(error.value);
      } else {
        r := if profileRead then Ok(token) else Err(StoreFailed);
      }
    }

    /** Removes this session, and does nothing else, exactly if the command reaches Redis. */
    method Logout(me: nat, token: string, delivery: Delivery) returns (error: Option<AuthError>)
      requires Valid()
      modifies this
      ensures Valid() && clock >= old(clock)
      ensures error == if Blank(token) || delivery == Confirmed then None else Some(RedisFailed)
      ensures token == "" ==> error == None && Grew(old(acts), acts, me, [])
      ensures Grew(old(acts), acts, me, if Blank(token) || delivery == Lost then [] else [Dropped(me, token)])
    {
      if Blank(token) {
        return None;
      }
      Others(me);
      if delivery != Lost {
        BySnoc(acts, Dropped(me, token), me);
        Del(me, token);
      }
      Others(me);
      return if delivery == Confirmed then None else Some(RedisFailed);
    }

    /** GET; entries past their expiry are gone. */
    method GetSession(token: string, answered: bool) returns (r: Result<Option<nat>, AuthError>)
      requires Valid()
      modifies this`clock
      ensures clock >= old(clock)
      ensures r == if !answered then Err(RedisFailed)
                   else Ok(if token in live && clock < live[token].expires then Some(live[token].user) else None)
    {
      Elapse();
      if !answered {
        return Err(RedisFailed);
      }
      var key := keyOf(token);
      if key !in redis || clock >= redis[key].expires || redis[key].value == "" {
        PrintParses(if token in live then live[token].user else 0);
        return Ok(None);
      }
      assert SessionOk(desk, nonces, token, live[token]);
      PrintParses(live[token].user);
      var user := ParseNat(redis[key].value);
      if user.None? || user.value >= UINT64_LIMIT {
        return Err(RedisFailed);
      }
      return Ok(Some(user.value));
    }

    /** With other requests at work between verification and GET: accepts a token as user `u`
        exactly when, as Redis answered, Login had saved it for `u`, no Logout had removed it since and
        neither expiry had passed, the token's at verification, the entry's at the answer.
        `at` tells which acts came before the answer, `asked` when it came. */
    method RequireUser(me: nat, token: string, answered: bool)
      returns (r: Result<nat, AuthError>, ghost verified: int, ghost asked: int, ghost at: nat)
      requires Valid()
      modifies this
      ensures Valid() && old(clock) <= verified <= asked <= clock
      ensures |old(acts)| <= at <= |acts| && Grew(old(acts), acts, me, [])
      ensures r != Err(RedisFailed) ==> forall u: nat ::
        r == Ok(u) <==> Accepts(Replay(acts[..at]), token, u, verified, asked)
      ensures r.Err? ==> r.error == RedisFailed || r.error == Unauthorized
      ensures answered ==> r != Err(RedisFailed)
      ensures InWindow(Replay(acts[..at]), token, desk.ttl, asked) ==> r.Ok? || r == Err(RedisFailed)
      ensures PastWindow(Replay(acts[..at]), token, desk.ttl, old(clock)) ==> r == Err(Unauthorized)
    {
      verified, asked, at := clock, clock, |acts|;
      assert acts[..at] == acts;
      assert token in live ==> SessionOk(desk, nonces, token, live[token]);
      if Blank(token) {
        return Err(Unauthorized), verified, asked, at;
      }
      Elapse();
      verified, asked := clock, clock;
      var user := desk.verify(token, clock);
      if user.None? {
        return Err(Unauthorized), verified, asked, at;
      }
      r, asked, at := Confirm(me, token, user.value, answered);
      ghost var known := Replay(acts[..at]);
      assert token in known ==> SessionOk(desk, nonces, token, known[token]);
    }

    /** The second half of requireUser: asks Redis about a token that verified as this user. */
    method Confirm(me: nat, token: string, user: nat, answered: bool)
      returns (r: Result<nat, AuthError>, ghost asked: int, ghost at: nat)
      requires Valid()
      modifies this
      ensures Valid() && old(clock) <= asked <= clock
      ensures |old(acts)| <= at <= |acts| && Grew(old(acts), acts, me, [])
      ensures AllOk(desk, nonces, Replay(acts[..at]))
      ensures r ==
        if !answered then Err(RedisFailed)
        else if Stands(Replay(acts[..at]), token, user, asked) then Ok(user) else Err(Unauthorized)
    {
      Others(me);
      at := |acts|;
      assert acts[..at] == acts;
      var stored := GetSession(token, answered);
      asked := clock;
      if stored.Err? {
        return Err(stored.error), asked, at;
      }
      if stored.value.None? || stored.value.value != user {
        return Err(Unauthorized), asked, at;
      }
      return Ok(user), asked, at;
    }
  }

  /** Redis has the session, for this user. */
  predicate Stands(live: map<string, Grant>, token: string, user: nat, asked: int) {
    token in live && live[token].user == user && asked < live[token].expires
  }

  /** The session is there for this user and neither expiry has passed. */
  predicate Accepts(live: map<string, Grant>, token: string, user: nat, verified: int, asked: int) {
    Stands(live, token, user, asked) && Unix(verified) < live[token].exp
  }

  predicate InWindow(live: map<string, Grant>, token: string, ttl: int, asked: int) {
    token in live && asked <= live[token].issued + ttl - 2 * SECOND
  }

  predicate PastWindow(live: map<string, Grant>, token: string, ttl: int, began: int) {
    token in live && began >= live[token].issued + ttl
  }
}
