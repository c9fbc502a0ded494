/**
 How sessions and pictures share one flat Redis key space: the names never
 collide, so the flat map behaves as one map per kind.
 */
module RedisKeys {
  import opened Decimal
  import opened Strings

  const DEFAULT_PREFIX := "go-entry-task"
  const SESSION := ":session:"
  const PICTURE := ":profile-picture:"

  function Prefix(configured: string): string {
    if configured == "" then DEFAULT_PREFIX else configured
  }

  /** `digest` stands for the hex SHA-256 of the token. */
  function SessionKey(configured: string, digest: string -> string, token: string): string {
    Prefix(configured) + SESSION + digest(token)
  }

  function PictureKey(configured: string, user: nat, version: nat): string {
    Prefix(configured) + PICTURE + Print(user) + ":" + Print(version)
  }

  lemma SamePrefix(p: string, a: string, b: string)
    requires p + a == p + b
    ensures a == b
  {
    assert (p + a)[|p|..] == a;
    assert (p + b)[|p|..] == b;
  }

  /** Keys start with the configured prefix, or with the default one if none is configured. */
  lemma KeysCarryPrefix(configured: string, digest: string -> string, token: string, u: nat, v: nat)
    ensures var prefix := if |configured| > 0 then configured else "go-entry-task";
      && prefix + ":session:" + digest(token) == SessionKey(configured, digest, token)
      && prefix + ":profile-picture:" + Print(u) + ":" + Print(v) == PictureKey(configured, u, v)
  {
  }

  lemma NumeralHasNoColon(n: nat)
    ensures ':' !in Print(n)
  {
    PrintParses(n);
  }

  /** The user and the version can be read off the tail of a picture key. */
  lemma PairInjective(u: nat, v: nat, u': nat, v': nat)
    requires Print(u) + ":" + Print(v) == Print(u') + ":" + Print(v')
    ensures u == u' && v == v'
  {
    NumeralHasNoColon(u);
    NumeralHasNoColon(u');
    SplitAtColon(Print(u), Print(v), Print(u'), Print(v'));
    PrintInjective(u, u');
    PrintInjective(v, v');
  }

  lemma SplitAtColon(a: string, b: string, a': string, b': string)
    requires ':' !in a && ':' !in a' && a + ":" + b == a' + ":" + b'
    ensures a == a' && b == b'
  {
    IndexAt(a, ':', b);
    IndexAt(a', ':', b');
    assert a + ":" + b == a + [':'] + b && a' + ":" + b' == a' + [':'] + b';
    assert (a + ":" + b)[..|a|] == a && (a' + ":" + b')[..|a'|] == a';
    assert (a + ":" + b)[|a| + 1..] == b && (a' + ":" + b')[|a'| + 1..] == b';
  }

  lemma PictureKeyInjective(configured: string, u: nat, v: nat, u': nat, v': nat)
    requires PictureKey(configured, u, v) == PictureKey(configured, u', v')
    ensures u == u' && v == v'
  {
    var p, a, b := Prefix(configured) + PICTURE, Print(u) + ":" + Print(v), Print(u') + ":" + Print(v');
    assert PictureKey(configured, u, v) == p + a;
    assert PictureKey(configured, u', v') == p + b;
    SamePrefix(p, a, b);
    PairInjective(u, v, u', v');
  }

  lemma KindsDisjoint(configured: string, digest: string -> string, token: string, u: nat, v: nat)
    ensures SessionKey(configured, digest, token) != PictureKey(configured, u, v)
  {
    var at := |Prefix(configured)| + 1;
    assert SessionKey(configured, digest, token)[at] == SESSION[1];
    assert PictureKey(configured, u, v)[at] == PICTURE[1];
  }

  // ---------- the flat map refines typed maps ----------

  datatype Key = Session(token: string) | Picture(user: nat, version: nat)

  function Name(configured: string, digest: string -> string, key: Key): string {
    match key
    case Session(token) => SessionKey(configured, digest, token)
    case Picture(user, version) => PictureKey(configured, user, version)
  }

  ghost predicate CollisionFree(digest: string -> string) {
    forall a, b :: digest(a) == digest(b) ==> a == b
  }

  lemma NameInjective(configured: string, digest: string -> string, a: Key, b: Key)
    requires CollisionFree(digest) && Name(configured, digest, a) == Name(configured, digest, b)
    ensures a == b
  {
    match (a, b) {
      case (Session(t), Session(t')) =>
        SamePrefix(Prefix(configured) + SESSION, digest(t), digest(t'));
      case (Picture(u, v), Picture(u', v')) => PictureKeyInjective(configured, u, v, u', v');
      case (Session(t), Picture(u, v)) => KindsDisjoint(configured, digest, t, u, v);
      case (Picture(u, v), Session(t)) => KindsDisjoint(configured, digest, t, u, v);
    }
  }

  ghost predicate Represents<V(!new)>(configured: string, digest: string -> string, flat: map<string, V>,
                               typed: map<Key, V>) {
    forall key ::
      && (key in typed <==> Name(configured, digest, key) in flat)
      && (key in typed ==> typed[key] == flat[Name(configured, digest, key)])
  }

  /** SET and DEL through a key's name act on that key alone. */
  lemma FlatRefinesTyped<V(!new)>(configured: string, digest: string -> string, flat: map<string, V>, typed: map<Key,
                           V>, key: Key, value: V)
    requires CollisionFree(digest) && Represents(configured, digest, flat, typed)
    ensures Represents(configured, digest, flat[Name(configured, digest, key) := value], typed[key := value])
    ensures Represents(configured, digest, flat - {Name(configured, digest, key)}, typed - {key})
  {
    forall other | Name(configured, digest, other) == Name(configured, digest, key) ensures other == key {
      NameInjective(configured, digest, other, key);
    }
  }
}
