/** Unpadded base64url (sections 3.2 and 5 of RFC 4648) as RawURLEncoding does it. */
module Base64Url {
  import opened Wrappers

  function Letter(n: nat): char
    requires n < 64
  {
    if n < 26 then 'A' + n as char
    else if n < 52 then 'a' + (n - 26) as char
    else if n < 62 then '0' + (n - 52) as char
    else if n == 62 then '-' else '_'
  }

  function Sextet(c: char): Option<nat> {
    if 'A' <= c <= 'Z' then Some((c - 'A') as nat)
    else if 'a' <= c <= 'z' then Some((c - 'a') as nat + 26)
    else if '0' <= c <= '9' then Some((c - '0') as nat + 52)
    else if c == '-' then Some(62)
    else if c == '_' then Some(63)
    else None
  }

  predicate InAlphabet(s: string) {
    forall i :: 0 <= i < |s| ==> Sextet(s[i]).Some?
  }

  type six = x: int | 0 <= x < 64

  /** Three bytes to four sextets; one or two bytes left over to two or three. */
  function Group(b: seq<byte>): seq<six> {
    if |b| == 0 then []
    else if |b| == 1 then [First(b[0]), Second(b[0], 0)]
    else if |b| == 2 then [First(b[0]), Second(b[0], b[1]), Third(b[1], 0)]
    else [First(b[0]), Second(b[0], b[1]), Third(b[1], b[2]), Fourth(b[2])] + Group(b[3..])
  }

  function First(a: byte): six {
    a / 4
  }

  function Second(a: byte, b: byte): six {
    a % 4 * 16 + b / 16
  }

  function Third(b: byte, c: byte): six {
    b % 16 * 4 + c / 64
  }

  function Fourth(c: byte): six {
    c % 64
  }

  function High(x: six, y: six): byte {
    x as int * 4 + y as int / 16
  }

  function Middle(y: six, z: six): byte {
    y as int % 16 * 16 + z as int / 4
  }

  function Low(z: six, w: six): byte {
    z as int % 4 * 64 + w as int
  }

  /** A single sextet left over is an error; the unused low bits of the last one are ignored. */
  function Ungroup(x: seq<six>): Option<seq<byte>> {
    if |x| == 0 then Some([])
    else if |x| == 1 then None
    else if |x| == 2 then Some([High(x[0], x[1])])
    else if |x| == 3 then Some([High(x[0], x[1]), Middle(x[1], x[2])])
    else match Ungroup(x[4..])
      case None => None
      case Some(more) => Some([High(x[0], x[1]), Middle(x[1], x[2]), Low(x[2], x[3])] + more)
  }

  function Encode(b: seq<byte>): string {
    Letters(Group(b))
  }

  function Letters(x: seq<six>): string {
    seq(|x|, i requires 0 <= i < |x| => Letter(x[i]))
  }

  function Sextets(s: string): seq<six>
    requires InAlphabet(s)
  {
    seq(|s|, i requires 0 <= i < |s| => Sextet(s[i]).value)
  }

  /** The decoder skips line breaks. */
  function Decode(s: string): Option<seq<byte>> {
    var clean := NoBreaks(s);
    if InAlphabet(clean) then Ungroup(Sextets(clean)) else None
  }

  function NoBreaks(s: string): string {
    if s == "" then "" else (if s[0] == '\r' || s[0] == '\n' then "" else [s[0]]) + NoBreaks(s[1..])
  }

  lemma LettersRoundTrip(x: seq<six>)
    ensures InAlphabet(Letters(x)) && Sextets(Letters(x)) == x
  {
  }

  lemma {:induction false} AlphabetHasNoBreaks(s: string)
    requires InAlphabet(s)
    ensures NoBreaks(s) == s
  {
    if s != "" {
      AlphabetHasNoBreaks(s[1..]);
      assert Sextet(s[0]).Some?;
    }
  }

  lemma BytesBack(a: byte, b: byte, c: byte)
    ensures High(First(a), Second(a, b)) == a
    ensures Middle(Second(a, b), Third(b, c)) == b
    ensures Low(Third(b, c), Fourth(c)) == c
  {
  }

  lemma ThreeBack(a: byte, b: byte, c: byte, x: seq<six>, more: seq<byte>)
    requires Ungroup(x) == Some(more)
    ensures Ungroup([First(a), Second(a, b), Third(b, c), Fourth(c)] + x) == Some([a, b, c] + more)
  {
    BytesBack(a, b, c);
    assert ([First(a), Second(a, b), Third(b, c), Fourth(c)] + x)[4..] == x;
  }

  lemma OneBack(b: seq<byte>, c: byte)
    requires |b| == 1
    ensures Ungroup([First(b[0]), Second(b[0], c)]) == Some(b)
  {
    BytesBack(b[0], c, c);
    assert b == [b[0]];
  }

  lemma TwoBack(b: seq<byte>, c: byte)
    requires |b| == 2
    ensures Ungroup([First(b[0]), Second(b[0], b[1]), Third(b[1], c)]) == Some(b)
  {
    BytesBack(b[0], b[1], c);
    assert b == [b[0], b[1]];
  }

  lemma {:induction false} GroupRoundTrip(b: seq<byte>)
    ensures Ungroup(Group(b)) == Some(b)
  {
    if |b| >= 3 {
      GroupRoundTrip(b[3..]);
      ThreeBack(b[0], b[1], b[2], Group(b[3..]), b[3..]);
      assert b == [b[0], b[1], b[2]] + b[3..];
    } else if |b| == 2 {
      TwoBack(b, 0);
    } else if |b| == 1 {
      OneBack(b, 0);
    }
  }

  lemma {:induction false} UngroupFails(x: seq<six>)
    ensures Ungroup(x) == None <==> |x| % 4 == 1
  {
    if |x| < 4 {
    } else {
      UngroupFails(x[4..]);
    }
  }

  /** What the decoder refuses: a character outside the alphabet, or one letter too many. */
  lemma DecodeRefuses(s: string)
    ensures Decode(s) == None <==> !InAlphabet(NoBreaks(s)) || |NoBreaks(s)| % 4 == 1
  {
    if InAlphabet(NoBreaks(s)) {
      UngroupFails(Sextets(NoBreaks(s)));
    }
  }

  /** A line break anywhere makes no difference. */
  lemma {:induction false} BreakIgnored(a: string, c: char, b: string)
    requires c == '\r' || c == '\n'
    ensures NoBreaks(a + [c] + b) == NoBreaks(a + b) && Decode(a + [c] + b) == Decode(a + b)
  {
    if a == "" {
      assert a + [c] + b == [c] + b && ([c] + b)[1..] == b && a + b == b;
    } else {
      BreakIgnored(a[1..], c, b);
      var with, without := a + [c] + b, a + b;
      assert with[0] == a[0] == without[0];
      assert with[1..] == a[1..] + [c] + b && without[1..] == a[1..] + b;
    }
  }

  /** The alphabet: letters, digits, minus and underscore. */
  lemma AlphabetMeans(c: char)
    ensures Sextet(c).Some? <==>
      'A' <= c <= 'Z' || 'a' <= c <= 'z' || '0' <= c <= '9' || c == '-' || c == '_'
  {
  }

  /** What is encoded decodes, and uses only the 64 letters. */
  lemma RoundTrip(b: seq<byte>)
    ensures InAlphabet(Encode(b)) && Decode(Encode(b)) == Some(b)
  {
    LettersRoundTrip(Group(b));
    AlphabetHasNoBreaks(Encode(b));
    GroupRoundTrip(b);
  }
}
