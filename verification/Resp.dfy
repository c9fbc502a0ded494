/**
 The Redis client's side of RESP2: commands as arrays of bulk strings, and
 simple string, error, integer and bulk replies. A Go string is a sequence of
 bytes; here each byte is one char.
 */
module Resp {
  import opened Wrappers
  import opened Decimal
  import opened Strings

  const CRLF := "\r\n"

  /** A reply as the protocol defines it. */
  datatype Reply = Simple(text: string) | Failure(text: string) | Integer(number: int) | Bulk(data: string) | Null

  datatype Value = Text(text: string) | Number(number: int)

  /** Missing is ErrMissing; Malformed covers unparsable lengths and unknown prefixes. */
  datatype Problem = Server(message: string) | Missing | Malformed | Eof | Io

  type Outcome = Result<Value, Problem>

  predicate OneLine(s: string) {
    '\r' !in s && '\n' !in s
  }

  predicate WellFormed(r: Reply) {
    match r
    case Simple(text) => OneLine(text)
    case Failure(text) => OneLine(text)
    case Integer(i) => -INT64_LIMIT <= i < INT64_LIMIT
    case Bulk(data) => |data| < INT64_LIMIT
    case Null => true
  }

  function Encode(r: Reply): string {
    match r
    case Simple(text) => "+" + text + CRLF
    case Failure(text) => "-" + text + CRLF
    case Integer(i) => ":" + Itoa(i) + CRLF
    case Bulk(data) => "$" + Itoa(|data|) + CRLF + data + CRLF
    case Null => "$-1" + CRLF
  }

  function Meaning(r: Reply): Outcome {
    match r
    case Simple(text) => Ok(Text(text))
    case Failure(text) => Err(Server(text))
    case Integer(i) => Ok(Number(i))
    case Bulk(data) => Ok(Text(data))
    case Null => Err(Missing)
  }

  // ---------- reading ----------

  /** ReadString('\n') with the line ending taken off, and the rest of the stream. */
  function ReadLine(s: string): Option<(string, string)> {
    var i := IndexOf(s, '\n');
    if i == |s| then None else Some((TrimSuffix(TrimSuffix(s[..i + 1], '\n'), '\r'), s[i + 1..]))
  }

  datatype Read = Read(outcome: Outcome, rest: string)

  /** readReply; lengths below -1, on which the code panics, count as malformed. */
  function ParseReply(s: string): Read {
    if s == "" then Read(Err(Eof), "")
    else
      match ReadLine(s[1..])
      case None => Read(Err(Eof), "")
      case Some((line, rest)) =>
        match s[0]
        case '+' => Read(Ok(Text(line)), rest)
        case '-' => Read(Err(Server(line)), rest)
        case ':' => Read(match ParseInt(line) case Some(i) => Ok(Number(i)) case None => Err(Malformed), rest)
        case '$' =>
          (match ParseInt(line)
           case None => Read(Err(Malformed), rest)
           case Some(n) =>
             if n == -1 then Read(Err(Missing), rest)
             else if n < -1 then Read(Err(Malformed), rest)
             else if |rest| < n + 2 then Read(Err(Eof), "")
             else Read(Ok(Text(rest[..n])), rest[n + 2..]))
        case _ => Read(Err(Malformed), rest)
  }

  lemma LineReads(line: string, rest: string)
    requires OneLine(line)
    ensures ReadLine(line + CRLF + rest) == Some((line, rest))
  {
    var s := line + CRLF + rest;
    assert s == (line + ['\r']) + ['\n'] + rest;
    IndexAt(line + ['\r'], '\n', rest);
    assert s[..|line| + 2] == line + CRLF;
    assert TrimSuffix(line + CRLF, '\n') == line + ['\r'];
  }

  lemma NumeralIsOneLine(i: int)
    ensures OneLine(Itoa(i))
  {
    PrintParses(if i < 0 then -i else i);
  }

  lemma MarkedLine(mark: char, line: string, rest: string)
    requires OneLine(line)
    ensures var s := [mark] + line + CRLF + rest; s != "" && s[0] == mark && ReadLine(s[1..]) == Some((line, rest))
  {
    var s := [mark] + line + CRLF + rest;
    assert s[1..] == line + CRLF + rest;
    LineReads(line, rest);
  }

  lemma SimpleRoundTrip(text: string, rest: string)
    requires OneLine(text)
    ensures ParseReply(Encode(Simple(text)) + rest) == Read(Ok(Text(text)), rest)
    ensures ParseReply(Encode(Failure(text)) + rest) == Read(Err(Server(text)), rest)
  {
    MarkedLine('+', text, rest);
    MarkedLine('-', text, rest);
  }

  lemma IntegerRoundTrip(i: int, rest: string)
    requires -INT64_LIMIT <= i < INT64_LIMIT
    ensures ParseReply(Encode(Integer(i)) + rest) == Read(Ok(Number(i)), rest)
  {
    NumeralIsOneLine(i);
    MarkedLine(':', Itoa(i), rest);
    ItoaParses(i);
  }

  lemma NullRoundTrip(rest: string)
    ensures ParseReply(Encode(Null) + rest) == Read(Err(Missing), rest)
  {
    MarkedLine('$', "-1", rest);
    ItoaParses(-1);
    assert Itoa(-1) == "-1";
    assert Encode(Null) + rest == ['$'] + "-1" + CRLF + rest;
  }

  lemma BulkReads(data: string, rest: string)
    requires |data| < INT64_LIMIT
    ensures ParseReply(['$'] + Itoa(|data|) + CRLF + (data + CRLF + rest)) == Read(Ok(Text(data)), rest)
  {
    var tail := data + CRLF + rest;
    NumeralIsOneLine(|data|);
    MarkedLine('$', Itoa(|data|), tail);
    ItoaParses(|data|);
    assert tail[..|data|] == data && tail[|data| + 2..] == rest;
  }

  lemma BulkLayout(data: string, rest: string)
    ensures Encode(Bulk(data)) + rest == ['$'] + Itoa(|data|) + CRLF + (data + CRLF + rest)
  {
  }

  /** Replies are self-delimiting: on a well-formed reply followed by anything,
      readReply returns its value and consumes exactly that reply. */
  lemma ReplyRoundTrip(r: Reply, rest: string)
    requires WellFormed(r)
    ensures ParseReply(Encode(r) + rest) == Read(Meaning(r), rest)
  {
    match r {
      case Simple(text) => SimpleRoundTrip(text, rest);
      case Failure(text) => SimpleRoundTrip(text, rest);
      case Integer(i) => IntegerRoundTrip(i, rest);
      case Bulk(data) =>
        BulkLayout(data, rest);
        BulkReads(data, rest);
      case Null => NullRoundTrip(rest);
    }
  }

  // ---------- cut off or malformed ----------

  lemma NoLineYet(s: string)
    requires '\n' !in s
    ensures ReadLine(s) == None
  {
  }

  /** A marked line cut off anywhere is no line. */
  lemma CutLine(mark: char, line: string, k: nat)
    requires OneLine(line) && k < |[mark] + line + CRLF|
    ensures ParseReply(([mark] + line + CRLF)[..k]) == Read(Err(Eof), "")
  {
    var s := [mark] + line + CRLF;
    if k > 0 {
      assert s[..k][1..] == (line + CRLF)[..k - 1];
      assert '\n' !in (line + CRLF)[..k - 1];
      NoLineYet(s[..k][1..]);
    }
  }

  lemma CutBulk(data: string, k: nat)
    requires |data| < INT64_LIMIT && k < |Encode(Bulk(data))|
    ensures ParseReply(Encode(Bulk(data))[..k]) == Read(Err(Eof), "")
  {
    var head, tail := ['$'] + Itoa(|data|) + CRLF, data + CRLF;
    NumeralIsOneLine(|data|);
    assert Encode(Bulk(data)) == head + tail;
    if k < |head| {
      assert Encode(Bulk(data))[..k] == head[..k];
      CutLine('$', Itoa(|data|), k);
    } else {
      var part := tail[..k - |head|];
      assert Encode(Bulk(data))[..k] == head + part;
      MarkedLine('$', Itoa(|data|), part);
      ItoaParses(|data|);
    }
  }

  /** A reply cut off anywhere is reported as such, never as a value. */
  lemma CutReply(r: Reply, k: nat)
    requires WellFormed(r) && k < |Encode(r)|
    ensures ParseReply(Encode(r)[..k]) == Read(Err(Eof), "")
  {
    match r {
      case Simple(text) => CutLine('+', text, k);
      case Failure(text) => CutLine('-', text, k);
      case Integer(i) =>
        NumeralIsOneLine(i);
        CutLine(':', Itoa(i), k);
      case Bulk(data) => CutBulk(data, k);
      case Null => CutLine('$', "-1", k);
    }
  }

  /** An unknown mark, or a number that is none, is an error. */
  lemma MalformedReply(mark: char, line: string, rest: string)
    requires OneLine(line)
    requires mark !in "+-:$" || (mark in ":$" && exists i :: 1 <= i < |line| && !('0' <= line[i] <= '9'))
    ensures ParseReply([mark] + line + CRLF + rest) == Read(Err(Malformed), rest)
  {
    MarkedLine(mark, line, rest);
    if mark in ":$" {
      var i :| 1 <= i < |line| && !('0' <= line[i] <= '9');
      assert line[1..][i - 1] == line[i];
    }
  }

  // ---------- writing ----------

  function EncodeArg(arg: string): string {
    "$" + Print(|arg|) + CRLF + arg + CRLF
  }

  function EncodeArgs(args: seq<string>): string {
    if args == [] then "" else EncodeArg(args[0]) + EncodeArgs(args[1..])
  }

  function EncodeCommand(args: seq<string>): string {
    "*" + Print(|args|) + CRLF + EncodeArgs(args)
  }

  lemma {:induction false} ArgsAppend(args: seq<string>, arg: string)
    ensures EncodeArgs(args + [arg]) == EncodeArgs(args) + EncodeArg(arg)
  {
    if args == [] {
      assert ([arg])[1..] == [];
    } else {
      ArgsAppend(args[1..], arg);
      assert (args + [arg])[1..] == args[1..] + [arg] && (args + [arg])[0] == args[0];
      var a, b, c := EncodeArg(args[0]), EncodeArgs(args[1..]), EncodeArg(arg);
      assert a + (b + c) == (a + b) + c;
    }
  }

  /** The server's view: a prefix character and a number on one line. */
  function DecodeCount(s: string, mark: char): Option<(nat, string)> {
    if s == "" || s[0] != mark then None
    else match ReadLine(s[1..])
      case None => None
      case Some((line, rest)) =>
        match ParseNat(line)
        case None => None
        case Some(n) => Some((n, rest))
  }

  type Counter = string -> Option<(nat, string)>

  function CountReader(mark: char): Counter {
    (s: string) => DecodeCount(s, mark)
  }

  function DecodeArgs(count: Counter, s: string, n: nat): Option<(seq<string>, string)>
    decreases n
  {
    if n == 0 then Some(([], s))
    else match count(s)
      case None => None
      case Some((len, rest)) =>
        if |rest| < len + 2 then None
        else match DecodeArgs(count, rest[len + 2..], n - 1)
          case None => None
          case Some((args, rest')) => Some(([rest[..len]] + args, rest'))
  }

  function DecodeCommand(s: string): Option<(seq<string>, string)> {
    match DecodeCount(s, '*')
    case None => None
    case Some((n, rest)) => DecodeArgs(CountReader('$'), rest, n)
  }

  lemma CountReads(mark: char, n: nat, rest: string)
    ensures DecodeCount([mark] + Print(n) + CRLF + rest, mark) == Some((n, rest))
  {
    var s := [mark] + Print(n) + CRLF + rest;
    PrintParses(n);
    MarkedLine(mark, Print(n), rest);
  }

  /** The counter reads what heads an argument, and no further. */
  ghost predicate Counts(count: Counter) {
    forall n: nat, rest: string {:trigger count(ArgHead(n) + rest)} :: count(ArgHead(n) + rest) == Some((n, rest))
  }

  function ArgHead(n: nat): string {
    "$" + Print(n) + CRLF
  }

  lemma OneArg(count: Counter, arg: string, more: string, n: nat)
    requires n > 0 && Counts(count)
    ensures DecodeArgs(count, EncodeArg(arg) + more, n) ==
            match DecodeArgs(count, more, n - 1)
            case None => None
            case Some((args, rest)) => Some(([arg] + args, rest))
  {
    var tail := arg + CRLF + more;
    assert EncodeArg(arg) + more == ArgHead(|arg|) + tail;
    assert count(ArgHead(|arg|) + tail) == Some((|arg|, tail));
    assert tail[..|arg|] == arg && tail[|arg| + 2..] == more;
  }

  lemma {:induction false} ArgsRoundTrip(count: Counter, args: seq<string>, rest: string)
    requires Counts(count)
    ensures DecodeArgs(count, EncodeArgs(args) + rest, |args|) == Some((args, rest))
  {
    if args == [] {
      assert EncodeArgs(args) + rest == rest;
    } else {
      var more := EncodeArgs(args[1..]) + rest;
      assert EncodeArgs(args) + rest == EncodeArg(args[0]) + more;
      ArgsRoundTrip(count, args[1..], rest);
      OneArg(count, args[0], more, |args|);
      assert [args[0]] + args[1..] == args;
    }
  }

  /** A command is uniquely decodable to its arguments, whatever bytes they hold. */
  lemma CommandRoundTrip(args: seq<string>, rest: string)
    ensures DecodeCommand(EncodeCommand(args) + rest) == Some((args, rest))
  {
    var tail := EncodeArgs(args) + rest;
    assert EncodeCommand(args) + rest == ['*'] + Print(|args|) + CRLF + tail;
    CountReads('*', |args|, tail);
    var count := CountReader('$');
    assert Counts(count) by {
      forall n: nat, rest: string ensures count(ArgHead(n) + rest) == Some((n, rest)) {
        CountReads('$', n, rest);
        assert ArgHead(n) + rest == ['$'] + Print(n) + CRLF + rest;
      }
    }
    ArgsRoundTrip(count, args, rest);
  }

  lemma ArgSent(before: string, head: string, args: seq<string>, i: nat)
    requires i < |args|
    ensures before + (head + EncodeArgs(args[..i])) + EncodeArg(args[i]) == before + (head + EncodeArgs(args[..i + 1]))
  {
    ArgsAppend(args[..i], args[i]);
    assert args[..i + 1] == args[..i] + [args[i]];
  }

  // ---------- the client ----------

  type Parser = string -> Read

  /** readReply as a value. */
  function ReplyParser(): Parser {
    (s: string) => ParseReply(s)
  }

  class Connection {
    const parser: Parser
    /** Bytes from the server not yet read. */
    var incoming: string
    var sent: string
    /** The commands written completely. */
    ghost var commands: seq<seq<string>>

    /** Everything sent so far is whole commands. */
    ghost predicate Whole()
      reads this
    {
      sent == EncodeCommands(commands)
    }

    constructor (incoming: string)
      ensures this.incoming == incoming && commands == [] && Whole() && parser == ReplyParser()
    {
      this.incoming, sent, commands, parser := incoming, "", [], ReplyParser();
    }

    method Send(data: string) returns (ok: bool)
      modifies this`sent
      ensures old(sent) <= sent && (ok ==> sent == old(sent) + data)
    {
      if * {
        sent := sent + data;
        return true;
      }
      return false;
    }

    method WriteCommand(args: seq<string>) returns (ok: bool)
      modifies this`sent
      ensures old(sent) <= sent && (ok ==> sent == old(sent) + EncodeCommand(args))
    {
      var head := "*" + Print(|args|) + CRLF;
      ok := Send(head);
      var i := 0;
      while i < |args| && ok
        invariant 0 <= i <= |args| && old(sent) <= sent
        invariant ok ==> sent == old(sent) + (head + EncodeArgs(args[..i]))
      {
        ok := Send(EncodeArg(args[i]));
        ArgSent(old(sent), head, args, i);
        i := i + 1;
      }
      assert args[..|args|] == args;
    }

    method ReadReply() returns (r: Outcome)
      modifies this`incoming
      ensures Read(r, incoming) == parser(old(incoming))
    {
      var read := parser(incoming);
      r, incoming := read.outcome, read.rest;
    }

    /** Writes a command and reads one reply. */
    method Ask(args: seq<string>) returns (r: Outcome)
      requires Whole()
      modifies this
      ensures r == Err(Io) || Read(r, incoming) == parser(old(incoming))
      ensures r != Err(Io) ==> Whole() && commands == old(commands) + [args]
    {
      var ok := WriteCommand(args);
      if !ok {
        return Err(Io);
      }
      commands := commands + [args];
      assert commands[..|commands| - 1] == old(commands);
      r := ReadReply();
    }

    /** Insists on a reply that is no error to the next of `all` commands, of which `n` are still to come. */
    method Insist(args: seq<string>, ghost all: seq<seq<string>>, ghost input: string, ghost n: nat)
      returns (r: Option<Problem>)
      requires Whole() && n > 1 && |commands| + n == |all|
      requires commands == all[..|commands|] && args == all[|commands|]
      requires Converse(parser, input, |all|) == Converse(parser, incoming, n)
      requires Answered(parser, input, |all|) == |commands| + Answered(parser, incoming, n)
      modifies this
      ensures r != Some(Io) ==> Whole() && |commands| == |old(commands)| + 1 && commands == all[..|commands|]
      ensures r == None ==> Converse(parser, input, |all|) == Converse(parser, incoming, n - 1)
      ensures r == None ==> Answered(parser, input, |all|) == |commands| + Answered(parser, incoming, n - 1)
      ensures r.Some? && r.value != Io ==>
        Converse(parser, input, |all|) == Err(r.value) && Answered(parser, input, |all|) == |commands|
    {
      var answer := Ask(args);
      r := if answer.Err? then Some(answer.error) else None;
    }

    /** One command on a fresh connection, after AUTH and SELECT where configured. */
    method Command(password: string, db: int, args: seq<string>) returns (r: Outcome)
      requires Whole() && commands == []
      modifies this
      ensures var all := Commands(password, db, args);
        r == Err(Io) || r == Converse(parser, old(incoming), |all|)
      ensures r != Err(Io) ==> Whole()
      ensures r != Err(Io) ==> var all := Commands(password, db, args);
        commands == all[..Answered(parser, old(incoming), |all|)]
    {
      ghost var all := Commands(password, db, args);
      ghost var input := incoming;
      if password != "" {
        var problem := Insist(["AUTH", password], all, input, |all|);
        if problem.Some? {
          return Err(problem.value);
        }
      }
      if db > 0 {
        var problem := Insist(["SELECT", Itoa(db)], all, input, 2);
        if problem.Some? {
          return Err(problem.value);
        }
      }
      r := Ask(args);
    }
  }

  /** The commands of one exchange: AUTH and SELECT where configured, then the one asked for. */
  function Commands(password: string, db: int, args: seq<string>): (all: seq<seq<string>>)
    ensures |all| == 1 + (if password != "" then 1 else 0) + if db > 0 then 1 else 0
    ensures all[|all| - 1] == args
    ensures password != "" ==> all[0] == ["AUTH", password]
    ensures db > 0 ==> all[|all| - 2] == ["SELECT", Itoa(db)]
  {
    (if password != "" then [["AUTH", password]] else []) + (if db > 0 then [["SELECT", Itoa(db)]] else []) + [args]
  }

  function EncodeCommands(commands: seq<seq<string>>): string {
    if commands == [] then "" else EncodeCommands(commands[..|commands| - 1]) + EncodeCommand(commands[|commands| - 1])
  }

  /** Reading `n` replies in turn; the first error ends it. */
  function Converse(parse: Parser, incoming: string, n: nat): Outcome
    requires n > 0
    decreases n
  {
    var read := parse(incoming);
    if n == 1 || read.outcome.Err? then read.outcome else Converse(parse, read.rest, n - 1)
  }

  /** How many replies that reading consumes. */
  function Answered(parse: Parser, incoming: string, n: nat): (k: nat)
    requires n > 0
    ensures 1 <= k <= n
    decreases n
  {
    var read := parse(incoming);
    if n == 1 || read.outcome.Err? then 1 else 1 + Answered(parse, read.rest, n - 1)
  }

  function EncodeReplies(encode: Reply -> string, replies: seq<Reply>): string {
    if replies == [] then "" else encode(replies[0]) + EncodeReplies(encode, replies[1..])
  }

  /** The first error among the replies, or else the last reply. */
  function Reported(replies: seq<Reply>): Outcome
    requires replies != []
  {
    if |replies| == 1 || Meaning(replies[0]).Err? then Meaning(replies[0]) else Reported(replies[1..])
  }

  /** The parser reads what the encoder writes, and no further. */
  ghost predicate Reads(parse: Parser, encode: Reply -> string) {
    forall r, rest {:trigger parse(encode(r) + rest)} :: WellFormed(r) ==>
      parse(encode(r) + rest) == Read(Meaning(r), rest)
  }

  lemma {:induction false} ConverseWith(parse: Parser, encode: Reply -> string, replies: seq<Reply>, rest: string)
    requires replies != [] && forall i :: 0 <= i < |replies| ==> WellFormed(replies[i])
    requires Reads(parse, encode)
    ensures Converse(parse, EncodeReplies(encode, replies) + rest, |replies|) == Reported(replies)
  {
    var tail := EncodeReplies(encode, replies[1..]) + rest;
    assert EncodeReplies(encode, replies) + rest == encode(replies[0]) + tail;
    assert parse(encode(replies[0]) + tail) == Read(Meaning(replies[0]), tail);
    if |replies| > 1 {
      ConverseWith(parse, encode, replies[1..], rest);
    }
  }

  function ReplyEncoder(): Reply -> string {
    (r: Reply) => Encode(r)
  }

  /** Against a server that answers each command with one well-formed reply, the
      client gets the reply to its last command if the ones before are no errors,
      and else the first error. */
  lemma ConverseReads(replies: seq<Reply>, rest: string)
    requires replies != [] && forall i :: 0 <= i < |replies| ==> WellFormed(replies[i])
    ensures Converse(ReplyParser(), EncodeReplies(ReplyEncoder(), replies) + rest, |replies|) == Reported(replies)
  {
    var parse, encode := ReplyParser(), ReplyEncoder();
    assert Reads(parse, encode) by {
      forall r, rest | WellFormed(r) ensures parse(encode(r) + rest) == Read(Meaning(r), rest) {
        ReplyRoundTrip(r, rest);
      }
    }
    ConverseWith(parse, encode, replies, rest);
  }
}
