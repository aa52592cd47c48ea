/** Commands and reply lines of the Redis serialization protocol, and the command sequence that flushes a database.
    Texts are byte strings, one character per byte. */
module RedisCommands {
  import opened Decimals
  import opened PyStrings

  const CRLF := "\r\n"

  // ---------------------------------------------------------------- commands: arrays of bulk strings

  function Header(mark: char, n: nat): string { [mark] + Decimal(n) + CRLF }

  function Bulk(part: string): string { Header('$', |part|) + part + CRLF }

  function Bulks(parts: seq<string>): string {
    if parts == [] then "" else Bulk(parts[0]) + Bulks(parts[1..])
  }

  function Encoded(parts: seq<string>): string { Header('*', |parts|) + Bulks(parts) }

  lemma {:induction false} BulksAppend(parts: seq<string>, p: string)
    ensures Bulks(parts + [p]) == Bulks(parts) + Bulk(p)
  {
    hide Bulk;
    if parts == [] {
      assert [] + [p] == [p] && [p][1..] == [];
    } else {
      assert (parts + [p])[1..] == parts[1..] + [p];
      BulksAppend(parts[1..], p);
    }
  }

  method EncodeRedisCommand(parts: seq<string>) returns (payload: string)
    ensures payload == Encoded(parts)
  {
    hide Bulk, Header;
    payload := Header('*', |parts|);
    for i := 0 to |parts|
      invariant payload == Header('*', |parts|) + Bulks(parts[..i])
    {
      BulksAppend(parts[..i], parts[i]);
      assert parts[..i + 1] == parts[..i] + [parts[i]];
      payload := payload + Bulk(parts[i]);
    }
    assert parts[..|parts|] == parts;
  }

  // ---------------------------------------------------------------- reading them back

  /** The number in a header, and what follows it. */
  function ReadHeader(mark: char, s: string): Option<(nat, string)> {
    if s == "" || s[0] != mark then None
    else
      var d := Prefix(s[1..], IsDigit);
      if d > 0 && CRLF <= s[1 + d..] then Some((DecimalValue(s[1..1 + d]), s[1 + d + 2..])) else None
  }

  function ReadBulk(s: string): Option<(string, string)> {
    match ReadHeader('$', s)
    case None => None
    case Some((n, rest)) => if n + 2 <= |rest| && rest[n..n + 2] == CRLF then Some((rest[..n], rest[n + 2..])) else None
  }

  function ReadBulks(n: nat, s: string): Option<(seq<string>, string)> {
    if n == 0 then Some(([], s))
    else match ReadBulk(s)
      case None => None
      case Some((part, rest)) =>
        var more := ReadBulks(n - 1, rest);
        if more.None? then None else Some(([part] + more.value.0, more.value.1))
  }

  /** The command at the start of a byte string, and what follows it. */
  function ReadCommand(s: string): Option<(seq<string>, string)> {
    match ReadHeader('*', s)
    case None => None
    case Some((n, rest)) => ReadBulks(n, rest)
  }

  lemma {:induction false} HeaderReads(mark: char, n: nat, rest: string)
    ensures ReadHeader(mark, Header(mark, n) + rest) == Some((n, rest))
  {
    var d := Decimal(n);
    var s := Header(mark, n) + rest;
    ValueOfDecimal(n);
    assert s[1..] == d + (CRLF + rest);
    PrefixIs(d, CRLF + rest, IsDigit);
    hide Decimal, Prefix;
    assert s[1..1 + |d|] == d;
    assert s[1 + |d|..] == CRLF + rest;
    assert s[1 + |d| + 2..] == rest;
  }

  lemma {:induction false} BulkReads(part: string, rest: string)
    ensures ReadBulk(Bulk(part) + rest) == Some((part, rest))
  {
    hide Header, ReadHeader;
    var after := part + CRLF + rest;
    HeaderReads('$', |part|, after);
    assert Bulk(part) + rest == Header('$', |part|) + after;
    assert after[..|part|] == part && after[|part|..|part| + 2] == CRLF && after[|part| + 2..] == rest;
  }

  lemma {:induction false} BulksRead(parts: seq<string>, rest: string)
    ensures ReadBulks(|parts|, Bulks(parts) + rest) == Some((parts, rest))
  {
    hide Bulk, ReadBulk;
    if parts == [] {
      assert Bulks(parts) + rest == rest;
    } else {
      BulksRead(parts[1..], rest);
      BulkReads(parts[0], Bulks(parts[1..]) + rest);
      assert Bulks(parts) + rest == Bulk(parts[0]) + (Bulks(parts[1..]) + rest);
      assert parts == [parts[0]] + parts[1..];
    }
  }

  /** An encoded command is read back whatever its parts hold and whatever follows it. */
  lemma {:induction false} CommandReads(parts: seq<string>, rest: string)
    ensures ReadCommand(Encoded(parts) + rest) == Some((parts, rest))
  {
    hide Header, Bulks, ReadBulks, ReadHeader;
    HeaderReads('*', |parts|, Bulks(parts) + rest);
    BulksRead(parts, rest);
    assert Encoded(parts) + rest == Header('*', |parts|) + (Bulks(parts) + rest);
  }

  function EncodedAll(commands: seq<seq<string>>): string {
    if commands == [] then "" else Encoded(commands[0]) + EncodedAll(commands[1..])
  }

  /** Different sequences of commands have different encodings. */
  lemma {:induction false} UniquelyDecodable(a: seq<seq<string>>, b: seq<seq<string>>)
    requires EncodedAll(a) == EncodedAll(b)
    ensures a == b
  {
    hide ReadCommand, Encoded;
    if a != [] {
      CommandReads(a[0], EncodedAll(a[1..]));
    }
    if b != [] {
      CommandReads(b[0], EncodedAll(b[1..]));
    }
    EmptyReadsNothing();
    if a != [] && b != [] {
      assert a == [a[0]] + a[1..] && b == [b[0]] + b[1..];
      UniquelyDecodable(a[1..], b[1..]);
    }
  }

  lemma {:induction false} EmptyReadsNothing()
    ensures ReadCommand("") == None
  {
  }

  lemma {:induction false} EncodedAppend(commands: seq<seq<string>>, c: seq<string>)
    ensures EncodedAll(commands + [c]) == EncodedAll(commands) + Encoded(c)
  {
    hide Encoded;
    if commands == [] {
      assert [] + [c] == [c] && [c][1..] == [];
    } else {
      assert (commands + [c])[1..] == commands[1..] + [c];
      EncodedAppend(commands[1..], c);
    }
  }

  // ---------------------------------------------------------------- reply lines

  /** The length of the first line of a byte string: up to and with the first CRLF, or all of it. */
  function LineLength(s: string): (n: nat)
    ensures n <= |s|
  {
    if |s| < 2 then |s| else if s[..2] == CRLF then 2 else 1 + LineLength(s[1..])
  }

  predicate EndsLine(s: string, k: int) { 2 <= k <= |s| && s[k - 2..k] == CRLF }

  /** No shorter prefix ends with CRLF, and the line does, or takes all there is. */
  lemma {:induction false} LineIsShortest(s: string)
    ensures forall k | k < LineLength(s) :: !EndsLine(s, k)
    ensures LineLength(s) == |s| || EndsLine(s, LineLength(s))
  {
    if |s| >= 2 && s[..2] != CRLF {
      var n := LineLength(s);
      LineIsShortest(s[1..]);
      forall k | k < n
        ensures !EndsLine(s, k)
      {
        assert k > 2 && k <= |s| ==> s[1..][k - 3..k - 1] == s[k - 2..k];
        assert !EndsLine(s[1..], k - 1);
      }
      assert n < |s| ==> s[1..][n - 3..n - 1] == s[n - 2..n];
    }
  }

  function FirstLine(s: string): string { s[..LineLength(s)] }

  /** What is left after `n` lines. */
  function RestAfter(s: string, n: nat): string {
    if n == 0 then s else RestAfter(s, n - 1)[LineLength(RestAfter(s, n - 1))..]
  }

  /** The reply to command `n`. */
  function Reply(s: string, n: nat): string { FirstLine(RestAfter(s, n)) }

  /** A reply that ends with CRLF. */
  predicate Complete(reply: string) { EndsLine(reply, |reply|) }

  /** How many CRLF are in the stream. */
  function Breaks(s: string): nat {
    if |s| < 2 then 0 else (if s[..2] == CRLF then 1 else 0) + Breaks(s[1..])
  }

  lemma {:induction false} FirstBreak(s: string)
    ensures Complete(FirstLine(s)) <==> 0 < Breaks(s)
    ensures Breaks(s[LineLength(s)..]) == if 0 < Breaks(s) then Breaks(s) - 1 else 0
    decreases |s|
  {
    if |s| >= 2 {
      var n := LineLength(s);
      if s[..2] == CRLF {
        assert n == 2 && s[..2][0..2] == CRLF;
        assert s[1] == CRLF[1];
        assert |s| >= 3 ==> s[1..][..2] != CRLF;
        assert |s| >= 3 ==> s[1..][1..] == s[2..];
      } else {
        FirstBreak(s[1..]);
        var m := LineLength(s[1..]);
        assert n == m + 1 && s[n..] == s[1..][m..];
        EndsLater(s, s[..n], s[1..][..m]);
      }
    }
  }

  lemma {:induction false} EndsLater(s: string, line: string, rest: string)
    requires |s| >= 2 && s[..2] != CRLF && line == [s[0]] + rest && rest <= s[1..] && line <= s
    ensures Complete(line) <==> Complete(rest)
  {
    if |rest| >= 2 {
      assert line[|line| - 2..|line|] == rest[|rest| - 2..|rest|];
    } else if |rest| == 1 {
      assert line[0..2] == s[..2];
    }
  }

  lemma {:induction false} BreaksAfter(s: string, n: nat)
    ensures Breaks(RestAfter(s, n)) == if n <= Breaks(s) then Breaks(s) - n else 0
    ensures Complete(Reply(s, n)) <==> n < Breaks(s)
  {
    hide FirstLine, LineLength, Complete;
    FirstBreak(RestAfter(s, n));
    if n > 0 {
      BreaksAfter(s, n - 1);
      FirstBreak(RestAfter(s, n - 1));
    }
  }

  /** The first `n` replies are complete exactly if the stream holds as many line ends. */
  lemma {:induction false} CompleteExactly(s: string, n: nat)
    ensures (forall j: nat | j < n :: Complete(Reply(s, j))) <==> n <= Breaks(s)
  {
    hide Complete, Reply, Breaks;
    forall j: nat | j < n
      ensures Complete(Reply(s, j)) <==> j < Breaks(s)
    {
      BreaksAfter(s, j);
    }
    if n > Breaks(s) {
      assert !Complete(Reply(s, Breaks(s)));
    }
  }

  predicate IsError(reply: string) { reply != "" && reply[0] == '-' }

  // ---------------------------------------------------------------- flushing a database

  datatype FlushResult = Flushed | Refused(reply: string) | AuthUnsupported

  const FLUSH := ["FLUSHDB"]

  /** The commands of a flush: AUTH when there is a password, SELECT, FLUSHDB. */
  function Script(password: Option<string>, username: string, db: nat): seq<seq<string>> {
    (match password
     case Some(p) => [if username != "" then ["AUTH", username, p] else ["AUTH", p]]
     case None => [])
    + [["SELECT", Decimal(db)], FLUSH]
  }

  /** The bytes are those of a flush, read command by command: AUTH with the user name, if there is one, and the
      password, if there is one; SELECT with the number of the database; FLUSHDB. */
  ghost predicate FlushesDatabase(bytes: string, password: Option<string>, username: string, db: nat) {
    if password.Some? then
      var c := ReadCommand(bytes);
      && c.Some? && |c.value.0| > 1 && c.value.0[0] == "AUTH" && c.value.0[|c.value.0| - 1] == password.value
      && (if username == "" then |c.value.0| == 2 else |c.value.0| == 3 && c.value.0[1] == username)
      && SelectsAndFlushes(c.value.1, db)
    else SelectsAndFlushes(bytes, db)
  }

  ghost predicate SelectsAndFlushes(bytes: string, db: nat) {
    var c := ReadCommand(bytes);
    && c.Some? && |c.value.0| == 2 && c.value.0[0] == "SELECT" && c.value.0[1] != ""
    && Prefix(c.value.0[1], IsDigit) == |c.value.0[1]| && DecimalValue(c.value.0[1]) == db
    && ReadCommand(c.value.1) == Some((["FLUSHDB"], ""))
  }

  lemma {:induction false} CommandsRead(commands: seq<seq<string>>)
    requires commands != []
    ensures ReadCommand(EncodedAll(commands)) == Some((commands[0], EncodedAll(commands[1..])))
  {
    hide Encoded, ReadCommand;
    CommandReads(commands[0], EncodedAll(commands[1..]));
  }

  lemma {:induction false} NumberReads(n: nat)
    ensures Decimal(n) != "" && Prefix(Decimal(n), IsDigit) == |Decimal(n)| && DecimalValue(Decimal(n)) == n
  {
    ValueOfDecimal(n);
    hide Decimal, DecimalValue;
    PrefixIs(Decimal(n), "", IsDigit);
    assert Decimal(n) + "" == Decimal(n);
  }

  lemma {:induction false} EndSelects(db: nat)
    ensures SelectsAndFlushes(EncodedAll([["SELECT", Decimal(db)], FLUSH]), db)
  {
    hide Encoded, ReadCommand, Decimal, DecimalValue, Prefix;
    var c := [["SELECT", Decimal(db)], FLUSH];
    CommandsRead(c);
    assert c[1..] == [FLUSH];
    CommandsRead([FLUSH]);
    NumberReads(db);
  }

  /** The script, as bytes, is that of a flush of the database asked for. */
  lemma {:induction false} ScriptFlushes(password: Option<string>, username: string, db: nat)
    ensures FlushesDatabase(EncodedAll(Script(password, username, db)), password, username, db)
  {
    hide EncodedAll, ReadCommand, Decimal, SelectsAndFlushes;
    EndSelects(db);
    var s := Script(password, username, db);
    if password.Some? {
      CommandsRead(s);
      assert s[1..] == [["SELECT", Decimal(db)], FLUSH];
    } else {
      assert s == [["SELECT", Decimal(db)], FLUSH];
    }
  }

  /** A command on the wire. */
  lemma {:induction false} PingOnTheWire()
    ensures Encoded(["PING", "a"]) == "*2\r\n$4\r\nPING\r\n$1\r\na\r\n"
  {
    assert Decimal(2) == "2" && Decimal(4) == "4" && Decimal(1) == "1";
    assert ["PING", "a"][1..] == ["a"] && ["a"][1..] == [];
    hide Decimal;
    assert Bulk("PING") == "$4\r\nPING\r\n" && Bulk("a") == "$1\r\na\r\n";
    hide Bulk;
    assert Bulks(["a"]) == "$1\r\na\r\n";
    assert Header('*', 2) == "*2\r\n";
  }

  /** `k` commands of the script were sent, and all but possibly the last of them drew no error. */
  ghost predicate Progressed(script: seq<seq<string>>, s: string, k: nat) {
    k <= |script| && forall j: nat | j + 1 < k :: !IsError(Reply(s, j))
  }

  lemma {:induction false} WholeScript(sent0: string, script: seq<seq<string>>)
    ensures var sent := sent0 + EncodedAll(script[..|script|]); sent0 <= sent && sent[|sent0|..] == EncodedAll(script)
  {
    hide EncodedAll;
    assert script[..|script|] == script;
  }

  class Socket {
    var incoming: string
    var sent: string

    constructor (incoming: string)
      ensures this.incoming == incoming && sent == ""
    {
      this.incoming, sent := incoming, "";
    }

    method SendAll(payload: string)
      modifies `sent
      ensures sent == old(sent) + payload
    {
      sent := sent + payload;
    }

    /** The next byte, or nothing at the end of the stream. */
    method ReceiveOne() returns (chunk: string)
      modifies `incoming
      ensures if old(incoming) == "" then chunk == "" && incoming == ""
              else chunk == old(incoming)[..1] && incoming == old(incoming)[1..]
    {
      if incoming == "" {
        return "";
      }
      chunk, incoming := incoming[..1], incoming[1..];
    }

    /** Consumes the shortest prefix that ends with CRLF, or everything. */
    method ReadRedisLine() returns (line: string)
      modifies `incoming
      ensures line == old(incoming)[..LineLength(old(incoming))]
      ensures incoming == old(incoming)[LineLength(old(incoming))..]
    {
      ghost var s, n := incoming, LineLength(incoming);
      LineIsShortest(s);
      line := "";
      while true
        invariant |line| <= n && line == s[..|line|] && incoming == s[|line|..] && !EndsLine(s, |line|)
        decreases |incoming|
      {
        var chunk := ReceiveOne();
        if chunk == "" {
          break;
        }
        ghost var k := |line| + 1;
        line := line + chunk;
        assert line == s[..k];
        assert EndsLine(s, k) <==> k >= 2 && line[k - 2] == '\r' && line[k - 1] == '\n';
        if |line| >= 2 && line[|line| - 2] == '\r' && line[|line| - 1] == '\n' {
          break;
        }
      }
    }

    method SendCommand(parts: seq<string>) returns (response: string)
      modifies this
      ensures sent == old(sent) + Encoded(parts)
      ensures response == FirstLine(old(incoming)) && incoming == old(incoming)[LineLength(old(incoming))..]
    {
      var payload := EncodeRedisCommand(parts);
      SendAll(payload);
      response := ReadRedisLine();
    }

    /** Sends the next command of a script. */
    method SendNext(ghost script: seq<seq<string>>, ghost s: string, ghost k: nat, ghost sent0: string,
                    parts: seq<string>)
      returns (response: string)
      requires Progressed(script, s, k + 1) && script[k] == parts
      requires incoming == RestAfter(s, k) && sent == sent0 + EncodedAll(script[..k])
      modifies this
      ensures response == Reply(s, k) && incoming == RestAfter(s, k + 1) && sent == sent0 + EncodedAll(script[..k + 1])
      ensures !IsError(response) && k + 1 < |script| ==> Progressed(script, s, k + 2)
    {
      hide Encoded, FirstLine, LineLength;
      response := SendCommand(parts);
      EncodedAppend(script[..k], parts);
      assert script[..k + 1] == script[..k] + [parts];
    }

    /** Flushes a database; FLUSHDB is sent only after every command before it drew a reply that is no error. */
    method PerformFlush(password: Option<string>, username: string, db: nat) returns (r: FlushResult, ghost k: nat)
      modifies this
      ensures r == AuthUnsupported <==> password.None? && username != ""
      ensures r == AuthUnsupported ==> sent == old(sent) && incoming == old(incoming)
      ensures r != AuthUnsupported ==> 0 < k && Progressed(Script(password, username, db), old(incoming), k)
      ensures r != AuthUnsupported ==>
                sent == old(sent) + EncodedAll(Script(password, username, db)[..k])
                    && incoming == RestAfter(old(incoming), k)
      ensures r == Flushed ==> k == |Script(password, username, db)| && !IsError(Reply(old(incoming), k - 1))
      ensures r.Refused? ==> IsError(r.reply) && r.reply == Reply(old(incoming), k - 1)
      ensures r == Flushed <==>
              r != AuthUnsupported && forall j: nat | j < |Script(password, username, db)| ::
                  !IsError(Reply(old(incoming), j))
      ensures r == Flushed ==>
                ((forall j: nat | j < k :: Complete(Reply(old(incoming), j)))
                 <==> |Script(password, username, db)| <= Breaks(old(incoming)))
      ensures r == Flushed ==> old(sent) <= sent && FlushesDatabase(sent[|old(sent)|..], password, username, db)
    {
      hide EncodedAll, RestAfter, Reply, Complete, Breaks, FlushesDatabase;
      ghost var s, sent0 := incoming, sent;
      ghost var script := Script(password, username, db);
      k := 0;
      NothingSent(s, script);
      CompleteExactly(s, |script|);
      var response;
      if password.Some? {
        response := SendNext(script, s, 0, sent0, if username != "" then ["AUTH", username, password.value]
            else ["AUTH", password.value]);
        k := 1;
        if IsError(response) {
          return Refused(response), k;
        }
      } else if username != "" {
        return AuthUnsupported, k;
      }
      response := SendNext(script, s, k, sent0, ["SELECT", Decimal(db)]);
      k := k + 1;
      if IsError(response) {
        return Refused(response), k;
      }
      response := SendNext(script, s, k, sent0, FLUSH);
      k := k + 1;
      if IsError(response) {
        return Refused(response), k;
      }
      WholeScript(sent0, script);
      ScriptFlushes(password, username, db);
      return Flushed, k;
    }
  }

  lemma {:induction false} NothingSent(s: string, script: seq<seq<string>>)
    ensures RestAfter(s, 0) == s && EncodedAll(script[..0]) == ""
  {
  }

  /** FLUSHDB is among the commands sent only if all commands before it were accepted. */
  lemma {:induction false} FlushOnlyAfterAcceptance(password: Option<string>, username: string, db: nat, s: string,
                                                    k: nat)
    requires var script := Script(password, username, db); Progressed(script, s, k) && FLUSH in script[..k]
    ensures k == |Script(password, username, db)|
    ensures forall j: nat | j + 1 < |Script(password, username, db)| :: !IsError(Reply(s, j))
  {
    hide Decimal, Reply, IsError;
    var script := Script(password, username, db);
    forall j: nat | j + 1 < |script|
      ensures script[j] != FLUSH
    {
      assert |script[j]| >= 2;
    }
    var j :| 0 <= j < k && script[j] == FLUSH;
  }

  /** A connection that is closed after it accepted AUTH: no command draws an error, so the flush is reported as done,
      yet neither SELECT nor FLUSHDB was answered. */
  lemma {:induction false} ClosedAfterAuth(password: string, username: string, db: nat)
    ensures var script, s := Script(Some(password), username, db), "+OK" + CRLF;
            && |script| == 3 && (forall j: nat | j < |script| :: !IsError(Reply(s, j)))
            && Complete(Reply(s, 0)) && Reply(s, 1) == "" == Reply(s, 2) && Breaks(s) == 1
  {
    hide Decimal, Breaks, LineLength;
    var s := "+OK" + CRLF;
    OneLine();
    assert RestAfter(s, 0) == s && RestAfter(s, 1) == s[5..] == "";
    NothingToRead();
    assert RestAfter(s, 2) == "";
  }

  lemma {:induction false} NothingToRead()
    ensures LineLength("") == 0 && FirstLine("") == ""
  {
  }

  lemma {:induction false} OneLine()
    ensures var s := "+OK" + CRLF; LineLength(s) == 5 && Complete(s) && Breaks(s) == 1 && s[0] == '+' && |s| == 5
  {
    var s := "+OK" + CRLF;
    NoBreakYet('+', "OK" + CRLF);
    NoBreakYet('O', "K" + CRLF);
    NoBreakYet('K', CRLF);
    assert s == ['+'] + ("OK" + CRLF) && "OK" + CRLF == ['O'] + ("K" + CRLF) && "K" + CRLF == ['K'] + CRLF;
    assert s[3..5] == CRLF && LineLength(CRLF) == 2 && Breaks(CRLF) == 1;
  }

  lemma {:induction false} NoBreakYet(c: char, rest: string)
    requires rest != "" && c != CRLF[0]
    ensures LineLength([c] + rest) == 1 + LineLength(rest) && Breaks([c] + rest) == Breaks(rest)
  {
    var s := [c] + rest;
    assert s[1..] == rest && s[..2][0] == c;
  }
}
