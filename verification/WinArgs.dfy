/**
 Windows command lines: the quoting of internal/agent/winargs.go against the rules by which a child process cuts its
 command line back into arguments (CommandLineToArgvW, as Go's runtime implements them).
 */
module WinArgs {

  function Slashes(n: nat): (s: string)
    ensures |s| == n
  {
    seq(n, _ => '\\')
  }

  // ---------- quoting ----------

  /** Arguments that go into the command line as they are. */
  predicate Plain(s: string) {
    s != [] && forall i :: 0 <= i < |s| ==> s[i] !in {' ', '\t', '\n', '\U{0B}', '"'}
  }

  /** The quoted form after the opening quote, with n backslashes read and not yet written. */
  function Body(s: string, n: nat): string {
    if s == [] then Slashes(2 * n) + "\""
    else if s[0] == '\\' then Body(s[1..], n + 1)
    else if s[0] == '"' then Slashes(2 * n + 1) + "\"" + Body(s[1..], 0)
    else Slashes(n) + [s[0]] + Body(s[1..], 0)
  }

  function Quote(s: string): string { if Plain(s) then s else "\"" + Body(s, 0) }

  function Join(qs: seq<string>): string {
    if qs == [] then "" else if |qs| == 1 then qs[0] else qs[0] + " " + Join(qs[1..])
  }

  function QuoteAll(args: seq<string>): (qs: seq<string>)
    ensures |qs| == |args| && forall i :: 0 <= i < |args| ==> qs[i] == Quote(args[i])
  {
    seq(|args|, i requires 0 <= i < |args| => Quote(args[i]))
  }

  function Build(args: seq<string>): string { Join(QuoteAll(args)) }

  method QuoteWindowsArg(s: string) returns (r: string)
    ensures r == Quote(s)
  {
    if Plain(s) {
      return s;
    }
    var b := "\"";
    var slashes := 0;
    var i := 0;
    while i < |s|
      invariant i <= |s| && b + Body(s[i..], slashes) == "\"" + Body(s, 0)
    {
      ghost var rest := s[i..];
      assert rest[1..] == s[i + 1..] && rest[0] == s[i];
      if s[i] == '\\' {
        slashes := slashes + 1;
      } else if s[i] == '"' {
        b := b + Slashes(slashes * 2 + 1) + "\"";
        slashes := 0;
      } else {
        b := b + Slashes(slashes) + [s[i]];
        slashes := 0;
      }
      i := i + 1;
    }
    return b + Slashes(slashes * 2) + "\"";
  }

  method BuildWindowsCommandLine(args: seq<string>) returns (line: string)
    ensures line == Build(args)
  {
    var quoted: seq<string> := [];
    for i := 0 to |args|
      invariant quoted == QuoteAll(args)[..i]
    {
      var q := QuoteWindowsArg(args[i]);
      quoted := quoted + [q];
    }
    assert quoted == QuoteAll(args);
    line := Join(quoted);
  }

  // ---------- reading a command line ----------

  /** One argument and what follows it, from inside it: in or out of quotes, after n backslashes. */
  function ReadArg(cmd: string, inQuote: bool, n: nat): (r: (string, string))
    ensures |r.1| <= |cmd| && (cmd != [] ==> |r.1| < |cmd|)
    decreases |cmd|
  {
    if cmd == [] then (Slashes(n), "")
    else if cmd[0] in {' ', '\t'} && !inQuote then (Slashes(n), cmd[1..])
    else if cmd[0] == '\\' then ReadArg(cmd[1..], inQuote, n + 1)
    else if cmd[0] != '"' then Prepend(Slashes(n) + [cmd[0]], ReadArg(cmd[1..], inQuote, 0))
    else if n % 2 == 1 then Prepend(Slashes(n / 2) + "\"", ReadArg(cmd[1..], inQuote, 0))
    else if inQuote && |cmd| > 1 && cmd[1] == '"' then Prepend(Slashes(n / 2) + "\"", ReadArg(cmd[2..], false, 0))
    else Prepend(Slashes(n / 2), ReadArg(cmd[1..], !inQuote, 0))
  }

  function Prepend(s: string, r: (string, string)): (string, string) { (s + r.0, r.1) }

  function Argv(cmd: string): seq<string>
    decreases |cmd|
  {
    if cmd == [] then []
    else if cmd[0] in {' ', '\t'} then Argv(cmd[1..])
    else var (arg, rest) := ReadArg(cmd, false, 0); [arg] + Argv(rest)
  }

  // ---------- the round trip ----------

  /** What may stand after an argument: nothing, or a space and more. */
  predicate Ends(tail: string) { tail == [] || tail[0] == ' ' }

  function Rest(tail: string): string { if tail == [] then "" else tail[1..] }

  lemma {:induction false} ReadSlashes(k: nat, cmd: string, inQuote: bool, n: nat)
    ensures ReadArg(Slashes(k) + cmd, inQuote, n) == ReadArg(cmd, inQuote, n + k)
  {
    if k == 0 {
      assert Slashes(0) + cmd == cmd;
    } else {
      assert (Slashes(k) + cmd)[1..] == Slashes(k - 1) + cmd;
      ReadSlashes(k - 1, cmd, inQuote, n + 1);
    }
  }

  lemma {:induction false} ReadPlain(s: string, n: nat, tail: string)
    requires Ends(tail) && forall i :: 0 <= i < |s| ==> s[i] !in {' ', '\t', '"'}
    ensures ReadArg(s + tail, false, n) == (Slashes(n) + s, Rest(tail))
    decreases |s|
  {
    if s == [] {
      assert s + tail == tail && Slashes(n) + s == Slashes(n);
    } else {
      assert (s + tail)[1..] == s[1..] + tail;
      if s[0] == '\\' {
        ReadPlain(s[1..], n + 1, tail);
        assert Slashes(n + 1) + s[1..] == Slashes(n) + s;
      } else {
        ReadPlain(s[1..], 0, tail);
        assert Slashes(n) + [s[0]] + (Slashes(0) + s[1..]) == Slashes(n) + s;
      }
    }
  }

  lemma ReadClose(n: nat, tail: string)
    requires Ends(tail)
    ensures ReadArg(Slashes(2 * n) + "\"" + tail, true, 0) == (Slashes(n), Rest(tail))
  {
    assert Slashes(2 * n) + "\"" + tail == Slashes(2 * n) + ("\"" + tail);
    ReadSlashes(2 * n, "\"" + tail, true, 0);
    assert ("\"" + tail)[1..] == tail;
    assert ReadArg(tail, false, 0) == ("", Rest(tail));
    assert Slashes(n) + "" == Slashes(n);
  }

  lemma ReadQuoteChar(n: nat, cmd: string)
    ensures ReadArg(Slashes(2 * n + 1) + "\"" + cmd, true, 0) == Prepend(Slashes(n) + "\"", ReadArg(cmd, true, 0))
  {
    assert Slashes(2 * n + 1) + "\"" + cmd == Slashes(2 * n + 1) + ("\"" + cmd);
    ReadSlashes(2 * n + 1, "\"" + cmd, true, 0);
    assert ("\"" + cmd)[1..] == cmd;
  }

  lemma ReadOtherChar(n: nat, c: char, cmd: string)
    requires c != '\\' && c != '"'
    ensures ReadArg(Slashes(n) + [c] + cmd, true, 0) == Prepend(Slashes(n) + [c], ReadArg(cmd, true, 0))
  {
    assert Slashes(n) + [c] + cmd == Slashes(n) + ([c] + cmd);
    ReadSlashes(n, [c] + cmd, true, 0);
    assert ([c] + cmd)[1..] == cmd;
  }

  /** Reading a quoted body gives the text back, pending backslashes included, and stops right after it. */
  lemma {:induction false} ReadBody(s: string, n: nat, tail: string)
    requires Ends(tail)
    ensures ReadArg(Body(s, n) + tail, true, 0) == (Slashes(n) + s, Rest(tail))
    decreases |s|
  {
    if s == [] {
      ReadClose(n, tail);
      assert Slashes(n) + s == Slashes(n);
    } else if s[0] == '\\' {
      ReadBody(s[1..], n + 1, tail);
      assert Slashes(n + 1) + s[1..] == Slashes(n) + s;
    } else {
      ReadBody(s[1..], 0, tail);
      BodySteps(s, n, tail);
      assert Slashes(0) + s[1..] == s[1..];
    }
  }

  /** What a body does to the first character, as a prefix written and a prefix read back. */
  lemma BodyHead(s: string, n: nat, tail: string)
    requires s != [] && s[0] != '\\'
    ensures var more := Body(s[1..], 0) + tail;
            ReadArg(Body(s, n) + tail, true, 0) == Prepend(Slashes(n) + [s[0]], ReadArg(more, true, 0))
  {
    var more := Body(s[1..], 0) + tail;
    if s[0] == '"' {
      Join3(Slashes(2 * n + 1) + "\"", Body(s[1..], 0), tail);
      ReadQuoteChar(n, more);
    } else {
      Join3(Slashes(n) + [s[0]], Body(s[1..], 0), tail);
      ReadOtherChar(n, s[0], more);
    }
  }

  lemma Join3(a: string, b: string, c: string)
    ensures a + b + c == a + (b + c)
  {
  }

  lemma BodySteps(s: string, n: nat, tail: string)
    requires s != [] && s[0] != '\\'
    requires ReadArg(Body(s[1..], 0) + tail, true, 0) == (Slashes(0) + s[1..], Rest(tail))
    ensures ReadArg(Body(s, n) + tail, true, 0) == (Slashes(n) + s, Rest(tail))
  {
    BodyHead(s, n, tail);
    assert Slashes(0) + s[1..] == s[1..];
    Glue(Slashes(n), s);
  }

  lemma Glue(a: string, s: string)
    requires s != []
    ensures a + [s[0]] + s[1..] == a + s
  {
  }

  lemma ReadQuoted(s: string, tail: string)
    requires Ends(tail)
    ensures Quote(s) != [] && Quote(s)[0] !in {' ', '\t'}
    ensures ReadArg(Quote(s) + tail, false, 0) == (s, Rest(tail))
  {
    if Plain(s) {
      ReadPlain(s, 0, tail);
      assert Slashes(0) + s == s;
    } else {
      ReadBody(s, 0, tail);
      assert ("\"" + Body(s, 0) + tail)[1..] == Body(s, 0) + tail;
      assert Slashes(0) + s == s && "" + s == s;
    }
  }

  /** Every argument list comes back as it went in. */
  lemma {:induction false} RoundTrip(args: seq<string>)
    ensures Argv(Build(args)) == args
    decreases |args|
  {
    if args != [] {
      var rest := args[1..];
      var tail := if rest == [] then "" else " " + Build(rest);
      assert QuoteAll(args)[1..] == QuoteAll(rest);
      assert Build(args) == Quote(args[0]) + tail;
      ReadQuoted(args[0], tail);
      RoundTrip(rest);
    }
  }

  // ---------- through the system call ----------

  /** The argument vector of the elevated child: a command line holding a NUL is not passed on at all. */
  function Received(args: seq<string>): seq<string> {
    if '\0' in Build(args) then [] else Argv(Build(args))
  }

  lemma {:induction false} BodyKeepsChars(s: string, n: nat)
    ensures '\0' in Body(s, n) <==> '\0' in s
    decreases |s|
  {
    if s != [] {
      if s[0] == '\\' {
        BodyKeepsChars(s[1..], n + 1);
      } else {
        BodyKeepsChars(s[1..], 0);
      }
      assert s == [s[0]] + s[1..];
    }
  }

  lemma {:induction false} JoinKeepsChars(qs: seq<string>)
    ensures '\0' in Join(qs) <==> exists i :: 0 <= i < |qs| && '\0' in qs[i]
    decreases |qs|
  {
    if |qs| > 1 {
      JoinKeepsChars(qs[1..]);
      assert forall i :: 1 <= i < |qs| ==> qs[i] == qs[1..][i - 1];
    }
  }

  /** The child receives exactly the arguments given, if and only if none of them holds a NUL. */
  lemma ReceivedIff(args: seq<string>)
    ensures Received(args) == args <==> forall i :: 0 <= i < |args| ==> '\0' !in args[i]
  {
    RoundTrip(args);
    JoinKeepsChars(QuoteAll(args));
    forall i | 0 <= i < |args| ensures '\0' in Quote(args[i]) <==> '\0' in args[i] {
      BodyKeepsChars(args[i], 0);
    }
  }
}
