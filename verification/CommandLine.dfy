// Quoting arguments into a Windows command line, and reading them back by the Microsoft C runtime's rules
// ("Parsing C command-line arguments").
module CommandLines {
  import opened Utf

  const Tab: CodeUnit := 0x09
  const Space: CodeUnit := 0x20
  const Quote: CodeUnit := 0x22
  const Backslash: CodeUnit := 0x5C

  // The white space of a JavaScript regular expression's \s.
  predicate White(u: CodeUnit) {
    || 0x09 <= u <= 0x0D || u == 0x20 || u == 0xA0 || u == 0x1680 || 0x2000 <= u <= 0x200A
    || u == 0x2028 || u == 0x2029 || u == 0x202F || u == 0x205F || u == 0x3000 || u == 0xFEFF
  }

  // How many backslashes a text starts with, and ends with.
  function Run(t: Text): (n: nat)
    ensures n <= |t|
    ensures forall i :: 0 <= i < n ==> t[i] == Backslash
    ensures n < |t| ==> t[n] != Backslash
  {
    if t != [] && t[0] == Backslash then 1 + Run(t[1..]) else 0
  }

  function TrailingRun(t: Text): (n: nat)
    ensures n <= |t|
    ensures forall i :: |t| - n <= i < |t| ==> t[i] == Backslash
    ensures n < |t| ==> t[|t| - n - 1] != Backslash
  {
    if t != [] && t[|t| - 1] == Backslash then 1 + TrailingRun(t[..|t| - 1]) else 0
  }

  function Backslashes(n: nat): (t: Text)
    ensures |t| == n && forall i :: 0 <= i < n ==> t[i] == Backslash
  {
    seq(n, _ => Backslash)
  }

  /* The quoter */

  // First pass: double the backslashes before each quote and escape the quote.
  function EscapeQuotes(t: Text): Text
    decreases |t|
  {
    var n := Run(t);
    if n == |t| then t
    else if t[n] == Quote then Backslashes(2 * n) + [Backslash, Quote] + EscapeQuotes(t[n + 1..])
    else t[..n + 1] + EscapeQuotes(t[n + 1..])
  }

  // Second pass: double the backslashes at the end.
  function DoubleTrailing(t: Text): Text {
    t + Backslashes(TrailingRun(t))
  }

  predicate Plain(t: Text) {
    forall i :: 0 <= i < |t| ==> !White(t[i]) && t[i] != Quote
  }

  function Quoted(t: Text): Text {
    if Plain(t) then t else [Quote] + DoubleTrailing(EscapeQuotes(t)) + [Quote]
  }

  function Joined(args: seq<Text>): Text {
    if args == [] then []
    else if |args| == 1 then Quoted(args[0])
    else Quoted(args[0]) + [Space] + Joined(args[1..])
  }

  function CommandLine(executable: Text, args: seq<Text>): Text {
    Joined([executable] + args)
  }

  /* The reader */

  predicate Separates(u: CodeUnit) {
    u == Space || u == Tab
  }

  // Reads the rest t of a command line, within quotes or not, with `arg` read of an argument if one has begun.
  // 2n backslashes before a quote are n, 2n + 1 are n and a literal quote, and others stand for themselves;
  // a doubled quote within quotes is a literal one.
  function Scan(t: Text, quoted: bool, begun: bool, arg: Text): seq<Text>
    decreases |t|
  {
    var n := Run(t);
    if t == [] then if begun then [arg] else []
    else if n > 0 then
      if n < |t| && t[n] == Quote then
        if n % 2 == 0 then Scan(t[n..], quoted, true, arg + Backslashes(n / 2))
        else Scan(t[n + 1..], quoted, true, arg + Backslashes(n / 2) + [Quote])
      else Scan(t[n..], quoted, true, arg + Backslashes(n))
    else if t[0] == Quote then
      if quoted && |t| > 1 && t[1] == Quote then Scan(t[2..], true, true, arg + [Quote])
      else Scan(t[1..], !quoted, true, arg)
    else if Separates(t[0]) && !quoted then (if begun then [arg] else []) + Scan(t[1..], false, false, [])
    else Scan(t[1..], quoted, true, arg + [t[0]])
  }

  function Split(t: Text): seq<Text> {
    Scan(t, false, false, [])
  }

  // The program's name comes first and knows no escapes: quotes only keep white space in it.
  function Program(t: Text, quoted: bool): (Text, Text) {
    if t == [] then ([], [])
    else if t[0] == Quote then Program(t[1..], !quoted)
    else if Separates(t[0]) && !quoted then ([], t)
    else var (name, rest) := Program(t[1..], quoted); ([t[0]] + name, rest)
  }

  function SplitCommand(t: Text): seq<Text> {
    var (name, rest) := Program(t, false);
    [name] + Split(rest)
  }

  /* The two passes as one */

  function Body(t: Text): Text
    decreases |t|
  {
    var n := Run(t);
    if n == |t| then Backslashes(2 * n)
    else if t[n] == Quote then Backslashes(2 * n) + [Backslash, Quote] + Body(t[n + 1..])
    else Backslashes(n) + [t[n]] + Body(t[n + 1..])
  }

  lemma {:induction false} RunWhole(t: Text, n: nat)
    requires n <= |t| && (forall i :: 0 <= i < n ==> t[i] == Backslash) && (n < |t| ==> t[n] != Backslash)
    ensures Run(t) == n
  {
  }

  lemma TrailingWhole(t: Text, n: nat)
    requires n <= |t| && (forall i :: |t| - n <= i < |t| ==> t[i] == Backslash)
    requires n < |t| ==> t[|t| - n - 1] != Backslash
    ensures TrailingRun(t) == n
  {
  }

  lemma DoubleTrailingAfter(head: Text, tail: Text)
    requires head != [] && head[|head| - 1] != Backslash
    ensures DoubleTrailing(head + tail) == head + DoubleTrailing(tail)
  {
    var n, t := TrailingRun(tail), head + tail;
    assert forall i :: |t| - n <= i < |t| ==> t[i] == tail[i - |head|];
    TrailingWhole(t, n);
    assert t + Backslashes(n) == head + (tail + Backslashes(n));
  }

  lemma {:induction false} TwoPasses(t: Text)
    ensures DoubleTrailing(EscapeQuotes(t)) == Body(t)
    decreases |t|
  {
    var n := Run(t);
    if n == |t| {
      TrailingWhole(t, n);
      assert t + Backslashes(n) == Backslashes(2 * n);
    } else {
      TwoPasses(t[n + 1..]);
      assert t[..n + 1] == Backslashes(n) + [t[n]];
      var head := if t[n] == Quote then Backslashes(2 * n) + [Backslash, Quote] else t[..n + 1];
      DoubleTrailingAfter(head, EscapeQuotes(t[n + 1..]));
    }
  }

  /* Reading back */

  // What may follow a quoted argument: nothing, or white space.
  predicate Ends(rest: Text) {
    rest == [] || Separates(rest[0])
  }

  lemma ScanRun(n: nat, t: Text, quoted: bool, begun: bool, arg: Text)
    requires t != [] && t[0] != Backslash
    ensures
      var s := Scan(Backslashes(n) + t, quoted, begun, arg);
      && (t[0] == Quote && n % 2 == 0 ==> s == Scan(t, quoted, begun || n > 0, arg + Backslashes(n / 2)))
      && (t[0] != Quote ==> s == Scan(t, quoted, begun || n > 0, arg + Backslashes(n)))
  {
    if n == 0 {
      assert arg + Backslashes(0) == arg && Backslashes(0) + t == t;
    } else {
      AfterRun(n, t);
    }
  }

  lemma AfterRun(n: nat, t: Text)
    requires t != [] && t[0] != Backslash
    ensures
      var all := Backslashes(n) + t;
      Run(all) == n < |all| && all[n] == t[0] && all[n..] == t && all[n + 1..] == t[1..]
  {
    RunWhole(Backslashes(n) + t, n);
  }

  lemma OneMoreBackslash(n: nat, after: Text)
    ensures Backslashes(n) + [Backslash, Quote] + after == Backslashes(n + 1) + ([Quote] + after)
  {
  }

  lemma ScanOddRun(n: nat, after: Text, arg: Text)
    ensures Scan(Backslashes(2 * n + 1) + ([Quote] + after), true, true, arg)
         == Scan(after, true, true, arg + Backslashes(n) + [Quote])
  {
    AfterRun(2 * n + 1, [Quote] + after);
    assert ([Quote] + after)[1..] == after;
    assert (2 * n + 1) / 2 == n;
  }

  lemma ScanEscapedQuote(n: nat, after: Text, arg: Text)
    ensures Scan(Backslashes(2 * n) + [Backslash, Quote] + after, true, true, arg)
         == Scan(after, true, true, arg + Backslashes(n) + [Quote])
  {
    assert Backslashes(2 * n) + [Backslash, Quote] + after == Backslashes(2 * n + 1) + ([Quote] + after) by {
      OneMoreBackslash(2 * n, after);
    }
    ScanOddRun(n, after, arg);
  }

  lemma ScanOrdinary(n: nat, c: CodeUnit, after: Text, quoted: bool, begun: bool, arg: Text)
    requires c != Backslash && c != Quote && (quoted || !Separates(c))
    ensures Scan(Backslashes(n) + [c] + after, quoted, begun, arg)
         == Scan(after, quoted, true, arg + Backslashes(n) + [c])
  {
    var t := [c] + after;
    Assoc(Backslashes(n), [c], after);
    ScanRun(n, t, quoted, begun, arg);
    RunWhole(t, 0);
    assert t[1..] == after;
  }

  lemma ScanEvenRun(n: nat, rest: Text, arg: Text)
    ensures Scan(Backslashes(2 * n) + ([Quote] + rest), true, true, arg)
         == Scan([Quote] + rest, true, true, arg + Backslashes(n))
  {
    ScanRun(2 * n, [Quote] + rest, true, true, arg);
    assert 2 * n / 2 == n && 2 * n % 2 == 0;
  }

  lemma ScanEnd(rest: Text, arg: Text)
    requires Ends(rest)
    ensures Scan([Quote] + rest, true, true, arg) == Scan(rest, false, true, arg)
  {
    RunWhole([Quote] + rest, 0);
    assert ([Quote] + rest)[1..] == rest;
  }

  lemma ScanClose(n: nat, rest: Text, arg: Text)
    requires Ends(rest)
    ensures Scan(Backslashes(2 * n) + [Quote] + rest, true, true, arg) == Scan(rest, false, true, arg + Backslashes(n))
  {
    Assoc(Backslashes(2 * n), [Quote], rest);
    ScanEvenRun(n, rest, arg);
    ScanEnd(rest, arg + Backslashes(n));
  }

  lemma {:induction false} ScanBody(t: Text, rest: Text, arg: Text)
    requires Ends(rest)
    ensures Scan(Body(t) + [Quote] + rest, true, true, arg) == Scan(rest, false, true, arg + t)
    decreases |t|
  {
    var n := Run(t);
    if n == |t| {
      ScanClose(n, rest, arg);
      assert t == Backslashes(n);
    } else {
      var later := t[n + 1..];
      var after := Body(later) + [Quote] + rest;
      var read := arg + Backslashes(n) + [t[n]];
      assert Scan(Body(t) + [Quote] + rest, true, true, arg) == Scan(after, true, true, read) by {
        if t[n] == Quote {
          BodyAfter(t, Backslashes(2 * n) + [Backslash, Quote], rest);
          ScanEscapedQuote(n, after, arg);
        } else {
          BodyAfter(t, Backslashes(n) + [t[n]], rest);
          ScanOrdinary(n, t[n], after, true, true, arg);
        }
      }
      ScanBody(later, rest, read);
      ReadOn(t, arg);
    }
  }

  lemma BodyAfter(t: Text, head: Text, rest: Text)
    requires Run(t) < |t| && Body(t) == head + Body(t[Run(t) + 1..])
    ensures Body(t) + [Quote] + rest == head + (Body(t[Run(t) + 1..]) + [Quote] + rest)
  {
    var later := Body(t[Run(t) + 1..]);
    Assoc(head, later, [Quote]);
    Assoc(head, later + [Quote], rest);
  }

  lemma Middle(t: Text, n: nat)
    requires n < |t|
    ensures (t[..n] + [t[n]]) + t[n + 1..] == t
  {
  }

  lemma ReadOn(t: Text, arg: Text)
    requires Run(t) < |t|
    ensures var n := Run(t); (arg + Backslashes(n) + [t[n]]) + t[n + 1..] == arg + t
  {
    var n := Run(t);
    var a, b, c := Backslashes(n), [t[n]], t[n + 1..];
    Assoc(arg, a, b);
    Assoc(arg, a + b, c);
    assert a == t[..n];
    Middle(t, n);
  }

  lemma {:induction false} ScanPlain(t: Text, rest: Text, begun: bool, arg: Text)
    requires Ends(rest) && Plain(t) && (begun || t != [])
    ensures Scan(t + rest, false, begun, arg) == Scan(rest, false, true, arg + t)
    decreases |t|
  {
    var n := Run(t);
    if t == [] {
      assert t + rest == rest && arg + t == arg;
    } else if n == |t| {
      ScanOnlyRun(n, rest, begun, arg);
      assert t == Backslashes(n);
    } else {
      var later := t[n + 1..];
      var read := arg + Backslashes(n) + [t[n]];
      assert Scan(t + rest, false, begun, arg) == Scan(later + rest, false, true, read) by {
        assert t + rest == Backslashes(n) + [t[n]] + (later + rest);
        ScanOrdinary(n, t[n], later + rest, false, begun, arg);
      }
      ScanPlain(later, rest, true, read);
      ReadOn(t, arg);
    }
  }

  lemma ScanOnlyRun(n: nat, rest: Text, begun: bool, arg: Text)
    requires n > 0 && Ends(rest)
    ensures Scan(Backslashes(n) + rest, false, begun, arg) == Scan(rest, false, true, arg + Backslashes(n))
  {
    RunWhole(Backslashes(n) + rest, n);
    assert (Backslashes(n) + rest)[n..] == rest;
  }

  lemma ScanOpen(after: Text)
    ensures Scan([Quote] + after, false, false, []) == Scan(after, true, true, [])
  {
  }

  // An argument is read back as it was, whatever it holds, unless it is empty: then nothing is read.
  lemma ScanQuoted(t: Text, rest: Text)
    requires Ends(rest)
    ensures Scan(Quoted(t) + rest, false, false, [])
          == if t == [] then Scan(rest, false, false, []) else Scan(rest, false, true, t)
  {
    assert [] + t == t;
    if !Plain(t) {
      QuotedBody(t, rest);
      ScanOpen(Body(t) + [Quote] + rest);
      ScanBody(t, rest, []);
    } else if t == [] {
      assert Quoted(t) + rest == rest;
    } else {
      ScanPlain(t, rest, false, []);
    }
  }

  lemma QuotedBody(t: Text, rest: Text)
    requires !Plain(t)
    ensures Quoted(t) + rest == [Quote] + (Body(t) + [Quote] + rest)
  {
    assert Quoted(t) == [Quote] + Body(t) + [Quote] by { TwoPasses(t); }
    Assoc([Quote], Body(t), [Quote]);
    Assoc([Quote], Body(t) + [Quote], rest);
  }

  function NonEmpty(args: seq<Text>): seq<Text> {
    if args == [] then [] else (if args[0] == [] then [] else [args[0]]) + NonEmpty(args[1..])
  }

  lemma SplitSpace(rest: Text)
    ensures Split([Space] + rest) == Split(rest)
    ensures forall arg :: Scan([Space] + rest, false, true, arg) == [arg] + Split(rest)
  {
  }

  // By the rules for arguments, a command line reads back as exactly its non-empty arguments.
  lemma {:induction false} SplitJoined(args: seq<Text>)
    ensures Split(Joined(args)) == NonEmpty(args)
  {
    if |args| == 1 {
      ScanQuoted(args[0], []);
      assert Quoted(args[0]) + [] == Quoted(args[0]);
      assert NonEmpty(args[1..]) == [];
    } else if |args| > 1 {
      var rest := [Space] + Joined(args[1..]);
      assert Joined(args) == Quoted(args[0]) + rest;
      ScanQuoted(args[0], rest);
      SplitSpace(Joined(args[1..]));
      SplitJoined(args[1..]);
    }
  }

  lemma {:induction false} AllNonEmpty(args: seq<Text>)
    ensures |NonEmpty(args)| <= |args|
    ensures NonEmpty(args) == args <==> forall i :: 0 <= i < |args| ==> args[i] != []
  {
    if args != [] {
      AllNonEmpty(args[1..]);
      if args[0] != [] {
        assert args == [args[0]] + args[1..];
        assert forall i :: 0 < i < |args| ==> args[i] == args[1..][i - 1];
        assert forall i :: 0 <= i < |args| - 1 ==> args[1..][i] == args[i + 1];
        assert NonEmpty(args)[1..] == NonEmpty(args[1..]);
      }
    }
  }

  // Reading a command line back by the rules for arguments returns them all if and only if none is empty.
  lemma ArgumentsRoundTrip(args: seq<Text>)
    ensures Split(Joined(args)) == args <==> forall i :: 0 <= i < |args| ==> args[i] != []
  {
    SplitJoined(args);
    AllNonEmpty(args);
  }

  /* The program's name */

  lemma {:induction false} ProgramHasNoQuote(t: Text, quoted: bool)
    ensures Quote !in Program(t, quoted).0
  {
    if t != [] {
      if t[0] == Quote { ProgramHasNoQuote(t[1..], !quoted); } else { ProgramHasNoQuote(t[1..], quoted); }
    }
  }

  lemma {:induction false} ProgramText(t: Text, rest: Text, quoted: bool)
    requires Quote !in t && (quoted || forall i :: 0 <= i < |t| ==> !Separates(t[i]))
    ensures
      var (name, after) := Program(rest, quoted);
      Program(t + rest, quoted) == (t + name, after)
  {
    var (name, after) := Program(rest, quoted);
    if t == [] {
      assert t + rest == rest && t + name == name;
    } else {
      ProgramText(t[1..], rest, quoted);
      assert (t + rest)[1..] == t[1..] + rest;
      assert [t[0]] + (t[1..] + name) == t + name;
    }
  }

  lemma {:induction false} BodyWithoutQuote(t: Text)
    requires Quote !in t
    ensures Body(t) == DoubleTrailing(t) && Quote !in Body(t)
    decreases |t|
  {
    var n := Run(t);
    if n == |t| {
      TrailingWhole(t, n);
      assert t + Backslashes(n) == Backslashes(2 * n);
    } else {
      var head, tail := Backslashes(n) + [t[n]], t[n + 1..];
      assert Quote !in head;
      BodyWithoutQuote(tail);
      assert t == head + tail by { Middle(t, n); assert t[..n] == Backslashes(n); }
      DoubleTrailingAfter(head, tail);
      assert Body(t) == head + Body(tail);
    }
  }

  lemma ProgramClose(rest: Text)
    requires Ends(rest)
    ensures Program(rest, false) == ([], rest) && Program([Quote] + rest, true) == ([], rest)
  {
  }

  lemma ProgramOpen(body: Text, rest: Text)
    requires Ends(rest) && Quote !in body
    ensures Program([Quote] + (body + [Quote] + rest), false) == (body, rest)
  {
    var after := [Quote] + rest;
    assert body + [Quote] + rest == body + after;
    assert ([Quote] + (body + after))[1..] == body + after;
    ProgramText(body, after, true);
    ProgramClose(rest);
    assert body + [] == body;
  }

  // A name without quotes comes back with the backslashes at its end doubled if it was quoted.
  lemma ProgramQuoted(t: Text, rest: Text)
    requires Ends(rest) && Quote !in t
    ensures Program(Quoted(t) + rest, false) == (if Plain(t) then t else DoubleTrailing(t), rest)
  {
    if Plain(t) {
      ProgramText(t, rest, false);
      ProgramClose(rest);
      assert t + [] == t;
    } else {
      QuotedBody(t, rest);
      BodyWithoutQuote(t);
      ProgramOpen(Body(t), rest);
    }
  }

  lemma CommandLineParts(executable: Text, args: seq<Text>) returns (rest: Text)
    ensures Ends(rest) && CommandLine(executable, args) == Quoted(executable) + rest
    ensures Split(rest) == Split(Joined(args))
  {
    assert ([executable] + args)[1..] == args;
    if args == [] {
      rest := [];
      assert Quoted(executable) + [] == Quoted(executable);
    } else {
      rest := [Space] + Joined(args);
      SplitSpace(Joined(args));
      Assoc(Quoted(executable), [Space], Joined(args));
    }
  }

  // With the program's name read by its own rule, exactly these lists come back: no empty argument after the
  // name, and a name without quotes that does not both hold white space and end in a backslash.
  lemma CommandRoundTrip(executable: Text, args: seq<Text>)
    ensures SplitCommand(CommandLine(executable, args)) == [executable] + args <==>
      && Quote !in executable
      && (Plain(executable) || executable[|executable| - 1] != Backslash)
      && forall i :: 0 <= i < |args| ==> args[i] != []
  {
    var rest := CommandLineParts(executable, args);
    var line := CommandLine(executable, args);
    var (name, after) := Program(line, false);
    HeadAndTail(name, Split(after), executable, args);
    if Quote in executable {
      ProgramHasNoQuote(line, false);
    } else {
      ProgramQuoted(executable, rest);
      ArgumentsRoundTrip(args);
    }
  }

  lemma HeadAndTail(a: Text, s: seq<Text>, b: Text, t: seq<Text>)
    ensures [a] + s == [b] + t <==> a == b && s == t
  {
    assert ([a] + s)[0] == a && ([a] + s)[1..] == s;
    assert ([b] + t)[0] == b && ([b] + t)[1..] == t;
  }
}
