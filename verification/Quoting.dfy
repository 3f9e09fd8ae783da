/** Quoting arguments for a Windows command line, and the rules by which the Microsoft C runtime takes the
    line apart again. Characters are UTF-16 code units. */
module Quoting {
  newtype unit = x: int | 0 <= x < 0x1_0000

  type Text = seq<unit>

  const Quote: unit := 34
  const Backslash: unit := 92
  const Space: unit := 32
  const Tab: unit := 9
  const Nul: unit := 0

  /** The length of the run of backslashes a text begins with. */
  function Run(s: Text): (n: nat)
    ensures n <= |s| && s[..n] == Slashes(n) && (n < |s| ==> s[n] != Backslash)
  {
    if s == [] || s[0] != Backslash then 0 else
    assert s == [s[0]] + s[1..];
    assert forall n: nat :: n <= |s| - 1 ==> s[..n + 1] == [s[0]] + s[1..][..n];
    Run(s[1..]) + 1
  }

  function Slashes(n: nat): (s: Text)
    ensures |s| == n && forall i :: 0 <= i < n ==> s[i] == Backslash
  {
    if n == 0 then [] else [Backslash] + Slashes(n - 1)
  }

  // ---- the printer -----------------------------------------------------------------------------

  /** Each quote, with the backslashes right before it: twice the backslashes, and the quote escaped. */
  function EscapeQuotes(s: Text): Text
    decreases |s|
  {
    var n := Run(s);
    var rest := s[n..];
    if rest == [] then s
    else if rest[0] == Quote then Slashes(n) + Slashes(n) + [Backslash, Quote] + EscapeQuotes(rest[1..])
    else Slashes(n) + [rest[0]] + EscapeQuotes(rest[1..])
  }

  function TrailingRun(s: Text): (n: nat)
    ensures n <= |s| && s[|s| - n..] == Slashes(n) && (n < |s| ==> s[|s| - n - 1] != Backslash)
  {
    if s == [] || s[|s| - 1] != Backslash then 0 else
    var m := TrailingRun(s[..|s| - 1]);
    assert s[|s| - (m + 1)..] == s[..|s| - 1][|s| - 1 - m..] + [Backslash];
    m + 1
  }

  lemma {:induction false} SlashesAppend(m: nat, n: nat)
    ensures Slashes(m) + Slashes(n) == Slashes(m + n)
  {
  }

  /** The backslashes a text ends in, twice. */
  function DoubleTrailing(s: Text): Text {
    s + Slashes(TrailingRun(s))
  }

  function QuoteArgument(value: Text): Text {
    [Quote] + DoubleTrailing(EscapeQuotes(value)) + [Quote]
  }

  function JoinWithSpaces(parts: seq<Text>): Text {
    if parts == [] then [] else if |parts| == 1 then parts[0] else parts[0] + [Space] + JoinWithSpaces(parts[1..])
  }

  function Quoted(args: seq<Text>): seq<Text> {
    if args == [] then [] else [QuoteArgument(args[0])] + Quoted(args[1..])
  }

  function CommandLine(application: Text, args: seq<Text>): Text {
    JoinWithSpaces([QuoteArgument(application)] + Quoted(args))
  }

  // ---- the Microsoft C runtime -----------------------------------------------------------------

  predicate Blank(c: unit) { c == Space || c == Tab }

  function SkipBlanks(s: Text): (r: Text)
    ensures |r| <= |s| && (r != [] ==> !Blank(r[0]))
  {
    if s != [] && Blank(s[0]) then SkipBlanks(s[1..]) else s
  }

  /** One argument, and what follows it. Backslashes are literal unless a quote follows: then half of them
      are, and an odd one makes the quote literal. Two quotes inside a quoted part are one literal quote. */
  function ParseArgument(s: Text, quoted: bool): (r: (Text, Text))
    ensures |r.1| <= |s|
    ensures !quoted && s != [] && !Blank(s[0]) ==> |r.1| < |s|
    decreases |s|
  {
    var n := Run(s);
    var rest := s[n..];
    if rest == [] then (Slashes(n), [])
    else if rest[0] == Quote then
      if n % 2 == 1 then Prepend(Slashes(n / 2) + [Quote], ParseArgument(rest[1..], quoted))
      else if quoted && |rest| > 1 && rest[1] == Quote then
        Prepend(Slashes(n / 2) + [Quote], ParseArgument(rest[2..], quoted))
      else Prepend(Slashes(n / 2), ParseArgument(rest[1..], !quoted))
    else if !quoted && Blank(rest[0]) then (Slashes(n), rest)
    else Prepend(Slashes(n) + [rest[0]], ParseArgument(rest[1..], quoted))
  }

  function Prepend(s: Text, r: (Text, Text)): (Text, Text) {
    (s + r.0, r.1)
  }

  function ParseArguments(s: Text): seq<Text>
    decreases |s|
  {
    var t := SkipBlanks(s);
    if t == [] then [] else
    var (argument, rest) := ParseArgument(t, false);
    [argument] + ParseArguments(rest)
  }

  /** What follows the program name, in which quotes only switch whether a blank ends it. */
  function AfterProgram(s: Text, quoted: bool): Text
    decreases |s|
  {
    if s == [] then []
    else if s[0] == Quote then AfterProgram(s[1..], !quoted)
    else if !quoted && Blank(s[0]) then s
    else AfterProgram(s[1..], quoted)
  }

  /** What a program sees of the line: it ends at the first NUL. */
  function Visible(s: Text): Text {
    if s == [] || s[0] == Nul then [] else [s[0]] + Visible(s[1..])
  }

  function ProgramArguments(line: Text): seq<Text> {
    ParseArguments(AfterProgram(Visible(line), false))
  }

  // ---- round trip ------------------------------------------------------------------------------

  function Body(value: Text): Text {
    DoubleTrailing(EscapeQuotes(value))
  }

  lemma {:induction false} TrailingOfSlashes(n: nat)
    ensures TrailingRun(Slashes(n)) == n
  {
    if n > 0 {
      TrailingOfSlashes(n - 1);
      OneFewer(n);
    }
  }

  lemma OneFewer(n: nat)
    requires n > 0
    ensures Slashes(n)[..n - 1] == Slashes(n - 1)
  {
    hide Slashes;
  }

  lemma {:induction false} TrailingOfAppend(s: Text, c: unit, t: Text)
    requires c != Backslash
    ensures TrailingRun(s + [c] + t) == TrailingRun(t)
    decreases |t|
  {
    hide Slashes, TrailingRun;
    TrailingUnfolds(t);
    if t == [] {
      TrailingStops(s, c);
      assert s + [c] + t == s + [c];
    } else {
      TrailingUnfolds(s + [c] + t);
      LastAndRest(s + [c], t);
      TrailingOfAppend(s, c, t[..|t| - 1]);
    }
  }

  lemma TrailingStops(s: Text, c: unit)
    requires c != Backslash
    ensures TrailingRun(s + [c]) == 0
  {
    hide Slashes;
  }

  lemma LastAndRest(s: Text, t: Text)
    requires t != []
    ensures var whole := s + t;
      whole[|whole| - 1] == t[|t| - 1] && whole[..|whole| - 1] == s + t[..|t| - 1]
  {
  }

  lemma TrailingUnfolds(s: Text)
    ensures TrailingRun(s) == if s == [] || s[|s| - 1] != Backslash then 0 else TrailingRun(s[..|s| - 1]) + 1
  {
    hide Slashes;
  }

  lemma EscapeUnfolds(value: Text)
    ensures var n := Run(value); var rest := value[n..];
      EscapeQuotes(value) ==
        if rest == [] then Slashes(n)
        else if rest[0] == Quote then Slashes(2 * n + 1) + [Quote] + EscapeQuotes(rest[1..])
        else Slashes(n) + [rest[0]] + EscapeQuotes(rest[1..])
  {
    hide Run, Slashes;
    var n := Run(value);
    var rest := value[n..];
    if rest == [] {
      assert value == Slashes(n);
    } else if rest[0] == Quote {
      DoubleAndOne(n);
      assert Slashes(n) + Slashes(n) + [Backslash, Quote] == Slashes(2 * n + 1) + [Quote];
    }
  }

  lemma DoubleAndOne(n: nat)
    ensures Slashes(n) + Slashes(n) + [Backslash] == Slashes(2 * n + 1)
  {
    SlashesAppend(n, n);
    SlashesAppend(2 * n, 1);
    assert Slashes(1) == [Backslash];
  }

  lemma DoubleAfter(s: Text, c: unit, t: Text)
    requires c != Backslash
    ensures DoubleTrailing(s + [c] + t) == s + [c] + DoubleTrailing(t)
  {
    hide TrailingRun, Slashes;
    TrailingOfAppend(s, c, t);
    Regroup(s + [c], t, Slashes(TrailingRun(t)));
  }

  /** The two passes together, from left to right. */
  lemma BodyUnfolds(value: Text)
    ensures var n := Run(value); var rest := value[n..];
      Body(value) ==
        if rest == [] then Slashes(2 * n)
        else if rest[0] == Quote then Slashes(2 * n + 1) + [Quote] + Body(rest[1..])
        else Slashes(n) + [rest[0]] + Body(rest[1..])
  {
    hide EscapeQuotes, Run, Slashes, DoubleTrailing;
    var n := Run(value);
    var rest := value[n..];
    EscapeUnfolds(value);
    if rest == [] {
      SlashesDouble(n);
    } else if rest[0] == Quote {
      DoubleAfter(Slashes(2 * n + 1), Quote, EscapeQuotes(rest[1..]));
    } else {
      DoubleAfter(Slashes(n), rest[0], EscapeQuotes(rest[1..]));
    }
  }

  lemma SlashesDouble(n: nat)
    ensures DoubleTrailing(Slashes(n)) == Slashes(2 * n)
  {
    TrailingOfSlashes(n);
    SlashesAppend(n, n);
  }

  lemma Regroup(a: Text, b: Text, c: Text)
    ensures a + b + c == a + (b + c)
  {
  }

  lemma {:induction false} RunOfSlashes(n: nat, c: unit, t: Text)
    requires c != Backslash
    ensures Run(Slashes(n) + [c] + t) == n && (Slashes(n) + [c] + t)[n..] == [c] + t
  {
    if n > 0 {
      assert (Slashes(n) + [c] + t)[1..] == Slashes(n - 1) + [c] + t;
      RunOfSlashes(n - 1, c, t);
    }
  }

  predicate EndsArgument(tail: Text) { tail == [] || Blank(tail[0]) }

  /** A run of backslashes before a quote or another character. */
  lemma ParseRun(n: nat, c: unit, t: Text, quoted: bool)
    requires c != Backslash
    ensures c == Quote && n % 2 == 1 ==>
      ParseArgument(Slashes(n) + [c] + t, quoted) == Prepend(Slashes(n / 2) + [Quote], ParseArgument(t, quoted))
    ensures c == Quote && n % 2 == 0 && (!quoted || t == [] || t[0] != Quote) ==>
      ParseArgument(Slashes(n) + [c] + t, quoted) == Prepend(Slashes(n / 2), ParseArgument(t, !quoted))
    ensures c != Quote && quoted ==>
      ParseArgument(Slashes(n) + [c] + t, quoted) == Prepend(Slashes(n) + [c], ParseArgument(t, quoted))
  {
    hide Run, Slashes, Prepend;
    RunOfSlashes(n, c, t);
    assert ([c] + t)[1..] == t;
  }

  /** Inside the quotes, the body gives the value back and the closing quote ends the argument. */
  lemma {:induction false} BodyParses(value: Text, tail: Text)
    requires EndsArgument(tail)
    ensures ParseArgument(Body(value) + [Quote] + tail, true) == (value, tail)
    decreases |value|
  {
    hide Body, Run, Slashes, ParseArgument;
    var n := Run(value);
    var rest := value[n..];
    BodyUnfolds(value);
    assert value == Slashes(n) + rest;
    if rest == [] {
      ParseRun(2 * n, Quote, tail, true);
      TailParses(tail);
    } else {
      var inner := Body(rest[1..]) + [Quote] + tail;
      assert rest == [rest[0]] + rest[1..];
      BodyParses(rest[1..], tail);
      if rest[0] == Quote {
        assert Body(value) + [Quote] + tail == Slashes(2 * n + 1) + [Quote] + inner;
        ParseRun(2 * n + 1, Quote, inner, true);
        assert (2 * n + 1) / 2 == n;
      } else {
        assert Body(value) + [Quote] + tail == Slashes(n) + [rest[0]] + inner;
        ParseRun(n, rest[0], inner, true);
        assert value == Slashes(n) + [rest[0]] + rest[1..];
      }
    }
  }

  lemma TailParses(tail: Text)
    requires EndsArgument(tail)
    ensures ParseArgument(tail, false) == ([], tail)
  {
    assert tail[0..] == tail;
  }

  lemma ArgumentRoundTrip(value: Text, tail: Text)
    requires EndsArgument(tail)
    ensures ParseArgument(QuoteArgument(value) + tail, false) == (value, tail)
  {
    hide Body, ParseArgument, DoubleTrailing, EscapeQuotes;
    var inner := Body(value) + [Quote] + tail;
    assert QuoteArgument(value) + tail == Slashes(0) + [Quote] + inner by {
      BodyIs(value);
    }
    ParseOpening(inner);
    BodyParses(value, tail);
  }

  lemma BodyIs(value: Text)
    ensures QuoteArgument(value) == [Quote] + Body(value) + [Quote]
  {
  }

  lemma ParseOpening(inner: Text)
    ensures ParseArgument(Slashes(0) + [Quote] + inner, false) == ParseArgument(inner, true)
  {
    hide ParseArgument;
    ParseRun(0, Quote, inner, false);
    var r := ParseArgument(inner, true);
    assert Slashes(0) + r.0 == r.0;
  }

  /** The line after the program name: a space and a quoted argument, for each argument. */
  function Rest(args: seq<Text>): Text {
    if args == [] then [] else [Space] + QuoteArgument(args[0]) + Rest(args[1..])
  }

  lemma {:induction false} CommandLineIs(application: Text, args: seq<Text>)
    ensures CommandLine(application, args) == QuoteArgument(application) + Rest(args)
    decreases |args|
  {
    hide QuoteArgument;
    var parts := [QuoteArgument(application)] + Quoted(args);
    if args != [] {
      assert parts[1..] == Quoted(args) == [QuoteArgument(args[0])] + Quoted(args[1..]);
      CommandLineIs(args[0], args[1..]);
    }
  }

  lemma {:induction false} RestParses(args: seq<Text>)
    ensures ParseArguments(Rest(args)) == args
    decreases |args|
  {
    hide QuoteArgument, ParseArgument, ParseArguments, Body;
    if args == [] {
      ParseNothing();
    } else {
      var tail := Rest(args[1..]);
      BodyIs(args[0]);
      Regroup([Space], QuoteArgument(args[0]), tail);
      RestEnds(args[1..]);
      ArgumentRoundTrip(args[0], tail);
      RestParses(args[1..]);
      ParseFirst(QuoteArgument(args[0]) + tail, args[0], tail);
      assert [args[0]] + args[1..] == args;
    }
  }

  lemma ParseNothing()
    ensures ParseArguments([]) == []
  {
  }

  lemma ParseFirst(s: Text, argument: Text, rest: Text)
    requires s != [] && !Blank(s[0]) && ParseArgument(s, false) == (argument, rest)
    ensures ParseArguments([Space] + s) == [argument] + ParseArguments(rest)
  {
    hide ParseArgument;
    assert ([Space] + s)[1..] == s;
    assert SkipBlanks([Space] + s) == SkipBlanks(s) == s;
  }

  lemma {:induction false} ProgramIsSkipped(s: Text, tail: Text, quoted: bool)
    requires Quote !in s && EndsArgument(tail)
    ensures AfterProgram(s + [Quote] + tail, true) == tail
    decreases |s|
  {
    if s == [] {
      assert (s + [Quote] + tail)[1..] == tail;
    } else {
      assert (s + [Quote] + tail)[1..] == s[1..] + [Quote] + tail;
      ProgramIsSkipped(s[1..], tail, quoted);
    }
  }

  lemma {:induction false} BodyWithoutQuotes(value: Text)
    requires Quote !in value
    ensures Quote !in Body(value)
    decreases |value|
  {
    hide Body, Run, Slashes;
    BodyUnfolds(value);
    var rest := value[Run(value)..];
    if rest != [] { BodyWithoutQuotes(rest[1..]); }
  }

  lemma {:induction false} BodyWithoutNul(value: Text)
    ensures Nul in Body(value) <==> Nul in value
    decreases |value|
  {
    hide Body, Run, Slashes;
    BodyUnfolds(value);
    var n := Run(value);
    var rest := value[n..];
    assert value == Slashes(n) + rest;
    if rest != [] {
      BodyWithoutNul(rest[1..]);
      assert rest == [rest[0]] + rest[1..];
    }
  }

  lemma {:induction false} VisibleAll(s: Text)
    ensures Nul !in s ==> Visible(s) == s
    ensures Nul !in Visible(s)
  {
    if s != [] {
      assert s == [s[0]] + s[1..];
      VisibleAll(s[1..]);
    }
  }

  lemma {:induction false} RestWithoutNul(args: seq<Text>)
    requires forall a :: a in args ==> Nul !in a
    ensures Nul !in Rest(args)
  {
    hide QuoteArgument, Body;
    if args != [] {
      BodyIs(args[0]);
      BodyWithoutNul(args[0]);
      RestWithoutNul(args[1..]);
    }
  }

  lemma {:induction false} ParsedHasNoNul(s: Text, quoted: bool)
    requires Nul !in s
    ensures Nul !in ParseArgument(s, quoted).0 && Nul !in ParseArgument(s, quoted).1
    decreases |s|
  {
    hide Run, Slashes;
    var n := Run(s);
    var rest := s[n..];
    assert Nul !in Slashes(n) && Nul !in Slashes(n / 2) && Nul !in rest;
    if rest != [] {
      assert Nul !in rest[1..];
      ParsedHasNoNul(rest[1..], quoted);
      ParsedHasNoNul(rest[1..], !quoted);
      if |rest| > 1 {
        assert Nul !in rest[2..];
        ParsedHasNoNul(rest[2..], quoted);
      }
    }
  }

  lemma {:induction false} ArgumentsHaveNoNul(s: Text)
    requires Nul !in s
    ensures forall a :: a in ParseArguments(s) ==> Nul !in a
    decreases |s|
  {
    SkipKeeps(s);
    var t := SkipBlanks(s);
    if t != [] {
      ParsedHasNoNul(t, false);
      ArgumentsHaveNoNul(ParseArgument(t, false).1);
    }
  }

  lemma {:induction false} SkipKeeps(s: Text)
    ensures forall c :: c in SkipBlanks(s) ==> c in s
  {
    if s != [] && Blank(s[0]) { SkipKeeps(s[1..]); }
  }

  lemma {:induction false} AfterProgramKeeps(s: Text, quoted: bool)
    ensures forall c :: c in AfterProgram(s, quoted) ==> c in s
    decreases |s|
  {
    if s != [] {
      AfterProgramKeeps(s[1..], quoted);
      AfterProgramKeeps(s[1..], !quoted);
    }
  }

  /** A program gets back exactly the arguments it was given, whatever quotes, backslashes and blanks they
      hold, if and only if none of them holds a NUL, which would cut the line short. */
  lemma ArgumentsRoundTrip(application: Text, args: seq<Text>)
    requires Quote !in application && Nul !in application
    ensures ProgramArguments(CommandLine(application, args)) == args <==> forall a :: a in args ==> Nul !in a
  {
    hide QuoteArgument, Body, ParseArguments, Visible, Rest, CommandLine;
    CommandLineIs(application, args);
    BodyIs(application);
    var line := CommandLine(application, args);
    VisibleAll(line);
    if forall a :: a in args ==> Nul !in a {
      BodyWithoutNul(application);
      RestWithoutNul(args);
      var inner := Body(application) + [Quote] + Rest(args);
      assert line == [Quote] + inner && line[1..] == inner;
      BodyWithoutQuotes(application);
      RestEnds(args);
      ProgramIsSkipped(Body(application), Rest(args), true);
      RestParses(args);
    } else {
      AfterProgramKeeps(Visible(line), false);
      ArgumentsHaveNoNul(AfterProgram(Visible(line), false));
    }
  }

  lemma RestEnds(args: seq<Text>)
    ensures EndsArgument(Rest(args))
  {
  }
}
