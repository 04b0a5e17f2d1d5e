/** The outbound command line of `run_command`: `{ "command": ["cmd", "arg", ...] }`
    and a newline. Arguments are written between quotes exactly as given: nothing is
    escaped. */
module CommandLine {

  datatype Option<T> = None | Some(value: T)

  const Prefix: string := "{ \"command\": [\""
  const Quote: string := "\""
  const ArgOpen: string := ", \""
  const Suffix: string := "] }\n"

  /** One argument as appended to the line: `, "arg"`. */
  function ArgText(arg: string): string
  {
    ArgOpen + arg + Quote
  }

  /** The arguments in order, each as `, "arg"`. */
  function ArgsText(args: seq<string>): string
  {
    if args == [] then "" else ArgText(args[0]) + ArgsText(args[1..])
  }

  /** The complete line sent for `command` with `args`. */
  function Line(command: string, args: seq<string>): string
  {
    Prefix + command + Quote + ArgsText(args) + Suffix
  }

  /** Sum of the lengths of the arguments. */
  function TotalLength(args: seq<string>): nat
  {
    if args == [] then 0 else |args[0]| + TotalLength(args[1..])
  }

  lemma {:induction false} ArgsTextAppend(xs: seq<string>, ys: seq<string>)
    ensures ArgsText(xs + ys) == ArgsText(xs) + ArgsText(ys)
  {
    if xs == [] {
      assert xs + ys == ys;
    } else {
      assert (xs + ys)[1..] == xs[1..] + ys;
      ArgsTextAppend(xs[1..], ys);
    }
  }

  /** Building the line the way `run_command` does: start with the command, push
      one `, "arg"` per argument, then close the array and the object. */
  method Encode(command: string, args: seq<string>) returns (line: string)
    ensures line == Line(command, args)
    ensures args == [] ==> line == "{ \"command\": [\"" + command + "\"] }\n"
  {
    line := Prefix + command + Quote;
    if |args| > 0 {
      for i := 0 to |args|
        invariant line == Prefix + command + Quote + ArgsText(args[..i])
      {
        ArgsTextAppend(args[..i], [args[i]]);
        assert args[..i + 1] == args[..i] + [args[i]];
        line := line + ArgText(args[i]);
      }
      assert args[..|args|] == args;
    }
    line := line + Suffix;
  }

  /** The argument text grows by the length of each argument plus four characters. */
  lemma {:induction false} ArgsTextLength(args: seq<string>)
    ensures |ArgsText(args)| == TotalLength(args) + 4 * |args|
  {
    if args != [] {
      ArgsTextLength(args[1..]);
    }
  }

  /** The line is a fixed 20 characters, plus the command, plus each argument and 4. */
  lemma LineLength(command: string, args: seq<string>)
    ensures |Line(command, args)| == 20 + |command| + TotalLength(args) + 4 * |args|
  {
    ArgsTextLength(args);
  }

  /** Where argument `i` starts in the line. */
  function ArgOffset(command: string, args: seq<string>, i: nat): nat
    requires i <= |args|
  {
    |Prefix| + |command| + |Quote| + TotalLength(args[..i]) + 4 * i + |ArgOpen|
  }

  /** The command sits right after the opening text, verbatim. */
  lemma CommandVerbatim(command: string, args: seq<string>)
    ensures |Prefix| + |command| < |Line(command, args)|
    ensures Line(command, args)[..|Prefix|] == Prefix
    ensures Line(command, args)[|Prefix|..|Prefix| + |command|] == command
    ensures Line(command, args)[|Prefix| + |command|] == '"'
  {
    var line := Line(command, args);
    assert line == Prefix + command + (Quote + ArgsText(args) + Suffix);
  }

  /** Argument `i` appears in the line verbatim, after `, "` and before a quote. */
  lemma ArgumentVerbatim(command: string, args: seq<string>, i: nat)
    requires i < |args|
    ensures ArgOffset(command, args, i) + |args[i]| < |Line(command, args)|
    ensures Line(command, args)[ArgOffset(command, args, i) - 3..ArgOffset(command, args, i)] == ArgOpen
    ensures Line(command, args)[ArgOffset(command, args, i)..ArgOffset(command, args, i) + |args[i]|] == args[i]
    ensures Line(command, args)[ArgOffset(command, args, i) + |args[i]|] == '"'
  {
    var before, arg, after := args[..i], args[i], args[i + 1..];
    assert args == before + ([arg] + after);
    ArgsTextAppend(before, [arg] + after);
    ArgsTextAppend([arg], after);
    assert [arg][1..] == [];
    ArgsTextLength(before);
    var head := Prefix + command + Quote + ArgsText(before);
    assert |head| == |Prefix| + |command| + |Quote| + TotalLength(args[..i]) + 4 * i;
    var line := Line(command, args);
    assert line == head + ArgOpen + arg + (Quote + ArgsText(after) + Suffix);
  }

  // ---------------------------------------------------------------------------
  // Reading a line back. This decoder is the inverse of Line on arguments free of
  // quotes; it is a reference for what the line carries, not part of the client.

  /** Index of the first quote in `s`, if any. */
  function QuoteIndex(s: string): (r: Option<nat>)
    ensures r.Some? ==> r.value < |s| && s[r.value] == '"' && '"' !in s[..r.value]
    ensures r.None? ==> '"' !in s
  {
    if s == [] then None
    else if s[0] == '"' then Some(0)
    else match QuoteIndex(s[1..])
      case None => None
      case Some(k) =>
        assert s[..k + 1] == [s[0]] + s[1..][..k];
        Some(k + 1)
  }

  /** Reads the `, "arg"` items up to the closing `] }` and newline. */
  function ParseArgs(s: string): Option<seq<string>>
    decreases |s|
  {
    if s == Suffix then Some([])
    else if |s| >= |ArgOpen| && s[..|ArgOpen|] == ArgOpen then
      match QuoteIndex(s[|ArgOpen|..])
      case None => None
      case Some(k) =>
        match ParseArgs(s[|ArgOpen| + k + 1..])
        case None => None
        case Some(rest) => Some([s[|ArgOpen|..|ArgOpen| + k]] + rest)
    else None
  }

  /** Reads a whole command line back into its command and arguments. */
  function ParseLine(line: string): Option<(string, seq<string>)>
  {
    if |line| >= |Prefix| && line[..|Prefix|] == Prefix then
      var body := line[|Prefix|..];
      match QuoteIndex(body)
      case None => None
      case Some(k) =>
        match ParseArgs(body[k + 1..])
        case None => None
        case Some(args) => Some((body[..k], args))
    else None
  }

  lemma {:induction false} QuoteIndexAfter(a: string, b: string)
    requires '"' !in a
    ensures QuoteIndex(a + Quote + b) == Some(|a|)
  {
    if a != [] {
      assert (a + Quote + b)[1..] == a[1..] + Quote + b;
      assert '"' !in a[1..] by {
        forall j | 0 <= j < |a[1..]| ensures a[1..][j] != '"' {
          assert a[1..][j] == a[j + 1];
        }
      }
      QuoteIndexAfter(a[1..], b);
    }
  }

  lemma {:induction false} ParseArgsText(args: seq<string>)
    requires forall i :: 0 <= i < |args| ==> '"' !in args[i]
    ensures ParseArgs(ArgsText(args) + Suffix) == Some(args)
  {
    if args == [] {
      assert ArgsText(args) + Suffix == Suffix;
    } else {
      var arg, rest := args[0], ArgsText(args[1..]) + Suffix;
      var s := ArgsText(args) + Suffix;
      assert s == ArgOpen + (arg + Quote + rest);
      assert s != Suffix by { assert s[0] == ',' && Suffix[0] == ']'; }
      assert s[..|ArgOpen|] == ArgOpen;
      assert s[|ArgOpen|..] == arg + Quote + rest;
      QuoteIndexAfter(arg, rest);
      assert s[|ArgOpen| + |arg| + 1..] == rest;
      assert s[|ArgOpen|..|ArgOpen| + |arg|] == arg;
      ParseArgsText(args[1..]);
      assert [arg] + args[1..] == args;
    }
  }

  /** With quote-free command and arguments, `ParseLine` reads the line back to exactly
      them: every argument survives, in order. A JSON reader would need more than the
      absence of quotes: a backslash or a control character in an argument also changes
      what it reads. */
  lemma ParseLineRoundTrip(command: string, args: seq<string>)
    requires '"' !in command
    requires forall i :: 0 <= i < |args| ==> '"' !in args[i]
    ensures ParseLine(Line(command, args)) == Some((command, args))
  {
    var line := Line(command, args);
    var tail := ArgsText(args) + Suffix;
    assert line == Prefix + (command + Quote + tail);
    assert line[..|Prefix|] == Prefix;
    var body := line[|Prefix|..];
    assert body == command + Quote + tail;
    QuoteIndexAfter(command, tail);
    assert body[|command| + 1..] == tail;
    assert body[..|command|] == command;
    ParseArgsText(args);
  }

  /** Since nothing is escaped, an argument holding `", "` cannot be told from two
      arguments: both invocations put the same line on the wire. */
  lemma UnescapedArgumentsCollide()
    ensures Line("loadfile", ["a\", \"b"]) == Line("loadfile", ["a", "b"])
  {
  }
}
