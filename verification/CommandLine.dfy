// Quoting of command-line arguments (quoteWindowsArgument and
// quoteCommandLineArgument share one algorithm) against the rule by which a
// Windows program splits its command line: "Parsing C command-line arguments"
// in the Microsoft C language reference.
module CommandLine {

  const VERTICAL_TAB: char := 11 as char

  predicate IsBlank(c: char) {
    c == ' ' || c == '\t'
  }

  // ------------------------------------------------------------ the splitting rule

  function Slashes(n: nat): (s: string)
    ensures |s| == n && forall i :: 0 <= i < n ==> s[i] == '\\'
  {
    if n == 0 then "" else "\\" + Slashes(n - 1)
  }

  datatype Piece = Piece(text: string, rest: string)
  {
    function After(prefix: string): Piece {
      Piece(prefix + text, rest)
    }
  }

  // Reads one argument up to an unquoted blank, slashes backslashes being
  // pending. A run of backslashes is literal unless a quotation mark follows;
  // then each pair stands for one, and an odd one makes the mark literal. Within
  // quotes a pair of marks stands for one.
  function ReadArgument(s: string, quoted: bool, slashes: nat): (p: Piece)
    ensures |p.rest| <= |s|
    ensures s != "" && !IsBlank(s[0]) ==> |p.rest| < |s|
    decreases |s|
  {
    if s == "" || (IsBlank(s[0]) && !quoted) then Piece(Slashes(slashes), s)
    else if s[0] == '\\' then ReadArgument(s[1..], quoted, slashes + 1)
    else if s[0] == '"' then
      if slashes % 2 == 1 then ReadArgument(s[1..], quoted, 0).After(Slashes(slashes / 2) + "\"")
      else if quoted && |s| > 1 && s[1] == '"' then
        ReadArgument(s[2..], quoted, 0).After(Slashes(slashes / 2) + "\"")
      else ReadArgument(s[1..], !quoted, 0).After(Slashes(slashes / 2))
    else ReadArgument(s[1..], quoted, 0).After(Slashes(slashes) + [s[0]])
  }

  function SplitArguments(s: string): seq<string>
    decreases |s|
  {
    if s == "" then []
    else if IsBlank(s[0]) then SplitArguments(s[1..])
    else
      var p := ReadArgument(s, false, 0);
      [p.text] + SplitArguments(p.rest)
  }

  // The program name follows a rule of its own, without escapes: up to the next
  // quotation mark if it starts with one, otherwise up to the next blank.
  function ReadProgram(s: string): Piece {
    if s != "" && s[0] == '"' then UpToQuote(s[1..]) else UpToBlank(s)
  }

  function UpToQuote(s: string): Piece {
    if s == "" then Piece("", "")
    else if s[0] == '"' then Piece("", s[1..])
    else UpToQuote(s[1..]).After([s[0]])
  }

  function UpToBlank(s: string): Piece {
    if s == "" || IsBlank(s[0]) then Piece("", s) else UpToBlank(s[1..]).After([s[0]])
  }

  // -------------------------------------------------------------------- quoting

  predicate IsSpecial(c: char) {
    c == ' ' || c == '\t' || c == '\n' || c == VERTICAL_TAB || c == '"'
  }

  predicate NeedsQuotes(argument: string) {
    exists i :: 0 <= i < |argument| && IsSpecial(argument[i])
  }

  // What the quoting loop still writes when it has argument left to read and a
  // run of slashes backslashes behind it.
  function Escaped(argument: string, slashes: nat): string {
    if argument == "" then Slashes(2 * slashes) + "\""
    else if argument[0] == '\\' then Escaped(argument[1..], slashes + 1)
    else if argument[0] == '"' then Slashes(2 * slashes + 1) + "\"" + Escaped(argument[1..], 0)
    else Slashes(slashes) + [argument[0]] + Escaped(argument[1..], 0)
  }

  function Quoted(argument: string): string {
    if argument == "" then "\"\""
    else if !NeedsQuotes(argument) then argument
    else "\"" + Escaped(argument, 0)
  }

  method QuoteArgument(argument: string) returns (quoted: string)
    ensures quoted == Quoted(argument)
  {
    if argument == "" {
      return "\"\"";
    }
    if !NeedsQuotes(argument) {
      return argument;
    }
    quoted := "\"";
    var slashes := 0;
    var i := 0;
    while i < |argument|
      invariant 0 <= i <= |argument|
      invariant quoted + Escaped(argument[i..], slashes) == "\"" + Escaped(argument, 0)
    {
      var value := argument[i];
      ghost var rest := argument[i..];
      assert rest[1..] == argument[i + 1..];
      if value == '\\' {
        slashes := slashes + 1;
      } else {
        if value == '"' {
          quoted := quoted + Slashes(slashes * 2 + 1) + "\"";
        } else {
          quoted := quoted + Slashes(slashes) + [value];
        }
        slashes := 0;
      }
      i := i + 1;
    }
    quoted := quoted + Slashes(slashes * 2) + "\"";
  }

  // ------------------------------------------------------------------ round trip

  // What may follow an argument on the command line.
  predicate Ends(tail: string) {
    tail == "" || tail[0] == ' '
  }

  lemma {:induction false} ReadSlashes(n: nat, s: string, quoted: bool, slashes: nat)
    ensures ReadArgument(Slashes(n) + s, quoted, slashes) == ReadArgument(s, quoted, slashes + n)
  {
    if n == 0 {
      assert Slashes(0) + s == s;
    } else {
      var t := Slashes(n) + s;
      assert t[0] == '\\' && t[1..] == Slashes(n - 1) + s;
      ReadSlashes(n - 1, s, quoted, slashes + 1);
    }
  }

  lemma SlashesAdd(m: nat, n: nat)
    ensures Slashes(m) + Slashes(n) == Slashes(m + n)
  {
  }

  // A run of backslashes followed by an ordinary character, by an escaped
  // quotation mark, and by the closing one.
  lemma ReadOrdinary(slashes: nat, c: char, more: string, quoted: bool)
    requires c != '"' && c != '\\' && (IsBlank(c) ==> quoted)
    ensures ReadArgument(Slashes(slashes) + ([c] + more), quoted, 0)
         == ReadArgument(more, quoted, 0).After(Slashes(slashes) + [c])
  {
    ReadSlashes(slashes, [c] + more, quoted, 0);
    assert ([c] + more)[1..] == more;
  }

  lemma ReadEscapedMark(slashes: nat, more: string)
    ensures ReadArgument(Slashes(2 * slashes + 1) + ("\"" + more), true, 0)
         == ReadArgument(more, true, 0).After(Slashes(slashes) + "\"")
  {
    ReadSlashes(2 * slashes + 1, "\"" + more, true, 0);
    assert ("\"" + more)[1..] == more;
  }

  lemma ReadClosingMark(slashes: nat, tail: string)
    requires Ends(tail)
    ensures ReadArgument(Slashes(2 * slashes) + ("\"" + tail), true, 0) == Piece(Slashes(slashes), tail)
  {
    ReadSlashes(2 * slashes, "\"" + tail, true, 0);
    assert ("\"" + tail)[1..] == tail;
    assert ReadArgument(tail, false, 0) == Piece("", tail);
    assert Slashes(slashes) + "" == Slashes(slashes);
  }

  lemma SlashFirst(slashes: nat, argument: string)
    requires argument != "" && argument[0] == '\\'
    ensures Slashes(slashes) + argument == Slashes(slashes + 1) + argument[1..]
  {
    SlashesAdd(slashes, 1);
    assert argument == "\\" + argument[1..] && Slashes(1) == "\\";
  }

  // A text that is read back as it stands, and what writing a run of backslashes
  // and one more character in front of it adds.
  ghost predicate ReadsAs(written: string, quoted: bool, text: string, tail: string) {
    ReadArgument(written + tail, quoted, 0) == Piece(text, tail)
  }

  lemma Reassociate(a: string, b: string, c: string, d: string)
    ensures a + b + c + d == a + (b + (c + d))
  {
  }

  lemma OrdinaryInFront(slashes: nat, c: char, written: string, quoted: bool, text: string, tail: string)
    requires c != '"' && c != '\\' && (IsBlank(c) ==> quoted)
    requires ReadsAs(written, quoted, text, tail)
    ensures ReadsAs(Slashes(slashes) + [c] + written, quoted, Slashes(slashes) + [c] + text, tail)
  {
    Reassociate(Slashes(slashes), [c], written, tail);
    ReadOrdinary(slashes, c, written + tail, quoted);
  }

  lemma MarkInFront(slashes: nat, written: string, text: string, tail: string)
    requires ReadsAs(written, true, text, tail)
    ensures ReadsAs(Slashes(2 * slashes + 1) + "\"" + written, true, Slashes(slashes) + "\"" + text, tail)
  {
    Reassociate(Slashes(2 * slashes + 1), "\"", written, tail);
    ReadEscapedMark(slashes, written + tail);
  }

  lemma ClosingMarkInFront(slashes: nat, tail: string)
    requires Ends(tail)
    ensures ReadsAs(Slashes(2 * slashes) + "\"", true, Slashes(slashes), tail)
  {
    assert Slashes(2 * slashes) + "\"" + tail == Slashes(2 * slashes) + ("\"" + tail);
    ReadClosingMark(slashes, tail);
  }

  lemma FirstInFront(slashes: nat, argument: string)
    requires argument != ""
    ensures Slashes(slashes) + [argument[0]] + argument[1..] == Slashes(slashes) + argument
    ensures Slashes(0) + argument[1..] == argument[1..]
  {
    assert argument == [argument[0]] + argument[1..];
  }

  lemma {:induction false} ReadEscaped(argument: string, slashes: nat, tail: string)
    requires Ends(tail)
    ensures ReadsAs(Escaped(argument, slashes), true, Slashes(slashes) + argument, tail)
    decreases |argument|
  {
    if argument == "" {
      ClosingMarkInFront(slashes, tail);
      assert Slashes(slashes) + argument == Slashes(slashes);
    } else if argument[0] == '\\' {
      ReadEscaped(argument[1..], slashes + 1, tail);
      SlashFirst(slashes, argument);
    } else {
      ReadEscaped(argument[1..], 0, tail);
      FirstInFront(slashes, argument);
      if argument[0] == '"' {
        MarkInFront(slashes, Escaped(argument[1..], 0), argument[1..], tail);
      } else {
        OrdinaryInFront(slashes, argument[0], Escaped(argument[1..], 0), true, argument[1..], tail);
      }
    }
  }

  // An argument that needs no quotes, behind a run of backslashes.
  lemma {:induction false} ReadPlain(argument: string, slashes: nat, tail: string)
    requires Ends(tail) && forall i :: 0 <= i < |argument| ==> !IsSpecial(argument[i])
    ensures ReadsAs(Slashes(slashes) + argument, false, Slashes(slashes) + argument, tail)
    decreases |argument|
  {
    if argument == "" {
      PlainEnds(slashes, argument, tail);
    } else if argument[0] == '\\' {
      ReadPlain(argument[1..], slashes + 1, tail);
      SlashFirst(slashes, argument);
    } else {
      ReadPlain(argument[1..], 0, tail);
      FirstInFront(slashes, argument);
      OrdinaryInFront(slashes, argument[0], argument[1..], false, argument[1..], tail);
    }
  }

  lemma PlainEnds(slashes: nat, argument: string, tail: string)
    requires Ends(tail) && argument == ""
    ensures ReadsAs(Slashes(slashes) + argument, false, Slashes(slashes) + argument, tail)
  {
    ReadSlashes(slashes, tail, false, 0);
    assert Slashes(slashes) + argument == Slashes(slashes);
  }

  lemma ReadQuoted(argument: string, tail: string)
    requires Ends(tail)
    ensures ReadsAs(Quoted(argument), false, argument, tail)
    ensures Quoted(argument) != "" && !IsBlank(Quoted(argument)[0])
  {
    assert Slashes(0) + argument == argument;
    if argument != "" && !NeedsQuotes(argument) {
      ReadPlain(argument, 0, tail);
    } else {
      ReadEscaped(argument, 0, tail);
      OpeningMarkInFront(Escaped(argument, 0), argument, tail);
      EmptyQuoted();
    }
  }

  lemma EmptyQuoted()
    ensures Quoted("") == "\"" + Escaped("", 0)
  {
    assert Escaped("", 0) == "\"";
  }

  lemma OpeningMarkInFront(written: string, text: string, tail: string)
    requires ReadsAs(written, true, text, tail)
    ensures ReadsAs("\"" + written, false, text, tail)
  {
    assert "\"" + written + tail == "\"" + (written + tail);
    ReadOpeningMark(written + tail);
  }

  lemma ReadOpeningMark(more: string)
    ensures ReadArgument("\"" + more, false, 0) == ReadArgument(more, true, 0)
  {
    assert ("\"" + more)[1..] == more;
  }

  lemma {:induction false} EscapedIsLonger(argument: string, slashes: nat)
    ensures |Escaped(argument, slashes)| > |argument| + slashes
    decreases |argument|
  {
    if argument != "" {
      EscapedIsLonger(argument[1..], if argument[0] == '\\' then slashes + 1 else 0);
    }
  }

  // Quotes are added only where they are needed: a word stays as it is exactly if
  // it is not empty and has no space, tab, line feed, vertical tab or quotation
  // mark in it.
  lemma PlainWordsStayUnquoted(argument: string)
    ensures Quoted(argument) == argument
            <==> argument != "" && ' ' !in argument && '\t' !in argument && '\n' !in argument
                 && (11 as char) !in argument && '"' !in argument
    ensures Quoted(argument) != argument ==>
              |Quoted(argument)| >= |argument| + 2 && Quoted(argument)[0] == '"'
              && Quoted(argument)[|Quoted(argument)| - 1] == '"'
  {
    if argument != "" && NeedsQuotes(argument) {
      EscapedIsLonger(argument, 0);
      EscapedCloses(argument, 0);
    }
  }

  lemma {:induction false} EscapedCloses(argument: string, slashes: nat)
    ensures var s := Escaped(argument, slashes); s != "" && s[|s| - 1] == '"'
    decreases |argument|
  {
    if argument != "" {
      EscapedCloses(argument[1..], if argument[0] == '\\' then slashes + 1 else 0);
    }
  }

  // The quoted arguments, each with a space in front, as launchDesktop appends them.
  function Joined(arguments: seq<string>): string {
    if arguments == [] then "" else " " + Quoted(arguments[0]) + Joined(arguments[1..])
  }

  // The assembly of the command line: the program, then every argument behind a space.
  method LaunchCommandLine(program: string, arguments: seq<string>) returns (commandLine: string)
    ensures commandLine == Quoted(program) + Joined(arguments)
  {
    commandLine := QuoteArgument(program);
    var i := 0;
    assert arguments[0..] == arguments;
    while i < |arguments|
      invariant 0 <= i <= |arguments|
      invariant commandLine + Joined(arguments[i..]) == Quoted(program) + Joined(arguments)
    {
      var quoted := QuoteArgument(arguments[i]);
      JoinedStep(commandLine, arguments, i);
      commandLine := commandLine + " ";
      commandLine := commandLine + quoted;
      i := i + 1;
    }
  }

  lemma JoinedStep(front: string, arguments: seq<string>, i: nat)
    requires i < |arguments|
    ensures front + Joined(arguments[i..]) == front + " " + Quoted(arguments[i]) + Joined(arguments[i + 1..])
  {
    assert arguments[i..][1..] == arguments[i + 1..];
    Reassociate(front, " ", Quoted(arguments[i]), Joined(arguments[i + 1..]));
    assert " " + Quoted(arguments[i]) + Joined(arguments[i + 1..])
        == " " + (Quoted(arguments[i]) + Joined(arguments[i + 1..]));
  }

  lemma SplitFirst(word: string, text: string, tail: string)
    requires ReadsAs(word, false, text, tail) && word != "" && !IsBlank(word[0])
    ensures SplitArguments(" " + word + tail) == [text] + SplitArguments(tail)
  {
    assert (" " + word + tail)[1..] == word + tail && (word + tail)[0] == word[0];
  }

  // Splitting the joined quoted arguments returns exactly the arguments.
  lemma {:induction false} SplitReversesQuoting(arguments: seq<string>)
    ensures SplitArguments(Joined(arguments)) == arguments
  {
    if arguments != [] {
      var rest := Joined(arguments[1..]);
      JoinedEnds(arguments[1..]);
      ReadQuoted(arguments[0], rest);
      SplitFirst(Quoted(arguments[0]), arguments[0], rest);
      SplitReversesQuoting(arguments[1..]);
    }
  }

  lemma JoinedEnds(arguments: seq<string>)
    ensures Ends(Joined(arguments))
  {
  }

  // ------------------------------------------------------------ the program name

  function TrailingSlashes(s: string, slashes: nat): nat {
    if s == "" then slashes
    else TrailingSlashes(s[1..], if s[0] == '\\' then slashes + 1 else 0)
  }

  lemma {:induction false} NoTrailingSlashes(s: string, slashes: nat)
    requires s != ""
    ensures TrailingSlashes(s, slashes) == 0 <==> s[|s| - 1] != '\\'
    decreases |s|
  {
    if |s| > 1 {
      NoTrailingSlashes(s[1..], if s[0] == '\\' then slashes + 1 else 0);
    }
  }

  lemma {:induction false} EscapedWithoutQuote(s: string, slashes: nat)
    requires '"' !in s
    ensures Escaped(s, slashes) == Slashes(slashes) + s + Slashes(TrailingSlashes(s, slashes)) + "\""
    decreases |s|
  {
    if s == "" {
      SlashesAdd(slashes, slashes);
      assert Slashes(slashes) + s == Slashes(slashes);
    } else if s[0] == '\\' {
      EscapedWithoutQuote(s[1..], slashes + 1);
      SlashFirst(slashes, s);
    } else {
      EscapedWithoutQuote(s[1..], 0);
      FirstInFront(slashes, s);
      var end := Slashes(TrailingSlashes(s, slashes)) + "\"";
      assert Slashes(0) + s[1..] == s[1..];
      Reassociate(Slashes(slashes), [s[0]], s[1..], end);
      assert Escaped(s, slashes) == Slashes(slashes) + [s[0]] + (s[1..] + end);
    }
  }

  lemma {:induction false} UpToQuoteStops(s: string, t: string)
    requires '"' !in s
    ensures UpToQuote(s + "\"" + t) == Piece(s, t)
  {
    var all := s + "\"" + t;
    if s == "" {
      assert all[1..] == t;
    } else {
      assert all[1..] == s[1..] + "\"" + t && s == [s[0]] + s[1..];
      UpToQuoteStops(s[1..], t);
    }
  }

  lemma {:induction false} UpToQuoteHasNone(s: string)
    ensures '"' !in UpToQuote(s).text
  {
    if s != "" && s[0] != '"' {
      UpToQuoteHasNone(s[1..]);
    }
  }

  lemma {:induction false} UpToBlankStops(s: string, tail: string)
    requires Ends(tail) && forall i :: 0 <= i < |s| ==> !IsBlank(s[i])
    ensures UpToBlank(s + tail) == Piece(s, tail)
  {
    if s == "" {
      assert s + tail == tail;
    } else {
      assert (s + tail)[1..] == s[1..] + tail && s == [s[0]] + s[1..];
      UpToBlankStops(s[1..], tail);
    }
  }

  lemma UpToQuoteOf(body: string, tail: string)
    ensures ReadProgram("\"" + body + tail) == UpToQuote(body + tail)
  {
    assert ("\"" + body + tail)[1..] == body + tail;
  }

  // A quoted name without quotation marks is read back with its trailing
  // backslashes doubled.
  lemma QuotedNameIsRead(program: string, tail: string)
    requires program != "" && NeedsQuotes(program) && '"' !in program
    ensures ReadProgram(Quoted(program) + tail) == Piece(program + Slashes(TrailingSlashes(program, 0)), tail)
  {
    UpToQuoteOf(Escaped(program, 0), tail);
    EscapedWithoutQuote(program, 0);
    UpToQuoteStops(program + Slashes(TrailingSlashes(program, 0)), tail);
    assert Slashes(0) + program == program;
  }

  lemma QuotedNameSurvives(program: string, tail: string)
    requires program != "" && NeedsQuotes(program)
    ensures ReadProgram(Quoted(program) + tail) == Piece(program, tail)
            <==> '"' !in program && program[|program| - 1] != '\\'
  {
    if '"' in program {
      UpToQuoteOf(Escaped(program, 0), tail);
      UpToQuoteHasNone(Escaped(program, 0) + tail);
    } else {
      QuotedNameIsRead(program, tail);
      NoTrailingSlashes(program, 0);
      SameLength(program, TrailingSlashes(program, 0));
    }
  }

  lemma SameLength(s: string, n: nat)
    ensures s + Slashes(n) == s <==> n == 0
  {
    assert |s + Slashes(n)| == |s| + n;
  }

  // The name in front of the arguments survives exactly when it contains no
  // quotation mark and, where it has to be quoted, does not end in a backslash.
  lemma ProgramNameSurvives(program: string, arguments: seq<string>)
    ensures ReadProgram(Quoted(program) + Joined(arguments)) == Piece(program, Joined(arguments))
            <==> '"' !in program && (NeedsQuotes(program) ==> program[|program| - 1] != '\\')
  {
    var tail := Joined(arguments);
    JoinedEnds(arguments);
    if program == "" {
      UpToQuoteStops("", tail);
      assert (Quoted("") + tail)[1..] == "" + "\"" + tail;
    } else if NeedsQuotes(program) {
      QuotedNameSurvives(program, tail);
    } else {
      UpToBlankStops(program, tail);
    }
  }

  // The command line of launchDesktop, taken apart by the process it starts.
  lemma CommandLineSurvives(program: string, arguments: seq<string>)
    requires '"' !in program && (NeedsQuotes(program) ==> program[|program| - 1] != '\\')
    ensures var p := ReadProgram(Quoted(program) + Joined(arguments));
            [p.text] + SplitArguments(p.rest) == [program] + arguments
  {
    ProgramNameSurvives(program, arguments);
    SplitReversesQuoting(arguments);
  }
}
