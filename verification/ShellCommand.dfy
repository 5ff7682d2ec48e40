/**
 * Commands for a remote shell and the input that reaches a pane through them: the
 * quoting of an argument list, the reading of it back by the quoting and token
 * rules of the POSIX shell (sections 2.2 and 2.3 of the Shell Command Language of
 * POSIX.1-2017), and the splitting of typed input into tmux commands.
 */
module ShellCommand {
  import opened Common

  // ---- Writing ----

  predicate Plain(c: char) {
    'A' <= c <= 'Z' || 'a' <= c <= 'z' || '0' <= c <= '9' || c in {'_', '@', '%', '+', '=', ':', ',', '.', '/', '-'}
  }

  predicate AllPlain(s: string) {
    s == "" || (Plain(s[0]) && AllPlain(s[1..]))
  }

  const QUOTED_QUOTE: string := "'\"'\"'"

  /** Every quote leaves the single quotes, is written in double quotes, and enters them again. */
  function ReplaceQuotes(s: string): string {
    if s == "" then ""
    else (if s[0] == '\'' then QUOTED_QUOTE else [s[0]]) + ReplaceQuotes(s[1..])
  }

  function ShellEscape(s: string): string {
    if s != "" && AllPlain(s) then s else "'" + ReplaceQuotes(s) + "'"
  }

  function BuildRemoteCommand(parts: seq<string>): string {
    if parts == [] then ""
    else if |parts| == 1 then ShellEscape(parts[0])
    else ShellEscape(parts[0]) + " " + BuildRemoteCommand(parts[1..])
  }

  // ---- Reading ----

  datatype Mode = Between | Unquoted | SingleQuoted | DoubleQuoted

  /** Unquoted, these end a command, redirect, expand, match file names or start a comment. */
  predicate Special(c: char) {
    c in {'|', '&', ';', '<', '>', '(', ')', '$', '`', '*', '?', '[', ']', '#', '~', '!', '{', '}', '^', '\n', '\r'}
  }

  /**
   * Splits a command into words and removes the quotes. None if a quotation stays
   * open or if the shell would do anything but pass on words.
   */
  function Words(s: string, mode: Mode, word: string, words: seq<string>): Option<seq<string>>
    decreases |s|, mode.Between?
  {
    if s == "" then
      match mode
      case Between => Some(words)
      case Unquoted => Some(words + [word])
      case _ => None
    else
      var c, rest := s[0], s[1..];
      match mode
      case Between =>
        if c == ' ' || c == '\t' then Words(rest, Between, "", words) else Words(s, Unquoted, "", words)
      case Unquoted =>
        if c == ' ' || c == '\t' then Words(rest, Between, "", words + [word])
        else if c == '\'' then Words(rest, SingleQuoted, word, words)
        else if c == '\"' then Words(rest, DoubleQuoted, word, words)
        else if c == '\\' then
          if rest == "" then None
          else Words(rest[1..], Unquoted, if rest[0] == '\n' then word else word + [rest[0]], words)
        else if Special(c) then None
        else Words(rest, Unquoted, word + [c], words)
      case SingleQuoted =>
        if c == '\'' then Words(rest, Unquoted, word, words) else Words(rest, SingleQuoted, word + [c], words)
      case DoubleQuoted =>
        if c == '\"' then Words(rest, Unquoted, word, words)
        else if c == '$' || c == '`' then None
        else if c == '\\' && rest != "" && rest[0] in {'$', '`', '\"', '\\'}
            then Words(rest[1..], DoubleQuoted, word + [rest[0]], words)
        else if c == '\\' && rest != "" && rest[0] == '\n' then Words(rest[1..], DoubleQuoted, word, words)
        else Words(rest, DoubleQuoted, word + [c], words)
  }

  function ShellWords(command: string): Option<seq<string>> {
    Words(command, Between, "", [])
  }

  // ---- The round trip ----

  /** The characters that need no quotes are those the shell gives no meaning. */
  lemma PlainIsOrdinary(c: char)
    requires Plain(c)
    ensures !Special(c) && c !in {' ', '\t', '\'', '\"', '\\'}
  {
  }

  lemma PlainStep(c: char, rest: string, word: string, words: seq<string>)
    requires Plain(c)
    ensures Words([c] + rest, Unquoted, word, words) == Words(rest, Unquoted, word + [c], words)
  {
    PlainIsOrdinary(c);
    assert ([c] + rest)[1..] == rest;
  }

  lemma BlankStep(rest: string, word: string, words: seq<string>)
    ensures Words(" " + rest, Unquoted, word, words) == Words(rest, Between, "", words + [word])
  {
    assert (" " + rest)[1..] == rest;
  }

  lemma {:induction false} PlainIsRead(s: string, rest: string, word: string, words: seq<string>)
    requires AllPlain(s)
    ensures Words(s + rest, Unquoted, word, words) == Words(rest, Unquoted, word + s, words)
  {
    if s == "" {
      assert s + rest == rest && word + s == word;
    } else {
      assert s + rest == [s[0]] + (s[1..] + rest);
      PlainStep(s[0], s[1..] + rest, word, words);
      PlainIsRead(s[1..], rest, word + [s[0]], words);
      assert word + [s[0]] + s[1..] == word + s;
    }
  }

  lemma QuotedQuoteIsRead(rest: string, word: string, words: seq<string>)
    ensures Words(QUOTED_QUOTE + rest, SingleQuoted, word, words) == Words(rest, SingleQuoted, word + ['\''], words)
  {
    var s := QUOTED_QUOTE + rest;
    assert s[0] == '\'' && s[1] == '\"' && s[2] == '\'' && s[3] == '\"' && s[4] == '\'';
    assert Words(s, SingleQuoted, word, words) == Words(s[1..], Unquoted, word, words);
    assert Words(s[1..], Unquoted, word, words) == Words(s[1..][1..], DoubleQuoted, word, words);
    assert s[1..][1..] == s[2..];
    assert Words(s[2..], DoubleQuoted, word, words) == Words(s[2..][1..], DoubleQuoted, word + ['\''], words);
    assert s[2..][1..] == s[3..];
    assert Words(s[3..], DoubleQuoted, word + ['\''], words) == Words(s[3..][1..], Unquoted, word + ['\''], words);
    assert s[3..][1..] == s[4..];
    assert s[4..][1..] == rest;
  }

  lemma {:induction false} QuotedIsRead(s: string, rest: string, word: string, words: seq<string>)
    ensures Words(ReplaceQuotes(s) + "'" + rest, SingleQuoted, word, words) == Words(rest, Unquoted, word + s, words)
  {
    if s == "" {
      assert ReplaceQuotes(s) + "'" + rest == "'" + rest;
      assert ("'" + rest)[1..] == rest && word + s == word;
    } else {
      var tail := ReplaceQuotes(s[1..]) + "'" + rest;
      QuotedIsRead(s[1..], rest, word + [s[0]], words);
      assert word + [s[0]] + s[1..] == word + s;
      if s[0] == '\'' {
        assert ReplaceQuotes(s) + "'" + rest == QUOTED_QUOTE + tail;
        QuotedQuoteIsRead(tail, word, words);
      } else {
        assert ReplaceQuotes(s) + "'" + rest == [s[0]] + tail;
        assert ([s[0]] + tail)[1..] == tail;
      }
    }
  }

  /** An escaped argument is read back as that argument, whatever its characters. */
  lemma EscapedIsRead(s: string, rest: string, words: seq<string>)
    ensures Words(ShellEscape(s) + rest, Between, "", words) == Words(rest, Unquoted, s, words)
  {
    if s != "" && AllPlain(s) {
      assert (s + rest)[0] == s[0];
      PlainIsRead(s, rest, "", words);
      assert "" + s == s;
    } else {
      var body := ReplaceQuotes(s) + "'" + rest;
      assert ShellEscape(s) + rest == "'" + body;
      assert ("'" + body)[1..] == body;
      QuotedIsRead(s, rest, "", words);
      assert "" + s == s;
    }
  }

  lemma LastIsRead(part: string, words: seq<string>)
    ensures Words(ShellEscape(part), Between, "", words) == Some(words + [part])
  {
    EscapedIsRead(part, "", words);
    assert ShellEscape(part) + "" == ShellEscape(part);
  }

  lemma FirstIsRead(part: string, rest: string, words: seq<string>)
    ensures Words(ShellEscape(part) + " " + rest, Between, "", words) == Words(rest, Between, "", words + [part])
  {
    assert ShellEscape(part) + " " + rest == ShellEscape(part) + (" " + rest);
    EscapedIsRead(part, " " + rest, words);
    BlankStep(rest, part, words);
  }

  lemma {:induction false} CommandIsRead(parts: seq<string>, words: seq<string>)
    ensures Words(BuildRemoteCommand(parts), Between, "", words) == Some(words + parts)
  {
    if parts == [] {
      assert words + parts == words;
    } else if |parts| == 1 {
      LastIsRead(parts[0], words);
      assert [parts[0]] == parts;
    } else {
      var part, rest := parts[0], parts[1..];
      FirstIsRead(part, BuildRemoteCommand(rest), words);
      CommandIsRead(rest, words + [part]);
      assert words + [part] + rest == words + parts;
    }
  }

  /** The shell splits a built command into exactly the arguments it was built from. */
  lemma {:induction false} QuotingRoundTrip(parts: seq<string>)
    ensures ShellWords(BuildRemoteCommand(parts)) == Some(parts)
  {
    CommandIsRead(parts, []);
    assert [] + parts == parts;
  }

  /** Different argument lists build different commands. */
  lemma QuotingIsInjective(parts: seq<string>, others: seq<string>)
    ensures BuildRemoteCommand(parts) == BuildRemoteCommand(others) <==> parts == others
  {
    QuotingRoundTrip(parts);
    QuotingRoundTrip(others);
  }

  // ---- Typed input ----

  type Command = seq<string>

  function Literal(pane: PaneId, line: string): Command {
    ["send-keys", "-t", pane, "-l", "--", line]
  }

  function Enter(pane: PaneId): Command {
    ["send-keys", "-t", pane, "C-m"]
  }

  predicate OneLine(s: string) {
    '\n' !in s
  }

  function Lines(s: string): (lines: seq<string>)
    ensures lines != []
    ensures forall i :: 0 <= i < |lines| ==> OneLine(lines[i])
  {
    if s == "" then [""]
    else
      var init, c := Lines(s[..|s| - 1]), s[|s| - 1];
      if c == '\n' then init + [""] else init[..|init| - 1] + [init[|init| - 1] + [c]]
  }

  function LiteralCommands(pane: PaneId, line: string): seq<Command> {
    if line != "" then [Literal(pane, line)] else []
  }

  /** The commands for the first n lines. */
  function LineCommands(pane: PaneId, lines: seq<string>, n: nat): seq<Command>
    requires n <= |lines|
  {
    if n == 0 then []
    else
      LineCommands(pane, lines, n - 1)
      + LiteralCommands(pane, lines[n - 1])
      + (if n < |lines| then [Enter(pane)] else [])
  }

  function InputCommands(pane: PaneId, rawInput: string): seq<Command> {
    LineCommands(pane, Lines(rawInput), |Lines(rawInput)|)
  }

  // How tmux reads a command, argument by argument: the subcommand, the pane it targets, and a
  // literal text after the flags for one, or else the name of a key.

  predicate SendsKeysTo(pane: PaneId, command: Command) {
    |command| >= 4 && command[0] == "send-keys" && command[1] == "-t" && command[2] == pane
  }

  predicate IsText(pane: PaneId, command: Command) {
    SendsKeysTo(pane, command) && |command| == 6 && command[3] == "-l" && command[4] == "--"
  }

  predicate IsNewline(pane: PaneId, command: Command) {
    SendsKeysTo(pane, command) && |command| == 4 && command[3] == "C-m"
  }

  /** What a command types into a pane: its literal text, or a newline; None if it is not about that pane. */
  function Typed(pane: PaneId, command: Command): Option<string> {
    if IsNewline(pane, command) then Some("\n")
    else if IsText(pane, command) then Some(command[5])
    else None
  }

  function Spelled(pane: PaneId, commands: seq<Command>): Option<string> {
    if commands == [] then Some("")
    else
      match Spelled(pane, commands[..|commands| - 1])
      case None => None
      case Some(text) =>
        match Typed(pane, commands[|commands| - 1])
        case None => None
        case Some(more) => Some(text + more)
  }

  /** The lines, each with its newline. */
  function Terminated(lines: seq<string>): string {
    if lines == [] then "" else Terminated(lines[..|lines| - 1]) + lines[|lines| - 1] + "\n"
  }

  lemma SpelledAppend(pane: PaneId, commands: seq<Command>, command: Command)
    ensures Spelled(pane, commands + [command]) ==
            if Spelled(pane, commands).Some? && Typed(pane, command).Some?
            then Some(Spelled(pane, commands).value + Typed(pane, command).value) else None
  {
    assert (commands + [command])[..|commands|] == commands;
  }

  lemma {:induction false} LinesRejoin(s: string)
    ensures var lines := Lines(s); Terminated(lines[..|lines| - 1]) + lines[|lines| - 1] == s
  {
    if s == "" {
      assert Lines(s)[..0] == [];
    } else {
      var init, c := s[..|s| - 1], s[|s| - 1];
      var before, lines := Lines(init), Lines(s);
      LinesRejoin(init);
      assert s == init + [c];
      if c == '\n' {
        assert lines[..|lines| - 1] == before;
      } else {
        assert lines[..|lines| - 1] == before[..|before| - 1];
      }
    }
  }

  lemma LiteralSpells(pane: PaneId, commands: seq<Command>, line: string, text: string)
    requires Spelled(pane, commands) == Some(text)
    ensures Spelled(pane, commands + LiteralCommands(pane, line)) == Some(text + line)
  {
    if line == "" {
      assert commands + [] == commands && text + line == text;
    } else {
      SpelledAppend(pane, commands, Literal(pane, line));
    }
  }

  lemma EnterSpells(pane: PaneId, commands: seq<Command>, text: string)
    requires Spelled(pane, commands) == Some(text)
    ensures Spelled(pane, commands + [Enter(pane)]) == Some(text + "\n")
  {
    SpelledAppend(pane, commands, Enter(pane));
  }

  lemma {:induction false} LineCommandsSpell(pane: PaneId, lines: seq<string>, n: nat)
    requires n < |lines|
    ensures Spelled(pane, LineCommands(pane, lines, n)) == Some(Terminated(lines[..n]))
  {
    if n > 0 {
      var before, text := LineCommands(pane, lines, n - 1), Terminated(lines[..n - 1]);
      LineCommandsSpell(pane, lines, n - 1);
      LiteralSpells(pane, before, lines[n - 1], text);
      EnterSpells(pane, before + LiteralCommands(pane, lines[n - 1]), text + lines[n - 1]);
      assert lines[..n][..n - 1] == lines[..n - 1];
    }
  }

  /** The commands for an input type exactly that input, each newline as one C-m. */
  lemma InputIsSpelled(pane: PaneId, rawInput: string)
    ensures Spelled(pane, InputCommands(pane, rawInput)) == Some(rawInput)
  {
    var lines := Lines(rawInput);
    var last := |lines| - 1;
    var before := LineCommands(pane, lines, last);
    LineCommandsSpell(pane, lines, last);
    LiteralSpells(pane, before, lines[last], Terminated(lines[..last]));
    LinesRejoin(rawInput);
    assert before + LiteralCommands(pane, lines[last]) + [] == before + LiteralCommands(pane, lines[last]);
  }

  /** Commands cut short, by a failure say, have typed a beginning of what was to be typed. */
  lemma {:induction false} CutShortSpellsPrefix(pane: PaneId, commands: seq<Command>, n: nat)
    requires n <= |commands| && Spelled(pane, commands).Some?
    ensures Spelled(pane, commands[..n]).Some?
    ensures Spelled(pane, commands[..n]).value <= Spelled(pane, commands).value
  {
    if n == |commands| {
      assert commands[..n] == commands;
    } else {
      CutShortSpellsPrefix(pane, commands[..|commands| - 1], n);
      assert commands[..|commands| - 1][..n] == commands[..n];
    }
  }

  predicate IsLiteral(pane: PaneId, command: Command) {
    IsText(pane, command) && command[5] != "" && OneLine(command[5])
  }

  /** No empty literal, no newline inside one, and no two in a row. */
  predicate Canonical(pane: PaneId, commands: seq<Command>) {
    commands == []
    || var init, last := commands[..|commands| - 1], commands[|commands| - 1];
       && Canonical(pane, init)
       && (IsNewline(pane, last) || (IsLiteral(pane, last) && (init == [] || IsNewline(pane, init[|init| - 1]))))
  }

  lemma CanonicalAppend(pane: PaneId, commands: seq<Command>, command: Command)
    requires Canonical(pane, commands)
    requires IsNewline(pane, command)
             || (IsLiteral(pane, command) && (commands == [] || IsNewline(pane, commands[|commands| - 1])))
    ensures Canonical(pane, commands + [command])
  {
    assert (commands + [command])[..|commands|] == commands;
  }

  predicate EndsLine(pane: PaneId, commands: seq<Command>) {
    commands == [] || IsNewline(pane, commands[|commands| - 1])
  }

  lemma LiteralCanonical(pane: PaneId, commands: seq<Command>, line: string)
    requires Canonical(pane, commands) && EndsLine(pane, commands) && OneLine(line)
    ensures Canonical(pane, commands + LiteralCommands(pane, line))
  {
    if line == "" {
      assert commands + [] == commands;
    } else {
      CanonicalAppend(pane, commands, Literal(pane, line));
    }
  }

  lemma {:induction false} LineCommandsCanonical(pane: PaneId, lines: seq<string>, n: nat)
    requires n <= |lines| && forall i :: 0 <= i < |lines| ==> OneLine(lines[i])
    ensures Canonical(pane, LineCommands(pane, lines, n))
    ensures n < |lines| ==> EndsLine(pane, LineCommands(pane, lines, n))
  {
    if n > 0 {
      LineCommandsCanonical(pane, lines, n - 1);
      LiteralCanonical(pane, LineCommands(pane, lines, n - 1), lines[n - 1]);
      var literal := LineCommands(pane, lines, n - 1) + LiteralCommands(pane, lines[n - 1]);
      CanonicalAppend(pane, literal, Enter(pane));
      assert literal + [] == literal;
    }
  }

  /** The last line of a spelled text is what the last literal says. */
  lemma LastLine(pane: PaneId, commands: seq<Command>, text: string)
    requires commands != [] && Canonical(pane, commands) && Spelled(pane, commands) == Some(text)
    ensures var last, init := commands[|commands| - 1], commands[..|commands| - 1];
            if IsNewline(pane, last) then
              text != "" && text[|text| - 1] == '\n' && Spelled(pane, init) == Some(text[..|text| - 1])
            else
              && IsLiteral(pane, last) && |last[5]| <= |text| && last[5] == text[|text| - |last[5]|..]
              && Spelled(pane, init) == Some(text[..|text| - |last[5]|])
              && (|last[5]| < |text| ==> text[|text| - |last[5]| - 1] == '\n')
  {
    var last, init := commands[|commands| - 1], commands[..|commands| - 1];
    if !IsNewline(pane, last) && init != [] {
      assert Spelled(pane, init).value[|Spelled(pane, init).value| - 1] == '\n';
    }
  }

  /** A command is determined by the pane and by what it types. */
  lemma SameCommand(pane: PaneId, a: Command, b: Command)
    requires (IsNewline(pane, a) && IsNewline(pane, b)) || (IsText(pane, a) && IsText(pane, b) && a[5] == b[5])
    ensures a == b
  {
  }

  lemma {:induction false} CanonicalIsUnique(pane: PaneId, commands: seq<Command>, others: seq<Command>)
    requires Canonical(pane, commands) && Canonical(pane, others)
    requires Spelled(pane, commands) == Spelled(pane, others) && Spelled(pane, commands).Some?
    ensures commands == others
  {
    var text := Spelled(pane, commands).value;
    if commands != [] && others != [] {
      LastLine(pane, commands, text);
      LastLine(pane, others, text);
      SameCommand(pane, commands[|commands| - 1], others[|others| - 1]);
      CanonicalIsUnique(pane, commands[..|commands| - 1], others[..|others| - 1]);
    } else if commands != [] {
      LastLine(pane, commands, text);
    } else if others != [] {
      LastLine(pane, others, text);
    }
  }

  /**
   * The commands for an input type exactly that input, each newline as one C-m and
   * no empty literal; no other such list of commands does.
   */
  lemma {:induction false} InputCommandsDetermined(pane: PaneId, rawInput: string, commands: seq<Command>)
    ensures commands == InputCommands(pane, rawInput)
            <==> Canonical(pane, commands) && Spelled(pane, commands) == Some(rawInput)
  {
    InputIsSpelled(pane, rawInput);
    LineCommandsCanonical(pane, Lines(rawInput), |Lines(rawInput)|);
    if Canonical(pane, commands) && Spelled(pane, commands) == Some(rawInput) {
      CanonicalIsUnique(pane, commands, InputCommands(pane, rawInput));
    }
  }

  // ---- Typed input over ssh ----

  function RemoteCommand(command: Command): string {
    BuildRemoteCommand(["tmux"] + command)
  }

  function RemoteCommands(commands: seq<Command>): (remote: seq<string>)
    ensures |remote| == |commands|
  {
    seq(|commands|, i requires 0 <= i < |commands| => RemoteCommand(commands[i]))
  }

  /** The tmux commands a remote shell runs. */
  function ReadRemote(remote: seq<string>): Option<seq<Command>> {
    if remote == [] then Some([])
    else
      match (ReadRemote(remote[..|remote| - 1]), ShellWords(remote[|remote| - 1]))
      case (Some(commands), Some(words)) => if words != [] && words[0] == "tmux" then Some(commands + [words[1..]])
          else None
      case _ => None
  }

  lemma {:induction false} RemoteRoundTrip(commands: seq<Command>)
    ensures ReadRemote(RemoteCommands(commands)) == Some(commands)
  {
    if commands != [] {
      var init, last := commands[..|commands| - 1], commands[|commands| - 1];
      RemoteRoundTrip(init);
      QuotingRoundTrip(["tmux"] + last);
      assert RemoteCommands(commands)[..|commands| - 1] == RemoteCommands(init);
      assert (["tmux"] + last)[1..] == last;
      assert init + [last] == commands;
    }
  }

  /** What reaches the pane through the remote shell is the raw input, character for character. */
  lemma {:induction false} RemoteInputRoundTrip(pane: PaneId, rawInput: string)
    ensures var read := ReadRemote(RemoteCommands(InputCommands(pane, rawInput)));
            read.Some? && Canonical(pane, read.value) && Spelled(pane, read.value) == Some(rawInput)
  {
    RemoteRoundTrip(InputCommands(pane, rawInput));
    InputCommandsDetermined(pane, rawInput, InputCommands(pane, rawInput));
  }

  // ---- The adapters ----

  /** The commands of line i come next, after those of the lines before it. */
  lemma NextCommands(pane: PaneId, lines: seq<string>, i: nat)
    requires i < |lines|
    ensures var all, before := LineCommands(pane, lines, |lines|), |LineCommands(pane, lines, i)|;
            var enter := if lines[i] != "" then before + 1 else before;
            var after := if i + 1 < |lines| then enter + 1 else enter;
            && after == |LineCommands(pane, lines, i + 1)| <= |all|
            && (lines[i] != "" ==> all[before] == Literal(pane, lines[i]))
            && (i + 1 < |lines| ==> all[enter] == Enter(pane))
  {
    LineCommandsGrow(pane, lines, i + 1);
  }

  lemma {:induction false} LineCommandsGrow(pane: PaneId, lines: seq<string>, n: nat)
    requires n <= |lines|
    ensures LineCommands(pane, lines, n) <= LineCommands(pane, lines, |lines|)
    decreases |lines| - n
  {
    if n < |lines| {
      LineCommandsGrow(pane, lines, n + 1);
    }
  }

  lemma PrefixGrows<T>(before: seq<T>, all: seq<T>, n: nat)
    requires n < |all|
    ensures before + all[..n] + [all[n]] == before + all[..n + 1]
  {
  }

  class TmuxAdapter {
    /** The argument lists tmux was run with. */
    var issued: seq<Command>

    method RunTmux(command: Command)
      modifies this
      ensures issued == old(issued) + [command]
    {
      issued := issued + [command];
    }

    /** Runs the command that comes next of all, of which done were issued since before. */
    method RunNext(command: Command, ghost before: seq<Command>, ghost all: seq<Command>, ghost done: nat)
      requires done < |all| && command == all[done] && issued == before + all[..done]
      modifies this
      ensures issued == before + all[..done + 1]
    {
      PrefixGrows(before, all, done);
      RunTmux(command);
    }

    /** One pass of the loop: the commands of line i, or those up to the first that fails. */
    method SendLine(paneId: PaneId, lines: seq<string>, i: nat, done: nat, succeed: nat,
                    ghost before: seq<Command>, ghost all: seq<Command>)
      returns (sent: nat, ok: bool)
      requires i < |lines| && done <= succeed && all == LineCommands(paneId, lines, |lines|)
      requires done == |LineCommands(paneId, lines, i)| <= |all| && issued == before + all[..done]
      modifies this
      ensures ok ==> sent == |LineCommands(paneId, lines, i + 1)| <= |all| && sent <= succeed
      ensures issued == before + all[..if ok then sent else Min(|all|, succeed + 1)] && (!ok ==> succeed < |all|)
    {
      NextCommands(paneId, lines, i);
      sent := done;
      if |lines[i]| > 0 {
        RunNext(Literal(paneId, lines[i]), before, all, sent);
        if sent == succeed {
          return sent, false;
        }
        sent := sent + 1;
      }
      if i < |lines| - 1 {
        RunNext(Enter(paneId), before, all, sent);
        if sent == succeed {
          return sent, false;
        }
        sent := sent + 1;
      }
      ok := true;
    }

    /** succeed is how many commands in a row succeed; the first failure is passed on. */
    method SendInput(paneId: PaneId, rawInput: string, succeed: nat) returns (ok: bool)
      modifies this
      ensures var all := InputCommands(paneId, rawInput);
              issued == old(issued) + all[..Min(|all|, succeed + 1)] && (ok <==> |all| <= succeed)
    {
      var lines := Lines(rawInput);
      ghost var all := InputCommands(paneId, rawInput);
      var done := 0;
      var i := 0;
      while i < |lines|
        invariant i <= |lines| && done <= succeed
        invariant done == |LineCommands(paneId, lines, i)| <= |all|
        invariant issued == old(issued) + all[..done]
      {
        done, ok := SendLine(paneId, lines, i, done, succeed, old(issued), all);
        if !ok {
          return false;
        }
        i := i + 1;
      }
      return true;
    }
  }

  class SshTmuxAdapter {
    /** The remote commands ssh was run with. */
    var remote: seq<string>
    ghost var issued: seq<Command>

    constructor ()
      ensures Valid() && issued == []
    {
      remote, issued := [], [];
    }

    ghost predicate Valid()
      reads this
    {
      remote == RemoteCommands(issued)
    }

    method RunTmux(command: Command)
      requires Valid()
      modifies this
      ensures Valid() && issued == old(issued) + [command]
    {
      remote := remote + [BuildRemoteCommand(["tmux"] + command)];
      issued := issued + [command];
    }

    method RunNext(command: Command, ghost before: seq<Command>, ghost all: seq<Command>, ghost done: nat)
      requires Valid()
      requires done < |all| && command == all[done] && issued == before + all[..done]
      modifies this
      ensures Valid() && issued == before + all[..done + 1]
    {
      PrefixGrows(before, all, done);
      RunTmux(command);
    }

    /** One pass of the loop: the commands of line i, or those up to the first that fails. */
    method SendLine(paneId: PaneId, lines: seq<string>, i: nat, done: nat, succeed: nat,
                    ghost before: seq<Command>, ghost all: seq<Command>)
      returns (sent: nat, ok: bool)
      requires Valid() && i < |lines| && done <= succeed && all == LineCommands(paneId, lines, |lines|)
      requires done == |LineCommands(paneId, lines, i)| <= |all| && issued == before + all[..done]
      modifies this
      ensures Valid() && (ok ==> sent == |LineCommands(paneId, lines, i + 1)| <= |all| && sent <= succeed)
      ensures issued == before + all[..if ok then sent else Min(|all|, succeed + 1)] && (!ok ==> succeed < |all|)
    {
      NextCommands(paneId, lines, i);
      sent := done;
      if |lines[i]| > 0 {
        RunNext(Literal(paneId, lines[i]), before, all, sent);
        if sent == succeed {
          return sent, false;
        }
        sent := sent + 1;
      }
      if i < |lines| - 1 {
        RunNext(Enter(paneId), before, all, sent);
        if sent == succeed {
          return sent, false;
        }
        sent := sent + 1;
      }
      ok := true;
    }

    /** As in the local adapter, with every command quoted for the remote shell. */
    method SendInput(paneId: PaneId, rawInput: string, succeed: nat) returns (ok: bool)
      requires Valid()
      modifies this
      ensures var all := InputCommands(paneId, rawInput);
              Valid() && issued == old(issued) + all[..Min(|all|, succeed + 1)] && (ok <==> |all| <= succeed)
    {
      var lines := Lines(rawInput);
      ghost var all := InputCommands(paneId, rawInput);
      var done := 0;
      var i := 0;
      while i < |lines|
        invariant i <= |lines| && done <= succeed
        invariant done == |LineCommands(paneId, lines, i)| <= |all|
        invariant Valid() && issued == old(issued) + all[..done]
      {
        done, ok := SendLine(paneId, lines, i, done, succeed, old(issued), all);
        if !ok {
          return false;
        }
        i := i + 1;
      }
      return true;
    }
  }
}
