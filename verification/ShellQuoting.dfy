/**
 Printing an argument vector as a shell command, and a reader for it after the
 POSIX Shell Command Language: words and quoting (section 2.2), reserved words
 (section 2.4) and simple commands (section 2.9.1).
 */
module ShellQuoting {
  import opened Basics

  predicate SafeChar(c: char) {
    'A' <= c <= 'Z' || 'a' <= c <= 'z' || '0' <= c <= '9' || c in "_@%+=:,./-"
  }

  predicate SafeArgument(a: string) {
    a != "" && forall i | 0 <= i < |a| :: SafeChar(a[i])
  }

  /** Every single quote becomes: close the quotes, an escaped quote, open them again. */
  function EscapeQuotes(a: string): string {
    if a == "" then "" else (if a[0] == '\'' then "'\\''" else [a[0]]) + EscapeQuotes(a[1..])
  }

  function FormatArgument(a: string): string {
    if a == "" then "''"
    else if SafeArgument(a) then a
    else "'" + EscapeQuotes(a) + "'"
  }

  function FormatCommand(command: seq<string>): string {
    if command == [] then ""
    else if |command| == 1 then FormatArgument(command[0])
    else FormatArgument(command[0]) + " " + FormatCommand(command[1..])
  }

  // ----- Words -----

  predicate Blank(c: char) {
    c == ' ' || c == '\t'
  }

  /** Characters that mean something to the shell when they are not quoted. */
  predicate Special(c: char) {
    c in "|&;<>()$`\"\n*?[#~{}!"
  }

  /** A word: its text without the quoting, and what of it came before any quoting. */
  datatype Word = Word(text: string, bare: string, quoted: bool)

  const NOTHING := Word("", "", false)

  function Begun(word: Option<Word>): Word {
    if word.Some? then word.value else NOTHING
  }

  function Grown(word: Option<Word>, c: char): Option<Word> {
    var w := Begun(word);
    Some(Word(w.text + [c], if w.quoted then w.bare else w.bare + [c], w.quoted))
  }

  function Quoting(word: Option<Word>): Option<Word> {
    Some(Begun(word).(quoted := true))
  }

  /**
   The words of a command line; `word` is the word being read, `None` between
   words.  An open quote, a lone backslash or an unquoted special character has
   no simple reading.
   */
  function Tokens(s: string, word: Option<Word>, quoted: bool): Option<seq<Word>>
    decreases |s|
  {
    if s == "" then
      if quoted then None else Some(if word.Some? then [word.value] else [])
    else if quoted then
      if s[0] == '\'' then Tokens(s[1..], word, false) else Tokens(s[1..], Grown(word, s[0]), true)
    else if s[0] == '\'' then
      Tokens(s[1..], Quoting(word), true)
    else if s[0] == '\\' then
      if |s| == 1 then None
      else if s[1] == '\n' then Tokens(s[2..], word, false)
      else Tokens(s[2..], Grown(Quoting(word), s[1]), false)
    else if Blank(s[0]) then
      match Tokens(s[1..], None, false)
      case None => None
      case Some(words) => Some((if word.Some? then [word.value] else []) + words)
    else if Special(s[0]) then None
    else Tokens(s[1..], Grown(word, s[0]), false)
  }

  function Texts(words: seq<Word>): seq<string> {
    seq(|words|, i requires 0 <= i < |words| => words[i].text)
  }

  // ----- Commands -----

  predicate NameChar(c: char) {
    'A' <= c <= 'Z' || 'a' <= c <= 'z' || '0' <= c <= '9' || c == '_'
  }

  predicate Name(s: string) {
    s != "" && !('0' <= s[0] <= '9') && forall i | 0 <= i < |s| :: NameChar(s[i])
  }

  /** Text that begins with a name and an equals sign. */
  predicate Assigns(s: string) {
    exists k | 0 <= k < |s| :: s[k] == '=' && Name(s[..k])
  }

  const RESERVED := {"if", "then", "else", "elif", "fi", "do", "done", "case", "esac", "while", "until", "for", "in"}

  /** Words that a shell may take for reserved: the meaning of these at the head of a command is unspecified. */
  const DOUBTFUL := {"function", "select", "time", "namespace"}

  predicate Reserved(s: string) {
    s in RESERVED || s in DOUBTFUL || (s != "" && s[|s| - 1] == ':' && Name(s[..|s| - 1]))
  }

  /** Variable assignments followed by the words of the command, or something that is not a simple command. */
  datatype Reading = Simple(assignments: seq<string>, words: seq<string>) | NotSimple

  /** How many of the first words are assignments. */
  function Leading(words: seq<Word>): (n: nat)
    ensures n <= |words|
  {
    if words != [] && Assigns(words[0].bare) then 1 + Leading(words[1..]) else 0
  }

  /** How a shell reads words; reserved words count only unquoted and in front. */
  function Parse(words: seq<Word>): Reading {
    if words != [] && !words[0].quoted && Reserved(words[0].text) then NotSimple
    else Simple(Texts(words[..Leading(words)]), Texts(words[Leading(words)..]))
  }

  function Read(s: string): Option<Reading> {
    match Tokens(s, None, false)
    case None => None
    case Some(words) => Some(Parse(words))
  }

  // ----- Reading what was printed -----

  lemma ReadsOpening(word: Option<Word>, rest: string)
    ensures Tokens("'" + rest, word, false) == Tokens(rest, Quoting(word), true)
  {
  }

  lemma ReadsClosing(word: Option<Word>, rest: string)
    ensures Tokens("'" + rest, word, true) == Tokens(rest, word, false)
  {
  }

  lemma ReadsEscapedQuote(word: Option<Word>, rest: string)
    ensures Tokens("\\'" + rest, word, false) == Tokens(rest, Grown(Quoting(word), '\''), false)
  {
  }

  lemma ReadsQuotedChar(c: char, word: Option<Word>, rest: string)
    requires c != '\''
    ensures Tokens([c] + rest, word, true) == Tokens(rest, Grown(word, c), true)
  {
  }

  lemma SafeIsPlain(c: char)
    requires SafeChar(c)
    ensures c != '\'' && c != '\\' && !Blank(c) && !Special(c)
  {
  }

  lemma ReadsSafeChar(c: char, word: Option<Word>, rest: string)
    requires SafeChar(c)
    ensures Tokens([c] + rest, word, false) == Tokens(rest, Grown(word, c), false)
  {
    SafeIsPlain(c);
    hide SafeChar, Blank, Special;
    assert ([c] + rest)[1..] == rest;
  }

  lemma {:induction false} ReadsPlain(a: string, w: string, rest: string)
    requires forall i | 0 <= i < |a| :: SafeChar(a[i])
    ensures Tokens(a + rest, Some(Word(w, w, false)), false) == Tokens(rest, Some(Word(w + a, w + a, false)), false)
  {
    hide Tokens, SafeChar;
    if a == "" {
      assert a + rest == rest && w + a == w;
    } else {
      assert a + rest == [a[0]] + (a[1..] + rest);
      ReadsSafeChar(a[0], Some(Word(w, w, false)), a[1..] + rest);
      ReadsPlain(a[1..], w + [a[0]], rest);
      assert w + [a[0]] + a[1..] == w + a;
    }
  }

  lemma ReadsInnerQuote(w: string, rest: string)
    ensures Tokens("'" + ("\\'" + ("'" + rest)), Some(Word(w, "", true)), true)
         == Tokens(rest, Some(Word(w + ['\''], "", true)), true)
  {
    hide Tokens;
    ReadsClosing(Some(Word(w, "", true)), "\\'" + ("'" + rest));
    ReadsEscapedQuote(Some(Word(w, "", true)), "'" + rest);
    ReadsOpening(Some(Word(w + ['\''], "", true)), rest);
  }

  lemma {:induction false} ReadsQuoted(a: string, w: string, rest: string)
    ensures Tokens(EscapeQuotes(a) + ("'" + rest), Some(Word(w, "", true)), true)
         == Tokens(rest, Some(Word(w + a, "", true)), false)
  {
    hide Tokens;
    var word := Some(Word(w, "", true));
    if a == "" {
      assert EscapeQuotes(a) + ("'" + rest) == "'" + rest;
      ReadsClosing(word, rest);
      assert w + a == w;
    } else {
      var tail := EscapeQuotes(a[1..]) + ("'" + rest);
      if a[0] == '\'' {
        assert EscapeQuotes(a) + ("'" + rest) == "'" + ("\\'" + ("'" + tail));
        ReadsInnerQuote(w, tail);
      } else {
        assert EscapeQuotes(a) + ("'" + rest) == [a[0]] + tail;
        ReadsQuotedChar(a[0], word, tail);
      }
      ReadsQuoted(a[1..], w + [a[0]], rest);
      assert w + [a[0]] + a[1..] == w + a;
    }
  }

  /** The word an argument is printed as. */
  function Printed(a: string): Word {
    if SafeArgument(a) then Word(a, a, false) else Word(a, "", true)
  }

  function PrintedAll(command: seq<string>): seq<Word> {
    seq(|command|, i requires 0 <= i < |command| => Printed(command[i]))
  }

  lemma ReadsArgument(a: string, rest: string)
    ensures Tokens(FormatArgument(a) + rest, None, false) == Tokens(rest, Some(Printed(a)), false)
  {
    if SafeArgument(a) {
      ReadsSafe(a, rest);
    } else {
      hide Tokens, SafeArgument, EscapeQuotes;
      EmptyIsEscaped();
      assert FormatArgument(a) + rest == "'" + (EscapeQuotes(a) + ("'" + rest));
      ReadsOpening(None, EscapeQuotes(a) + ("'" + rest));
      ReadsQuoted(a, "", rest);
      assert "" + a == a;
    }
  }

  lemma EmptyIsEscaped()
    ensures EscapeQuotes("") == ""
  {
  }

  lemma ReadsSafe(a: string, rest: string)
    requires SafeArgument(a)
    ensures Tokens(a + rest, None, false) == Tokens(rest, Some(Word(a, a, false)), false)
  {
    hide Tokens, SafeChar;
    assert a + rest == [a[0]] + (a[1..] + rest);
    ReadsSafeChar(a[0], None, a[1..] + rest);
    assert "" + [a[0]] == [a[0]];
    ReadsPlain(a[1..], [a[0]], rest);
    assert [a[0]] + a[1..] == a;
  }

  lemma ReadsBlank(w: Word, rest: string)
    ensures Tokens(rest, None, false).Some? ==>
              Tokens(" " + rest, Some(w), false) == Some([w] + Tokens(rest, None, false).value)
    ensures Tokens("", Some(w), false) == Some([w])
  {
  }

  lemma PrintedHead(a: string, tail: seq<string>)
    ensures PrintedAll([a] + tail) == [Printed(a)] + PrintedAll(tail)
    ensures PrintedAll([]) == [] && PrintedAll([a]) == [Printed(a)]
  {
  }

  lemma {:induction false} CommandTokens(command: seq<string>)
    ensures Tokens(FormatCommand(command), None, false) == Some(PrintedAll(command))
  {
    if command == [] {
      PrintedHead("", []);
    } else {
      hide Tokens, FormatArgument, PrintedAll;
      var a, tail := command[0], command[1..];
      assert command == [a] + tail;
      PrintedHead(a, tail);
      if tail == [] {
        assert command == [a] && FormatArgument(a) + "" == FormatArgument(a);
        ReadsArgument(a, "");
        ReadsBlank(Printed(a), "");
      } else {
        var rest := FormatCommand(tail);
        assert FormatCommand(command) == FormatArgument(a) + (" " + rest);
        ReadsArgument(a, " " + rest);
        CommandTokens(tail);
        ReadsBlank(Printed(a), rest);
      }
    }
  }

  /** The words of the printed command are exactly the argument vector. */
  lemma CommandRoundTrip(command: seq<string>)
    ensures var words := Tokens(FormatCommand(command), None, false);
            words.Some? && Texts(words.value) == command
  {
    CommandTokens(command);
    hide Tokens;
    assert Texts(PrintedAll(command)) == command;
  }

  /** Distinct argument vectors print differently. */
  lemma CommandInjective(a: seq<string>, b: seq<string>)
    requires FormatCommand(a) == FormatCommand(b)
    ensures a == b
  {
    CommandRoundTrip(a);
    CommandRoundTrip(b);
  }

  // ----- When the text is a simple command of these words -----

  /** Printed without quotes, and then taken for an assignment. */
  predicate PlainAssignment(a: string) {
    SafeArgument(a) && Assigns(a)
  }

  function Assignments(command: seq<string>): (n: nat)
    ensures n <= |command|
  {
    if command != [] && PlainAssignment(command[0]) then 1 + Assignments(command[1..]) else 0
  }

  lemma {:induction false} LeadingPrinted(command: seq<string>)
    ensures Leading(PrintedAll(command)) == Assignments(command)
  {
    if command != [] {
      hide SafeArgument, Assigns;
      assert PrintedAll(command)[1..] == PrintedAll(command[1..]);
      LeadingPrinted(command[1..]);
      EmptyAssignsNothing();
    }
  }

  lemma EmptyAssignsNothing()
    ensures !Assigns("")
  {
  }

  /** Words that a shell reserves are made of safe characters, so they are printed bare. */
  lemma ReservedIsSafe(a: string)
    requires Reserved(a)
    ensures SafeArgument(a)
  {
    if a !in RESERVED && a !in DOUBTFUL {
      var n := |a| - 1;
      assert forall i | 0 <= i < n :: a[i] == a[..n][i];
    }
  }

  /** How a shell reads the printed command, for every argument vector. */
  lemma CommandReads(command: seq<string>)
    ensures Read(FormatCommand(command)) ==
            Some(if command != [] && Reserved(command[0]) then NotSimple
                 else Simple(command[..Assignments(command)], command[Assignments(command)..]))
  {
    hide Tokens, Leading, Assignments, SafeArgument, Reserved, FormatCommand;
    CommandTokens(command);
    LeadingPrinted(command);
    if command != [] && Reserved(command[0]) {
      ReservedIsSafe(command[0]);
    }
    var n, words := Assignments(command), PrintedAll(command);
    assert Texts(words[..n]) == command[..n] && Texts(words[n..]) == command[n..];
  }

  /**
   The printed text is a simple command with exactly this argument vector if and
   only if the first argument is neither a safe assignment nor a reserved word.
   */
  lemma UnambiguousExactly(command: seq<string>)
    ensures Read(FormatCommand(command)) == Some(Simple([], command)) <==>
              command == [] || !(PlainAssignment(command[0]) || Reserved(command[0]))
  {
    CommandReads(command);
    hide Read, Reserved, PlainAssignment, FormatCommand;
    var n := Assignments(command);
    assert n == 0 ==> command[..n] == [] && command[n..] == command;
    assert n > 0 ==> command[..n] != [];
  }

  /** An argument vector that is printed as an assignment before another command. */
  lemma AssignmentIsMisread()
    ensures Read(FormatCommand(["A=1", "make"])) == Some(Simple(["A=1"], ["make"]))
  {
    hide Read, FormatCommand, Assigns, Reserved;
    var command := ["A=1", "make"];
    CommandReads(command);
    SampleWords();
    assert command[1..] == ["make"] && Assignments(["make"]) == 0;
    assert command[..1] == ["A=1"];
  }

  lemma SampleWords()
    ensures Assigns("A=1") && !Reserved("A=1") && !Assigns("make") && SafeArgument("A=1")
  {
    assert "A=1"[..1] == "A" && "A=1"[1] == '=';
  }
}
