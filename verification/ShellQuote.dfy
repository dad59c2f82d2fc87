/** The quoting of the lab's remote command lines (tools/lab/lab.py, remote_quote and Runner.lab)
    against the shell that reads them: token recognition and quoting as in sections 2.2 and 2.3 of
    the Shell Command Language volume of POSIX.1-2017. */
module ShellQuote {
  import opened Helpers

  // ---------------------------------------------------------------------------------------
  // Python's side
  // ---------------------------------------------------------------------------------------

  predicate IsNameChar(c: char) {
    'A' <= c <= 'Z' || 'a' <= c <= 'z' || '0' <= c <= '9' || c == '_'
  }

  /** The characters shlex.quote leaves bare. */
  predicate IsSafe(c: char) { IsNameChar(c) || c in "@%+=:,./-" }

  predicate AllSafe(s: string) { forall i :: 0 <= i < |s| ==> IsSafe(s[i]) }

  function EscapeSingles(s: string): string {
    if s == "" then ""
    else (if s[0] == '\'' then "'\"'\"'" else [s[0]]) + EscapeSingles(s[1..])
  }

  function ShlexQuote(s: string): (quoted: string) {
    if s == "" then "''" else if AllSafe(s) then s else "'" + EscapeSingles(s) + "'"
  }

  const HOME := "$HOME/"

  function EscapeDoubles(s: string): string {
    if s == "" then ""
    else (if s[0] == '"' then "\\\"" else [s[0]]) + EscapeDoubles(s[1..])
  }

  function QuoteHome(tail: string): string { "\"$HOME/" + EscapeDoubles(tail) + "\"" }

  /** str.partition("="): around the first equals sign. */
  function Partition(s: string): (r: Option<(string, string)>)
    ensures r.Some? ==> s == r.value.0 + "=" + r.value.1
  {
    if s == "" then None
    else if s[0] == '=' then Some(("", s[1..]))
    else
      match Partition(s[1..])
      case None => None
      case Some((a, b)) => Some(([s[0]] + a, b))
  }

  predicate IsLabel(s: string) {
    s != "" && forall i :: 0 <= i < |s| ==> IsNameChar(s[i]) || s[i] == '.' || s[i] == '-'
  }

  /** `^[A-Za-z0-9_.-]+$` with re.match: Python's `$` also accepts one newline at the very end. */
  predicate LabelMatches(prefix: string) {
    IsLabel(prefix) || (prefix != "" && prefix[|prefix| - 1] == '\n' && IsLabel(prefix[..|prefix| - 1]))
  }

  /** How remote_quote reads an argument. */
  datatype Arg = HomePath(tail: string) | Labelled(prefix: string, tail: string) | Plain(text: string)

  function Classify(arg: string): Arg {
    if HOME <= arg then HomePath(arg[|HOME|..])
    else
      match Partition(arg)
      case Some((prefix, rest)) =>
        if HOME <= rest && LabelMatches(prefix) then Labelled(prefix, rest[|HOME|..]) else Plain(arg)
      case None => Plain(arg)
  }

  function RemoteQuote(arg: string): string {
    match Classify(arg)
    case HomePath(tail) => QuoteHome(tail)
    case Labelled(prefix, tail) => prefix + "=" + QuoteHome(tail)
    case Plain(text) => ShlexQuote(text)
  }

  function Join(words: seq<string>): string {
    if words == [] then "" else if |words| == 1 then words[0] else words[0] + " " + Join(words[1..])
  }

  function QuoteAll(args: seq<string>): (r: seq<string>)
    ensures |r| == |args|
  {
    seq(|args|, i requires 0 <= i < |args| => RemoteQuote(args[i]))
  }

  /** A helper's path below the home directory. */
  function HelperTail(script: string): string { "kcptun-lab/scripts/lab-" + script + ".sh" }

  /** The command line Runner.lab hands to ssh. */
  function CommandLine(script: string, args: seq<string>): string {
    "\"$HOME/" + HelperTail(script) + "\" " + Join(QuoteAll(args))
  }

  // ---------------------------------------------------------------------------------------
  // The shell's side
  // ---------------------------------------------------------------------------------------

  datatype Mode = Between | Word | Single | Double

  predicate IsBlank(c: char) { c == ' ' || c == '\t' }

  /** Unquoted, these end the command, expand to something or match file names. */
  predicate IsSpecial(c: char) { c in "|&;<>()$`\n*?[#~{}!" }

  function NameAt(s: string): (name: string)
    ensures |name| <= |s| && s[..|name|] == name
  {
    if s == "" || !IsNameChar(s[0]) then "" else [s[0]] + NameAt(s[1..])
  }

  /** The words of one simple command, from the given mode and with `word` read so far; None for
      a line that is unfinished or means more than its words and $HOME. */
  function Lex(s: string, mode: Mode, word: string, home: string): Option<seq<string>>
    decreases |s|, mode.Between?
  {
    if s == "" then
      match mode
      case Between => Some([])
      case Word => Some([word])
      case _ => None
    else
      match mode
      case Between => if IsBlank(s[0]) then Lex(s[1..], Between, "", home) else Lex(s, Word, "", home)
      case Word =>
        if IsBlank(s[0]) then
          match Lex(s[1..], Between, "", home)
          case Some(rest) => Some([word] + rest)
          case None => None
        else if s[0] == '\'' then Lex(s[1..], Single, word, home)
        else if s[0] == '"' then Lex(s[1..], Double, word, home)
        else if s[0] == '\\' then
          if |s| == 1 then None
          else Lex(s[2..], Word, if s[1] == '\n' then word else word + [s[1]], home)
        else if IsSpecial(s[0]) then None
        else Lex(s[1..], Word, word + [s[0]], home)
      case Single =>
        if s[0] == '\'' then Lex(s[1..], Word, word, home) else Lex(s[1..], Single, word + [s[0]], home)
      case Double =>
        if s[0] == '"' then Lex(s[1..], Word, word, home)
        else if s[0] == '`' then None
        else if s[0] == '$' then
          if NameAt(s[1..]) == "HOME" then Lex(s[5..], Double, word + home, home) else None
        else if s[0] == '\\' && |s| > 1 && IsEscapable(s[1]) then
          Lex(s[2..], Double, if s[1] == '\n' then word else word + [s[1]], home)
        else Lex(s[1..], Double, word + [s[0]], home)
  }

  /** What a backslash inside double quotes still acts on. */
  predicate IsEscapable(c: char) { c in "$`\"\\\n" }

  /** The words of a command line. */
  function ShellWords(line: string, home: string): Option<seq<string>> { Lex(line, Between, "", home) }

  // ---------------------------------------------------------------------------------------
  // What the caller means, and when it arrives
  // ---------------------------------------------------------------------------------------

  function Expand(arg: string, home: string): string {
    match Classify(arg)
    case HomePath(tail) => home + "/" + tail
    case Labelled(prefix, tail) => prefix + "=" + home + "/" + tail
    case Plain(text) => text
  }

  function ExpandAll(args: seq<string>, home: string): (r: seq<string>)
    ensures |r| == |args|
  {
    seq(|args|, i requires 0 <= i < |args| => Expand(args[i], home))
  }

  /** What `[A-Za-z0-9_.-]+` matches, with the newline at the end that Python's `$` lets pass. */
  ghost predicate IsName(name: string) {
    exists core :: NameChars(core) && (name == core || name == core + "\n")
  }

  predicate NameChars(s: string) {
    s != "" && forall i :: 0 <= i < |s| ==>
      'A' <= s[i] <= 'Z' || 'a' <= s[i] <= 'z' || '0' <= s[i] <= '9' || s[i] in "_.-"
  }

  lemma NameMatches(name: string)
    ensures LabelMatches(name) <==> IsName(name)
  {
    if LabelMatches(name) {
      var core := if IsLabel(name) then name else name[..|name| - 1];
      assert NameChars(core) && (name == core || name == core + "\n");
    }
    if core :| NameChars(core) && (name == core || name == core + "\n") {
      assert IsLabel(core);
      if name == core + "\n" { assert name[..|name| - 1] == core; }
    }
  }

  /** A text that starts with `$HOME/` means a path below the home directory. */
  lemma MeansHome(tail: string, home: string)
    ensures Expand("$HOME/" + tail, home) == home + "/" + tail
  {
    assert ("$HOME/" + tail)[|HOME|..] == tail && HOME <= "$HOME/" + tail;
  }

  /** The first equals sign is the one behind a label. */
  lemma {:induction false} PartitionAfterLabel(name: string, rest: string)
    requires '=' !in name
    ensures Partition(name + "=" + rest) == Some((name, rest))
  {
    var s := name + "=" + rest;
    if name != "" {
      PartitionAfterLabel(name[1..], rest);
      assert s[1..] == name[1..] + "=" + rest;
      assert [name[0]] + name[1..] == name;
    } else {
      assert s[1..] == rest;
    }
  }

  /** So does one behind a label and an equals sign. */
  lemma MeansLabelledHome(name: string, tail: string, home: string)
    requires IsName(name)
    ensures Expand(name + "=$HOME/" + tail, home) == name + "=" + home + "/" + tail
  {
    var arg, rest := name + "=$HOME/" + tail, "$HOME/" + tail;
    NameMatches(name);
    assert name != "" && name[0] != '$' && '=' !in name;
    assert arg == name + "=" + rest;
    PartitionAfterLabel(name, rest);
    assert rest[|HOME|..] == tail && HOME <= rest;
    assert arg[0] == name[0] && !(HOME <= arg);
  }

  /** Any other text means itself. */
  lemma MeansItself(arg: string, home: string)
    requires forall tail :: arg != "$HOME/" + tail
    requires forall name, tail :: IsName(name) ==> arg != name + "=$HOME/" + tail
    ensures Expand(arg, home) == arg
  {
    if HOME <= arg { assert arg == "$HOME/" + arg[|HOME|..]; }
    var split := Partition(arg);
    if split.Some? && HOME <= split.value.1 {
      var (name, rest) := split.value;
      NameMatches(name);
      assert rest == "$HOME/" + rest[|HOME|..];
      assert arg == name + "=$HOME/" + rest[|HOME|..];
    }
  }

  /** No `$` or backquote, and no backslash in front of something it would act on. */
  predicate TailOk(tail: string) {
    && '$' !in tail && '`' !in tail
    && forall i :: 0 <= i < |tail| && tail[i] == '\\' ==> i + 1 < |tail| && !IsEscapable(tail[i + 1])
  }

  predicate GoodArg(arg: string) {
    match Classify(arg)
    case HomePath(tail) => TailOk(tail)
    case Labelled(prefix, tail) => '\n' !in prefix && TailOk(tail)
    case Plain(text) => true
  }

  /** A safe character means nothing to the shell. */
  lemma SafeIsPlain(c: char)
    requires IsSafe(c)
    ensures !IsBlank(c) && !IsSpecial(c) && c != '\'' && c != '"' && c != '\\'
  {
  }

  /** A safe character outside quotes stands for itself. */
  lemma SafeStep(c: char, rest: string, word: string, home: string)
    requires IsSafe(c)
    ensures Lex([c] + rest, Word, word, home) == Lex(rest, Word, word + [c], home)
  {
    SafeIsPlain(c);
    assert ([c] + rest)[1..] == rest;
  }

  lemma {:induction false} SafeRun(s: string, rest: string, word: string, home: string)
    requires AllSafe(s)
    ensures Lex(s + rest, Word, word, home) == Lex(rest, Word, word + s, home)
  {
    if s == "" {
      assert s + rest == rest && word + s == word;
    } else {
      SafeRun(s[1..], rest, word + [s[0]], home);
      SafeStep(s[0], s[1..] + rest, word, home);
      assert s + rest == [s[0]] + (s[1..] + rest);
      assert word + [s[0]] + s[1..] == word + s;
    }
  }

  lemma {:induction false} SingleRun(s: string, rest: string, word: string, home: string)
    ensures Lex(EscapeSingles(s) + "'" + rest, Single, word, home) == Lex(rest, Word, word + s, home)
  {
    var line := EscapeSingles(s) + "'" + rest;
    if s == "" {
      assert line[1..] == rest && word + s == word;
    } else {
      var tail := EscapeSingles(s[1..]) + "'" + rest;
      SingleRun(s[1..], rest, word + [s[0]], home);
      assert word + [s[0]] + s[1..] == word + s;
      if s[0] == '\'' {
        assert line == "'\"'\"'" + tail;
        EscapedQuote(tail, word, home);
      } else {
        assert line[1..] == tail;
      }
    }
  }

  /** `'"'"'` inside single quotes is one single quote. */
  lemma EscapedQuote(tail: string, word: string, home: string)
    ensures Lex("'\"'\"'" + tail, Single, word, home) == Lex(tail, Single, word + "'", home)
  {
    var line := "'\"'\"'" + tail;
    assert line[1..][1..] == "'\"'" + tail;
    assert line[1..][1..][1..] == "\"'" + tail;
    assert line[1..][1..][1..][1..] == "'" + tail;
    assert line[1..][1..][1..][1..][1..] == tail;
    assert Lex(line, Single, word, home) == Lex(line[1..], Word, word, home);
    assert Lex(line[1..], Word, word, home) == Lex(line[1..][1..], Double, word, home);
    assert Lex(line[1..][1..], Double, word, home) == Lex(line[1..][1..][1..], Double, word + "'", home);
    assert Lex(line[1..][1..][1..], Double, word + "'", home) == Lex("'" + tail, Word, word + "'", home);
  }

  lemma {:induction false} DoubleRun(tail: string, rest: string, word: string, home: string)
    requires TailOk(tail)
    ensures Lex(EscapeDoubles(tail) + "\"" + rest, Double, word, home) == Lex(rest, Word, word + tail, home)
  {
    var line := EscapeDoubles(tail) + "\"" + rest;
    if tail == "" {
      assert line[1..] == rest && word + tail == word;
    } else {
      var more := EscapeDoubles(tail[1..]) + "\"" + rest;
      TailOkRest(tail);
      DoubleRun(tail[1..], rest, word + [tail[0]], home);
      assert word + [tail[0]] + tail[1..] == word + tail;
      if tail[0] == '"' {
        assert line == "\\\"" + more && line[2..] == more;
      } else {
        assert line == [tail[0]] + more && line[1..] == more;
        if tail[0] == '\\' { assert !IsEscapable(tail[1]) && more[0] == tail[1]; }
      }
    }
  }

  lemma TailOkRest(tail: string)
    requires TailOk(tail) && tail != ""
    ensures TailOk(tail[1..])
  {
    var rest := tail[1..];
    forall i | 0 <= i < |rest| && rest[i] == '\\' ensures i + 1 < |rest| && !IsEscapable(rest[i + 1]) {
      assert tail[i + 1] == '\\';
    }
  }

  /** A quoted `$HOME/` word opens with the home directory. */
  lemma HomeOpens(tail: string, rest: string, word: string, home: string)
    ensures Lex(QuoteHome(tail) + rest, Word, word, home)
         == Lex(EscapeDoubles(tail) + "\"" + rest, Double, word + home + "/", home)
  {
    var line := QuoteHome(tail) + rest;
    var inner := EscapeDoubles(tail) + "\"" + rest;
    assert line[1..] == "$HOME/" + inner;
    assert line[1..][1..] == "HOME/" + inner;
    NameIsHome(inner);
    assert line[1..][5..] == "/" + inner;
    assert ("/" + inner)[1..] == inner;
    assert Lex("/" + inner, Double, word + home, home) == Lex(inner, Double, word + home + "/", home);
  }

  lemma NameIsHome(inner: string)
    ensures NameAt("HOME/" + inner) == "HOME"
  {
    var s := "HOME/" + inner;
    assert s[1..][1..][1..][1..] == "/" + inner;
    assert NameAt(s[1..][1..][1..][1..]) == "";
    assert NameAt(s[1..][1..][1..]) == "E";
    assert NameAt(s[1..][1..]) == "ME";
  }

  /** `$HOME/` in front of a tail is one word from any point of a word on. */
  lemma HomeIsOneWord(tail: string, rest: string, word: string, home: string)
    requires TailOk(tail)
    ensures Lex(QuoteHome(tail) + rest, Word, word, home) == Lex(rest, Word, word + (home + "/" + tail), home)
  {
    HomeOpens(tail, rest, word, home);
    DoubleRun(tail, rest, word + home + "/", home);
    assert word + home + "/" + tail == word + (home + "/" + tail);
  }

  lemma SafeLabel(prefix: string)
    requires IsLabel(prefix)
    ensures AllSafe(prefix) && AllSafe(prefix + "=") && '\n' !in prefix
  {}

  lemma LabelledIsOneWord(prefix: string, tail: string, rest: string, home: string)
    requires LabelMatches(prefix) && '\n' !in prefix && TailOk(tail)
    ensures Lex(prefix + "=" + QuoteHome(tail) + rest, Word, "", home)
         == Lex(rest, Word, prefix + "=" + home + "/" + tail, home)
  {
    var head := prefix + "=";
    SafeLabel(prefix);
    SafeRun(head, QuoteHome(tail) + rest, "", home);
    assert prefix + "=" + QuoteHome(tail) + rest == head + (QuoteHome(tail) + rest);
    HomeIsOneWord(tail, rest, "" + head, home);
    assert "" + head + (home + "/" + tail) == prefix + "=" + home + "/" + tail;
  }

  /** Every good argument is one word, with the value the caller means, whatever follows it. */
  lemma ArgIsOneWord(arg: string, rest: string, home: string)
    requires GoodArg(arg)
    ensures Lex(RemoteQuote(arg) + rest, Word, "", home) == Lex(rest, Word, Expand(arg, home), home)
  {
    match Classify(arg)
    case HomePath(tail) =>
      HomeIsOneWord(tail, rest, "", home);
      assert "" + (home + "/" + tail) == Expand(arg, home);
    case Labelled(prefix, tail) => LabelledIsOneWord(prefix, tail, rest, home);
    case Plain(text) => PlainIsOneWord(text, rest, home);
  }

  lemma EmptyIsOneWord(rest: string, home: string)
    ensures Lex("''" + rest, Word, "", home) == Lex(rest, Word, "", home)
  {
    var line := "''" + rest;
    assert line[1..] == "'" + rest && line[1..][1..] == rest;
  }

  lemma QuotedIsOneWord(text: string, rest: string, home: string)
    ensures Lex("'" + EscapeSingles(text) + "'" + rest, Word, "", home) == Lex(rest, Word, text, home)
  {
    var line := "'" + EscapeSingles(text) + "'" + rest;
    assert line[1..] == EscapeSingles(text) + "'" + rest;
    SingleRun(text, rest, "", home);
    assert "" + text == text;
  }

  lemma PlainIsOneWord(text: string, rest: string, home: string)
    ensures Lex(ShlexQuote(text) + rest, Word, "", home) == Lex(rest, Word, text, home)
  {
    if text == "" {
      EmptyIsOneWord(rest, home);
    } else if AllSafe(text) {
      SafeRun(text, rest, "", home);
      assert "" + text == text;
    } else {
      QuotedIsOneWord(text, rest, home);
    }
  }

  /** A quoted argument never starts with a blank. */
  lemma QuoteStartsAWord(arg: string, rest: string, home: string)
    ensures RemoteQuote(arg) != "" && !IsBlank(RemoteQuote(arg)[0])
    ensures ShellWords(RemoteQuote(arg) + rest, home) == Lex(RemoteQuote(arg) + rest, Word, "", home)
  {
    match Classify(arg)
    case HomePath(tail) =>
    case Labelled(prefix, tail) => assert IsNameChar(prefix[0]) || prefix[0] == '.' || prefix[0] == '-';
    case Plain(text) => assert AllSafe(text) && text != "" ==> IsSafe(text[0]);
  }

  /** A blank ends a word. */
  lemma NextWord(more: string, words: seq<string>, word: string, home: string)
    requires ShellWords(more, home) == Some(words)
    ensures Lex(" " + more, Word, word, home) == Some([word] + words)
  {
    assert (" " + more)[1..] == more;
  }

  lemma OneMoreWord(arg: string, more: string, words: seq<string>, home: string)
    requires GoodArg(arg) && ShellWords(more, home) == Some(words)
    ensures ShellWords(RemoteQuote(arg) + (" " + more), home) == Some([Expand(arg, home)] + words)
  {
    QuoteStartsAWord(arg, " " + more, home);
    ArgIsOneWord(arg, " " + more, home);
    NextWord(more, words, Expand(arg, home), home);
  }

  lemma OnlyWord(arg: string, home: string)
    requires GoodArg(arg)
    ensures ShellWords(RemoteQuote(arg), home) == Some([Expand(arg, home)])
  {
    assert RemoteQuote(arg) + "" == RemoteQuote(arg);
    QuoteStartsAWord(arg, "", home);
    ArgIsOneWord(arg, "", home);
  }

  lemma JoinMore(args: seq<string>)
    requires |args| > 1
    ensures Join(QuoteAll(args)) == RemoteQuote(args[0]) + (" " + Join(QuoteAll(args[1..])))
  {
    assert QuoteAll(args)[1..] == QuoteAll(args[1..]);
  }

  lemma {:induction false} JoinedWords(args: seq<string>, home: string)
    requires forall i :: 0 <= i < |args| ==> GoodArg(args[i])
    ensures ShellWords(Join(QuoteAll(args)), home) == Some(ExpandAll(args, home))
  {
    if |args| == 1 {
      OnlyWord(args[0], home);
      assert ExpandAll(args, home) == [Expand(args[0], home)];
    } else if |args| > 1 {
      JoinedWords(args[1..], home);
      JoinMore(args);
      OneMoreWord(args[0], Join(QuoteAll(args[1..])), ExpandAll(args[1..], home), home);
      assert ExpandAll(args, home) == [Expand(args[0], home)] + ExpandAll(args[1..], home);
    }
  }

  lemma CommandReads(script: string, args: seq<string>, home: string)
    requires TailOk(script) && '"' !in script
    requires forall i :: 0 <= i < |args| ==> GoodArg(args[i])
    ensures ShellWords(CommandLine(script, args), home)
         == Some([home + "/" + HelperTail(script)] + ExpandAll(args, home))
  {
    JoinedWords(args, home);
    ScriptTailOk(script);
    PathFirst(HelperTail(script), Join(QuoteAll(args)), ExpandAll(args, home), home);
  }

  lemma HelperPath(script: string, home: string)
    ensures home + "/" + HelperTail(script) == home + "/kcptun-lab/scripts/lab-" + script + ".sh"
  {
  }

  /** What the remote shell runs is the helper, with exactly the arguments that were meant. */
  lemma CommandRoundTrip(script: string, args: seq<string>, home: string)
    requires TailOk(script) && '"' !in script
    requires forall i :: 0 <= i < |args| ==> GoodArg(args[i])
    ensures ShellWords(CommandLine(script, args), home)
         == Some([home + "/kcptun-lab/scripts/lab-" + script + ".sh"] + ExpandAll(args, home))
  {
    CommandReads(script, args, home);
    HelperPath(script, home);
  }

  lemma PathFirst(tail: string, more: string, words: seq<string>, home: string)
    requires TailOk(tail) && '"' !in tail && ShellWords(more, home) == Some(words)
    ensures ShellWords("\"$HOME/" + tail + "\" " + more, home) == Some([home + "/" + tail] + words)
  {
    var rest := " " + more;
    NothingToEscape(tail);
    assert "\"$HOME/" + tail + "\" " + more == QuoteHome(tail) + rest;
    assert ShellWords(QuoteHome(tail) + rest, home) == Lex(QuoteHome(tail) + rest, Word, "", home);
    HomeOpens(tail, rest, "", home);
    assert "" + home + "/" == home + "/";
    DoubleRun(tail, rest, home + "/", home);
    NextWord(more, words, home + "/" + tail, home);
  }

  lemma ScriptTailOk(script: string)
    requires TailOk(script) && '"' !in script
    ensures TailOk(HelperTail(script)) && '"' !in HelperTail(script)
  {
    var head := "kcptun-lab/scripts/lab-";
    var tail := head + script + ".sh";
    forall i | 0 <= i < |tail|
      ensures tail[i] !in "$`\"" && (tail[i] == '\\' ==> i + 1 < |tail| && !IsEscapable(tail[i + 1]))
    {
      if |head| <= i < |head| + |script| {
        assert tail[i] == script[i - |head|] && script[i - |head|] in script;
      } else if i < |head| {
        assert tail[i] == head[i];
      } else {
        assert tail[i] == ".sh"[i - |head| - |script|];
      }
    }
  }

  lemma {:induction false} NothingToEscape(s: string)
    requires '"' !in s
    ensures EscapeDoubles(s) == s
  {
    if s != "" { NothingToEscape(s[1..]); }
  }

  // ---------------------------------------------------------------------------------------
  // The condition is the right one
  // ---------------------------------------------------------------------------------------

  /** The rest of the line when the tail still to come is s. */
  function Rest(s: string): string { EscapeDoubles(s) + "\"" }

  lemma RestOfPlain(s: string)
    requires s != "" && s[0] != '"'
    ensures |Rest(s)| >= 2 && Rest(s)[0] == s[0] && Rest(s)[1..] == Rest(s[1..])
  {
  }

  lemma RestOfQuote(s: string)
    requires s != "" && s[0] == '"'
    ensures |Rest(s)| >= 2 && Rest(s)[0] == '\\' && Rest(s)[1] == '"'
    ensures Rest(s)[1..][1..] == Rest(s[1..]) && Rest(s)[2..] == Rest(s[1..])
  {
    assert Rest(s) == "\\\"" + Rest(s[1..]);
  }

  /** A backslash and what comes after it. */
  lemma RestOfBackslash(s: string)
    requires s != "" && s[0] == '\\'
    ensures |Rest(s)| >= 2
    ensures |s| == 1 ==> Rest(s) == "\\\""
    ensures |s| > 1 && s[1] == '"' ==>
              Rest(s)[1] == '\\' && |Rest(s)| >= 3 && Rest(s)[2] == '"' && Rest(s)[2..][1..] == Rest(s[2..])
    ensures |s| > 1 && s[1] != '"' ==> Rest(s)[1] == s[1] && Rest(s)[2..] == Rest(s[2..])
  {
    RestOfPlain(s);
    if |s| == 1 {
      assert Rest(s[1..]) == "\"";
    } else if s[1] == '"' {
      RestOfQuote(s[1..]);
      assert Rest(s)[2..] == Rest(s)[1..][1..];
    } else {
      RestOfPlain(s[1..]);
      assert Rest(s)[2..] == Rest(s)[1..][1..];
    }
  }

  lemma {:induction false} NameInRest(s: string)
    ensures NameAt(Rest(s)) == NameAt(s)
  {
    if s != "" {
      if s[0] == '"' {
        RestOfQuote(s);
      } else {
        RestOfPlain(s);
        NameInRest(s[1..]);
      }
    }
  }

  lemma HomeInRest(s: string)
    requires s != "" && s[0] == '$' && NameAt(Rest(s)[1..]) == "HOME"
    ensures |s| >= 5 && Rest(s)[5..] == Rest(s[5..])
  {
    RestOfPlain(s);
    NameInRest(s[1..]);
    var t := s[1..];
    assert t[..4] == "HOME";
    assert t[0] == 'H' && t[1] == 'O' && t[2] == 'M' && t[3] == 'E';
    RestOfPlain(t);
    RestOfPlain(t[1..]);
    RestOfPlain(t[1..][1..]);
    RestOfPlain(t[1..][1..][1..]);
    assert Rest(s)[5..] == Rest(s)[1..][1..][1..][1..][1..];
    assert s[5..] == t[1..][1..][1..][1..];
  }

  /** A word that is being read only grows. */
  lemma {:induction false} LexExtends(s: string, mode: Mode, word: string, home: string)
    requires !mode.Between?
    ensures var r := Lex(s, mode, word, home); r.Some? ==> r.value != [] && word <= r.value[0]
    decreases |s|
  {
    if s != "" {
      match mode
      case Word =>
        if s[0] == '\'' { LexExtends(s[1..], Single, word, home); }
        else if s[0] == '"' { LexExtends(s[1..], Double, word, home); }
        else if s[0] == '\\' && |s| > 1 {
          LexExtends(s[2..], Word, if s[1] == '\n' then word else word + [s[1]], home);
        } else { LexExtends(s[1..], Word, word + [s[0]], home); }
      case Single =>
        LexExtends(s[1..], Word, word, home);
        LexExtends(s[1..], Single, word + [s[0]], home);
      case Double =>
        LexExtends(s[1..], Word, word, home);
        LexExtends(s[1..], Double, word + [s[0]], home);
        if |s| > 1 { LexExtends(s[2..], Double, if s[1] == '\n' then word else word + [s[1]], home); }
        if s[0] == '$' && NameAt(s[1..]) == "HOME" { LexExtends(s[5..], Double, word + home, home); }
    }
  }

  /** A word that already differs from the target never becomes it. */
  lemma NeverBecomes(s: string, mode: Mode, word: string, home: string, target: string)
    requires !mode.Between? && !(word <= target)
    ensures Lex(s, mode, word, home) != Some([target])
  {
    LexExtends(s, mode, word, home);
  }

  lemma Shift(front: string, s: string, k: nat)
    requires k <= |s|
    ensures front + s == (front + s[..k]) + s[k..]
  {
  }

  /** Expansions add nothing to the word. */
  predicate NoGain(s: string, home: string) { home == "" || '$' !in s }

  /** Inside single quotes, with the quote's own place in the target not yet passed: what is read
    * holds no single quote, so that place is never passed. */
  lemma {:induction false} BehindSingle(front: string, s: string, word: string, q: nat, home: string)
    requires q < |front| && front[q] == '\'' && |word| <= q && NoGain(s, home)
    ensures Lex(Rest(s), Single, word, home) != Some([front + s])
    decreases |s|
  {
    if s == "" {
      assert Rest(s) == "\"" && Rest(s)[1..] == "";
    } else {
      Shift(front, s, 1);
      if s[0] == '\'' {
        RestOfPlain(s);
        BehindWord(front + s[..1], s[1..], word, home);
      } else {
        var read := word + if s[0] == '"' then "\\\"" else [s[0]];
        SingleStep(s, word, home);
        if |read| <= q {
          BehindSingle(front + s[..1], s[1..], read, q, home);
        } else {
          assert (front + s)[q] == '\'' && read[q] != '\'';
          NeverBecomes(Rest(s[1..]), Single, read, home, front + s);
        }
      }
    }
  }

  lemma SingleStep(s: string, word: string, home: string)
    requires s != "" && s[0] != '\''
    ensures Lex(Rest(s), Single, word, home)
         == Lex(Rest(s[1..]), Single, word + if s[0] == '"' then "\\\"" else [s[0]], home)
  {
    if s[0] == '"' {
      RestOfQuote(s);
      assert word + ['\\'] + ['"'] == word + "\\\"";
    } else {
      RestOfPlain(s);
    }
  }

  /** A blank ends a word that is too short. */
  lemma EndedShort(line: string, word: string, home: string, target: string)
    requires line != "" && IsBlank(line[0]) && |word| < |target|
    ensures Lex(line, Word, word, home) != Some([target])
  {
    var r := Lex(line, Word, word, home);
    if r.Some? { assert r.value[0] == word; }
  }

  /** Outside quotes, behind the target: every character read adds at most one. */
  lemma {:induction false} BehindWord(front: string, s: string, word: string, home: string)
    requires |word| < |front| && NoGain(s, home)
    ensures Lex(Rest(s), Word, word, home) != Some([front + s])
    decreases |s|
  {
    if s == "" {
      assert Rest(s) == "\"" && Rest(s)[1..] == "";
    } else if s[0] == '\\' {
      BackslashInWord(front, s, word, home);
    } else if s[0] == '"' {
      RestOfQuote(s);
      Shift(front, s, 1);
      BehindWord(front + s[..1], s[1..], word + ['"'], home);
    } else {
      RestOfPlain(s);
      Shift(front, s, 1);
      if s[0] == '\'' {
        BehindSingle(front + s[..1], s[1..], word, |front|, home);
      } else if IsBlank(s[0]) {
        EndedShort(Rest(s), word, home, front + s);
      } else if !IsSpecial(s[0]) {
        BehindWord(front + s[..1], s[1..], word + [s[0]], home);
      }
    }
  }

  lemma {:induction false} BackslashInWord(front: string, s: string, word: string, home: string)
    requires |word| < |front| && NoGain(s, home) && s != "" && s[0] == '\\'
    ensures Lex(Rest(s), Word, word, home) != Some([front + s])
    decreases |s|, 0
  {
    RestOfBackslash(s);
    if |s| == 1 {
      assert Rest(s)[2..] == "";
      assert |word + ['"']| < |front + s|;
    } else {
      Shift(front, s, 2);
      if s[1] == '"' {
        BehindDouble(front + s[..2], s[2..], word + ['\\'], home);
      } else {
        BehindWord(front + s[..2], s[2..], if s[1] == '\n' then word else word + [s[1]], home);
      }
    }
  }

  /** Inside double quotes, behind the target. */
  lemma {:induction false} BehindDouble(front: string, s: string, word: string, home: string)
    requires |word| < |front| && NoGain(s, home)
    ensures Lex(Rest(s), Double, word, home) != Some([front + s])
    decreases |s|
  {
    if s == "" {
      assert Rest(s) == "\"" && Rest(s)[1..] == "";
    } else if s[0] == '\\' {
      BackslashInDouble(front, s, word, home);
    } else if s[0] == '$' {
      HomeInDouble(front, s, word, home);
    } else if s[0] == '"' {
      RestOfQuote(s);
      Shift(front, s, 1);
      BehindDouble(front + s[..1], s[1..], word + ['"'], home);
    } else {
      RestOfPlain(s);
      Shift(front, s, 1);
      if s[0] != '`' { BehindDouble(front + s[..1], s[1..], word + [s[0]], home); }
    }
  }

  /** An active backslash loses at least one character, even where nothing was lost before. */
  lemma {:induction false} BackslashInDouble(front: string, s: string, word: string, home: string)
    requires s != "" && s[0] == '\\' && NoGain(s, home)
    requires |word| < |front| || (|word| == |front| && (|s| == 1 || IsEscapable(s[1])))
    ensures Lex(Rest(s), Double, word, home) != Some([front + s])
    decreases |s|, 0
  {
    RestOfBackslash(s);
    if |s| == 1 {
      assert Rest(s)[2..] == "";
    } else {
      Shift(front, s, 2);
      if s[1] == '"' {
        BehindWord(front + s[..2], s[2..], word + ['\\'], home);
      } else if IsEscapable(s[1]) {
        BehindDouble(front + s[..2], s[2..], if s[1] == '\n' then word else word + [s[1]], home);
      } else {
        RestOfPlain(s);
        Shift(front, s, 1);
        BehindDouble(front + s[..1], s[1..], word + ['\\'], home);
      }
    }
  }

  /** A dollar is refused, or loses its five characters. */
  lemma {:induction false} HomeInDouble(front: string, s: string, word: string, home: string)
    requires s != "" && s[0] == '$' && NoGain(s, home) && |word| <= |front|
    ensures Lex(Rest(s), Double, word, home) != Some([front + s])
    decreases |s|, 0
  {
    RestOfPlain(s);
    if NameAt(Rest(s)[1..]) == "HOME" {
      HomeInRest(s);
      Shift(front, s, 5);
      assert word + home == word;
      BehindDouble(front + s[..5], s[5..], word, home);
    }
  }

  /** From the opening quote on: the first character that breaks the condition is refused, or puts the
    * word behind for good. */
  lemma {:induction false} FirstLapse(front: string, s: string, home: string)
    requires !TailOk(s) && NoGain(s, home)
    ensures Lex(Rest(s), Double, front, home) != Some([front + s])
    decreases |s|
  {
    if s[0] == '$' {
      HomeInDouble(front, s, front, home);
    } else if s[0] == '\\' && (|s| == 1 || IsEscapable(s[1])) {
      BackslashInDouble(front, s, front, home);
    } else {
      if s[0] == '"' { RestOfQuote(s); } else { RestOfPlain(s); }
      if s[0] == '\\' { RestOfBackslash(s); }
      if s[0] != '`' {
        Shift(front, s, 1);
        if TailOk(s[1..]) { TailOkMore(s); }
        assert front + s[..1] == front + [s[0]];
        FirstLapse(front + s[..1], s[1..], home);
      }
    }
  }

  lemma TailOkMore(tail: string)
    requires tail != "" && TailOk(tail[1..]) && tail[0] != '$' && tail[0] != '`'
    requires tail[0] == '\\' ==> |tail| > 1 && !IsEscapable(tail[1])
    ensures TailOk(tail)
  {
    forall i | 0 <= i < |tail| && tail[i] == '\\' ensures i + 1 < |tail| && !IsEscapable(tail[i + 1]) {
      if i > 0 { assert tail[1..][i - 1] == '\\'; }
    }
    assert tail == [tail[0]] + tail[1..];
  }

  /** The text after `$HOME/`, when there is one. */
  function HomeTail(arg: string): string {
    match Classify(arg)
    case Plain(_) => ""
    case other => other.tail
  }

  /** An argument arrives as meant, whatever the home directory, if and only if it is good. */
  lemma ArrivesExactlyWhenGood(arg: string)
    ensures GoodArg(arg) <==> forall home :: ShellWords(RemoteQuote(arg), home) == Some([Expand(arg, home)])
  {
    if GoodArg(arg) {
      forall home ensures ShellWords(RemoteQuote(arg), home) == Some([Expand(arg, home)]) {
        OnlyWord(arg, home);
      }
    } else {
      BadArgIsLost(arg, "");
    }
  }

  /** A bad tail never makes the word that is meant. */
  lemma BadTailIsLost(tail: string, head: string, home: string)
    requires !TailOk(tail) && NoGain(tail, home)
    ensures Lex(QuoteHome(tail), Word, head, home) != Some([head + home + "/" + tail])
  {
    HomeOpens(tail, "", head, home);
    assert QuoteHome(tail) + "" == QuoteHome(tail);
    assert EscapeDoubles(tail) + "\"" + "" == Rest(tail);
    FirstLapse(head + home + "/", tail, home);
  }

  lemma BadLabelledIsLost(prefix: string, tail: string, home: string)
    requires LabelMatches(prefix) && '\n' !in prefix && !TailOk(tail) && NoGain(tail, home)
    ensures Lex(prefix + "=" + QuoteHome(tail), Word, "", home) != Some([prefix + "=" + home + "/" + tail])
  {
    var head := prefix + "=";
    SafeLabel(prefix);
    SafeRun(head, QuoteHome(tail), "", home);
    BadTailIsLost(tail, head, home);
    assert "" + head == head;
  }

  /** A bad argument is lost under an empty home directory, and without a `$` in its tail under every one. */
  lemma BadArgIsLost(arg: string, home: string)
    requires !GoodArg(arg) && NoGain(HomeTail(arg), home)
    ensures ShellWords(RemoteQuote(arg), home) != Some([Expand(arg, home)])
  {
    assert RemoteQuote(arg) + "" == RemoteQuote(arg);
    QuoteStartsAWord(arg, "", home);
    match Classify(arg)
    case HomePath(tail) =>
      BadTailIsLost(tail, "", home);
      assert Expand(arg, home) == "" + home + "/" + tail;
    case Labelled(prefix, tail) =>
      if '\n' in prefix {
        NewlineIsLost(prefix, tail, home);
      } else {
        BadLabelledIsLost(prefix, tail, home);
      }
  }

  /** So is every path with a backslash before a double quote: the escaped quote closes the string. */
  lemma EscapedQuoteIsLost(tail: string, i: nat, home: string)
    requires i + 1 < |tail| && tail[i] == '\\' && tail[i + 1] == '"' && NoGain(tail, home)
    ensures ShellWords(RemoteQuote(HOME + tail), home) != Some([home + "/" + tail])
  {
    var arg := HOME + tail;
    assert Classify(arg) == HomePath(tail) by { assert arg[|HOME|..] == tail && HOME <= arg; }
    assert IsEscapable(tail[i + 1]);
    BadArgIsLost(arg, home);
  }

  lemma NewlineIsLost(prefix: string, tail: string, home: string)
    requires LabelMatches(prefix) && '\n' in prefix
    ensures Lex(prefix + "=" + QuoteHome(tail), Word, "", home).None?
  {
    if IsLabel(prefix) { SafeLabel(prefix); }
    var core := prefix[..|prefix| - 1];
    assert prefix == core + "\n";
    SafeLabel(core);
    assert prefix + "=" + QuoteHome(tail) == core + ("\n" + ("=" + QuoteHome(tail)));
    NewlineStops(core, "=" + QuoteHome(tail), home);
  }

  lemma NewlineStops(core: string, rest: string, home: string)
    requires AllSafe(core)
    ensures Lex(core + ("\n" + rest), Word, "", home).None?
  {
    SafeRun(core, "\n" + rest, "", home);
  }
}
