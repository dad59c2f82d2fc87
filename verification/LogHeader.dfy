/** The normalisation of the CLI differential harness
    (crates/interop-tests/src/clidiff.rs, normalise): Go's `log` header is taken off every line
    and its source position kept aside. A line is a sequence of characters; the header the code
    matches byte by byte is ASCII, so counting characters instead of bytes changes nothing. */
module LogHeader {
  import opened Helpers

  type Line = string

  // ---------------------------------------------------------------------------------------
  // String primitives
  // ---------------------------------------------------------------------------------------

  predicate IsDigit(c: char) { '0' <= c <= '9' }

  predicate AllDigits(s: string) { forall i :: 0 <= i < |s| ==> IsDigit(s[i]) }

  /** Rust's `split_once(": ")`: around the first occurrence. */
  function SplitOnce(s: string): (r: Option<(string, string)>)
    ensures r.Some? ==> s == r.value.0 + ": " + r.value.1
  {
    if |s| < 2 then None
    else if s[..2] == ": " then Some(("", s[2..]))
    else
      match SplitOnce(s[1..])
      case None => None
      case Some((a, b)) => Some(([s[0]] + a, b))
  }

  /** Rust's `rsplit_once(':')`: around the last occurrence. */
  function RSplitOnce(s: string): (r: Option<(string, string)>)
    ensures r.Some? ==> s == r.value.0 + ":" + r.value.1
  {
    if s == "" then None
    else if s[|s| - 1] == ':' then Some((s[..|s| - 1], ""))
    else
      match RSplitOnce(s[..|s| - 1])
      case None => None
      case Some((a, b)) => Some((a, b + [s[|s| - 1]]))
  }

  predicate EndsWith(s: string, suffix: string) {
    |suffix| <= |s| && s[|s| - |suffix|..] == suffix
  }

  // ---------------------------------------------------------------------------------------
  // strip_log_header
  // ---------------------------------------------------------------------------------------

  const SHAPE := "dddd/dd/dd dd:dd:dd "

  predicate MatchesShape(c: char, want: char) { if want == 'd' then IsDigit(c) else c == want }

  predicate IsTimestamp(s: string) {
    |s| == |SHAPE| && forall i :: 0 <= i < |SHAPE| ==> MatchesShape(s[i], SHAPE[i])
  }

  method StripTimestamp(line: Line) returns (rest: Option<Line>)
    ensures rest == Untimed(line)
  {
    if |line| < |SHAPE| { return None; }
    for i := 0 to |SHAPE|
      invariant forall k :: 0 <= k < i ==> MatchesShape(line[k], SHAPE[k])
    {
      if !MatchesShape(line[i], SHAPE[i]) {
        assert line[..|SHAPE|][i] == line[i];
        return None;
      }
    }
    return Some(line[|SHAPE|..]);
  }

  function Untimed(line: Line): Option<Line> {
    if |SHAPE| <= |line| && IsTimestamp(line[..|SHAPE|]) then Some(line[|SHAPE|..]) else None
  }

  predicate IsFileLine(token: string) {
    match RSplitOnce(token)
    case None => false
    case Some((file, line)) =>
      && ' ' !in file
      && (EndsWith(file, ".go") || EndsWith(file, ".rs"))
      && line != "" && AllDigits(line)
  }

  /** The shape, read out: four digits, two and two between slashes, a space, three times two digits
      between colons, and a space. */
  lemma TimestampExactly(s: string)
    ensures IsTimestamp(s) <==>
            && |s| == 20 && s[4] == '/' && s[7] == '/' && s[10] == ' ' && s[13] == ':' && s[16] == ':' && s[19] == ' '
            && forall i :: 0 <= i < 20 && i !in {4, 7, 10, 13, 16, 19} ==> '0' <= s[i] <= '9'
  {
    assert SHAPE == "dddd/dd/dd dd:dd:dd ";
    if IsTimestamp(s) {
      forall i | 0 <= i < 20 && i !in {4, 7, 10, 13, 16, 19} ensures '0' <= s[i] <= '9' {
        assert SHAPE[i] == 'd' && MatchesShape(s[i], SHAPE[i]);
      }
      assert MatchesShape(s[4], SHAPE[4]) && MatchesShape(s[7], SHAPE[7]) && MatchesShape(s[10], SHAPE[10]);
      assert MatchesShape(s[13], SHAPE[13]) && MatchesShape(s[16], SHAPE[16]) && MatchesShape(s[19], SHAPE[19]);
    }
  }

  /** A file name of Go or Rust without a space, a colon, and a line number. */
  ghost predicate IsPosition(token: string, file: string, line: string) {
    && token == file + ":" + line
    && ' ' !in file && (EndsWith(file, ".go") || EndsWith(file, ".rs"))
    && line != "" && forall i :: 0 <= i < |line| ==> '0' <= line[i] <= '9'
  }

  /** The last colon is the one before the digits. */
  lemma {:induction false} RSplitBeforeDigits(file: string, line: string)
    requires ':' !in line
    ensures RSplitOnce(file + ":" + line) == Some((file, line))
  {
    var s := file + ":" + line;
    if line == "" {
      assert s[..|s| - 1] == file;
    } else {
      var front := line[..|line| - 1];
      RSplitBeforeDigits(file, front);
      assert s[..|s| - 1] == file + ":" + front;
      assert front + [line[|line| - 1]] == line;
    }
  }

  /** A token is taken for a source position if and only if it can be read as one in some way. */
  lemma FileLineExactly(token: string)
    ensures IsFileLine(token) <==> exists file, line :: IsPosition(token, file, line)
  {
    if IsFileLine(token) {
      var (file, line) := RSplitOnce(token).value;
      assert IsPosition(token, file, line);
    }
    if file, line :| IsPosition(token, file, line) { RSplitBeforeDigits(file, line); }
  }

  function StripHeader(line: Line): (Line, Option<string>) {
    match Untimed(line)
    case None => (line, None)
    case Some(rest) =>
      match SplitOnce(rest)
      case Some((token, body)) => if IsFileLine(token) then (body, Some(token)) else (rest, None)
      case None => (rest, None)
  }

  /** What Go's logger prints: a timestamp, the source position when the build has one, the text. */
  function Format(stamp: string, location: Option<string>, body: Line): Line {
    stamp + (if location.Some? then location.value + ": " else "") + body
  }

  /** A text that starts like a source position of its own. */
  ghost predicate LooksLocated(body: Line) {
    exists token, rest :: IsFileLine(token) && body == token + ": " + rest
  }

  /** The first ": " after a text without spaces is the one right behind it. */
  lemma {:induction false} SplitAfterToken(token: string, body: string)
    requires ' ' !in token
    ensures SplitOnce(token + ": " + body) == Some((token, body))
  {
    var s := token + ": " + body;
    if token != "" {
      SplitAfterToken(token[1..], body);
      assert s[1..] == token[1..] + ": " + body;
      assert s[1] != ' ';
      assert [token[0]] + token[1..] == token;
    }
  }

  /** The header comes off exactly as it went on if and only if its source position is one, or
      there is none and the text does not start like one. */
  lemma StripUndoesFormat(stamp: string, location: Option<string>, body: Line)
    requires IsTimestamp(stamp)
    ensures StripHeader(Format(stamp, location, body)) == (body, location)
       <==> if location.Some? then IsFileLine(location.value) else !LooksLocated(body)
  {
    var line := Format(stamp, location, body);
    assert line[..|SHAPE|] == stamp;
    var rest := line[|SHAPE|..];
    if location.Some? {
      assert rest == location.value + ": " + body;
      if IsFileLine(location.value) {
        SplitAfterToken(location.value, body);
      }
    } else {
      assert rest == body;
      if token, tail :| IsFileLine(token) && body == token + ": " + tail {
        SplitAfterToken(token, tail);
      } else {
        var split := SplitOnce(rest);
        assert split.Some? ==> rest == split.value.0 + ": " + split.value.1;
      }
    }
  }

  /** A run that logs without positions loses the head of a text that starts like one: the two
      printed lines are the same line. */
  lemma PositionInTextIsTaken(stamp: string, token: string, rest: Line)
    requires IsTimestamp(stamp) && IsFileLine(token)
    ensures Format(stamp, None, token + ": " + rest) == Format(stamp, Some(token), rest)
    ensures StripHeader(Format(stamp, None, token + ": " + rest)) == (rest, Some(token))
  {
    StripUndoesFormat(stamp, Some(token), rest);
  }

  /** Such a text exists: `m.go:7: x`. */
  lemma PositionExample()
    ensures IsFileLine("m.go:7") && LooksLocated("m.go:7: x")
  {
    assert "m.go:7"[..5] == "m.go:";
    assert "m.go:"[..4] == "m.go" && "m.go"[1..] == ".go";
    assert RSplitOnce("m.go:") == Some(("m.go", ""));
    assert RSplitOnce("m.go:7") == Some(("m.go", "7"));
    assert "m.go:7: x" == "m.go:7" + ": " + "x";
  }

  /** Nothing but a header is ever removed. */
  lemma OnlyAHeaderIsRemoved(line: Line)
    ensures var (body, location) := StripHeader(line);
            || (line == body && location.None?)
            || exists stamp :: IsTimestamp(stamp) && line == Format(stamp, location, body)
    ensures StripHeader(line).1.Some? ==> IsFileLine(StripHeader(line).1.value)
  {
    if Untimed(line).Some? {
      var stamp := line[..|SHAPE|];
      var (body, location) := StripHeader(line);
      assert line == stamp + line[|SHAPE|..];
      assert line == Format(stamp, location, body);
    }
  }

  // ---------------------------------------------------------------------------------------
  // The rest of a line's normalisation
  // ---------------------------------------------------------------------------------------

  datatype Norm = Norm(dir: string, program: string, ephemeralListen: bool)

  /** Rust's `str::replace`: left to right, without overlaps; an empty pattern matches between
      all characters. */
  function Replace(s: string, pattern: string, text: string): string {
    if s == "" then (if pattern == "" then text else "")
    else if pattern == "" then text + [s[0]] + Replace(s[1..], pattern, text)
    else if |pattern| <= |s| && s[..|pattern|] == pattern then text + Replace(s[|pattern|..], pattern, text)
    else [s[0]] + Replace(s[1..], pattern, text)
  }

  function StripProgramName(line: Line, program: string): Line {
    var prefix := "   " + program;
    if prefix <= line && (|line| == |prefix| || line[|prefix|] == ' ') then "   {prog}" + line[|prefix|..] else line
  }

  const LISTENING := "listening on: "

  function MaskListeningPort(line: Line): Line {
    if !(LISTENING <= line) then line
    else
      match RSplitOnce(line[|LISTENING|..])
      case Some((host, port)) => if port != "" && AllDigits(port) then LISTENING + host + ":{port}" else line
      case None => line
  }

  function CleanBody(body: Line, norm: Norm): Line {
    var line := StripProgramName(Replace(body, norm.dir, "{dir}"), norm.program);
    if norm.ephemeralListen then MaskListeningPort(line) else line
  }

  // ---------------------------------------------------------------------------------------
  // What cleaning hides
  // ---------------------------------------------------------------------------------------

  /** A text of a run's own: fixed pieces with the run's directory between them. */
  function Rendered(pieces: seq<string>, dir: string): string
    requires pieces != []
  {
    if |pieces| == 1 then pieces[0] else pieces[0] + dir + Rendered(pieces[1..], dir)
  }

  predicate StartsWith(s: string, prefix: string) { |prefix| <= |s| && s[..|prefix|] == prefix }

  /** The directory is nowhere in the text before position n. */
  ghost predicate NotBefore(s: string, dir: string, n: nat) {
    forall i :: 0 <= i < n && i <= |s| ==> !StartsWith(s[i..], dir)
  }

  /** The directory is a real path and shows up nowhere but between the pieces. */
  ghost predicate OnlyBetween(pieces: seq<string>, dir: string)
    requires pieces != []
  {
    && dir != "" && NotBefore(Rendered(pieces, dir), dir, |pieces[0]|)
    && (|pieces| > 1 ==> OnlyBetween(pieces[1..], dir))
  }

  lemma NotBeforeRest(s: string, dir: string, n: nat)
    requires 0 < n <= |s| && NotBefore(s, dir, n)
    ensures NotBefore(s[1..], dir, n - 1)
  {
    forall i | 0 <= i < n - 1 && i <= |s[1..]| ensures !StartsWith(s[1..][i..], dir) {
      assert s[1..][i..] == s[i + 1..];
    }
  }

  lemma {:induction false} ReplaceSkips(s: string, dir: string, text: string, n: nat)
    requires dir != "" && n <= |s| && NotBefore(s, dir, n)
    ensures Replace(s, dir, text) == s[..n] + Replace(s[n..], dir, text)
  {
    if n > 0 {
      assert s[0..] == s && !StartsWith(s[0..], dir);
      NotBeforeRest(s, dir, n);
      ReplaceSkips(s[1..], dir, text, n - 1);
      assert s[1..][n - 1..] == s[n..];
      assert s[..n] == [s[0]] + s[1..][..n - 1];
    } else {
      assert s[0..] == s;
    }
  }

  lemma DirIsReplaced(rest: string, dir: string, text: string)
    requires dir != ""
    ensures Replace(dir + rest, dir, text) == text + Replace(rest, dir, text)
  {
    assert (dir + rest)[..|dir|] == dir && (dir + rest)[|dir|..] == rest;
  }

  /** Replacing the directory of a run leaves the pieces and the mark between them. */
  lemma {:induction false} DirIsHidden(pieces: seq<string>, dir: string, text: string)
    requires pieces != [] && OnlyBetween(pieces, dir)
    ensures Replace(Rendered(pieces, dir), dir, text) == Rendered(pieces, text)
  {
    var s := Rendered(pieces, dir);
    ReplaceSkips(s, dir, text, |pieces[0]|);
    assert s[..|pieces[0]|] == pieces[0];
    if |pieces| == 1 {
      assert s[|pieces[0]|..] == "";
    } else {
      var rest := Rendered(pieces[1..], dir);
      assert s[|pieces[0]|..] == dir + rest;
      DirIsReplaced(rest, dir, text);
      DirIsHidden(pieces[1..], dir, text);
      assert pieces[0] + (text + Rendered(pieces[1..], text)) == Rendered(pieces, text);
    }
  }

  /** A help line that names the program shows the mark instead. */
  lemma ProgramIsHidden(program: string, rest: Line)
    requires rest == "" || rest[0] == ' '
    ensures StripProgramName("   " + program + rest, program) == "   {prog}" + rest
  {
    var line, prefix := "   " + program + rest, "   " + program;
    assert line[..|prefix|] == prefix && line[|prefix|..] == rest;
  }

  /** The port of a listening line shows as the mark. */
  lemma PortIsHidden(host: string, port: string)
    requires port != "" && forall i :: 0 <= i < |port| ==> '0' <= port[i] <= '9'
    ensures MaskListeningPort("listening on: " + host + ":" + port) == "listening on: " + host + ":{port}"
  {
    var line := "listening on: " + host + ":" + port;
    assert LISTENING == "listening on: ";
    assert line[..|LISTENING|] == LISTENING && line[|LISTENING|..] == host + ":" + port;
    RSplitBeforeDigits(host, port);
  }

  /** One run of a program: its directory, its program name and the port it was given. */
  datatype Where = Where(dir: string, program: string, port: string)

  predicate IsNumber(s: string) { s != "" && forall i :: 0 <= i < |s| ==> '0' <= s[i] <= '9' }

  /** What a program prints, with what only its own run knows left open. */
  datatype Text =
    | Mentions(pieces: seq<string>)
    | Usage(rest: string)
    | Listening(host: string)

  function Printed(text: Text, run: Where): Line
    requires text.Mentions? ==> text.pieces != []
  {
    match text
    case Mentions(pieces) => Rendered(pieces, run.dir)
    case Usage(rest) => "   " + run.program + rest
    case Listening(host) => "listening on: " + host + ":" + run.port
  }

  /** The text with the marks in the open places. */
  function Marked(text: Text): Line
    requires text.Mentions? ==> text.pieces != []
  {
    match text
    case Mentions(pieces) => Rendered(pieces, "{dir}")
    case Usage(rest) => "   {prog}" + rest
    case Listening(host) => "listening on: " + host + ":{port}"
  }

  /** The run's directory shows up where the text has it open and nowhere else; a text with the
      directory in it is neither a usage line nor a listening line. */
  ghost predicate Clear(text: Text, run: Where)
    requires text.Mentions? ==> text.pieces != []
  {
    && run.dir != "" && IsNumber(run.port)
    && match text
       case Mentions(pieces) =>
         && OnlyBetween(pieces, run.dir)
         && !StartsWith(Marked(text), "   " + run.program) && !StartsWith(Marked(text), "listening on: ")
       case Usage(rest) => (rest == "" || rest[0] == ' ') && NotBefore(Printed(text, run), run.dir, |Printed(text, run)|)
       case Listening(host) => NotBefore(Printed(text, run), run.dir, |Printed(text, run)|)
  }

  lemma NothingReplaced(s: string, dir: string, text: string)
    requires dir != "" && NotBefore(s, dir, |s|)
    ensures Replace(s, dir, text) == s
  {
    ReplaceSkips(s, dir, text, |s|);
  }

  /** The name alone is not enough: it has to end there, or before a space. */
  lemma NotAUsageLine(s: string, program: string)
    requires StartsWith(s, "   " + program) ==> |s| > 3 + |program| && s[3 + |program|] != ' '
    ensures StripProgramName(s, program) == s
  {
  }

  /** A port that the run was told to use is left alone. */
  lemma PinnedPortIsKept(host: string, run: Where)
    requires Clear(Listening(host), run)
    ensures CleanBody(Printed(Listening(host), run), Norm(run.dir, run.program, false)) == Printed(Listening(host), run)
  {
    NothingReplaced(Printed(Listening(host), run), run.dir, "{dir}");
    assert Printed(Listening(host), run)[0] == 'l';
  }

  lemma UsageIsMarked(rest: string, run: Where)
    requires Clear(Usage(rest), run)
    ensures CleanBody(Printed(Usage(rest), run), Norm(run.dir, run.program, true)) == Marked(Usage(rest))
  {
    NothingReplaced(Printed(Usage(rest), run), run.dir, "{dir}");
    ProgramIsHidden(run.program, rest);
    assert Marked(Usage(rest))[0] == ' ';
  }

  lemma ListeningIsMarked(host: string, run: Where)
    requires Clear(Listening(host), run)
    ensures CleanBody(Printed(Listening(host), run), Norm(run.dir, run.program, true)) == Marked(Listening(host))
  {
    var line := Printed(Listening(host), run);
    NothingReplaced(line, run.dir, "{dir}");
    assert line[0] == 'l';
    NotAUsageLine(line, run.program);
    PortIsHidden(host, run.port);
  }

  /** What cleaning makes of a printed text is the text with its marks, whatever the run. */
  lemma CleanedIsMarked(text: Text, run: Where)
    requires (text.Mentions? ==> text.pieces != []) && Clear(text, run)
    ensures CleanBody(Printed(text, run), Norm(run.dir, run.program, true)) == Marked(text)
  {
    match text
    case Mentions(pieces) =>
      DirIsHidden(pieces, run.dir, "{dir}");
      NotAUsageLine(Marked(text), run.program);
    case Usage(rest) => UsageIsMarked(rest, run);
    case Listening(host) => ListeningIsMarked(host, run);
  }

  // ---------------------------------------------------------------------------------------
  // normalise
  // ---------------------------------------------------------------------------------------

  function CleanLines(raw: seq<Line>, norm: Norm): (lines: seq<Line>)
    ensures |lines| == |raw|
  {
    seq(|raw|, i requires 0 <= i < |raw| => CleanBody(StripHeader(raw[i]).0, norm))
  }

  function Locations(raw: seq<Line>): seq<string> {
    if raw == [] then []
    else
      var location := StripHeader(raw[|raw| - 1]).1;
      Locations(raw[..|raw| - 1]) + if location.Some? then [location.value] else []
  }

  method Normalise(raw: seq<Line>, norm: Norm) returns (lines: seq<Line>, locations: seq<string>)
    ensures lines == CleanLines(raw, norm) && locations == Locations(raw)
  {
    lines, locations := [], [];
    for i := 0 to |raw|
      invariant lines == CleanLines(raw[..i], norm) && locations == Locations(raw[..i])
    {
      var rest := StripTimestamp(raw[i]);
      var body, location := raw[i], None;
      if rest.Some? {
        body := rest.value;
        match SplitOnce(rest.value)
        case Some((token, text)) => if IsFileLine(token) { body, location := text, Some(token); }
        case None =>
      }
      if location.Some? { locations := locations + [location.value]; }
      lines := lines + [CleanBody(body, norm)];
      assert raw[..i + 1][..i] == raw[..i];
    }
    assert raw[..|raw|] == raw;
  }

  /** One logged line. */
  datatype Record = Record(stamp: string, location: Option<string>, body: Line)

  ghost predicate Faithful(r: Record) {
    && IsTimestamp(r.stamp)
    && if r.location.Some? then IsFileLine(r.location.value) else !LooksLocated(r.body)
  }

  function FormatAll(log: seq<Record>): (raw: seq<Line>)
    ensures |raw| == |log|
  {
    seq(|log|, i requires 0 <= i < |log| => Format(log[i].stamp, log[i].location, log[i].body))
  }

  /** The source positions of a log, in order. */
  function Positions(log: seq<Record>): seq<string> {
    if log == [] then []
    else Positions(log[..|log| - 1]) + if log[|log| - 1].location.Some? then [log[|log| - 1].location.value] else []
  }

  lemma {:induction false} PositionsRecovered(log: seq<Record>)
    requires forall i :: 0 <= i < |log| ==> Faithful(log[i])
    ensures Locations(FormatAll(log)) == Positions(log)
  {
    if log != [] {
      var (head, last) := (log[..|log| - 1], log[|log| - 1]);
      PositionsRecovered(head);
      assert FormatAll(log)[..|log| - 1] == FormatAll(head);
      StripUndoesFormat(last.stamp, last.location, last.body);
    }
  }

  /** Two programs that log the same texts, at any moments and from any positions, normalise to
      the same lines, and each one's positions come back in order. */
  lemma HeadersNeverShow(one: seq<Record>, two: seq<Record>, norm: Norm)
    requires |one| == |two| && forall i :: 0 <= i < |one| ==> one[i].body == two[i].body
    requires forall i :: 0 <= i < |one| ==> Faithful(one[i]) && Faithful(two[i])
    ensures CleanLines(FormatAll(one), norm) == CleanLines(FormatAll(two), norm)
    ensures Locations(FormatAll(one)) == Positions(one) && Locations(FormatAll(two)) == Positions(two)
  {
    forall i | 0 <= i < |one|
      ensures CleanLines(FormatAll(one), norm)[i] == CleanLines(FormatAll(two), norm)[i]
    {
      StripUndoesFormat(one[i].stamp, one[i].location, one[i].body);
      StripUndoesFormat(two[i].stamp, two[i].location, two[i].body);
    }
    PositionsRecovered(one);
    PositionsRecovered(two);
  }

  /** Each line of a run's log: its header, and one of the texts as this run prints it. */
  ghost predicate Logs(log: seq<Record>, texts: seq<Text>, run: Where) {
    && |log| == |texts|
    && forall i :: 0 <= i < |log| ==>
         && Faithful(log[i]) && (texts[i].Mentions? ==> texts[i].pieces != [])
         && Clear(texts[i], run) && log[i].body == Printed(texts[i], run)
  }

  /** Two runs that log the same texts normalise to the same lines, whatever their directories, program
      names, ports, moments and source positions. */
  lemma RunsNormaliseAlike(one: seq<Record>, two: seq<Record>, texts: seq<Text>, here: Where, there: Where)
    requires Logs(one, texts, here) && Logs(two, texts, there)
    ensures CleanLines(FormatAll(one), Norm(here.dir, here.program, true))
         == CleanLines(FormatAll(two), Norm(there.dir, there.program, true))
  {
    forall i | 0 <= i < |one|
      ensures CleanLines(FormatAll(one), Norm(here.dir, here.program, true))[i]
           == CleanLines(FormatAll(two), Norm(there.dir, there.program, true))[i]
    {
      StripUndoesFormat(one[i].stamp, one[i].location, one[i].body);
      StripUndoesFormat(two[i].stamp, two[i].location, two[i].body);
      CleanedIsMarked(texts[i], here);
      CleanedIsMarked(texts[i], there);
    }
  }
}
