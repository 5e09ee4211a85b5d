/**
 Splitting a command line without a shell (crates/core/src/goal.rs) and the
 quoting that goes the other way (crates/core/src/host.rs), with the round
 trip between them.
 */
module CommandLine {
  import opened Prelude
  import opened Text

  datatype Quoting = Unquoted | Single | Double

  /** The splitter's variables between two characters. */
  datatype Splitter = Splitter(tokens: seq<string>, current: string, quote: Quoting, escaped: bool, started: bool)

  const FRESH := Splitter([], "", Unquoted, false, false)

  datatype CommandError = EndsWithEscape | UnterminatedQuotes | Empty | EmptyExecutable

  datatype Command = Command(executable: string, args: seq<string>)

  /** One character of the line. */
  function Step(s: Splitter, ch: char): Splitter {
    if s.escaped then s.(current := s.current + [ch], escaped := false, started := true)
    else match s.quote
      case Single =>
        if ch == '\'' then s.(quote := Unquoted, started := true)
        else s.(current := s.current + [ch], started := true)
      case Double =>
        if ch == '"' then s.(quote := Unquoted, started := true)
        else if ch == '\\' then s.(escaped := true, started := true)
        else s.(current := s.current + [ch], started := true)
      case Unquoted =>
        if ch == '\'' then s.(quote := Single, started := true)
        else if ch == '"' then s.(quote := Double, started := true)
        else if ch == '\\' then s.(escaped := true, started := true)
        else if IsWhitespace(ch) then
          if s.started then s.(tokens := s.tokens + [s.current], current := "", started := false) else s
        else s.(current := s.current + [ch], started := true)
  }

  function Scan(s: Splitter, line: string): Splitter
    decreases |line|
  {
    if line == "" then s else Scan(Step(s, line[0]), line[1..])
  }

  function Finish(s: Splitter): Result<Command, CommandError> {
    if s.escaped then Err(EndsWithEscape)
    else if s.quote != Unquoted then Err(UnterminatedQuotes)
    else
      var tokens := if s.started then s.tokens + [s.current] else s.tokens;
      if tokens == [] then Err(Empty)
      else if tokens[0] == "" then Err(EmptyExecutable)
      else Ok(Command(tokens[0], tokens[1..]))
  }

  function Parse(line: string): Result<Command, CommandError> {
    Finish(Scan(FRESH, line))
  }

  method ParseCommandLine(line: string) returns (r: Result<Command, CommandError>)
    ensures r == Parse(line)
  {
    var tokens: seq<string> := [];
    var current, quote, escaped, started := "", Unquoted, false, false;
    for i := 0 to |line|
      invariant Scan(Splitter(tokens, current, quote, escaped, started), line[i..]) == Scan(FRESH, line)
    {
      var ch := line[i];
      assert line[i..][1..] == line[i + 1..];
      if escaped {
        current, escaped, started := current + [ch], false, true;
        continue;
      }
      match quote
      case Single =>
        if ch == '\'' {
          quote := Unquoted;
        } else {
          current := current + [ch];
        }
        started := true;
      case Double =>
        if ch == '"' {
          quote := Unquoted;
        } else if ch == '\\' {
          escaped := true;
        } else {
          current := current + [ch];
        }
        started := true;
      case Unquoted =>
        if ch == '\'' {
          quote, started := Single, true;
        } else if ch == '"' {
          quote, started := Double, true;
        } else if ch == '\\' {
          escaped, started := true, true;
        } else if IsWhitespace(ch) {
          if started {
            tokens, current, started := tokens + [current], "", false;
          }
        } else {
          current, started := current + [ch], true;
        }
    }
    if escaped {
      return Err(EndsWithEscape);
    }
    if quote != Unquoted {
      return Err(UnterminatedQuotes);
    }
    if started {
      tokens := tokens + [current];
    }
    if tokens == [] {
      return Err(Empty);
    }
    if tokens[0] == "" {
      return Err(EmptyExecutable);
    }
    r := Ok(Command(tokens[0], tokens[1..]));
  }

  // ---- Quoting ----

  /** `value` with every single quote replaced by quote, backslash, quote, quote. */
  function EscapeQuotes(value: string): string {
    if value == "" then ""
    else (if value[0] == '\'' then "'\\''" else [value[0]]) + EscapeQuotes(value[1..])
  }

  function ShellQuote(value: string): string {
    "'" + EscapeQuotes(value) + "'"
  }

  /** The quoted program and arguments, as a remote command is assembled. */
  function JoinQuoted(values: seq<string>): string {
    if values == [] then ""
    else if |values| == 1 then ShellQuote(values[0])
    else ShellQuote(values[0]) + (" " + JoinQuoted(values[1..]))
  }

  // ---- Round trip ----

  lemma {:induction false} ScanConcat(s: Splitter, a: string, b: string)
    ensures Scan(s, a + b) == Scan(Scan(s, a), b)
    decreases |a|
  {
    if a == "" {
      assert a + b == b;
    } else {
      assert (a + b)[1..] == a[1..] + b;
      ScanConcat(Step(s, a[0]), a[1..], b);
    }
  }

  /** Inside single quotes, an escaped text adds exactly the text. */
  lemma {:induction false} ScanEscaped(s: Splitter, value: string)
    requires s.quote == Single && !s.escaped && s.started
    ensures Scan(s, EscapeQuotes(value)) == s.(current := s.current + value)
    decreases |value|
  {
    if value == "" {
      assert s.current + value == s.current;
    } else {
      var head := if value[0] == '\'' then "'\\''" else [value[0]];
      ScanConcat(s, head, EscapeQuotes(value[1..]));
      var t := s.(current := s.current + [value[0]]);
      ScanHead(s, value[0]);
      ScanEscaped(t, value[1..]);
      assert t.current + value[1..] == s.current + value;
    }
  }

  lemma ScanHead(s: Splitter, c: char)
    requires s.quote == Single && !s.escaped && s.started
    ensures Scan(s, if c == '\'' then "'\\''" else [c]) == s.(current := s.current + [c])
  {
    if c == '\'' {
      var q := "'\\''";
      assert q[1..] == "\\''" && q[1..][1..] == "''" && q[1..][1..][1..] == "'";
      var s1 := Step(s, '\'');
      var s2 := Step(s1, '\\');
      var s3 := Step(s2, '\'');
      assert Scan(s3, "'") == Step(s3, '\'');
      assert Scan(s2, "''") == Scan(s3, "'");
      assert Scan(s1, "\\''") == Scan(s2, "''");
    } else {
      assert Scan(s, [c]) == Step(s, c);
    }
  }

  lemma ScanQuoted(s: Splitter, value: string)
    requires s.quote == Unquoted && !s.escaped && !s.started && s.current == ""
    ensures Scan(s, ShellQuote(value)) == s.(current := value, started := true)
  {
    var body := EscapeQuotes(value);
    assert ShellQuote(value) == "'" + (body + "'");
    var open := Step(s, '\'');
    assert Scan(s, "'") == open;
    ScanConcat(s, "'", body + "'");
    ScanConcat(open, body, "'");
    ScanEscaped(open, value);
    assert "" + value == value;
    var closed := open.(current := value);
    assert Scan(closed, "'") == Step(closed, '\'');
  }

  lemma {:induction false} ScanJoined(s: Splitter, values: seq<string>)
    requires s.quote == Unquoted && !s.escaped && !s.started && s.current == ""
    requires values != []
    ensures var n := |values| - 1;
            Scan(s, JoinQuoted(values)) == s.(tokens := s.tokens + values[..n], current := values[n], started := true)
    decreases |values|
  {
    var v := values[0];
    ScanQuoted(s, v);
    if |values| == 1 {
      assert s.tokens + values[..0] == s.tokens;
    } else {
      var quoted := s.(current := v, started := true);
      var next := s.(tokens := s.tokens + [v]);
      ScanConcat(s, ShellQuote(v), " " + JoinQuoted(values[1..]));
      ScanConcat(quoted, " ", JoinQuoted(values[1..]));
      assert Scan(quoted, " ") == Step(quoted, ' ') == next;
      ScanJoined(next, values[1..]);
      var n := |values| - 1;
      assert next.tokens + values[1..][..n - 1] == s.tokens + values[..n];
    }
  }

  /**
   Quoting and splitting: for every program with a name and any arguments,
   whatever characters they contain, the joined quoted line splits back into
   exactly them; with an empty name the line is refused.
   */
  lemma QuotingRoundTrip(values: seq<string>)
    requires values != []
    ensures Parse(JoinQuoted(values))
         == if values[0] == "" then Err(EmptyExecutable) else Ok(Command(values[0], values[1..]))
  {
    ScanJoined(FRESH, values);
    var n := |values| - 1;
    assert [] + values[..n] + [values[n]] == values;
  }

  /** Different command lines never quote to the same text. */
  lemma QuotingInjective(a: seq<string>, b: seq<string>)
    requires a != [] && b != [] && a[0] != "" && b[0] != ""
    requires JoinQuoted(a) == JoinQuoted(b)
    ensures a == b
  {
    QuotingRoundTrip(a);
    QuotingRoundTrip(b);
    assert a == [a[0]] + a[1..];
    assert b == [b[0]] + b[1..];
  }
}
