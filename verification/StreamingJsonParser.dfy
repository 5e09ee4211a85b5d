/**
 The parser itself (crates/core/src/partial_json.rs): a cursor moved by nested
 loops, a string built by pushes and a stack of expected closers, proved to
 compute what StreamingJson says. Every loop moves its cursor strictly forward,
 so the parser stops on any input, and no input is refused: what cannot be read
 is passed over or ends the reading.
 */
module StreamingJsonParser {
  import opened Prelude
  import opened Text
  import opened StreamingJson

  method SkipBlanks(cs: string, start: nat) returns (pos: nat)
    requires start <= |cs|
    ensures pos == SkipWhitespace(cs, start)
  {
    pos := start;
    while pos < |cs| && IsWhitespace(cs[pos])
      invariant start <= pos <= |cs|
      invariant SkipWhitespace(cs, pos) == SkipWhitespace(cs, start)
    {
      pos := pos + 1;
    }
  }

  lemma PrependTwice(s: string, t: string, r: Scan)
    ensures Prepend(s, Prepend(t, r)) == Prepend(s + t, r)
  {
  }

  /** The loop shared by keys and string values, from just after the opening quote. */
  method ReadString(cs: string, start: nat) returns (s: string, pos: nat, closed: bool)
    requires start <= |cs|
    ensures Scan(s, pos, closed) == ScanString(cs, start)
  {
    hide Prepend;
    pos, s, closed := start, "", false;
    PrependNothing(ScanString(cs, start));
    while pos < |cs|
      invariant start <= pos <= |cs|
      invariant !closed
      invariant ScanString(cs, start) == Prepend(s, ScanString(cs, pos))
    {
      if cs[pos] == '\\' {
        pos := pos + 1;
        if pos < |cs| {
          PrependTwice(s, Unescape(cs[pos]), ScanString(cs, pos + 1));
          s := s + Unescape(cs[pos]);
          pos := pos + 1;
        }
      } else if cs[pos] == '"' {
        pos := pos + 1;
        closed := true;
        break;
      } else {
        PrependTwice(s, [cs[pos]], ScanString(cs, pos + 1));
        s := s + [cs[pos]];
        pos := pos + 1;
      }
    }
    PrependEmpty(s, pos, closed);
  }

  lemma PrependNothing(r: Scan)
    ensures Prepend("", r) == r
  {
  }

  lemma PrependEmpty(s: string, pos: nat, closed: bool)
    ensures Prepend(s, Scan("", pos, closed)) == Scan(s, pos, closed)
  {
  }

  method ReadStringValue(cs: string, start: nat) returns (field: Field, pos: nat)
    requires start < |cs|
    ensures Parsed(field, pos) == ParseString(cs, start)
  {
    var s, next, closed := ReadString(cs, start + 1);
    pos := next;
    field := if closed then Complete(String(s)) else Partial(s);
  }

  method ReadNestedValue(json: Json, cs: string, start: nat) returns (field: Field, pos: nat)
    requires start < |cs|
    ensures Parsed(field, pos) == ParseNested(json, cs, start)
  {
    pos := start;
    var expectedClosers, inString, complete := "", false, false;
    while pos < |cs|
      invariant start <= pos <= |cs|
      invariant !complete
      invariant ScanNested(cs, start, "", false) == ScanNested(cs, pos, expectedClosers, inString)
    {
      var c := cs[pos];
      if inString {
        if c == '\\' {
          pos := pos + 1;
          if pos < |cs| {
            pos := pos + 1;
          }
          continue;
        } else if c == '"' {
          inString := false;
        }
      } else if c == '"' {
        inString := true;
      } else if c == '{' {
        expectedClosers := expectedClosers + "}";
      } else if c == '[' {
        expectedClosers := expectedClosers + "]";
      } else if c == '}' || c == ']' {
        var n := |expectedClosers|;
        if n == 0 || expectedClosers[n - 1] != c {
          return Missing, |cs|;
        }
        expectedClosers := expectedClosers[..n - 1];
        if expectedClosers == "" {
          pos := pos + 1;
          complete := true;
          break;
        }
      }
      pos := pos + 1;
    }
    field := if complete then Settle(json(cs[start..pos])) else Missing;
  }

  method ReadNumberValue(json: Json, cs: string, start: nat) returns (field: Field, pos: nat)
    requires start < |cs|
    ensures Parsed(field, pos) == ParseNumber(json, cs, start)
  {
    pos := start;
    while pos < |cs| && !IsValueTerminator(cs[pos])
      invariant start <= pos <= |cs|
      invariant NumberEnd(cs, pos) == NumberEnd(cs, start)
    {
      pos := pos + 1;
    }
    field := if pos == |cs| then Missing else Settle(json(cs[start..pos]));
  }

  method ReadLiteralValue(cs: string, start: nat) returns (field: Field, pos: nat)
    requires start < |cs|
    ensures Parsed(field, pos) == ParseLiteral(cs, start)
  {
    pos := start;
    while pos < |cs| && IsLetter(cs[pos])
      invariant start <= pos <= |cs|
      invariant LetterEnd(cs, pos) == LetterEnd(cs, start)
    {
      pos := pos + 1;
    }
    field := LiteralField(cs[start..pos]);
  }

  method ReadValue(json: Json, cs: string, start: nat) returns (field: Field, pos: nat)
    requires start <= |cs|
    ensures Parsed(field, pos) == ParseValue(json, cs, start)
  {
    if start == |cs| {
      return Missing, start;
    }
    var c := cs[start];
    if c == '"' {
      field, pos := ReadStringValue(cs, start);
    } else if c == '{' || c == '[' {
      field, pos := ReadNestedValue(json, cs, start);
    } else if IsDigit(c) || c == '-' {
      field, pos := ReadNumberValue(json, cs, start);
    } else if c == 't' || c == 'f' || c == 'n' {
      field, pos := ReadLiteralValue(cs, start);
    } else {
      field, pos := Missing, start + 1;
    }
  }

  lemma FieldsOfSnoc(ins: seq<Insertion>, x: Insertion)
    ensures FieldsOf(ins + [x]) == FieldsOf(ins)[x.key := x.field]
  {
  }

  /** One pass of the main loop up to the start of a value. */
  method ReadMember(cs: string, start: nat) returns (lead: Lead)
    requires start <= |cs|
    ensures lead == NextMember(cs, start)
  {
    hide ScanString, SkipWhitespace;
    var pos := SkipBlanks(cs, start);
    if pos == |cs| || cs[pos] == '}' {
      return Stop;
    }
    if cs[pos] != '"' {
      return Stray(pos + 1);
    }
    var key, afterKey, keyComplete := ReadString(cs, pos + 1);
    if !keyComplete {
      return Stop;
    }
    pos := SkipBlanks(cs, afterKey);
    if pos == |cs| || cs[pos] != ':' {
      return Stop;
    }
    pos := SkipBlanks(cs, pos + 1);
    lead := if pos == |cs| then Stop else Member(key, pos);
  }

  method SkipComma(cs: string, start: nat) returns (pos: nat)
    requires start <= |cs|
    ensures pos == AfterComma(cs, start)
  {
    pos := SkipBlanks(cs, start);
    if pos < |cs| && cs[pos] == ',' {
      pos := pos + 1;
    }
  }

  /** The hand-rolled tokenizer. */
  method ParseSlowly(json: Json, cs: string) returns (fields: map<string, Field>)
    ensures fields == FieldsOf(Insertions(json, cs))
  {
    hide ParseValue, NextMember, AfterComma, SkipWhitespace, FieldsOf;
    var pos := SkipBlanks(cs, 0);
    if pos < |cs| && cs[pos] == '{' {
      pos := pos + 1;
    }
    fields := map[];
    ghost var log: seq<Insertion> := [];
    NoInsertions();
    while true
      invariant pos <= |cs|
      invariant Insertions(json, cs) == log + Tokenize(json, cs, pos)
      invariant fields == FieldsOf(log)
      decreases |cs| - pos
    {
      var lead := ReadMember(cs, pos);
      match lead
      case Stop => break;
      case Stray(next) => pos := next;
      case Member(key, value) =>
        var field, next := ReadValue(json, cs, value);
        fields := fields[key := field];
        FieldsOfSnoc(log, Insertion(key, field, next));
        log := log + [Insertion(key, field, next)];
        pos := SkipComma(cs, next);
    }
    assert log + [] == log;
  }

  lemma NoInsertions()
    ensures FieldsOf([]) == map[]
  {
  }

  method Parse(json: Json, input: string) returns (fields: map<string, Field>)
    ensures fields == ParseFields(json, input)
  {
    match json(input)
    case Some(Object(members)) => fields := map k | k in members :: Complete(members[k]);
    case Some(_) => fields := map[];
    case None => fields := ParseSlowly(json, input);
  }
}
