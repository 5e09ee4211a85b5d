/**
 The tokenizer for tool-call arguments that are still streaming in
 (crates/core/src/partial_json.rs), as functions of the input and a cursor.

 `serde_json::from_str` is code this model does not look into: it is a
 parameter `json`, and every statement holds whatever that function returns.
 */
module StreamingJson {
  import opened Prelude
  import opened Text

  datatype Value =
    | Null
    | Bool(b: bool)
    | Number(text: string)
    | String(s: string)
    | Array(elements: seq<Value>)
    | Object(members: map<string, Value>)

  datatype Field =
    | Missing
    | Partial(text: string)
    | Complete(value: Value)

  /** A JSON reader for a complete text. */
  type Json = string -> Option<Value>

  /** One `fields.insert`, with the cursor just after the value it stored. */
  datatype Insertion = Insertion(key: string, field: Field, end: nat)

  // ---- Scanners ----

  function SkipWhitespace(cs: string, pos: nat): (r: nat)
    requires pos <= |cs|
    ensures pos <= r <= |cs|
    ensures forall k :: pos <= k < r ==> IsWhitespace(cs[k])
    ensures r < |cs| ==> !IsWhitespace(cs[r])
    decreases |cs| - pos
  {
    if pos < |cs| && IsWhitespace(cs[pos]) then SkipWhitespace(cs, pos + 1) else pos
  }

  /** What a backslash followed by `c` contributes; unknown escapes stay verbatim. */
  function Unescape(c: char): string {
    match c
    case 'n' => "\n"
    case 'r' => "\r"
    case 't' => "\t"
    case '\\' => "\\"
    case '"' => "\""
    case _ => ['\\', c]
  }

  /** The text of a quoted string read from just after its opening quote. */
  datatype Scan = Scan(text: string, next: nat, closed: bool)

  /** The scan `r` with `s` read before it. */
  function Prepend(s: string, r: Scan): Scan {
    Scan(s + r.text, r.next, r.closed)
  }

  function ScanString(cs: string, pos: nat): (r: Scan)
    requires pos <= |cs|
    ensures pos <= r.next <= |cs|
    ensures !r.closed ==> r.next == |cs|
    ensures r.closed ==> pos < r.next && cs[r.next - 1] == '"'
    decreases |cs| - pos
  {
    if pos == |cs| then Scan("", pos, false)
    else if cs[pos] == '\\' then
      if pos + 1 == |cs| then Scan("", pos + 1, false)
      else Prepend(Unescape(cs[pos + 1]), ScanString(cs, pos + 2))
    else if cs[pos] == '"' then Scan("", pos + 1, true)
    else Prepend([cs[pos]], ScanString(cs, pos + 1))
  }

  /** How a bracketed value ends: balanced just before `end`, at a wrong closer, or not yet. */
  datatype Nesting = Balanced(end: nat) | Mismatched | Unfinished

  function ScanNested(cs: string, pos: nat, closers: string, inString: bool): (r: Nesting)
    requires pos <= |cs|
    ensures r.Balanced? ==> pos < r.end <= |cs| && cs[r.end - 1] in {'}', ']'}
    decreases |cs| - pos
  {
    if pos == |cs| then Unfinished
    else
      var c := cs[pos];
      if inString then
        if c == '\\' then ScanNested(cs, Min(pos + 2, |cs|), closers, true)
        else ScanNested(cs, pos + 1, closers, c != '"')
      else if c == '"' then ScanNested(cs, pos + 1, closers, true)
      else if c == '{' then ScanNested(cs, pos + 1, closers + "}", false)
      else if c == '[' then ScanNested(cs, pos + 1, closers + "]", false)
      else if c == '}' || c == ']' then
        if closers == "" || closers[|closers| - 1] != c then Mismatched
        else if |closers| == 1 then Balanced(pos + 1)
        else ScanNested(cs, pos + 1, closers[..|closers| - 1], false)
      else ScanNested(cs, pos + 1, closers, false)
  }

  predicate IsValueTerminator(c: char) {
    c == ',' || c == '}' || c == ']' || c <= ' '
  }

  function NumberEnd(cs: string, pos: nat): (r: nat)
    requires pos <= |cs|
    ensures pos <= r <= |cs|
    ensures forall k :: pos <= k < r ==> !IsValueTerminator(cs[k])
    ensures r < |cs| ==> IsValueTerminator(cs[r])
    decreases |cs| - pos
  {
    if pos < |cs| && !IsValueTerminator(cs[pos]) then NumberEnd(cs, pos + 1) else pos
  }

  function LetterEnd(cs: string, pos: nat): (r: nat)
    requires pos <= |cs|
    ensures pos <= r <= |cs|
    ensures forall k :: pos <= k < r ==> IsLetter(cs[k])
    ensures r < |cs| ==> !IsLetter(cs[r])
    decreases |cs| - pos
  {
    if pos < |cs| && IsLetter(cs[pos]) then LetterEnd(cs, pos + 1) else pos
  }

  // ---- Values ----

  /** A field and the cursor after it. */
  datatype Parsed = Parsed(field: Field, next: nat)

  function Settle(value: Option<Value>): Field {
    match value
    case Some(v) => Complete(v)
    case None => Missing
  }

  function LiteralField(word: string): Field {
    if word == "true" then Complete(Bool(true))
    else if word == "false" then Complete(Bool(false))
    else if word == "null" then Complete(Null)
    else Missing
  }

  function ParseString(cs: string, pos: nat): Parsed
    requires pos < |cs|
  {
    var r := ScanString(cs, pos + 1);
    Parsed(if r.closed then Complete(String(r.text)) else Partial(r.text), r.next)
  }

  function ParseNested(json: Json, cs: string, pos: nat): Parsed
    requires pos < |cs|
  {
    match ScanNested(cs, pos, "", false)
    case Balanced(end) => Parsed(Settle(json(cs[pos..end])), end)
    case _ => Parsed(Missing, |cs|)
  }

  function ParseNumber(json: Json, cs: string, pos: nat): Parsed
    requires pos < |cs|
  {
    var end := NumberEnd(cs, pos);
    Parsed(if end == |cs| then Missing else Settle(json(cs[pos..end])), end)
  }

  function ParseLiteral(cs: string, pos: nat): Parsed
    requires pos < |cs|
  {
    var end := LetterEnd(cs, pos);
    Parsed(LiteralField(cs[pos..end]), end)
  }

  function ParseValue(json: Json, cs: string, pos: nat): (r: Parsed)
    requires pos <= |cs|
    ensures pos <= r.next <= |cs|
    ensures pos < |cs| ==> pos < r.next
  {
    if pos == |cs| then Parsed(Missing, pos)
    else
      var c := cs[pos];
      if c == '"' then ParseString(cs, pos)
      else if c == '{' || c == '[' then ParseNested(json, cs, pos)
      else if IsDigit(c) || c == '-' then ParseNumber(json, cs, pos)
      else if c == 't' || c == 'f' || c == 'n' then ParseLiteral(cs, pos)
      else Parsed(Missing, pos + 1)
  }

  // ---- The object ----

  /** The cursor after an optional comma. */
  function AfterComma(cs: string, pos: nat): (r: nat)
    requires pos <= |cs|
    ensures pos <= r <= |cs|
  {
    var w := SkipWhitespace(cs, pos);
    if w < |cs| && cs[w] == ',' then w + 1 else w
  }

  /**
   What one pass of the main loop meets before any value: the end of what can
   be read, one stray character, or a key whose value starts at `value`.
   */
  datatype Lead = Stop | Stray(next: nat) | Member(key: string, value: nat)

  function NextMember(cs: string, pos: nat): (r: Lead)
    requires pos <= |cs|
    ensures r.Stray? ==> pos < r.next <= |cs|
    ensures r.Member? ==> pos < r.value < |cs|
  {
    var i := SkipWhitespace(cs, pos);
    if i == |cs| || cs[i] == '}' then Stop
    else if cs[i] != '"' then Stray(i + 1)
    else
      var key := ScanString(cs, i + 1);
      if !key.closed then Stop else
      var colon := SkipWhitespace(cs, key.next);
      if colon == |cs| || cs[colon] != ':' then Stop else
      var v := SkipWhitespace(cs, colon + 1);
      if v == |cs| then Stop else Member(key.text, v)
  }

  /** The insertions the main loop makes from cursor `pos`, in order. */
  function Tokenize(json: Json, cs: string, pos: nat): (ins: seq<Insertion>)
    requires pos <= |cs|
    decreases |cs| - pos
  {
    match NextMember(cs, pos)
    case Stop => []
    case Stray(next) => Tokenize(json, cs, next)
    case Member(key, v) =>
      var p := ParseValue(json, cs, v);
      [Insertion(key, p.field, p.next)] + Tokenize(json, cs, AfterComma(cs, p.next))
  }

  /** The cursor after leading whitespace and an optional opening brace. */
  function Start(cs: string): (r: nat)
    ensures r <= |cs|
  {
    var i := SkipWhitespace(cs, 0);
    if i < |cs| && cs[i] == '{' then i + 1 else i
  }

  /** The slow path's insertions on `input`. */
  function Insertions(json: Json, input: string): seq<Insertion> {
    Tokenize(json, input, Start(input))
  }

  /** The map left by a run of insertions: a later key overwrites an earlier one. */
  function FieldsOf(ins: seq<Insertion>): map<string, Field> {
    if ins == [] then map[]
    else
      var last := ins[|ins| - 1];
      FieldsOf(ins[..|ins| - 1])[last.key := last.field]
  }

  /** The whole parser: complete JSON is read at once, anything else is tokenized. */
  function ParseFields(json: Json, input: string): map<string, Field> {
    match json(input)
    case Some(Object(members)) => map k | k in members :: Complete(members[k])
    case Some(_) => map[]
    case None => FieldsOf(Insertions(json, input))
  }

  function Get(fields: map<string, Field>, key: string): Field {
    if key in fields then fields[key] else Missing
  }
}
