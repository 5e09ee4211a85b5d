/**
 A printer for flat objects and its agreement with the tokenizer: printing and
 tokenizing gives back every member, in order and complete, and every prefix of a
 printed object shows only keys of that object, true values, and true beginnings
 of strings. Numbers and nested values are texts that the JSON reader accepts.
 */
module StreamingJsonPrinter {
  import opened Prelude
  import opened Text
  import opened StreamingJson
  import opened StreamingJsonStability

  /** A value of a flat object; a number is kept as the text it is written in. */
  datatype Scalar = Words(s: string) | Flag(b: bool) | Nothing | Digits(text: string)

  /** A member's name and value. */
  datatype Entry = Entry(key: string, scalar: Scalar)

  /** The text of a number is one the JSON reader takes for a number and no terminator cuts. */
  predicate Printable(json: Json, scalar: Scalar) {
    scalar.Digits? ==>
      && scalar.text != ""
      && (IsDigit(scalar.text[0]) || scalar.text[0] == '-')
      && (forall k :: 0 <= k < |scalar.text| ==> !IsValueTerminator(scalar.text[k]))
      && json(scalar.text).Some?
      && json(scalar.text).value.Number?
  }

  ghost predicate AllPrintable(json: Json, entries: seq<Entry>) {
    forall i :: 0 <= i < |entries| ==> Printable(json, entries[i].scalar)
  }

  function ValueOf(json: Json, scalar: Scalar): Value
    requires Printable(json, scalar)
  {
    match scalar
    case Words(s) => String(s)
    case Flag(b) => Bool(b)
    case Nothing => Null
    case Digits(text) => json(text).value
  }

  function EscapeChar(c: char): (r: string)
  {
    match c
    case '\n' => "\\n"
    case '\r' => "\\r"
    case '\t' => "\\t"
    case '\\' => "\\\\"
    case '"' => "\\\""
    case _ => [c]
  }

  function Escape(s: string): string {
    if s == "" then "" else EscapeChar(s[0]) + Escape(s[1..])
  }

  function Quote(s: string): string {
    "\"" + Escape(s) + "\""
  }

  function PrintScalar(scalar: Scalar): string {
    match scalar
    case Words(s) => Quote(s)
    case Flag(b) => if b then "true" else "false"
    case Nothing => "null"
    case Digits(text) => text
  }

  function PrintEntry(e: Entry): string {
    Quote(e.key) + ":" + PrintScalar(e.scalar)
  }

  /** The members separated by commas, and the closing brace. */
  function PrintRest(entries: seq<Entry>): string {
    if entries == [] then "}"
    else PrintEntry(entries[0]) + (if |entries| == 1 then "}" else "," + PrintRest(entries[1..]))
  }

  function PrintObject(entries: seq<Entry>): string {
    "{" + PrintRest(entries)
  }

  // ---- Reading back what was printed, at any cursor of any text ----

  /** `t` stands at `pos` in `cs`. */
  ghost predicate At(cs: string, pos: nat, t: string) {
    pos + |t| <= |cs| && cs[pos..pos + |t|] == t
  }

  lemma AtSplit(cs: string, pos: nat, t: string, u: string)
    requires At(cs, pos, t + u)
    ensures At(cs, pos, t) && At(cs, pos + |t|, u)
  {
    assert cs[pos..pos + |t|] == (t + u)[..|t|] == t;
    assert cs[pos + |t|..pos + |t| + |u|] == (t + u)[|t|..] == u;
  }

  lemma AtChar(cs: string, pos: nat, t: string)
    requires At(cs, pos, t) && t != ""
    ensures pos < |cs| && cs[pos] == t[0]
  {
  }

  lemma ScanEscapedChar(cs: string, pos: nat, c: char)
    requires At(cs, pos, EscapeChar(c))
    ensures ScanString(cs, pos) == Prepend([c], ScanString(cs, pos + |EscapeChar(c)|))
  {
    var e := EscapeChar(c);
    AtChar(cs, pos, e);
    if |e| == 2 {
      assert cs[pos + 1] == cs[pos..pos + 2][1] == e[1];
      assert Unescape(e[1]) == [c];
    }
  }

  lemma {:induction false} ScanEscaped(cs: string, pos: nat, s: string)
    requires At(cs, pos, Escape(s) + "\"")
    ensures ScanString(cs, pos) == Scan(s, pos + |Escape(s)| + 1, true)
    decreases |s|
  {
    hide At, EscapeChar, ScanString;
    if s == "" {
      ScanClosingQuote(cs, pos);
    } else {
      var e := EscapeChar(s[0]);
      var rest := Escape(s[1..]) + "\"";
      assert Escape(s) + "\"" == e + rest;
      AtSplit(cs, pos, e, rest);
      ScanEscaped(cs, pos + |e|, s[1..]);
      ScanEscapedChar(cs, pos, s[0]);
      assert [s[0]] + s[1..] == s;
    }
  }

  lemma ScanClosingQuote(cs: string, pos: nat)
    requires At(cs, pos, Escape("") + "\"")
    ensures ScanString(cs, pos) == Scan("", pos + 1, true)
  {
  }

  lemma {:induction false} ScanQuoted(cs: string, pos: nat, s: string)
    requires At(cs, pos, Quote(s))
    ensures pos < |cs| && cs[pos] == '"'
    ensures ScanString(cs, pos + 1) == Scan(s, pos + |Quote(s)|, true)
  {
    hide ScanString;
    assert Quote(s) == "\"" + (Escape(s) + "\"");
    AtSplit(cs, pos, "\"", Escape(s) + "\"");
    AtChar(cs, pos, "\"");
    ScanEscaped(cs, pos + 1, s);
  }

  lemma {:induction false} NumberEndAt(cs: string, pos: nat, t: string)
    requires At(cs, pos, t) && pos + |t| < |cs|
    requires forall k :: 0 <= k < |t| ==> !IsValueTerminator(t[k])
    requires IsValueTerminator(cs[pos + |t|])
    ensures NumberEnd(cs, pos) == pos + |t|
    decreases |t|
  {
  }

  lemma {:induction false} LetterEndAt(cs: string, pos: nat, t: string)
    requires At(cs, pos, t) && pos + |t| < |cs|
    requires forall k :: 0 <= k < |t| ==> IsLetter(t[k])
    requires !IsLetter(cs[pos + |t|])
    ensures LetterEnd(cs, pos) == pos + |t|
    decreases |t|
  {
  }

  /** A printed value followed by a comma or a closing brace reads back exactly. */
  lemma {:induction false} ParsePrinted(json: Json, cs: string, pos: nat, scalar: Scalar)
    requires Printable(json, scalar)
    requires At(cs, pos, PrintScalar(scalar))
    requires var n := pos + |PrintScalar(scalar)|; n < |cs| && cs[n] in {',', '}'}
    ensures ParseValue(json, cs, pos) == Parsed(Complete(ValueOf(json, scalar)), pos + |PrintScalar(scalar)|)
  {
    hide ScanString, NumberEnd, LetterEnd, Quote;
    var t := PrintScalar(scalar);
    ScalarStart(json, scalar);
    AtChar(cs, pos, t);
    match scalar
    case Words(s) => ScanQuoted(cs, pos, s);
    case Digits(text) => NumberEndAt(cs, pos, text);
    case _ => LetterEndAt(cs, pos, t);
  }

  lemma {:induction false} NextPrinted(cs: string, pos: nat, key: string, t: string)
    requires At(cs, pos, Quote(key) + ":" + t) && t != "" && !IsWhitespace(t[0])
    ensures NextMember(cs, pos) == Member(key, pos + |Quote(key)| + 1)
  {
    hide ScanString, Quote, At;
    var n := pos + |Quote(key)|;
    AtSplit(cs, pos, Quote(key) + ":", t);
    AtSplit(cs, pos, Quote(key), ":");
    ScanQuoted(cs, pos, key);
    AtChar(cs, n, ":");
    AtChar(cs, n + 1, t);
  }

  /** The tokenizer's result on a printed object: its members, all complete. */
  ghost predicate Shows(json: Json, ins: seq<Insertion>, entries: seq<Entry>)
    requires AllPrintable(json, entries)
  {
    && |ins| == |entries|
    && forall i :: 0 <= i < |ins| ==>
      && ins[i].key == entries[i].key
      && ins[i].field == Complete(ValueOf(json, entries[i].scalar))
  }

  /** One printed member, followed by `rest`, is read as one insertion. */
  lemma {:induction false} MemberPrinted(json: Json, cs: string, pos: nat, e: Entry, rest: string)
    requires Printable(json, e.scalar)
    requires At(cs, pos, PrintEntry(e) + rest) && rest != "" && rest[0] in {',', '}'}
    ensures var n := pos + |PrintEntry(e)|;
            && At(cs, n, rest)
            && n < |cs|
            && Tokenize(json, cs, pos)
               == [Insertion(e.key, Complete(ValueOf(json, e.scalar)), n)] + Tokenize(json, cs, AfterComma(cs, n))
  {
    hide NextMember, ParseValue, AfterComma, Printable, ValueOf, PrintScalar;
    MemberLead(json, cs, pos, e, rest);
    var v := pos + |Quote(e.key)| + 1;
    var n := pos + |PrintEntry(e)|;
    AtChar(cs, n, rest);
    ParsePrinted(json, cs, v, e.scalar);
  }

  lemma {:induction false} MemberLead(json: Json, cs: string, pos: nat, e: Entry, rest: string)
    requires Printable(json, e.scalar)
    requires At(cs, pos, PrintEntry(e) + rest)
    ensures var v := pos + |Quote(e.key)| + 1;
            && NextMember(cs, pos) == Member(e.key, v)
            && At(cs, v, PrintScalar(e.scalar))
            && At(cs, pos + |PrintEntry(e)|, rest)
  {
    var t := PrintScalar(e.scalar);
    AtSplit(cs, pos, PrintEntry(e), rest);
    AtSplit(cs, pos, Quote(e.key) + ":", t);
    ScalarStart(json, e.scalar);
    NextPrinted(cs, pos, e.key, t);
  }

  lemma ScalarStart(json: Json, scalar: Scalar)
    requires Printable(json, scalar)
    ensures PrintScalar(scalar) != "" && !IsWhitespace(PrintScalar(scalar)[0])
  {
  }

  lemma ShowsCons(json: Json, x: Insertion, ins: seq<Insertion>, entries: seq<Entry>)
    requires entries != [] && AllPrintable(json, entries)
    requires x.key == entries[0].key && x.field == Complete(ValueOf(json, entries[0].scalar))
    requires Shows(json, ins, entries[1..])
    ensures Shows(json, [x] + ins, entries)
  {
  }

  lemma {:induction false} TokenizePrinted(json: Json, cs: string, pos: nat, entries: seq<Entry>)
    requires AllPrintable(json, entries)
    requires At(cs, pos, PrintRest(entries))
    ensures Shows(json, Tokenize(json, cs, pos), entries)
    decreases |entries|
  {
    hide At, NextMember, ParseValue, AfterComma, Printable, ValueOf, ScanString, PrintEntry;
    if entries == [] {
      ClosePrinted(cs, pos);
    } else {
      var e := entries[0];
      var rest := if |entries| == 1 then "}" else "," + PrintRest(entries[1..]);
      var n := pos + |PrintEntry(e)|;
      MemberPrinted(json, cs, pos, e, rest);
      var m := AfterComma(cs, n);
      assert Shows(json, Tokenize(json, cs, m), entries[1..]) by {
        RestPrinted(cs, n, entries);
        if |entries| > 1 {
          TokenizePrinted(json, cs, m, entries[1..]);
        }
      }
      ShowsCons(json, Insertion(e.key, Complete(ValueOf(json, e.scalar)), n), Tokenize(json, cs, m), entries);
    }
  }

  lemma ClosePrinted(cs: string, pos: nat)
    requires At(cs, pos, "}")
    ensures NextMember(cs, pos) == Stop
  {
  }

  /** After a member the loop is at the next one, or at the closing brace. */
  lemma {:induction false} RestPrinted(cs: string, n: nat, entries: seq<Entry>)
    requires entries != []
    requires At(cs, n, if |entries| == 1 then "}" else "," + PrintRest(entries[1..]))
    ensures n <= |cs|
    ensures var m := AfterComma(cs, n);
            if |entries| == 1 then NextMember(cs, m) == Stop else At(cs, m, PrintRest(entries[1..]))
  {
    if |entries| == 1 {
      ClosePrinted(cs, n);
      AtChar(cs, n, "}");
      assert AfterComma(cs, n) == n;
    } else {
      AtChar(cs, n, "," + PrintRest(entries[1..]));
      AtSplit(cs, n, ",", PrintRest(entries[1..]));
      assert AfterComma(cs, n) == n + 1;
    }
  }

  /** Printer and tokenizer agree: every member comes back, in order and complete. */
  lemma {:induction false} RoundTrip(json: Json, entries: seq<Entry>)
    requires AllPrintable(json, entries)
    ensures Shows(json, Insertions(json, PrintObject(entries)), entries)
  {
    var cs := PrintObject(entries);
    assert cs == "{" + PrintRest(entries);
    assert At(cs, 1, PrintRest(entries));
    assert Start(cs) == 1;
    TokenizePrinted(json, cs, 1, entries);
  }

  /**
   While a printed object with distinct keys streams in, every field shown is
   honest: a complete field is the member's value and a partial one is a
   beginning of the member's string.
   */
  lemma {:induction false} PrefixesAreHonest(json: Json, entries: seq<Entry>, p: string, q: string, i: nat)
    requires AllPrintable(json, entries)
    requires forall a, b :: 0 <= a < b < |entries| ==> entries[a].key != entries[b].key
    requires p + q == PrintObject(entries)
    requires i < |entries|
    ensures match Get(FieldsOf(Insertions(json, p)), entries[i].key)
            case Missing => true
            case Partial(s) => entries[i].scalar.Words? && s <= entries[i].scalar.s
            case Complete(v) => v == ValueOf(json, entries[i].scalar)
  {
    RoundTrip(json, entries);
    var b := Insertions(json, p + q);
    assert DistinctKeys(b);
    DistinctGoForward(json, p, q, entries[i].key);
    FieldsOfDistinct(b);
    assert b[i].key == entries[i].key;
  }

  /** A key outside the printed object is never reported from a prefix of it. */
  lemma {:induction false} PrefixesInventNoKeys(json: Json, entries: seq<Entry>, p: string, q: string, key: string)
    requires AllPrintable(json, entries)
    requires p + q == PrintObject(entries)
    requires key in FieldsOf(Insertions(json, p))
    ensures exists i :: 0 <= i < |entries| && entries[i].key == key
  {
    RoundTrip(json, entries);
    PrefixStability(json, p, q);
    KeyWasInserted(Insertions(json, p), key);
    var i :| 0 <= i < |Insertions(json, p)| && Insertions(json, p)[i].key == key;
    assert Insertions(json, p + q)[i].key == key;
    assert entries[i].key == key;
  }

  lemma {:induction false} KeyWasInserted(ins: seq<Insertion>, key: string)
    requires key in FieldsOf(ins)
    ensures exists i :: 0 <= i < |ins| && ins[i].key == key
  {
    var n := |ins| - 1;
    if ins[n].key != key {
      KeyWasInserted(ins[..n], key);
    }
  }
}
