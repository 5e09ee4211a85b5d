/**
 Escapes in a streaming string (crates/core/src/partial_json.rs): while it is
 open five are decoded and the others kept verbatim; once the JSON is complete
 all are decoded, as section 7 of RFC 8259 has them.
 */
module StreamingJsonEscapes {
  import opened Prelude
  import opened StreamingJson
  import opened StreamingJsonStability
  import opened StreamingJsonPrinter

  // ---- What a complete string means ----

  predicate IsHex(c: char) {
    '0' <= c <= '9' || 'a' <= c <= 'f' || 'A' <= c <= 'F'
  }

  function HexValue(c: char): (v: nat)
    requires IsHex(c)
    ensures v < 16
  {
    if '0' <= c <= '9' then c as nat - '0' as nat
    else if 'a' <= c <= 'f' then c as nat - 'a' as nat + 10
    else c as nat - 'A' as nat + 10
  }

  /** The code unit of a `\uXXXX` escape at `pos`. */
  function CodeUnit(raw: string, pos: nat): (u: Option<nat>)
    requires pos <= |raw|
    ensures u.Some? ==> pos + 6 <= |raw| && raw[pos] == '\\' && raw[pos + 1] == 'u' && u.value < 0x10000
    ensures u.Some? ==> forall k :: pos + 2 <= k < pos + 6 ==> IsHex(raw[k])
  {
    if pos + 6 <= |raw| && raw[pos] == '\\' && raw[pos + 1] == 'u'
       && IsHex(raw[pos + 2]) && IsHex(raw[pos + 3]) && IsHex(raw[pos + 4]) && IsHex(raw[pos + 5])
    then
      Some(((HexValue(raw[pos + 2]) * 16 + HexValue(raw[pos + 3])) * 16 + HexValue(raw[pos + 4])) * 16 + HexValue(raw[pos + 5]))
    else None
  }

  /** A decoded character and where the next one starts. */
  datatype Decoded = Decoded(c: char, next: nat)

  function ShortEscape(c: char): Option<char> {
    match c
    case '"' => Some('"')
    case '\\' => Some('\\')
    case '/' => Some('/')
    case 'b' => Some('\U{0008}')
    case 'f' => Some('\U{000C}')
    case 'n' => Some('\n')
    case 'r' => Some('\r')
    case 't' => Some('\t')
    case _ => None
  }

  /** A code unit alone, or a high surrogate with the low one that has to follow. */
  function DecodeUnit(raw: string, pos: nat, u: nat): (r: Option<Decoded>)
    requires pos + 6 <= |raw| && CodeUnit(raw, pos) == Some(u)
    ensures r.Some? ==> r.value.next == pos + 6 || (r.value.next == pos + 12 && CodeUnit(raw, pos + 6).Some?)
  {
    if u < 0xD800 || 0xE000 <= u then Some(Decoded(u as char, pos + 6))
    else if 0xDC00 <= u then None
    else match CodeUnit(raw, pos + 6)
      case Some(low) =>
        if 0xDC00 <= low < 0xE000
        then Some(Decoded((0x10000 + (u - 0xD800) * 0x400 + (low - 0xDC00)) as char, pos + 12))
        else None
      case None => None
  }

  function DecodeOne(raw: string, pos: nat): (r: Option<Decoded>)
    requires pos < |raw|
    ensures r.Some? ==> pos < r.value.next <= |raw|
  {
    if raw[pos] == '"' || raw[pos] < ' ' then None
    else if raw[pos] != '\\' then Some(Decoded(raw[pos], pos + 1))
    else if pos + 1 == |raw| then None
    else match ShortEscape(raw[pos + 1])
      case Some(c) => Some(Decoded(c, pos + 2))
      case None => if CodeUnit(raw, pos).Some? then DecodeUnit(raw, pos, CodeUnit(raw, pos).value) else None
  }

  /** The value of the string with contents `raw[pos..]`; None when it is not one JSON allows. */
  function Decode(raw: string, pos: nat): Option<string>
    requires pos <= |raw|
    decreases |raw| - pos
  {
    if pos == |raw| then Some("")
    else match DecodeOne(raw, pos)
      case None => None
      case Some(d) =>
        match Decode(raw, d.next)
        case None => None
        case Some(rest) => Some([d.c] + rest)
  }

  /** Every escape from `pos` on is one of the five that are decoded early. */
  predicate OnlyFive(raw: string, pos: nat)
    requires pos <= |raw| && Decode(raw, pos).Some?
    decreases |raw| - pos
  {
    pos < |raw| ==>
      && (raw[pos] == '\\' ==> raw[pos + 1] in {'n', 'r', 't', '\\', '"'})
      && OnlyFive(raw, DecodeOne(raw, pos).value.next)
  }

  // ---- What is shown early ----

  lemma PrependMore(s: string, t: string, r: Scan)
    ensures Prepend(s, Prepend(t, r)) == Prepend(s + t, r)
  {
    assert s + (t + r.text) == (s + t) + r.text;
  }

  lemma SliceCons(cs: string, i: nat, j: nat)
    requires i < j <= |cs|
    ensures [cs[i]] + cs[i + 1..j] == cs[i..j]
  {
  }

  lemma {:induction false} ScanPlain(cs: string, pos: nat, n: nat)
    requires 0 < n && pos + n <= |cs|
    requires forall k :: pos <= k < pos + n ==> cs[k] != '\\' && cs[k] != '"'
    ensures ScanString(cs, pos) == Prepend(cs[pos..pos + n], ScanString(cs, pos + n))
    decreases n
  {
    hide Prepend;
    SliceCons(cs, pos, pos + n);
    if n > 1 {
      ScanPlain(cs, pos + 1, n - 1);
      PrependMore([cs[pos]], cs[pos + 1..pos + n], ScanString(cs, pos + n));
    } else {
      assert cs[pos + 1..pos + 1] == "" && [cs[pos]] + "" == [cs[pos]];
    }
  }

  lemma {:induction false} ScanUnit(raw: string, pos: nat)
    requires pos <= |raw| && CodeUnit(raw, pos).Some?
    ensures ScanString(raw, pos) == Prepend(raw[pos..pos + 6], ScanString(raw, pos + 6))
  {
    ScanPlain(raw, pos + 2, 4);
    var r := ScanString(raw, pos + 6);
    assert raw[pos..pos + 6] == ['\\', 'u'] + raw[pos + 2..pos + 6];
    assert ['\\', 'u'] + (raw[pos + 2..pos + 6] + r.text) == raw[pos..pos + 6] + r.text;
  }

  lemma {:induction false} ScanUnits(raw: string, pos: nat)
    requires pos + 6 <= |raw| && CodeUnit(raw, pos).Some? && CodeUnit(raw, pos + 6).Some?
    ensures ScanString(raw, pos) == Prepend(raw[pos..pos + 12], ScanString(raw, pos + 12))
  {
    ScanUnit(raw, pos);
    ScanUnit(raw, pos + 6);
    hide Prepend, ScanString, CodeUnit;
    PrependMore(raw[pos..pos + 6], raw[pos + 6..pos + 12], ScanString(raw, pos + 12));
    assert raw[pos..pos + 12] == raw[pos..pos + 6] + raw[pos + 6..pos + 12];
  }

  /** What one decoded character was shown as: itself, or more than one character. */
  lemma {:induction false} ScanOne(raw: string, pos: nat) returns (shown: string)
    requires pos < |raw| && DecodeOne(raw, pos).Some?
    ensures var d := DecodeOne(raw, pos).value;
            && ScanString(raw, pos) == Prepend(shown, ScanString(raw, d.next))
            && if raw[pos] == '\\' && raw[pos + 1] !in {'n', 'r', 't', '\\', '"'} then |shown| > 1 else shown == [d.c]
  {
    var d := DecodeOne(raw, pos).value;
    if raw[pos] != '\\' {
      shown := [d.c];
    } else if ShortEscape(raw[pos + 1]).Some? {
      shown := Unescape(raw[pos + 1]);
    } else {
      hide Prepend, ScanString, Unescape;
      shown := raw[pos..d.next];
      if d.next == pos + 12 {
        ScanUnits(raw, pos);
      } else {
        ScanUnit(raw, pos);
      }
    }
  }

  /** The whole text as shown: the value if only the five escapes occur, and longer than the value otherwise. */
  lemma {:induction false} ShownExactly(raw: string, pos: nat)
    requires pos <= |raw| && Decode(raw, pos).Some?
    ensures var r, v := ScanString(raw, pos), Decode(raw, pos).value;
            !r.closed && if OnlyFive(raw, pos) then r.text == v else |r.text| > |v|
    decreases |raw| - pos
  {
    if pos < |raw| {
      var shown := ScanOne(raw, pos);
      ShownExactly(raw, DecodeOne(raw, pos).value.next);
    }
  }

  /** What the tokenizer shows of an open string whose contents so far are `part`. */
  function Shown(part: string): string {
    ScanString(part, 0).text
  }

  predicate IsPrefix(s: string, t: string) {
    s <= t
  }

  /**
   Every text shown while the string streams in is a beginning of its final
   value if and only if the string uses only the five escapes.
   */
  lemma {:induction false} EarlyTextIsBeginningExactly(raw: string)
    requires Decode(raw, 0).Some?
    ensures (forall n :: 0 <= n <= |raw| ==> IsPrefix(Shown(raw[..n]), Decode(raw, 0).value)) <==> OnlyFive(raw, 0)
  {
    ShownExactly(raw, 0);
    if OnlyFive(raw, 0) {
      forall n | 0 <= n <= |raw|
        ensures IsPrefix(Shown(raw[..n]), Decode(raw, 0).value)
      {
        assert raw == raw[..n] + raw[n..];
        ScanStringExtends(raw[..n], raw[n..], 0);
      }
    } else {
      assert raw[..|raw|] == raw;
      assert !IsPrefix(Shown(raw[..|raw|]), Decode(raw, 0).value);
    }
  }

  // ---- Across the two paths ----

  /** The input ends right behind the quote that opens a value of `key`. */
  predicate OpensString(json: Json, open: string, key: string) {
    var ins := Insertions(json, open);
    && open != "" && open[|open| - 1] == '"'
    && ins != [] && ins[|ins| - 1] == Insertion(key, Partial(""), |open|)
  }

  lemma {:induction false} ScanBehind(a: string, b: string, pos: nat)
    requires pos <= |b|
    ensures var r, s := ScanString(a + b, |a| + pos), ScanString(b, pos);
            r.text == s.text && r.closed == s.closed && r.next == |a| + s.next
    decreases |b| - pos
  {
    var cs := a + b;
    if pos < |b| {
      assert cs[|a| + pos] == b[pos];
      if b[pos] == '\\' {
        if pos + 1 < |b| {
          assert cs[|a| + pos + 1] == b[pos + 1];
          ScanBehind(a, b, pos + 2);
        }
      } else if b[pos] != '"' {
        ScanBehind(a, b, pos + 1);
      }
    }
  }

  /** An empty text that reached the closing quote was read from just behind it. */
  lemma {:induction false} EmptyScan(cs: string, pos: nat)
    requires pos <= |cs| && cs != "" && cs[|cs| - 1] == '"'
    requires ScanString(cs, pos) == Scan("", |cs|, false)
    ensures pos == |cs|
  {
  }

  lemma {:induction false} OpenValue(json: Json, cs: string, v: nat)
    requires v < |cs| && cs[|cs| - 1] == '"'
    requires ParseValue(json, cs, v) == Parsed(Partial(""), |cs|)
    ensures v == |cs| - 1
  {
    hide ScanNested, NumberEnd, LetterEnd, ScanString;
    EmptyScan(cs, v + 1);
  }

  /** The string that follows is the value's text so far. */
  lemma {:induction false} OpenTextAt(json: Json, open: string, part: string)
    requires open != "" && open[|open| - 1] == '"' && !ScanString(part, 0).closed
    ensures ParseValue(json, open + part, |open| - 1) == Parsed(Partial(Shown(part)), |open + part|)
  {
    assert (open + part)[|open| - 1] == '"';
    ScanBehind(open, part, 0);
    hide ScanString;
  }

  lemma {:induction false} OpenInsertion(json: Json, open: string, key: string, part: string)
    requires OpensString(json, open, key) && !ScanString(part, 0).closed
    ensures var b := Insertions(json, open + part);
            b != [] && b[|b| - 1] == Insertion(key, Partial(Shown(part)), |open + part|)
  {
    hide NextMember, ParseValue, Tokenize, FieldRefines, ScanString;
    var n := |Insertions(json, open)| - 1;
    PrefixStability(json, open, part);
    StartExtends(open, part);
    TokenizeAtEnd(json, open);
    var v := InsertionOrigin(json, open, part, Start(open), n);
    OpenValue(json, open, v);
    OpenTextAt(json, open, part);
    var b := Insertions(json, open + part);
    assert b[n] == Insertion(key, Partial(Shown(part)), |open + part|);
    PrefixStability(json, open + part, "");
  }

  /** The tokenizer shows the open string. */
  lemma {:induction false} ShowsOpened(json: Json, open: string, key: string, part: string)
    requires OpensString(json, open, key) && json(open + part).None? && !ScanString(part, 0).closed
    ensures Get(ParseFields(json, open + part), key) == Partial(Shown(part))
  {
    hide ScanString, Insertions, OpensString;
    OpenInsertion(json, open, key, part);
    GetIsLast(Insertions(json, open + part), key);
  }

  /** The text shown for `key` is a beginning of `v`. */
  predicate ShowsBeginning(fields: map<string, Field>, key: string, v: string) {
    Get(fields, key).Partial? && IsPrefix(Get(fields, key).text, v)
  }

  /** The JSON reader takes `whole` for an object in which `key` is the string `v`. */
  predicate Reads(json: Json, whole: string, key: string, v: string) {
    match json(whole)
    case Some(Object(members)) => key in members && members[key] == String(v)
    case _ => false
  }

  /**
   A string value, behind any members before it, shown by the tokenizer while it
   streams in and by the JSON reader once the input `whole` is complete: what was
   shown is a beginning of the final value, at every moment, if and only if the
   string uses only the five escapes.
   */
  lemma {:induction false} PartialIsBeginningExactly(json: Json, open: string, key: string, raw: string, whole: string)
    requires OpensString(json, open, key) && Decode(raw, 0).Some?
    requires Reads(json, whole, key, Decode(raw, 0).value)
    requires forall n :: 0 <= n <= |raw| ==> json(open + raw[..n]).None?
    ensures var final := Get(ParseFields(json, whole), key);
            && final.Complete? && final.value.String?
            && ((forall n :: 0 <= n <= |raw| ==> ShowsBeginning(ParseFields(json, open + raw[..n]), key, final.value.s))
                <==> OnlyFive(raw, 0))
  {
    EarlyTextIsBeginningExactly(raw);
    var v := Decode(raw, 0).value;
    forall n | 0 <= n <= |raw|
      ensures ShowsBeginning(ParseFields(json, open + raw[..n]), key, v) <==> IsPrefix(Shown(raw[..n]), v)
    {
      hide ScanString, Decode, OnlyFive, OpensString, ParseFields, IsPrefix;
      StillOpen(raw, n);
      ShowsOpened(json, open, key, raw[..n]);
    }
    hide ScanString, OnlyFive, OpensString, IsPrefix, Insertions;
  }

  // ---- Inputs that end behind an opening quote ----

  /** Closed members, and a member whose string has just been opened. */
  function PrintOpen(entries: seq<Entry>, key: string): string {
    if entries == [] then Quote(key) + ":" + "\""
    else PrintEntry(entries[0]) + ("," + PrintOpen(entries[1..], key))
  }

  lemma OpenLead(json: Json, cs: string, pos: nat, key: string)
    requires At(cs, pos, Quote(key) + ":" + "\"") && pos + |Quote(key)| + 2 == |cs|
    ensures Tokenize(json, cs, pos) == [Insertion(key, Partial(""), |cs|)]
    ensures cs[|cs| - 1] == '"'
  {
    hide Quote, At, ScanString, NextMember;
    NextPrinted(cs, pos, key, "\"");
    AtSplit(cs, pos, Quote(key) + ":", "\"");
    var v := |cs| - 1;
    AtChar(cs, v, "\"");
    EndScan(cs);
    TokenizeAtEnd(json, cs);
    assert AfterComma(cs, |cs|) == |cs|;
  }

  lemma EndScan(cs: string)
    ensures ScanString(cs, |cs|) == Scan("", |cs|, false)
  {
  }

  lemma {:induction false} TokenizeOpen(json: Json, cs: string, pos: nat, entries: seq<Entry>, key: string)
    requires AllPrintable(json, entries)
    requires At(cs, pos, PrintOpen(entries, key)) && pos + |PrintOpen(entries, key)| == |cs|
    ensures var ins := Tokenize(json, cs, pos);
            ins != [] && ins[|ins| - 1] == Insertion(key, Partial(""), |cs|)
    ensures cs[|cs| - 1] == '"'
    decreases |entries|
  {
    hide At, NextMember, ParseValue, AfterComma, Printable, ValueOf, ScanString, PrintEntry, Tokenize, Quote;
    if entries == [] {
      OpenLead(json, cs, pos, key);
    } else {
      var rest := PrintOpen(entries[1..], key);
      var n := pos + |PrintEntry(entries[0])|;
      MemberPrinted(json, cs, pos, entries[0], "," + rest);
      CommaBefore(cs, n, rest);
      TokenizeOpen(json, cs, n + 1, entries[1..], key);
    }
  }

  lemma CommaBefore(cs: string, n: nat, rest: string)
    requires At(cs, n, "," + rest)
    ensures AfterComma(cs, n) == n + 1 && At(cs, n + 1, rest)
  {
    AtSplit(cs, n, ",", rest);
    AtChar(cs, n, "," + rest);
  }

  /** Such are all beginnings of printed objects that end at the opening quote of a string. */
  lemma {:induction false} PrintedOpens(json: Json, entries: seq<Entry>, key: string)
    requires AllPrintable(json, entries)
    ensures OpensString(json, "{" + PrintOpen(entries, key), key)
  {
    var cs := "{" + PrintOpen(entries, key);
    assert At(cs, 1, PrintOpen(entries, key));
    assert Start(cs) == 1;
    hide At, Tokenize, PrintOpen;
    TokenizeOpen(json, cs, 1, entries, key);
  }

  /** A string that can be decoded does not end inside. */
  lemma StillOpen(raw: string, n: nat)
    requires Decode(raw, 0).Some? && n <= |raw|
    ensures !ScanString(raw[..n], 0).closed
  {
    hide ScanString, Decode, OnlyFive;
    ShownExactly(raw, 0);
    assert raw == raw[..n] + raw[n..];
    ScanStringExtends(raw[..n], raw[n..], 0);
  }

  /** An escaped slash is shown with its backslash, which the final value does not have. */
  lemma {:induction false} SlashShownVerbatim()
    ensures Decode("\\/", 0) == Some("/") && !OnlyFive("\\/", 0)
    ensures Shown("\\/") == "\\/" && !IsPrefix(Shown("\\/"), "/")
  {
    var raw := "\\/";
    assert ScanString(raw, 2) == Scan("", 2, false);
    assert Decode(raw, 2) == Some("");
    assert ['/'] + "" == "/" && ['\\', '/'] + "" == raw;
  }
}
