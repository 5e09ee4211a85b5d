/**
 What more input can change: every theorem here compares the tokenizer on a
 prefix `p` with the tokenizer on `p + q`, for all `p` and `q`.
 */
module StreamingJsonStability {
  import opened Prelude
  import opened Text
  import opened StreamingJson

  /**
   How the field stored by a value that reached the end of `p` may change
   when `q` arrives: text grows, an unknown may become anything, and a
   complete value stays unless it is a word that `q` continues.
   */
  ghost predicate FieldRefines(f: Field, g: Field, p: string, q: string) {
    match f
    case Missing => true
    case Partial(s) =>
      || (g.Partial? && s <= g.text)
      || (g.Complete? && g.value.String? && s <= g.value.s)
    case Complete(_) => if WordContinues(p, q) then g == f || g == Missing else g == f
  }

  /** `p` ends in a letter and `q` begins with one. */
  predicate WordContinues(p: string, q: string) {
    p != "" && q != "" && IsLetter(p[|p| - 1]) && IsLetter(q[0])
  }

  /** The insertions on `p` are those on `p + q`, except a last one whose value reached the end of `p`. */
  ghost predicate Refines(a: seq<Insertion>, b: seq<Insertion>, p: string, q: string) {
    && |a| <= |b|
    && forall i :: 0 <= i < |a| ==>
      && a[i].key == b[i].key
      && (a[i].end < |p| ==> b[i] == a[i])
      && (a[i].end == |p| ==> i == |a| - 1 && FieldRefines(a[i].field, b[i].field, p, q))
      && a[i].end <= |p|
  }

  // ---- Each scanner under extension ----

  lemma {:induction false} SkipWhitespaceExtends(p: string, q: string, pos: nat)
    requires pos <= |p|
    ensures var r := SkipWhitespace(p, pos);
            var s := SkipWhitespace(p + q, pos);
            if r < |p| then s == r else |p| <= s
    decreases |p| - pos
  {
    if pos < |p| && IsWhitespace(p[pos]) {
      SkipWhitespaceExtends(p, q, pos + 1);
    }
  }

  lemma {:induction false} ScanStringExtends(p: string, q: string, pos: nat)
    requires pos <= |p|
    ensures var r := ScanString(p, pos);
            var s := ScanString(p + q, pos);
            if r.closed then s == r else r.text <= s.text && |p| <= s.next
    decreases |p| - pos
  {
    if pos < |p| {
      if p[pos] == '\\' {
        if pos + 1 < |p| {
          ScanStringExtends(p, q, pos + 2);
        }
      } else if p[pos] != '"' {
        ScanStringExtends(p, q, pos + 1);
      }
    }
  }

  lemma {:induction false} ScanNestedExtends(p: string, q: string, pos: nat, closers: string, inString: bool)
    requires pos <= |p|
    ensures var r := ScanNested(p, pos, closers, inString);
            !r.Unfinished? ==> ScanNested(p + q, pos, closers, inString) == r
    decreases |p| - pos
  {
    if pos < |p| {
      var c := p[pos];
      assert (p + q)[pos] == c;
      if inString {
        if c == '\\' {
          ScanNestedExtends(p, q, Min(pos + 2, |p|), closers, true);
        } else {
          ScanNestedExtends(p, q, pos + 1, closers, c != '"');
        }
      } else if c == '"' {
        ScanNestedExtends(p, q, pos + 1, closers, true);
      } else if c == '{' {
        ScanNestedExtends(p, q, pos + 1, closers + "}", false);
      } else if c == '[' {
        ScanNestedExtends(p, q, pos + 1, closers + "]", false);
      } else if c == '}' || c == ']' {
        if closers != "" && closers[|closers| - 1] == c && |closers| != 1 {
          ScanNestedExtends(p, q, pos + 1, closers[..|closers| - 1], false);
        }
      } else {
        ScanNestedExtends(p, q, pos + 1, closers, false);
      }
    }
  }

  lemma {:induction false} NumberEndExtends(p: string, q: string, pos: nat)
    requires pos <= |p|
    ensures NumberEnd(p, pos) < |p| ==> NumberEnd(p + q, pos) == NumberEnd(p, pos)
    decreases |p| - pos
  {
    if pos < |p| && !IsValueTerminator(p[pos]) {
      NumberEndExtends(p, q, pos + 1);
    }
  }

  lemma {:induction false} LetterEndExtends(p: string, q: string, pos: nat)
    requires pos <= |p|
    ensures LetterEnd(p, pos) < |p| || q == "" || !IsLetter(q[0]) ==> LetterEnd(p + q, pos) == LetterEnd(p, pos)
    ensures LetterEnd(p, pos) == |p| && q != "" && IsLetter(q[0]) ==> LetterEnd(p + q, pos) > |p|
    decreases |p| - pos
  {
    if pos < |p| && IsLetter(p[pos]) {
      LetterEndExtends(p, q, pos + 1);
    }
  }

  // ---- Values under extension ----

  lemma LiteralExtends(p: string, q: string, pos: nat)
    requires pos < |p|
    requires IsLetter(p[pos])
    ensures var r := ParseLiteral(p, pos);
            var s := ParseLiteral(p + q, pos);
            if r.next < |p| || q == "" || !IsLetter(q[0]) then s == r
            else IsLetter(p[|p| - 1]) && (r.field.Complete? ==> s.field == Missing)
  {
    LetterEndExtends(p, q, pos);
    var e := LetterEnd(p, pos);
    var e' := LetterEnd(p + q, pos);
    if e' == e {
      assert (p + q)[pos..e] == p[pos..e];
    } else {
      var word := p[pos..e];
      var longer := (p + q)[pos..e'];
      assert longer[..|word|] == word;
      assert |word| < |longer|;
      assert word[0] == longer[0];
    }
  }

  /** A value that stopped before the end of `p` is final; one that reached it may be refined. */
  lemma ValueExtends(json: Json, p: string, q: string, pos: nat)
    requires pos < |p|
    ensures var r := ParseValue(json, p, pos);
            var s := ParseValue(json, p + q, pos);
            if r.next < |p| then s == r else FieldRefines(r.field, s.field, p, q)
  {
    var c := p[pos];
    assert (p + q)[pos] == c;
    if c == '"' {
      ScanStringExtends(p, q, pos + 1);
    } else if c == '{' || c == '[' {
      ScanNestedExtends(p, q, pos, "", false);
      match ScanNested(p, pos, "", false)
      case Balanced(end) => assert (p + q)[pos..end] == p[pos..end];
      case _ =>
    } else if IsDigit(c) || c == '-' {
      NumberEndExtends(p, q, pos);
      var e := NumberEnd(p, pos);
      assert (p + q)[pos..e] == p[pos..e];
    } else if c == 't' || c == 'f' || c == 'n' {
      LiteralExtends(p, q, pos);
    }
  }

  /** A complete value at the end of `p` changes exactly when its word goes on in `q`. */
  lemma CompleteValueExtends(json: Json, p: string, q: string, pos: nat)
    requires pos < |p|
    requires ParseValue(json, p, pos).field.Complete?
    requires ParseValue(json, p, pos).next == |p|
    ensures ParseValue(json, p + q, pos).field == (if WordContinues(p, q) then Missing else ParseValue(json, p, pos).field)
  {
    ValueExtends(json, p, q, pos);
    var c := p[pos];
    assert (p + q)[pos] == c;
    if c == 't' || c == 'f' || c == 'n' {
      LiteralExtends(p, q, pos);
    } else if IsDigit(c) || c == '-' {
      assert false;
    }
  }

  // ---- The main loop ----

  /** The step every pass of the loop takes when it stores a value. */
  lemma CommaExtends(p: string, q: string, pos: nat)
    requires pos <= |p|
    ensures AfterComma(p, pos) < |p| ==> AfterComma(p + q, pos) == AfterComma(p, pos)
    ensures SkipWhitespace(p, pos) < |p| ==> AfterComma(p + q, pos) == AfterComma(p, pos)
  {
    SkipWhitespaceExtends(p, q, pos);
  }

  lemma NextMemberExtends(p: string, q: string, pos: nat)
    requires pos <= |p|
    ensures var r := NextMember(p, pos);
            !r.Stop? ==> NextMember(p + q, pos) == r
  {
    hide ScanString, SkipWhitespace;
    var i := SkipWhitespace(p, pos);
    SkipWhitespaceExtends(p, q, pos);
    if i < |p| && p[i] == '"' {
      var key := ScanString(p, i + 1);
      ScanStringExtends(p, q, i + 1);
      if key.closed {
        var colon := SkipWhitespace(p, key.next);
        SkipWhitespaceExtends(p, q, key.next);
        if colon < |p| && p[colon] == ':' {
          SkipWhitespaceExtends(p, q, colon + 1);
        }
      }
    }
  }

  lemma TokenizeAtEnd(json: Json, p: string)
    ensures Tokenize(json, p, |p|) == []
  {
  }

  lemma RefinesCons(h: Insertion, h': Insertion, a: seq<Insertion>, b: seq<Insertion>, p: string, q: string)
    requires h'.key == h.key && h.end <= |p|
    requires if h.end < |p| then h' == h && Refines(a, b, p, q) else a == [] && FieldRefines(h.field, h'.field, p, q)
    ensures Refines([h] + a, [h'] + b, p, q)
  {
  }

  /** The member read at `v` and what follows it, on `p` and on `p + q`. */
  lemma {:induction false} MemberExtends(json: Json, p: string, q: string, v: nat)
    requires v < |p|
    ensures var r := ParseValue(json, p, v);
            var s := ParseValue(json, p + q, v);
            && (if r.next < |p| then s == r else FieldRefines(r.field, s.field, p, q))
            && (r.next < |p| && AfterComma(p, r.next) < |p| ==> AfterComma(p + q, s.next) == AfterComma(p, r.next))
            && (AfterComma(p, r.next) == |p| ==> Tokenize(json, p, AfterComma(p, r.next)) == [])
            && (r.next == |p| ==> AfterComma(p, r.next) == |p|)
  {
    ValueExtends(json, p, q, v);
    TokenizeAtEnd(json, p);
    CommaExtends(p, q, ParseValue(json, p, v).next);
  }

  lemma {:induction false} TokenizeExtends(json: Json, p: string, q: string, pos: nat)
    requires pos <= |p|
    ensures Refines(Tokenize(json, p, pos), Tokenize(json, p + q, pos), p, q)
    decreases |p| - pos
  {
    hide NextMember, ParseValue, AfterComma, FieldRefines;
    NextMemberExtends(p, q, pos);
    match NextMember(p, pos)
    case Stop =>
    case Stray(next) => TokenizeExtends(json, p, q, next);
    case Member(key, v) =>
      MemberExtends(json, p, q, v);
      var r := ParseValue(json, p, v);
      var s := ParseValue(json, p + q, v);
      var n := AfterComma(p, r.next);
      if n < |p| {
        TokenizeExtends(json, p, q, n);
      }
      RefinesCons(Insertion(key, r.field, r.next), Insertion(key, s.field, s.next),
                  Tokenize(json, p, n), Tokenize(json, p + q, AfterComma(p + q, s.next)), p, q);
  }

  /**
   Prefix stability: whatever arrives later, the insertions made on a prefix
   are the first insertions made on the whole, and only one whose value ran
   into the end of the prefix can be refined.
   */
  lemma {:induction false} PrefixStability(json: Json, p: string, q: string)
    ensures Refines(Insertions(json, p), Insertions(json, p + q), p, q)
  {
    hide Tokenize, FieldRefines;
    StartExtends(p, q);
    if Start(p) < |p| || Start(p + q) == Start(p) {
      TokenizeExtends(json, p, q, Start(p));
    } else {
      TokenizeAtEnd(json, p);
    }
  }

  /** The beginning is found on the prefix, unless it is all white space. */
  lemma StartExtends(p: string, q: string)
    ensures Start(p + q) == Start(p) || Start(p) == |p|
  {
    SkipWhitespaceExtends(p, q, 0);
    var i := SkipWhitespace(p, 0);
    if i < |p| {
      assert (p + q)[i] == p[i];
    }
  }

  // ---- When a complete field changes ----

  /** Every insertion is a value read at some cursor, the same cursor on any extension. */
  lemma {:induction false} InsertionOrigin(json: Json, p: string, q: string, pos: nat, i: nat) returns (v: nat)
    requires pos <= |p|
    requires i < |Tokenize(json, p, pos)|
    ensures v < |p|
    ensures var x := Tokenize(json, p, pos)[i];
            Parsed(x.field, x.end) == ParseValue(json, p, v)
    ensures i < |Tokenize(json, p + q, pos)|
    ensures var y := Tokenize(json, p + q, pos)[i];
            Parsed(y.field, y.end) == ParseValue(json, p + q, v)
    decreases |p| - pos
  {
    hide NextMember, ParseValue, AfterComma, FieldRefines;
    NextMemberExtends(p, q, pos);
    match NextMember(p, pos)
    case Stray(next) => v := InsertionOrigin(json, p, q, next, i);
    case Member(key, w) =>
      if i == 0 {
        v := w;
      } else {
        MemberExtends(json, p, q, w);
        v := InsertionOrigin(json, p, q, AfterComma(p, ParseValue(json, p, w).next), i - 1);
      }
  }

  /**
   A field reported Complete keeps its value on longer input if and only if
   it is not a bare word at the very end of the input that a letter continues.
   */
  lemma {:induction false} CompleteFieldsAreFinal(json: Json, p: string, q: string, i: nat)
    requires i < |Insertions(json, p)|
    requires Insertions(json, p)[i].field.Complete?
    ensures i < |Insertions(json, p + q)|
    ensures Insertions(json, p + q)[i].field == Insertions(json, p)[i].field
      <==> !(Insertions(json, p)[i].end == |p| && WordContinues(p, q))
  {
    PrefixStability(json, p, q);
    SkipWhitespaceExtends(p, q, 0);
    TokenizeAtEnd(json, p);
    assert Start(p + q) == Start(p);
    var a := Insertions(json, p)[i];
    if a.end == |p| {
      var v := InsertionOrigin(json, p, q, Start(p), i);
      CompleteValueExtends(json, p, q, v);
    }
  }

  /** The exception is real: `true` at the end of the input is withdrawn when `x` follows. */
  lemma {:induction false} CompleteWordCanBeWithdrawn(json: Json)
    ensures Insertions(json, "\"a\":true") == [Insertion("a", Complete(Bool(true)), 8)]
    ensures |Insertions(json, "\"a\":true" + "x")| >= 1
    ensures Insertions(json, "\"a\":true" + "x")[0].field != Complete(Bool(true))
  {
    var p := "\"a\":true";
    ReadsTrue(json);
    TokenizeAtEnd(json, p);
    assert Tokenize(json, p, 0) == [Insertion("a", Complete(Bool(true)), 8)] by {
      hide ParseValue, NextMember;
    }
    assert WordContinues(p, "x");
    CompleteFieldsAreFinal(json, p, "x", 0);
  }

  lemma {:induction false} ReadsTrue(json: Json)
    ensures Start("\"a\":true") == 0
    ensures NextMember("\"a\":true", 0) == Member("a", 4)
    ensures ParseValue(json, "\"a\":true", 4) == Parsed(Complete(Bool(true)), 8)
  {
    var p := "\"a\":true";
    ReadsKey();
    hide NextMember, ScanString, ScanNested, NumberEnd;
    assert LetterEnd(p, 8) == 8;
    assert LetterEnd(p, 6) == 8;
    assert LetterEnd(p, 4) == 8;
    assert p[4..8] == "true";
  }

  lemma ReadsKey()
    ensures NextMember("\"a\":true", 0) == Member("a", 4)
  {
    var p := "\"a\":true";
    assert ScanString(p, 2) == Scan("", 3, true);
    assert ScanString(p, 1) == Scan("a", 3, true);
    hide ScanString;
  }

  // ---- The map callers see ----

  ghost predicate DistinctKeys(ins: seq<Insertion>) {
    forall i, j :: 0 <= i < j < |ins| ==> ins[i].key != ins[j].key
  }

  lemma {:induction false} FieldsOfDistinct(ins: seq<Insertion>)
    requires DistinctKeys(ins)
    ensures forall i :: 0 <= i < |ins| ==> ins[i].key in FieldsOf(ins) && FieldsOf(ins)[ins[i].key] == ins[i].field
    ensures forall k :: k in FieldsOf(ins) ==> exists i :: 0 <= i < |ins| && ins[i].key == k
  {
    if ins != [] {
      FieldsOfDistinct(ins[..|ins| - 1]);
    }
  }

  /** The insertion of `key` that counts. */
  function LastOf(ins: seq<Insertion>, key: string): (r: Option<nat>)
    ensures r.Some? ==> r.value < |ins| && ins[r.value].key == key
    ensures forall i :: (if r.Some? then r.value else -1) < i < |ins| ==> ins[i].key != key
  {
    if ins == [] then None
    else if ins[|ins| - 1].key == key then Some(|ins| - 1)
    else LastOf(ins[..|ins| - 1], key)
  }

  lemma {:induction false} GetIsLast(ins: seq<Insertion>, key: string)
    ensures Get(FieldsOf(ins), key)
         == match LastOf(ins, key) case Some(i) => ins[i].field case None => Missing
  {
    if ins != [] && ins[|ins| - 1].key != key {
      GetIsLast(ins[..|ins| - 1], key);
    }
  }

  /**
   Per key: as text streams in, a key's field goes forward if and only if no
   later insertion of the key stores something else than a refinement. When it is
   not inserted again it always does.
   */
  lemma {:induction false} KeysGoForward(json: Json, p: string, q: string, key: string)
    ensures var a, b := Insertions(json, p), Insertions(json, p + q);
            var f, g := Get(FieldsOf(a), key), Get(FieldsOf(b), key);
            var again := LastOf(b, key).Some? && LastOf(b, key).value >= |a|;
            && (!again ==> FieldRefines(f, g, p, q))
            && (again ==> g == b[LastOf(b, key).value].field)
            && (FieldRefines(f, g, p, q) <==> !again || FieldRefines(f, b[LastOf(b, key).value].field, p, q))
  {
    PrefixStability(json, p, q);
    var a, b := Insertions(json, p), Insertions(json, p + q);
    GetIsLast(a, key);
    GetIsLast(b, key);
    if LastOf(b, key).None? || LastOf(b, key).value < |a| {
      SameLast(a, b, key);
    }
  }

  /** When `key` is not inserted again, its last insertion is the same one. */
  lemma SameLast(a: seq<Insertion>, b: seq<Insertion>, key: string)
    requires |a| <= |b| && forall i :: 0 <= i < |a| ==> a[i].key == b[i].key
    requires LastOf(b, key).Some? ==> LastOf(b, key).value < |a|
    ensures LastOf(a, key) == LastOf(b, key)
  {
    if LastOf(b, key).Some? {
      assert a[LastOf(b, key).value].key == key;
    }
    if LastOf(a, key).Some? {
      assert b[LastOf(a, key).value].key == key;
    }
  }

  /** With distinct keys every field goes forward. */
  lemma {:induction false} DistinctGoForward(json: Json, p: string, q: string, key: string)
    requires DistinctKeys(Insertions(json, p + q))
    ensures FieldRefines(Get(FieldsOf(Insertions(json, p)), key), Get(FieldsOf(Insertions(json, p + q)), key), p, q)
  {
    hide Insertions, FieldsOf, FieldRefines;
    KeysGoForward(json, p, q, key);
    PrefixStability(json, p, q);
    var a, b := Insertions(json, p), Insertions(json, p + q);
    GetIsLast(a, key);
    if LastOf(a, key).Some? {
      assert b[LastOf(a, key).value].key == key;
    } else {
      MissingRefines(Get(FieldsOf(b), key), p, q);
    }
  }

  lemma MissingRefines(g: Field, p: string, q: string)
    ensures FieldRefines(Missing, g, p, q)
  {
  }

  /** With its key repeated, a field goes back from complete to partial. */
  lemma {:induction false} RepeatedKeyGoesBack(json: Json)
    ensures var p, q := "\"a\":true,", "\"a\":\"";
            && Get(FieldsOf(Insertions(json, p)), "a") == Complete(Bool(true))
            && Get(FieldsOf(Insertions(json, p + q)), "a") == Partial("")
  {
    var p, q := "\"a\":true,", "\"a\":\"";
    var x, y := Insertion("a", Complete(Bool(true)), 8), Insertion("a", Partial(""), 14);
    ReadsFirst(json, p, "");
    ReadsFirst(json, p, q);
    assert p + "" == p;
    ReadsSecond(json);
    TokenizeAtEnd(json, p);
    TokenizeAtEnd(json, p + q);
    hide NextMember, ParseValue, AfterComma;
    assert Insertions(json, p) == [x];
    assert Insertions(json, p + q) == [x] + Tokenize(json, p + q, 9) == [x] + [y];
    GetIsLast([x], "a");
    GetIsLast([x, y], "a");
  }

  lemma {:induction false} ReadsFirst(json: Json, p: string, q: string)
    requires p == "\"a\":true,"
    ensures Start(p + q) == 0
    ensures NextMember(p + q, 0) == Member("a", 4)
    ensures ParseValue(json, p + q, 4) == Parsed(Complete(Bool(true)), 8)
    ensures AfterComma(p + q, 8) == 9
  {
    var cs := p + q;
    assert ScanString(cs, 2) == Scan("", 3, true);
    assert ScanString(cs, 1) == Scan("a", 3, true);
    assert LetterEnd(cs, 8) == 8;
    assert LetterEnd(cs, 6) == 8;
    assert LetterEnd(cs, 4) == 8;
    assert cs[4..8] == "true";
  }

  lemma {:induction false} ReadsSecond(json: Json)
    ensures var cs := "\"a\":true," + "\"a\":\"";
            && NextMember(cs, 9) == Member("a", 13)
            && ParseValue(json, cs, 13) == Parsed(Partial(""), 14)
            && AfterComma(cs, 14) == 14
  {
    var cs := "\"a\":true," + "\"a\":\"";
    assert ScanString(cs, 11) == Scan("", 12, true);
    assert ScanString(cs, 10) == Scan("a", 12, true);
    assert ScanString(cs, 14) == Scan("", 14, false);
  }
}
