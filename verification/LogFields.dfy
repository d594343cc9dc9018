// Finding the value of a key in a logfmt line.
module LogFields {

  import opened Bytes

  predicate IsBlank(b: byte) { b == ' ' || b == '\t' }

  predicate Plain(s: bytes) { QUOTE !in s }

  predicate NoBlanks(s: bytes) { ' ' !in s && '\t' !in s }

  function UntilBlank(s: bytes): (r: bytes)
    ensures |r| <= |s|
  {
    if s == [] || IsBlank(s[0]) then [] else [s[0]] + UntilBlank(s[1..])
  }

  // A value: quoted, or up to the next blank. Without its closing quote it is
  // the trimmed remainder.
  function LogValue(s: bytes): bytes {
    if s != [] && s[0] == QUOTE then
      var rest := s[1..];
      if QUOTE in rest then UntilQuote(rest) else TrimSpace(rest)
    else UntilBlank(s)
  }

  function Pattern(key: bytes): bytes { key + ['='] }

  // What is found in the rest of a line; `start` says that the rest begins a
  // field and `quoted` that it is inside quotes.
  function Scan(s: bytes, key: bytes, start: bool, quoted: bool): bytes {
    if |s| < |Pattern(key)| then []
    else if s[0] == QUOTE then Scan(s[1..], key, false, !quoted)
    else if !quoted && start && Pattern(key) <= s then LogValue(s[|Pattern(key)|..])
    else Scan(s[1..], key, IsBlank(s[0]), quoted)
  }

  method LogField(line: bytes, key: bytes) returns (v: bytes)
    ensures v == Scan(line, key, true, false)
  {
    var pat := Pattern(key);
    var quoted := false;
    var i := 0;
    while i + |pat| <= |line|
      invariant 0 <= i <= |line|
      invariant Scan(line, key, true, false) == Scan(line[i..], key, i == 0 || IsBlank(line[i - 1]), quoted)
    {
      ghost var rest := line[i..];
      assert rest[1..] == line[i + 1..];
      if line[i] == QUOTE {
        quoted := !quoted;
        i := i + 1;
        continue;
      }
      if quoted || line[i..i + |pat|] != pat {
        assert line[i..i + |pat|] == rest[..|pat|];
        i := i + 1;
        continue;
      }
      assert rest[..|pat|] == pat && rest[|pat|..] == line[i + |pat|..];
      if i == 0 || IsBlank(line[i - 1]) {
        return LogValue(line[i + |pat|..]);
      }
      i := i + 1;
    }
    return [];
  }

  // ---------- printing ----------

  datatype Field = Field(key: bytes, value: bytes, quoted: bool) {
    // Quotes hold anything but quotes; a bare value has no blanks either.
    predicate Printable() {
      Key(key) && Plain(value) && (!quoted ==> NoBlanks(value))
    }

    function Shown(): bytes { if quoted then [QUOTE] + value + [QUOTE] else value }

    function Print(): bytes { Pattern(key) + Shown() }
  }

  predicate Key(key: bytes) { Plain(key) && NoBlanks(key) && '=' !in key }

  function Print(fields: seq<Field>): bytes {
    if fields == [] then []
    else if |fields| == 1 then fields[0].Print()
    else fields[0].Print() + [' '] + Print(fields[1..])
  }

  // The first field with the key, or nothing.
  function First(fields: seq<Field>, key: bytes): bytes {
    if fields == [] then []
    else if fields[0].key == key then fields[0].value
    else First(fields[1..], key)
  }

  // ---------- the round trip ----------

  lemma {:induction false} UntilBlankStops(v: bytes, rest: bytes)
    requires NoBlanks(v) && (rest != [] ==> IsBlank(rest[0]))
    ensures UntilBlank(v + rest) == v
  {
    if v == [] {
      assert v + rest == rest;
    } else {
      assert (v + rest)[1..] == v[1..] + rest;
      UntilBlankStops(v[1..], rest);
      assert v[0] in v;
    }
  }

  lemma QuotedReadsBack(v: bytes, rest: bytes)
    requires Plain(v)
    ensures LogValue([QUOTE] + v + [QUOTE] + rest) == v
  {
    var s, after := [QUOTE] + v + [QUOTE] + rest, v + [QUOTE] + rest;
    assert s == [QUOTE] + after;
    assert s[1..] == after && after[|v|] == QUOTE;
    UntilQuoteStops(v, rest);
  }

  lemma BareReadsBack(v: bytes, rest: bytes)
    requires Plain(v) && NoBlanks(v) && (rest != [] ==> IsBlank(rest[0]))
    ensures LogValue(v + rest) == v
  {
    UntilBlankStops(v, rest);
    assert v != [] ==> v[0] in v && (v + rest)[0] == v[0];
    assert v == [] ==> v + rest == rest;
  }

  lemma ShownReadsBack(f: Field, rest: bytes)
    requires f.Printable() && (rest != [] ==> IsBlank(rest[0]))
    ensures LogValue(f.Shown() + rest) == f.value
  {
    if f.quoted {
      QuotedReadsBack(f.value, rest);
    } else {
      BareReadsBack(f.value, rest);
    }
  }

  // Past the start of a field nothing can match until the next blank.
  lemma {:induction false} SkipBare(a: bytes, rest: bytes, key: bytes)
    requires Plain(a) && NoBlanks(a)
    ensures Scan(a + rest, key, false, false) == Scan(rest, key, false, false)
  {
    if a == [] {
      assert a + rest == rest;
    } else {
      assert (a + rest)[1..] == a[1..] + rest && a[0] in a;
      SkipBare(a[1..], rest, key);
    }
  }

  // Inside quotes nothing matches until they close.
  lemma {:induction false} SkipQuoted(a: bytes, rest: bytes, key: bytes, start: bool)
    requires Plain(a)
    ensures Scan(a + [QUOTE] + rest, key, start, true) == Scan(rest, key, false, false)
  {
    var s := a + [QUOTE] + rest;
    if a == [] {
      assert s[0] == QUOTE && s[1..] == rest;
    } else {
      assert s[1..] == a[1..] + [QUOTE] + rest && a[0] in a;
      SkipQuoted(a[1..], rest, key, IsBlank(a[0]));
    }
  }

  // And quotes that never close hide the rest of the line.
  lemma {:induction false} UnclosedQuoteHidesTheRest(s: bytes, key: bytes, start: bool)
    requires Plain(s)
    ensures Scan(s, key, start, true) == []
  {
    if s != [] {
      assert s[0] in s;
      UnclosedQuoteHidesTheRest(s[1..], key, IsBlank(s[0]));
    }
  }

  lemma SkipShown(f: Field, rest: bytes, key: bytes)
    requires f.Printable()
    ensures Scan(f.Shown() + rest, key, false, false) == Scan(rest, key, false, false)
  {
    if f.quoted {
      var s := f.Shown() + rest;
      assert s[0] == QUOTE && s[1..] == f.value + [QUOTE] + rest;
      SkipQuoted(f.value, rest, key, false);
    } else {
      SkipBare(f.value, rest, key);
    }
  }

  // A key is matched by no other key.
  lemma OneKeyMatches(k: bytes, key: bytes, rest: bytes)
    requires Key(k) && Key(key)
    ensures Pattern(key) <= Pattern(k) + rest <==> k == key
  {
    var s := Pattern(k) + rest;
    if Pattern(key) <= s {
      assert s[|k|] == '=' && s[|key|] == Pattern(key)[|key|] == '=';
      assert forall i :: 0 <= i < |key| ==> Pattern(key)[i] == key[i] && key[i] in key;
      assert forall i :: 0 <= i < |k| ==> s[i] == k[i] && k[i] in k;
    }
  }

  // A field that begins with the key is the one.
  lemma FoundAtOnce(key: bytes, tail: bytes)
    requires Key(key)
    ensures Scan(Pattern(key) + tail, key, true, false) == LogValue(tail)
  {
    var s := Pattern(key) + tail;
    assert s[|Pattern(key)|..] == tail && (key != [] ==> key[0] in key && s[0] == key[0]);
  }

  lemma FoundField(f: Field, rest: bytes)
    requires f.Printable() && (rest != [] ==> IsBlank(rest[0]))
    ensures Scan(f.Print() + rest, f.key, true, false) == f.value
  {
    var line := Pattern(f.key) + (f.Shown() + rest);
    assert f.Print() + rest == line;
    FoundAtOnce(f.key, f.Shown() + rest);
    ShownReadsBack(f, rest);
  }

  lemma SkipKey(k: bytes, tail: bytes, key: bytes)
    requires Key(k) && Key(key) && k != key
    ensures Scan(Pattern(k) + tail, key, true, false) == Scan(tail, key, false, false)
  {
    var s, head := Pattern(k) + tail, Pattern(k)[1..];
    OneKeyMatches(k, key, tail);
    assert s[1..] == head + tail;
    assert s[0] == Pattern(k)[0] && (k != [] ==> k[0] in k);
    assert Plain(head) && NoBlanks(head);
    SkipBare(head, tail, key);
  }

  lemma OtherField(f: Field, rest: bytes, key: bytes)
    requires f.Printable() && Key(key) && f.key != key
    ensures Scan(f.Print() + rest, key, true, false) == Scan(rest, key, false, false)
  {
    assert f.Print() + rest == Pattern(f.key) + (f.Shown() + rest);
    SkipKey(f.key, f.Shown() + rest, key);
    SkipShown(f, rest, key);
  }

  // Whatever fields are printed, the reader finds the first with its key: no
  // match comes out of a quoted value or off the tail of another key.
  lemma {:induction false} FieldReadsBack(fields: seq<Field>, key: bytes)
    requires Key(key) && forall f :: f in fields ==> f.Printable()
    ensures Scan(Print(fields), key, true, false) == First(fields, key)
  {
    if fields != [] {
      var f, more := fields[0], fields[1..];
      var rest := if |fields| == 1 then [] else [' '] + Print(more);
      assert Print(fields) == f.Print() + rest;
      if f.key == key {
        FoundField(f, rest);
      } else {
        OtherField(f, rest, key);
        if |fields| > 1 {
          FieldReadsBack(more, key);
          assert rest[1..] == Print(more);
        }
      }
    }
  }

  lemma BrokenField(broken: Field, key: bytes)
    requires Key(key) && broken.Printable() && broken.quoted
    ensures Scan(Pattern(broken.key) + [QUOTE] + broken.value, key, true, false) ==
            if broken.key == key then TrimSpace(broken.value) else []
  {
    var tail := [QUOTE] + broken.value;
    var s := Pattern(broken.key) + tail;
    assert Pattern(broken.key) + [QUOTE] + broken.value == s;
    assert tail[1..] == broken.value;
    if broken.key == key {
      FoundAtOnce(key, tail);
    } else {
      SkipKey(broken.key, tail, key);
      UnclosedQuoteHidesTheRest(broken.value, key, false);
    }
  }

  // A line cut off inside a quoted value.
  function PrintCut(fields: seq<Field>, broken: Field): bytes {
    if fields == [] then Pattern(broken.key) + [QUOTE] + broken.value
    else fields[0].Print() + [' '] + PrintCut(fields[1..], broken)
  }

  predicate HasKey(fields: seq<Field>, key: bytes) {
    fields != [] && (fields[0].key == key || HasKey(fields[1..], key))
  }

  // Of a last line still being written, the fields before the break are read,
  // and of the broken one what is there, but nothing that may come after it.
  lemma {:induction false} CutLineIsSilentAfterTheBreak(fields: seq<Field>, broken: Field, key: bytes)
    requires Key(key) && forall f :: f in fields ==> f.Printable()
    requires broken.Printable() && broken.quoted
    ensures Scan(PrintCut(fields, broken), key, true, false) ==
            if HasKey(fields, key) then First(fields, key)
            else if broken.key == key then TrimSpace(broken.value) else []
    decreases |fields|
  {
    if fields == [] {
      BrokenField(broken, key);
    } else {
      var f, more := fields[0], fields[1..];
      var rest := [' '] + PrintCut(more, broken);
      assert PrintCut(fields, broken) == f.Print() + rest;
      if f.key == key {
        FoundField(f, rest);
      } else {
        OtherField(f, rest, key);
        CutLineIsSilentAfterTheBreak(more, broken, key);
        assert rest[1..] == PrintCut(more, broken);
      }
    }
  }
}
