// Counting edge connections in a connector's EDGE column.
module EdgeCount {

  import opened Bytes
  import D = Decimal

  const COMMA: byte := ','
  const TIMES: byte := 'x'

  predicate IsDigit(b: byte) { '0' <= b <= '9' }

  // Three letters and at least one digit.
  predicate IsColo(s: bytes) {
    && |s| >= 4
    && (forall i :: 0 <= i < 3 ==> 'a' <= s[i] <= 'z')
    && (forall i :: 3 <= i < |s| ==> IsDigit(s[i]))
  }

  // ---------- what the column says ----------

  datatype Edge = Bare(colo: bytes) | Counted(n: nat, colo: bytes) {
    predicate Sound() { IsColo(colo) && (Counted? ==> n <= D.MAX_INT) }

    function Print(): bytes { if Bare? then colo else D.Decimal(n) + [TIMES] + colo }

    function Number(): nat { if Bare? then 1 else n }
  }

  function Join(parts: seq<bytes>): bytes {
    if parts == [] then []
    else if |parts| == 1 then parts[0]
    else parts[0] + [COMMA] + Join(parts[1..])
  }

  function Printed(edges: seq<Edge>): seq<bytes> {
    if edges == [] then [] else Printed(edges[..|edges| - 1]) + [edges[|edges| - 1].Print()]
  }

  function Sum(edges: seq<Edge>): nat {
    if edges == [] then 0 else Sum(edges[..|edges| - 1]) + edges[|edges| - 1].Number()
  }

  // ---------- what the reader does ----------

  function Until(s: bytes, b: byte): (r: bytes)
    ensures |r| <= |s| && b !in r
    ensures b in s ==> |r| < |s| && s[|r|] == b
    ensures b !in s ==> r == s
    ensures r == s[..|r|]
  {
    if s == [] || s[0] == b then [] else [s[0]] + Until(s[1..], b)
  }

  function Split(s: bytes): (parts: seq<bytes>)
    ensures parts != []
    decreases |s|
  {
    if COMMA !in s then [s] else [Until(s, COMMA)] + Split(s[|Until(s, COMMA)| + 1..])
  }

  datatype Entry = Malformed | Entry(number: nat)

  function ReadEntry(entry: bytes): Entry {
    if entry != [] && IsDigit(entry[0]) then
      if TIMES !in entry then Malformed
      else
        var prefix := Until(entry, TIMES);
        if !D.AllDigits(prefix) || D.Value(prefix) > D.MAX_INT || !IsColo(entry[|prefix| + 1..]) then Malformed
        else Entry(D.Value(prefix))
    else if !IsColo(entry) then Malformed
    else Entry(1)
  }

  // Go's int wraps.
  function Add(a: int, b: int): int {
    if a + b > D.MAX_INT then a + b - (D.MAX_INT - D.MIN_INT + 1) else a + b
  }

  predicate AllRead(entries: seq<Entry>) { Malformed !in entries }

  function Total(entries: seq<Entry>): int {
    if entries == [] then 0
    else
      var e := entries[|entries| - 1];
      Add(Total(entries[..|entries| - 1]), if e.Entry? then e.number else 0)
  }

  lemma TotalSnoc(entries: seq<Entry>, e: Entry)
    ensures Total(entries + [e]) == Add(Total(entries), if e.Entry? then e.number else 0)
  {
    assert (entries + [e])[..|entries|] == entries;
  }

  function ReadEach(parts: seq<bytes>): (entries: seq<Entry>)
    ensures |entries| == |parts|
    ensures forall i :: 0 <= i < |parts| ==> entries[i] == ReadEntry(parts[i])
  {
    if parts == [] then [] else ReadEach(parts[..|parts| - 1]) + [ReadEntry(parts[|parts| - 1])]
  }

  method CountEdgeConnections(edge: bytes) returns (count: int, ok: bool)
    ensures ok <==> AllRead(ReadEach(Split(edge)))
    ensures count == if ok then Total(ReadEach(Split(edge))) else 0
  {
    count := 0;
    var parts := Split(edge);
    ghost var entries := ReadEach(parts);
    for k := 0 to |parts|
      invariant AllRead(entries[..k])
      invariant count == Total(entries[..k])
    {
      assert entries[..k + 1] == entries[..k] + [entries[k]];
      TotalSnoc(entries[..k], entries[k]);
      var e := ReadEntry(parts[k]);
      if e.Malformed? {
        assert entries[k] == Malformed;
        return 0, false;
      }
      count := Add(count, e.number);
    }
    assert entries[..|parts|] == entries;
    ok := true;
  }

  // ---------- the round trip ----------

  lemma {:induction false} UntilStops(a: bytes, b: byte, rest: bytes)
    requires b !in a
    ensures Until(a + [b] + rest, b) == a
  {
    var s := a + [b] + rest;
    if a == [] {
      assert s[0] == b;
    } else {
      assert a[0] in a && s[1..] == a[1..] + [b] + rest;
      UntilStops(a[1..], b, rest);
    }
  }

  lemma {:induction false} SplitUndoesJoin(parts: seq<bytes>)
    requires parts != [] && forall p :: p in parts ==> COMMA !in p
    ensures Split(Join(parts)) == parts
  {
    assert parts[0] in parts;
    if |parts| > 1 {
      var more := Join(parts[1..]);
      var s := parts[0] + [COMMA] + more;
      assert s[|parts[0]|] == COMMA;
      UntilStops(parts[0], COMMA, more);
      assert s[|parts[0]| + 1..] == more;
      SplitUndoesJoin(parts[1..]);
    }
  }

  lemma CountAndColo(digits: bytes, colo: bytes)
    requires digits != [] && D.AllDigits(digits)
    ensures var s := digits + [TIMES] + colo;
            && s != [] && IsDigit(s[0]) && TIMES in s
            && Until(s, TIMES) == digits && s[|digits| + 1..] == colo
  {
    var s := digits + [TIMES] + colo;
    assert TIMES !in digits;
    UntilStops(digits, TIMES, colo);
    assert s[0] == digits[0] && s[|digits|] == TIMES;
  }

  lemma PrintHasNoComma(e: Edge)
    requires e.Sound()
    ensures COMMA !in e.Print()
  {
    if e.Counted? {
      D.DecimalReadsBack(e.n);
    }
  }

  predicate ColoOf(s: bytes, letters: bytes, digits: bytes) {
    && s == letters + digits && |letters| == 3 && digits != []
    && (forall b :: b in letters ==> 'a' <= b <= 'z') && (forall b :: b in digits ==> '0' <= b <= '9')
  }

  // A colo is three small letters and then digits, at least one.
  lemma ColoExactly(s: bytes)
    ensures IsColo(s) <==> exists letters, digits :: ColoOf(s, letters, digits)
  {
    forall letters, digits | ColoOf(s, letters, digits) ensures IsColo(s) {
      assert forall i :: 0 <= i < 3 ==> s[i] == letters[i] && letters[i] in letters;
      assert forall i :: 3 <= i < |s| ==> s[i] == digits[i - 3] && digits[i - 3] in digits;
    }
    if IsColo(s) {
      var letters, digits := s[..3], s[3..];
      assert s == letters + digits;
      assert forall b :: b in letters ==> 'a' <= b <= 'z';
      assert forall b :: b in digits ==> '0' <= b <= '9';
      assert ColoOf(s, letters, digits);
    }
  }

  predicate NumberedColo(s: bytes, digits: bytes, colo: bytes, n: nat) {
    s == digits + ['x'] + colo && digits != [] && D.AllDigits(digits) && D.Value(digits) == n && IsColo(colo)
  }

  // An entry is read exactly as a colo, which counts as one, or as a number
  // that an int can hold before an "x" and a colo.
  lemma EntryExactly(s: bytes, n: nat)
    ensures ReadEntry(s) == Entry(n) <==>
      || (IsColo(s) && n == 1)
      || (n <= D.MAX_INT && exists digits, colo :: NumberedColo(s, digits, colo, n))
  {
    if ReadEntry(s) == Entry(n) && !IsColo(s) {
      var digits := Until(s, TIMES);
      assert NumberedColo(s, digits, s[|digits| + 1..], n);
    }
    forall digits, colo | NumberedColo(s, digits, colo, n) && n <= D.MAX_INT ensures ReadEntry(s) == Entry(n) {
      CountAndColo(digits, colo);
    }
  }

  lemma EntryReadsBack(e: Edge)
    requires e.Sound()
    ensures ReadEntry(e.Print()) == Entry(e.Number())
  {
    if e.Counted? {
      D.DecimalReadsBack(e.n);
      CountAndColo(D.Decimal(e.n), e.colo);
    }
  }

  function Meant(edges: seq<Edge>): seq<Entry> {
    if edges == [] then [] else Meant(edges[..|edges| - 1]) + [Entry(edges[|edges| - 1].Number())]
  }

  lemma {:induction false} PrintedIsRead(edges: seq<Edge>)
    requires forall e :: e in edges ==> e.Sound()
    ensures |Printed(edges)| == |edges|
    ensures forall p :: p in Printed(edges) ==> COMMA !in p
    ensures ReadEach(Printed(edges)) == Meant(edges)
    ensures AllRead(Meant(edges))
  {
    if edges != [] {
      var n := |edges| - 1;
      EntryReadsBack(edges[n]);
      PrintHasNoComma(edges[n]);
      PrintedIsRead(edges[..n]);
      assert Printed(edges)[..n] == Printed(edges[..n]);
    }
  }

  // The total is the sum exactly while an int can hold it.
  lemma {:induction false} TotalIsTheSum(edges: seq<Edge>)
    requires forall e :: e in edges ==> e.Sound()
    ensures D.MIN_INT <= Total(Meant(edges)) <= D.MAX_INT
    ensures Total(Meant(edges)) == Sum(edges) <==> Sum(edges) <= D.MAX_INT
  {
    if edges != [] {
      var n := |edges| - 1;
      assert edges[n] in edges && edges[n].Sound();
      TotalIsTheSum(edges[..n]);
      TotalSnoc(Meant(edges[..n]), Entry(edges[n].Number()));
    }
  }

  // Any printed list of connections is read, and counted in full exactly when
  // an int can hold the sum.
  lemma PrintedIsCounted(edges: seq<Edge>)
    requires edges != [] && forall e :: e in edges ==> e.Sound()
    ensures var entries := ReadEach(Split(Join(Printed(edges))));
            AllRead(entries) && (Total(entries) == Sum(edges) <==> Sum(edges) <= D.MAX_INT)
  {
    PrintedIsRead(edges);
    SplitUndoesJoin(Printed(edges));
    TotalIsTheSum(edges);
  }
}
