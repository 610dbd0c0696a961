/** The CPU list parser of util/topology.go ("0-3,8,10-11"). */
module CpuList {
  import opened Words

  const INT_MAX := 0x7fff_ffff_ffff_ffff

  predicate Contains(s: string, sep: char) { sep in s }

  function IndexOf(s: string, sep: char): (i: nat)
    requires sep in s
    ensures i < |s| && s[i] == sep && sep !in s[..i]
  {
    if s[0] == sep then 0
    else
      assert s == [s[0]] + s[1..];
      1 + IndexOf(s[1..], sep)
  }

  /** The pieces between separators; a string without separator is one piece. */
  function Split(s: string, sep: char): (r: seq<string>)
    ensures r != []
    ensures forall p :: p in r ==> sep !in p
    decreases |s|
  {
    if sep in s then
      var i := IndexOf(s, sep);
      [s[..i]] + Split(s[i + 1..], sep)
    else [s]
  }

  /** The characters trimmed at both ends of a segment. */
  predicate IsSpace(c: char) {
    c in " \t\n\r" || c as int in {0x0b, 0x0c, 0x85, 0xa0, 0x1680, 0x2028, 0x2029, 0x202f, 0x205f, 0x3000}
    || 0x2000 <= c as int <= 0x200a
  }

  function TrimSpace(s: string): string
    decreases |s|
  {
    if s != "" && IsSpace(s[0]) then TrimSpace(s[1..])
    else if s != "" && IsSpace(s[|s| - 1]) then TrimSpace(s[..|s| - 1])
    else s
  }

  predicate IsDigit(c: char) { '0' <= c <= '9' }

  predicate AllDigits(s: string) { forall i :: 0 <= i < |s| ==> IsDigit(s[i]) }

  function Value(s: string): nat
    requires AllDigits(s)
  {
    if s == "" then 0 else 10 * Value(s[..|s| - 1]) + (s[|s| - 1] as int - '0' as int)
  }

  /** Decimal conversion with an optional sign and a 64-bit range check. */
  function Atoi(s: string): Option<int> {
    var signed := s != "" && (s[0] == '-' || s[0] == '+');
    var digits := if signed then s[1..] else s;
    if digits == "" || !AllDigits(digits) then None
    else
      var v: int := Value(digits);
      if signed && s[0] == '-' then (if v <= INT_MAX + 1 then Some(-v) else None)
      else if v <= INT_MAX then Some(v) else None
  }

  function Span(a: int, b: int): seq<int>
    decreases b - a
  {
    if a > b then [] else [a] + Span(a + 1, b)
  }

  /** What becomes of a list: CPU numbers, an error, or a loop that never ends. */
  datatype Outcome = Cpus(list: seq<int>) | Malformed | Endless

  /** The CPUs named by one segment. A range that ends at the largest integer never ends. */
  function Segment(segment: string): Outcome {
    var s := TrimSpace(segment);
    if Contains(s, '-') then
      var bounds := Split(s, '-');
      if |bounds| != 2 then Malformed
      else
        var start, end := Atoi(bounds[0]), Atoi(bounds[1]);
        if start.None? || end.None? || start.value > end.value then Malformed
        else if end.value == INT_MAX then Endless
        else Cpus(Span(start.value, end.value))
    else
      var num := Atoi(s);
      if num.None? then Malformed else Cpus([num.value])
  }

  /** One outcome after another: the first that is not a list decides. */
  function Both(a: Outcome, b: Outcome): Outcome {
    if !a.Cpus? then a else if !b.Cpus? then b else Cpus(a.list + b.list)
  }

  function Segments(segments: seq<string>): Outcome {
    if segments == [] then Cpus([]) else Both(Segment(segments[0]), Segments(segments[1..]))
  }

  function Parsed(cpuList: string): Outcome { Segments(Split(cpuList, ',')) }

  // ---- the loop counter has 64 bits ----

  function Increment(i: int): int { if i == INT_MAX then -INT_MAX - 1 else i + 1 }

  /** The counter after n passes of the loop over a range. */
  function CounterAfter(start: int, n: nat): int {
    if n == 0 then start else Increment(CounterAfter(start, n - 1))
  }

  lemma {:induction false} CounterBounded(start: int, n: nat)
    requires -INT_MAX - 1 <= start <= INT_MAX
    ensures -INT_MAX - 1 <= CounterAfter(start, n) <= INT_MAX
    ensures start + n <= INT_MAX ==> CounterAfter(start, n) == start + n
  {
    if n > 0 { CounterBounded(start, n - 1); }
  }

  /** The loop over a range ends, if and only if the range does not end at the largest integer. */
  lemma LoopEndsExactly(start: int, end: int)
    requires -INT_MAX - 1 <= start <= end <= INT_MAX
    ensures (exists n: nat :: CounterAfter(start, n) > end) <==> end < INT_MAX
  {
    if end < INT_MAX {
      CounterBounded(start, end - start + 1);
    } else {
      forall n: nat ensures CounterAfter(start, n) <= end { CounterBounded(start, n); }
    }
  }

  /** Inner loop: append the CPUs of a range. Where the counter would wrap around, the loop has no end,
      and the run is over as far as the model goes. */
  method AppendRange(result: seq<int>, start: int, end: int) returns (r: Outcome)
    requires start <= end <= INT_MAX
    ensures r == if end == INT_MAX then Endless else Cpus(result + Span(start, end))
  {
    var cpus := result;
    var i := start;
    while i <= end
      invariant i <= end + 1 && (end == INT_MAX ==> i <= INT_MAX)
      invariant cpus + Span(i, end) == result + Span(start, end)
      decreases end - i
    {
      cpus := cpus + [i];
      if i == INT_MAX {
        return Endless;
      }
      i := i + 1;
    }
    return Cpus(cpus);
  }

  /** Body of the outer loop: one segment. */
  method AppendSegment(result: seq<int>, piece: string) returns (r: Outcome)
    ensures r == Joined(result, Segment(piece))
  {
    var segment := TrimSpace(piece);
    if Contains(segment, '-') {
      var bounds := Split(segment, '-');
      if |bounds| != 2 {
        return Malformed;
      }
      var start := Atoi(bounds[0]);
      if start.None? {
        return Malformed;
      }
      var end := Atoi(bounds[1]);
      if end.None? {
        return Malformed;
      }
      if start.value > end.value {
        return Malformed;
      }
      r := AppendRange(result, start.value, end.value);
      return;
    }
    var num := Atoi(segment);
    if num.None? {
      return Malformed;
    }
    return Cpus(result + [num.value]);
  }

  /** What a partial result becomes once the remaining segments are parsed. */
  function Joined(result: seq<int>, rest: Outcome): Outcome {
    if rest.Cpus? then Cpus(result + rest.list) else rest
  }

  lemma JoinedBoth(result: seq<int>, a: Outcome, b: Outcome)
    ensures Joined(result, Both(a, b)) == if a.Cpus? then Joined(result + a.list, b) else a
    ensures Joined([], b) == b
    ensures Joined(result, Cpus([])) == Cpus(result)
  {
    if a.Cpus? && b.Cpus? {
      assert result + (a.list + b.list) == (result + a.list) + b.list;
    }
    if b.Cpus? { assert [] + b.list == b.list; }
    assert result + [] == result;
  }

  method ParseCPUs(cpuList: string) returns (r: Outcome)
    ensures r == Parsed(cpuList)
  {
    var result: seq<int> := [];
    var segments := Split(cpuList, ',');
    var n := 0;
    assert segments[0..] == segments;
    JoinedBoth([], Malformed, Segments(segments));
    while n < |segments|
      invariant 0 <= n <= |segments|
      invariant Parsed(cpuList) == Joined(result, Segments(segments[n..]))
    {
      JoinedBoth(result, Segment(segments[n]), Segments(segments[n..][1..]));
      var next := AppendSegment(result, segments[n]);
      if !next.Cpus? {
        return next;
      }
      assert segments[n..][1..] == segments[n + 1..];
      result := next.list;
      n := n + 1;
    }
    JoinedBoth(result, Malformed, Malformed);
    return Cpus(result);
  }

  /** The segment is a well-formed range that ends at the largest integer. */
  predicate RunsOn(segment: string) {
    var bounds := Split(TrimSpace(segment), '-');
    |bounds| == 2 && Atoi(bounds[0]).Some? && Atoi(bounds[1]) == Some(INT_MAX)
  }

  lemma AtoiInRange(s: string)
    ensures Atoi(s).Some? ==> -INT_MAX - 1 <= Atoi(s).value <= INT_MAX
  {}

  lemma SegmentRunsOn(segment: string)
    ensures Segment(segment).Endless? <==> RunsOn(segment)
  {
    var s := TrimSpace(segment);
    if Contains(s, '-') {
      AtoiInRange(Split(s, '-')[0]);
    } else {
      assert Split(s, '-') == [s];
    }
  }

  ghost predicate RunsOnAt(segments: seq<string>, k: nat) {
    k < |segments| && RunsOn(segments[k]) && forall j :: 0 <= j < k ==> Segment(segments[j]).Cpus?
  }

  ghost predicate SomeRunsOn(segments: seq<string>) { exists k: nat :: RunsOnAt(segments, k) }

  lemma {:induction false} SegmentsRunOn(segments: seq<string>)
    ensures Segments(segments).Endless? <==> SomeRunsOn(segments)
  {
    if segments != [] {
      SegmentsRunOn(segments[1..]);
      SegmentRunsOn(segments[0]);
      if Segment(segments[0]).Cpus? {
        if k: nat :| RunsOnAt(segments[1..], k) { assert RunsOnAt(segments, k + 1); }
        if k: nat :| RunsOnAt(segments, k) {
          assert k > 0 && segments[1..][k - 1] == segments[k];
          assert forall j :: 0 <= j < k - 1 ==> segments[1..][j] == segments[j + 1];
          assert RunsOnAt(segments[1..], k - 1);
        }
      } else if RunsOn(segments[0]) {
        assert RunsOnAt(segments, 0);
      }
    }
  }

  /** Parsing never ends exactly if some range ends at the largest integer and everything before it is
      well formed. */
  lemma EndlessExactly(cpuList: string)
    ensures Parsed(cpuList).Endless? <==> SomeRunsOn(Split(cpuList, ','))
  {
    SegmentsRunOn(Split(cpuList, ','));
  }

  // ---- what is accepted is nonnegative ----

  lemma SpanBounds(a: int, b: int)
    ensures forall x :: x in Span(a, b) <==> a <= x <= b
    decreases b - a
  {
    if a <= b { SpanBounds(a + 1, b); }
  }

  /** Without a minus sign a number cannot be negative. */
  lemma AtoiUnsigned(s: string)
    requires '-' !in s && Atoi(s).Some?
    ensures Atoi(s).value >= 0
  {}

  lemma SegmentNonnegative(segment: string)
    requires Segment(segment).Cpus?
    ensures forall x :: x in Segment(segment).list ==> x >= 0
  {
    var s := TrimSpace(segment);
    if Contains(s, '-') {
      var bounds := Split(s, '-');
      AtoiUnsigned(bounds[0]);
      SpanBounds(Atoi(bounds[0]).value, Atoi(bounds[1]).value);
    } else {
      AtoiUnsigned(s);
    }
  }

  lemma {:induction false} SegmentsNonnegative(segments: seq<string>)
    requires Segments(segments).Cpus?
    ensures forall x :: x in Segments(segments).list ==> x >= 0
  {
    if segments != [] {
      SegmentNonnegative(segments[0]);
      SegmentsNonnegative(segments[1..]);
    }
  }

  /** Whatever the parser accepts is a list of nonnegative CPU numbers. */
  lemma AcceptedNonnegative(cpuList: string)
    requires Parsed(cpuList).Cpus?
    ensures forall x :: x in Parsed(cpuList).list ==> x >= 0
  {
    SegmentsNonnegative(Split(cpuList, ','));
  }

  // ---- the round trip ----

  /** One element of a list as the kernel prints it. */
  datatype Item = One(n: nat) | Range(a: nat, b: nat)

  function Digits(n: nat): (s: string)
    ensures s != "" && AllDigits(s)
  {
    var last := ["0123456789"[n % 10]];
    if n < 10 then last else Digits(n / 10) + last
  }

  function Print(it: Item): string {
    match it
    case One(n) => Digits(n)
    case Range(a, b) => Digits(a) + "-" + Digits(b)
  }

  function PrintAll(items: seq<Item>): string
    requires items != []
  {
    if |items| == 1 then Print(items[0]) else Print(items[0]) + "," + PrintAll(items[1..])
  }

  predicate ItemOk(it: Item) {
    match it
    case One(n) => n <= INT_MAX
    case Range(a, b) => a <= b <= INT_MAX
  }

  /** The loop over this element never ends. */
  predicate Unending(it: Item) { it.Range? && it.b == INT_MAX }

  function Expand(it: Item): seq<int> {
    match it
    case One(n) => [n]
    case Range(a, b) => Span(a, b)
  }

  function ExpandAll(items: seq<Item>): seq<int> {
    if items == [] then [] else Expand(items[0]) + ExpandAll(items[1..])
  }

  lemma {:induction false} ValueOfDigits(n: nat)
    ensures Value(Digits(n)) == n
  {
    var s := Digits(n);
    assert s[|s| - 1] as int - '0' as int == n % 10;
    if n >= 10 {
      ValueOfDigits(n / 10);
      assert s[..|s| - 1] == Digits(n / 10);
    } else {
      assert s[..|s| - 1] == "";
    }
  }

  lemma AtoiOfDigits(n: nat)
    requires n <= INT_MAX
    ensures Atoi(Digits(n)) == Some(n)
  {
    ValueOfDigits(n);
    assert IsDigit(Digits(n)[0]);
  }

  lemma {:induction false} IndexIsFirst(a: string, sep: char, b: string)
    requires sep !in a
    ensures IndexOf(a + [sep] + b, sep) == |a|
  {
    if a != "" {
      IndexIsFirst(a[1..], sep, b);
      assert (a + [sep] + b)[1..] == a[1..] + [sep] + b;
      assert a[0] in a;
    }
  }

  lemma SplitAt(a: string, sep: char, b: string)
    requires sep !in a
    ensures Split(a + [sep] + b, sep) == [a] + Split(b, sep)
  {
    var s := a + [sep] + b;
    IndexIsFirst(a, sep, b);
    assert s[|a|] in s;
    assert s[..|a|] == a && s[|a| + 1..] == b;
  }

  lemma DigitsFreeOf(n: nat, c: char)
    requires !IsDigit(c)
    ensures c !in Digits(n)
  {}

  lemma NothingToTrim(s: string)
    requires s != "" && IsDigit(s[0]) && IsDigit(s[|s| - 1])
    ensures TrimSpace(s) == s
  {}

  lemma SegmentOfNumber(n: nat)
    requires n <= INT_MAX
    ensures Segment(Digits(n)) == Cpus([n]) && ',' !in Digits(n)
  {
    NothingToTrim(Digits(n));
    DigitsFreeOf(n, '-');
    DigitsFreeOf(n, ',');
    AtoiOfDigits(n);
  }

  lemma RangeShape(a: nat, b: nat)
    ensures var s := Digits(a) + "-" + Digits(b);
      TrimSpace(s) == s && '-' in s && Split(s, '-') == [Digits(a), Digits(b)] && ',' !in s
  {
    var s := Digits(a) + "-" + Digits(b);
    NothingToTrim(s);
    DigitsFreeOf(a, '-');
    DigitsFreeOf(b, '-');
    DigitsFreeOf(a, ',');
    DigitsFreeOf(b, ',');
    SplitAt(Digits(a), '-', Digits(b));
    assert s[|Digits(a)|] in s;
  }

  /** Reading back one printed element. */
  lemma SegmentOfPrint(it: Item)
    requires ItemOk(it)
    ensures Segment(Print(it)) == (if Unending(it) then Endless else Cpus(Expand(it))) && ',' !in Print(it)
  {
    match it
    case One(n) => SegmentOfNumber(n);
    case Range(a, b) =>
      RangeShape(a, b);
      AtoiOfDigits(a);
      AtoiOfDigits(b);
  }

  ghost predicate AllEnd(items: seq<Item>) { forall i :: 0 <= i < |items| ==> !Unending(items[i]) }

  /** What the printed list is parsed to. */
  function Read(items: seq<Item>): Outcome {
    if items == [] then Cpus([])
    else Both(if Unending(items[0]) then Endless else Cpus(Expand(items[0])), Read(items[1..]))
  }

  lemma {:induction false} ReadIsExpansion(items: seq<Item>)
    ensures Read(items) == if AllEnd(items) then Cpus(ExpandAll(items)) else Endless
  {
    if items != [] {
      ReadIsExpansion(items[1..]);
      assert forall i :: 0 < i < |items| ==> items[i] == items[1..][i - 1];
    }
  }

  lemma {:induction false} SplitOfPrintAll(items: seq<Item>)
    requires items != [] && forall i :: 0 <= i < |items| ==> ItemOk(items[i])
    ensures Segments(Split(PrintAll(items), ',')) == Read(items)
  {
    var first := Print(items[0]);
    SegmentOfPrint(items[0]);
    if |items| == 1 {
      assert Split(first, ',') == [first];
      assert Segments([first][1..]) == Cpus([]) == Read(items[1..]);
    } else {
      SplitAt(first, ',', PrintAll(items[1..]));
      SplitOfPrintAll(items[1..]);
      var rest := Split(PrintAll(items[1..]), ',');
      assert ([first] + rest)[1..] == rest;
    }
  }

  /** Parsing a printed list gives the concatenated expansion of its elements, unless one of its ranges
      ends at the largest integer: then it never ends. */
  lemma ParseInvertsPrint(items: seq<Item>)
    requires items != [] && forall i :: 0 <= i < |items| ==> ItemOk(items[i])
    ensures Parsed(PrintAll(items)) == if AllEnd(items) then Cpus(ExpandAll(items)) else Endless
  {
    SplitOfPrintAll(items);
    ReadIsExpansion(items);
  }

  lemma OneMoreDigit(m: nat, d: nat, s: string, s': string)
    requires m > 0 && d < 10 && Digits(m) == s && s' == s + ["0123456789"[d]]
    ensures Digits(10 * m + d) == s'
  {
    assert (10 * m + d) / 10 == m && (10 * m + d) % 10 == d;
  }

  lemma LeadingDigits()
    ensures Digits(922337) == "922337"
  {
    OneMoreDigit(9, 2, "9", "92");
    OneMoreDigit(92, 2, "92", "922");
    OneMoreDigit(922, 3, "922", "9223");
    OneMoreDigit(9223, 3, "9223", "92233");
    OneMoreDigit(92233, 7, "92233", "922337");
  }

  lemma MiddleDigits()
    ensures Digits(9223372036854) == "9223372036854"
  {
    LeadingDigits();
    OneMoreDigit(922337, 2, "922337", "9223372");
    OneMoreDigit(9223372, 0, "9223372", "92233720");
    OneMoreDigit(92233720, 3, "92233720", "922337203");
    OneMoreDigit(922337203, 6, "922337203", "9223372036");
    OneMoreDigit(9223372036, 8, "9223372036", "92233720368");
    OneMoreDigit(92233720368, 5, "92233720368", "922337203685");
    OneMoreDigit(922337203685, 4, "922337203685", "9223372036854");
  }

  lemma DigitsOfLargest()
    ensures Digits(9223372036854775807) == "9223372036854775807"
  {
    MiddleDigits();
    OneMoreDigit(9223372036854, 7, "9223372036854", "92233720368547");
    OneMoreDigit(92233720368547, 7, "92233720368547", "922337203685477");
    OneMoreDigit(922337203685477, 5, "922337203685477", "9223372036854775");
    OneMoreDigit(9223372036854775, 8, "9223372036854775", "92233720368547758");
    OneMoreDigit(92233720368547758, 0, "92233720368547758", "922337203685477580");
    OneMoreDigit(922337203685477580, 7, "922337203685477580", "9223372036854775807");
  }

  const LARGEST := "9223372036854775807"

  /** For example on 9223372036854775807-9223372036854775807. */
  lemma EndlessHappens()
    ensures Parsed(LARGEST + "-" + LARGEST) == Endless
  {
    var it := Range(INT_MAX, INT_MAX);
    DigitsOfLargest();
    assert PrintAll([it]) == Print(it) == LARGEST + "-" + LARGEST;
    assert !AllEnd([it]) by { assert Unending([it][0]); }
    ParseInvertsPrint([it]);
  }
}
