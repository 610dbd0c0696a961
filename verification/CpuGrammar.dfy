/** Which CPU lists are accepted, and what they mean: numbers and ranges with optional plus signs, leading
    zeros and blanks around them, between commas. */
module CpuGrammar {
  import opened Words
  import opened CpuList

  /** A number as it is written. */
  datatype Num = Num(plus: bool, digits: string)

  predicate NumOk(n: Num) { n.digits != "" && AllDigits(n.digits) }

  function Show(n: Num): string { if n.plus then "+" + n.digits else n.digits }

  /** What stands between two commas. */
  datatype Piece = Single(left: string, n: Num, right: string) | Bounds(left: string, a: Num, b: Num, right: string)

  predicate Blank(s: string) { forall i :: 0 <= i < |s| ==> IsSpace(s[i]) }

  predicate PieceOk(p: Piece) {
    Blank(p.left) && Blank(p.right) && match p case Single(_, n, _) => NumOk(n) case Bounds(_, a, b, _) => NumOk(a) && NumOk(b)
  }

  function Core(p: Piece): string {
    match p
    case Single(_, n, _) => Show(n)
    case Bounds(_, a, b, _) => Show(a) + "-" + Show(b)
  }

  function Text(p: Piece): string { p.left + Core(p) + p.right }

  /** Numbers above the largest integer and reversed ranges are errors; a range that ends at the largest
      integer never ends. */
  function Meaning(p: Piece): Outcome
    requires PieceOk(p)
  {
    match p
    case Single(_, n, _) => if Value(n.digits) <= INT_MAX then Cpus([Value(n.digits)]) else Malformed
    case Bounds(_, a, b, _) =>
      if Value(a.digits) > INT_MAX || Value(b.digits) > INT_MAX || Value(a.digits) > Value(b.digits) then Malformed
      else if Value(b.digits) == INT_MAX then Endless
      else Cpus(Span(Value(a.digits), Value(b.digits)))
  }

  lemma AtoiShow(n: Num)
    requires NumOk(n)
    ensures Atoi(Show(n)) == if Value(n.digits) <= INT_MAX then Some(Value(n.digits)) else None
    ensures '-' !in Show(n) && ',' !in Show(n)
    ensures Show(n) != "" && !IsSpace(Show(n)[0]) && !IsSpace(Show(n)[|Show(n)| - 1])
  {
    assert IsDigit(n.digits[0]) && IsDigit(n.digits[|n.digits| - 1]);
    if n.plus { assert Show(n)[1..] == n.digits; }
  }

  // ---- trimming ----

  lemma {:induction false} TrimLeft(l: string, s: string)
    requires Blank(l)
    ensures TrimSpace(l + s) == TrimSpace(s)
  {
    if l == "" {
      assert l + s == s;
    } else {
      assert (l + s)[1..] == l[1..] + s;
      TrimLeft(l[1..], s);
    }
  }

  lemma {:induction false} TrimRight(core: string, r: string)
    requires Blank(r) && core != "" && !IsSpace(core[0]) && !IsSpace(core[|core| - 1])
    ensures TrimSpace(core + r) == core
    decreases |r|
  {
    if r == "" {
      assert core + r == core;
    } else {
      var s, shorter := core + r, r[..|r| - 1];
      assert s[|s| - 1] == r[|r| - 1] && s[..|s| - 1] == core + shorter;
      TrimRight(core, shorter);
    }
  }

  /** Trimming removes blanks at both ends and nothing else. */
  lemma {:induction false} TrimParts(s: string) returns (l: string, r: string)
    ensures s == l + TrimSpace(s) + r && Blank(l) && Blank(r)
    decreases |s|
  {
    if s != "" && IsSpace(s[0]) {
      var l', r' := TrimParts(s[1..]);
      WrapLeft(s, l', TrimSpace(s), r');
      l, r := [s[0]] + l', r';
    } else if s != "" && IsSpace(s[|s| - 1]) {
      var l', r' := TrimParts(s[..|s| - 1]);
      WrapRight(s, l', TrimSpace(s), r');
      l, r := l', r' + [s[|s| - 1]];
    } else {
      l, r := "", "";
    }
  }

  lemma WrapLeft(s: string, l: string, t: string, r: string)
    requires s != "" && s[1..] == l + t + r
    ensures s == ([s[0]] + l) + t + r
  {
    assert s == [s[0]] + s[1..];
  }

  lemma WrapRight(s: string, l: string, t: string, r: string)
    requires s != "" && s[..|s| - 1] == l + t + r
    ensures s == l + t + (r + [s[|s| - 1]])
  {
    assert s == s[..|s| - 1] + [s[|s| - 1]];
  }

  // ---- a piece means what it says ----

  lemma CoreShape(p: Piece)
    requires PieceOk(p)
    ensures var c := Core(p); c != "" && !IsSpace(c[0]) && !IsSpace(c[|c| - 1]) && ',' !in c
  {
    match p
    case Single(_, n, _) => AtoiShow(n);
    case Bounds(_, a, b, _) =>
      AtoiShow(a);
      AtoiShow(b);
      assert Core(p)[0] == Show(a)[0] && Core(p)[|Core(p)| - 1] == Show(b)[|Show(b)| - 1];
  }

  lemma BoundsSplit(a: Num, b: Num)
    requires NumOk(a) && NumOk(b)
    ensures var c := Show(a) + "-" + Show(b); '-' in c && Split(c, '-') == [Show(a), Show(b)]
  {
    AtoiShow(a);
    AtoiShow(b);
    var c := Show(a) + "-" + Show(b);
    SplitAt(Show(a), '-', Show(b));
    assert c[|Show(a)|] in c;
  }

  /** Every piece parses to its meaning. */
  lemma PieceMeans(p: Piece)
    requires PieceOk(p)
    ensures Segment(Text(p)) == Meaning(p)
  {
    CoreShape(p);
    assert Text(p) == p.left + (Core(p) + p.right);
    TrimLeft(p.left, Core(p) + p.right);
    TrimRight(Core(p), p.right);
    assert TrimSpace(Text(p)) == Core(p);
    match p
    case Single(_, n, _) => AtoiShow(n);
    case Bounds(_, a, b, _) =>
      BoundsSplit(a, b);
      AtoiShow(a);
      AtoiShow(b);
  }

  // ---- and nothing else is accepted ----

  lemma NumOf(s: string) returns (n: Num)
    requires Atoi(s).Some? && '-' !in s
    ensures NumOk(n) && Show(n) == s
  {
    assert s != "";
    if s[0] == '+' {
      assert s == "+" + s[1..];
      n := Num(true, s[1..]);
    } else {
      n := Num(false, s);
    }
  }

  lemma SplitPair(s: string, sep: char)
    requires |Split(s, sep)| == 2
    ensures s == Split(s, sep)[0] + [sep] + Split(s, sep)[1] && sep !in Split(s, sep)[0] && sep !in Split(s, sep)[1]
  {
    var i := IndexOf(s, sep);
    assert s == s[..i] + [sep] + s[i + 1..];
    assert Split(s, sep) == [s[..i]] + Split(s[i + 1..], sep);
    assert Split(s[i + 1..], sep)[0] == Split(s, sep)[1];
    assert sep !in s[i + 1..] ==> Split(s[i + 1..], sep) == [s[i + 1..]];
  }

  /** Whatever is not an error has the form of a piece. */
  lemma AcceptedShape(s: string) returns (p: Piece)
    requires Segment(s) != Malformed
    ensures PieceOk(p) && Text(p) == s && Segment(s) == Meaning(p)
  {
    var t := TrimSpace(s);
    var l, r := TrimParts(s);
    if '-' in t {
      var bounds := Split(t, '-');
      SplitPair(t, '-');
      var a := NumOf(bounds[0]);
      var b := NumOf(bounds[1]);
      p := Bounds(l, a, b, r);
    } else {
      var n := NumOf(t);
      p := Single(l, n, r);
    }
    PieceMeans(p);
  }

  /** Accepted exactly: a segment is no error if and only if it is the text of a piece whose meaning is
      none. */
  lemma AcceptedExactly(s: string)
    ensures Segment(s) != Malformed <==> exists p :: PieceOk(p) && Text(p) == s && Meaning(p) != Malformed
  {
    if Segment(s) != Malformed { var p := AcceptedShape(s); }
    forall p | PieceOk(p) && Text(p) == s ensures Segment(s) == Meaning(p) { PieceMeans(p); }
  }

  function Join(parts: seq<string>, sep: char): string
    requires parts != []
  {
    if |parts| == 1 then parts[0] else parts[0] + [sep] + Join(parts[1..], sep)
  }

  /** Splitting cuts at every separator and nowhere else. */
  lemma {:induction false} JoinSplit(s: string, sep: char)
    ensures Join(Split(s, sep), sep) == s && forall p :: p in Split(s, sep) ==> sep !in p
    decreases |s|
  {
    if sep in s {
      var i := IndexOf(s, sep);
      JoinSplit(s[i + 1..], sep);
      JoinMore(s[..i], Split(s[i + 1..], sep), sep);
      assert s == s[..i] + [sep] + s[i + 1..];
    }
  }

  lemma JoinMore(first: string, rest: seq<string>, sep: char)
    requires rest != []
    ensures Join([first] + rest, sep) == first + [sep] + Join(rest, sep)
  {
    assert ([first] + rest)[1..] == rest;
  }
}
