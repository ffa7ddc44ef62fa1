/** Text: the order the stores sort identifiers by, decimal numerals, and UTF-8 lengths. */
module Text {

  datatype Option<+T> = None | Some(value: T)

  // ---------------------------------------------------------------- order

  /** Order of Go strings and of SQLite's binary collation: by code point, shorter first. */
  predicate Less(a: string, b: string)
  {
    b != "" && (a == "" || a[0] < b[0] || (a[0] == b[0] && Less(a[1..], b[1..])))
  }

  lemma {:induction false} LessIrreflexive(a: string)
    ensures !Less(a, a)
  {
    if a != "" {
      LessIrreflexive(a[1..]);
    }
  }

  lemma {:induction false} LessTrichotomy(a: string, b: string)
    ensures Less(a, b) || a == b || Less(b, a)
    ensures !(Less(a, b) && Less(b, a))
    ensures a == b ==> !Less(a, b)
  {
    if a != "" && b != "" && a[0] == b[0] {
      LessTrichotomy(a[1..], b[1..]);
      assert a == [a[0]] + a[1..] && b == [b[0]] + b[1..];
    }
    LessIrreflexive(a);
  }

  /** Where the order is decided: at the first difference, or at the end of the shorter one. */
  lemma {:induction false} LessAt(a: string, b: string) returns (n: nat)
    requires Less(a, b)
    ensures n <= |a| && n <= |b| && a[..n] == b[..n] && (n == |a| < |b| || (n < |a| && n < |b| && a[n] < b[n]))
    decreases |a|
  {
    n := 0;
    if a != "" && b != "" && a[0] == b[0] {
      n := LessAt(a[1..], b[1..]);
      assert a[..n + 1] == [a[0]] + a[1..][..n] && b[..n + 1] == [b[0]] + b[1..][..n];
      n := n + 1;
    }
  }

  lemma {:induction false} LessTransitive(a: string, b: string, c: string)
    requires Less(a, b) && Less(b, c)
    ensures Less(a, c)
  {
    if a != "" && a[0] == b[0] && b[0] == c[0] {
      LessTransitive(a[1..], b[1..], c[1..]);
    }
  }

  ghost predicate IsLeast(m: string, s: set<string>)
  {
    m in s && forall x :: x in s && x != m ==> Less(m, x)
  }

  method Least(s: set<string>) returns (m: string)
    requires s != {}
    ensures IsLeast(m, s)
  {
    m :| m in s;
    var todo := s - {m};
    while todo != {}
      invariant todo <= s && m in s && m !in todo
      invariant forall x :: x in s - todo && x != m ==> Less(m, x)
    {
      var x :| x in todo;
      todo := todo - {x};
      LessTrichotomy(m, x);
      if Less(x, m) {
        forall y | y in s - todo && y != x ensures Less(x, y) {
          if y != m { LessTransitive(x, m, y); }
        }
        m := x;
      }
    }
  }

  /** The members of `s` in increasing order. */
  ghost predicate IsSorted(ids: seq<string>, s: set<string>)
  {
    && (forall x :: x in ids <==> x in s)
    && forall i, j :: 0 <= i < j < |ids| ==> Less(ids[i], ids[j])
  }

  method SortIds(s: set<string>) returns (ids: seq<string>)
    ensures IsSorted(ids, s)
  {
    ids := [];
    var todo := s;
    while todo != {}
      invariant todo <= s
      invariant forall x :: x in ids <==> x in s - todo
      invariant forall i, j :: 0 <= i < j < |ids| ==> Less(ids[i], ids[j])
      invariant forall x, y :: x in ids && y in todo ==> Less(x, y)
    {
      var m := Least(todo);
      ids := ids + [m];
      todo := todo - {m};
    }
  }

  lemma SortedHasNoDuplicates(ids: seq<string>, s: set<string>)
    requires IsSorted(ids, s)
    ensures forall i, j :: 0 <= i < j < |ids| ==> ids[i] != ids[j]
  {
    forall i, j | 0 <= i < j < |ids| ensures ids[i] != ids[j] {
      LessIrreflexive(ids[i]);
    }
  }

  /** There is one way to sort. */
  lemma {:induction false} SortIsUnique(a: seq<string>, b: seq<string>, s: set<string>)
    requires IsSorted(a, s) && IsSorted(b, s)
    ensures a == b
    decreases |a|
  {
    assert a != [] ==> a[0] in s;
    assert b != [] ==> b[0] in s;
    if a != [] && b != [] {
      if a[0] != b[0] {
        assert a[0] in b && b[0] in a;
        LessTrichotomy(a[0], b[0]);
        assert false;
      }
      SortedHasNoDuplicates(a, s);
      SortedHasNoDuplicates(b, s);
      TailIsSorted(a, s);
      TailIsSorted(b, s);
      SortIsUnique(a[1..], b[1..], s - {a[0]});
      assert a == [a[0]] + a[1..] && b == [b[0]] + b[1..];
    }
  }

  lemma TailIsSorted(a: seq<string>, s: set<string>)
    requires IsSorted(a, s) && a != []
    ensures IsSorted(a[1..], s - {a[0]})
  {
    SortedHasNoDuplicates(a, s);
    assert a == [a[0]] + a[1..];
    forall x ensures x in a[1..] <==> x in s - {a[0]} {
      if x in a[1..] {
        var i :| 0 <= i < |a[1..]| && a[1..][i] == x;
        assert a[0] != a[i + 1];
      }
    }
  }

  // ---------------------------------------------------------------- decimals

  predicate IsDigit(c: char) { '0' <= c <= '9' }

  function Digit(d: nat): (c: char)
    requires d < 10
    ensures IsDigit(c)
  {
    '0' + d as char
  }

  function Decimal(n: nat): (s: string)
    ensures s != "" && forall i :: 0 <= i < |s| ==> IsDigit(s[i])
  {
    if n < 10 then [Digit(n)] else Decimal(n / 10) + [Digit(n % 10)]
  }

  /** A signed number as `to_string` prints it. */
  function Signed(n: int): (s: string)
    ensures s != "" && forall i :: 0 <= i < |s| ==> IsDigit(s[i]) || s[i] == '-'
  {
    if n < 0 then "-" + Decimal(-n) else Decimal(n)
  }

  lemma {:induction false} DecimalInjective(a: nat, b: nat)
    requires Decimal(a) == Decimal(b)
    ensures a == b
  {
    var s, t := Decimal(a), Decimal(b);
    assert forall n: nat :: n >= 10 <==> |Decimal(n)| > 1;
    if a >= 10 && b >= 10 {
      assert s[..|s| - 1] == Decimal(a / 10) && t[..|t| - 1] == Decimal(b / 10);
      assert s[|s| - 1] == Digit(a % 10) && t[|t| - 1] == Digit(b % 10);
      DecimalInjective(a / 10, b / 10);
    } else {
      assert s[0] == Digit(a) && t[0] == Digit(b);
    }
  }

  lemma SignedInjective(a: int, b: int)
    requires Signed(a) == Signed(b)
    ensures a == b
  {
    assert forall n: int :: n < 0 <==> Signed(n)[0] == '-';
    if a < 0 && b < 0 {
      assert Signed(a)[1..] == Decimal(-a) && Signed(b)[1..] == Decimal(-b);
      DecimalInjective(-a, -b);
    } else {
      DecimalInjective(a, b);
    }
  }

  // ---------------------------------------------------------------- UTF-8 length and blankness

  function Width(c: char): (w: nat)
    ensures 1 <= w <= 4
  {
    if c < '\U{80}' then 1 else if c < '\U{800}' then 2 else if c < '\U{10000}' then 3 else 4
  }

  /** Length of the UTF-8 encoding, which is what Rust's `str::len` counts. */
  function ByteLen(s: string): nat
  {
    if s == "" then 0 else Width(s[0]) + ByteLen(s[1..])
  }

  lemma {:induction false} ByteLenOfConcat(a: string, b: string)
    ensures ByteLen(a + b) == ByteLen(a) + ByteLen(b)
  {
    if a == "" {
      assert a + b == b;
    } else {
      assert (a + b)[1..] == a[1..] + b;
      ByteLenOfConcat(a[1..], b);
    }
  }

  /** Unicode White_Space, the class `str::trim` removes. */
  predicate IsSpace(c: char)
  {
    '\t' <= c <= '\r' || c in {' ', '\U{85}', '\U{A0}', '\U{1680}', '\U{2028}', '\U{2029}', '\U{202F}', '\U{205F}', '\U{3000}'}
    || '\U{2000}' <= c <= '\U{200A}'
  }

  predicate IsBlank(s: string) { forall i :: 0 <= i < |s| ==> IsSpace(s[i]) }
}
