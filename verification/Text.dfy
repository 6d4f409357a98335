/**
 Strings as the program uses them: the order `sort.Strings` sorts by, the
 sorted slice of a key set, splitting on a separator and ASCII lower case.
 */
module Text {

  /** Strict lexicographic order. */
  predicate Less(a: string, b: string)
    decreases |a|
  {
    |b| > 0 && (|a| == 0 || a[0] < b[0] || (a[0] == b[0] && Less(a[1..], b[1..])))
  }

  lemma {:induction false} LessTransitive(a: string, b: string, c: string)
    requires Less(a, b) && Less(b, c)
    ensures Less(a, c)
    decreases |a|
  {
    if |a| > 0 && a[0] == b[0] && b[0] == c[0] {
      LessTransitive(a[1..], b[1..], c[1..]);
    }
  }

  /** Exactly one of the three relations holds between two strings. */
  lemma {:induction false} LessTrichotomy(a: string, b: string)
    ensures a != b ==> Less(a, b) || Less(b, a)
    ensures Less(a, b) ==> a != b && !Less(b, a)
    decreases |a|
  {
    if |a| > 0 && |b| > 0 {
      LessTrichotomy(a[1..], b[1..]);
      assert a == [a[0]] + a[1..] && b == [b[0]] + b[1..];
    }
  }

  predicate IsLeast(m: string, s: set<string>) {
    m in s && forall x :: x in s ==> x == m || Less(m, x)
  }

  lemma {:induction false} LeastExists(s: set<string>)
    requires s != {}
    ensures exists m :: IsLeast(m, s)
  {
    var x :| x in s;
    var rest := s - {x};
    if rest == {} {
      assert s == {x};
      assert IsLeast(x, s);
    } else {
      LeastExists(rest);
      var m :| IsLeast(m, rest);
      LessTrichotomy(m, x);
      if Less(x, m) {
        forall y | y in s ensures y == x || Less(x, y) {
          if y in rest && y != m { LessTransitive(x, m, y); }
        }
        assert IsLeast(x, s);
      } else {
        assert IsLeast(m, s);
      }
    }
  }

  /** The first string of a non-empty set. */
  function Least(s: set<string>): (m: string)
    requires s != {}
    ensures IsLeast(m, s)
  {
    LeastExists(s);
    assert forall m, n | IsLeast(m, s) && IsLeast(n, s) :: m == n by {
      forall m, n | IsLeast(m, s) && IsLeast(n, s) ensures m == n { LessTrichotomy(m, n); }
    }
    var m :| m in s && IsLeast(m, s);
    m
  }

  ghost predicate StrictlySorted(ks: seq<string>) {
    forall i, j :: 0 <= i < j < |ks| ==> Less(ks[i], ks[j])
  }

  predicate Distinct<T(==)>(xs: seq<T>) {
    forall i, j :: 0 <= i < j < |xs| ==> xs[i] != xs[j]
  }

  /** The keys of a map, collected into a slice and sorted. */
  function SortedKeys(s: set<string>): (ks: seq<string>)
    ensures StrictlySorted(ks)
    ensures forall k :: k in ks <==> k in s
    ensures Distinct(ks)
    ensures |ks| == |s|
  {
    if s == {} then [] else
      var m := Least(s);
      var rest := SortedKeys(s - {m});
      var ks := [m] + rest;
      assert forall i, j :: 0 <= i < j < |ks| ==> Less(ks[i], ks[j]) && ks[i] != ks[j] by {
        forall i, j | 0 <= i < j < |ks| ensures Less(ks[i], ks[j]) && ks[i] != ks[j] {
          assert ks[j] == rest[j - 1] && ks[j] in rest;
          LessTrichotomy(ks[i], ks[j]);
        }
      }
      ks
  }

  /** strings.Split for a one-character separator: never empty. */
  function Split(s: string, sep: char): (parts: seq<string>)
    ensures |parts| >= 1
    ensures forall p :: p in parts ==> sep !in p
    decreases |s|
  {
    if |s| == 0 then [""]
    else
      var rest := Split(s[1..], sep);
      if s[0] == sep then [""] + rest
      else [[s[0]] + rest[0]] + rest[1..]
  }

  function JoinWith(parts: seq<string>, sep: string): (s: string)
  {
    if |parts| == 0 then ""
    else if |parts| == 1 then parts[0]
    else parts[0] + sep + JoinWith(parts[1..], sep)
  }

  /** fmt's %d. */
  function Digits(n: nat): (s: string)
    ensures |s| >= 1
  {
    if n < 10 then ["0123456789"[n]] else Digits(n / 10) + Digits(n % 10)
  }

  function Decimal(n: int): (s: string) {
    if n < 0 then "-" + Digits(-n) else Digits(n)
  }

  function LowerChar(c: char): (r: char) {
    if 'A' <= c <= 'Z' then c + 32 as char else c
  }

  /** strings.ToLower on the ASCII letters. */
  function ToLower(s: string): (r: string)
    ensures |r| == |s|
  {
    seq(|s|, i requires 0 <= i < |s| => LowerChar(s[i]))
  }

  predicate IsAsciiSpace(c: char) {
    '\t' <= c <= '\r' || c == ' '
  }

  /** unicode.IsSpace. */
  predicate IsSpace(c: char) {
    var n := c as int;
    IsAsciiSpace(c) || n == 0x85 || n == 0xA0 || n == 0x1680 || 0x2000 <= n <= 0x200a
    || n == 0x2028 || n == 0x2029 || n == 0x202f || n == 0x205f || n == 0x3000
  }

  predicate Contains(s: string, needle: string) {
    needle <= s || (|s| > 0 && Contains(s[1..], needle))
  }

  // ----- What these mean -----

  /** a and b agree before i, where a ends or has the lower byte. */
  predicate LessAt(a: string, b: string, i: int) {
    0 <= i < |b| && i <= |a| && a[..i] == b[..i] && (i == |a| || a[i] < b[i])
  }

  /** The order is the one of bytes: decided at the first difference, or by length if one
      string continues the other. */
  lemma {:induction false} LessIff(a: string, b: string)
    ensures Less(a, b) <==> exists i :: LessAt(a, b, i)
    decreases |a|
  {
    if |a| > 0 && |b| > 0 && a[0] == b[0] {
      LessIff(a[1..], b[1..]);
      if i :| LessAt(a[1..], b[1..], i) {
        assert a[..i + 1] == [a[0]] + a[1..][..i] && b[..i + 1] == [b[0]] + b[1..][..i];
        assert LessAt(a, b, i + 1);
      }
      if i :| LessAt(a, b, i) {
        assert i > 0;
        assert a[1..][..i - 1] == a[..i][1..] && b[1..][..i - 1] == b[..i][1..];
        assert LessAt(a[1..], b[1..], i - 1);
      }
    } else {
      if Less(a, b) { assert LessAt(a, b, 0); }
      if |a| > 0 && |b| > 0 {
        forall i: int | 0 < i <= |a| && i <= |b| ensures a[..i] != b[..i] {
          assert a[..i][0] == a[0] && b[..i][0] == b[0];
        }
      }
    }
  }

  lemma {:induction false} ContainsIff(s: string, needle: string)
    ensures Contains(s, needle) <==> exists i :: 0 <= i <= |s| && needle <= s[i..]
    decreases |s|
  {
    assert s[0..] == s;
    if |s| > 0 {
      ContainsIff(s[1..], needle);
      if Contains(s[1..], needle) {
        var i :| 0 <= i <= |s[1..]| && needle <= s[1..][i..];
        assert s[1..][i..] == s[i + 1..];
      }
      if i :| 0 <= i <= |s| && needle <= s[i..] {
        if i > 0 { assert s[1..][i - 1..] == s[i..]; }
      }
    }
  }

  /** Joining what was split gives the string back. */
  lemma {:induction false} JoinOfSplit(s: string, sep: char)
    ensures JoinWith(Split(s, sep), [sep]) == s
    decreases |s|
  {
    if |s| > 0 {
      JoinOfSplit(s[1..], sep);
      var rest := Split(s[1..], sep);
      if s[0] == sep {
        assert ([""] + rest)[1..] == rest;
        assert JoinWith([""] + rest, [sep]) == "" + [sep] + JoinWith(rest, [sep]);
        assert "" + [sep] + s[1..] == s;
      } else {
        JoinHead([s[0]], rest, [sep]);
        assert [s[0]] + s[1..] == s;
      }
    }
  }

  lemma JoinHead(c: string, parts: seq<string>, sep: string)
    requires |parts| >= 1
    ensures JoinWith([c + parts[0]] + parts[1..], sep) == c + JoinWith(parts, sep)
  {
    var longer := [c + parts[0]] + parts[1..];
    assert longer[1..] == parts[1..];
    if |parts| > 1 {
      assert (c + parts[0]) + sep + JoinWith(parts[1..], sep) == c + (parts[0] + sep + JoinWith(parts[1..], sep));
    }
  }

  /** A field that ends at a separator it does not contain can be read back. */
  lemma FieldEnds(a: string, x: string, b: string, y: string, sep: char)
    requires sep !in a && sep !in b && a + [sep] + x == b + [sep] + y
    ensures a == b && x == y
  {
    var s := a + [sep] + x;
    BeforeField(a, x, sep);
    BeforeField(b, y, sep);
    assert x == s[|a| + 1..] && y == s[|b| + 1..];
  }

  /** What precedes the first separator. */
  function Before(s: string, sep: char): (a: string) {
    if s == "" || s[0] == sep then "" else [s[0]] + Before(s[1..], sep)
  }

  lemma {:induction false} BeforeField(a: string, x: string, sep: char)
    requires sep !in a
    ensures Before(a + [sep] + x, sep) == a
    decreases |a|
  {
    if a != "" {
      BeforeField(a[1..], x, sep);
      assert (a + [sep] + x)[1..] == a[1..] + [sep] + x;
      assert [a[0]] + a[1..] == a;
    }
  }

  /** The number a row of decimal digits stands for. */
  function NumberOf(s: string): (n: int) {
    if s == "" then 0 else 10 * NumberOf(s[..|s| - 1]) + (s[|s| - 1] as int - '0' as int)
  }

  lemma {:induction false} DigitsMean(n: nat)
    ensures NumberOf(Digits(n)) == n
    ensures forall c :: c in Digits(n) ==> '0' <= c <= '9'
    ensures n > 0 ==> Digits(n)[0] != '0'
  {
    if n < 10 {
      var d := Digits(n);
      assert d[..0] == "" && NumberOf("") == 0;
      assert d[0] as int == '0' as int + n;
    } else {
      DigitsMean(n / 10);
      DigitsMean(n % 10);
      var head, last := Digits(n / 10), Digits(n % 10);
      assert |last| == 1;
      assert (head + last)[..|head|] == head;
      assert last[..0] == "";
      assert NumberOf(last) == last[0] as int - '0' as int;
    }
  }

  function IntOf(s: string): (n: int) {
    if s != "" && s[0] == '-' then -NumberOf(s[1..]) else NumberOf(s)
  }

  /** A decimal text can be read back, and holds digits and at most a sign. */
  lemma DecimalMeans(n: int)
    ensures IntOf(Decimal(n)) == n
    ensures forall c :: c in Decimal(n) ==> '0' <= c <= '9' || c == '-'
  {
    if n < 0 {
      DigitsMean(-n);
      assert Decimal(n)[1..] == Digits(-n);
    } else {
      DigitsMean(n);
      assert Decimal(n)[0] in Digits(n);
    }
  }
}
