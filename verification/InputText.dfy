/** The string operations input definitions rely on: Rust's `trim`, decimal formatting with
    zero padding, and the code-point order of strings. */
module InputText {
  import opened Outcomes

  // ---------- White space ----------

  /** The characters with the Unicode property White_Space, which `str::trim` removes. */
  predicate IsWhite(c: char) {
    || '\U{0009}' <= c <= '\U{000D}' || c == ' ' || c == '\U{0085}' || c == '\U{00A0}'
    || c == '\U{1680}' || '\U{2000}' <= c <= '\U{200A}' || c == '\U{2028}' || c == '\U{2029}'
    || c == '\U{202F}' || c == '\U{205F}' || c == '\U{3000}'
  }

  function TrimStart(s: string): string {
    if s != [] && IsWhite(s[0]) then TrimStart(s[1..]) else s
  }

  function TrimEnd(s: string): string {
    if s != [] && IsWhite(s[|s| - 1]) then TrimEnd(s[..|s| - 1]) else s
  }

  function Trim(s: string): string {
    TrimEnd(TrimStart(s))
  }

  /** A string that trimming leaves alone. */
  predicate IsTrimmed(s: string) {
    s != [] ==> !IsWhite(s[0]) && !IsWhite(s[|s| - 1])
  }

  lemma {:induction false} TrimStartHead(s: string)
    ensures TrimStart(s) != [] ==> !IsWhite(TrimStart(s)[0])
  {
    if s != [] && IsWhite(s[0]) { TrimStartHead(s[1..]); }
  }

  lemma {:induction false} TrimEndIsPrefix(s: string)
    ensures TrimEnd(s) <= s
    ensures TrimEnd(s) != [] ==> !IsWhite(TrimEnd(s)[|TrimEnd(s)| - 1])
  {
    if s != [] && IsWhite(s[|s| - 1]) { TrimEndIsPrefix(s[..|s| - 1]); }
  }

  lemma TrimIsTrimmed(s: string)
    ensures IsTrimmed(Trim(s))
    ensures Trim(Trim(s)) == Trim(s)
  {
    TrimStartHead(s);
    TrimEndIsPrefix(TrimStart(s));
  }

  lemma TrimmedIsFixed(s: string)
    ensures Trim(s) == s <==> IsTrimmed(s)
  {
    TrimIsTrimmed(s);
  }

  ghost predicate AllWhite(s: string) {
    forall i :: 0 <= i < |s| ==> IsWhite(s[i])
  }

  lemma {:induction false} TrimStartRemovesWhite(s: string)
    ensures |TrimStart(s)| <= |s| && TrimStart(s) == s[|s| - |TrimStart(s)|..]
    ensures AllWhite(s[..|s| - |TrimStart(s)|])
  {
    if s != [] && IsWhite(s[0]) {
      TrimStartRemovesWhite(s[1..]);
      var k := |s| - |TrimStart(s)|;
      assert s[1..][k - 1..] == s[k..];
      forall i | 0 <= i < k ensures IsWhite(s[..k][i]) {
        if i > 0 { assert s[1..][..k - 1][i - 1] == s[i]; }
      }
    }
  }

  lemma {:induction false} TrimEndRemovesWhite(s: string)
    ensures TrimEnd(s) <= s && AllWhite(s[|TrimEnd(s)|..])
  {
    if s != [] && IsWhite(s[|s| - 1]) {
      var k := |TrimEnd(s)|;
      TrimEndRemovesWhite(s[..|s| - 1]);
      forall i | 0 <= i < |s| - k ensures IsWhite(s[k..][i]) {
        if i < |s| - 1 - k { assert s[..|s| - 1][k..][i] == s[k + i]; }
      }
    }
  }

  /** Trimming removes white space at the two ends, all of it, and nothing else. */
  lemma TrimRemovesWhite(s: string) returns (before: string, after: string)
    ensures s == before + Trim(s) + after
    ensures AllWhite(before) && AllWhite(after) && IsTrimmed(Trim(s))
  {
    var started := TrimStart(s);
    TrimStartRemovesWhite(s);
    TrimEndRemovesWhite(started);
    TrimIsTrimmed(s);
    before, after := s[..|s| - |started|], started[|Trim(s)|..];
    SplitInThree(s, |s| - |started|, |Trim(s)|);
  }

  lemma SplitInThree(s: string, i: nat, j: nat)
    requires i + j <= |s|
    ensures s == s[..i] + s[i..][..j] + s[i..][j..]
  {}

  /** `normalize_optional_text`: an optional text is trimmed, and a blank one is dropped. */
  function NormalizedText(o: Option<string>): Option<string> {
    if o.Some? && Trim(o.value) != [] then Some(Trim(o.value)) else None
  }

  lemma NormalizedTextIdempotent(o: Option<string>)
    ensures NormalizedText(NormalizedText(o)) == NormalizedText(o)
  {
    if o.Some? { TrimIsTrimmed(o.value); }
  }

  // ---------- Code-point order ----------

  predicate LexLess(a: string, b: string) {
    b != [] && (a == [] || a[0] < b[0] || (a[0] == b[0] && LexLess(a[1..], b[1..])))
  }

  lemma {:induction false} LexIrreflexive(a: string)
    ensures !LexLess(a, a)
  {
    if a != [] { LexIrreflexive(a[1..]); }
  }

  lemma {:induction false} LexTransitive(a: string, b: string, c: string)
    requires LexLess(a, b) && LexLess(b, c)
    ensures LexLess(a, c)
  {
    if a != [] && a[0] == b[0] == c[0] { LexTransitive(a[1..], b[1..], c[1..]); }
  }

  lemma {:induction false} LexTotal(a: string, b: string)
    ensures a == b || LexLess(a, b) || LexLess(b, a)
  {
    if a != [] && b != [] && a[0] == b[0] {
      LexTotal(a[1..], b[1..]);
      assert a == [a[0]] + a[1..] && b == [b[0]] + b[1..];
    }
  }

  /** Strings of equal length compare by their first parts, then by their last characters. */
  lemma {:induction false} LexAppend(a: string, b: string, x: char, y: char)
    requires |a| == |b|
    requires LexLess(a, b) || (a == b && x < y)
    ensures LexLess(a + [x], b + [y])
  {
    if a != [] {
      assert (a + [x])[1..] == a[1..] + [x] && (b + [y])[1..] == b[1..] + [y];
      if a[0] == b[0] { LexAppend(a[1..], b[1..], x, y); }
    }
  }

  lemma {:induction false} LexCommonPrefix(p: string, a: string, b: string)
    ensures LexLess(p + a, p + b) == LexLess(a, b)
  {
    if p == [] {
      assert p + a == a && p + b == b;
    } else {
      assert (p + a)[1..] == p[1..] + a && (p + b)[1..] == p[1..] + b;
      LexCommonPrefix(p[1..], a, b);
    }
  }

  predicate StrictlySorted(ks: seq<string>) {
    forall i, j :: 0 <= i < j < |ks| ==> LexLess(ks[i], ks[j])
  }

  predicate IsLeast(ks: set<string>, k: string) {
    k in ks && forall o :: o in ks && o != k ==> LexLess(k, o)
  }

  lemma LeastExists(ks: set<string>)
    requires ks != {}
    ensures exists k :: IsLeast(ks, k)
  {
    var k :| k in ks;
    var rest := ks - {k};
    if rest == {} {
      assert ks == {k};
      assert IsLeast(ks, k);
    } else {
      LeastExists(rest);
      var m :| IsLeast(rest, m);
      LexTotal(k, m);
      var least := if LexLess(k, m) then k else m;
      forall o | o in ks && o != least ensures LexLess(least, o) {
        if least == k && o != m { LexTransitive(k, m, o); }
      }
      assert IsLeast(ks, least);
    }
  }

  lemma LeastUnique(ks: set<string>)
    ensures forall a, b :: IsLeast(ks, a) && IsLeast(ks, b) ==> a == b
  {
    forall a, b | IsLeast(ks, a) && IsLeast(ks, b) ensures a == b {
      if a != b { LexTransitive(a, b, a); LexIrreflexive(a); }
    }
  }

  function Least(ks: set<string>): (k: string)
    requires ks != {}
    ensures IsLeast(ks, k)
  {
    LeastExists(ks);
    LeastUnique(ks);
    var k :| IsLeast(ks, k);
    k
  }

  /** The keys of a map as `sort_by_key` leaves them. */
  function SortedKeys(ks: set<string>): seq<string> {
    if ks == {} then [] else [Least(ks)] + SortedKeys(ks - {Least(ks)})
  }

  lemma {:induction false} SortedKeysSound(ks: set<string>)
    ensures forall k :: k in SortedKeys(ks) <==> k in ks
    ensures |SortedKeys(ks)| == |ks|
    ensures StrictlySorted(SortedKeys(ks))
  {
    if ks != {} {
      var least := Least(ks);
      var rest := SortedKeys(ks - {least});
      SortedKeysSound(ks - {least});
      var all := [least] + rest;
      forall i, j | 0 <= i < j < |all| ensures LexLess(all[i], all[j]) {
        assert all[j] == rest[j - 1] && rest[j - 1] in rest;
        if i > 0 { assert all[i] == rest[i - 1]; }
      }
    }
  }

  /** Sorting has one answer: a strictly increasing listing of the keys is the sorted one. */
  lemma {:induction false} SortedKeysUnique(ks: set<string>, listing: seq<string>)
    requires StrictlySorted(listing)
    requires forall k :: k in listing <==> k in ks
    ensures SortedKeys(ks) == listing
  {
    if listing == [] {
      assert forall k :: k !in ks;
    } else {
      assert listing[0] in ks;
      var least := Least(ks);
      var i :| 0 <= i < |listing| && listing[i] == least;
      if i != 0 {
        LexTransitive(listing[0], least, listing[0]);
        LexIrreflexive(listing[0]);
      }
      forall k ensures k in listing[1..] <==> k in ks - {least} {
        if k in listing[1..] {
          var j :| 1 <= j < |listing| && listing[j] == k;
          if k == least { LexIrreflexive(k); }
        }
      }
      SortedKeysUnique(ks - {least}, listing[1..]);
    }
  }

  // ---------- Decimal keys ----------

  function Digit(d: nat): char
    requires d < 10
  {
    '0' + d as char
  }

  function Decimal(n: nat): string {
    if n < 10 then [Digit(n)] else Decimal(n / 10) + [Digit(n % 10)]
  }

  function Zeros(n: nat): string {
    seq(n, _ => '0')
  }

  /** `format!("{n:06}")` for `width` 6: padding with zeros to a minimum width. */
  function ZeroPadded(n: nat, width: nat): string {
    var digits := Decimal(n);
    if |digits| < width then Zeros(width - |digits|) + digits else digits
  }

  function Pow10(w: nat): (p: nat)
    ensures 1 <= p
  {
    if w == 0 then 1 else 10 * Pow10(w - 1)
  }

  function FixedWidth(n: nat, w: nat): (s: string)
    ensures |s| == w
  {
    if w == 0 then [] else FixedWidth(n / 10, w - 1) + [Digit(n % 10)]
  }

  lemma {:induction false} FixedWidthZero(w: nat)
    ensures FixedWidth(0, w) == Zeros(w)
  {
    if w != 0 { FixedWidthZero(w - 1); }
  }

  lemma {:induction false} DecimalLength(n: nat, w: nat)
    requires 0 < w
    ensures n < Pow10(w) <==> |Decimal(n)| <= w
    ensures 0 < |Decimal(n)|
  {
    if 10 <= n {
      DecimalLength(n / 10, if w == 1 then 1 else w - 1);
      assert |Decimal(n)| == |Decimal(n / 10)| + 1;
      if w == 1 {
        assert Pow10(1) == 10 * Pow10(0);
      } else {
        var p := Pow10(w - 1);
        assert Pow10(w) == 10 * p;
        assert n < 10 * p <==> n / 10 < p;
      }
    }
  }

  lemma {:induction false} PaddedIsFixedWidth(n: nat, w: nat)
    requires 0 < w && n < Pow10(w)
    ensures ZeroPadded(n, w) == FixedWidth(n, w)
  {
    DecimalLength(n, w);
    if n < 10 {
      FixedWidthZero(w - 1);
    } else {
      PaddedIsFixedWidth(n / 10, w - 1);
      DecimalLength(n / 10, w - 1);
      var k := w - |Decimal(n)|;
      assert Zeros(k) + (Decimal(n / 10) + [Digit(n % 10)]) == (Zeros(k) + Decimal(n / 10)) + [Digit(n % 10)];
    }
  }

  lemma {:induction false} FixedWidthOrdered(i: nat, j: nat, w: nat)
    requires i < j < Pow10(w)
    ensures LexLess(FixedWidth(i, w), FixedWidth(j, w))
  {
    if i / 10 < j / 10 { FixedWidthOrdered(i / 10, j / 10, w - 1); }
    LexAppend(FixedWidth(i / 10, w - 1), FixedWidth(j / 10, w - 1), Digit(i % 10), Digit(j % 10));
  }

  /** The number that a string of digits writes. */
  function NumberOf(s: string): nat
    requires forall i :: 0 <= i < |s| ==> '0' <= s[i] <= '9'
  {
    if s == [] then 0 else 10 * NumberOf(s[..|s| - 1]) + (s[|s| - 1] - '0') as nat
  }

  predicate AreDigits(s: string) {
    forall i :: 0 <= i < |s| ==> '0' <= s[i] <= '9'
  }

  /** The key writes its number, in digits only. */
  lemma {:induction false} FixedWidthWrites(n: nat, w: nat)
    requires n < Pow10(w)
    ensures AreDigits(FixedWidth(n, w)) && NumberOf(FixedWidth(n, w)) == n
  {
    if w > 0 {
      FixedWidthWrites(n / 10, w - 1);
      assert FixedWidth(n, w)[..w - 1] == FixedWidth(n / 10, w - 1);
    }
  }

  lemma {:induction false} DecimalInjective(i: nat, j: nat)
    requires Decimal(i) == Decimal(j)
    ensures i == j
  {
    DecimalLength(i, 1);
    DecimalLength(j, 1);
    assert Decimal(i)[|Decimal(i)| - 1] == Decimal(j)[|Decimal(j)| - 1];
    if 10 <= i && 10 <= j {
      assert Decimal(i)[..|Decimal(i)| - 1] == Decimal(i / 10);
      assert Decimal(j)[..|Decimal(j)| - 1] == Decimal(j / 10);
      DecimalInjective(i / 10, j / 10);
    }
  }
}
