/** Truncating a command's output to whole UTF-8 characters (src-tauri/src/commands/inputs.rs
    1126-1136), with UTF-8 as RFC 3629 defines it in sections 3 and 4. */
module CommandPreview {

  type Byte = x: int | 0 <= x < 0x100

  /** A character number: no surrogates, nothing above U+10FFFF. */
  type Scalar = x: int | 0 <= x < 0xD800 || 0xE000 <= x < 0x11_0000

  /** A continuation byte carries six bits. */
  function Low(c: nat): (b: Byte) {
    0x80 + c % 0x40
  }

  /** One character, by the table of section 3, filled from the lowest bits. */
  function Encode(c: Scalar): (r: seq<Byte>)
    ensures 1 <= |r| <= 4
  {
    if c < 0x80 then [c]
    else
      var c1 := c / 0x40;
      if c < 0x800 then [0xC0 + c1, Low(c)]
      else
        var c2 := c1 / 0x40;
        if c < 0x1_0000 then [0xE0 + c2, Low(c1), Low(c)]
        else [0xF0 + c2 / 0x40, Low(c2), Low(c1), Low(c)]
  }

  function EncodeAll(cs: seq<Scalar>): seq<Byte> {
    if cs == [] then [] else Encode(cs[0]) + EncodeAll(cs[1..])
  }

  predicate IsContinuation(b: Byte) {
    0x80 <= b < 0xC0
  }

  /** How many bytes the character has that starts with this byte, or 0 if none can. */
  function Length(lead: Byte): nat {
    if lead < 0x80 then 1
    else if 0xC2 <= lead < 0xE0 then 2
    else if 0xE0 <= lead < 0xF0 then 3
    else if 0xF0 <= lead < 0xF5 then 4
    else 0
  }

  /** The syntax of section 4: one character of `n` bytes at the front. */
  predicate StartsWithCharacter(s: seq<Byte>, n: nat) {
    && 1 <= n <= |s| && Length(s[0]) == n
    && (forall i :: 1 <= i < n ==> IsContinuation(s[i]))
    && (s[0] == 0xE0 ==> s[1] >= 0xA0)
    && (s[0] == 0xED ==> s[1] < 0xA0)
    && (s[0] == 0xF0 ==> s[1] >= 0x90)
    && (s[0] == 0xF4 ==> s[1] < 0x90)
  }

  predicate IsUtf8(s: seq<Byte>) {
    s == [] || (StartsWithCharacter(s, Length(s[0])) && IsUtf8(s[Length(s[0])..]))
  }

  /** Six more bits. */
  function Append(high: nat, b: Byte): (c: nat)
    requires IsContinuation(b)
    ensures c / 0x40 == high && Low(c) == b
    ensures high * 0x40 <= c < (high + 1) * 0x40
  {
    high * 0x40 + (b - 0x80)
  }

  /** The character at the front, by its number of bytes. */
  function Decode2(a: Byte, b: Byte): (c: Scalar)
    requires Length(a) == 2 && IsContinuation(b)
    ensures Encode(c) == [a, b]
  {
    Append(a - 0xC0, b)
  }

  function Decode3(a: Byte, b: Byte, c: Byte): (d: Scalar)
    requires Length(a) == 3 && IsContinuation(b) && IsContinuation(c)
    requires (a == 0xE0 ==> b >= 0xA0) && (a == 0xED ==> b < 0xA0)
    ensures Encode(d) == [a, b, c]
  {
    Append(Append(a - 0xE0, b), c)
  }

  function Decode4(a: Byte, b: Byte, c: Byte, d: Byte): (e: Scalar)
    requires Length(a) == 4 && IsContinuation(b) && IsContinuation(c) && IsContinuation(d)
    requires (a == 0xF0 ==> b >= 0x90) && (a == 0xF4 ==> b < 0x90)
    ensures Encode(e) == [a, b, c, d]
  {
    Append(Append(Append(a - 0xF0, b), c), d)
  }

  function Decode(s: seq<Byte>): (c: Scalar)
    requires s != [] && StartsWithCharacter(s, Length(s[0]))
    ensures Encode(c) == s[..Length(s[0])]
  {
    if Length(s[0]) == 1 then s[0]
    else if Length(s[0]) == 2 then Decode2(s[0], s[1])
    else if Length(s[0]) == 3 then Decode3(s[0], s[1], s[2])
    else Decode4(s[0], s[1], s[2], s[3])
  }

  function DecodeAll(s: seq<Byte>): (cs: seq<Scalar>)
    requires IsUtf8(s)
    ensures EncodeAll(cs) == s
  {
    if s == [] then [] else [Decode(s)] + DecodeAll(s[Length(s[0])..])
  }

  lemma EncodeStarts(c: Scalar, rest: seq<Byte>)
    ensures StartsWithCharacter(Encode(c) + rest, |Encode(c)|)
  {}

  /** The syntax admits exactly the encodings of characters. */
  lemma {:induction false} EncodingsAreUtf8(cs: seq<Scalar>)
    ensures IsUtf8(EncodeAll(cs))
  {
    if cs != [] {
      EncodeStarts(cs[0], EncodeAll(cs[1..]));
      EncodingsAreUtf8(cs[1..]);
      assert EncodeAll(cs)[|Encode(cs[0])|..] == EncodeAll(cs[1..]);
    }
  }

  lemma Utf8IsEncoding(s: seq<Byte>)
    ensures IsUtf8(s) <==> exists cs :: EncodeAll(cs) == s
  {
    if IsUtf8(s) { assert EncodeAll(DecodeAll(s)) == s; }
    if exists cs :: EncodeAll(cs) == s {
      var cs :| EncodeAll(cs) == s;
      EncodingsAreUtf8(cs);
    }
  }

  // ---------- Boundaries ----------

  /** `is_char_boundary`. */
  predicate IsBoundary(s: seq<Byte>, i: int) {
    i == 0 || i == |s| || (0 < i < |s| && !IsContinuation(s[i]))
  }

  /** A place inside the first character. */
  lemma InsideFirst(s: seq<Byte>, i: nat)
    requires s != [] && StartsWithCharacter(s, Length(s[0])) && 0 < i < Length(s[0])
    ensures !IsBoundary(s, i) && !IsUtf8(s[..i])
  {
    assert s[..i][0] == s[0] && IsContinuation(s[i]);
  }

  /** A place behind the first character is a place in the rest. */
  lemma BehindFirst(s: seq<Byte>, n: nat, i: nat)
    requires s != [] && n == Length(s[0]) && StartsWithCharacter(s, n) && n <= i <= |s|
    ensures IsUtf8(s[..i]) <==> IsUtf8(s[n..][..i - n])
  {
    assert s[..i][0] == s[0] && s[..i][n..] == s[n..i] == s[n..][..i - n];
    assert StartsWithCharacter(s[..i], n);
  }

  lemma BoundaryBehindFirst(s: seq<Byte>, n: nat, i: nat)
    requires s != [] && n == Length(s[0]) && StartsWithCharacter(s, n) && IsUtf8(s[n..]) && n <= i <= |s|
    ensures IsBoundary(s, i) <==> IsBoundary(s[n..], i - n)
  {
    if i < |s| { assert s[n..][i - n] == s[i] && s[n..][0] == s[n]; }
  }

  /** In valid text, a boundary is exactly a place where the text before it is valid. */
  lemma {:induction false} BoundariesArePrefixes(s: seq<Byte>, i: nat)
    requires IsUtf8(s) && i <= |s|
    ensures IsBoundary(s, i) <==> IsUtf8(s[..i])
    decreases |s|
  {
    if i > 0 {
      var n := Length(s[0]);
      if i < n {
        InsideFirst(s, i);
      } else {
        BoundariesArePrefixes(s[n..], i - n);
        BehindFirst(s, n, i);
        BoundaryBehindFirst(s, n, i);
      }
    }
  }

  /** There is a boundary within any four consecutive places. */
  lemma {:induction false} BoundaryNearby(s: seq<Byte>, i: nat) returns (b: nat)
    requires IsUtf8(s) && i <= |s|
    ensures i - 3 <= b <= i && IsBoundary(s, b)
    decreases |s|
  {
    if i == 0 || i == |s| || i < Length(s[0]) {
      b := if i == |s| then i else 0;
    } else {
      var n := Length(s[0]);
      b := BoundaryNearby(s[n..], i - n);
      b := b + n;
      BoundaryBehindFirst(s, n, b);
    }
  }

  const LIMIT: nat := 64 * 1024

  /** The longest valid prefix within the limit, at most three bytes short of it. */
  method Truncate(value: seq<Byte>) returns (text: seq<Byte>, truncated: bool)
    requires IsUtf8(value)
    ensures text <= value && IsUtf8(text) && |text| <= LIMIT
    ensures forall p :: p <= value && IsUtf8(p) && |p| <= LIMIT ==> |p| <= |text|
    ensures truncated <==> text != value
    ensures truncated <==> |value| > LIMIT
    ensures truncated ==> |text| >= LIMIT - 3
  {
    if |value| <= LIMIT { return value, false; }
    ghost var near := BoundaryNearby(value, LIMIT);
    var end := LIMIT;
    while !IsBoundary(value, end)
      invariant near <= end <= LIMIT
      invariant forall i :: end < i <= LIMIT ==> !IsBoundary(value, i)
      decreases end
    {
      end := end - 1;
    }
    BoundariesArePrefixes(value, end);
    forall p | p <= value && IsUtf8(p) && |p| <= LIMIT ensures |p| <= end {
      assert value[..|p|] == p;
      BoundariesArePrefixes(value, |p|);
    }
    return value[..end], true;
  }
}
