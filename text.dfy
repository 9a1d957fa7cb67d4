// The C library string routines the wire codec relies on: `%d`
// formatting, `strtol` in base 10, and `strtok`, over `seq<char>`.
//
// `strtok` keeps a hidden pointer into the string it splits and writes a
// NUL over the delimiter that ends each token. Here the hidden pointer is
// the remaining suffix that each call returns, and a NUL in the input ends
// the string as it does in C.

module Text {
  import opened General

  const Nul: char := 0 as char

  predicate IsDigit(c: char)
  {
    '0' <= c <= '9'
  }

  /** `isspace` in the C locale. */
  predicate IsSpace(c: char)
  {
    c == ' ' || 9 <= c as int <= 13
  }

  function DigitChar(d: int): (c: char)
    requires 0 <= d < 10
    ensures IsDigit(c) && c as int - '0' as int == d
  {
    ('0' as int + d) as char
  }

  /** The decimal digits of n, most significant first, without leading zeros. */
  function NatDigits(n: nat): (s: seq<char>)
    ensures |s| >= 1
    ensures forall i :: 0 <= i < |s| ==> IsDigit(s[i])
    decreases n
  {
    if n < 10 then [DigitChar(n)] else NatDigits(n / 10) + [DigitChar(n % 10)]
  }

  /** `printf("%d", n)`. */
  function Dec(n: int): (s: seq<char>)
    ensures |s| >= 1
    ensures forall i :: 0 <= i < |s| ==> IsDigit(s[i]) || (i == 0 && s[i] == '-')
  {
    if n < 0 then ['-'] + NatDigits(-n) else NatDigits(n)
  }

  /** The value of a run of decimal digits. */
  function DigitsValue(s: seq<char>): int
    requires forall i :: 0 <= i < |s| ==> IsDigit(s[i])
  {
    if |s| == 0 then 0 else DigitsValue(s[..|s| - 1]) * 10 + (s[|s| - 1] as int - '0' as int)
  }

  /** The length of the leading run of decimal digits. */
  function DigitRun(s: seq<char>): (n: nat)
    ensures n <= |s|
    ensures forall i :: 0 <= i < n ==> IsDigit(s[i])
    ensures n < |s| ==> !IsDigit(s[n])
  {
    if |s| > 0 && IsDigit(s[0]) then 1 + DigitRun(s[1..]) else 0
  }

  function SkipSpace(s: seq<char>): (t: seq<char>)
    ensures |t| <= |s| && t == s[|s| - |t|..]
    ensures |t| > 0 ==> !IsSpace(t[0])
  {
    if |s| > 0 && IsSpace(s[0]) then SkipSpace(s[1..]) else s
  }

  /** The unsigned part of `strtol`: the value of the leading digits (0 if none). */
  function Magnitude(s: seq<char>): int
  {
    DigitsValue(s[..DigitRun(s)])
  }

  /**
   * `strtol(s, &end, 10)`: leading white space, an optional sign, then as
   * many digits as follow; 0 when there are none. Overflow clamping is not
   * modelled.
   */
  function StrTol(s: seq<char>): int
  {
    var t := SkipSpace(s);
    if |t| > 0 && t[0] == '-' then -Magnitude(t[1..])
    else if |t| > 0 && t[0] == '+' then Magnitude(t[1..])
    else Magnitude(t)
  }

  lemma {:induction false} NatDigitsValue(n: nat)
    ensures DigitsValue(NatDigits(n)) == n
    decreases n
  {
    if n >= 10 {
      var s := NatDigits(n);
      assert s[..|s| - 1] == NatDigits(n / 10);
      NatDigitsValue(n / 10);
    }
  }

  lemma {:induction false} DigitRunAll(s: seq<char>)
    requires forall i :: 0 <= i < |s| ==> IsDigit(s[i])
    ensures DigitRun(s) == |s|
    decreases |s|
  {
    if |s| > 0 {
      DigitRunAll(s[1..]);
    }
  }

  /** `strtol` reads back what `%d` printed. */
  lemma StrTolDec(n: int)
    ensures StrTol(Dec(n)) == n
  {
    var s := Dec(n);
    assert SkipSpace(s) == s;
    if n < 0 {
      var m := NatDigits(-n);
      assert s[0] == '-' && s[1..] == m;
      DigitRunAll(m);
      assert m[..DigitRun(m)] == m;
      NatDigitsValue(-n);
    } else {
      DigitRunAll(s);
      assert s[..DigitRun(s)] == s;
      NatDigitsValue(n);
    }
  }

  /** The C string held in a char array: everything before the first NUL. */
  function CStr(s: seq<char>): (t: seq<char>)
    ensures |t| <= |s| && t == s[..|t|]
    ensures Nul !in t
    ensures |t| < |s| ==> s[|t|] == Nul
  {
    if |s| == 0 || s[0] == Nul then [] else [s[0]] + CStr(s[1..])
  }

  lemma {:induction false} CStrNulFree(s: seq<char>)
    requires Nul !in s
    ensures CStr(s) == s
    decreases |s|
  {
    if |s| > 0 {
      CStrNulFree(s[1..]);
    }
  }

  /** The byte a character stands for in a received or sent frame. */
  function ByteOf(c: char): byte
  {
    (c as int) % 256
  }

  function CharOf(b: byte): (c: char)
    ensures ByteOf(c) == b
  {
    b as char
  }

  /** The bytes that a run of characters stands for. */
  function BytesOf(s: seq<char>): (r: seq<byte>)
    ensures |r| == |s| && forall k :: 0 <= k < |s| ==> r[k] == ByteOf(s[k])
  {
    seq(|s|, k requires 0 <= k < |s| => ByteOf(s[k]))
  }

  /** The characters that carry a run of bytes. */
  function CharsOf(b: seq<byte>): (r: seq<char>)
    ensures |r| == |b| && forall k :: 0 <= k < |b| ==> r[k] == CharOf(b[k])
  {
    seq(|b|, k requires 0 <= k < |b| => CharOf(b[k]))
  }

  // ---------------------------------------------------------------------
  // strtok
  // ---------------------------------------------------------------------

  /** strtok's first step: skip the delimiters in front of the token. */
  function SkipDelims(s: seq<char>, d: set<char>): (t: seq<char>)
    ensures |t| <= |s| && t == s[|s| - |t|..]
    ensures |t| > 0 ==> t[0] !in d
  {
    if |s| > 0 && s[0] in d then SkipDelims(s[1..], d) else s
  }

  /** The length of the token at the head of s: up to a delimiter, a NUL or the end. */
  function TokenLen(s: seq<char>, d: set<char>): (n: nat)
    ensures n <= |s|
    ensures forall i :: 0 <= i < n ==> s[i] !in d && s[i] != Nul
    ensures n < |s| ==> s[n] in d || s[n] == Nul
  {
    if |s| > 0 && s[0] !in d && s[0] != Nul then 1 + TokenLen(s[1..], d) else 0
  }

  /**
   * One call of `strtok`: the next token and the string that the following
   * call starts from, or None (a NULL pointer) when only delimiters remain.
   * A token ended by a NUL or by the end of the string leaves nothing for
   * the next call.
   */
  function StrTok(s: seq<char>, d: set<char>): (r: Option<(seq<char>, seq<char>)>)
    ensures r.Some? ==> |r.value.0| >= 1 && |r.value.1| < |s|
    ensures r.Some? ==> forall i :: 0 <= i < |r.value.0| ==> r.value.0[i] !in d && r.value.0[i] != Nul
  {
    var t := SkipDelims(s, d);
    if |t| == 0 || t[0] == Nul then None
    else
      var n := TokenLen(t, d);
      Some((t[..n], if n < |t| && t[n] in d then t[n + 1..] else []))
  }

  /**
   * The `size` bytes that `memcpy` copies from the start of the next
   * token: strtok has overwritten the delimiter that ends the token with
   * NUL, and past the end of the frame the buffer holds its terminating
   * NUL (what lies beyond it is indeterminate and read as 0 here).
   */
  function TokenBytes(s: seq<char>, d: set<char>, size: nat): (r: Option<seq<byte>>)
    ensures r.Some? ==> |r.value| == size
    ensures r.Some? <==> StrTok(s, d).Some?
  {
    var t := SkipDelims(s, d);
    if |t| == 0 || t[0] == Nul then None
    else
      var n := TokenLen(t, d);
      Some(seq(size, k requires 0 <= k < size => if k == n then 0 else if k < |t| then ByteOf(t[k]) else 0))
  }

  /** f followed by a comma and then rest: one field of a comma-separated frame. */
  function Cons(f: seq<char>, rest: seq<char>): seq<char>
  {
    f + [','] + rest
  }

  predicate FieldText(f: seq<char>, d: set<char>)
  {
    |f| >= 1 && forall i :: 0 <= i < |f| ==> f[i] !in d && f[i] != Nul
  }

  lemma {:induction false} TokenLenField(f: seq<char>, rest: seq<char>, d: set<char>)
    requires forall i :: 0 <= i < |f| ==> f[i] !in d && f[i] != Nul
    requires |rest| == 0 || rest[0] in d || rest[0] == Nul
    ensures TokenLen(f + rest, d) == |f|
    decreases |f|
  {
    if |f| > 0 {
      assert (f + rest)[1..] == f[1..] + rest;
      TokenLenField(f[1..], rest, d);
    } else {
      assert f + rest == rest;
    }
  }

  /** A field followed by a delimiter is the next token, and the call after it starts right past the delimiter. */
  lemma StrTokCons(f: seq<char>, rest: seq<char>, d: set<char>)
    requires FieldText(f, d) && ',' in d
    ensures StrTok(Cons(f, rest), d) == Some((f, rest))
  {
    var s := Cons(f, rest);
    assert s == f + ([','] + rest);
    assert SkipDelims(s, d) == s;
    TokenLenField(f, [','] + rest, d);
    assert s[..|f|] == f;
    assert s[|f| + 1..] == rest;
  }

  /** A field that ends the frame is the last token. */
  lemma StrTokLast(f: seq<char>, d: set<char>)
    requires FieldText(f, d)
    ensures StrTok(f, d) == Some((f, []))
  {
    assert SkipDelims(f, d) == f;
    TokenLenField(f, [], d);
    assert f + [] == f;
  }

  /** `memcpy` of the last field's first `size` bytes, when the field is exactly that long. */
  lemma TokenBytesLast(f: seq<char>, d: set<char>)
    requires FieldText(f, d)
    ensures TokenBytes(f, d, |f|) == Some(BytesOf(f))
  {
    assert SkipDelims(f, d) == f;
    TokenLenField(f, [], d);
    assert f + [] == f;
    assert TokenLen(f, d) == |f|;
    var r := seq(|f|, k requires 0 <= k < |f| => if k == |f| then 0 else if k < |f| then ByteOf(f[k]) else 0);
    assert TokenBytes(f, d, |f|) == Some(r);
    assert r == BytesOf(f);
  }

  lemma DecIsField(n: int, d: set<char>)
    requires forall c :: c in d ==> !IsDigit(c) && c != '-'
    ensures FieldText(Dec(n), d)
  {
  }
}
