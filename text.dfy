/**
 * The JavaScript string operations the chat view relies on, over `string`
 * (`seq<char>`): `split` and `join` with a non-empty separator, `trim`, and the
 * decimal rendering of a number inside a template literal.
 */
module Text {

  /** True when the separator `d` occurs in `s` starting at index `i`. */
  predicate OccursAt(s: string, d: string, i: nat)
  {
    i + |d| <= |s| && s[i..i + |d|] == d
  }

  /**
   * `s.split(d)` for a non-empty separator: the pieces of `s` between the
   * occurrences of `d` found by scanning left to right, each match resuming the
   * scan just after it (so matches never overlap).
   */
  function Split(s: string, d: string): (parts: seq<string>)
    requires |d| > 0
    ensures |parts| >= 1
    decreases |s|
  {
    if |s| < |d| then [s]
    else if s[..|d|] == d then [""] + Split(s[|d|..], d)
    else
      var rest := Split(s[1..], d);
      [[s[0]] + rest[0]] + rest[1..]
  }

  /** `parts.join(d)`: the parts with `d` between neighbours; `[].join(d)` is `""`. */
  function Join(parts: seq<string>, d: string): string
  {
    if |parts| == 0 then ""
    else if |parts| == 1 then parts[0]
    else parts[0] + d + Join(parts[1..], d)
  }

  /** The number of non-overlapping occurrences of `d` in `s`, found left to right. */
  function Count(s: string, d: string): nat
    requires |d| > 0
    decreases |s|
  {
    if |s| < |d| then 0
    else if s[..|d|] == d then 1 + Count(s[|d|..], d)
    else Count(s[1..], d)
  }

  /** Gluing a character onto the first part glues it onto the joined text. */
  lemma JoinConsHead(c: char, parts: seq<string>, d: string)
    requires |parts| >= 1
    ensures Join([[c] + parts[0]] + parts[1..], d) == [c] + Join(parts, d)
  {
  }

  /** Joining the pieces of a split with the same separator gives back the text. */
  lemma {:induction false} SplitJoin(s: string, d: string)
    requires |d| > 0
    ensures Join(Split(s, d), d) == s
    decreases |s|
  {
    if |s| < |d| {
    } else if s[..|d|] == d {
      var rest := Split(s[|d|..], d);
      SplitJoin(s[|d|..], d);
      assert ([""] + rest)[1..] == rest;
      assert s == s[..|d|] + s[|d|..];
    } else {
      var rest := Split(s[1..], d);
      SplitJoin(s[1..], d);
      JoinConsHead(s[0], rest, d);
      assert s == [s[0]] + s[1..];
    }
  }

  /** A split yields exactly one piece more than there are separator occurrences. */
  lemma {:induction false} SplitCount(s: string, d: string)
    requires |d| > 0
    ensures |Split(s, d)| == Count(s, d) + 1
    decreases |s|
  {
    if |s| < |d| {
    } else if s[..|d|] == d {
      SplitCount(s[|d|..], d);
    } else {
      SplitCount(s[1..], d);
    }
  }

  /** The first piece of a split is a prefix of the text. */
  lemma SplitHeadIsPrefix(s: string, d: string)
    requires |d| > 0
    ensures Split(s, d)[0] <= s
  {
    SplitJoin(s, d);
  }

  /** No piece of a split contains the separator at any position. */
  lemma {:induction false} SplitPieceAvoids(s: string, d: string, k: nat, i: nat)
    requires |d| > 0 && k < |Split(s, d)|
    ensures !OccursAt(Split(s, d)[k], d, i)
    decreases |s|
  {
    if |s| < |d| {
    } else if s[..|d|] == d {
      if k > 0 {
        SplitPieceAvoids(s[|d|..], d, k - 1, i);
      }
    } else {
      if k > 0 {
        SplitPieceAvoids(s[1..], d, k, i);
      } else {
        if i == 0 {
          SplitHeadIsPrefix(s[1..], d);
        } else {
          SplitPieceAvoids(s[1..], d, 0, i - 1);
        }
      }
    }
  }

  /**
   * The scan is leftmost: when the first occurrence of `d` starts at `i`, the first
   * piece is the text before it and the other pieces are the split of the text after it.
   */
  lemma {:induction false} SplitAtFirst(s: string, d: string, i: nat)
    requires |d| > 0 && OccursAt(s, d, i)
    requires forall j: nat :: j < i ==> !OccursAt(s, d, j)
    ensures |Split(s, d)| >= 2
    ensures Split(s, d)[0] == s[..i]
    ensures Split(s, d)[1..] == Split(s[i + |d|..], d)
    decreases i
  {
    if i > 0 {
      assert !OccursAt(s, d, 0);
      var t := s[1..];
      assert t[i - 1..i - 1 + |d|] == s[i..i + |d|];
      forall j: nat | j < i - 1
        ensures !OccursAt(t, d, j)
      {
        assert !OccursAt(s, d, j + 1);
        assert t[j..j + |d|] == s[j + 1..j + 1 + |d|];
      }
      SplitAtFirst(t, d, i - 1);
      assert t[i - 1 + |d|..] == s[i + |d|..];
      assert [s[0]] + t[..i - 1] == s[..i];
    }
  }

  /** A text without the separator splits into itself alone. */
  lemma {:induction false} SplitWithoutSeparator(s: string, d: string)
    requires |d| > 0
    requires forall j: nat :: !OccursAt(s, d, j)
    ensures Split(s, d) == [s]
    decreases |s|
  {
    if |s| >= |d| {
      assert !OccursAt(s, d, 0);
      var t := s[1..];
      forall j: nat
        ensures !OccursAt(t, d, j)
      {
        assert !OccursAt(s, d, j + 1);
        if j + |d| <= |t| {
          assert t[j..j + |d|] == s[j + 1..j + 1 + |d|];
        }
      }
      SplitWithoutSeparator(t, d);
      assert [s[0]] + t == s;
    }
  }

  /** Every piece of a split is free of the separator. */
  lemma SplitPiecesAvoid(s: string, d: string)
    requires |d| > 0
    ensures forall k: nat, i: nat :: k < |Split(s, d)| ==> !OccursAt(Split(s, d)[k], d, i)
  {
    forall k: nat, i: nat | k < |Split(s, d)|
      ensures !OccursAt(Split(s, d)[k], d, i)
    {
      SplitPieceAvoids(s, d, k, i);
    }
  }

  /** A one-character separator: no piece contains that character at all. */
  lemma SplitOnCharAvoids(s: string, c: char, k: nat)
    requires k < |Split(s, [c])|
    ensures c !in Split(s, [c])[k]
  {
    var p := Split(s, [c])[k];
    forall i | 0 <= i < |p| ensures p[i] != c {
      SplitPieceAvoids(s, [c], k, i);
      assert p[i..i + 1] == [p[i]];
    }
  }

  /**
   * The code points ECMAScript counts as WhiteSpace or LineTerminator, which
   * `String.prototype.trim` strips from both ends.
   */
  predicate IsJsWhitespace(c: char)
  {
    var n := c as int;
    n == 0x09 || n == 0x0A || n == 0x0B || n == 0x0C || n == 0x0D || n == 0x20
    || n == 0xA0 || n == 0x1680 || (0x2000 <= n <= 0x200A) || n == 0x2028
    || n == 0x2029 || n == 0x202F || n == 0x205F || n == 0x3000 || n == 0xFEFF
  }

  /** True when every character of `s` is whitespace (the empty text included). */
  predicate IsBlank(s: string)
  {
    forall i :: 0 <= i < |s| ==> IsJsWhitespace(s[i])
  }

  /** `s` without its leading whitespace. */
  function TrimStart(s: string): (r: string)
    ensures |r| <= |s| && r == s[|s| - |r|..]
    ensures r != [] ==> !IsJsWhitespace(r[0])
    ensures forall i :: 0 <= i < |s| - |r| ==> IsJsWhitespace(s[i])
  {
    if s != [] && IsJsWhitespace(s[0]) then TrimStart(s[1..]) else s
  }

  /** `s` without its trailing whitespace. */
  function TrimEnd(s: string): (r: string)
    ensures |r| <= |s| && r == s[..|r|]
    ensures r != [] ==> !IsJsWhitespace(r[|r| - 1])
    ensures forall i :: |r| <= i < |s| ==> IsJsWhitespace(s[i])
  {
    if s != [] && IsJsWhitespace(s[|s| - 1]) then TrimEnd(s[..|s| - 1]) else s
  }

  /** `s.trim()`. */
  function Trim(s: string): string
  {
    TrimEnd(TrimStart(s))
  }

  /** `s.trim()` is empty (falsy) exactly when `s` is blank. */
  lemma TrimEmptyIffBlank(s: string)
    ensures Trim(s) == "" <==> IsBlank(s)
  {
  }

  /** The decimal digit for `n`. */
  function Digit(n: nat): (c: char)
    requires n < 10
    ensures '0' <= c <= '9' && c as int - '0' as int == n
  {
    (48 + n) as char
  }

  /** True when every character of `s` is a decimal digit. */
  predicate AllDigits(s: string)
  {
    forall i :: 0 <= i < |s| ==> '0' <= s[i] <= '9'
  }

  /** The number a string of decimal digits spells, most significant digit first. */
  function Value(digits: string): nat
    requires AllDigits(digits)
  {
    if digits == [] then 0
    else Value(digits[..|digits| - 1]) * 10 + (digits[|digits| - 1] as int - '0' as int)
  }

  /** The decimal rendering of `n`, as a template literal prints a non-negative integer. */
  function Decimal(n: nat): (r: string)
    ensures |r| >= 1 && AllDigits(r)
    ensures n >= 10 <==> |r| > 1
    ensures n >= 10 ==> r[0] != '0'
  {
    if n < 10 then [Digit(n)] else Decimal(n / 10) + [Digit(n % 10)]
  }

  /** The digits of `Decimal(n)` spell `n`. */
  lemma {:induction false} DecimalValue(n: nat)
    ensures Value(Decimal(n)) == n
  {
    if n >= 10 {
      DecimalValue(n / 10);
      var r := Decimal(n);
      assert r[..|r| - 1] == Decimal(n / 10);
    }
  }

  /** Different numbers render differently, so a status can be read back from its text. */
  lemma DecimalInjective(m: nat, n: nat)
    requires Decimal(m) == Decimal(n)
    ensures m == n
  {
    DecimalValue(m);
    DecimalValue(n);
  }
}
