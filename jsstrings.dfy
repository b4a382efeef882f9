/** The JavaScript string built-ins the storefront relies on, written out: the `\s`
    character class, `trim`, `toLowerCase`, `split` on one character, `split(/[,\s]+/)`,
    `join`, `parseInt` and the decimal rendering of a number in a template string. */
module JsStrings {
  import opened Wrappers

  /** JavaScript's `\s` class, which is also the set `String.prototype.trim` strips:
      tab, line feed, vertical tab, form feed, carriage return, space, no-break space,
      the Unicode space separators, the line and paragraph separators and the BOM. */
  predicate IsSpace(c: char) {
    var n := c as int;
    n == 0x09 || n == 0x0A || n == 0x0B || n == 0x0C || n == 0x0D || n == 0x20
    || n == 0xA0 || n == 0x1680 || (0x2000 <= n <= 0x200A) || n == 0x2028
    || n == 0x2029 || n == 0x202F || n == 0x205F || n == 0x3000 || n == 0xFEFF
  }

  predicate NoSpace(s: string) {
    forall i | 0 <= i < |s| :: !IsSpace(s[i])
  }

  /** Every character is white space (the empty string included): exactly the strings
      whose `trim()` is falsy. */
  predicate Blank(s: string) {
    forall i | 0 <= i < |s| :: IsSpace(s[i])
  }

  predicate IsDigit(c: char) {
    '0' <= c <= '9'
  }

  // ---------------------------------------------------------------- trim

  function TrimStart(s: string): (r: string)
    ensures |r| <= |s| && r == s[|s| - |r|..]
    ensures forall i | 0 <= i < |s| - |r| :: IsSpace(s[i])
    ensures r == [] || !IsSpace(r[0])
  {
    if s != [] && IsSpace(s[0]) then TrimStart(s[1..]) else s
  }

  function TrimEnd(s: string): (r: string)
    ensures |r| <= |s| && r == s[..|r|]
    ensures forall i | |r| <= i < |s| :: IsSpace(s[i])
    ensures r == [] || !IsSpace(r[|r| - 1])
  {
    if s != [] && IsSpace(s[|s| - 1]) then TrimEnd(s[..|s| - 1]) else s
  }

  /** `s.trim()`: drops the white space at both ends and nothing else. */
  function Trim(s: string): (r: string)
    ensures |r| <= |s|
    ensures r == [] <==> Blank(s)
    ensures r != [] ==> !IsSpace(r[0]) && !IsSpace(r[|r| - 1])
  {
    TrimEnd(TrimStart(s))
  }

  lemma TrimNoSpace(s: string)
    requires NoSpace(s)
    ensures Trim(s) == s
  {
    if s != [] {
      assert !IsSpace(s[0]) && !IsSpace(s[|s| - 1]);
    }
  }

  /** `trim` removes exactly the white space padded around a string whose own ends are
      not white space. */
  lemma TrimPadding(a: string, s: string, b: string)
    requires Blank(a) && Blank(b)
    requires s == [] || (!IsSpace(s[0]) && !IsSpace(s[|s| - 1]))
    ensures Trim(a + s + b) == s
  {
    if s == [] {
      assert a + s + b == a + b;
      assert Blank(a + b) by {
        forall i | 0 <= i < |a + b| ensures IsSpace((a + b)[i]) {
          if i < |a| { assert (a + b)[i] == a[i]; } else { assert (a + b)[i] == b[i - |a|]; }
        }
      }
    } else {
      assert a + s + b == a + (s + b);
      TrimStartPadding(a, s + b);
      TrimEndPadding(s, b);
    }
  }

  lemma {:induction false} TrimStartPadding(a: string, t: string)
    requires Blank(a)
    requires t == [] || !IsSpace(t[0])
    ensures TrimStart(a + t) == t
    decreases |a|
  {
    if a == [] {
      assert a + t == t;
    } else {
      assert (a + t)[0] == a[0] && (a + t)[1..] == a[1..] + t;
      TrimStartPadding(a[1..], t);
    }
  }

  lemma {:induction false} TrimEndPadding(t: string, b: string)
    requires Blank(b)
    requires t == [] || !IsSpace(t[|t| - 1])
    ensures TrimEnd(t + b) == t
    decreases |b|
  {
    if b == [] {
      assert t + b == t;
    } else {
      var n := |b| - 1;
      assert (t + b)[|t + b| - 1] == b[n] && (t + b)[..|t + b| - 1] == t + b[..n];
      TrimEndPadding(t, b[..n]);
    }
  }

  lemma TrimIdempotent(s: string)
    ensures Trim(Trim(s)) == Trim(s)
  {
    var t := Trim(s);
    if t != [] {
      assert TrimStart(t) == t;
      assert TrimEnd(t) == t;
    }
  }

  // ---------------------------------------------------------------- lower case

  /** `toLowerCase` on one character, for the ASCII letters. */
  function LowerChar(c: char): (d: char)
    ensures IsSpace(d) == IsSpace(c)
    ensures 'A' <= c <= 'Z' ==> d as int == c as int + 32
    ensures !('A' <= c <= 'Z') ==> d == c
  {
    if 'A' <= c <= 'Z' then (c as int + 32) as char else c
  }

  function ToLower(s: string): (r: string)
    ensures |r| == |s|
    ensures forall i | 0 <= i < |s| :: r[i] == LowerChar(s[i])
  {
    if s == [] then [] else [LowerChar(s[0])] + ToLower(s[1..])
  }

  lemma {:induction false} ToLowerAppend(a: string, b: string)
    ensures ToLower(a + b) == ToLower(a) + ToLower(b)
    decreases |a|
  {
    if a == [] {
      assert a + b == b;
    } else {
      assert (a + b)[0] == a[0] && (a + b)[1..] == a[1..] + b;
      ToLowerAppend(a[1..], b);
    }
  }

  lemma {:induction false} TrimStartLower(s: string)
    ensures TrimStart(ToLower(s)) == ToLower(TrimStart(s))
    decreases |s|
  {
    if s != [] {
      var l := ToLower(s);
      assert l[0] == LowerChar(s[0]);
      if IsSpace(s[0]) {
        assert ToLower(s[1..]) == l[1..];
        TrimStartLower(s[1..]);
      }
    }
  }

  lemma {:induction false} TrimEndLower(s: string)
    ensures TrimEnd(ToLower(s)) == ToLower(TrimEnd(s))
    decreases |s|
  {
    if s != [] {
      var l := ToLower(s);
      assert l[|l| - 1] == LowerChar(s[|s| - 1]);
      if IsSpace(s[|s| - 1]) {
        LowerPrefix(s, |s| - 1);
        TrimEndLower(s[..|s| - 1]);
      }
    }
  }

  lemma LowerPrefix(s: string, n: nat)
    requires n <= |s|
    ensures ToLower(s[..n]) == ToLower(s)[..n]
  {
  }

  /** Trimming and lower-casing commute, so the order in which a schema applies its
      `trim` and `lowercase` setters does not matter. */
  lemma TrimLowerCommute(s: string)
    ensures Trim(ToLower(s)) == ToLower(Trim(s))
  {
    TrimStartLower(s);
    TrimEndLower(TrimStart(s));
  }

  // ---------------------------------------------------------------- join and split on one character

  /** `parts.join(sep)`. */
  function Join(parts: seq<string>, sep: string): string
  {
    if |parts| == 0 then "" else if |parts| == 1 then parts[0]
    else parts[0] + sep + Join(parts[1..], sep)
  }

  function IndexOf(s: string, c: char): (k: nat)
    requires c in s
    ensures k < |s| && s[k] == c && c !in s[..k]
  {
    if s[0] == c then 0 else assert c in s[1..]; 1 + IndexOf(s[1..], c)
  }

  /** The first occurrence is the only position before which `c` does not occur. */
  lemma {:induction false} IndexOfIs(s: string, c: char, k: nat)
    requires k < |s| && s[k] == c && c !in s[..k]
    ensures IndexOf(s, c) == k
    decreases k
  {
    if k > 0 {
      assert s[0] == s[..k][0];
      assert s[1..][k - 1] == c;
      assert s[1..][..k - 1] == s[..k][1..];
      IndexOfIs(s[1..], c, k - 1);
    }
  }

  /** `s.split(c)` for a one-character separator: the pieces between successive
      occurrences of `c`; there is always at least one, and joining them with `c`
      gives `s` back. */
  function SplitOn(s: string, c: char): (parts: seq<string>)
    ensures |parts| >= 1
    ensures forall i | 0 <= i < |parts| :: c !in parts[i]
    ensures Join(parts, [c]) == s
    decreases |s|
  {
    if c !in s then [s]
    else
      var k := IndexOf(s, c);
      var rest := SplitOn(s[k + 1..], c);
      assert ([s[..k]] + rest)[1..] == rest;
      assert s == s[..k] + [c] + s[k + 1..];
      [s[..k]] + rest
  }

  /** The other direction: splitting a join gives the pieces back when none of them
      contains the separator. */
  lemma {:induction false} SplitOnJoin(parts: seq<string>, c: char)
    requires |parts| >= 1
    requires forall i | 0 <= i < |parts| :: c !in parts[i]
    ensures SplitOn(Join(parts, [c]), c) == parts
    decreases |parts|
  {
    if |parts| > 1 {
      var tail := Join(parts[1..], [c]);
      var s := parts[0] + [c] + tail;
      assert s[|parts[0]|] == c && s[..|parts[0]|] == parts[0];
      IndexOfIs(s, c, |parts[0]|);
      assert s[|parts[0]| + 1..] == tail;
      SplitOnJoin(parts[1..], c);
      assert [parts[0]] + parts[1..] == parts;
    }
  }

  /** A piece that does not start with the separator keeps its first character in the
      first piece of the split. */
  lemma SplitOnCons(ch: char, s: string, c: char)
    requires ch != c
    ensures SplitOn([ch] + s, c) == [[ch] + SplitOn(s, c)[0]] + SplitOn(s, c)[1..]
  {
    var t := [ch] + s;
    assert t[1..] == s;
    if c in s {
      var k := IndexOf(s, c);
      assert t[k + 1] == c && t[..k + 1] == [ch] + s[..k];
      IndexOfIs(t, c, k + 1);
      assert t[k + 2..] == s[k + 1..];
    } else {
      assert c !in t;
    }
  }

  // ---------------------------------------------------------------- split on runs of commas and white space

  /** A separator of `split(/[,\s]+/)`. */
  predicate IsSizeSep(c: char) {
    c == ',' || IsSpace(c)
  }

  predicate NoSizeSep(s: string) {
    forall i | 0 <= i < |s| :: !IsSizeSep(s[i])
  }

  function LeadingPiece(s: string): (p: string)
    ensures |p| <= |s| && p == s[..|p|]
    ensures NoSizeSep(p)
    ensures |p| < |s| ==> IsSizeSep(s[|p|])
  {
    if s == [] || IsSizeSep(s[0]) then [] else [s[0]] + LeadingPiece(s[1..])
  }

  function DropSizeSeps(s: string): (r: string)
    ensures |r| <= |s| && r == s[|s| - |r|..]
    ensures forall i | 0 <= i < |s| - |r| :: IsSizeSep(s[i])
    ensures r == [] || !IsSizeSep(r[0])
    ensures s != [] && IsSizeSep(s[0]) ==> |r| < |s|
  {
    if s != [] && IsSizeSep(s[0]) then DropSizeSeps(s[1..]) else s
  }

  /** `s.split(/[,\s]+/)`: the pieces between maximal runs of commas and white space.
      A run at either end gives an empty piece there; no piece holds a separator. */
  function SplitSizeRuns(s: string): (parts: seq<string>)
    ensures |parts| >= 1
    ensures forall i | 0 <= i < |parts| :: NoSizeSep(parts[i])
    decreases |s|
  {
    var p := LeadingPiece(s);
    var rest := s[|p|..];
    if rest == [] then [p]
    else
      assert IsSizeSep(rest[0]);
      var tail := SplitSizeRuns(DropSizeSeps(rest));
      ConsPieces(p, tail);
      [p] + tail
  }

  lemma ConsPieces(p: string, tail: seq<string>)
    requires NoSizeSep(p)
    requires forall i | 0 <= i < |tail| :: NoSizeSep(tail[i])
    ensures forall i | 0 <= i < |tail| + 1 :: NoSizeSep(([p] + tail)[i])
  {
    var r := [p] + tail;
    forall i | 0 <= i < |r|
      ensures NoSizeSep(r[i])
    {
      if i > 0 {
        assert r[i] == tail[i - 1];
      }
    }
  }

  /** The characters of `s` that are not separators, in order. */
  function StripSizeSeps(s: string): string {
    if s == [] then [] else (if IsSizeSep(s[0]) then [] else [s[0]]) + StripSizeSeps(s[1..])
  }

  function Concat(parts: seq<string>): string {
    if parts == [] then [] else parts[0] + Concat(parts[1..])
  }

  lemma {:induction false} StripAppend(a: string, b: string)
    ensures StripSizeSeps(a + b) == StripSizeSeps(a) + StripSizeSeps(b)
    decreases |a|
  {
    if a != [] {
      assert (a + b)[0] == a[0] && (a + b)[1..] == a[1..] + b;
      StripAppend(a[1..], b);
    } else {
      assert a + b == b;
    }
  }

  lemma {:induction false} StripNoSep(s: string)
    requires NoSizeSep(s)
    ensures StripSizeSeps(s) == s
    decreases |s|
  {
    if s != [] {
      StripNoSep(s[1..]);
    }
  }

  lemma {:induction false} StripAllSep(s: string)
    requires forall i | 0 <= i < |s| :: IsSizeSep(s[i])
    ensures StripSizeSeps(s) == []
    decreases |s|
  {
    if s != [] {
      StripAllSep(s[1..]);
    }
  }

  /** The pieces of `split(/[,\s]+/)` are exactly the non-separator characters of the
      input, cut at the separator runs: nothing is lost and nothing is added. */
  lemma {:induction false} SplitSizeRunsCover(s: string)
    ensures Concat(SplitSizeRuns(s)) == StripSizeSeps(s)
    decreases |s|
  {
    var p := LeadingPiece(s);
    var rest := s[|p|..];
    StripPieceThenRest(s);
    if rest != [] {
      var d := DropSizeSeps(rest);
      StripSepsThenRest(rest);
      SplitSizeRunsCover(d);
      var tail := SplitSizeRuns(d);
      assert SplitSizeRuns(s) == [p] + tail;
      assert ([p] + tail)[1..] == tail;
    } else {
      assert SplitSizeRuns(s) == [p];
      assert [p][1..] == [];
    }
  }

  lemma StripPieceThenRest(s: string)
    ensures StripSizeSeps(s) == LeadingPiece(s) + StripSizeSeps(s[|LeadingPiece(s)|..])
  {
    var p := LeadingPiece(s);
    assert s == p + s[|p|..];
    StripAppend(p, s[|p|..]);
    StripNoSep(p);
  }

  lemma StripSepsThenRest(s: string)
    ensures StripSizeSeps(s) == StripSizeSeps(DropSizeSeps(s))
  {
    var d := DropSizeSeps(s);
    var dropped := s[..|s| - |d|];
    assert s == dropped + d;
    StripAppend(dropped, d);
    StripAllSep(dropped);
  }

  /** A maximal-run candidate: a non-empty string of commas and white space. */
  predicate SepRun(r: string) {
    r != [] && forall i | 0 <= i < |r| :: IsSizeSep(r[i])
  }

  /** `parts[0] + seps[0] + parts[1] + ... + parts[n]`: pieces glued by separator runs. */
  function Interleave(parts: seq<string>, seps: seq<string>): string
    requires |parts| == |seps| + 1
    decreases |seps|
  {
    if seps == [] then parts[0] else parts[0] + seps[0] + Interleave(parts[1..], seps[1..])
  }

  /** The cuts fall exactly at the separator runs: a string made of separator-free pieces
      glued by non-empty runs of separators splits into those pieces. Only the first and
      the last piece may be empty, as JavaScript's split gives an empty piece for a run at
      either end. */
  lemma {:induction false} SplitSizeRunsInterleave(parts: seq<string>, seps: seq<string>)
    requires |parts| == |seps| + 1
    requires forall i | 0 <= i < |parts| :: NoSizeSep(parts[i])
    requires forall i | 0 < i < |parts| - 1 :: parts[i] != ""
    requires forall i | 0 <= i < |seps| :: SepRun(seps[i])
    ensures SplitSizeRuns(Interleave(parts, seps)) == parts
    decreases |seps|
  {
    if seps == [] {
      LeadingPieceOf(parts[0], []);
      assert parts[0] + [] == parts[0];
    } else {
      var rest := Interleave(parts[1..], seps[1..]);
      InterleaveHead(parts[1..], seps[1..]);
      SplitAtRun(parts[0], seps[0], rest);
      SplitSizeRunsInterleave(parts[1..], seps[1..]);
      assert [parts[0]] + parts[1..] == parts;
    }
  }

  /** One cut: a piece, a separator run, and a rest that starts with no separator. */
  lemma SplitAtRun(p: string, r: string, rest: string)
    requires NoSizeSep(p) && SepRun(r)
    requires rest == [] || !IsSizeSep(rest[0])
    ensures SplitSizeRuns(p + r + rest) == [p] + SplitSizeRuns(rest)
  {
    var s := p + r + rest;
    assert s == p + (r + rest);
    LeadingPieceOf(p, r + rest);
    assert s[|p|..] == r + rest;
    DropSizeSepsOf(r, rest);
  }

  /** An interleaving of separator-free pieces does not start with a separator, unless
      its first piece is empty and a run follows. */
  lemma InterleaveHead(parts: seq<string>, seps: seq<string>)
    requires |parts| == |seps| + 1
    requires forall i | 0 <= i < |parts| :: NoSizeSep(parts[i])
    requires |parts| > 1 ==> parts[0] != ""
    ensures var s := Interleave(parts, seps); s == [] || !IsSizeSep(s[0])
  {
    var s := Interleave(parts, seps);
    if seps != [] {
      assert s == parts[0] + (seps[0] + Interleave(parts[1..], seps[1..]));
      assert s[0] == parts[0][0];
    } else if parts[0] != [] {
      assert s[0] == parts[0][0];
    }
  }

  /** A separator-free prefix followed by a separator (or nothing) is the leading piece. */
  lemma {:induction false} LeadingPieceOf(p: string, t: string)
    requires NoSizeSep(p)
    requires t == [] || IsSizeSep(t[0])
    ensures LeadingPiece(p + t) == p
    decreases |p|
  {
    if p == [] {
      assert p + t == t;
    } else {
      assert (p + t)[0] == p[0] && (p + t)[1..] == p[1..] + t;
      LeadingPieceOf(p[1..], t);
      assert [p[0]] + p[1..] == p;
    }
  }

  /** Dropping a separator run stops at the first character that is not one. */
  lemma {:induction false} DropSizeSepsOf(r: string, t: string)
    requires forall i | 0 <= i < |r| :: IsSizeSep(r[i])
    requires t == [] || !IsSizeSep(t[0])
    ensures DropSizeSeps(r + t) == t
    decreases |r|
  {
    if r == [] {
      assert r + t == t;
    } else {
      assert (r + t)[0] == r[0] && (r + t)[1..] == r[1..] + t;
      DropSizeSepsOf(r[1..], t);
    }
  }

  /** `parts.filter(s => s)`: drops the empty strings, keeping order. */
  function NonEmpty(parts: seq<string>): (r: seq<string>)
    ensures |r| <= |parts|
    ensures forall i | 0 <= i < |r| :: r[i] != "" && r[i] in parts
    ensures forall x | x in parts && x != "" :: x in r
  {
    if parts == [] then []
    else (if parts[0] == "" then [] else [parts[0]]) + NonEmpty(parts[1..])
  }

  /** `parts.map(s => s.trim())`. */
  function TrimAll(parts: seq<string>): (r: seq<string>)
    ensures |r| == |parts|
    ensures forall i | 0 <= i < |parts| :: r[i] == Trim(parts[i])
  {
    if parts == [] then [] else [Trim(parts[0])] + TrimAll(parts[1..])
  }

  // ---------------------------------------------------------------- numbers as text

  function DigitChar(d: nat): (c: char)
    requires d < 10
    ensures IsDigit(c)
  {
    "0123456789"[d]
  }

  function DigitValue(c: char): (d: nat)
    requires IsDigit(c)
    ensures d < 10 && DigitChar(d) == c
  {
    c as int - '0' as int
  }

  /** The decimal rendering of a number in a template string, `${n}`. */
  function NatToString(n: nat): (s: string)
    ensures s != [] && forall i | 0 <= i < |s| :: IsDigit(s[i])
  {
    if n < 10 then [DigitChar(n)] else NatToString(n / 10) + [DigitChar(n % 10)]
  }

  /** `n.toString()`, and `${n}` in a template, for a whole number. */
  function IntToString(n: int): string {
    if n < 0 then "-" + NatToString(-n) else NatToString(n)
  }

  /** The value of a string of decimal digits, most significant first. */
  function DigitsValue(ds: string): nat
    requires forall i | 0 <= i < |ds| :: IsDigit(ds[i])
  {
    if ds == [] then 0 else DigitsValue(ds[..|ds| - 1]) * 10 + DigitValue(ds[|ds| - 1])
  }

  lemma {:induction false} DigitsValueOfNatToString(n: nat)
    ensures DigitsValue(NatToString(n)) == n
  {
    var s := NatToString(n);
    if n >= 10 {
      DigitsValueOfNatToString(n / 10);
      assert s[..|s| - 1] == NatToString(n / 10);
    }
  }

  function DigitPrefix(s: string): (ds: string)
    ensures |ds| <= |s| && ds == s[..|ds|]
    ensures forall i | 0 <= i < |ds| :: IsDigit(ds[i])
    ensures |ds| < |s| ==> !IsDigit(s[|ds|])
  {
    if s == [] || !IsDigit(s[0]) then [] else [s[0]] + DigitPrefix(s[1..])
  }

  predicate IsHexDigit(c: char) {
    IsDigit(c) || 'a' <= c <= 'f' || 'A' <= c <= 'F'
  }

  function HexValue(c: char): (d: nat)
    requires IsHexDigit(c)
    ensures d < 16
  {
    if IsDigit(c) then DigitValue(c)
    else if 'a' <= c <= 'f' then c as int - 'a' as int + 10
    else c as int - 'A' as int + 10
  }

  function HexPrefix(s: string): (ds: string)
    ensures |ds| <= |s| && ds == s[..|ds|]
    ensures forall i | 0 <= i < |ds| :: IsHexDigit(ds[i])
  {
    if s == [] || !IsHexDigit(s[0]) then [] else [s[0]] + HexPrefix(s[1..])
  }

  function HexDigitsValue(ds: string): nat
    requires forall i | 0 <= i < |ds| :: IsHexDigit(ds[i])
  {
    if ds == [] then 0 else HexDigitsValue(ds[..|ds| - 1]) * 16 + HexValue(ds[|ds| - 1])
  }

  /** The unsigned part of `parseInt`: `0x`/`0X` selects hexadecimal; the longest
      digit prefix is read and the rest ignored; `None` when there is no digit. */
  function ParseUnsigned(body: string): Option<nat>
  {
    if |body| >= 2 && body[0] == '0' && (body[1] == 'x' || body[1] == 'X') then
      var hs := HexPrefix(body[2..]);
      if hs == [] then None else Some(HexDigitsValue(hs))
    else
      var ds := DigitPrefix(body);
      if ds == [] then None else Some(DigitsValue(ds))
  }

  /** `parseInt(s)` with no radix: leading white space is skipped, then the signed
      number is read. `None` is `NaN`. */
  function ParseInt(s: string): Option<int>
  {
    ParseSigned(TrimStart(s))
  }

  function Negate(magnitude: Option<nat>, negative: bool): Option<int> {
    if magnitude.None? then None
    else if negative then Some(0 - magnitude.value as int)
    else Some(magnitude.value as int)
  }

  /** An optional sign, then the unsigned part. */
  function ParseSigned(t: string): Option<int>
  {
    if t != [] && (t[0] == '-' || t[0] == '+') then
      Negate(ParseUnsigned(t[1..]), t[0] == '-')
    else Negate(ParseUnsigned(t), false)
  }

  lemma {:induction false} DigitPrefixOfDigits(s: string)
    requires forall i | 0 <= i < |s| :: IsDigit(s[i])
    ensures DigitPrefix(s) == s
    decreases |s|
  {
    if s != [] {
      DigitPrefixOfDigits(s[1..]);
    }
  }

  lemma DigitsParseUnsigned(s: string)
    requires s != [] && forall i | 0 <= i < |s| :: IsDigit(s[i])
    ensures ParseUnsigned(s) == Some(DigitsValue(s))
  {
    DigitPrefixOfDigits(s);
    assert |s| >= 2 ==> s[1] != 'x' && s[1] != 'X';
  }

  /** A plain run of decimal digits is read as its decimal value. */
  lemma ParseIntOfDigits(s: string)
    requires s != [] && forall i | 0 <= i < |s| :: IsDigit(s[i])
    ensures ParseInt(s) == Some(DigitsValue(s))
  {
    DigitNotSpace(s[0]);
    assert TrimStart(s) == s;
    assert ParseSigned(s) == Negate(ParseUnsigned(s), false);
    DigitsParseUnsigned(s);
  }

  lemma DigitNotSpace(c: char)
    requires IsDigit(c)
    ensures !IsSpace(c) && c != '-' && c != '+'
  {
  }

  /** `parseInt` reads back what `${n}` wrote. */
  lemma ParseIntOfNatToString(n: nat)
    ensures ParseInt(NatToString(n)) == Some(n)
  {
    ParseIntOfDigits(NatToString(n));
    DigitsValueOfNatToString(n);
  }
}
