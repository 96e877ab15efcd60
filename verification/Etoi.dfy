/** The number parser of rwBar.c. The hexadecimal branch scans groups of four digits from the
    right with 32-bit accumulators; the specification reads the same text as a number in base
    65536. The value -1 of the source is 0xffffffff. */
module Etoi {
  import opened Hw

  const MINUS_ONE := 0xffff_ffff
  const LONG_MAX := 0x7fff_ffff_ffff_ffff

  // ---------------------------------------------------------------- digits

  predicate IsDec(c: char) { '0' <= c <= '9' }
  predicate IsHex(c: char) { IsDec(c) || 'a' <= c <= 'f' || 'A' <= c <= 'F' }
  predicate IsSep(c: char) { c == '_' || c == '-' }

  function Digit(c: char): (d: nat)
    requires IsHex(c)
    ensures d < 16
  {
    if IsDec(c) then c as int - '0' as int
    else if 'a' <= c <= 'f' then c as int - 'a' as int + 10
    else c as int - 'A' as int + 10
  }

  predicate AllHex(s: seq<char>) { forall k :: 0 <= k < |s| ==> IsHex(s[k]) }
  predicate AllDec(s: seq<char>) { forall k :: 0 <= k < |s| ==> IsDec(s[k]) }

  /** Positional values, most significant digit first. */
  function Hex(s: seq<char>): nat
    requires AllHex(s)
  {
    if s == [] then 0 else 16 * Hex(s[..|s| - 1]) + Digit(s[|s| - 1])
  }

  function Dec(s: seq<char>): nat
    requires AllDec(s)
  {
    if s == [] then 0 else 10 * Dec(s[..|s| - 1]) + Digit(s[|s| - 1])
  }

  // ---------------------------------------------------------------- specification

  /** Groups of exactly four digits, a separator before each but the first, which may be shorter. */
  function Groups(v: seq<char>): Option<nat> {
    if |v| <= 4 then (if AllHex(v) then Some(Hex(v)) else None)
    else
      var cut := |v| - 5;
      if !AllHex(v[cut + 1..]) || !IsSep(v[cut]) then None
      else match Groups(v[..cut])
        case None => None
        case Some(n) => Some(65536 * n + Hex(v[cut + 1..]))
  }

  /** Position of the first occurrence of c, |s| if there is none. */
  function Find(s: seq<char>, c: char): (k: nat)
    ensures k <= |s| && (k < |s| ==> s[k] == c) && forall j :: 0 <= j < k ==> s[j] != c
  {
    if s == [] || s[0] == c then 0 else 1 + Find(s[1..], c)
  }

  function Mark(s: seq<char>): nat { if Find(s, 'x') < |s| then Find(s, 'x') else Find(s, 'X') }

  /** What the library conversions return, saturated at the largest long and truncated. */
  function Converted(n: nat): nat { W32(Min(n, LONG_MAX)) }

  function Hexadecimal(v: seq<char>): nat {
    if v == [] then MINUS_ONE
    else if AllHex(v) then Converted(Hex(v))
    else match Groups(v)
      case None => MINUS_ONE
      case Some(n) => W32(n)
  }

  function Parsed(s: seq<char>): nat {
    var m := Mark(s);
    if m < |s| then
      (if m > 1 || (m == 1 && s[0] != '0') then MINUS_ONE else Hexadecimal(s[m + 1..]))
    else if AllDec(s) then Converted(Dec(s))
    else MINUS_ONE
  }

  // ---------------------------------------------------------------- 32-bit accumulators

  lemma Wrap(a: nat, b: nat, c: nat)
    ensures W32(W32(a) + W32(b) * c) == W32(a + b * c)
  {
    var r := b % B32;
    var q, p, t := b / B32, a / B32, a % B32;
    Distribute(a, b, c, p, t, q, r);
    ModShift(t + r * c, B32, p + q * c);
  }

  lemma Distribute(a: nat, b: nat, c: nat, p: nat, t: nat, q: nat, r: nat)
    requires a == p * B32 + t && b == q * B32 + r
    ensures a + b * c == (p + q * c) * B32 + (t + r * c)
  {
    assert b * c == (q * B32) * c + r * c;
    assert (q * B32) * c == (q * c) * B32;
    assert (p + q * c) * B32 == p * B32 + (q * c) * B32;
  }

  function Pow16(n: nat): nat { if n == 0 then 1 else 16 * Pow16(n - 1) }

  lemma Rotate(a: nat, b: nat, c: nat)
    ensures a * (b * c) == b * (a * c)
  {
  }

  lemma {:induction false} ValuePrepend(c: char, s: seq<char>)
    requires AllHex([c] + s)
    ensures AllHex(s) && IsHex(c) && Hex([c] + s) == Digit(c) * Pow16(|s|) + Hex(s)
    ensures Pow16(|s| + 1) == 16 * Pow16(|s|)
  {
    assert ([c] + s)[0] == c;
    assert forall k :: 0 <= k < |s| ==> ([c] + s)[k + 1] == s[k];
    if s == [] {
      assert [c] + s == [c] && [c][..0] == [];
    } else {
      var n := |s| - 1;
      assert ([c] + s)[..n + 1] == [c] + s[..n];
      ValuePrepend(c, s[..n]);
      Rotate(16, Digit(c), Pow16(n));
    }
  }

  // ---------------------------------------------------------------- the scan from the right

  /** Reading part instead of all of v: what lies to the right is worth tail, and what is left of
      it weighs weight. */
  ghost predicate Seen(v: seq<char>, part: seq<char>, tail: nat, weight: nat) {
    && Groups(v).Some? == Groups(part).Some?
    && (Groups(v).Some? ==> Groups(v).value == weight * Groups(part).value + tail)
  }

  /** A complete group and its separator move to the right. */
  lemma CloseGroup(v: seq<char>, rest: seq<char>, c: char, g: seq<char>, tail: nat, weight: nat)
    requires |g| == 4 && AllHex(g) && IsSep(c) && Seen(v, rest + [c] + g, tail, weight)
    ensures Seen(v, rest, tail + weight * Hex(g), 65536 * weight)
  {
    var p := rest + [c] + g;
    assert p[..|p| - 5] == rest && p[|p| - 4..] == g && p[|p| - 5] == c;
    if Groups(rest).Some? {
      Regroup(weight, Groups(rest).value, Hex(g));
    }
  }

  lemma Regroup(w: nat, n: nat, x: nat)
    ensures w * (65536 * n + x) == (65536 * w) * n + w * x
  {
  }

  lemma NoSeparator(v: seq<char>, rest: seq<char>, c: char, g: seq<char>, tail: nat, weight: nat)
    requires |g| == 4 && !IsSep(c) && Seen(v, rest + [c] + g, tail, weight)
    ensures Groups(v) == None
  {
    var p := rest + [c] + g;
    assert p[|p| - 5] == c;
  }

  lemma NoDigit(v: seq<char>, rest: seq<char>, c: char, g: seq<char>, tail: nat, weight: nat)
    requires |g| < 4 && !IsHex(c) && Seen(v, rest + [c] + g, tail, weight)
    ensures Groups(v) == None
  {
    var p := rest + [c] + g;
    assert p[|rest|] == c;
    if |p| > 4 { assert p[|p| - 4..][3 - |g|] == c; }
  }

  lemma NoDigits()
    ensures Hex([]) == 0 && Pow16(0) == 1
  {
  }

  lemma AllToRead(v: seq<char>)
    ensures Seen(v, v, 0, 1)
  {
  }

  lemma FirstGroup(v: seq<char>, g: seq<char>, tail: nat, weight: nat)
    requires |g| <= 4 && AllHex(g) && Seen(v, g, tail, weight)
    ensures Groups(v) == Some(weight * Hex(g) + tail)
  {
  }

  lemma Accumulate(tail: nat, weight: nat, x: nat)
    ensures W32(W32(tail) + W32(weight) * x) == W32(tail + weight * x)
    ensures W32(W32(weight) * 65536) == W32(65536 * weight)
  {
    Wrap(tail, weight, x);
    Wrap(0, weight, 65536);
  }

  /** The loop over '_' and '-' separated groups, with its four 32-bit accumulators. */
  method ScanGroups(v: seq<char>) returns (r: nat)
    requires v != []
    ensures r == (if Groups(v).Some? then W32(Groups(v).value) else MINUS_ONE)
  {
    hide W32, Groups, Digit, IsHex, IsSep, Seen, Hex, Pow16;
    NoDigits();
    var cdword, tdword, multp, multd, cnt := 0, W32(0), 1, W32(1), 0;
    var i := |v|;
    ghost var tail: nat, weight: nat, g := 0, 1, v[|v|..];
    assert v[..|v|] + g == v;
    assert Seen(v, v, 0, 1) by { AllToRead(v); }
    while i > 0
      invariant 0 <= i <= |v| && 0 <= cnt <= 4 && cnt == |g| && AllHex(g)
      invariant Seen(v, v[..i] + g, tail, weight)
      invariant tdword == W32(tail) && multd == W32(weight)
      invariant cdword == Hex(g) && multp == Pow16(cnt)
    {
      var c := v[i - 1];
      assert v[..i] == v[..i - 1] + [c];
      i := i - 1;
      if cnt == 4 {
        if !IsSep(c) {
          NoSeparator(v, v[..i], c, g, tail, weight);
          return MINUS_ONE;
        }
        CloseGroup(v, v[..i], c, g, tail, weight);
        Accumulate(tail, weight, cdword);
        tdword, multd := W32(tdword + multd * cdword), W32(multd * 65536);
        tail, weight := tail + weight * cdword, 65536 * weight;
        multp, cdword, cnt, g := 1, 0, 0, [];
        assert v[..i] + g == v[..i];
      } else {
        if !IsHex(c) {
          NoDigit(v, v[..i], c, g, tail, weight);
          return MINUS_ONE;
        }
        assert v[..i] + [c] + g == v[..i] + ([c] + g);
        ValuePrepend(c, g);
        cdword := cdword + Digit(c) * multp;
        multp, cnt, g := multp * 16, cnt + 1, [c] + g;
      }
    }
    assert v[..0] + g == g;
    Accumulate(tail, weight, cdword);
    FirstGroup(v, g, tail, weight);
    r := W32(tdword + multd * cdword);
  }

  // ---------------------------------------------------------------- the library conversions

  /** A digit more can only saturate further. */
  lemma Saturates(n: nat, b: nat, d: nat)
    requires b >= 1
    ensures Min(b * Min(n, LONG_MAX) + d, LONG_MAX) == Min(b * n + d, LONG_MAX)
  {
    if n > LONG_MAX {
      MulMono(1, b, n);
      MulMono(1, b, LONG_MAX);
    }
  }

  /** atoi on a string of digits: a long that saturates. */
  method Atoi(s: seq<char>) returns (n: nat)
    requires AllDec(s)
    ensures n == Min(Dec(s), LONG_MAX)
  {
    hide Digit;
    n := 0;
    var i := 0;
    while i < |s|
      invariant 0 <= i <= |s| && n == Min(Dec(s[..i]), LONG_MAX)
    {
      assert s[..i + 1][..i] == s[..i];
      Saturates(Dec(s[..i]), 10, Digit(s[i]));
      n := Min(10 * n + Digit(s[i]), LONG_MAX);
      i := i + 1;
    }
    assert s[..|s|] == s;
  }

  /** strtol in base 16 on a string of digits. */
  method Strtol(v: seq<char>) returns (n: nat)
    requires AllHex(v)
    ensures n == Min(Hex(v), LONG_MAX)
  {
    hide Digit;
    n := 0;
    var i := 0;
    while i < |v|
      invariant 0 <= i <= |v| && n == Min(Hex(v[..i]), LONG_MAX)
    {
      assert v[..i + 1][..i] == v[..i];
      Saturates(Hex(v[..i]), 16, Digit(v[i]));
      n := Min(16 * n + Digit(v[i]), LONG_MAX);
      i := i + 1;
    }
    assert v[..|v|] == v;
  }

  /** The whole function. */
  method Parse(s: seq<char>) returns (r: nat)
    ensures r == Parsed(s)
  {
    var m := Find(s, 'x');
    if m == |s| { m := Find(s, 'X'); }
    if m < |s| {
      if m > 1 || (m == 1 && s[0] != '0') { return MINUS_ONE; }
      var v := s[m + 1..];
      var i := 0;
      while i < |v| && IsHex(v[i])
        invariant 0 <= i <= |v| && forall k :: 0 <= k < i ==> IsHex(v[k])
      {
        i := i + 1;
      }
      if |v| == 0 { return MINUS_ONE; }
      if i == |v| {
        var n := Strtol(v);
        return W32(n);
      }
      r := ScanGroups(v);
    } else {
      var i := 0;
      while i < |s|
        invariant 0 <= i <= |s| && forall k :: 0 <= k < i ==> IsDec(s[k])
      {
        if !IsDec(s[i]) { return MINUS_ONE; }
        i := i + 1;
      }
      var n := Atoi(s);
      r := W32(n);
    }
  }

  // ---------------------------------------------------------------- printing and reading back

  function HexChar(d: nat, upper: bool): (c: char)
    requires d < 16
    ensures IsHex(c) && Digit(c) == d && c != 'x' && c != 'X' && !IsSep(c)
  {
    if d < 10 then '0' + d as char else if upper then 'A' + (d - 10) as char else 'a' + (d - 10) as char
  }

  /** Four hexadecimal digits. */
  function Print4(n: nat, upper: bool): (s: seq<char>)
    requires n < 65536
    ensures |s| == 4 && AllHex(s)
  {
    [HexChar(n / 4096, upper), HexChar(n / 256 % 16, upper), HexChar(n / 16 % 16, upper), HexChar(n % 16, upper)]
  }

  /** Groups of four digits, most significant first, each separated from the next. */
  function Print(gs: seq<nat>, sep: char, upper: bool): (s: seq<char>)
    requires gs != [] && forall k :: 0 <= k < |gs| ==> gs[k] < 65536
    ensures |s| == 5 * |gs| - 1
  {
    if |gs| == 1 then Print4(gs[0], upper)
    else Print(gs[..|gs| - 1], sep, upper) + [sep] + Print4(gs[|gs| - 1], upper)
  }

  function Horner(gs: seq<nat>): nat { if gs == [] then 0 else 65536 * Horner(gs[..|gs| - 1]) + gs[|gs| - 1] }

  lemma Print4Value(n: nat, upper: bool)
    requires n < 65536
    ensures Hex(Print4(n, upper)) == n
  {
    hide HexChar, Hex;
    Hex4(Print4(n, upper));
    Nibbles(n);
  }

  lemma Hex4(s: seq<char>)
    requires |s| == 4 && AllHex(s)
    ensures Hex(s) == 16 * (16 * (16 * Digit(s[0]) + Digit(s[1])) + Digit(s[2])) + Digit(s[3])
  {
    hide Digit;
    var a, b, c := s[..1], s[..2], s[..3];
    assert a[..0] == [] && b[..1] == a && c[..2] == b && s[..3] == c;
    assert Hex(a) == Digit(s[0]);
    assert Hex(b) == 16 * Hex(a) + Digit(s[1]);
    assert Hex(c) == 16 * Hex(b) + Digit(s[2]);
  }

  lemma Nibbles(n: nat)
    ensures n == 16 * (16 * (16 * (n / 4096) + n / 256 % 16) + n / 16 % 16) + n % 16
  {
    assert n / 16 / 16 == n / 256 && n / 256 / 16 == n / 4096;
  }

  /** Any number of printed groups is read as the number they spell in base 65536. */
  lemma {:induction false} GroupsOfPrint(gs: seq<nat>, sep: char, upper: bool)
    requires gs != [] && (forall k :: 0 <= k < |gs| ==> gs[k] < 65536) && (sep == '_' || sep == '-')
    ensures Groups(Print(gs, sep, upper)) == Some(Horner(gs))
  {
    hide Hex, Print4, HexChar, Groups, IsSep, IsHex;
    Separates(sep);
    var n := |gs| - 1;
    Print4Value(gs[n], upper);
    if n == 0 {
      FirstOnly(Print4(gs[0], upper));
      assert Horner(gs) == gs[0] by { assert gs[..0] == []; }
    } else {
      GroupsOfPrint(gs[..n], sep, upper);
      OneGroup(Print(gs[..n], sep, upper), sep, Print4(gs[n], upper), Horner(gs[..n]));
    }
  }

  lemma Separates(c: char)
    requires c == '_' || c == '-'
    ensures IsSep(c) && !IsHex(c)
  {
  }

  lemma FirstOnly(g: seq<char>)
    requires |g| == 4 && AllHex(g)
    ensures Groups(g) == Some(Hex(g))
  {
  }

  /** A separator and four digits behind a text that reads as m. */
  lemma OneGroup(q: seq<char>, sep: char, g: seq<char>, m: nat)
    requires Groups(q) == Some(m) && IsSep(sep) && |g| == 4 && AllHex(g)
    ensures Groups(q + [sep] + g) == Some(65536 * m + Hex(g))
  {
    hide *;
    var p := q + [sep] + g;
    assert p[..|q|] == q && p[|q|] == sep && p[|q| + 1..] == g;
    LastGroup(p, |q|);
  }

  lemma LastGroup(p: seq<char>, cut: nat)
    requires |p| == cut + 5 && Groups(p[..cut]).Some? && IsSep(p[cut]) && AllHex(p[cut + 1..])
    ensures Groups(p) == Some(65536 * Groups(p[..cut]).value + Hex(p[cut + 1..]))
  {
    hide Hex, IsSep;
    assert cut == |p| - 5;
  }

  lemma {:induction false} PrintChars(gs: seq<nat>, sep: char, upper: bool)
    requires gs != [] && (forall k :: 0 <= k < |gs| ==> gs[k] < 65536) && (sep == '_' || sep == '-')
    ensures forall k :: 0 <= k < |Print(gs, sep, upper)| ==>
        Print(gs, sep, upper)[k] != 'x' && Print(gs, sep, upper)[k] != 'X'
    ensures |gs| > 1 ==> !AllHex(Print(gs, sep, upper))
  {
    hide HexChar;
    Separates(sep);
    if |gs| > 1 {
      PrintChars(gs[..|gs| - 1], sep, upper);
      var p := Print(gs, sep, upper);
      assert p[|p| - 5] == sep;
    }
  }

  predicate IsPrefix0x(pre: seq<char>) { pre == "0x" || pre == "x" || pre == "0X" || pre == "X" }

  /** Reading printed groups after any of the four prefixes, with at least one separator, gives
      the number they spell, modulo 2^32. */
  lemma ReadsBack(pre: seq<char>, gs: seq<nat>, sep: char, upper: bool)
    requires IsPrefix0x(pre) && |gs| > 1 && (forall k :: 0 <= k < |gs| ==> gs[k] < 65536) && (sep == '_' || sep == '-')
    ensures Parsed(pre + Print(gs, sep, upper)) == W32(Horner(gs))
  {
    var p := Print(gs, sep, upper);
    var s := pre + p;
    PrintChars(gs, sep, upper);
    GroupsOfPrint(gs, sep, upper);
    var m := |pre| - 1;
    FoundAt(pre, p);
    assert s[m + 1..] == p;
  }

  lemma FoundAt(pre: seq<char>, p: seq<char>)
    requires IsPrefix0x(pre) && forall k :: 0 <= k < |p| ==> p[k] != 'x' && p[k] != 'X'
    ensures Mark(pre + p) == |pre| - 1
  {
    var s, m := pre + p, |pre| - 1;
    assert s[m] == pre[m];
    assert forall k :: |pre| <= k < |s| ==> s[k] == p[k - |pre|];
    assert forall k :: 0 <= k < m ==> s[k] == '0';
  }

  lemma HornerPair(a: nat, b: nat)
    ensures Horner([a, b]) == 65536 * a + b
  {
    assert [a, b][..1] == [a] && [a][..0] == [];
    assert Horner([a]) == a;
  }

  /** The round trip for 32-bit numbers. */
  lemma RoundTrip(pre: seq<char>, n: nat, sep: char, upper: bool)
    requires IsPrefix0x(pre) && n < B32 && (sep == '_' || sep == '-')
    ensures Parsed(pre + Print([n / 65536, n % 65536], sep, upper)) == n
  {
    hide Parsed, Print;
    ReadsBack(pre, [n / 65536, n % 65536], sep, upper);
    HornerPair(n / 65536, n % 65536);
  }

  // ---------------------------------------------------------------- numbers without separators

  function Power(b: nat, k: nat): nat { if k == 0 then 1 else b * Power(b, k - 1) }

  /** The k digits of n in base b, by repeated division. */
  function Spell(n: nat, k: nat, b: nat, upper: bool): (s: seq<char>)
    requires 1 <= b <= 16
    ensures |s| == k && AllHex(s) && (b <= 10 ==> AllDec(s)) && forall j :: 0 <= j < k ==> s[j] != 'x' && s[j] != 'X'
  {
    if k == 0 then [] else Spell(n / b, k - 1, b, upper) + [HexChar(n % b, upper)]
  }

  lemma Halves(n: nat, b: nat, p: nat)
    requires b > 0 && n < b * p
    ensures n / b < p && n == b * (n / b) + n % b
  {
    if n / b >= p { MulMono(p, n / b, b); }
  }

  lemma {:induction false} SpelledDec(n: nat, k: nat, upper: bool)
    requires n < Power(10, k)
    ensures Dec(Spell(n, k, 10, upper)) == n
  {
    hide Digit, HexChar;
    if k > 0 {
      var s := Spell(n, k, 10, upper);
      Halves(n, 10, Power(10, k - 1));
      SpelledDec(n / 10, k - 1, upper);
      assert s[..k - 1] == Spell(n / 10, k - 1, 10, upper);
    }
  }

  lemma {:induction false} SpelledHex(n: nat, k: nat, upper: bool)
    requires n < Power(16, k)
    ensures Hex(Spell(n, k, 16, upper)) == n
  {
    hide Digit, HexChar;
    if k > 0 {
      var s := Spell(n, k, 16, upper);
      Halves(n, 16, Power(16, k - 1));
      SpelledHex(n / 16, k - 1, upper);
      assert s[..k - 1] == Spell(n / 16, k - 1, 16, upper);
    }
  }

  /** A decimal number of any length, with or without leading zeros, reads back as itself modulo
      2^32, and as -1 from 2^63 on. */
  lemma DecimalReadsBack(n: nat, k: nat)
    requires n < Power(10, k)
    ensures Parsed(Spell(n, k, 10, false)) == if n <= LONG_MAX then n % B32 else MINUS_ONE
  {
    hide Dec, Digit, Power;
    var s := Spell(n, k, 10, false);
    SpelledDec(n, k, false);
    assert Mark(s) == |s|;
  }

  /** So does a hexadecimal number of at least one digit behind any of the four prefixes. */
  lemma HexReadsBack(pre: seq<char>, n: nat, k: nat, upper: bool)
    requires IsPrefix0x(pre) && 1 <= k && n < Power(16, k)
    ensures Parsed(pre + Spell(n, k, 16, upper)) == if n <= LONG_MAX then n % B32 else MINUS_ONE
  {
    hide Hex, Digit, Power, Spell, Groups;
    var p := Spell(n, k, 16, upper);
    SpelledHex(n, k, upper);
    FoundAt(pre, p);
    assert (pre + p)[|pre|..] == p;
  }
}
