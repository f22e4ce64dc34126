/** The JavaScript string built-ins the tracker relies on (`split`,
    `startsWith`, `includes`, `replace`, `trim`, `parseInt`, number
    formatting, `path.basename`), stated over Dafny strings. A string is a
    sequence of Unicode scalar values; `Utf16Length` gives the length
    JavaScript reports. */
module Text {
  import opened Wrappers

  // ---------------------------------------------------------------------
  // Prefixes, suffixes and substrings

  /** `s.startsWith(p)` */
  predicate StartsWith(s: string, p: string) {
    |p| <= |s| && s[..|p|] == p
  }

  /** `s.endsWith(p)` */
  predicate EndsWith(s: string, p: string) {
    |p| <= |s| && s[|s| - |p|..] == p
  }

  /** `s.includes(p)` */
  predicate Contains(s: string, p: string)
    decreases |s|
  {
    StartsWith(s, p) || (s != [] && Contains(s[1..], p))
  }

  lemma AppendAssoc(a: string, b: string, c: string)
    ensures a + (b + c) == a + b + c
  {
  }

  /** A position where `s` and `p` differ rules out `s.startsWith(p)`. */
  lemma NotStartsWithAt(s: string, p: string, i: nat)
    requires i < |p| && (i >= |s| || s[i] != p[i])
    ensures !StartsWith(s, p)
  {
    if |p| <= |s| {
      assert s[..|p|][i] == s[i] != p[i];
    }
  }

  /** A text whose prefix differs from `p` at some index does not start
      with `p`. */
  lemma PrefixNotStartsWith(pre: string, t: string, p: string, i: nat)
    requires i < |pre| && i < |p| && pre[i] != p[i]
    ensures !StartsWith(pre + t, p)
  {
    assert (pre + t)[i] == pre[i];
    NotStartsWithAt(pre + t, p, i);
  }

  /** A text ending with `p` includes `p`. */
  lemma {:induction false} ContainsEnding(t: string, p: string)
    ensures Contains(t + p, p)
    decreases |t|
  {
    if t == [] {
      assert (t + p)[..|p|] == p;
    } else {
      assert (t + p)[1..] == t[1..] + p;
      ContainsEnding(t[1..], p);
    }
  }

  /** The part of `s` before the first occurrence of `p`; all of `s`
      when `p` does not occur. */
  function Before(s: string, p: string): (r: string)
    ensures |r| <= |s| && s[..|r|] == r
    ensures !Contains(s, p) ==> r == s
    decreases |s|
  {
    if StartsWith(s, p) then []
    else if s == [] then []
    else
      var r := [s[0]] + Before(s[1..], p);
      assert s == [s[0]] + s[1..];
      r
  }

  /** `s.replace(p, q)` with a string pattern: only the first (leftmost)
      occurrence is replaced. */
  function ReplaceFirst(s: string, p: string, q: string): (r: string)
    ensures !Contains(s, p) ==> r == s
    decreases |s|
  {
    if StartsWith(s, p) then q + s[|p|..]
    else if s == [] then s
    else [s[0]] + ReplaceFirst(s[1..], p, q)
  }

  /** A text containing `w` somewhere in the middle includes `w`. */
  lemma {:induction false} ContainsMiddle(a: string, w: string, b: string)
    ensures Contains(a + w + b, w)
    decreases |a|
  {
    if a == [] {
      assert (a + w + b)[..|w|] == w;
    } else {
      assert (a + w + b)[1..] == a[1..] + w + b;
      ContainsMiddle(a[1..], w, b);
    }
  }

  /** A pattern at the very start is the one `replace` removes. */
  lemma ReplaceFirstAtStart(s: string, p: string, q: string)
    requires StartsWith(s, p)
    ensures ReplaceFirst(s, p, q) == q + s[|p|..]
  {
  }

  /** `replace` on `p + t` leaves alone a prefix that does not contain
      the pattern's first character. */
  lemma {:induction false} ReplaceFirstAfterPrefix(p: string, t: string, w: string, q: string)
    requires w != [] && w[0] !in p
    ensures ReplaceFirst(p + t, w, q) == p + ReplaceFirst(t, w, q)
    decreases |p|
  {
    if p == [] {
      assert p + t == t;
    } else {
      NotStartsWithAt(p + t, w, 0);
      assert (p + t)[1..] == p[1..] + t;
      ReplaceFirstAfterPrefix(p[1..], t, w, q);
      assert [p[0]] + (p[1..] + ReplaceFirst(t, w, q)) == p + ReplaceFirst(t, w, q);
    }
  }

  /** If `w` starts with a character that `p` does not contain, an
      occurrence of `w` in `p + t` lies inside `t`. */
  lemma {:induction false} ContainsAfterPrefix(p: string, t: string, w: string)
    requires w != [] && w[0] !in p
    ensures Contains(p + t, w) <==> Contains(t, w)
    decreases |p|
  {
    if p != [] {
      assert (p + t)[1..] == p[1..] + t;
      assert (p + t)[0] == p[0] != w[0];
      ContainsAfterPrefix(p[1..], t, w);
    } else {
      assert p + t == t;
    }
  }

  /** A pattern whose first character does not occur in `s` is not in `s`. */
  lemma {:induction false} NotContainsFirstChar(s: string, w: string)
    requires w != [] && w[0] !in s
    ensures !Contains(s, w)
    decreases |s|
  {
    if s != [] {
      assert s[0] != w[0];
      NotContainsFirstChar(s[1..], w);
    }
  }

  // ---------------------------------------------------------------------
  // Lines

  /** `s.split('\n')`: the empty string gives one empty line, and a
      trailing newline gives a trailing empty line. */
  function Lines(s: string): (r: seq<string>)
    ensures |r| >= 1
    ensures forall i :: 0 <= i < |r| ==> '\n' !in r[i]
    decreases |s|
  {
    if s == [] then [""]
    else if s[0] == '\n' then [""] + Lines(s[1..])
    else
      var t := Lines(s[1..]);
      [[s[0]] + t[0]] + t[1..]
  }

  /** `xs.join(sep)` */
  function Join(xs: seq<string>, sep: string): string
    decreases |xs|
  {
    if xs == [] then ""
    else if |xs| == 1 then xs[0]
    else xs[0] + sep + Join(xs[1..], sep)
  }

  /** Splitting at a newline splits the line list there. */
  lemma {:induction false} LinesConcat(a: string, b: string)
    ensures Lines(a + "\n" + b) == Lines(a) + Lines(b)
    decreases |a|
  {
    if a == [] {
      assert a + "\n" + b == "\n" + b;
      assert ("\n" + b)[1..] == b;
    } else {
      assert (a + "\n" + b)[1..] == a[1..] + "\n" + b;
      LinesConcat(a[1..], b);
    }
  }

  /** A string without newlines is one line. */
  lemma {:induction false} LinesOfLine(a: string)
    requires '\n' !in a
    ensures Lines(a) == [a]
    decreases |a|
  {
    if a != [] {
      LinesOfLine(a[1..]);
      assert [a[0]] + a[1..] == a;
    }
  }

  /** A line followed by a newline contributes exactly that line. */
  lemma LinesCons(a: string, rest: string)
    requires '\n' !in a
    ensures Lines(a + "\n" + rest) == [a] + Lines(rest)
  {
    LinesConcat(a, rest);
    LinesOfLine(a);
  }

  /** Joining two non-empty lists puts one separator between their joins. */
  lemma {:induction false} JoinAppend(xs: seq<string>, ys: seq<string>, sep: string)
    requires xs != [] && ys != []
    ensures Join(xs + ys, sep) == Join(xs, sep) + sep + Join(ys, sep)
    decreases |xs|
  {
    if |xs| == 1 {
      assert (xs + ys)[1..] == ys;
    } else {
      assert (xs + ys)[1..] == xs[1..] + ys;
      JoinAppend(xs[1..], ys, sep);
    }
  }

  /** Joining newline-free lines with "\n" and splitting again gives the
      lines back. */
  lemma {:induction false} LinesOfJoin(xs: seq<string>)
    requires |xs| >= 1
    requires forall i :: 0 <= i < |xs| ==> '\n' !in xs[i]
    ensures Lines(Join(xs, "\n")) == xs
    decreases |xs|
  {
    if |xs| == 1 {
      LinesOfLine(xs[0]);
    } else {
      LinesOfJoin(xs[1..]);
      LinesCons(xs[0], Join(xs[1..], "\n"));
      assert [xs[0]] + xs[1..] == xs;
    }
  }

  /** Splitting and joining again gives the text back. */
  lemma {:induction false} JoinOfLines(s: string)
    ensures Join(Lines(s), "\n") == s
    decreases |s|
  {
    if s != [] {
      JoinOfLines(s[1..]);
      var t := Lines(s[1..]);
      if s[0] == '\n' {
        assert Lines(s) == [""] + t;
        assert ([""] + t)[1..] == t;
        assert s == "\n" + s[1..];
      } else {
        var r := [[s[0]] + t[0]] + t[1..];
        assert Lines(s) == r;
        if |t| == 1 {
          assert Join(t, "\n") == t[0];
        } else {
          assert Join(t, "\n") == t[0] + "\n" + Join(t[1..], "\n");
          assert r[1..] == t[1..];
        }
        assert s == [s[0]] + s[1..];
      }
    }
  }

  /** The text made of the lines `xs`, each ended by a newline (what a
      sequence of `text += line + '\n'` steps builds). */
  function Unlines(xs: seq<string>): string
    decreases |xs|
  {
    if xs == [] then "" else Unlines(xs[..|xs| - 1]) + xs[|xs| - 1] + "\n"
  }

  lemma UnlinesSnoc(xs: seq<string>, x: string)
    ensures Unlines(xs + [x]) == Unlines(xs) + x + "\n"
  {
    assert (xs + [x])[..|xs|] == xs;
  }

  lemma {:induction false} UnlinesAppend(xs: seq<string>, ys: seq<string>)
    ensures Unlines(xs + ys) == Unlines(xs) + Unlines(ys)
    decreases |ys|
  {
    if ys == [] {
      assert xs + ys == xs;
    } else {
      var init, y := ys[..|ys| - 1], ys[|ys| - 1];
      assert xs + ys == (xs + init) + [y];
      assert ys == init + [y];
      UnlinesSnoc(xs + init, y);
      UnlinesSnoc(init, y);
      UnlinesAppend(xs, init);
      var a, b, c := Unlines(xs), Unlines(init), y + "\n";
      calc {
        Unlines(xs + ys);
        Unlines(xs + init) + y + "\n";
        { AppendAssoc(Unlines(xs + init), y, "\n"); }
        (a + b) + c;
        { AppendAssoc(a, b, c); }
        a + (b + c);
        { AppendAssoc(b, y, "\n"); }
        a + Unlines(ys);
      }
    }
  }

  /** The lines of each text of `xs` in turn. */
  function LinesOfAll(xs: seq<string>): seq<string>
    decreases |xs|
  {
    if xs == [] then [] else LinesOfAll(xs[..|xs| - 1]) + Lines(xs[|xs| - 1])
  }

  /** Splitting text built line by line gives the lines of every piece. */
  lemma {:induction false} LinesOfUnlines(xs: seq<string>, rest: string)
    ensures Lines(Unlines(xs) + rest) == LinesOfAll(xs) + Lines(rest)
    decreases |xs|
  {
    if xs != [] {
      var init, x := xs[..|xs| - 1], xs[|xs| - 1];
      calc {
        Lines(Unlines(xs) + rest);
        { assert Unlines(xs) + rest == Unlines(init) + (x + "\n" + rest); }
        Lines(Unlines(init) + (x + "\n" + rest));
        { LinesOfUnlines(init, x + "\n" + rest); }
        LinesOfAll(init) + Lines(x + "\n" + rest);
        { LinesConcat(x, rest); }
        LinesOfAll(init) + (Lines(x) + Lines(rest));
        LinesOfAll(xs) + Lines(rest);
      }
    } else {
      assert Unlines(xs) + rest == rest;
    }
  }

  lemma {:induction false} LinesOfAllAppend(xs: seq<string>, ys: seq<string>)
    ensures LinesOfAll(xs + ys) == LinesOfAll(xs) + LinesOfAll(ys)
    decreases |ys|
  {
    if ys == [] {
      assert xs + ys == xs;
    } else {
      var init, y := ys[..|ys| - 1], ys[|ys| - 1];
      assert (xs + ys)[..|xs + ys| - 1] == xs + init;
      assert (xs + ys)[|xs + ys| - 1] == y;
      LinesOfAllAppend(xs, init);
      var a, b, c := LinesOfAll(xs), LinesOfAll(init), Lines(y);
      assert LinesOfAll(xs + ys) == (a + b) + c;
      assert (a + b) + c == a + (b + c);
    }
  }

  /** Pieces that are single lines are their own lines. */
  lemma {:induction false} LinesOfAllSingle(xs: seq<string>)
    requires forall i :: 0 <= i < |xs| ==> '\n' !in xs[i]
    ensures LinesOfAll(xs) == xs
    decreases |xs|
  {
    if xs != [] {
      LinesOfAllSingle(xs[..|xs| - 1]);
      LinesOfLine(xs[|xs| - 1]);
    }
  }

  // ---------------------------------------------------------------------
  // Whitespace and line terminators

  /** The characters `String.prototype.trim` removes: white space and line
      terminators as ECMAScript defines them. */
  predicate IsJsSpace(c: char) {
    c == '\t' || c == '\n' || c == '\U{000B}' || c == '\U{000C}' || c == '\r' ||
    c == ' ' || c == '\U{00A0}' || c == '\U{1680}' || ('\U{2000}' <= c <= '\U{200A}') ||
    c == '\U{2028}' || c == '\U{2029}' || c == '\U{202F}' || c == '\U{205F}' ||
    c == '\U{3000}' || c == '\U{FEFF}'
  }

  /** The characters a regular-expression `.` does not match. */
  predicate IsLineTerminator(c: char) {
    c == '\n' || c == '\r' || c == '\U{2028}' || c == '\U{2029}'
  }

  function TrimStart(s: string): (r: string)
    ensures r == [] || !IsJsSpace(r[0])
    ensures |r| <= |s| && r == s[|s| - |r|..]
    decreases |s|
  {
    if s != [] && IsJsSpace(s[0]) then TrimStart(s[1..]) else s
  }

  function TrimEnd(s: string): (r: string)
    ensures r == [] || !IsJsSpace(r[|r| - 1])
    ensures |r| <= |s| && r == s[..|r|]
    decreases |s|
  {
    if s != [] && IsJsSpace(s[|s| - 1]) then TrimEnd(s[..|s| - 1]) else s
  }

  /** `s.trim()` */
  function Trim(s: string): string {
    TrimEnd(TrimStart(s))
  }

  /** A string that neither starts nor ends with white space is its own
      trimmed form. */
  lemma TrimOfTrimmed(s: string)
    requires s == [] || (!IsJsSpace(s[0]) && !IsJsSpace(s[|s| - 1]))
    ensures Trim(s) == s
  {
  }

  /** Leading blanks go away under `trim`. */
  lemma TrimLeadingSpace(s: string)
    ensures Trim(" " + s) == Trim(s)
  {
    assert (" " + s)[1..] == s;
  }

  // ---------------------------------------------------------------------
  // Numbers

  predicate IsDecimalDigit(c: char) {
    '0' <= c <= '9'
  }

  /** The decimal digit for `d`. */
  function DigitChar(d: nat): (c: char)
    requires d < 10
    ensures IsDecimalDigit(c) && DigitValue(c, 10) == Some(d)
  {
    (('0' as int) + d) as char
  }

  /** The value of `c` as a digit in base `radix` (10 or 16), if it is one. */
  function DigitValue(c: char, radix: nat): (r: Option<nat>)
    ensures r.Some? ==> r.value < radix
  {
    if '0' <= c <= '9' && (c as int) - ('0' as int) < radix then Some((c as int) - ('0' as int))
    else if 'a' <= c <= 'z' && (c as int) - ('a' as int) + 10 < radix then Some((c as int) - ('a' as int) + 10)
    else if 'A' <= c <= 'Z' && (c as int) - ('A' as int) + 10 < radix then Some((c as int) - ('A' as int) + 10)
    else None
  }

  /** The longest prefix of `s` made of base-`radix` digits. */
  function LeadingDigits(s: string, radix: nat): (r: string)
    ensures StartsWith(s, r)
    ensures forall i :: 0 <= i < |r| ==> DigitValue(r[i], radix).Some?
    ensures |r| < |s| ==> DigitValue(s[|r|], radix).None?
    decreases |s|
  {
    if s != [] && DigitValue(s[0], radix).Some? then [s[0]] + LeadingDigits(s[1..], radix) else []
  }

  lemma MulNonNegative(a: nat, b: nat)
    ensures a * b >= 0
  {
  }

  /** The value of a string of base-`radix` digits. */
  function DigitsValue(s: string, radix: nat): nat
    requires forall i :: 0 <= i < |s| ==> DigitValue(s[i], radix).Some?
    decreases |s|
  {
    if s == [] then 0
    else
      var init := s[..|s| - 1];
      assert forall i :: 0 <= i < |init| ==> init[i] == s[i];
      var v := DigitsValue(init, radix);
      MulNonNegative(v, radix);
      v * radix + DigitValue(s[|s| - 1], radix).value
  }

  /** A JavaScript number as `parseInt` can produce it. */
  datatype JsNumber = Num(value: int) | NaN

  /** The unsigned part of `parseInt`: a `0x`/`0X` prefix selects base 16,
      and the longest run of digits that follows is the value. */
  function ParseUnsigned(u: string): Option<nat> {
    var hex := StartsWith(u, "0x") || StartsWith(u, "0X");
    var radix := if hex then 16 else 10;
    var ds := LeadingDigits(if hex then u[2..] else u, radix);
    if ds == [] then None else Some(DigitsValue(ds, radix))
  }

  /** `parseInt(s)` without a radix: leading white space is skipped, an
      optional sign is read, then the unsigned part; no digits gives `NaN`. */
  function ParseInt(s: string): JsNumber {
    ParseSigned(TrimStart(s))
  }

  function ParseSigned(t: string): JsNumber {
    if t != [] && t[0] == '-' then Negated(ParseUnsigned(t[1..]))
    else if t != [] && t[0] == '+' then ToNumber(ParseUnsigned(t[1..]))
    else ToNumber(ParseUnsigned(t))
  }

  function ToNumber(v: Option<nat>): JsNumber {
    match v
    case None => NaN
    case Some(x) => Num(x)
  }

  function Negated(v: Option<nat>): JsNumber {
    match v
    case None => NaN
    case Some(x) => Num(-(x as int))
  }

  /** `Math.round(a / b)`: the integer nearest to the exact quotient,
      halves rounded up. */
  function RoundedQuotient(a: int, b: int): (q: int)
    requires b > 0
    ensures 2 * b * q - b <= 2 * a < 2 * b * q + b
    ensures a >= 0 ==> q >= 0
  {
    var q := (2 * a + b) / (2 * b);
    assert q * (2 * b) <= 2 * a + b < q * (2 * b) + 2 * b;
    q
  }

  /** `${n}` for a non-negative integer: its decimal digits. */
  function NatToString(n: nat): (s: string)
    ensures |s| >= 1
    ensures forall i :: 0 <= i < |s| ==> IsDecimalDigit(s[i])
    decreases n
  {
    if n < 10 then [DigitChar(n)] else NatToString(n / 10) + [DigitChar(n % 10)]
  }

  /** `${i}` for an integer. */
  function IntToString(i: int): (s: string)
    ensures |s| >= 1
    ensures forall k :: 0 <= k < |s| ==> s[k] == '-' || IsDecimalDigit(s[k])
  {
    if i < 0 then "-" + NatToString(-i) else NatToString(i)
  }

  lemma {:induction false} DigitsValueOfNatToString(n: nat)
    ensures DigitsValue(NatToString(n), 10) == n
    decreases n
  {
    var s := NatToString(n);
    if n >= 10 {
      DigitsValueOfNatToString(n / 10);
      assert s[..|s| - 1] == NatToString(n / 10);
    }
  }

  lemma {:induction false} LeadingDigitsOfDigits(s: string)
    requires forall i :: 0 <= i < |s| ==> IsDecimalDigit(s[i])
    ensures LeadingDigits(s, 10) == s
    decreases |s|
  {
    if s != [] {
      LeadingDigitsOfDigits(s[1..]);
      assert [s[0]] + s[1..] == s;
    }
  }

  lemma ParseUnsignedOfNatToString(n: nat)
    ensures ParseUnsigned(NatToString(n)) == Some(n)
  {
    ParseUnsignedOfDigits(NatToString(n));
    DigitsValueOfNatToString(n);
  }

  /** A run of decimal digits is read whole, in base 10. */
  lemma ParseUnsignedOfDigits(u: string)
    requires u != [] && forall i :: 0 <= i < |u| ==> IsDecimalDigit(u[i])
    ensures LeadingDigits(u, 10) == u
    ensures ParseUnsigned(u) == Some(DigitsValue(u, 10))
  {
    NotStartsWithAt(u, "0x", 1);
    NotStartsWithAt(u, "0X", 1);
    LeadingDigitsOfDigits(u);
  }

  lemma ParseIntUnsigned(t: string)
    requires t != [] && IsDecimalDigit(t[0])
    ensures ParseInt(t) == ToNumber(ParseUnsigned(t))
  {
    assert TrimStart(t) == t;
  }

  /** `parseInt` reads back what `${n}` writes. */
  lemma ParseIntOfNatToString(n: nat)
    ensures ParseInt(NatToString(n)) == Num(n)
  {
    ParseIntUnsigned(NatToString(n));
    ParseUnsignedOfNatToString(n);
  }

  lemma TrimPaddedNumeral(t: string)
    requires t != [] && IsDecimalDigit(t[0]) && IsDecimalDigit(t[|t| - 1])
    ensures Trim(" " + t) == t
  {
    TrimLeadingSpace(t);
    TrimOfTrimmed(t);
  }

  /** A leading blank does not disturb `parseInt` of a decimal numeral. */
  lemma ParseIntOfPaddedNat(n: nat)
    ensures ParseInt(Trim(" " + NatToString(n))) == Num(n)
  {
    TrimPaddedNumeral(NatToString(n));
    ParseIntOfNatToString(n);
  }

  // ---------------------------------------------------------------------
  // Lengths, slices, paths

  /** `s.length`: JavaScript counts UTF-16 code units, so a character
      outside the Basic Multilingual Plane counts twice. */
  function Utf16Length(s: string): (n: nat)
    ensures |s| <= n <= 2 * |s|
    decreases |s|
  {
    if s == [] then 0
    else Utf16Length(s[..|s| - 1]) + (if s[|s| - 1] as int > 0xFFFF then 2 else 1)
  }

  /** `s.slice(-n)` for n > 0: the last `n` characters, or all of `s`. */
  function LastChars(s: string, n: nat): (r: string)
    requires n > 0
    ensures |r| == if |s| <= n then |s| else n
    ensures EndsWith(s, r)
  {
    if |s| <= n then s else s[|s| - n..]
  }

  function StripTrailingSlashes(p: string): (r: string)
    ensures r == [] || r[|r| - 1] != '/'
    decreases |p|
  {
    if p != [] && p[|p| - 1] == '/' then StripTrailingSlashes(p[..|p| - 1]) else p
  }

  function AfterLastSlash(p: string): (r: string)
    ensures '/' !in r
    ensures EndsWith(p, r)
    decreases |p|
  {
    if p == [] || p[|p| - 1] == '/' then ""
    else AfterLastSlash(p[..|p| - 1]) + [p[|p| - 1]]
  }

  /** POSIX `path.basename(p)`: the last segment, ignoring trailing
      slashes; "" for "/" and for "". */
  function Basename(p: string): (r: string)
    ensures '/' !in r
  {
    AfterLastSlash(StripTrailingSlashes(p))
  }

  /** `path.join(a, b)` for a directory and a plain entry name (the
      normalisation of `.`, `..` and repeated slashes is not modelled). */
  function PathJoin(a: string, b: string): string {
    a + "/" + b
  }
}
