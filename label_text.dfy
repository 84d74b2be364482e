/** The text side of the label files: Python's whitespace splitting and
    stripping, the number text written by `:.6f` and `int()`, the reading of
    a number back as Python's `float()` reads a plain decimal, the line format
    of a label file, the parse of a whole file and the label path derived
    from an image path. */
module LabelText {
  import opened Optional
  import opened Numeric
  import opened Geometry

  // ---------------------------------------------------------------------
  // Whitespace, split and strip

  /** Python's `str.isspace()` on one character. */
  predicate IsSpace(c: char)
  {
    || c == ' ' || ('\t' <= c <= '\r') || ('\U{1C}' <= c <= '\U{1F}')
    || c == '\U{85}' || c == '\U{A0}' || c == '\U{1680}' || ('\U{2000}' <= c <= '\U{200A}')
    || c == '\U{2028}' || c == '\U{2029}' || c == '\U{202F}' || c == '\U{205F}' || c == '\U{3000}'
  }

  /** A non-empty run of non-whitespace characters. */
  predicate IsToken(t: string)
  {
    |t| > 0 && forall i :: 0 <= i < |t| ==> !IsSpace(t[i])
  }

  /** Length of the token at the front of s. */
  function WordLen(s: string): (n: nat)
    requires |s| > 0 && !IsSpace(s[0])
    ensures 1 <= n <= |s|
    ensures forall i :: 0 <= i < n ==> !IsSpace(s[i])
    ensures n < |s| ==> IsSpace(s[n])
    decreases |s|
  {
    if |s| == 1 || IsSpace(s[1]) then 1 else 1 + WordLen(s[1..])
  }

  /** The characters of s that are not whitespace, in order. */
  function Unspaced(s: string): string
    decreases |s|
  {
    if s == [] then [] else (if IsSpace(s[0]) then [] else [s[0]]) + Unspaced(s[1..])
  }

  /** The words of a list written one after the other. */
  function Concat(ws: seq<string>): string
    decreases |ws|
  {
    if ws == [] then [] else ws[0] + Concat(ws[1..])
  }

  /** A first run of n non-whitespace characters stays whole in Unspaced. */
  lemma {:induction false} UnspacedRun(s: string, n: nat)
    requires n <= |s| && forall i :: 0 <= i < n ==> !IsSpace(s[i])
    ensures Unspaced(s) == s[..n] + Unspaced(s[n..])
    decreases n
  {
    if n > 0 {
      UnspacedRun(s[1..], n - 1);
      assert s[1..][n - 1..] == s[n..];
      assert [s[0]] + s[1..][..n - 1] == s[..n];
    }
  }

  /** Python's `s.split()` with no argument: the maximal runs of
      non-whitespace, in order. Written one after the other they give back
      every non-whitespace character of s. */
  function Words(s: string): (ws: seq<string>)
    ensures forall i :: 0 <= i < |ws| ==> IsToken(ws[i])
    ensures Concat(ws) == Unspaced(s)
    decreases |s|
  {
    if s == [] then []
    else if IsSpace(s[0]) then Words(s[1..])
    else
      var n := WordLen(s);
      var rest := Words(s[n..]);
      UnspacedRun(s, n);
      assert ([s[..n]] + rest)[1..] == rest;
      [s[..n]] + rest
  }

  /** Python's `' '.join(ws)`. */
  function Join(ws: seq<string>): string
    decreases |ws|
  {
    if |ws| == 0 then "" else if |ws| == 1 then ws[0] else ws[0] + " " + Join(ws[1..])
  }

  lemma {:induction false} WordLenOfToken(t: string, rest: string)
    requires IsToken(t) && (rest == [] || IsSpace(rest[0]))
    ensures WordLen(t + rest) == |t|
    decreases |t|
  {
    if |t| > 1 {
      assert (t + rest)[1..] == t[1..] + rest;
      WordLenOfToken(t[1..], rest);
    }
  }

  /** Splitting what ' '.join wrote gives the tokens back. */
  lemma {:induction false} WordsOfJoin(ws: seq<string>)
    requires forall i :: 0 <= i < |ws| ==> IsToken(ws[i])
    ensures Words(Join(ws)) == ws
    decreases |ws|
  {
    if |ws| == 1 {
      var t := ws[0];
      WordLenOfToken(t, "");
      assert t + "" == t;
      assert t[|t|..] == [];
    } else if |ws| > 1 {
      var t, rest := ws[0], Join(ws[1..]);
      var s := t + " " + rest;
      assert s == t + (" " + rest);
      WordLenOfToken(t, " " + rest);
      assert s[..|t|] == t;
      assert s[|t|..] == " " + rest;
      assert (" " + rest)[1..] == rest;
      WordsOfJoin(ws[1..]);
    }
  }

  /** Leading whitespace adds no word. */
  lemma {:induction false} WordsAfterBlank(b: string, s: string)
    requires Blank(b)
    ensures Words(b + s) == Words(s)
    decreases |b|
  {
    if b == [] {
      assert b + s == s;
    } else {
      assert IsSpace((b + s)[0]);
      assert (b + s)[1..] == b[1..] + s;
      WordsAfterBlank(b[1..], s);
    }
  }

  /** Whitespace alone splits into no words. */
  lemma WordsOfBlank(b: string)
    requires Blank(b)
    ensures Words(b) == []
  {
    WordsAfterBlank(b, []);
    assert b + [] == b;
  }

  /** After optional whitespace, a whole token that whitespace or the end of
      the string follows is the next word: with WordsOfBlank this decides
      `split()` on every string, the words being the maximal runs. */
  lemma WordsOfRun(b: string, t: string, u: string)
    requires Blank(b) && IsToken(t) && (u == [] || IsSpace(u[0]))
    ensures Words(b + t + u) == [t] + Words(u)
  {
    assert b + t + u == b + (t + u);
    WordsAfterBlank(b, t + u);
    WordLenOfToken(t, u);
    assert (t + u)[..|t|] == t;
    assert (t + u)[|t|..] == u;
  }

  /** Whitespace only. */
  predicate Blank(t: string)
  {
    forall k :: 0 <= k < |t| ==> IsSpace(t[k])
  }

  /** Python's `s.lstrip()`. */
  function LStrip(s: string): (r: string)
    ensures r == [] || !IsSpace(r[0])
    ensures |r| <= |s| && r == s[|s| - |r|..]
    decreases |s|
  {
    if s != [] && IsSpace(s[0]) then LStrip(s[1..]) else s
  }

  /** Python's `s.rstrip()`. */
  function RStrip(s: string): (r: string)
    ensures r == [] || !IsSpace(r[|r| - 1])
    ensures |r| <= |s| && r == s[..|r|]
    decreases |s|
  {
    if s != [] && IsSpace(s[|s| - 1]) then RStrip(s[..|s| - 1]) else s
  }

  /** Python's `s.strip()`: no whitespace left at either end. */
  function Strip(s: string): (r: string)
    ensures r == [] || (!IsSpace(r[0]) && !IsSpace(r[|r| - 1]))
  {
    RStrip(LStrip(s))
  }

  /** `lstrip()` removes whitespace only. */
  lemma {:induction false} LStripCutsBlank(s: string)
    ensures Blank(s[..|s| - |LStrip(s)|])
    decreases |s|
  {
    if s != [] && IsSpace(s[0]) {
      var r := LStrip(s[1..]);
      LStripCutsBlank(s[1..]);
      assert s[..|s| - |r|] == [s[0]] + s[1..][..|s| - 1 - |r|];
    }
  }

  /** `rstrip()` removes whitespace only. */
  lemma {:induction false} RStripCutsBlank(s: string)
    ensures Blank(s[|RStrip(s)|..])
    decreases |s|
  {
    if s != [] && IsSpace(s[|s| - 1]) {
      var r := RStrip(s[..|s| - 1]);
      RStripCutsBlank(s[..|s| - 1]);
      assert s[|r|..] == s[..|s| - 1][|r|..] + [s[|s| - 1]];
    }
  }

  /** `r` is the slice of `s` starting at `a`, with only whitespace before
      and after it. */
  predicate Trims(s: string, a: int, r: string)
  {
    0 <= a && a + |r| <= |s| && r == s[a..a + |r|] && Blank(s[..a]) && Blank(s[a + |r|..])
  }

  /** Cutting blank text `s[..a]` off the front of `s`, then blank text
      `l[|r|..]` off the back of what is left, leaves a slice of `s` with
      blank text around it. */
  lemma TrimmedSlice(s: string, l: string, r: string)
    requires |l| <= |s| && l == s[|s| - |l|..] && Blank(s[..|s| - |l|])
    requires |r| <= |l| && r == l[..|r|] && Blank(l[|r|..])
    ensures Trims(s, |s| - |l|, r)
  {
    var a := |s| - |l|;
    assert s[a..][..|r|] == s[a..a + |r|];
    assert s[a + |r|..] == l[|r|..];
  }

  /** `strip()` takes away leading and trailing whitespace and nothing else:
      what it leaves is a slice of s with only whitespace around it. */
  lemma StripKeepsInner(s: string)
    ensures Trims(s, |s| - |LStrip(s)|, Strip(s))
  {
    var l := LStrip(s);
    LStripCutsBlank(s);
    RStripCutsBlank(l);
    TrimmedSlice(s, l, RStrip(l));
  }

  /** A string with no whitespace at either end is its own strip. */
  lemma StripUnpadded(s: string)
    requires s == [] || (!IsSpace(s[0]) && !IsSpace(s[|s| - 1]))
    ensures Strip(s) == s
  {
    assert LStrip(s) == s;
  }

  lemma StripIdempotent(s: string)
    ensures Strip(Strip(s)) == Strip(s)
  {
    var r := Strip(s);
    assert LStrip(r) == r;
    assert RStrip(r) == r;
  }

  // ---------------------------------------------------------------------
  // Number text

  predicate IsDigit(c: char) { '0' <= c <= '9' }

  predicate AllDigits(s: string) { forall i :: 0 <= i < |s| ==> IsDigit(s[i]) }

  function DigitValue(c: char): nat
    requires IsDigit(c)
  {
    c as int - '0' as int
  }

  function DigitChar(d: nat): (c: char)
    requires d < 10
    ensures IsDigit(c) && DigitValue(c) == d
  {
    ('0' as int + d) as char
  }

  /** The number a string of decimal digits denotes. */
  function ValueOf(s: string): nat
    requires AllDigits(s)
    decreases |s|
  {
    if s == [] then 0 else 10 * ValueOf(s[..|s| - 1]) + DigitValue(s[|s| - 1])
  }

  /** `str(n)` for n >= 0: decimal digits without leading zeros. */
  function Decimal(n: nat): (s: string)
    ensures |s| > 0 && AllDigits(s) && ValueOf(s) == n
    ensures s[0] == '0' ==> n == 0
    decreases n
  {
    if n < 10 then [DigitChar(n)]
    else
      var s := Decimal(n / 10) + [DigitChar(n % 10)];
      assert s[..|s| - 1] == Decimal(n / 10);
      s
  }

  /** The k-digit decimal of n with leading zeros. */
  function Padded(n: nat, k: nat): (s: string)
    requires n < Pow10(k)
    ensures |s| == k && AllDigits(s) && ValueOf(s) == n
    decreases k
  {
    if k == 0 then ""
    else
      var s := Padded(n / 10, k - 1) + [DigitChar(n % 10)];
      assert s[..|s| - 1] == Padded(n / 10, k - 1);
      s
  }

  /** `str(n)` for any integer n. */
  function IntText(n: int): string
  {
    if n < 0 then "-" + Decimal(-n) else Decimal(n)
  }

  /** Number of millionths `:.6f` writes for |x|: rounded half to even. */
  function Micros(x: real): nat
  {
    RoundHalfEven(Abs(x) * 1000000.0)
  }

  /** The value `:.6f` writes: x to the nearest millionth. */
  function Quantize6(x: real): (y: real)
    ensures Abs(y - x) <= 0.0000005
  {
    var q := Micros(x) as real / 1000000.0;
    if x < 0.0 then -q else q
  }

  /** `f"{x:.6f}"`: sign, integer part, point, six decimals. */
  function Fixed6(x: real): string
  {
    (if x < 0.0 then "-" else "") + MicrosText(Micros(x))
  }

  /** q millionths written as integer part, point and six decimals. */
  function MicrosText(q: nat): string
  {
    Decimal(q / 1000000) + "." + Padded(q % 1000000, 6)
  }

  /** Number of leading decimal digits of t. */
  function LeadingDigits(t: string): (k: nat)
    ensures k <= |t| && AllDigits(t[..k]) && (k < |t| ==> !IsDigit(t[k]))
    decreases |t|
  {
    if t != [] && IsDigit(t[0]) then
      var k := 1 + LeadingDigits(t[1..]);
      assert t[..k] == [t[0]] + t[1..][..k - 1];
      k
    else 0
  }

  /** The number written with integer part a and the n fractional digits of b. */
  function Pointed(a: nat, b: nat, n: nat): real
  {
    a as real + b as real / Pow10(n) as real
  }

  /** `float(t)` on an unsigned decimal: digits, optionally a point and more
      digits, at least one digit in all. */
  function ParseUnsigned(t: string): (v: Option<real>)
  {
    var k := LeadingDigits(t);
    if k == |t| then
      if k > 0 then Some(ValueOf(t) as real) else None
    else if t[k] == '.' && AllDigits(t[k + 1..]) && (k > 0 || k + 1 < |t|) then
      Some(Pointed(ValueOf(t[..k]), ValueOf(t[k + 1..]), |t| - k - 1))
    else None
  }

  lemma UnsignedIsToken(t: string)
    requires ParseUnsigned(t).Some?
    ensures |t| > 0 && forall i :: 0 <= i < |t| ==> IsDigit(t[i]) || t[i] == '.'
  {
    var k := LeadingDigits(t);
    assert forall i :: 0 <= i < k ==> t[..k][i] == t[i];
    if k < |t| {
      assert forall i :: k < i < |t| ==> t[k + 1..][i - k - 1] == t[i];
    }
  }

  /** `float(t)` on a plain signed decimal; None where Python raises
      ValueError. */
  function ParseNumber(t: string): (v: Option<real>)
  {
    var signed := t != [] && (t[0] == '-' || t[0] == '+');
    match ParseUnsigned(if signed then t[1..] else t)
    case Some(u) => Some(if t[0] == '-' then -u else u)
    case None => None
  }

  /** A string `float()` accepts here is a single token. */
  lemma ParsedIsToken(t: string)
    requires ParseNumber(t).Some?
    ensures IsToken(t)
  {
    if t != [] && (t[0] == '-' || t[0] == '+') {
      UnsignedIsToken(t[1..]);
      assert forall i :: 1 <= i < |t| ==> t[i] == t[1..][i - 1];
    } else {
      UnsignedIsToken(t);
    }
  }

  lemma {:induction false} LeadingDigitsOf(d: string, rest: string)
    requires AllDigits(d) && (rest == [] || !IsDigit(rest[0]))
    ensures LeadingDigits(d + rest) == |d|
    decreases |d|
  {
    if d != [] {
      assert (d + rest)[1..] == d[1..] + rest;
      LeadingDigitsOf(d[1..], rest);
    }
  }

  /** `float(str(n))` gives n back. */
  lemma ParseIntText(n: int)
    ensures ParseNumber(IntText(n)) == Some(n as real)
  {
    var m: nat := if n < 0 then -n else n;
    var d := Decimal(m);
    LeadingDigitsOf(d, "");
    assert d + "" == d;
    if n < 0 {
      assert IntText(n)[1..] == d;
    }
  }

  /** ParseUnsigned on a string whose leading digits stop at a point. */
  lemma ParseUnsignedPointed(t: string, k: nat)
    requires 0 < k < |t| && LeadingDigits(t) == k && t[k] == '.' && AllDigits(t[k + 1..])
    ensures ParseUnsigned(t) ==
      Some(Pointed(ValueOf(t[..k]), ValueOf(t[k + 1..]), |t| - k - 1))
  {
  }

  /** `float()` of digits, a point and digits. */
  lemma ParsePointed(ip: string, frac: string)
    requires |ip| > 0 && AllDigits(ip) && AllDigits(frac)
    ensures ParseUnsigned(ip + "." + frac) ==
      Some(Pointed(ValueOf(ip), ValueOf(frac), |frac|))
  {
    var u := ip + "." + frac;
    var k := |ip|;
    assert u == ip + ("." + frac);
    LeadingDigitsOf(ip, "." + frac);
    assert u[..k] == ip;
    assert u[k + 1..] == frac;
    ParseUnsignedPointed(u, k);
  }

  /** `float(f"{x:.6f}")` is x rounded to the nearest millionth. */
  lemma PointedMicros(q: nat)
    ensures Pointed(q / 1000000, q % 1000000, 6) == q as real / 1000000.0
  {
    assert Pow10(6) == 1000000;
    assert (q / 1000000) * 1000000 + q % 1000000 == q;
  }

  /** A minus sign in front negates; a leading digit leaves the text as it is. */
  lemma ParseSigned(u: string, neg: bool, v: real)
    requires |u| > 0 && IsDigit(u[0]) && ParseUnsigned(u) == Some(v)
    ensures ParseNumber((if neg then "-" else "") + u) == Some(if neg then -v else v)
  {
    var t := (if neg then "-" else "") + u;
    if neg {
      assert t[0] == '-' && t[1..] == u;
    } else {
      assert t == u;
    }
  }

  /** The unsigned part of `:.6f` text for q millionths reads back as q / 10^6. */
  lemma ParseMicros(q: nat)
    ensures |MicrosText(q)| > 0 && IsDigit(MicrosText(q)[0])
    ensures ParseUnsigned(MicrosText(q)) == Some(q as real / 1000000.0)
  {
    var d := Decimal(q / 1000000);
    assert MicrosText(q)[0] == d[0];
    ParsePointed(d, Padded(q % 1000000, 6));
    PointedMicros(q);
  }

  /** `float(f"{x:.6f}")` is x rounded to the nearest millionth. */
  lemma ParseFixed6(x: real)
    ensures ParseNumber(Fixed6(x)) == Some(Quantize6(x))
  {
    var q := Micros(x);
    var v := q as real / 1000000.0;
    ParseMicros(q);
    ParseSigned(MicrosText(q), x < 0.0, v);
    assert Fixed6(x) == (if x < 0.0 then "-" else "") + MicrosText(q);
    assert Quantize6(x) == if x < 0.0 then -v else v;
  }

  /** Rounding to millionths twice is rounding once. */
  lemma Quantize6Idempotent(x: real)
    ensures Quantize6(Quantize6(x)) == Quantize6(x)
  {
    var q := Micros(x);
    var y := Quantize6(x);
    assert Abs(y) * 1000000.0 == q as real;
    RoundHalfEvenUnique(q as real, q);
    assert Micros(y) == q;
  }

  // ---------------------------------------------------------------------
  // Label lines and files

  /** One line of save_current_labels: `int(cid)` then the four coordinates
      at six decimals. */
  function LabelLine(b: Box): string
  {
    Join(LabelTokens(b))
  }

  function LabelTokens(b: Box): (ws: seq<string>)
    ensures |ws| == 5
  {
    [IntText(Trunc(b.cls)), Fixed6(b.cx), Fixed6(b.cy), Fixed6(b.w), Fixed6(b.h)]
  }

  /** One line of save_labels_to_txt: `' '.join(map(str, bbox))`, where `repr`
      stands for Python's `str()` on a number. */
  function ReprLine(b: Box, repr: real -> string): string
  {
    Join([repr(b.cls), repr(b.cx), repr(b.cy), repr(b.w), repr(b.h)])
  }

  /** What a box becomes after save_current_labels and a reload: the class id
      truncated to an integer, each coordinate rounded to millionths. */
  function Quantized(b: Box): (q: Box)
    ensures Abs(q.cx - b.cx) <= 0.0000005 && Abs(q.cy - b.cy) <= 0.0000005
    ensures Abs(q.w - b.w) <= 0.0000005 && Abs(q.h - b.h) <= 0.0000005
  {
    Box(Trunc(b.cls) as real, Quantize6(b.cx), Quantize6(b.cy), Quantize6(b.w), Quantize6(b.h))
  }

  /** One line per box, in list order, each written by `fmt`. */
  function Lines(bs: seq<Box>, fmt: Box -> string): (ls: seq<string>)
    ensures |ls| == |bs| && forall i :: 0 <= i < |bs| ==> ls[i] == fmt(bs[i])
  {
    seq(|bs|, i requires 0 <= i < |bs| => fmt(bs[i]))
  }

  /** One more box gives one more line, at the end. */
  lemma LinesSnoc(bs: seq<Box>, i: nat, fmt: Box -> string)
    requires i < |bs|
    ensures Lines(bs[..i + 1], fmt) == Lines(bs[..i], fmt) + [fmt(bs[i])]
  {
    var a, p := Lines(bs[..i + 1], fmt), Lines(bs[..i], fmt);
    forall j | 0 <= j < |p| ensures a[j] == p[j] {
      assert bs[..i + 1][j] == bs[..i][j];
    }
    assert a == p + [fmt(bs[i])];
  }

  /** The lines save_current_labels writes. */
  function LabelLines(bs: seq<Box>): (ls: seq<string>)
    ensures |ls| == |bs| && forall i :: 0 <= i < |bs| ==> ls[i] == LabelLine(bs[i])
  {
    Lines(bs, LabelLine)
  }

  function ReprLines(bs: seq<Box>, repr: real -> string): (ls: seq<string>)
    ensures |ls| == |bs| && forall i :: 0 <= i < |bs| ==> ls[i] == ReprLine(bs[i], repr)
  {
    seq(|bs|, i requires 0 <= i < |bs| => ReprLine(bs[i], repr))
  }

  function QuantizedAll(bs: seq<Box>): (qs: seq<Box>)
    ensures |qs| == |bs| && forall i :: 0 <= i < |bs| ==> qs[i] == Quantized(bs[i])
  {
    seq(|bs|, i requires 0 <= i < |bs| => Quantized(bs[i]))
  }

  /** `map(float, parts)` taken to the end: the numbers in token order, or
      None from the first token `float()` rejects. */
  function ParseAll(ws: seq<string>): (r: Option<seq<real>>)
    ensures r.Some? ==> |r.value| == |ws|
    decreases |ws|
  {
    if ws == [] then Some([])
    else match ParseNumber(ws[0])
      case None => None
      case Some(v) =>
        match ParseAll(ws[1..])
        case None => None
        case Some(vs) => Some([v] + vs)
  }

  /** `tuple(map(float, parts))` for the five tokens of a line; None where a
      token is not a number. */
  function ParseBox(ws: seq<string>): Option<Box>
    requires |ws| == 5
  {
    match ParseAll(ws)
    case Some(vs) => Some(Box(vs[0], vs[1], vs[2], vs[3], vs[4]))
    case None => None
  }

  /** Result of reading a label file: the boxes collected, and whether every
      line was read (false: a five-token line held a token `float()` rejects,
      and the ValueError ended the loop there). */
  datatype LabelRead = LabelRead(boxes: seq<Box>, complete: bool)

  /** What the parse loop makes of one line. */
  datatype LineRead =
    | Skipped       // not exactly five tokens: the line is passed over
    | Rejected      // five tokens, one of them not a number: ValueError
    | Read(box: Box)

  function ReadLine(line: string): (r: LineRead)
    ensures r.Skipped? <==> |Words(line)| != 5
  {
    var ws := Words(line);
    if |ws| != 5 then Skipped
    else match ParseBox(ws)
      case None => Rejected
      case Some(b) => Read(b)
  }

  /** The loop over the lines in file order, for any reading of one line:
      skipped lines add nothing, the first rejected line ends the loop. */
  function Scan(lines: seq<string>, read: string -> LineRead): (r: LabelRead)
    ensures |r.boxes| <= |lines|
    decreases |lines|
  {
    if lines == [] then LabelRead([], true)
    else
      var prev := Scan(lines[..|lines| - 1], read);
      if !prev.complete then prev
      else match read(lines[|lines| - 1])
        case Skipped => prev
        case Rejected => LabelRead(prev.boxes, false)
        case Read(b) => LabelRead(prev.boxes + [b], true)
  }

  /** The parse loop of load_current_image. */
  function ReadLabels(lines: seq<string>): (r: LabelRead)
    ensures |r.boxes| <= |lines|
  {
    Scan(lines, ReadLine)
  }

  /** Scanning two pieces one after the other: the boxes of the second follow
      those of the first, unless the first already stopped. */
  lemma {:induction false} ScanAppend(a: seq<string>, b: seq<string>, read: string -> LineRead)
    ensures Scan(a + b, read) ==
      if !Scan(a, read).complete then Scan(a, read)
      else LabelRead(Scan(a, read).boxes + Scan(b, read).boxes, Scan(b, read).complete)
    decreases |b|
  {
    if b == [] {
      assert a + b == a;
    } else {
      var b' := b[..|b| - 1];
      assert (a + b)[..|a + b| - 1] == a + b';
      assert (a + b)[|a + b| - 1] == b[|b| - 1];
      ScanAppend(a, b', read);
    }
  }

  /** Reading two pieces of a file one after the other. */
  lemma ReadLabelsAppend(a: seq<string>, b: seq<string>)
    ensures ReadLabels(a + b) ==
      if !ReadLabels(a).complete then ReadLabels(a)
      else LabelRead(ReadLabels(a).boxes + ReadLabels(b).boxes, ReadLabels(b).complete)
  {
    ScanAppend(a, b, ReadLine);
  }

  /** A skipped line changes nothing. */
  lemma ScanSkips(a: seq<string>, line: string, b: seq<string>, read: string -> LineRead)
    requires read(line).Skipped?
    ensures Scan(a + [line] + b, read) == Scan(a + b, read)
  {
    assert Scan([line], read) == LabelRead([], true) by {
      assert [line][..0] == [];
    }
    ScanAppend(a, [line], read);
    assert Scan(a + [line], read) == Scan(a, read) by {
      assert Scan(a, read).boxes + [] == Scan(a, read).boxes;
    }
    ScanAppend(a + [line], b, read);
    ScanAppend(a, b, read);
  }

  /** A line that does not hold exactly five tokens changes nothing. */
  lemma ReadSkipsMalformed(a: seq<string>, line: string, b: seq<string>)
    requires |Words(line)| != 5
    ensures ReadLabels(a + [line] + b) == ReadLabels(a + b)
  {
    ScanSkips(a, line, b, ReadLine);
  }

  /** Five numbers written side by side by ' '.join split back into the
      same five tokens. */
  lemma FiveWords(ws: seq<string>)
    requires |ws| == 5 && forall i :: 0 <= i < 5 ==> ParseNumber(ws[i]).Some?
    ensures Words(Join(ws)) == ws
  {
    forall i | 0 <= i < 5
      ensures IsToken(ws[i])
    {
      ParsedIsToken(ws[i]);
    }
    WordsOfJoin(ws);
  }

  /** Reading one more well-formed line appends its box. */
  lemma ScanOneMore(ls: seq<string>, line: string, bs: seq<Box>, b: Box, read: string -> LineRead)
    requires Scan(ls, read) == LabelRead(bs, true) && read(line) == Read(b)
    ensures Scan(ls + [line], read) == LabelRead(bs + [b], true)
  {
    var all := ls + [line];
    assert all[..|all| - 1] == ls;
  }

  /** Tokens that each read back as a number read back as those numbers. */
  lemma {:induction false} ParseAllOf(ws: seq<string>, vs: seq<real>)
    requires |ws| == |vs| && forall i :: 0 <= i < |ws| ==> ParseNumber(ws[i]) == Some(vs[i])
    ensures ParseAll(ws) == Some(vs)
    decreases |ws|
  {
    if ws != [] {
      ParseAllOf(ws[1..], vs[1..]);
      assert [vs[0]] + vs[1..] == vs;
    }
  }

  /** Five tokens that read back as the fields of b make up b. */
  lemma ParseBoxOf(ws: seq<string>, b: Box)
    requires |ws| == 5
    requires ParseNumber(ws[0]) == Some(b.cls) && ParseNumber(ws[1]) == Some(b.cx)
    requires ParseNumber(ws[2]) == Some(b.cy) && ParseNumber(ws[3]) == Some(b.w)
    requires ParseNumber(ws[4]) == Some(b.h)
    ensures ParseBox(ws) == Some(b)
  {
    ParseAllOf(ws, [b.cls, b.cx, b.cy, b.w, b.h]);
  }

  /** A line joined from five number tokens parses back as their box. */
  lemma JoinedParses(ws: seq<string>, b: Box)
    requires |ws| == 5
    requires ParseNumber(ws[0]) == Some(b.cls) && ParseNumber(ws[1]) == Some(b.cx)
    requires ParseNumber(ws[2]) == Some(b.cy) && ParseNumber(ws[3]) == Some(b.w)
    requires ParseNumber(ws[4]) == Some(b.h)
    ensures ReadLine(Join(ws)) == Read(b)
  {
    FiveWords(ws);
    ParseBoxOf(ws, b);
  }

  /** A line save_current_labels writes reads back as the quantized box. */
  lemma LabelLineParses(b: Box)
    ensures ReadLine(LabelLine(b)) == Read(Quantized(b))
  {
    var ws := LabelTokens(b);
    var q := Quantized(b);
    assert ParseNumber(ws[0]) == Some(q.cls) by { ParseIntText(Trunc(b.cls)); }
    FixedToken(b.cx, ws[1]);
    FixedToken(b.cy, ws[2]);
    FixedToken(b.w, ws[3]);
    FixedToken(b.h, ws[4]);
    JoinedParses(ws, q);
  }

  lemma FixedToken(x: real, t: string)
    requires t == Fixed6(x)
    ensures ParseNumber(t) == Some(Quantize6(x))
  {
    ParseFixed6(x);
  }

  /** Lines that each read as a box are scanned in full, one box per line,
      in file order. */
  lemma {:induction false} ScanWellFormed(ls: seq<string>, bs: seq<Box>, read: string -> LineRead)
    requires |ls| == |bs| && forall i :: 0 <= i < |ls| ==> read(ls[i]) == Read(bs[i])
    ensures Scan(ls, read) == LabelRead(bs, true)
    decreases |ls|
  {
    if ls != [] {
      var n := |ls|;
      ScanWellFormed(ls[..n - 1], bs[..n - 1], read);
      ScanOneMore(ls[..n - 1], ls[n - 1], bs[..n - 1], bs[n - 1], read);
      assert ls[..n - 1] + [ls[n - 1]] == ls;
      assert bs[..n - 1] + [bs[n - 1]] == bs;
    }
  }

  /** A file whose every line holds five numbers reads in full. */
  lemma ReadWellFormed(ls: seq<string>, bs: seq<Box>)
    requires |ls| == |bs| && forall i :: 0 <= i < |ls| ==> ReadLine(ls[i]) == Read(bs[i])
    ensures ReadLabels(ls) == LabelRead(bs, true)
  {
    ScanWellFormed(ls, bs, ReadLine);
  }

  /** A file written by save_current_labels reads back as the same boxes, in
      the same order, each quantized as `:.6f` and `int()` quantize it. */
  lemma LabelFileRoundTrip(bs: seq<Box>)
    ensures ReadLabels(LabelLines(bs)) == LabelRead(QuantizedAll(bs), true)
  {
    var ls, qs := LabelLines(bs), QuantizedAll(bs);
    forall i | 0 <= i < |ls|
      ensures ReadLine(ls[i]) == Read(qs[i])
    {
      LabelLineParses(bs[i]);
    }
    ReadWellFormed(ls, qs);
  }

  /** Quantizing a quantized box changes nothing. */
  lemma QuantizedIdempotent(b: Box)
    ensures Quantized(Quantized(b)) == Quantized(b)
  {
    var q := Quantized(b);
    assert Trunc(q.cls) == Trunc(b.cls);
    assert Quantize6(q.cx) == q.cx by { Quantize6Idempotent(b.cx); }
    assert Quantize6(q.cy) == q.cy by { Quantize6Idempotent(b.cy); }
    assert Quantize6(q.w) == q.w by { Quantize6Idempotent(b.w); }
    assert Quantize6(q.h) == q.h by { Quantize6Idempotent(b.h); }
  }

  lemma QuantizedAllIdempotent(bs: seq<Box>)
    ensures QuantizedAll(QuantizedAll(bs)) == QuantizedAll(bs)
  {
    var qs := QuantizedAll(bs);
    forall i | 0 <= i < |bs|
      ensures QuantizedAll(qs)[i] == qs[i]
    {
      QuantizedIdempotent(bs[i]);
    }
  }

  /** Saving and reloading a second time changes nothing more. */
  lemma ReloadIsStable(bs: seq<Box>)
    ensures ReadLabels(LabelLines(ReadLabels(LabelLines(bs)).boxes)) == ReadLabels(LabelLines(bs))
  {
    var qs := QuantizedAll(bs);
    assert ReadLabels(LabelLines(bs)) == LabelRead(qs, true) by { LabelFileRoundTrip(bs); }
    assert ReadLabels(LabelLines(qs)) == LabelRead(qs, true) by {
      LabelFileRoundTrip(qs);
      QuantizedAllIdempotent(bs);
    }
  }

  /** `str()` of a number reads back through `float()` as that number. */
  ghost predicate ReprReadsBack(repr: real -> string, x: real)
  {
    ParseNumber(repr(x)) == Some(x)
  }

  ghost predicate ReprReadsBackBox(repr: real -> string, b: Box)
  {
    && ReprReadsBack(repr, b.cls) && ReprReadsBack(repr, b.cx) && ReprReadsBack(repr, b.cy)
    && ReprReadsBack(repr, b.w) && ReprReadsBack(repr, b.h)
  }

  /** A file written by save_labels_to_txt reads back as exactly the boxes
      written, whenever `str()` of each number reads back as that number
      (Python's shortest float repr does, for every float whose `str()` has
      no exponent). */
  lemma ReprFileRoundTrip(bs: seq<Box>, repr: real -> string)
    requires forall i :: 0 <= i < |bs| ==> ReprReadsBackBox(repr, bs[i])
    ensures ReadLabels(ReprLines(bs, repr)) == LabelRead(bs, true)
  {
    var ls := ReprLines(bs, repr);
    forall i | 0 <= i < |ls|
      ensures ReadLine(ls[i]) == Read(bs[i])
    {
      var b := bs[i];
      var ws := [repr(b.cls), repr(b.cx), repr(b.cy), repr(b.w), repr(b.h)];
      assert ReprReadsBackBox(repr, b);
      JoinedParses(ws, b);
    }
    ReadWellFormed(ls, bs);
  }

  // ---------------------------------------------------------------------
  // Label path

  /** Index of the last '.' in p, if any. */
  function LastDot(p: string): (i: Option<nat>)
    ensures i.Some? ==> i.value < |p| && p[i.value] == '.'
    ensures i.Some? ==> forall j :: i.value < j < |p| ==> p[j] != '.'
    ensures i.None? ==> forall j :: 0 <= j < |p| ==> p[j] != '.'
    decreases |p|
  {
    if p == [] then None
    else if p[|p| - 1] == '.' then Some(|p| - 1)
    else LastDot(p[..|p| - 1])
  }

  /** `image_path.rsplit('.', 1)[0] + '.txt'`. */
  function LabelPath(p: string): (q: string)
    ensures '.' !in p ==> q == p + ".txt"
  {
    match LastDot(p)
    case Some(i) => p[..i] + ".txt"
    case None => p + ".txt"
  }

  /** The extension after the last dot is replaced by "txt". */
  lemma LabelPathReplacesExtension(stem: string, ext: string)
    requires '.' !in ext
    ensures LabelPath(stem + "." + ext) == stem + ".txt"
  {
    var p := stem + "." + ext;
    assert p[|stem|] == '.';
    forall j | |stem| < j < |p| ensures p[j] != '.' {
      assert p[j] == ext[j - |stem| - 1];
    }
    var i := LastDot(p);
    assert i == Some(|stem|);
    assert p[..|stem|] == stem;
  }
}
