/** The C library's `sscanf` as the ticker uses it, reduced to the
    directives of its one format string: ordinary characters, white
    space, `%f` and `%%`. */
module Scan {
  import opened Options

  /** One directive of a `scanf` format. */
  datatype Directive =
    | Literal(c: char)  // an ordinary character: must match the next input character
    | Blank             // a run of white space: skips any white space in the input
    | RealConv          // `%f`: skips white space, then reads a decimal number
    | PercentConv       // `%%`: skips white space, then matches a '%'

  /** What `sscanf` reports: the number of assignments, or EOF (-1) when
      the input ran out before the first conversion; and the values
      assigned, in order. */
  datatype Scanned = Scanned(count: int, values: seq<real>)

  const Eof: int := -1

  /** `isspace` in the "C" locale. */
  predicate IsSpace(c: char)
  {
    c == ' ' || c == '\t' || c == '\n' || c == '\U{0B}' || c == '\U{0C}' || c == '\r'
  }

  predicate IsDigit(c: char)
  {
    '0' <= c <= '9'
  }

  predicate AllDigits(s: string)
  {
    forall i :: 0 <= i < |s| ==> IsDigit(s[i])
  }

  /** The input after a white-space directive. */
  function SkipSpace(s: string): (r: string)
    ensures |r| <= |s| && r == s[|s| - |r|..]
    ensures r == [] || !IsSpace(r[0])
    ensures forall i :: 0 <= i < |s| - |r| ==> IsSpace(s[i])
  {
    if s != [] && IsSpace(s[0]) then SkipSpace(s[1..]) else s
  }

  /** The longest run of digits at the start of `s`. */
  function DigitRun(s: string): (r: string)
    ensures r <= s
    ensures AllDigits(r)
    ensures |r| < |s| ==> !IsDigit(s[|r|])
  {
    if s != [] && IsDigit(s[0]) then [s[0]] + DigitRun(s[1..]) else []
  }

  function DigitsValue(ds: string): nat
    requires AllDigits(ds)
  {
    if ds == [] then 0
    else 10 * DigitsValue(ds[..|ds| - 1]) + (ds[|ds| - 1] as int - '0' as int)
  }

  function Pow10(n: nat): (p: nat)
    ensures p >= 1
  {
    if n == 0 then 1 else 10 * Pow10(n - 1)
  }

  datatype Sign = NoSign | Plus | Minus

  /** The text of a decimal number as `%f` reads it: an optional sign,
      then digits with an optional point among or after them. */
  datatype Decimal = Decimal(sign: Sign, whole: string, dot: bool, fraction: string)

  predicate WellFormed(d: Decimal)
  {
    && AllDigits(d.whole) && AllDigits(d.fraction)
    && |d.whole| + |d.fraction| > 0
    && (!d.dot ==> d.fraction == [])
  }

  function SignText(s: Sign): string
  {
    match s
    case NoSign => ""
    case Plus => "+"
    case Minus => "-"
  }

  /** The number without its sign. */
  function Unsigned(d: Decimal): string
  {
    d.whole + (if d.dot then "." + d.fraction else "")
  }

  function Render(d: Decimal): string
  {
    SignText(d.sign) + Unsigned(d)
  }

  function Value(d: Decimal): real
    requires WellFormed(d)
  {
    var magnitude := DigitsValue(d.whole) as real
      + DigitsValue(d.fraction) as real / Pow10(|d.fraction|) as real;
    if d.sign == Minus then -magnitude else magnitude
  }

  /** The optional sign `%f` accepts, and the text after it. */
  function ReadSign(s: string): (r: (Sign, string))
    ensures SignText(r.0) + r.1 == s
  {
    if s != [] && s[0] == '+' then (Plus, s[1..])
    else if s != [] && s[0] == '-' then (Minus, s[1..])
    else (NoSign, s)
  }

  /** The digits, point and digits after the sign: the longest run of
      digits, then a point and the longest run of digits after it. */
  function ReadUnsigned(body: string): Decimal
  {
    var whole := DigitRun(body);
    var rest := body[|whole|..];
    if rest != [] && rest[0] == '.' then Decimal(NoSign, whole, true, DigitRun(rest[1..]))
    else Decimal(NoSign, whole, false, [])
  }

  /** The number `%f` reads at the start of `s` (after white space has
      been skipped), or nothing when no digit follows the sign. */
  function ReadDecimal(s: string): (r: Option<Decimal>)
    ensures r.None? <==>
      var body := ReadSign(s).1;
      DigitRun(body) == [] && (body == [] || body[0] != '.' || DigitRun(body[1..]) == [])
    ensures r.Some? ==> WellFormed(r.value) && r.value.sign == ReadSign(s).0
  {
    var (sign, body) := ReadSign(s);
    var u := ReadUnsigned(body);
    if |u.whole| + |u.fraction| == 0 then None
    else Some(u.(sign := sign))
  }

  /** A prefix stays a prefix, and the character after it stays the
      same, when both sides gain the same head. */
  lemma PrefixAfterHead(a: string, u: string, b: string)
    requires u <= b
    ensures a + u <= a + b
    ensures |u| < |b| ==> (a + b)[|a + u|] == b[|u|]
  {
  }

  /** The conditions UnsignedPrefix states, for one outcome `u`. */
  predicate LongestUnsigned(u: Decimal, body: string)
  {
    && AllDigits(u.whole) && AllDigits(u.fraction) && (!u.dot ==> u.fraction == [])
    && Unsigned(u) <= body
    && (|Unsigned(u)| < |body| ==> !IsDigit(body[|Unsigned(u)|]) && (u.dot || body[|Unsigned(u)|] != '.'))
  }

  /** After the digits, a point and the digits after it are read only
      when the point is there. */
  lemma FractionPrefix(whole: string, rest: string)
    requires AllDigits(whole) && rest != [] && rest[0] == '.'
    ensures LongestUnsigned(Decimal(NoSign, whole, true, DigitRun(rest[1..])), whole + rest)
  {
    var fraction := DigitRun(rest[1..]);
    assert rest == "." + rest[1..];
    PrefixAfterHead("." , fraction, rest[1..]);
    PrefixAfterHead(whole, "." + fraction, rest);
    assert Unsigned(Decimal(NoSign, whole, true, fraction)) == whole + ("." + fraction);
  }

  lemma WholeOnlyPrefix(body: string)
    requires var rest := body[|DigitRun(body)|..]; rest == [] || rest[0] != '.'
    ensures LongestUnsigned(Decimal(NoSign, DigitRun(body), false, []), body)
  {
    var whole := DigitRun(body);
    assert Unsigned(Decimal(NoSign, whole, false, [])) == whole;
  }

  lemma WithPointPrefix(body: string)
    requires var rest := body[|DigitRun(body)|..]; rest != [] && rest[0] == '.'
    ensures var rest := body[|DigitRun(body)|..];
      LongestUnsigned(Decimal(NoSign, DigitRun(body), true, DigitRun(rest[1..])), body)
  {
    var whole := DigitRun(body);
    var rest := body[|whole|..];
    assert body == whole + rest;
    FractionPrefix(whole, rest);
  }

  lemma UnsignedPrefix(body: string)
    ensures LongestUnsigned(ReadUnsigned(body), body)
  {
    var rest := body[|DigitRun(body)|..];
    if rest != [] && rest[0] == '.' {
      WithPointPrefix(body);
    } else {
      WholeOnlyPrefix(body);
    }
  }

  /** What `%f` reads is a well-formed number written at the start of the
      input, and it is the longest one there: the next character neither
      is a digit nor, when no point was read yet, a point. */
  lemma ReadDecimalPrefix(s: string)
    ensures ReadDecimal(s).Some? ==>
      var d := ReadDecimal(s).value;
      && WellFormed(d)
      && Render(d) <= s
      && (|Render(d)| < |s| ==> !IsDigit(s[|Render(d)|]) && (d.dot || s[|Render(d)|] != '.'))
  {
    var (sign, body) := ReadSign(s);
    UnsignedPrefix(body);
    PrefixAfterHead(SignText(sign), Unsigned(ReadUnsigned(body)), body);
  }

  /** A run of digits ended by a non-digit is read back whole. */
  lemma {:induction false} DigitRunOfDigits(ds: string, rest: string)
    requires AllDigits(ds)
    requires rest == [] || !IsDigit(rest[0])
    ensures DigitRun(ds + rest) == ds
  {
    if ds != [] {
      assert (ds + rest)[1..] == ds[1..] + rest;
      DigitRunOfDigits(ds[1..], rest);
    } else {
      assert ds + rest == rest;
    }
  }

  /** A run of digits followed by a non-digit: the whole part is the run,
      and the text after it decides the fraction. */
  lemma ReadUnsignedAfter(whole: string, tail: string)
    requires AllDigits(whole)
    requires tail == [] || !IsDigit(tail[0])
    ensures ReadUnsigned(whole + tail)
         == if tail != [] && tail[0] == '.' then Decimal(NoSign, whole, true, DigitRun(tail[1..]))
            else Decimal(NoSign, whole, false, [])
  {
    DigitRunOfDigits(whole, tail);
    assert (whole + tail)[|whole|..] == tail;
  }

  lemma UnsignedRendered(d: Decimal, rest: string)
    requires WellFormed(d) && d.sign == NoSign
    requires rest == [] || (!IsDigit(rest[0]) && rest[0] != '.')
    ensures ReadUnsigned(Unsigned(d) + rest) == d
  {
    if d.dot {
      var after := "." + (d.fraction + rest);
      assert Unsigned(d) + rest == d.whole + after;
      ReadUnsignedAfter(d.whole, after);
      assert after[1..] == d.fraction + rest;
      DigitRunOfDigits(d.fraction, rest);
    } else {
      assert Unsigned(d) + rest == d.whole + rest;
      ReadUnsignedAfter(d.whole, rest);
    }
  }

  lemma SignRendered(sign: Sign, body: string)
    requires body != [] && body[0] != '+' && body[0] != '-'
    ensures ReadSign(SignText(sign) + body) == (sign, body)
  {
    if sign == NoSign {
      assert SignText(sign) + body == body;
    } else {
      assert (SignText(sign) + body)[1..] == body;
    }
  }

  /** `%f` reads back exactly the number that was written, whatever
      follows it, as long as that does not continue the number. */
  lemma ReadRendered(d: Decimal, rest: string)
    requires WellFormed(d)
    requires rest == [] || (!IsDigit(rest[0]) && rest[0] != '.')
    ensures ReadDecimal(Render(d) + rest) == Some(d)
  {
    var body := Unsigned(d) + rest;
    assert Render(d) + rest == SignText(d.sign) + body;
    assert body[0] == '.' || IsDigit(body[0]) by {
      if d.whole != [] {
        assert body[0] == d.whole[0];
      } else {
        assert body[0] == '.';
      }
    }
    SignRendered(d.sign, body);
    UnsignedRendered(d.(sign := NoSign), rest);
  }

  /** `%f`: the value read and the number of characters it took. */
  function ScanReal(s: string): (r: Option<(real, nat)>)
    ensures r.Some? ==> 0 < r.value.1 <= |s|
  {
    ReadDecimalPrefix(s);
    match ReadDecimal(s)
    case None => None
    case Some(d) => Some((Value(d), |Render(d)|))
  }

  /** The result when the input runs out: EOF if nothing was assigned. */
  function InputFailure(vals: seq<real>): (r: Scanned)
    ensures r.count == Eof <==> vals == []
  {
    if vals == [] then Scanned(Eof, []) else Scanned(|vals|, vals)
  }

  /** Processing the directives in order. A mismatch stops the scan and
      reports the assignments made so far; running out of input does the
      same, except that it reports EOF before the first conversion. */
  function Run(ds: seq<Directive>, s: string, vals: seq<real>): (r: Scanned)
    ensures vals <= r.values
    ensures r.count == Eof ==> vals == [] && r.values == []
    ensures r.count != Eof ==> r.count == |r.values|
    decreases |ds|
  {
    if ds == [] then Scanned(|vals|, vals)
    else
      match ds[0]
      case Blank => Run(ds[1..], SkipSpace(s), vals)
      case Literal(c) =>
        if s == [] then InputFailure(vals)
        else if s[0] == c then Run(ds[1..], s[1..], vals)
        else Scanned(|vals|, vals)
      case RealConv =>
        var t := SkipSpace(s);
        if t == [] then InputFailure(vals)
        else (
          match ScanReal(t)
          case None => Scanned(|vals|, vals)
          case Some((v, n)) =>
            Run(ds[1..], t[n..], vals + [v]))
      case PercentConv =>
        var t := SkipSpace(s);
        if t == [] then InputFailure(vals)
        else if t[0] == '%' then Run(ds[1..], t[1..], vals)
        else Scanned(|vals|, vals)
  }

  function Literals(text: string): (ds: seq<Directive>)
    ensures |ds| == |text|
    ensures forall i :: 0 <= i < |text| ==> ds[i] == Literal(text[i])
  {
    seq(|text|, i requires 0 <= i < |text| => Literal(text[i]))
  }

  /** The directives of `"BTC Price: $%f, 24h Change: %f%%"`, split where
      the round-trip proof needs them. */
  const PriceTail: seq<Directive> :=
    Literals(",") + ([Blank] + (Literals("24h") + ([Blank] + (Literals("Change:") + ([Blank] + [RealConv, PercentConv])))))

  const QuoteFormat: seq<Directive> :=
    Literals("BTC") + ([Blank] + (Literals("Price:") + ([Blank] + (Literals("$") + ([RealConv] + PriceTail)))))

  /** `sscanf(line, "BTC Price: $%f, 24h Change: %f%%", &price, &change)`. */
  function ScanQuote(line: string): (r: Scanned)
    ensures r.count == Eof ==> r.values == []
    ensures r.count != Eof ==> r.count == |r.values|
  {
    Run(QuoteFormat, line, [])
  }

  lemma {:induction false} RunLiterals(text: string, rest: string, ds: seq<Directive>, vals: seq<real>)
    ensures Run(Literals(text) + ds, text + rest, vals) == Run(ds, rest, vals)
    decreases |text|
  {
    if text != [] {
      assert (Literals(text) + ds)[0] == Literal(text[0]);
      assert (Literals(text) + ds)[1..] == Literals(text[1..]) + ds;
      assert (text + rest)[1..] == text[1..] + rest;
      RunLiterals(text[1..], rest, ds, vals);
    } else {
      assert Literals(text) + ds == ds;
      assert text + rest == rest;
    }
  }

  /** A single space in the input matches a white-space directive when
      no further white space follows it. */
  lemma RunBlank(rest: string, ds: seq<Directive>, vals: seq<real>)
    requires rest == [] || !IsSpace(rest[0])
    ensures Run([Blank] + ds, " " + rest, vals) == Run(ds, rest, vals)
  {
    var s := " " + rest;
    assert s[0] == ' ' && s[1..] == rest;
    assert SkipSpace(rest) == rest;
    assert SkipSpace(s) == rest;
    assert ([Blank] + ds)[0] == Blank && ([Blank] + ds)[1..] == ds;
  }

  /** A written number starts with a sign, a digit or a point, never
      with white space. */
  lemma RenderedStart(d: Decimal, rest: string)
    requires WellFormed(d)
    ensures Render(d) + rest != [] && !IsSpace((Render(d) + rest)[0])
  {
    var s := Render(d) + rest;
    if d.sign != NoSign {
      assert s[0] == SignText(d.sign)[0];
    } else if d.whole != [] {
      assert s[0] == d.whole[0];
    } else {
      assert s[0] == '.';
    }
  }

  lemma RunRendered(d: Decimal, rest: string, ds: seq<Directive>, vals: seq<real>)
    requires WellFormed(d)
    requires rest == [] || (!IsDigit(rest[0]) && rest[0] != '.')
    ensures Run([RealConv] + ds, Render(d) + rest, vals) == Run(ds, rest, vals + [Value(d)])
  {
    var s := Render(d) + rest;
    ReadRendered(d, rest);
    RenderedStart(d, rest);
    assert SkipSpace(s) == s;
    assert ScanReal(s) == Some((Value(d), |Render(d)|));
    assert s[|Render(d)|..] == rest;
    assert ([RealConv] + ds)[0] == RealConv && ([RealConv] + ds)[1..] == ds;
  }

  /** The text before the price matches the directives before `%f`. */
  lemma RunPriceLabel(x: string, vals: seq<real>)
    ensures Run(QuoteFormat, "BTC Price: $" + x, vals) == Run([RealConv] + PriceTail, x, vals)
  {
    var ds := [RealConv] + PriceTail;
    assert "BTC Price: $" + x == "BTC" + (" " + ("Price:" + (" " + ("$" + x))));
    RunLiterals("BTC", " " + ("Price:" + (" " + ("$" + x))), [Blank] + (Literals("Price:") + ([Blank] + (Literals("$") + ds))), vals);
    RunBlank("Price:" + (" " + ("$" + x)), Literals("Price:") + ([Blank] + (Literals("$") + ds)), vals);
    RunLiterals("Price:", " " + ("$" + x), [Blank] + (Literals("$") + ds), vals);
    RunBlank("$" + x, Literals("$") + ds, vals);
    RunLiterals("$", x, ds, vals);
  }

  /** The text between the price and the change matches the directives
      between the two `%f`. */
  lemma RunChangeLabel(y: string, vals: seq<real>)
    requires y == [] || !IsSpace(y[0])
    ensures Run(PriceTail, ", 24h Change: " + y, vals) == Run([RealConv, PercentConv], y, vals)
  {
    var ds := [RealConv, PercentConv];
    var changeDs := [Blank] + (Literals("Change:") + ([Blank] + ds));
    assert ", 24h Change: " + y == "," + (" " + ("24h" + (" " + ("Change:" + (" " + y)))));
    RunLiterals(",", " " + ("24h" + (" " + ("Change:" + (" " + y)))), [Blank] + (Literals("24h") + changeDs), vals);
    RunBlank("24h" + (" " + ("Change:" + (" " + y))), Literals("24h") + changeDs, vals);
    RunLiterals("24h", " " + ("Change:" + (" " + y)), changeDs, vals);
    RunBlank("Change:" + (" " + y), Literals("Change:") + ([Blank] + ds), vals);
    RunLiterals("Change:", " " + y, [Blank] + ds, vals);
    RunBlank(y, ds, vals);
  }

  /** `%%` assigns nothing: after a conversion the count stands whether
      or not a '%' follows. */
  lemma RunPercent(rest: string, vals: seq<real>)
    requires vals != []
    ensures Run([PercentConv], rest, vals) == Scanned(|vals|, vals)
  {
    assert [PercentConv][1..] == [];
  }

  /** The line a price feed sends: the two numbers in the expected text,
      followed by anything. */
  function QuoteLine(price: Decimal, change: Decimal, rest: string): string
  {
    "BTC Price: $" + Render(price) + ", 24h Change: " + Render(change) + rest
  }

  /** After the price, the rest of a line of the expected shape assigns
      the change and ends the scan. */
  lemma RunChange(change: Decimal, rest: string, vals: seq<real>)
    requires WellFormed(change) && vals != []
    requires rest == [] || (!IsDigit(rest[0]) && rest[0] != '.')
    ensures Run(PriceTail, ", 24h Change: " + Render(change) + rest, vals)
         == Scanned(|vals| + 1, vals + [Value(change)])
  {
    var tail := Render(change) + rest;
    assert ", 24h Change: " + Render(change) + rest == ", 24h Change: " + tail;
    RenderedStart(change, rest);
    RunChangeLabel(tail, vals);
    assert [RealConv, PercentConv] == [RealConv] + [PercentConv];
    RunRendered(change, rest, [PercentConv], vals);
    RunPercent(rest, vals + [Value(change)]);
  }

  /** A line of the expected shape assigns both numbers and reports 2,
      whatever follows the change, the trailing '%' included. */
  lemma QuoteRoundTrip(price: Decimal, change: Decimal, rest: string)
    requires WellFormed(price) && WellFormed(change)
    requires rest == [] || (!IsDigit(rest[0]) && rest[0] != '.')
    ensures ScanQuote(QuoteLine(price, change, rest)) == Scanned(2, [Value(price), Value(change)])
  {
    var afterPrice := ", 24h Change: " + Render(change) + rest;
    assert QuoteLine(price, change, rest) == "BTC Price: $" + (Render(price) + afterPrice);
    RunPriceLabel(Render(price) + afterPrice, []);
    RunRendered(price, afterPrice, PriceTail, []);
    assert [] + [Value(price)] == [Value(price)];
    RunChange(change, rest, [Value(price)]);
    assert [Value(price)] + [Value(change)] == [Value(price), Value(change)];
  }

  /** A line without the trailing '%' still scans as a full quote: the
      `%%` directive comes after the last assignment. */
  lemma PercentSignNotChecked(price: Decimal, change: Decimal)
    requires WellFormed(price) && WellFormed(change)
    ensures ScanQuote(QuoteLine(price, change, "")).count == 2
    ensures ScanQuote(QuoteLine(price, change, "%")).count == 2
  {
    QuoteRoundTrip(price, change, "");
    QuoteRoundTrip(price, change, "%");
  }

  /** A price not followed by the change text assigns the price alone:
      the count is 1, so the line is rejected, but `price` has been
      written. */
  lemma PriceOnly(price: Decimal, rest: string)
    requires WellFormed(price)
    requires rest == [] || (rest[0] != ',' && !IsDigit(rest[0]) && rest[0] != '.')
    ensures ScanQuote("BTC Price: $" + Render(price) + rest) == Scanned(1, [Value(price)])
  {
    assert "BTC Price: $" + Render(price) + rest == "BTC Price: $" + (Render(price) + rest);
    RunPriceLabel(Render(price) + rest, []);
    RunRendered(price, rest, PriceTail, []);
    assert [] + [Value(price)] == [Value(price)];
    assert PriceTail[0] == Literal(',');
  }

  /** An empty line runs out of input at the first directive: EOF. */
  lemma EmptyLineIsEof()
    ensures ScanQuote("") == Scanned(Eof, [])
  {
    assert QuoteFormat[0] == Literal('B');
  }

  /** A line that does not start with the label assigns nothing. */
  lemma WrongLabel(line: string)
    requires line != [] && line[0] != 'B'
    ensures ScanQuote(line) == Scanned(0, [])
  {
    assert QuoteFormat[0] == Literal('B');
  }

  lemma SampleDigits()
    ensures DigitsValue("67321") == 67321 && DigitsValue("45") == 45
    ensures DigitsValue("1") == 1 && DigitsValue("25") == 25
  {
    assert "6"[..0] == "" && DigitsValue("6") == 6;
    assert "67"[..1] == "6" && DigitsValue("67") == 67;
    assert "673"[..2] == "67" && DigitsValue("673") == 673;
    assert "6732"[..3] == "673" && DigitsValue("6732") == 6732;
    assert "67321"[..4] == "6732";
    assert "4"[..0] == "" && DigitsValue("4") == 4;
    assert "45"[..1] == "4";
    assert "1"[..0] == "";
    assert "2"[..0] == "" && DigitsValue("2") == 2;
    assert "25"[..1] == "2";
  }

  lemma SampleRenders()
    ensures Render(Decimal(NoSign, "67321", true, "45")) == "67321.45"
    ensures Render(Decimal(Minus, "1", true, "25")) == "-1.25"
  {
    assert Unsigned(Decimal(NoSign, "67321", true, "45")) == "67321" + ".45";
    assert Unsigned(Decimal(Minus, "1", true, "25")) == "1" + ".25";
  }

  lemma SampleText()
    ensures QuoteLine(Decimal(NoSign, "67321", true, "45"), Decimal(Minus, "1", true, "25"), "%")
            == "BTC Price: $67321.45, 24h Change: -1.25%"
  {
    SampleRenders();
  }

  lemma SampleValues()
    ensures Value(Decimal(NoSign, "67321", true, "45")) == 67321.45
    ensures Value(Decimal(Minus, "1", true, "25")) == -1.25
  {
    SampleDigits();
    assert Pow10(2) == 100;
  }

  /** A line as the feed sends it. */
  lemma SampleQuote()
    ensures ScanQuote("BTC Price: $67321.45, 24h Change: -1.25%") == Scanned(2, [67321.45, -1.25])
  {
    var price := Decimal(NoSign, "67321", true, "45");
    var change := Decimal(Minus, "1", true, "25");
    SampleText();
    QuoteRoundTrip(price, change, "%");
    SampleValues();
  }
}
