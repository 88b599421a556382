/** Civil UTC time and its two millisecond ISO-8601 renderings: Go's
    `Format("2006-01-02T15:04:05.000Z")` and JavaScript's
    `Date.prototype.toISOString`. Within years 0..9999 both are the
    RFC 3339 section 5.6 profile `YYYY-MM-DDTHH:mm:ss.sssZ`. */
module IsoTime {
  import opened Wrappers

  /** Calendar fields of an instant in UTC; `nanosecond` is the sub-second part. */
  datatype CivilTime = CivilTime(
    year: int, month: int, day: int,
    hour: int, minute: int, second: int, nanosecond: int)

  predicate IsLeap(y: int) {
    y % 4 == 0 && (y % 100 != 0 || y % 400 == 0)
  }

  function DaysIn(y: int, m: int): int {
    if m == 2 then (if IsLeap(y) then 29 else 28)
    else if m == 4 || m == 6 || m == 9 || m == 11 then 30
    else 31
  }

  /** Fields in range, as any Go `time.Time` or JavaScript `Date` has them. */
  predicate Valid(t: CivilTime) {
    && 1 <= t.month <= 12
    && 1 <= t.day <= DaysIn(t.year, t.month)
    && 0 <= t.hour < 24
    && 0 <= t.minute < 60
    && 0 <= t.second < 60
    && 0 <= t.nanosecond < 1000000000
  }

  type Time = t: CivilTime | Valid(t) witness CivilTime(1970, 1, 1, 0, 0, 0, 0)

  /** The instant cut down to millisecond precision (truncation). */
  function TruncMillis(t: Time): (u: Time)
    ensures u.nanosecond % 1000000 == 0
    ensures t.nanosecond - 1000000 < u.nanosecond <= t.nanosecond
  {
    t.(nanosecond := t.nanosecond / 1000000 * 1000000)
  }

  // ---- decimal digits -------------------------------------------------------

  function Pow10(n: nat): nat {
    if n == 0 then 1 else 10 * Pow10(n - 1)
  }

  function DigitChar(d: nat): char
    requires d < 10
  {
    (('0' as int) + d) as char
  }

  predicate IsDigit(c: char) {
    '0' <= c <= '9'
  }

  function DigitValue(c: char): (d: nat)
    requires IsDigit(c)
    ensures d < 10 && DigitChar(d) == c
  {
    (c as int) - ('0' as int)
  }

  predicate AllDigits(s: string) {
    forall i :: 0 <= i < |s| ==> IsDigit(s[i])
  }

  /** Go's `appendInt(b, n, width)` for `n >= 0`: decimal, left-padded with
      zeros to at least `width` characters. */
  function Digits(n: nat, width: nat): (s: string)
    decreases n, width
  {
    if n < 10 && width <= 1 then [DigitChar(n)]
    else Digits(n / 10, if width > 0 then width - 1 else 0) + [DigitChar(n % 10)]
  }

  lemma {:induction false} DigitsAreDigits(n: nat, width: nat)
    ensures AllDigits(Digits(n, width))
    decreases n, width
  {
    if !(n < 10 && width <= 1) {
      DigitsAreDigits(n / 10, if width > 0 then width - 1 else 0);
    }
  }

  function ParseDigits(s: string): nat
    requires AllDigits(s)
  {
    if |s| == 0 then 0
    else ParseDigits(s[..|s| - 1]) * 10 + DigitValue(s[|s| - 1])
  }

  lemma {:induction false} DigitsLength(n: nat, width: nat)
    requires 1 <= width && n < Pow10(width)
    ensures |Digits(n, width)| == width
    decreases width
  {
    if !(n < 10 && width <= 1) {
      assert width > 1;
      DigitsLength(n / 10, width - 1);
    }
  }

  /** Padding does not change the number. */
  lemma {:induction false} ParseDigitsOfDigits(n: nat, width: nat)
    ensures AllDigits(Digits(n, width)) && ParseDigits(Digits(n, width)) == n
    decreases n, width
  {
    var s := Digits(n, width);
    DigitsAreDigits(n, width);
    if !(n < 10 && width <= 1) {
      var w := if width > 0 then width - 1 else 0;
      ParseDigitsOfDigits(n / 10, w);
      DigitsAreDigits(n / 10, w);
      assert s[..|s| - 1] == Digits(n / 10, w);
    }
  }

  lemma DivModTen(a: nat, v: nat)
    requires v < 10
    ensures (a * 10 + v) / 10 == a && (a * 10 + v) % 10 == v
  {
  }

  /** A digit string is the padded rendering of its own value. */
  lemma {:induction false} DigitsOfParseDigits(s: string)
    requires |s| >= 1 && AllDigits(s)
    ensures Digits(ParseDigits(s), |s|) == s
    decreases |s|
  {
    var p := s[..|s| - 1];
    var v := DigitValue(s[|s| - 1]);
    var n := ParseDigits(s);
    if |s| == 1 {
      assert |p| == 0;
      assert ParseDigits(p) == 0;
      assert n == ParseDigits(p) * 10 + v == v;
    } else {
      DigitsOfParseDigits(p);
      DivModTen(ParseDigits(p), v);
      assert s == p + [s[|s| - 1]];
    }
  }

  lemma {:induction false} ParseDigitsBound(s: string)
    requires AllDigits(s)
    ensures ParseDigits(s) < Pow10(|s|)
    decreases |s|
  {
    if |s| > 0 {
      ParseDigitsBound(s[..|s| - 1]);
    }
  }

  // ---- fixed-width layouts -------------------------------------------------

  /** A layout is a list of (digit count, separator) slots: each number is
      zero-padded to its width and followed by its separator. */
  type Layout = seq<(nat, char)>

  predicate Fits(vs: seq<nat>, layout: Layout) {
    && |vs| == |layout|
    && forall i :: 0 <= i < |vs| ==> 1 <= layout[i].0 && vs[i] < Pow10(layout[i].0)
  }

  /** One fixed-width zero-padded number followed by its separator. */
  function Field(n: nat, width: nat, sep: char): string {
    Digits(n, width) + [sep]
  }

  function Render(vs: seq<nat>, layout: Layout): string
    requires |vs| == |layout|
  {
    if |vs| == 0 then "" else Field(vs[0], layout[0].0, layout[0].1) + Render(vs[1..], layout[1..])
  }

  /** Reads `width` digits and then `sep`; yields the number and what follows. */
  function ReadField(s: string, width: nat, sep: char): Option<(nat, string)> {
    if |s| >= width + 1 && AllDigits(s[..width]) && s[width] == sep
    then Some((ParseDigits(s[..width]), s[width + 1..]))
    else None
  }

  /** Reads a whole string against a layout; `None` unless it fits exactly. */
  function ReadLayout(s: string, layout: Layout): (r: Option<seq<nat>>)
    decreases |layout|
  {
    if |layout| == 0 then (if s == [] then Some([]) else None)
    else
      match ReadField(s, layout[0].0, layout[0].1)
      case None => None
      case Some((n, rest)) =>
        match ReadLayout(rest, layout[1..])
        case None => None
        case Some(ns) => Some([n] + ns)
  }

  lemma ReadFieldOfField(n: nat, width: nat, sep: char, rest: string)
    requires 1 <= width && n < Pow10(width)
    ensures ReadField(Field(n, width, sep) + rest, width, sep) == Some((n, rest))
  {
    var s := Field(n, width, sep) + rest;
    DigitsLength(n, width);
    DigitsAreDigits(n, width);
    assert s[..width] == Digits(n, width);
    assert s[width + 1..] == rest;
    ParseDigitsOfDigits(n, width);
  }

  lemma FieldOfReadField(s: string, width: nat, sep: char)
    requires width >= 1 && ReadField(s, width, sep).Some?
    ensures var (n, rest) := ReadField(s, width, sep).value;
      s == Field(n, width, sep) + rest && n < Pow10(width)
  {
    DigitsOfParseDigits(s[..width]);
    ParseDigitsBound(s[..width]);
    assert s == s[..width] + [s[width]] + s[width + 1..];
  }

  /** Rendering numbers that fit their slots is undone by reading. */
  lemma {:induction false} ReadRender(vs: seq<nat>, layout: Layout)
    requires Fits(vs, layout)
    ensures ReadLayout(Render(vs, layout), layout) == Some(vs)
    decreases |vs|
  {
    if |vs| > 0 {
      assert Fits(vs[1..], layout[1..]) by {
        forall i | 0 <= i < |vs[1..]|
          ensures 1 <= layout[1..][i].0 && vs[1..][i] < Pow10(layout[1..][i].0)
        {
          assert vs[1..][i] == vs[i + 1] && layout[1..][i] == layout[i + 1];
        }
      }
      ReadRender(vs[1..], layout[1..]);
      ReadFieldOfField(vs[0], layout[0].0, layout[0].1, Render(vs[1..], layout[1..]));
      assert [vs[0]] + vs[1..] == vs;
    }
  }

  /** Whatever reads successfully is the rendering of what it read. */
  lemma {:induction false} RenderRead(s: string, layout: Layout)
    requires forall i :: 0 <= i < |layout| ==> layout[i].0 >= 1
    requires ReadLayout(s, layout).Some?
    ensures Fits(ReadLayout(s, layout).value, layout)
    ensures Render(ReadLayout(s, layout).value, layout) == s
    decreases |layout|
  {
    if |layout| > 0 {
      FieldOfReadField(s, layout[0].0, layout[0].1);
      var (n, rest) := ReadField(s, layout[0].0, layout[0].1).value;
      assert forall i :: 0 <= i < |layout[1..]| ==> layout[1..][i].0 >= 1 by {
        forall i | 0 <= i < |layout[1..]| ensures layout[1..][i].0 >= 1 {
          assert layout[1..][i] == layout[i + 1];
        }
      }
      RenderRead(rest, layout[1..]);
      var ns := ReadLayout(rest, layout[1..]).value;
      var vs := [n] + ns;
      assert vs[1..] == ns;
      assert Fits(vs, layout) by {
        forall i | 0 <= i < |vs| ensures 1 <= layout[i].0 && vs[i] < Pow10(layout[i].0) {
          if i > 0 {
            assert vs[i] == ns[i - 1] && layout[i] == layout[1..][i - 1];
          }
        }
      }
    }
  }

  // ---- the ISO layout -------------------------------------------------------

  /** `YYYY-MM-DDTHH:mm:ss.sssZ` as slots; the trailing `Z` is a literal
      character, not a rendering of an offset. */
  const IsoLayout: Layout := [(4, '-'), (2, '-'), (2, 'T'), (2, ':'), (2, ':'), (2, '.'), (3, 'Z')]

  /** Month to milliseconds, as rendered after the year. */
  function TailValues(t: Time): seq<nat> {
    [t.month, t.day, t.hour, t.minute, t.second, t.nanosecond / 1000000]
  }

  /** Everything after the year: `-MM-DDTHH:mm:ss.sssZ`, milliseconds
      truncated, not rounded. */
  function IsoTail(t: Time): string {
    "-" + Render(TailValues(t), IsoLayout[1..])
  }

  /** Go `appendInt(b, year, 4)`: a minus sign when negative, at least four digits. */
  function GoYear(y: int): string {
    if y < 0 then "-" + Digits(-y, 4) else Digits(y, 4)
  }

  /** `t.Format(ISO_COMPATIBILITY)` of an instant whose fields are UTC.
      Within years 0..9999 it is a fixed 24-character string with its
      separators at fixed positions; past 9999 it still starts with a
      digit. */
  function FormatIso(t: Time): (s: string)
    ensures FourDigitYear(t) ==>
      && |s| == 24
      && s[4] == '-' && s[7] == '-' && s[10] == 'T' && s[13] == ':'
      && s[16] == ':' && s[19] == '.' && s[23] == 'Z'
    ensures t.year > 9999 ==> |s| > 0 && IsDigit(s[0])
  {
    var s := GoYear(t.year) + IsoTail(t);
    if FourDigitYear(t) then
      assert s == Render(IsoValues(t), IsoLayout) by {
        assert IsoValues(t)[1..] == TailValues(t);
        assert IsoLayout[1..] == [(2, '-'), (2, 'T'), (2, ':'), (2, ':'), (2, '.'), (3, 'Z')];
      }
      IsoDateSeparators(IsoValues(t));
      IsoTimeSeparators(IsoValues(t));
      s
    else
      DigitsAreDigits(if t.year < 0 then -t.year else t.year, 4);
      s
  }

  /** JavaScript `toISOString`: four digits within 0..9999, otherwise a
      sign and six digits (the expanded-year form). */
  function JsYear(y: int): string {
    if 0 <= y <= 9999 then Digits(y, 4)
    else if y < 0 then "-" + Digits(-y, 6)
    else "+" + Digits(y, 6)
  }

  /** Within years 0..9999 it is the Go layout exactly; outside them the
      year carries its sign. */
  function ToIsoString(t: Time): (s: string)
    ensures FourDigitYear(t) ==> s == FormatIso(t)
    ensures t.year > 9999 ==> |s| > 0 && s[0] == '+'
    ensures t.year < 0 ==> |s| > 0 && s[0] == '-'
  {
    JsYear(t.year) + IsoTail(t)
  }

  predicate FourDigitYear(t: Time) {
    0 <= t.year <= 9999
  }

  /** All seven fields of a four-digit-year instant. */
  function IsoValues(t: Time): (vs: seq<nat>)
    requires FourDigitYear(t)
    ensures Fits(vs, IsoLayout)
  {
    [t.year] + TailValues(t)
  }

  lemma FormatIsRender(t: Time)
    requires FourDigitYear(t)
    ensures FormatIso(t) == Render(IsoValues(t), IsoLayout)
  {
    var vs := IsoValues(t);
    assert vs[1..] == TailValues(t);
    assert IsoLayout[1..] == [(2, '-'), (2, 'T'), (2, ':'), (2, ':'), (2, '.'), (3, 'Z')];
  }

  lemma {:induction false} RenderLength(vs: seq<nat>, layout: Layout)
    requires Fits(vs, layout)
    ensures |Render(vs, layout)| == TotalWidth(layout)
    decreases |vs|
  {
    if |vs| > 0 {
      assert Fits(vs[1..], layout[1..]) by {
        forall i | 0 <= i < |vs[1..]|
          ensures 1 <= layout[1..][i].0 && vs[1..][i] < Pow10(layout[1..][i].0)
        {
          assert vs[1..][i] == vs[i + 1] && layout[1..][i] == layout[i + 1];
        }
      }
      RenderLength(vs[1..], layout[1..]);
      DigitsLength(vs[0], layout[0].0);
    }
  }

  function TotalWidth(layout: Layout): nat {
    if |layout| == 0 then 0 else layout[0].0 + 1 + TotalWidth(layout[1..])
  }

  /** Where slot `k` starts in a rendering. */
  function Offset(layout: Layout, k: nat): nat
    requires k <= |layout|
  {
    if k == 0 then 0 else layout[0].0 + 1 + Offset(layout[1..], k - 1)
  }

  /** Slot `k`'s separator sits right after its digits. */
  lemma {:induction false} RenderSeparator(vs: seq<nat>, layout: Layout, k: nat)
    requires Fits(vs, layout) && k < |layout|
    ensures Offset(layout, k) + layout[k].0 < |Render(vs, layout)|
    ensures Render(vs, layout)[Offset(layout, k) + layout[k].0] == layout[k].1
    decreases k
  {
    DigitsLength(vs[0], layout[0].0);
    assert Fits(vs[1..], layout[1..]) by {
      forall i | 0 <= i < |vs[1..]|
        ensures 1 <= layout[1..][i].0 && vs[1..][i] < Pow10(layout[1..][i].0)
      {
        assert vs[1..][i] == vs[i + 1] && layout[1..][i] == layout[i + 1];
      }
    }
    if k > 0 {
      RenderSeparator(vs[1..], layout[1..], k - 1);
      assert layout[1..][k - 1] == layout[k];
    }
  }

  /** Any rendering of the ISO layout has 24 characters, the date separators
      at 4, 7 and 10. */
  lemma IsoDateSeparators(vs: seq<nat>)
    requires Fits(vs, IsoLayout)
    ensures var s := Render(vs, IsoLayout);
      |s| == 24 && s[4] == '-' && s[7] == '-' && s[10] == 'T'
  {
    RenderLength(vs, IsoLayout);
    RenderSeparator(vs, IsoLayout, 0);
    RenderSeparator(vs, IsoLayout, 1);
    RenderSeparator(vs, IsoLayout, 2);
  }

  /** ... and the time separators at 13, 16, 19 and 23. */
  lemma IsoTimeSeparators(vs: seq<nat>)
    requires Fits(vs, IsoLayout)
    ensures var s := Render(vs, IsoLayout);
      |s| == 24 && s[13] == ':' && s[16] == ':' && s[19] == '.' && s[23] == 'Z'
  {
    RenderLength(vs, IsoLayout);
    RenderSeparator(vs, IsoLayout, 3);
    RenderSeparator(vs, IsoLayout, 4);
    RenderSeparator(vs, IsoLayout, 5);
    RenderSeparator(vs, IsoLayout, 6);
  }

  /** No rendering of a newline-free layout holds a newline. */
  lemma {:induction false} RenderHasNoNewline(vs: seq<nat>, layout: Layout, i: int)
    requires |vs| == |layout| && 0 <= i < |Render(vs, layout)|
    requires forall k :: 0 <= k < |layout| ==> layout[k].1 != '\n'
    ensures Render(vs, layout)[i] != '\n'
    decreases |vs|
  {
    var head := Field(vs[0], layout[0].0, layout[0].1);
    DigitsAreDigits(vs[0], layout[0].0);
    if i >= |head| {
      assert forall k :: 0 <= k < |layout[1..]| ==> layout[1..][k].1 != '\n' by {
        forall k | 0 <= k < |layout[1..]| ensures layout[1..][k].1 != '\n' {
          assert layout[1..][k] == layout[k + 1];
        }
      }
      RenderHasNoNewline(vs[1..], layout[1..], i - |head|);
    } else if i < |head| - 1 {
      assert head[i] == Digits(vs[0], layout[0].0)[i];
    }
  }

  /** Within years 0..9999 the Go layout holds no newline, so it can sit in
      a newline-delimited message. */
  lemma FormatIsoNoNewline(t: Time)
    requires FourDigitYear(t)
    ensures '\n' !in FormatIso(t)
  {
    FormatIsRender(t);
    forall i | 0 <= i < |FormatIso(t)| ensures FormatIso(t)[i] != '\n' {
      RenderHasNoNewline(IsoValues(t), IsoLayout, i);
    }
  }

  /** Within years 0..9999 the Go layout and `toISOString` agree exactly. */
  lemma GoMatchesJs(t: Time)
    requires FourDigitYear(t)
    ensures FormatIso(t) == ToIsoString(t)
  {
  }

  /** Past year 9999 they part ways: Go prints the year's digits, JavaScript
      a `+` and six digits. */
  lemma GoDiffersFromJsAfter9999(t: Time)
    requires t.year > 9999
    ensures IsDigit(FormatIso(t)[0]) && ToIsoString(t)[0] == '+'
    ensures FormatIso(t) != ToIsoString(t)
  {
  }

  /** The instant a read of the layout denotes, if its fields are in range. */
  function TimeOf(vs: seq<nat>): Option<Time>
    requires Fits(vs, IsoLayout)
  {
    var t := CivilTime(vs[0], vs[1], vs[2], vs[3], vs[4], vs[5], vs[6] * 1000000);
    if Valid(t) then Some(t) else None
  }

  /** Reads back the 24-character layout; `None` for anything else or for
      out-of-range fields (a thirteenth month, a 30th of February). */
  function ParseIso(s: string): (r: Option<Time>)
  {
    match ReadLayout(s, IsoLayout)
    case None => None
    case Some(vs) =>
      RenderRead(s, IsoLayout);
      TimeOf(vs)
  }

  /** Formatting then parsing recovers the instant to the millisecond. */
  lemma FormatThenParse(t: Time)
    requires FourDigitYear(t)
    ensures ParseIso(FormatIso(t)) == Some(TruncMillis(t))
  {
    FormatIsRender(t);
    ReadRender(IsoValues(t), IsoLayout);
  }

  /** The instant read from a layout gives back the values it was read from. */
  lemma ValuesOfTimeOf(vs: seq<nat>)
    requires Fits(vs, IsoLayout) && TimeOf(vs).Some?
    ensures FourDigitYear(TimeOf(vs).value)
    ensures TimeOf(vs).value.nanosecond % 1000000 == 0
    ensures IsoValues(TimeOf(vs).value) == vs
  {
    var t := TimeOf(vs).value;
    assert vs[0] < Pow10(4) == 10000;
    assert t.nanosecond / 1000000 == vs[6];
    assert IsoValues(t) == [vs[0], vs[1], vs[2], vs[3], vs[4], vs[5], vs[6]];
  }

  /** Every string the parser accepts is exactly the rendering of its result,
      which has a four-digit year and whole milliseconds. */
  lemma ParseThenFormat(s: string)
    requires ParseIso(s).Some?
    ensures FourDigitYear(ParseIso(s).value)
    ensures ParseIso(s).value.nanosecond % 1000000 == 0
    ensures FormatIso(ParseIso(s).value) == s
  {
    RenderRead(s, IsoLayout);
    var vs := ReadLayout(s, IsoLayout).value;
    ValuesOfTimeOf(vs);
    FormatIsRender(TimeOf(vs).value);
  }

  /** Only whole milliseconds reach the rendering. */
  lemma FormatIgnoresSubMillis(t: Time)
    ensures FormatIso(TruncMillis(t)) == FormatIso(t)
  {
    assert TailValues(TruncMillis(t)) == TailValues(t);
  }

  /** Two instants render alike exactly when they agree to the millisecond. */
  lemma FormatIsoInjective(t: Time, u: Time)
    requires FourDigitYear(t) && FourDigitYear(u)
    ensures FormatIso(t) == FormatIso(u) <==> TruncMillis(t) == TruncMillis(u)
  {
    if FormatIso(t) == FormatIso(u) {
      FormatThenParse(t);
      FormatThenParse(u);
    }
    if TruncMillis(t) == TruncMillis(u) {
      FormatIgnoresSubMillis(t);
      FormatIgnoresSubMillis(u);
    }
  }

  const ReferenceDate: string := "2025-05-25T13:24:56.789Z"
  const ReferenceTime: Time := CivilTime(2025, 5, 25, 13, 24, 56, 789000000)

  lemma RenderCons(v: nat, vs: seq<nat>, w: nat, sep: char, l: Layout)
    requires |vs| == |l|
    ensures Render([v] + vs, [(w, sep)] + l) == Field(v, w, sep) + Render(vs, l)
  {
    assert ([v] + vs)[1..] == vs;
    assert ([(w, sep)] + l)[1..] == l;
  }

  /** Rendering a list of values, one field after another. */
  lemma {:induction false} RenderFields(vs: seq<nat>, layout: Layout, k: nat)
    requires |vs| == |layout| && k <= |vs|
    ensures Render(vs, layout) == Render(vs[..k], layout[..k]) + Render(vs[k..], layout[k..])
    decreases k
  {
    if k > 0 {
      RenderFields(vs[1..], layout[1..], k - 1);
      assert vs[1..][..k - 1] == vs[..k][1..] && vs[1..][k - 1..] == vs[k..];
      assert layout[1..][..k - 1] == layout[..k][1..] && layout[1..][k - 1..] == layout[k..];
    }
  }

  /** A single field renders as its digits and separator. */
  lemma RenderOne(v: nat, slot: (nat, char))
    ensures Render([v], [slot]) == Field(v, slot.0, slot.1)
  {
  }

  /** The tail as its six fields, for any instant. */
  lemma IsoTailFields(t: Time)
    ensures IsoTail(t) == "-" + (Field(t.month, 2, '-') + (Field(t.day, 2, 'T') + (Field(t.hour, 2, ':')
      + (Field(t.minute, 2, ':') + (Field(t.second, 2, '.') + Field(t.nanosecond / 1000000, 3, 'Z'))))))
  {
    var vs := TailValues(t);
    var l: Layout := IsoLayout[1..];
    assert l == [(2, '-'), (2, 'T'), (2, ':'), (2, ':'), (2, '.'), (3, 'Z')];
    RenderFields(vs, l, 1);
    RenderFields(vs[1..], l[1..], 1);
    RenderFields(vs[2..], l[2..], 1);
    RenderFields(vs[3..], l[3..], 1);
    RenderFields(vs[4..], l[4..], 1);
    assert vs[4..][1..] == vs[5..] && l[4..][1..] == l[5..];
    assert vs[3..][1..] == vs[4..] && l[3..][1..] == l[4..];
    assert vs[2..][1..] == vs[3..] && l[2..][1..] == l[3..];
    assert vs[1..][1..] == vs[2..] && l[1..][1..] == l[2..];
    RenderOne(vs[0], l[0]);
    RenderOne(vs[1], l[1]);
    RenderOne(vs[2], l[2]);
    RenderOne(vs[3], l[3]);
    RenderOne(vs[4], l[4]);
    RenderOne(vs[5], l[5]);
    assert vs[..1] == [vs[0]] && l[..1] == [l[0]];
    assert vs[1..][..1] == [vs[1]] && l[1..][..1] == [l[1]];
    assert vs[2..][..1] == [vs[2]] && l[2..][..1] == [l[2]];
    assert vs[3..][..1] == [vs[3]] && l[3..][..1] == [l[3]];
    assert vs[4..][..1] == [vs[4]] && l[4..][..1] == [l[4]];
    assert vs[5..] == [vs[5]] && l[5..] == [l[5]];
  }

  lemma TwoDigits(n: nat)
    requires n < 100
    ensures Digits(n, 2) == [DigitChar(n / 10), DigitChar(n % 10)]
  {
    assert Digits(n / 10, 1) == [DigitChar(n / 10)];
  }

  lemma ThreeDigits(n: nat)
    requires n < 1000
    ensures Digits(n, 3) == [DigitChar(n / 100), DigitChar(n / 10 % 10), DigitChar(n % 10)]
  {
    TwoDigits(n / 10);
  }

  /** The tail for any spelling of its six fields. */
  lemma IsoTailSpelled(t: Time, mo: string, d: string, h: string, mi: string, se: string, ms: string)
    requires Field(t.month, 2, '-') == mo && Field(t.day, 2, 'T') == d && Field(t.hour, 2, ':') == h
    requires Field(t.minute, 2, ':') == mi && Field(t.second, 2, '.') == se
    requires Field(t.nanosecond / 1000000, 3, 'Z') == ms
    ensures IsoTail(t) == "-" + (mo + (d + (h + (mi + (se + ms)))))
  {
    IsoTailFields(t);
  }

  /** The six fields of the reference instant. */
  lemma ReferenceFields()
    ensures var t := ReferenceTime;
      && Field(t.month, 2, '-') == "05-" && Field(t.day, 2, 'T') == "25T" && Field(t.hour, 2, ':') == "13:"
      && Field(t.minute, 2, ':') == "24:" && Field(t.second, 2, '.') == "56."
      && Field(t.nanosecond / 1000000, 3, 'Z') == "789Z"
  {
    TwoDigits(5);
    TwoDigits(25);
    TwoDigits(13);
    TwoDigits(24);
    TwoDigits(56);
    ThreeDigits(789);
  }

  lemma ReferenceTail()
    ensures IsoTail(ReferenceTime) == "-05-25T13:24:56.789Z"
  {
    ReferenceFields();
    IsoTailSpelled(ReferenceTime, "05-", "25T", "13:", "24:", "56.", "789Z");
  }

  lemma ReferenceYear()
    ensures GoYear(ReferenceTime.year) == "2025"
  {
    assert Digits(2, 1) == "2";
    assert Digits(20, 2) == "20";
    assert Digits(202, 3) == "202";
  }

  lemma ReferenceFormat()
    ensures FormatIso(ReferenceTime) == ReferenceDate
  {
    ReferenceYear();
    ReferenceTail();
  }

  /** A whole-millisecond instant is what its rendering parses to. */
  lemma ParseOfFormat(t: Time, s: string)
    requires FourDigitYear(t) && t.nanosecond % 1000000 == 0
    requires s == FormatIso(t)
    ensures ParseIso(s) == Some(t)
  {
    FormatThenParse(t);
  }

  lemma ReferenceParse()
    ensures ParseIso(ReferenceDate) == Some(ReferenceTime)
  {
    ReferenceFormat();
    ParseOfFormat(ReferenceTime, ReferenceDate);
  }

  /** The reference instant parses from its string and formats back to it. */
  lemma ReferenceDateRoundTrip()
    ensures ParseIso(ReferenceDate) == Some(ReferenceTime)
    ensures FormatIso(ReferenceTime) == ReferenceDate
  {
    ReferenceParse();
    ReferenceFormat();
  }
}
