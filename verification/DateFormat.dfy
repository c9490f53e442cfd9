/** DateTime::parseFormat and the bounded buffer helpers it writes with. */
module DateFormat {
  import opened Options
  import opened Decimals

  const SIZE_T := 0x1_0000_0000_0000_0000

  /** An int passed where a size_t is expected. */
  function SizeT(n: int): nat {
    n % SIZE_T
  }

  // ------------------------------------------------------------------ bounded writing

  const LAST := 8 // the terminator's index in the ten-character scratch buffer

  function Min(a: int, b: int): int {
    if a <= b then a else b
  }

  /** What convertAndAddToBuff writes for n with zero padding, before cutting off at the limit. */
  function Text(n: nat, len: int): string {
    if len <= 0 then (if n == 0 then "0" else "") else Padded(n, Min(len, LAST))
  }

  /**
    * `after` is `before` with str written at pos, cut off at lim; the write ends at `end`.  The
    * character at `end` itself is kept or, below the limit, overwritten by a terminator.
    */
  ghost predicate Appended(str: string, before: string, after: string, pos: nat, lim: nat, end: nat) {
    && |after| == |before|
    && pos <= lim <= |before|
    && end == Min(lim, pos + |str|)
    && after[..end] == before[..pos] + str[..end - pos]
    && (forall j :: end < j < |before| || lim <= j < |before| ==> after[j] == before[j])
    && (end < lim ==> after[end] == before[end] || after[end] == '\0')
  }

  lemma AppendedTwice(s: string, t: string, b0: string, b1: string, b2: string,
                      pos: nat, lim: nat, mid: nat, end: nat)
    requires Appended(s, b0, b1, pos, lim, mid)
    requires Appended(t, b1, b2, mid, lim, end)
    ensures Appended(s + t, b0, b2, pos, lim, end)
  {
    assert (s + t)[..end - pos] == s[..mid - pos] + t[..end - mid];
  }

  method AddToBuff(str: string, buf: array<char>, pos: nat, lim: nat) returns (end: nat)
    requires '\0' !in str
    requires pos <= lim <= buf.Length
    modifies buf
    ensures Appended(str, old(buf[..]), buf[..], pos, lim, end)
    ensures end < lim ==> buf[end] == '\0'
  {
    var i := 0;
    end := pos;
    while end < lim
      invariant end == pos + i && i <= |str| && end <= lim
      invariant buf[..end] == old(buf[..pos]) + str[..i]
      invariant forall j :: end <= j < buf.Length ==> buf[j] == old(buf[j])
    {
      buf[end] := if i < |str| then str[i] else '\0';
      if buf[end] == '\0' {
        break;
      }
      i := i + 1;
      end := end + 1;
    }
  }

  /** The digits produced so far, from the right, with n still to be written. */
  ghost predicate Partial(number: nat, width: int, n: nat, digits: string) {
    && '\0' !in digits
    && |digits| <= LAST
    && if width <= 0 then n == number && digits == Text(number, width) else
         |digits| <= width && Padded(number, Min(width, LAST)) == Padded(n, Min(width, LAST) - |digits|) + digits
  }

  lemma OneMoreDigit(number: nat, width: int, n: nat, digits: string)
    requires Partial(number, width, n, digits)
    requires |digits| < width && |digits| < LAST
    ensures Partial(number, width, n / 10, [Digit(n % 10)] + digits)
  {
    var left := Min(width, LAST) - |digits|;
    assert Padded(n, left) + digits == Padded(n / 10, left - 1) + ([Digit(n % 10)] + digits);
  }

  lemma ZeroIsPartial(width: int)
    ensures Partial(0, width, 0, "0")
  {
    if width > 0 {
      OneMoreDigit(0, width, 0, "");
      assert ['0'] + "" == "0";
    }
  }

  lemma NothingIsPartial(number: nat, width: int)
    requires number > 0
    ensures Partial(number, width, number, "")
  {
    if width > 0 {
      assert Padded(number, Min(width, LAST)) + "" == Padded(number, Min(width, LAST));
    }
  }

  lemma FullIsText(number: nat, width: int, n: nat, digits: string)
    requires Partial(number, width, n, digits) && (|digits| == LAST || |digits| >= width)
    ensures '\0' !in digits && digits == Text(number, width)
  {
    if width > 0 {
      assert Padded(n, 0) + digits == digits;
    }
  }

  method ConvertAndAddToBuff(number: nat, width: int, buf: array<char>, pos: nat, lim: nat) returns (end: nat)
    requires pos <= lim <= buf.Length
    modifies buf
    ensures Appended(Text(number, width), old(buf[..]), buf[..], pos, lim, end)
    ensures end < lim ==> buf[end] == '\0'
  {
    var digits := DigitsOf(number, width);
    end := AddToBuff(digits, buf, pos, lim);
  }

  /** The digit loops of convertAndAddToBuff, which fill its scratch buffer from the right. */
  method DigitsOf(number: nat, width: int) returns (digits: string)
    ensures '\0' !in digits && digits == Text(number, width)
  {
    hide Partial, Padded, Text;
    var local := new char[LAST + 2];
    var n: nat, len: int, p: nat := number, width, LAST;
    if n > 0 {
      NothingIsPartial(number, width);
      assert local[p..LAST] == "";
      while n > 0 && p > 0 && len > 0
        invariant 0 <= p <= LAST && len == width - (LAST - p)
        invariant Partial(number, width, n, local[p..LAST])
        decreases n
      {
        OneMoreDigit(number, width, n, local[p..LAST]);
        p := p - 1;
        local[p] := Digit(n % 10);
        assert local[p..LAST] == [Digit(n % 10)] + local[p + 1..LAST];
        n := n / 10;
        len := len - 1;
      }
    } else {
      p := p - 1;
      local[p] := '0';
      len := len - 1;
      ZeroIsPartial(width);
      assert local[p..LAST] == "0";
    }
    while p > 0 && len > 0
      invariant 0 <= p <= LAST && len == width - (LAST - p)
      invariant Partial(number, width, n, local[p..LAST])
      invariant n == 0 || len <= 0 || p == 0
    {
      OneMoreDigit(number, width, n, local[p..LAST]);
      len := len - 1;
      p := p - 1;
      local[p] := '0';
      assert local[p..LAST] == ['0'] + local[p + 1..LAST];
    }
    digits := local[p..LAST];
    FullIsText(number, width, n, digits);
  }

  // ------------------------------------------------------------------ formats

  /** The broken-down time (struct tm) as far as formats use it. */
  datatype Tm = Tm(sec: int, min: int, hour: int, mday: int, mon: int, year: int, wday: int)

  predicate Indexable(tm: Tm) {
    0 <= tm.wday < 7 && 0 <= tm.mon < 12
  }

  const YEAR_BASE := 1900
  const DAYS := ["Sunday", "Monday", "Tuesday", "Wednesday", "Thursday", "Friday", "Saturday"]
  const DAYS_ABBREV := ["Sun", "Mon", "Tue", "Wed", "Thu", "Fri", "Sat"]
  const MONTHS := ["January", "February", "March", "April", "May", "June", "July", "August",
                   "September", "October", "November", "December"]
  const MONTHS_ABBREV := ["Jan", "Feb", "Mar", "Apr", "May", "Jun", "Jul", "Aug", "Sep", "Oct", "Nov", "Dec"]

  /** C's remainder, which takes the sign of the dividend. */
  function Rem(a: int, b: int): int
    requires b > 0
  {
    if a >= 0 then a % b else -(-a % b)
  }

  /** What the specifier after a '%' stands for; unknown ones stand for nothing. */
  function Field(c: char, tm: Tm, msec: nat, width: int): string
    requires Indexable(tm)
  {
    match c
    case 'd' => Text(SizeT(tm.mday), 2)
    case 'a' => DAYS_ABBREV[tm.wday]
    case 'A' => DAYS[tm.wday]
    case 'M' => Text(SizeT(tm.mon + 1), 2)
    case 'b' => MONTHS_ABBREV[tm.mon]
    case 'B' => MONTHS[tm.mon]
    case 'y' => Text(SizeT(tm.year + YEAR_BASE), 2)
    case 'Y' => Text(SizeT(tm.year + YEAR_BASE), 4)
    case 'h' => Text(SizeT(Rem(tm.hour, 12)), 2)
    case 'H' => Text(SizeT(tm.hour), 2)
    case 'm' => Text(SizeT(tm.min), 2)
    case 's' => Text(SizeT(tm.sec), 2)
    case 'z' => Text(msec, width)
    case 'g' => Text(msec, width)
    case 'F' => if tm.hour >= 12 then "PM" else "AM"
    case _ => ""
  }

  /** The unbounded expansion of a format. */
  function Expand(format: string, tm: Tm, msec: nat, width: int): string
    requires Indexable(tm)
  {
    if format == "" then ""
    else if format[0] != '%' then [format[0]] + Expand(format[1..], tm, msec, width)
    else if |format| == 1 then "%"
    else if format[1] == '%' then "%" + Expand(format[2..], tm, msec, width)
    else Field(format[1], tm, msec, width) + Expand(format[2..], tm, msec, width)
  }

  method AddField(c: char, tm: Tm, msec: nat, width: int, buf: array<char>, pos: nat, lim: nat) returns (end: nat)
    requires Indexable(tm)
    requires pos <= lim <= buf.Length
    modifies buf
    ensures Appended(Field(c, tm, msec, width), old(buf[..]), buf[..], pos, lim, end)
  {
    match c
    case 'd' => end := ConvertAndAddToBuff(SizeT(tm.mday), 2, buf, pos, lim);
    case 'a' => end := AddToBuff(DAYS_ABBREV[tm.wday], buf, pos, lim);
    case 'A' => end := AddToBuff(DAYS[tm.wday], buf, pos, lim);
    case 'M' => end := ConvertAndAddToBuff(SizeT(tm.mon + 1), 2, buf, pos, lim);
    case 'b' => end := AddToBuff(MONTHS_ABBREV[tm.mon], buf, pos, lim);
    case 'B' => end := AddToBuff(MONTHS[tm.mon], buf, pos, lim);
    case 'y' => end := ConvertAndAddToBuff(SizeT(tm.year + YEAR_BASE), 2, buf, pos, lim);
    case 'Y' => end := ConvertAndAddToBuff(SizeT(tm.year + YEAR_BASE), 4, buf, pos, lim);
    case 'h' => end := ConvertAndAddToBuff(SizeT(Rem(tm.hour, 12)), 2, buf, pos, lim);
    case 'H' => end := ConvertAndAddToBuff(SizeT(tm.hour), 2, buf, pos, lim);
    case 'm' => end := ConvertAndAddToBuff(SizeT(tm.min), 2, buf, pos, lim);
    case 's' => end := ConvertAndAddToBuff(SizeT(tm.sec), 2, buf, pos, lim);
    case 'z' => end := ConvertAndAddToBuff(msec, width, buf, pos, lim);
    case 'g' => end := ConvertAndAddToBuff(msec, width, buf, pos, lim);
    case 'F' => end := AddToBuff(if tm.hour >= 12 then "PM" else "AM", buf, pos, lim);
    case _ => end := pos;
  }

  /** A prefix of the format's expansion that has been written, with `format` still to come. */
  ghost predicate Written(format: string, out: string, whole: string, tm: Tm, msec: nat, width: int)
    requires Indexable(tm)
  {
    out + Expand(format, tm, msec, width) == whole
  }

  lemma LiteralWritten(format: string, out: string, whole: string, tm: Tm, msec: nat, width: int, used: nat)
    requires Indexable(tm) && format != ""
    requires Written(format, out, whole, tm, msec, width)
    requires used == (if |format| > 1 && format[0] == '%' then 2 else 1) && used <= |format|
    requires format[0] == '%' && |format| > 1 ==> format[1] == '%'
    ensures Written(format[used..], out + [format[0]], whole, tm, msec, width)
  {
    assert out + ([format[0]] + Expand(format[used..], tm, msec, width))
        == out + [format[0]] + Expand(format[used..], tm, msec, width);
  }

  lemma FieldWritten(format: string, out: string, whole: string, tm: Tm, msec: nat, width: int)
    requires Indexable(tm) && |format| > 1 && format[0] == '%' != format[1]
    requires Written(format, out, whole, tm, msec, width)
    ensures Written(format[2..], out + Field(format[1], tm, msec, width), whole, tm, msec, width)
  {
    var field := Field(format[1], tm, msec, width);
    assert out + (field + Expand(format[2..], tm, msec, width)) == out + field + Expand(format[2..], tm, msec, width);
  }

  lemma CutOff(out: string, rest: string, before: string, after: string, lim: nat)
    requires Appended(out, before, after, 0, lim, lim)
    ensures Appended(out + rest, before, after, 0, lim, lim)
  {
    assert (out + rest)[..lim] == out[..lim];
  }

  method AddLiteral(c: char, buf: array<char>, pos: nat, lim: nat) returns (end: nat)
    requires pos < lim <= buf.Length
    modifies buf
    ensures Appended([c], old(buf[..]), buf[..], pos, lim, end)
  {
    buf[pos] := c;
    end := pos + 1;
  }

  /** Writes the first bufSz characters of the format's expansion, or all of it when shorter. */
  method ParseFormat(buf: array<char>, bufSz: nat, format: string, tm: Tm, msec: nat, width: int) returns (end: nat)
    requires bufSz <= buf.Length
    requires '\0' !in format
    requires Indexable(tm)
    modifies buf
    ensures Appended(Expand(format, tm, msec, width), old(buf[..]), buf[..], 0, bufSz, end)
  {
    end := 0;
    var at := 0;
    ghost var whole, out := Expand(format, tm, msec, width), "";
    while at < |format|
      invariant at <= |format|
      invariant Written(format[at..], out, whole, tm, msec, width)
      invariant Appended(out, old(buf[..]), buf[..], 0, bufSz, end)
    {
      ghost var rest, before, mid := format[at..], buf[..], end;
      if format[at] == '%' {
        at := at + 1;
        if at == |format| {
          at := at - 1;
        } else if format[at] != '%' {
          end := AddField(format[at], tm, msec, width, buf, end, bufSz);
          FieldWritten(rest, out, whole, tm, msec, width);
          AppendedTwice(out, Field(format[at], tm, msec, width), old(buf[..]), before, buf[..], 0, bufSz, mid, end);
          out := out + Field(format[at], tm, msec, width);
          at := at + 1;
          continue;
        }
      }
      if end == bufSz {
        CutOff(out, Expand(rest, tm, msec, width), old(buf[..]), buf[..], bufSz);
        return;
      }
      end := AddLiteral(format[at], buf, end, bufSz);
      LiteralWritten(rest, out, whole, tm, msec, width, if |rest| > 1 && rest[0] == '%' then 2 else 1);
      AppendedTwice(out, [format[at]], old(buf[..]), before, buf[..], 0, bufSz, mid, end);
      out := out + [format[at]];
      at := at + 1;
    }
    assert whole == out + "" == out;
  }

  // ------------------------------------------------------------------ the caller's buffer

  lemma TextHasNoTerminator(n: nat, width: int)
    ensures '\0' !in Text(n, width)
  {
    if width > 0 {
      PaddedIsDecimal(n, Min(width, LAST));
    }
  }

  lemma NamesHaveNoTerminator(tm: Tm)
    requires Indexable(tm)
    ensures '\0' !in DAYS[tm.wday] && '\0' !in DAYS_ABBREV[tm.wday]
    ensures '\0' !in MONTHS[tm.mon] && '\0' !in MONTHS_ABBREV[tm.mon]
  {
  }

  lemma FieldHasNoTerminator(c: char, tm: Tm, msec: nat, width: int)
    requires Indexable(tm)
    ensures '\0' !in Field(c, tm, msec, width)
  {
    NamesHaveNoTerminator(tm);
    hide Text;
    match c
    case 'd' => TextHasNoTerminator(SizeT(tm.mday), 2);
    case 'M' => TextHasNoTerminator(SizeT(tm.mon + 1), 2);
    case 'y' => TextHasNoTerminator(SizeT(tm.year + YEAR_BASE), 2);
    case 'Y' => TextHasNoTerminator(SizeT(tm.year + YEAR_BASE), 4);
    case 'h' => TextHasNoTerminator(SizeT(Rem(tm.hour, 12)), 2);
    case 'H' => TextHasNoTerminator(SizeT(tm.hour), 2);
    case 'm' => TextHasNoTerminator(SizeT(tm.min), 2);
    case 's' => TextHasNoTerminator(SizeT(tm.sec), 2);
    case 'z' => TextHasNoTerminator(msec, width);
    case 'g' => TextHasNoTerminator(msec, width);
    case _ =>
  }

  lemma {:induction false} ExpansionHasNoTerminator(format: string, tm: Tm, msec: nat, width: int)
    requires Indexable(tm) && '\0' !in format
    ensures '\0' !in Expand(format, tm, msec, width)
  {
    if format == "" {
    } else if format[0] != '%' {
      ExpansionHasNoTerminator(format[1..], tm, msec, width);
    } else if |format| > 1 {
      ExpansionHasNoTerminator(format[2..], tm, msec, width);
      FieldHasNoTerminator(format[1], tm, msec, width);
    }
  }

  /** The string in a buffer up to its first terminator, if it has one. */
  function CString(buf: string): Option<string> {
    if buf == "" then None
    else if buf[0] == '\0' then Some("")
    else match CString(buf[1..])
      case None => None
      case Some(s) => Some([buf[0]] + s)
  }

  lemma {:induction false} CStringIs(buf: string, s: string)
    requires '\0' !in s && s <= buf
    ensures |s| < |buf| && buf[|s|] == '\0' ==> CString(buf) == Some(s)
    ensures |s| == |buf| ==> CString(buf) == None
  {
    if s != "" {
      CStringIs(buf[1..], s[1..]);
      assert s == [s[0]] + s[1..];
    }
  }

  const BUFFER_SIZE := 30

  lemma BufferHolds(s: string, zeros: string, text: string, end: nat)
    requires Appended(s, zeros, text, 0, |zeros|, end) && '\0' !in s && forall c <- zeros :: c == '\0'
    ensures CString(text) == if |s| < |zeros| then Some(s) else None
  {
    assert text[..end] == s[..end];
    CStringIs(text, s[..end]);
    if end < |zeros| {
      assert zeros[end] in zeros;
      assert s[..end] == s;
    }
  }

  /**
    * timevalToString up to the construction of the string from its buffer: the buffer holds the
    * expansion as a terminated string if and only if the expansion is shorter than the buffer; else
    * it holds no terminator at all.
    */
  method TimevalToBuffer(format: string, tm: Tm, msec: nat, width: int) returns (text: string)
    requires '\0' !in format && Indexable(tm)
    ensures |text| == BUFFER_SIZE
    ensures var expansion := Expand(format, tm, msec, width);
            CString(text) == if |expansion| < BUFFER_SIZE then Some(expansion) else None
  {
    hide Appended;
    var buff := new char[BUFFER_SIZE](_ => '\0');
    ghost var zeros := buff[..];
    var end := ParseFormat(buff, BUFFER_SIZE, format, tm, msec, width);
    text := buff[..];
    ExpansionHasNoTerminator(format, tm, msec, width);
    BufferHolds(Expand(format, tm, msec, width), zeros, text, end);
  }

  // ------------------------------------------------------------------ what expansions mean

  /** The format does not end between a '%' and its specifier. */
  predicate Complete(format: string) {
    if format == "" then true
    else if format[0] != '%' then Complete(format[1..])
    else |format| > 1 && Complete(format[2..])
  }

  lemma {:induction false} ExpandConcat(f: string, g: string, tm: Tm, msec: nat, width: int)
    requires Indexable(tm) && Complete(f)
    ensures Expand(f + g, tm, msec, width) == Expand(f, tm, msec, width) + Expand(g, tm, msec, width)
  {
    if f == "" {
      assert f + g == g;
    } else {
      var used := if f[0] == '%' then 2 else 1;
      assert (f + g)[used..] == f[used..] + g;
      ExpandConcat(f[used..], g, tm, msec, width);
    }
  }

  function Escaped(s: string): string {
    if s == "" then "" else (if s[0] == '%' then "%%" else [s[0]]) + Escaped(s[1..])
  }

  /** Doubling every '%' makes a format that expands to the text itself. */
  lemma {:induction false} EscapedExpandsToItself(s: string, tm: Tm, msec: nat, width: int)
    requires Indexable(tm)
    ensures Complete(Escaped(s)) && Expand(Escaped(s), tm, msec, width) == s
  {
    if s != "" {
      EscapedExpandsToItself(s[1..], tm, msec, width);
      var e := Escaped(s);
      assert e[if s[0] == '%' then 2 else 1..] == Escaped(s[1..]);
    }
  }

  /** A field of any positive width shows that many decimal digits, but never more than eight. */
  lemma TextIsDecimal(n: nat, width: int)
    requires width > 0
    ensures var len := Min(width, LAST);
            |Text(n, width)| == len && Pow10(len) > 0 && ValueOf(Text(n, width)) == n % Pow10(len)
    ensures forall c <- Text(n, width) :: '0' <= c <= '9'
  {
    PaddedIsDecimal(n, Min(width, LAST));
  }

  lemma HundredIsSquare()
    ensures Pow10(2) == 100
  {
    assert Pow10(1) == 10 * Pow10(0);
  }

  /** Two-digit fields show times and days that fit, and wrap the year to its last two digits. */
  lemma TwoDigitsRead(n: int)
    requires 0 <= n < SIZE_T
    ensures |Text(SizeT(n), 2)| == 2 && ValueOf(Text(SizeT(n), 2)) == n % 100
  {
    HundredIsSquare();
    PaddedIsDecimal(n, 2);
  }

  /** A text that timevalToString's buffer is too short for. */
  lemma SomeTextsDoNotFit(tm: Tm, msec: nat, width: int)
    requires Indexable(tm)
    ensures |Expand(Escaped("on the thirty-first of December"), tm, msec, width)| > BUFFER_SIZE
  {
    EscapedExpandsToItself("on the thirty-first of December", tm, msec, width);
  }

  // ------------------------------------------------------------------ what the specifiers mean

  lemma OneSpecifier(c: char, tm: Tm, msec: nat, width: int)
    requires Indexable(tm) && c != '%'
    ensures Expand(['%', c], tm, msec, width) == Field(c, tm, msec, width)
  {
    assert ['%', c][2..] == "";
    assert Field(c, tm, msec, width) + "" == Field(c, tm, msec, width);
  }

  /** A two-digit specifier, given what it stands for, reads as that number modulo a hundred. */
  lemma TwoDigitSpecifier(c: char, n: nat, tm: Tm, msec: nat, width: int)
    requires Indexable(tm) && c != '%' && Field(c, tm, msec, width) == Text(n, 2)
    ensures var text := Expand(['%', c], tm, msec, width);
            |text| == 2 && ValueOf(text) == n % 100
  {
    OneSpecifier(c, tm, msec, width);
    TwoDigits(n);
  }

  /** The date's numeric specifiers, read back: day, month from one, and the year in two and four digits. */
  lemma DatesRead(tm: Tm, msec: nat, width: int)
    requires Indexable(tm)
    ensures ValueOf(Expand("%d", tm, msec, width)) == SizeT(tm.mday) % 100
    ensures ValueOf(Expand("%M", tm, msec, width)) == tm.mon + 1
    ensures ValueOf(Expand("%y", tm, msec, width)) == SizeT(tm.year + 1900) % 100
    ensures ValueOf(Expand("%Y", tm, msec, width)) == SizeT(tm.year + 1900) % 10000
  {
    hide Text, Expand, ValueOf;
    TwoDigitSpecifier('d', SizeT(tm.mday), tm, msec, width);
    TwoDigitSpecifier('M', SizeT(tm.mon + 1), tm, msec, width);
    TwoDigitSpecifier('y', SizeT(tm.year + YEAR_BASE), tm, msec, width);
    OneSpecifier('Y', tm, msec, width);
    FourDigits(SizeT(tm.year + YEAR_BASE));
  }

  /** The time's: hour in twenty-four and in twelve, minute, and second. */
  lemma TimesRead(tm: Tm, msec: nat, width: int)
    requires Indexable(tm)
    ensures ValueOf(Expand("%H", tm, msec, width)) == SizeT(tm.hour) % 100
    ensures tm.hour >= 0 ==> ValueOf(Expand("%h", tm, msec, width)) == tm.hour % 12
    ensures ValueOf(Expand("%m", tm, msec, width)) == SizeT(tm.min) % 100
    ensures ValueOf(Expand("%s", tm, msec, width)) == SizeT(tm.sec) % 100
  {
    hide Text, Expand, ValueOf;
    TwoDigitSpecifier('H', SizeT(tm.hour), tm, msec, width);
    TwoDigitSpecifier('h', SizeT(Rem(tm.hour, 12)), tm, msec, width);
    TwoDigitSpecifier('m', SizeT(tm.min), tm, msec, width);
    TwoDigitSpecifier('s', SizeT(tm.sec), tm, msec, width);
  }

  /** The half of the day, and the subsecond part. */
  lemma RestReads(tm: Tm, msec: nat, width: int)
    requires Indexable(tm)
    ensures Expand("%F", tm, msec, width) == if tm.hour < 12 then "AM" else "PM"
    ensures Expand("%z", tm, msec, width) == Expand("%g", tm, msec, width)
    ensures 0 < width <= 8 ==>
              && |Expand("%g", tm, msec, width)| == width && Pow10(width) > 0
              && ValueOf(Expand("%g", tm, msec, width)) == msec % Pow10(width)
  {
    hide Text, Expand, ValueOf;
    OneSpecifier('F', tm, msec, width);
    OneSpecifier('z', tm, msec, width);
    OneSpecifier('g', tm, msec, width);
    if width > 0 {
      TextIsDecimal(msec, width);
    }
  }

  lemma TwoDigits(n: nat)
    ensures |Text(n, 2)| == 2 && ValueOf(Text(n, 2)) == n % 100
  {
    HundredIsSquare();
    PaddedIsDecimal(n, 2);
  }

  lemma FourDigits(n: nat)
    ensures |Text(n, 4)| == 4 && ValueOf(Text(n, 4)) == n % 10000
  {
    HundredIsSquare();
    assert Pow10(3) == 10 * Pow10(2);
    assert Pow10(4) == 10 * Pow10(3);
    PaddedIsDecimal(n, 4);
  }

  /** The name specifiers: the three letters at the index's place in the calendar's order, and a full name
      that they abbreviate. */
  lemma NamesRead(tm: Tm, msec: nat, width: int)
    requires Indexable(tm)
    ensures Expand("%a", tm, msec, width) == "SunMonTueWedThuFriSat"[3 * tm.wday..3 * tm.wday + 3]
    ensures tm.mon < 6 ==> Expand("%b", tm, msec, width) == "JanFebMarAprMayJun"[3 * tm.mon..3 * tm.mon + 3]
    ensures tm.mon >= 6 ==> Expand("%b", tm, msec, width) == "JulAugSepOctNovDec"[3 * tm.mon - 18..3 * tm.mon - 15]
    ensures Expand("%a", tm, msec, width) <= Expand("%A", tm, msec, width)
    ensures Expand("%b", tm, msec, width) <= Expand("%B", tm, msec, width)
  {
    OneSpecifier('a', tm, msec, width);
    OneSpecifier('A', tm, msec, width);
    OneSpecifier('b', tm, msec, width);
    OneSpecifier('B', tm, msec, width);
    DayNames(tm.wday);
    if tm.mon < 6 {
      FirstHalf(tm.mon);
    } else {
      SecondHalf(tm.mon);
    }
  }

  lemma DayNames(d: int)
    requires 0 <= d < 7
    ensures DAYS_ABBREV[d] == "SunMonTueWedThuFriSat"[3 * d..3 * d + 3] && DAYS_ABBREV[d] <= DAYS[d]
  {
  }

  lemma FirstHalf(m: int)
    requires 0 <= m < 6
    ensures MONTHS_ABBREV[m] == "JanFebMarAprMayJun"[3 * m..3 * m + 3] && MONTHS_ABBREV[m] <= MONTHS[m]
  {
  }

  lemma SecondHalf(m: int)
    requires 6 <= m < 12
    ensures MONTHS_ABBREV[m] == "JulAugSepOctNovDec"[3 * m - 18..3 * m - 15] && MONTHS_ABBREV[m] <= MONTHS[m]
  {
  }

  /** Anything else after a percent sign stands for nothing, and a percent sign at the end for itself. */
  lemma OtherSpecifiers(c: char, tm: Tm, msec: nat, width: int)
    requires Indexable(tm) && c !in "daAMbByYhHmszgF"
    ensures Expand(['%', c], tm, msec, width) == if c == '%' then "%" else ""
    ensures Expand("%", tm, msec, width) == "%"
  {
    if c != '%' {
      OneSpecifier(c, tm, msec, width);
    } else {
      assert ['%', c][2..] == "";
    }
  }

  const DEFAULT_FORMAT := "%Y-%M-%d %H:%m:%s,%g"

  /** Text before a specifier stays as it is. */
  lemma Separated(c: char, separator: char, rest: string, tm: Tm, msec: nat, width: int)
    requires Indexable(tm) && c != '%' && separator != '%'
    ensures Expand(['%', c, separator] + rest, tm, msec, width) ==
            Field(c, tm, msec, width) + [separator] + Expand(rest, tm, msec, width)
  {
    var format := ['%', c, separator] + rest;
    assert format[2..] == [separator] + rest && ([separator] + rest)[1..] == rest;
  }

  /** The default format's expansion: the date and the time in fixed places. */
  lemma DefaultExpansion(tm: Tm, msec: nat, width: int)
    requires Indexable(tm)
    ensures Expand(DEFAULT_FORMAT, tm, msec, width) ==
            Text(SizeT(tm.year + YEAR_BASE), 4) + "-" + (Text(SizeT(tm.mon + 1), 2) + "-" +
            (Text(SizeT(tm.mday), 2) + " " + (Text(SizeT(tm.hour), 2) + ":" + (Text(SizeT(tm.min), 2) + ":" +
            (Text(SizeT(tm.sec), 2) + "," + Text(msec, width))))))
  {
    hide Text, Expand;
    var f6 := ['%', 's', ','] + "%g";
    var f5 := ['%', 'm', ':'] + f6;
    var f4 := ['%', 'H', ':'] + f5;
    var f3 := ['%', 'd', ' '] + f4;
    var f2 := ['%', 'M', '-'] + f3;
    assert DEFAULT_FORMAT == ['%', 'Y', '-'] + f2;
    OneSpecifier('g', tm, msec, width);
    Separated('s', ',', "%g", tm, msec, width);
    Separated('m', ':', f6, tm, msec, width);
    Separated('H', ':', f5, tm, msec, width);
    Separated('d', ' ', f4, tm, msec, width);
    Separated('M', '-', f3, tm, msec, width);
    Separated('Y', '-', f2, tm, msec, width);
  }

  /** Round trip: reading the default format's fields at their places gives back the time, and the
      subsecond part to its width; and for every width that SubsecondPrecision allows it fits the
      caller's buffer. */
  lemma DefaultFormatReads(tm: Tm, msec: nat, width: int)
    requires Indexable(tm) && 1 <= width <= 6
    requires 0 <= tm.year + 1900 < 10000 && 1 <= tm.mday <= 31
    requires 0 <= tm.hour < 24 && 0 <= tm.min < 60 && 0 <= tm.sec <= 60
    ensures var text := Expand("%Y-%M-%d %H:%m:%s,%g", tm, msec, width);
            && |text| == 20 + width < BUFFER_SIZE
            && ValueOf(text[..4]) - 1900 == tm.year && ValueOf(text[5..7]) - 1 == tm.mon
            && ValueOf(text[8..10]) == tm.mday && ValueOf(text[11..13]) == tm.hour
            && ValueOf(text[14..16]) == tm.min && ValueOf(text[17..19]) == tm.sec
            && Pow10(width) > 0 && ValueOf(text[20..]) == msec % Pow10(width)
            && [text[4], text[7], text[10], text[13], text[16], text[19]] == "-- ::,"
  {
    hide Text, Expand, ValueOf, SizeT, Pow10;
    DefaultExpansion(tm, msec, width);
    YearReads(tm.year + YEAR_BASE);
    PairReads(tm.mon + 1);
    PairReads(tm.mday);
    PairReads(tm.hour);
    PairReads(tm.min);
    PairReads(tm.sec);
    TextIsDecimal(msec, width);
    Places(Expand(DEFAULT_FORMAT, tm, msec, width),
           Text(SizeT(tm.year + YEAR_BASE), 4), Text(SizeT(tm.mon + 1), 2), Text(SizeT(tm.mday), 2),
           Text(SizeT(tm.hour), 2), Text(SizeT(tm.min), 2), Text(SizeT(tm.sec), 2), Text(msec, width));
  }

  lemma PairReads(n: int)
    requires 0 <= n < 100
    ensures |Text(SizeT(n), 2)| == 2 && ValueOf(Text(SizeT(n), 2)) == n
  {
    TwoDigits(SizeT(n));
  }

  lemma YearReads(n: int)
    requires 0 <= n < 10000
    ensures |Text(SizeT(n), 4)| == 4 && ValueOf(Text(SizeT(n), 4)) == n
  {
    FourDigits(SizeT(n));
  }

  lemma Places(text: string, year: string, month: string, day: string, hour: string, minute: string, second: string,
               rest: string)
    requires |year| == 4 && |month| == |day| == |hour| == |minute| == |second| == 2
    requires text == year + "-" + (month + "-" + (day + " " + (hour + ":" + (minute + ":" + (second + "," + rest)))))
    ensures |text| == 20 + |rest|
    ensures text[..4] == year && text[5..7] == month && text[8..10] == day && text[11..13] == hour
    ensures text[14..16] == minute && text[17..19] == second && text[20..] == rest
    ensures [text[4], text[7], text[10], text[13], text[16], text[19]] == "-- ::,"
  {
    var t5 := second + "," + rest;
    var t4 := minute + ":" + t5;
    var t3 := hour + ":" + t4;
    var t2 := day + " " + t3;
    var t1 := month + "-" + t2;
    assert text[5..] == t1 && text[8..] == t2 && text[11..] == t3 && text[14..] == t4 && text[17..] == t5;
    assert text[5..7] == t1[..2] && text[8..10] == t2[..2] && text[11..13] == t3[..2];
    assert text[14..16] == t4[..2] && text[17..19] == t5[..2] && text[20..] == t5[3..];
  }
}
