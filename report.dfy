/** `format_message`: the AQI severity band and the MarkdownV2 report the
    bot sends for one provider reading. */
module Report {
  import opened Domain

  /** The five severity bands, mildest first. */
  datatype Band = Good | Moderate | UnhealthyForSensitive | Unhealthy | Hazardous

  /** The `match aqi` of `format_message`: four closed ranges, and a
      wildcard arm that takes everything else, above 200 and below 0 alike. */
  function Status(aqi: int): (b: Band)
    ensures b == Hazardous <==> aqi < 0 || aqi > 200
    ensures aqi == 0 ==> b == Good
    ensures 0 < aqi <= 200 ==> 50 * Rank(b) < aqi <= 50 * (Rank(b) + 1)
  {
    if 0 <= aqi <= 50 then Good
    else if 51 <= aqi <= 100 then Moderate
    else if 101 <= aqi <= 150 then UnhealthyForSensitive
    else if 151 <= aqi <= 200 then Unhealthy
    else Hazardous
  }

  /** Position of a band in the severity order. */
  function Rank(b: Band): nat
  {
    match b
    case Good => 0
    case Moderate => 1
    case UnhealthyForSensitive => 2
    case Unhealthy => 3
    case Hazardous => 4
  }

  /** The coloured marker that opens each band's label. */
  function Marker(b: Band): char
  {
    match b
    case Good => '🟢'
    case Moderate => '🟡'
    case UnhealthyForSensitive => '🟠'
    case Unhealthy => '🔴'
    case Hazardous => '☠'
  }

  /** The marker and wording shown for each band. */
  function Label(b: Band): (s: string)
    ensures |s| > 0 && s[0] == Marker(b)
  {
    match b
    case Good => "🟢 Отлично"
    case Moderate => "🟡 Нормально"
    case UnhealthyForSensitive => "🟠 Вредно для чувствительных"
    case Unhealthy => "🔴 Вредно"
    case Hazardous => "☠️ Очень вредно"
  }

  /** The upper ends of the first four bands. */
  const Cutovers: seq<int> := [50, 100, 150, 200]

  /** How many of the thresholds `ts` the value `aqi` is above. */
  function Exceeded(aqi: int, ts: seq<int>): nat
  {
    if ts == [] then 0 else (if aqi > ts[0] then 1 else 0) + Exceeded(aqi, ts[1..])
  }

  /** Reference definition of the bands for a non-negative AQI: the band's
      rank is the number of cut-over points the value lies above. */
  lemma StatusCountsCutovers(aqi: int)
    requires aqi >= 0
    ensures Rank(Status(aqi)) == Exceeded(aqi, Cutovers)
  {
    var s1, s2, s3 := Cutovers[1..], Cutovers[2..], Cutovers[3..];
    assert s1[1..] == s2 && s2[1..] == s3 && s3[1..] == [];
    assert Exceeded(aqi, s3) == (if aqi > 200 then 1 else 0);
    assert Exceeded(aqi, s2) == (if aqi > 150 then 1 else 0) + Exceeded(aqi, s3);
    assert Exceeded(aqi, s1) == (if aqi > 100 then 1 else 0) + Exceeded(aqi, s2);
    assert Exceeded(aqi, Cutovers) == (if aqi > 50 then 1 else 0) + Exceeded(aqi, s1);
  }

  /** Each band is exactly one integer range; everything outside 0..=200,
      negative values included, is hazardous. */
  lemma StatusRanges(aqi: int)
    ensures Status(aqi) == Good <==> 0 <= aqi <= 50
    ensures Status(aqi) == Moderate <==> 51 <= aqi <= 100
    ensures Status(aqi) == UnhealthyForSensitive <==> 101 <= aqi <= 150
    ensures Status(aqi) == Unhealthy <==> 151 <= aqi <= 200
    ensures Status(aqi) == Hazardous <==> aqi < 0 || aqi > 200
  {
  }

  /** On non-negative values a higher AQI never gives a milder band, and
      crossing a cut-over moves up by exactly one band. */
  lemma StatusMonotone(a: int, b: int)
    requires 0 <= a <= b
    ensures Rank(Status(a)) <= Rank(Status(b))
    ensures a in Cutovers && b == a + 1 ==> Rank(Status(b)) == Rank(Status(a)) + 1
  {
  }

  /** Different bands never show the same label. */
  lemma LabelInjective(b: Band, c: Band)
    ensures Label(b) == Label(c) ==> b == c
  {
    if Label(b) == Label(c) {
      assert Marker(b) == Label(b)[0] == Marker(c);
    }
  }

  // ----- Rust's `Display` for integers --------------------------------------

  predicate IsDigit(ch: char)
  {
    '0' <= ch <= '9'
  }

  predicate AllDigits(s: string)
  {
    forall i :: 0 <= i < |s| ==> IsDigit(s[i])
  }

  function DigitChar(d: int): (ch: char)
    requires 0 <= d < 10
    ensures IsDigit(ch) && ch as int - '0' as int == d
  {
    (d + '0' as int) as char
  }

  /** The decimal digits of `n`, most significant first, without leading zeros. */
  function Digits(n: nat): (s: string)
    ensures |s| >= 1 && AllDigits(s)
    ensures n >= 10 ==> s[0] != '0'
    decreases n
  {
    if n < 10 then [DigitChar(n)] else Digits(n / 10) + [DigitChar(n % 10)]
  }

  /** How `{aqi}` renders an integer: a minus sign for negative values. */
  function Decimal(n: int): (s: string)
    ensures |s| >= 1
    ensures n >= 0 ==> AllDigits(s)
    ensures n < 0 ==> s[0] == '-' && AllDigits(s[1..])
  {
    if n < 0 then "-" + Digits(-n) else Digits(n)
  }

  /** The value of a string of decimal digits. */
  function DigitsValue(s: string): (v: nat)
    requires AllDigits(s)
  {
    if s == [] then 0 else DigitsValue(s[..|s| - 1]) * 10 + (s[|s| - 1] as int - '0' as int)
  }

  /** Reads back what `Decimal` writes. */
  function ParseDecimal(s: string): (r: Option<int>)
  {
    if |s| >= 2 && s[0] == '-' && AllDigits(s[1..]) then Some(0 - DigitsValue(s[1..]) as int)
    else if |s| >= 1 && AllDigits(s) then Some(DigitsValue(s))
    else None
  }

  lemma {:induction false} DigitsRoundTrip(n: nat)
    ensures DigitsValue(Digits(n)) == n
    decreases n
  {
    if n >= 10 {
      var s := Digits(n);
      DigitsRoundTrip(n / 10);
      assert s[..|s| - 1] == Digits(n / 10);
    }
  }

  /** The AQI in a report reads back as the value that was rendered. */
  lemma DecimalRoundTrip(n: int)
    ensures ParseDecimal(Decimal(n)) == Some(n)
  {
    if n < 0 {
      DigitsRoundTrip(-n);
      assert Decimal(n)[1..] == Digits(-n);
    } else {
      DigitsRoundTrip(n);
      assert Decimal(n)[0] != '-';
    }
  }

  // ----- The report ---------------------------------------------------------

  /** The raw string's continuation lines keep the source's indentation of
      nine spaces. */
  const Indent := "         "
  const CityLead := "*Качество воздуха*\n" + Indent + "🏙 Город: *"
  const TimeLead := "*\n" + Indent + "🕒 "
  const AqiLead := "\n" + Indent + "🌫 AQI: *"
  const StatusLead := "*\n" + Indent + "📊 "

  /** The fixed text around the report's four fields. */
  datatype Template = Template(beforeCity: string, beforeTime: string, beforeAqi: string, beforeStatus: string)

  const Leads := Template(CityLead, TimeLead, AqiLead, StatusLead)

  /** The fields' texts set into a template, in order. */
  function Fill(t: Template, city: string, time: string, d: string, tag: string): string
  {
    t.beforeCity + (city + (t.beforeTime + (time + (t.beforeAqi + (d + (t.beforeStatus + tag))))))
  }

  /** The report's text for the given field values; `city` goes in as it
      is, with no MarkdownV2 escaping. Every report reads back as the fields
      it was made from: the city and time verbatim, the AQI as the number
      shown and the band shown. */
  function Layout(city: string, time: string, aqi: int, status: Band): (r: string)
    ensures ReadReport(r, |city|, |time|) == Some(Fields(city, time, aqi, status))
  {
    var d, tag := Decimal(aqi), Label(status);
    DecimalNumeric(aqi);
    DecimalRoundTrip(aqi);
    BandOfLabelRoundTrip(status);
    FillReads(Leads, city, time, d, tag, aqi, status);
    Fill(Leads, city, time, d, tag)
  }

  /** `format_message(resp)` with the wall-clock time `time` (`%H:%M`): the
      report shows the response's city unescaped, the time, the response's
      AQI and the band `Status` assigns to it. */
  function FormatMessage(resp: AirResponse, time: string): (r: string)
    ensures var aqi := resp.data.current.pollution.aqius as int;
      ReadReport(r, |resp.data.city|, |time|) == Some(Fields(resp.data.city, time, aqi, Status(aqi)))
  {
    var aqi := resp.data.current.pollution.aqius as int;
    Layout(resp.data.city, time, aqi, Status(aqi))
  }

  // ----- Reading a report back ----------------------------------------------

  /** The fields a report shows. */
  datatype Fields = Fields(city: string, time: string, aqi: int, status: Band)

  predicate IsNumeric(ch: char)
  {
    ch == '-' || IsDigit(ch)
  }

  /** Length of the longest prefix of `s` made of digits and minus signs. */
  function NumericRun(s: string): (n: nat)
    ensures n <= |s|
  {
    if s == [] || !IsNumeric(s[0]) then 0 else 1 + NumericRun(s[1..])
  }

  function BandOfLabel(s: string): Option<Band>
  {
    if s == Label(Good) then Some(Good)
    else if s == Label(Moderate) then Some(Moderate)
    else if s == Label(UnhealthyForSensitive) then Some(UnhealthyForSensitive)
    else if s == Label(Unhealthy) then Some(Unhealthy)
    else if s == Label(Hazardous) then Some(Hazardous)
    else None
  }

  /** The rest of `s` after `lit`, if `s` starts with `lit`. */
  function Expect(lit: string, s: string): (r: Option<string>)
    ensures r.Some? <==> lit <= s
    ensures r.Some? ==> s == lit + r.value
  {
    if lit <= s then Some(s[|lit|..]) else None
  }

  /** Cuts a text laid out by template `t` into the texts of its four
      fields: city, time, AQI and band label. Because the city and the time
      are not escaped, they may contain the very text that delimits them,
      so their lengths have to be supplied; the AQI's text is the run of
      digits and minus signs after its lead. */
  function Split(t: Template, r: string, cityLen: nat, timeLen: nat): Option<(string, string, string, string)>
  {
    match Expect(t.beforeCity, r)
    case None => None
    case Some(r1) =>
      if |r1| < cityLen then None
      else match Expect(t.beforeTime, r1[cityLen..])
      case None => None
      case Some(r2) =>
        if |r2| < timeLen then None
        else match Expect(t.beforeAqi, r2[timeLen..])
        case None => None
        case Some(r3) =>
          var n := NumericRun(r3);
          match Expect(t.beforeStatus, r3[n..])
          case None => None
          case Some(tag) => Some((r1[..cityLen], r2[..timeLen], r3[..n], tag))
  }

  /** Reads the fields back out of a text laid out by template `t`. */
  function ReadWith(t: Template, r: string, cityLen: nat, timeLen: nat): Option<Fields>
  {
    match Split(t, r, cityLen, timeLen)
    case None => None
    case Some((city, time, d, tag)) =>
      match (ParseDecimal(d), BandOfLabel(tag))
      case (Some(v), Some(b)) => Some(Fields(city, time, v, b))
      case _ => None
  }

  /** Reads the fields back out of a report. */
  function ReadReport(r: string, cityLen: nat, timeLen: nat): Option<Fields>
  {
    ReadWith(Leads, r, cityLen, timeLen)
  }

  lemma BandOfLabelRoundTrip(b: Band)
    ensures BandOfLabel(Label(b)) == Some(b)
  {
    match b
    case Good =>
    case Moderate => LabelInjective(Good, b);
    case UnhealthyForSensitive => LabelInjective(Good, b); LabelInjective(Moderate, b);
    case Unhealthy =>
      LabelInjective(Good, b); LabelInjective(Moderate, b); LabelInjective(UnhealthyForSensitive, b);
    case Hazardous =>
      LabelInjective(Good, b); LabelInjective(Moderate, b); LabelInjective(UnhealthyForSensitive, b);
      LabelInjective(Unhealthy, b);
  }

  lemma {:induction false} NumericRunStops(s: string, rest: string)
    requires forall i :: 0 <= i < |s| ==> IsNumeric(s[i])
    requires rest != [] && !IsNumeric(rest[0])
    ensures NumericRun(s + rest) == |s|
    decreases |s|
  {
    if s != [] {
      assert (s + rest)[1..] == s[1..] + rest;
      NumericRunStops(s[1..], rest);
    } else {
      assert s + rest == rest;
    }
  }

  /** `Expect` steps over a leading `lit`. */
  lemma ExpectFront(lit: string, rest: string)
    ensures Expect(lit, lit + rest) == Some(rest)
  {
    assert (lit + rest)[|lit|..] == rest;
  }

  /** `Split` finds the four field texts of a filled template whose AQI
      text is followed by a non-numeric character. */
  lemma SplitFinds(t: Template, city: string, time: string, d: string, tag: string)
    requires NumericRun(d + (t.beforeStatus + tag)) == |d|
    ensures Split(t, Fill(t, city, time, d, tag), |city|, |time|) == Some((city, time, d, tag))
  {
    var s6 := t.beforeStatus + tag;
    var s5 := d + s6;
    var s4 := t.beforeAqi + s5;
    var s3 := time + s4;
    var s2 := t.beforeTime + s3;
    var s1 := city + s2;
    ExpectFront(t.beforeCity, s1);
    assert s1[..|city|] == city && s1[|city|..] == s2;
    ExpectFront(t.beforeTime, s3);
    assert s3[..|time|] == time && s3[|time|..] == s4;
    ExpectFront(t.beforeAqi, s5);
    assert s5[..|d|] == d && s5[|d|..] == s6;
    ExpectFront(t.beforeStatus, tag);
  }

  /** Every character `Decimal` writes is a digit or the minus sign. */
  lemma DecimalNumeric(n: int)
    ensures forall i :: 0 <= i < |Decimal(n)| ==> IsNumeric(Decimal(n)[i])
  {
    var d := Decimal(n);
    forall i | 0 <= i < |d| ensures IsNumeric(d[i]) {
      if n < 0 && i > 0 {
        assert d[i] == d[1..][i - 1];
      }
    }
  }

  /** Any field texts set into a template read back as those fields,
      provided the AQI's text is numeric and the text after it starts with
      a character that is not. */
  lemma FillReads(t: Template, city: string, time: string, d: string, tag: string, aqi: int, status: Band)
    requires forall i :: 0 <= i < |d| ==> IsNumeric(d[i])
    requires t.beforeStatus != [] && !IsNumeric(t.beforeStatus[0])
    requires ParseDecimal(d) == Some(aqi) && BandOfLabel(tag) == Some(status)
    ensures ReadWith(t, Fill(t, city, time, d, tag), |city|, |time|) == Some(Fields(city, time, aqi, status))
  {
    NumericRunStops(d, t.beforeStatus + tag);
    SplitFinds(t, city, time, d, tag);
  }
}
