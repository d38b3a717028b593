/**
 * The graph point of an effective profile switch. Its label names the
 * switch's percentage (when it is not 100) and its time shift in hours
 * (when it is not 0), separated by a comma when both are present.
 */
module ProfileSwitchPoint {
  import opened Texts

  datatype EffectiveProfileSwitch = EffectiveProfileSwitch(timestamp: int, originalPercentage: int, originalTimeshift: int)

  // Decimal notation of integers (Kotlin's `toString` on Int and Long).

  predicate IsDigit(c: char)
  {
    '0' <= c <= '9'
  }

  function DigitChar(d: int): (c: char)
    requires 0 <= d < 10
    ensures IsDigit(c) && c as int - '0' as int == d
  {
    (d + '0' as int) as char
  }

  /** The decimal digits of `n`, most significant first, with no leading zero. */
  function NatString(n: nat): (s: string)
    ensures |s| > 0
    ensures forall i :: 0 <= i < |s| ==> IsDigit(s[i])
    ensures |s| > 1 ==> s[0] != '0'
    decreases n
  {
    if n < 10 then [DigitChar(n)]
    else NatString(n / 10) + [DigitChar(n % 10)]
  }

  /** The decimal notation of `n`, with a leading '-' when it is negative. */
  function DecimalString(n: int): (s: string)
    ensures |s| > 0
    ensures forall i :: 0 <= i < |s| ==> IsDigit(s[i]) || (i == 0 && s[i] == '-')
    ensures s[0] == '-' <==> n < 0
  {
    if n < 0 then "-" + NatString(-n) else NatString(n)
  }

  /** The value of a string of decimal digits. */
  function DigitsValue(s: string): int
    requires forall i :: 0 <= i < |s| ==> IsDigit(s[i])
  {
    if s == [] then 0
    else DigitsValue(s[..|s| - 1]) * 10 + (s[|s| - 1] as int - '0' as int)
  }

  /** The value of a decimal notation: the inverse of `DecimalString`. */
  function DecimalValue(s: string): int
    requires |s| > 0
    requires forall i :: 0 <= i < |s| ==> IsDigit(s[i]) || (i == 0 && s[i] == '-')
  {
    if s[0] == '-' then
      assert forall i :: 0 <= i < |s| - 1 ==> s[1..][i] == s[i + 1];
      -DigitsValue(s[1..])
    else DigitsValue(s)
  }

  lemma {:induction false} NatStringRoundTrip(n: nat)
    ensures DigitsValue(NatString(n)) == n
    decreases n
  {
    if n >= 10 {
      NatStringRoundTrip(n / 10);
      var s := NatString(n);
      assert s[..|s| - 1] == NatString(n / 10);
    }
  }

  /** Reading the notation back gives the number. */
  lemma DecimalStringRoundTrip(n: int)
    ensures DecimalValue(DecimalString(n)) == n
  {
    if n < 0 {
      NatStringRoundTrip(-n);
      assert DecimalString(n)[1..] == NatString(-n);
    } else {
      NatStringRoundTrip(n);
    }
  }

  /**
   * The data point. `hours` stands for `T.msecs(..).hours()` and
   * `shortHour` for the localized short-hour unit; both are supplied by
   * collaborators this model does not describe.
   */
  datatype EffectiveProfileSwitchDataPoint = EffectiveProfileSwitchDataPoint(data: EffectiveProfileSwitch) {

    function GetX(): int
    {
      data.timestamp
    }

    function Duration(): int
    {
      0
    }

    /** `setY` has an empty body: the point is left as it is. */
    function SetY(y: real): EffectiveProfileSwitchDataPoint
    {
      this
    }

    function PercentPart(): string
    {
      if data.originalPercentage != 100 then DecimalString(data.originalPercentage) + "%" else ""
    }

    function Separator(): string
    {
      if data.originalPercentage != 100 && data.originalTimeshift != 0 then "," else ""
    }

    function ShiftPart(hours: int -> int, shortHour: string): string
    {
      if data.originalTimeshift != 0 then DecimalString(hours(data.originalTimeshift)) + shortHour else ""
    }

    function Label(hours: int -> int, shortHour: string): string
    {
      "" + PercentPart() + Separator() + ShiftPart(hours, shortHour)
    }
  }

  /** The point sits at the switch's time, has no duration, and ignores `setY`. */
  lemma PointGeometry(p: EffectiveProfileSwitchDataPoint, y: real)
    ensures p.GetX() == p.data.timestamp
    ensures p.Duration() == 0
    ensures p.SetY(y) == p
  {
  }

  /** The label is empty exactly for a 100% switch without time shift. */
  lemma LabelEmptyIffDefault(p: EffectiveProfileSwitchDataPoint, hours: int -> int, shortHour: string)
    ensures p.Label(hours, shortHour) == "" <==>
      p.data.originalPercentage == 100 && p.data.originalTimeshift == 0
  {
    if p.data.originalTimeshift != 0 {
      assert |p.ShiftPart(hours, shortHour)| > 0;
    }
  }

  /** A percentage other than 100 leads the label as "<percentage>%"; a 100% switch shows only its shift. */
  lemma LabelStartsWithPercentage(p: EffectiveProfileSwitchDataPoint, hours: int -> int, shortHour: string)
    ensures p.data.originalPercentage != 100 ==>
      var prefix := DecimalString(p.data.originalPercentage) + "%";
      |prefix| <= |p.Label(hours, shortHour)| && p.Label(hours, shortHour)[..|prefix|] == prefix
    ensures p.data.originalPercentage == 100 ==> p.Label(hours, shortHour) == p.ShiftPart(hours, shortHour)
  {
    var text := p.Label(hours, shortHour);
    if p.data.originalPercentage != 100 {
      var prefix := DecimalString(p.data.originalPercentage) + "%";
      assert text == prefix + p.Separator() + p.ShiftPart(hours, shortHour);
      assert text[..|prefix|] == prefix;
    } else {
      assert text == p.ShiftPart(hours, shortHour);
    }
  }

  /** A time shift other than 0 ends the label as "<hours><short hour>"; without one the label is the percentage part. */
  lemma LabelEndsWithShift(p: EffectiveProfileSwitchDataPoint, hours: int -> int, shortHour: string)
    ensures p.data.originalTimeshift != 0 ==>
      var suffix := DecimalString(hours(p.data.originalTimeshift)) + shortHour;
      var text := p.Label(hours, shortHour);
      |suffix| <= |text| && text[|text| - |suffix|..] == suffix
    ensures p.data.originalTimeshift == 0 ==> p.Label(hours, shortHour) == p.PercentPart()
  {
    var text := p.Label(hours, shortHour);
    if p.data.originalTimeshift != 0 {
      var suffix := DecimalString(hours(p.data.originalTimeshift)) + shortHour;
      var head := p.PercentPart() + p.Separator();
      assert text == head + suffix;
      assert text[|head|..] == suffix;
    } else {
      assert text == p.PercentPart();
    }
  }

  lemma NoCommaInDecimal(n: int)
    ensures ',' !in DecimalString(n)
  {
    var s := DecimalString(n);
    forall i | 0 <= i < |s|
      ensures s[i] != ','
    {
    }
  }

  /**
   * When the unit text has no comma, the label holds a comma exactly when
   * both the percentage and the shift are shown.
   */
  lemma CommaIffBothParts(p: EffectiveProfileSwitchDataPoint, hours: int -> int, shortHour: string)
    requires ',' !in shortHour
    ensures ',' in p.Label(hours, shortHour) <==>
      p.data.originalPercentage != 100 && p.data.originalTimeshift != 0
  {
    var a, b, c := p.PercentPart(), p.Separator(), p.ShiftPart(hours, shortHour);
    assert p.Label(hours, shortHour) == (a + b) + c;
    InConcat(',', a + b, c);
    InConcat(',', a, b);
    if p.data.originalPercentage != 100 {
      NoCommaInDecimal(p.data.originalPercentage);
      InConcat(',', DecimalString(p.data.originalPercentage), "%");
    }
    if p.data.originalTimeshift != 0 {
      NoCommaInDecimal(hours(p.data.originalTimeshift));
      InConcat(',', DecimalString(hours(p.data.originalTimeshift)), shortHour);
    }
  }
}
