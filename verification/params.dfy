/**
 * The frequency text converters and the parameter layout of `Parameters`
 * (source/Pater_Params.cpp).
 *
 * Frequencies are exact reals instead of single-precision floats. A text is
 * represented by the number it prints, the number of decimals it prints it
 * with and the unit that follows; `juce::String::getFloatValue` reads the
 * leading number and ignores whatever follows it. Decimal rendering is
 * round-half-up on exact reals in place of the library's float formatting.
 */
module Params {

  /** A frequency text: `number` printed with `places` decimals, followed by `unit`. */
  datatype FreqText = FreqText(number: real, places: nat, unit: string)

  /** `getFloatValue`: the leading number of the text; the unit is not read. */
  function FloatValue(t: FreqText): real {
    t.number
  }

  /** The C++ conversion `int(x)`: truncation toward zero. */
  function TruncateToInt(x: real): (n: int)
    ensures 0.0 <= x ==> 0 <= n && n as real <= x < n as real + 1.0
    ensures x < 0.0 ==> n <= 0 && n as real - 1.0 < x <= n as real
  {
    if x >= 0.0 then x.Floor else -((-x).Floor)
  }

  function Pow10(n: nat): (p: nat)
    ensures p >= 1
  {
    if n == 0 then 1 else 10 * Pow10(n - 1)
  }

  /** `x` counted in units of its `places`-th decimal: `x * 10^places`. */
  function Units(x: real, places: nat): real {
    x * Pow10(places) as real
  }

  /**
   * `x` rounded to `places` decimals, halves rounded up: a whole number of
   * units of the last decimal, and the nearest one to `x`.
   */
  function RoundTo(x: real, places: nat): (r: real)
    ensures Units(r, places).Floor as real == Units(r, places)
    ensures -0.5 < Units(r, places) - Units(x, places) <= 0.5
  {
    var k := Pow10(places) as real;
    var f := (x * k + 0.5).Floor as real;
    assert Units(f / k, places) == f;
    f / k
  }

  /**
   * `hzFromString`: a number below 20 is taken as kilohertz and scaled by
   * 1000; any other number is hertz. The unit in the text plays no part.
   */
  function HzFromString(t: FreqText): real {
    var value := FloatValue(t);
    if value < 20.0 then value * 1000.0 else value
  }

  /**
   * `stringFromHz`: below 1000 the truncated integer in hertz; below 10000
   * kilohertz with two decimals; from 10000 up kilohertz with one decimal.
   * The text denotes the value up to that truncation or rounding, and its
   * number has no digits beyond the decimals it is printed with.
   */
  function StringFromHz(value: real): (t: FreqText)
    ensures Units(t.number, t.places).Floor as real == Units(t.number, t.places)
    ensures t.unit == "Hz" <==> value < 1000.0
    ensures t.unit == "Hz" ==> t.places == 0 && t.number == TruncateToInt(value) as real
    ensures 0.0 <= value < 1000.0 ==> t.number <= value < t.number + 1.0
    ensures 1000.0 <= value < 10000.0 ==> t.unit == "kHz" && t.places == 2 && -5.0 < t.number * 1000.0 - value <= 5.0
    ensures 10000.0 <= value ==> t.unit == "kHz" && t.places == 1 && -50.0 < t.number * 1000.0 - value <= 50.0
  {
    if value < 1000.0 then
      FreqText(TruncateToInt(value) as real, 0, "Hz")
    else if value < 10000.0 then
      FreqText(RoundTo(value / 1000.0, 2), 2, "kHz")
    else
      FreqText(RoundTo(value / 1000.0, 1), 1, "kHz")
  }

  /**
   * Reading a text: numbers below 20 are kilohertz, others hertz, whatever
   * the unit says; so every number in [0.02, 20000] lands in the centre
   * frequency range [20, 20000].
   */
  lemma HzFromStringReadsSmallNumbersAsKHz(t: FreqText, unit: string)
    ensures t.number < 20.0 ==> HzFromString(t) == 1000.0 * t.number
    ensures t.number >= 20.0 ==> HzFromString(t) == t.number
    ensures HzFromString(t) == HzFromString(t.(unit := unit))
    ensures 0.02 <= t.number <= 20000.0 ==> CentreRange.start <= HzFromString(t) <= CentreRange.end
  {
  }

  /** Whole hertz values in [20, 1000) survive rendering and reading back exactly. */
  lemma HzTextRoundTrip(v: int)
    requires 20 <= v < 1000
    ensures HzFromString(StringFromHz(v as real)) == v as real
  {
  }

  /**
   * Values in [1000, 19950) read back as the rendered kilohertz number times
   * 1000: within 5 Hz below 10000 (two decimals) and within 50 Hz above.
   */
  lemma KHzTextRoundTrip(v: real)
    requires 1000.0 <= v < 19950.0
    ensures var back := HzFromString(StringFromHz(v));
            back == StringFromHz(v).number * 1000.0
    ensures var back := HzFromString(StringFromHz(v));
            if v < 10000.0 then -5.0 < back - v <= 5.0 else -50.0 < back - v <= 50.0
  {
    var t := StringFromHz(v);
    if v >= 10000.0 {
      var f := (v / 1000.0 * 10.0 + 0.5).Floor;
      assert f <= 199;
      assert t.number == f as real / 10.0;
    }
  }

  /**
   * Every value from 19950 up to the top of the centre frequency range
   * renders as "20.0kHz", and that text reads back as 20 Hz.
   */
  lemma TopOfRangeReadsBackAs20Hz(v: real)
    requires 19950.0 <= v <= CentreRange.end
    ensures StringFromHz(v) == FreqText(20.0, 1, "kHz")
    ensures HzFromString(StringFromHz(v)) == 20.0
  {
    var f := (v / 1000.0 * 10.0 + 0.5).Floor;
    assert f == 200;
  }

  /**
   * `hzFromString` with the unit honoured: a "kHz" text is scaled by 1000, an
   * "Hz" text is taken as it is, and a bare number keeps the below-20-is-kHz
   * shorthand.
   */
  function HzFromStringUnitAware(t: FreqText): (hz: real)
    ensures t.unit == "kHz" ==> hz == 1000.0 * FloatValue(t)
    ensures t.unit == "Hz" ==> hz == FloatValue(t)
    ensures t.unit != "kHz" && t.unit != "Hz" ==> hz == HzFromString(t)
  {
    if t.unit == "kHz" then FloatValue(t) * 1000.0
    else if t.unit == "Hz" then FloatValue(t)
    else HzFromString(t)
  }

  /**
   * With the unit honoured, every centre frequency reads back within the
   * rendering error: truncated to whole hertz below 1000, within 5 Hz below
   * 10000, within 50 Hz above, and exactly at 20000. Bare numbers read as
   * before.
   */
  lemma UnitAwareRoundTrip(v: real, n: real)
    requires CentreRange.start <= v <= CentreRange.end
    ensures var back := HzFromStringUnitAware(StringFromHz(v));
            if v < 1000.0 then back <= v < back + 1.0
            else if v < 10000.0 then -5.0 < back - v <= 5.0
            else -50.0 < back - v <= 50.0
    ensures HzFromStringUnitAware(StringFromHz(CentreRange.end)) == CentreRange.end
    ensures HzFromStringUnitAware(FreqText(n, 0, "")) == HzFromString(FreqText(n, 0, ""))
  {
    TopOfRangeReadsBackAs20Hz(CentreRange.end);
  }

  /**
   * Every rate value below 1 Hz renders as "0Hz", and that text reads back as
   * 0, which is below the rate range; typing the rate itself reads it as
   * kilohertz, 1000 times too large and above the range.
   */
  lemma RateTextReadsBackAsZero(v: real)
    requires RateRange.start <= v < RateRange.end
    ensures StringFromHz(v) == FreqText(0.0, 0, "Hz")
    ensures HzFromString(StringFromHz(v)) == 0.0 < RateRange.start
    ensures HzFromString(FreqText(v, 2, "")) == 1000.0 * v > RateRange.end
  {
  }

  /**
   * A rate text at the rate's own resolution: hertz with two decimals, so
   * the printed number is the value rounded to the 0.01 Hz step.
   */
  function StringFromRate(value: real): (t: FreqText)
    ensures t.unit == "Hz" && t.places == 2
    ensures Units(t.number, 2).Floor as real == Units(t.number, 2)
    ensures -0.5 < Units(t.number, 2) - Units(value, 2) <= 0.5
  {
    FreqText(RoundTo(value, 2), 2, "Hz")
  }

  /** Reading a rate text: the number in hertz, with no kilohertz shorthand. */
  function RateFromString(t: FreqText): real {
    FloatValue(t)
  }

  /**
   * Every rate renders and reads back inside the rate range, within half a
   * step of 0.01 Hz; a rate on the step grid reads back exactly.
   */
  lemma RateTextRoundTrip(v: real, n: int)
    requires RateRange.start <= v <= RateRange.end
    ensures var back := RateFromString(StringFromRate(v));
            RateRange.start <= back <= RateRange.end && -0.005 < back - v <= 0.005
    ensures 1 <= n <= 100 ==> RateFromString(StringFromRate(n as real / 100.0)) == n as real / 100.0
  {
    var f := (v * 100.0 + 0.5).Floor;
    assert 1 <= f <= 100;
    assert StringFromRate(v).number == f as real / 100.0;
    if 1 <= n <= 100 {
      assert (n as real / 100.0 * 100.0 + 0.5).Floor == n;
    }
  }

  /** `juce::NormalisableRange<float>{start, end, interval, skew}`. */
  datatype NormalisableRange = NormalisableRange(start: real, end: real, interval: real, skew: real)

  /** A declared parameter; `hzText` marks the frequency text converters. */
  datatype Parameter =
    | FloatParameter(name: string, range: NormalisableRange, default: real, hzText: bool)
    | BoolParameter(name: string, defaultValue: bool)
    | ChoiceParameter(name: string, choices: seq<string>, defaultIndex: nat)

  const RateRange := NormalisableRange(0.01, 1.0, 0.01, 1.0)
  const CentreRange := NormalisableRange(20.0, 20000.0, 1.0, 0.5)
  const UnitRange := NormalisableRange(0.0, 1.0, 0.01, 1.0)
  const FeedbackRange := NormalisableRange(-1.0, 1.0, 0.01, 1.0)

  /** The note lengths offered for tempo-synced rates, in declaration order. */
  const NoteLengths: seq<string> := [
    "1/32", "1/16T", "1/32.", "1/16", "1/8T", "1/16.", "1/8", "1/4T",
    "1/8.", "1/4", "1/2T", "1/4.", "1/2", "1/1T", "1/2.", "1/1"
  ]

  /** A parameter's default is a value it can take. */
  predicate DefaultInRange(p: Parameter) {
    match p
    case FloatParameter(_, range, default, _) => range.start <= default <= range.end
    case BoolParameter(_, _) => true
    case ChoiceParameter(_, choices, index) => index < |choices|
  }

  /** `createParameterLayout`: the parameters in declaration order. */
  function ParameterLayout(): (layout: seq<Parameter>)
    ensures |layout| == 8
    ensures forall p <- layout :: DefaultInRange(p)
    ensures forall p <- layout :: p.FloatParameter? && p.hzText ==> p.range.start > 0.0
  {
    [
      FloatParameter("Phaser RateHz", RateRange, 0.2, true),
      FloatParameter("Phaser Center FreqHz", CentreRange, 1000.0, true),
      FloatParameter("Phaser Depth%", UnitRange, 0.5, false),
      FloatParameter("Phaser Feedback%", FeedbackRange, 0.0, false),
      FloatParameter("Phaser Warmth%", UnitRange, 0.0, false),
      FloatParameter("Phaser Mix%", UnitRange, 1.0, false),
      BoolParameter("Tempo Sync", false),
      ChoiceParameter("Phaser Note", NoteLengths, 9)
    ]
  }

  /** The declared ranges and defaults, looked up by parameter name. */
  lemma DeclaredRangesAndDefaults()
    ensures ParameterLayout()[0] == FloatParameter("Phaser RateHz", NormalisableRange(0.01, 1.0, 0.01, 1.0), 0.2, true)
    ensures ParameterLayout()[1] == FloatParameter("Phaser Center FreqHz", NormalisableRange(20.0, 20000.0, 1.0, 0.5), 1000.0, true)
    ensures forall i :: 2 <= i < 6 && i != 3 ==> ParameterLayout()[i].range == NormalisableRange(0.0, 1.0, 0.01, 1.0)
    ensures ParameterLayout()[3].range == NormalisableRange(-1.0, 1.0, 0.01, 1.0)
    ensures |NoteLengths| == 16 && ParameterLayout()[7].defaultIndex == 9 && NoteLengths[9] == "1/4"
  {
  }
}
