/** The processor's parameter schema (seven parameters with ids, display
    names, ranges and defaults, including the four slope labels built in a
    loop) and the snapshot of the parameter store that each configuration
    reads. */
module Parameters {
  import opened Settings

  /** The character of one decimal digit. */
  function DigitChar(d: nat): (c: char)
    requires d < 10
    ensures '0' <= c <= '9' && (c as int) - ('0' as int) == d
  {
    (('0' as int) + d) as char
  }

  /** The decimal text of a natural number, most significant digit first and
      without leading zeros, as a string stream writes an `int`. */
  function DecimalString(n: nat): (s: string)
    ensures |s| >= 1
    ensures forall i :: 0 <= i < |s| ==> '0' <= s[i] <= '9'
  {
    if n < 10 then [DigitChar(n)] else DecimalString(n / 10) + [DigitChar(n % 10)]
  }

  /** The number a string of decimal digits denotes. */
  function DecimalValue(s: string): nat
    requires forall i :: 0 <= i < |s| ==> '0' <= s[i] <= '9'
  {
    if s == [] then 0
    else 10 * DecimalValue(s[..|s| - 1]) + ((s[|s| - 1] as int) - ('0' as int))
  }

  lemma {:induction false} DecimalRoundTrip(n: nat)
    ensures DecimalValue(DecimalString(n)) == n
  {
    var s := DecimalString(n);
    if n >= 10 {
      DecimalRoundTrip(n / 10);
      assert s[..|s| - 1] == DecimalString(n / 10);
    }
  }

  /** The label of slope choice i: 12 + 12 i followed by " db/oct". */
  function SlopeLabel(i: nat): string {
    DecimalString(12 + i * 12) + " db/oct"
  }

  /** The option list of both slope parameters, built one label at a time. */
  method SlopeOptions() returns (options: seq<string>)
    ensures |options| == 4
    ensures forall i :: 0 <= i < 4 ==> options[i] == SlopeLabel(i)
  {
    options := [];
    for i := 0 to 4
      invariant |options| == i
      invariant forall k :: 0 <= k < i ==> options[k] == SlopeLabel(k)
    {
      var text := DecimalString(12 + i * 12);
      text := text + " db/oct";
      options := options + [text];
    }
  }

  /** Choice i's label names the roll-off of the slope with ordinal i, and no
      two choices share a label. */
  lemma SlopeLabelsNameSlopes(s: Slope, i: nat, j: nat)
    ensures SlopeLabel(Ordinal(s)) == DecimalString(DbPerOctave(s)) + " db/oct"
    ensures SlopeLabel(i) == SlopeLabel(j) ==> i == j
  {
    if SlopeLabel(i) == SlopeLabel(j) {
      var a, b := DecimalString(12 + i * 12), DecimalString(12 + j * 12);
      assert |a| == |b|;
      assert a == SlopeLabel(i)[..|a|];
      assert b == SlopeLabel(j)[..|b|];
      DecimalRoundTrip(12 + i * 12);
      DecimalRoundTrip(12 + j * 12);
    }
  }

  /** The labels are the four texts a host shows. */
  lemma SlopeLabelTexts()
    ensures SlopeLabel(0) == "12" + " db/oct" && SlopeLabel(1) == "24" + " db/oct"
    ensures SlopeLabel(2) == "36" + " db/oct" && SlopeLabel(3) == "48" + " db/oct"
  {
    // These steps are not needed for soundness; they keep the proof cheap.
    assert DecimalString(12) == "12";
    assert DecimalString(24) == "24";
    assert DecimalString(36) == "36";
    assert DecimalString(48) == "48";
  }

  /** A continuous parameter's range: bounds, step interval and skew. */
  datatype NormalisableRange = NormalisableRange(start: real, end: real, interval: real, skew: real)

  datatype Parameter =
    | FloatParameter(id: string, name: string, range: NormalisableRange, defaultValue: real)
    | ChoiceParameter(id: string, name: string, choices: seq<string>, defaultIndex: int)

  /** The store holds a choice parameter's index as a real. */
  function DefaultValue(p: Parameter): real {
    match p
    case FloatParameter(_, _, _, d) => d
    case ChoiceParameter(_, _, _, d) => d as real
  }

  /** A value the store can hold for the parameter: within the continuous
      range, or a choice index from 0 to the last choice. */
  predicate InRange(p: Parameter, v: real) {
    match p
    case FloatParameter(_, _, r, _) => r.start <= v <= r.end
    case ChoiceParameter(_, _, choices, _) => 0.0 <= v <= (|choices| - 1) as real
  }

  const LowCutFreqId := "LOW_CUT_FREQ"
  const HighCutFreqId := "HIGH_CUT_FREQ"
  const PeakFreqId := "PEAK_FREQ"
  const PeakGainId := "PEAK_GAIN"
  const PeakQId := "PEAK_Q"
  const LowCutSlopeId := "LOW_CUT_SLOPE"
  const HighCutSlopeId := "HIGH_CUT_SLOPE"

  /** The ids in the order the layout declares them. */
  function ParameterIds(): seq<string> {
    [LowCutFreqId, HighCutFreqId, PeakFreqId, PeakGainId, PeakQId, LowCutSlopeId, HighCutSlopeId]
  }

  /** The audible frequency range with a skew toward low frequencies. */
  function FrequencyRange(): NormalisableRange {
    NormalisableRange(20.0, 20000.0, 1.0, 0.2)
  }

  /** The seven parameters in declaration order, both slope parameters
      offering `slopeOptions`. */
  function ParameterLayout(slopeOptions: seq<string>): (layout: seq<Parameter>)
    ensures |layout| == 7
    ensures forall i :: 0 <= i < 7 ==> layout[i].id == ParameterIds()[i]
    ensures forall i :: 5 <= i < 7 ==> layout[i].ChoiceParameter? && layout[i].choices == slopeOptions
  {
    [ FloatParameter(LowCutFreqId, "low cut freq", FrequencyRange(), 20.0),
      FloatParameter(HighCutFreqId, "high cut freq", FrequencyRange(), 20000.0),
      FloatParameter(PeakFreqId, "peak freq", FrequencyRange(), 650.0),
      FloatParameter(PeakGainId, "peak gain", NormalisableRange(-24.0, 24.0, 0.5, 1.0), 0.0),
      FloatParameter(PeakQId, "peak Q", NormalisableRange(0.1, 10.0, 0.05, 1.0), 1.0),
      ChoiceParameter(LowCutSlopeId, "low cut slope", slopeOptions, 0),
      ChoiceParameter(HighCutSlopeId, "high cut slope", slopeOptions, 0) ]
  }

  /** Builds the slope options, then the seven parameters. */
  method CreateParameterLayout() returns (layout: seq<Parameter>)
    ensures |layout| == 7
    ensures forall i :: 0 <= i < 7 ==> layout[i].id == ParameterIds()[i]
    ensures forall i :: 5 <= i < 7 ==> layout[i].ChoiceParameter? && |layout[i].choices| == 4
    ensures forall i, k :: 5 <= i < 7 && 0 <= k < 4 ==> layout[i].choices[k] == SlopeLabel(k)
    ensures forall i :: 0 <= i < 7 ==> InRange(layout[i], DefaultValue(layout[i]))
    ensures layout == ParameterLayout(layout[5].choices)
  {
    var slopeOptions := SlopeOptions();
    layout := ParameterLayout(slopeOptions);
    ParameterDefaultsInRange(slopeOptions);
  }

  /** The ids are pairwise distinct. */
  lemma ParameterIdsDistinct(i: nat, j: nat)
    requires i < 7 && j < 7 && i != j
    ensures ParameterIds()[i] != ParameterIds()[j]
  {
  }

  /** Every default lies in its parameter's range, for any non-empty option list. */
  lemma ParameterDefaultsInRange(slopeOptions: seq<string>)
    requires |slopeOptions| >= 1
    ensures forall i :: 0 <= i < 7 ==>
              InRange(ParameterLayout(slopeOptions)[i], DefaultValue(ParameterLayout(slopeOptions)[i]))
  {
  }

  /** The parameter store as the snapshot sees it: a value per parameter id. */
  type ParameterStore = map<string, real>

  predicate HoldsAllParameters(store: ParameterStore) {
    && LowCutFreqId in store && HighCutFreqId in store && PeakFreqId in store
    && PeakGainId in store && PeakQId in store && LowCutSlopeId in store && HighCutSlopeId in store
  }

  /** A store in which every parameter of `layout` has a value in its range. */
  predicate WithinRanges(layout: seq<Parameter>, store: ParameterStore) {
    forall i :: 0 <= i < |layout| ==> layout[i].id in store && InRange(layout[i], store[layout[i].id])
  }

  /** A store holding every parameter's default. */
  function DefaultStore(layout: seq<Parameter>): (store: ParameterStore)
    ensures forall i :: 0 <= i < |layout| ==> layout[i].id in store
  {
    if layout == [] then map[]
    else DefaultStore(layout[..|layout| - 1])[layout[|layout| - 1].id := DefaultValue(layout[|layout| - 1])]
  }

  /** C++'s conversion of a float to an integer type: truncation toward zero. */
  function TruncateToInt(x: real): (n: int)
    ensures 0.0 <= x ==> 0 <= n && n as real <= x < n as real + 1.0
    ensures x < 0.0 ==> n <= 0 && n as real - 1.0 < x <= n as real
  {
    if x >= 0.0 then x.Floor else -((-x).Floor)
  }

  /** One snapshot of the store; the slope choices are converted to the enum
      (and so to an integer) by truncation. */
  function GetChainSettings(store: ParameterStore): (s: ChainSettings)
    requires HoldsAllParameters(store)
    ensures s.lowCutFreq == store[LowCutFreqId] && s.highCutFreq == store[HighCutFreqId]
    ensures s.peakFreq == store[PeakFreqId] && s.peakGainInDecibels == store[PeakGainId]
    ensures s.peakQuality == store[PeakQId]
    ensures s.lowCutSlope == TruncateToInt(store[LowCutSlopeId])
    ensures s.highCutSlope == TruncateToInt(store[HighCutSlopeId])
  {
    ChainSettings(
      peakFreq := store[PeakFreqId],
      peakGainInDecibels := store[PeakGainId],
      peakQuality := store[PeakQId],
      lowCutFreq := store[LowCutFreqId],
      highCutFreq := store[HighCutFreqId],
      lowCutSlope := TruncateToInt(store[LowCutSlopeId]),
      highCutSlope := TruncateToInt(store[HighCutSlopeId]))
  }

  /** A store within the layout's ranges yields a snapshot within the same
      ranges, and both slope ordinals select one of the four slopes. */
  lemma SnapshotWithinRanges(slopeOptions: seq<string>, store: ParameterStore)
    requires |slopeOptions| == 4
    requires WithinRanges(ParameterLayout(slopeOptions), store)
    ensures HoldsAllParameters(store)
    ensures 20.0 <= GetChainSettings(store).lowCutFreq <= 20000.0
    ensures 20.0 <= GetChainSettings(store).highCutFreq <= 20000.0
    ensures 20.0 <= GetChainSettings(store).peakFreq <= 20000.0
    ensures -24.0 <= GetChainSettings(store).peakGainInDecibels <= 24.0
    ensures 0.1 <= GetChainSettings(store).peakQuality <= 10.0
    ensures FromOrdinal(GetChainSettings(store).lowCutSlope).Some?
    ensures FromOrdinal(GetChainSettings(store).highCutSlope).Some?
  {
    var layout := ParameterLayout(slopeOptions);
    assert InRange(layout[0], store[LowCutFreqId]) && InRange(layout[1], store[HighCutFreqId]);
    assert InRange(layout[2], store[PeakFreqId]) && InRange(layout[3], store[PeakGainId]);
    assert InRange(layout[4], store[PeakQId]);
    assert InRange(layout[5], store[LowCutSlopeId]) && InRange(layout[6], store[HighCutSlopeId]);
  }

  /** The snapshot of a store holding the defaults: low cut at 20 Hz, high
      cut at 20 kHz, peak at 650 Hz with 0 dB and Q 1, both slopes Slope12. */
  lemma DefaultSnapshot(slopeOptions: seq<string>)
    ensures HoldsAllParameters(DefaultStore(ParameterLayout(slopeOptions)))
    ensures GetChainSettings(DefaultStore(ParameterLayout(slopeOptions)))
            == ChainSettings(650.0, 0.0, 1.0, 20.0, 20000.0, Ordinal(Slope12), Ordinal(Slope12))
  {
    var layout := ParameterLayout(slopeOptions);
    var store := DefaultStore(layout);
    forall i, j | 0 <= i < 7 && 0 <= j < 7 && i != j ensures layout[i].id != layout[j].id {
      ParameterIdsDistinct(i, j);
    }
    DefaultStoreAt(layout, 0);
    DefaultStoreAt(layout, 1);
    DefaultStoreAt(layout, 2);
    DefaultStoreAt(layout, 3);
    DefaultStoreAt(layout, 4);
    DefaultStoreAt(layout, 5);
    DefaultStoreAt(layout, 6);
  }

  /** With distinct ids, the default store maps each parameter's id to its
      default. */
  lemma {:induction false} DefaultStoreAt(layout: seq<Parameter>, i: nat)
    requires i < |layout|
    requires forall a, b :: 0 <= a < |layout| && 0 <= b < |layout| && a != b ==> layout[a].id != layout[b].id
    ensures layout[i].id in DefaultStore(layout)
    ensures DefaultStore(layout)[layout[i].id] == DefaultValue(layout[i])
  {
    if i < |layout| - 1 {
      var front := layout[..|layout| - 1];
      assert layout[i].id != layout[|layout| - 1].id;
      DefaultStoreAt(front, i);
    }
  }
}
