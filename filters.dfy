/** The filter topology of one channel: a low-cut cascade of four biquad
    stages, one peak biquad and a high-cut cascade of four stages. Filter
    coefficients are opaque values produced by designers the model does not
    see; what is modelled is which stage holds which coefficients and which
    stages are bypassed. */
module Filters {
  import opened Settings

  /** One biquad section's coefficient set. */
  type Coefficients(==)

  /** Every cut filter is a chain of exactly four biquad stages. */
  const CutStages: nat := 4

  /** The abstract value of a cut filter: stage k's coefficients and bypass flag. */
  datatype CutState = CutState(stages: seq<Coefficients>, bypassed: seq<bool>)

  predicate WellFormed(c: CutState) {
    |c.stages| == CutStages && |c.bypassed| == CutStages
  }

  /** The abstract value of a channel chain, in the order LowCut, Peak, HighCut. */
  datatype ChainState = ChainState(lowCut: CutState, peak: Coefficients, highCut: CutState)

  predicate ChainWellFormed(ch: ChainState) {
    WellFormed(ch.lowCut) && WellFormed(ch.highCut)
  }

  /** The abstract value of the two-channel processor. */
  datatype ProcessorState = ProcessorState(left: ChainState, right: ChainState)

  predicate ProcessorWellFormed(p: ProcessorState) {
    ChainWellFormed(p.left) && ChainWellFormed(p.right)
  }

  /** A freshly constructed cut filter: every stage holds the filters' default
      coefficients and no stage is bypassed. */
  function InitialCut(identity: Coefficients): (c: CutState)
    ensures WellFormed(c)
    ensures forall k :: 0 <= k < CutStages ==> c.stages[k] == identity && !c.bypassed[k]
  {
    CutState(seq(CutStages, _ => identity), seq(CutStages, _ => false))
  }

  function InitialChain(identity: Coefficients): (ch: ChainState)
    ensures ChainWellFormed(ch)
  {
    ChainState(InitialCut(identity), identity, InitialCut(identity))
  }

  /** Marking every stage bypassed keeps every stage's coefficients. */
  function BypassAll(c: CutState): (r: CutState)
    requires WellFormed(c)
    ensures WellFormed(r) && r.stages == c.stages
    ensures forall k :: 0 <= k < CutStages ==> r.bypassed[k]
  {
    CutState(c.stages, seq(CutStages, _ => true))
  }

  /** Installing `coeffs` into stage k and un-bypassing it; no other stage changes. */
  function Engage(c: CutState, k: nat, coeffs: Coefficients): (r: CutState)
    requires WellFormed(c) && k < CutStages
    ensures WellFormed(r)
    ensures r.stages[k] == coeffs && !r.bypassed[k]
    ensures forall j :: 0 <= j < CutStages && j != k ==>
              r.stages[j] == c.stages[j] && r.bypassed[j] == c.bypassed[j]
  {
    CutState(c.stages[k := coeffs], c.bypassed[k := false])
  }

  /** Engaging stages 0..n-1 with designer outputs 0..n-1, one after the other. */
  function EngageFirst(c: CutState, design: seq<Coefficients>, n: nat): (r: CutState)
    requires WellFormed(c) && n <= CutStages && n <= |design|
    ensures WellFormed(r)
    ensures forall k :: 0 <= k < n ==> r.stages[k] == design[k] && !r.bypassed[k]
    ensures forall k :: n <= k < CutStages ==>
              r.stages[k] == c.stages[k] && r.bypassed[k] == c.bypassed[k]
  {
    if n == 0 then c else Engage(EngageFirst(c, design, n - 1), n - 1, design[n - 1])
  }

  /** How many low-cut stages the `switch` on the slope ordinal engages: one
      per 12 dB for a valid ordinal, none for a value that matches no case. */
  function ActiveStages(slope: int): (n: nat)
    ensures n <= CutStages
    ensures n == if 0 <= slope < 4 then slope + 1 else 0
  {
    match FromOrdinal(slope)
    case None => 0
    case Some(s) => StageCount(s)
  }

  /** The Butterworth order the high-pass designer is asked for. */
  function ButterworthOrder(slope: int): (order: int)
    ensures 0 <= slope < 4 ==> order % 2 == 0 && 2 <= order <= 8
    ensures 0 <= slope < 4 ==> order / 2 == ActiveStages(slope)
  {
    2 * (slope + 1)
  }

  /** What one configuration does to a cut cascade: bypass all four stages,
      then engage stages 0..slope for a valid slope ordinal. */
  function ConfigureCut(c: CutState, design: seq<Coefficients>, slope: int): (r: CutState)
    requires WellFormed(c) && |design| >= ActiveStages(slope)
    ensures WellFormed(r)
    ensures forall k :: 0 <= k < CutStages ==>
              (!r.bypassed[k] <==> 0 <= slope < 4 && k <= slope)
    ensures forall k :: 0 <= k < CutStages ==>
              r.stages[k] == if 0 <= slope < 4 && k <= slope then design[k] else c.stages[k]
  {
    EngageFirst(BypassAll(c), design, ActiveStages(slope))
  }

  /** The peak designer: sample rate, frequency, quality and gain in decibels
      to a biquad's coefficients (the decibel-to-gain conversion included). */
  type PeakDesigner = (real, real, real, real) -> Coefficients

  /** The Butterworth high-pass designer: cutoff frequency, sample rate and
      order to a sequence of second-order sections. */
  type CutDesigner = (real, real, int) -> seq<Coefficients>

  /** The designer delivers at least as many sections as the slope engages:
      `slope + 1` for a valid ordinal, nothing otherwise. */
  predicate SuppliesStages(design: CutDesigner, s: ChainSettings, sampleRate: real) {
    |design(s.lowCutFreq, sampleRate, ButterworthOrder(s.lowCutSlope))| >= ActiveStages(s.lowCutSlope)
  }

  /** One configuration of one chain: the peak biquad gets the peak design, the
      low cut is configured, the high cut is not touched. */
  function ConfigureChain(ch: ChainState, peak: Coefficients, cut: seq<Coefficients>, slope: int): (r: ChainState)
    requires ChainWellFormed(ch) && |cut| >= ActiveStages(slope)
    ensures ChainWellFormed(r)
    ensures r.peak == peak && r.highCut == ch.highCut
    ensures r.lowCut == ConfigureCut(ch.lowCut, cut, slope)
  {
    ChainState(ConfigureCut(ch.lowCut, cut, slope), peak, ch.highCut)
  }

  /** One configuration of the processor from a settings snapshot, as both
      prepare-time and per-block code perform it. */
  function Configure(p: ProcessorState, s: ChainSettings, sampleRate: real,
                     peakDesign: PeakDesigner, cutDesign: CutDesigner): (r: ProcessorState)
    requires ProcessorWellFormed(p) && SuppliesStages(cutDesign, s, sampleRate)
    ensures ProcessorWellFormed(r)
    ensures r.left.highCut == p.left.highCut && r.right.highCut == p.right.highCut
    ensures r.left.peak == r.right.peak == peakDesign(sampleRate, s.peakFreq, s.peakQuality, s.peakGainInDecibels)
    ensures r.left.lowCut.bypassed == r.right.lowCut.bypassed
    ensures r.left.lowCut == ConfigureCut(p.left.lowCut, cutDesign(s.lowCutFreq, sampleRate, ButterworthOrder(s.lowCutSlope)), s.lowCutSlope)
    ensures r.right.lowCut == ConfigureCut(p.right.lowCut, cutDesign(s.lowCutFreq, sampleRate, ButterworthOrder(s.lowCutSlope)), s.lowCutSlope)
  {
    var peak := peakDesign(sampleRate, s.peakFreq, s.peakQuality, s.peakGainInDecibels);
    var cut := cutDesign(s.lowCutFreq, sampleRate, ButterworthOrder(s.lowCutSlope));
    ProcessorState(ConfigureChain(p.left, peak, cut, s.lowCutSlope),
                   ConfigureChain(p.right, peak, cut, s.lowCutSlope))
  }

  /** A filter in a chain slot: a four-stage cut cascade or the single peak biquad. */
  datatype Filter = Cascade(cut: CutState) | Biquad(coeffs: Coefficients)

  /** The chain's filters in processing order: the filter at index
      `PositionIndex(p)` is the one the chain hands out for position p. */
  function ChainFilters(ch: ChainState): (fs: seq<Filter>)
    ensures |fs| == 3
    ensures forall p: ChainPosition :: fs[PositionIndex(p)].Biquad? <==> p == Peak
  {
    [Cascade(ch.lowCut), Biquad(ch.peak), Cascade(ch.highCut)]
  }

  /** Addressed by position, one configuration replaces the LowCut cascade and
      the Peak biquad and leaves the HighCut cascade as it was. */
  lemma ConfigureChainByPosition(ch: ChainState, peak: Coefficients, cut: seq<Coefficients>, slope: int)
    requires ChainWellFormed(ch) && |cut| >= ActiveStages(slope)
    ensures ChainFilters(ConfigureChain(ch, peak, cut, slope))[PositionIndex(LowCut)]
            == Cascade(ConfigureCut(ch.lowCut, cut, slope))
    ensures ChainFilters(ConfigureChain(ch, peak, cut, slope))[PositionIndex(Peak)] == Biquad(peak)
    ensures ChainFilters(ConfigureChain(ch, peak, cut, slope))[PositionIndex(HighCut)]
            == ChainFilters(ch)[PositionIndex(HighCut)]
  {
  }

  /** The number of stages that take part in the signal path. */
  function CountEngaged(bypassed: seq<bool>): (n: nat)
    ensures n <= |bypassed|
  {
    if bypassed == [] then 0
    else (if bypassed[0] then 0 else 1) + CountEngaged(bypassed[1..])
  }

  lemma {:induction false} CountEngagedPrefix(bypassed: seq<bool>, n: nat)
    requires n <= |bypassed|
    requires forall k :: 0 <= k < |bypassed| ==> (bypassed[k] <==> k >= n)
    ensures CountEngaged(bypassed) == n
  {
    if bypassed != [] {
      var rest := bypassed[1..];
      var m := if n == 0 then 0 else n - 1;
      forall k | 0 <= k < |rest| ensures rest[k] <==> k >= m {
        assert rest[k] == bypassed[k + 1];
      }
      CountEngagedPrefix(rest, m);
    }
  }

  /** After a configuration with slope ordinal s the low cut engages s + 1
      stages of 12 dB each: exactly the roll-off the slope's name promises.
      A value outside 0..3 leaves every stage bypassed. */
  lemma ConfiguredRollOff(c: CutState, design: seq<Coefficients>, slope: int)
    requires WellFormed(c) && |design| >= ActiveStages(slope)
    ensures 0 <= slope < 4 ==>
              12 * CountEngaged(ConfigureCut(c, design, slope).bypassed) == DbPerOctave(FromOrdinal(slope).value)
    ensures !(0 <= slope < 4) ==> CountEngaged(ConfigureCut(c, design, slope).bypassed) == 0
  {
    CountEngagedPrefix(ConfigureCut(c, design, slope).bypassed, ActiveStages(slope));
  }

  /** A second configuration with the same designer output and slope changes
      nothing: configuring is idempotent. */
  lemma ConfigureCutIdempotent(c: CutState, design: seq<Coefficients>, slope: int)
    requires WellFormed(c) && |design| >= ActiveStages(slope)
    ensures ConfigureCut(ConfigureCut(c, design, slope), design, slope) == ConfigureCut(c, design, slope)
  {
  }

  /** The processor-level configuration is idempotent: per-block
      reconfiguration with an unchanged snapshot reproduces the prepare-time
      state. */
  lemma ConfigureIdempotent(p: ProcessorState, s: ChainSettings, sampleRate: real,
                            peakDesign: PeakDesigner, cutDesign: CutDesigner)
    requires ProcessorWellFormed(p) && SuppliesStages(cutDesign, s, sampleRate)
    ensures Configure(Configure(p, s, sampleRate, peakDesign, cutDesign), s, sampleRate, peakDesign, cutDesign)
            == Configure(p, s, sampleRate, peakDesign, cutDesign)
  {
  }

  /** Left and right chains that start equal stay equal: both channels get
      the same peak coefficients and the same low-cut state. */
  lemma ConfigureKeepsChannelsEqual(p: ProcessorState, s: ChainSettings, sampleRate: real,
                                    peakDesign: PeakDesigner, cutDesign: CutDesigner)
    requires ProcessorWellFormed(p) && SuppliesStages(cutDesign, s, sampleRate)
    requires p.left == p.right
    ensures Configure(p, s, sampleRate, peakDesign, cutDesign).left
            == Configure(p, s, sampleRate, peakDesign, cutDesign).right
  {
  }

  /** The high-cut frequency and slope never influence the configuration. */
  lemma ConfigureIgnoresHighCut(p: ProcessorState, s: ChainSettings, highCutFreq: real, highCutSlope: int,
                                sampleRate: real, peakDesign: PeakDesigner, cutDesign: CutDesigner)
    requires ProcessorWellFormed(p) && SuppliesStages(cutDesign, s, sampleRate)
    ensures SuppliesStages(cutDesign, s.(highCutFreq := highCutFreq, highCutSlope := highCutSlope), sampleRate)
    ensures Configure(p, s.(highCutFreq := highCutFreq, highCutSlope := highCutSlope), sampleRate, peakDesign, cutDesign)
            == Configure(p, s, sampleRate, peakDesign, cutDesign)
  {
  }

  /** The configured state depends on the previous state only through the
      stages the slope leaves bypassed, and on nothing else of the old low
      cut: two chains that agree there end up identical. */
  lemma ConfigureCutForgetsEngaged(c: CutState, d: CutState, design: seq<Coefficients>, slope: int)
    requires WellFormed(c) && WellFormed(d) && |design| >= ActiveStages(slope)
    requires forall k :: ActiveStages(slope) <= k < CutStages ==> c.stages[k] == d.stages[k]
    ensures ConfigureCut(c, design, slope) == ConfigureCut(d, design, slope)
  {
  }

  /** A cut filter of four biquad stages with a bypass flag per stage, as the
      processor chain holds it: both are updated in place. */
  class CutFilter {
    const stages: array<Coefficients>
    const bypassed: array<bool>

    ghost predicate Valid() {
      stages.Length == CutStages && bypassed.Length == CutStages && stages as object != bypassed
    }

    function State(): (c: CutState)
      reads stages, bypassed
      requires Valid()
      ensures WellFormed(c)
    {
      CutState(stages[..], bypassed[..])
    }

    constructor (identity: Coefficients)
      ensures Valid() && fresh(stages) && fresh(bypassed)
      ensures State() == InitialCut(identity)
    {
      stages := new Coefficients[CutStages](_ => identity);
      bypassed := new bool[CutStages](_ => false);
    }

    /** `setBypassed<k>(b)`. */
    method SetBypassed(k: nat, b: bool)
      requires Valid() && k < CutStages
      modifies bypassed
      ensures bypassed[..] == old(bypassed[..])[k := b]
    {
      bypassed[k] := b;
    }

    /** `get<k>().coefficients = c`. */
    method SetCoefficients(k: nat, c: Coefficients)
      requires Valid() && k < CutStages
      modifies stages
      ensures stages[..] == old(stages[..])[k := c]
    {
      stages[k] := c;
    }

    /** Install designer output k into stage k and un-bypass it. */
    method EngageStage(design: seq<Coefficients>, k: nat)
      requires Valid() && k < CutStages && k < |design|
      modifies stages, bypassed
      ensures State() == Engage(old(State()), k, design[k])
    {
      SetCoefficients(k, design[k]);
      SetBypassed(k, false);
      assert State() == CutState(old(stages[..])[k := design[k]], old(bypassed[..])[k := false]);
    }

    /** The bypass-all prologue followed by the `switch` on the slope ordinal,
        whose cases list the stages to engage and which has no default. */
    method Configure(design: seq<Coefficients>, slope: int)
      requires Valid() && |design| >= ActiveStages(slope)
      modifies stages, bypassed
      ensures State() == ConfigureCut(old(State()), design, slope)
    {
      ghost var c := State();
      SetBypassed(0, true);
      SetBypassed(1, true);
      SetBypassed(2, true);
      SetBypassed(3, true);
      assert bypassed[..] == seq(CutStages, _ => true);
      ghost var b := BypassAll(c);
      assert State() == b;
      match FromOrdinal(slope)
      case None =>
        assert State() == EngageFirst(b, design, 0);
      case Some(Slope12) =>
        EngageStage(design, 0);
        assert State() == EngageFirst(b, design, 1);
      case Some(Slope24) =>
        EngageStage(design, 0);
        assert State() == EngageFirst(b, design, 1);
        EngageStage(design, 1);
        assert State() == EngageFirst(b, design, 2);
      case Some(Slope36) =>
        EngageStage(design, 0);
        assert State() == EngageFirst(b, design, 1);
        EngageStage(design, 1);
        assert State() == EngageFirst(b, design, 2);
        EngageStage(design, 2);
        assert State() == EngageFirst(b, design, 3);
      case Some(Slope48) =>
        EngageStage(design, 0);
        assert State() == EngageFirst(b, design, 1);
        EngageStage(design, 1);
        assert State() == EngageFirst(b, design, 2);
        EngageStage(design, 2);
        assert State() == EngageFirst(b, design, 3);
        EngageStage(design, 3);
        assert State() == EngageFirst(b, design, 4);
    }
  }

  /** One channel's chain: low cut, peak, high cut. The peak filter's
      coefficients are a value the configuration overwrites in place. */
  class MonoChain {
    const lowCut: CutFilter
    var peak: Coefficients
    const highCut: CutFilter
    ghost const Repr: set<object>

    ghost predicate Valid() {
      && Repr == {lowCut.stages, lowCut.bypassed, highCut.stages, highCut.bypassed}
      && lowCut.Valid() && highCut.Valid()
      && lowCut.stages != highCut.stages && lowCut.bypassed != highCut.bypassed
      && lowCut.stages as object != highCut.bypassed && highCut.stages as object != lowCut.bypassed
    }

    function State(): (ch: ChainState)
      reads this, Repr
      requires Valid()
      ensures ChainWellFormed(ch)
    {
      ChainState(lowCut.State(), peak, highCut.State())
    }

    constructor (identity: Coefficients)
      ensures Valid() && fresh(Repr)
      ensures State() == InitialChain(identity)
    {
      var low := new CutFilter(identity);
      var high := new CutFilter(identity);
      lowCut, peak, highCut := low, identity, high;
      Repr := {low.stages, low.bypassed, high.stages, high.bypassed};
    }
  }
}
