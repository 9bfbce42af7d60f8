/** The declarations of the plugin's header: the slope enumeration, the
    parameter snapshot with its default initialisers, and the fixed positions
    of the three filters in a channel chain. */
module Settings {

  datatype Option<T> = None | Some(value: T)

  /** The four roll-off choices of a cut filter, declared in this order. */
  datatype Slope = Slope12 | Slope24 | Slope36 | Slope48

  /** The enumerator's value in the C++ enum (declaration order, from 0). */
  function Ordinal(s: Slope): (n: nat)
    ensures n < 4
  {
    match s
    case Slope12 => 0
    case Slope24 => 1
    case Slope36 => 2
    case Slope48 => 3
  }

  /** The enumerator an integer selects as a `switch` case label, if any;
      an integer outside 0..3 matches no label. */
  function FromOrdinal(n: int): (r: Option<Slope>)
    ensures r.Some? <==> 0 <= n < 4
    ensures r.Some? ==> Ordinal(r.value) == n
  {
    if n == 0 then Some(Slope12)
    else if n == 1 then Some(Slope24)
    else if n == 2 then Some(Slope36)
    else if n == 3 then Some(Slope48)
    else None
  }

  lemma OrdinalRoundTrip(s: Slope)
    ensures FromOrdinal(Ordinal(s)) == Some(s)
  {
  }

  /** Each biquad stage rolls off 12 dB per octave; a slope needs one stage
      per 12 dB, so 1 to 4 stages. */
  function StageCount(s: Slope): (n: nat)
    ensures 1 <= n <= 4
    ensures n == Ordinal(s) + 1
  {
    match s
    case Slope12 => 1
    case Slope24 => 2
    case Slope36 => 3
    case Slope48 => 4
  }

  /** The roll-off, in dB per octave, that the enumerator's name promises. */
  function DbPerOctave(s: Slope): (d: nat)
    ensures d == 12 * StageCount(s)
    ensures d % 12 == 0 && 12 <= d <= 48
  {
    match s
    case Slope12 => 12
    case Slope24 => 24
    case Slope36 => 36
    case Slope48 => 48
  }

  /** The snapshot of all seven parameters that one configuration reads.
      Floating-point fields are modelled as reals; the slopes are plain
      integers, as in the struct, so that out-of-range values can be
      represented. */
  datatype ChainSettings = ChainSettings(
    peakFreq: real,
    peakGainInDecibels: real,
    peakQuality: real,
    lowCutFreq: real,
    highCutFreq: real,
    lowCutSlope: int,
    highCutSlope: int)

  /** The value of a default-initialised `ChainSettings`. */
  function DefaultChainSettings(): (c: ChainSettings)
    ensures c.peakQuality == 1.0
    ensures c.peakFreq == 0.0 && c.peakGainInDecibels == 0.0
    ensures c.lowCutFreq == 0.0 && c.highCutFreq == 0.0
    ensures FromOrdinal(c.lowCutSlope) == Some(Slope12)
    ensures FromOrdinal(c.highCutSlope) == Some(Slope12)
  {
    ChainSettings(0.0, 0.0, 1.0, 0.0, 0.0, Ordinal(Slope12), Ordinal(Slope12))
  }

  /** The three filters of a channel chain, in processing order. */
  datatype ChainPosition = LowCut | Peak | HighCut

  function PositionIndex(p: ChainPosition): (i: nat)
    ensures i < 3
  {
    match p
    case LowCut => 0
    case Peak => 1
    case HighCut => 2
  }

  /** The chain is the ordered triple LowCut, Peak, HighCut: positions 0, 1
      and 2, one filter per position. */
  lemma PositionsAreOrdered(p: ChainPosition, q: ChainPosition)
    ensures PositionIndex(p) == PositionIndex(q) <==> p == q
    ensures [PositionIndex(LowCut), PositionIndex(Peak), PositionIndex(HighCut)] == [0, 1, 2]
  {
  }
}
