# TEP01-EQ filter-chain configuration, modelled in Dafny

TEP01-EQ is a three-band equalizer plugin: a low-cut (high-pass) cascade, a
peak (bell) biquad and a high-cut (low-pass) cascade on each of two channels.
Coefficient design and sample filtering are done by the audio framework. The
processor's own logic decides what happens in discrete terms, and this
project models that part:

- which of the four low-cut stages are engaged, and which designer output
  each stage holds, after a configuration with a given slope ordinal;
- that prepare time and every audio block run the same configuration;
- that left and right chains are configured identically;
- that the high-cut cascade is never touched;
- that output channels past the input count are zero-filled;
- the seven-parameter schema with its four slope labels, the snapshot of the
  parameter store, and the accepted bus layouts.

Modules:

- `Settings` (`settings.dfy`): the `Slope` enumeration and its ordinals, the
  stage count and dB/octave of each slope, the `ChainSettings` snapshot with
  its default initialisers, and the chain positions LowCut, Peak, HighCut.
- `Filters` (`filters.dfy`): an opaque `Coefficients` type and the abstract
  states of a cut cascade, a channel chain and the processor. The
  specification functions `BypassAll`, `Engage`, `EngageFirst`,
  `ConfigureCut` and `Configure` describe one configuration. The designers
  are function-valued parameters (`PeakDesigner`, `CutDesigner`). The classes
  `CutFilter`, with its 4-slot coefficient array and 4-slot bypass array,
  and `MonoChain` are the mutable objects. `CutFilter.Configure` performs the
  bypass-all prologue and the `switch` cases step by step.
- `Processor` (`processor.dfy`): channel sets, `IsBusesLayoutSupported`, the
  in-place channel clearing loop, and the class `EqProcessor`. Its two
  separately allocated chains are updated by `PrepareToPlay` and
  `ProcessBlock` through one shared `ConfigureChains`.
- `Parameters` (`parameters.dfy`): the decimal rendering of the slope
  labels, the label-building loop, the seven parameters, and
  `GetChainSettings` over a store that maps parameter ids to values.

The two entry points duplicate the configuration code between them
(`Source/PluginProcessor.cpp:104-193` and `237-326`). The model states it
once, as `EqProcessor.ConfigureChains`. Both entry points are proved to leave
the state `Configure(old state, snapshot, sample rate, designers)`.

Three things one might expect the code to do, which it does not do. The
model follows the code:

- Only the low cut is configured. The high-cut cascade keeps its initial
  coefficients and bypass flags, and `highCutFreq` and `highCutSlope` are
  read but never used.
- A slope ordinal outside 0..3 is passed to the designer as is. It matches no
  `switch` case, so all four low-cut stages end up bypassed. Nothing is
  clamped or rejected.
- No sample rate is rejected at prepare time.

## Model

| member | source | states |
|---|---|---|
| `Settings.Ordinal` | Source/PluginProcessor.h:13-18 | every enumerator's value lies in 0..3 |
| `Settings.FromOrdinal` | Source/PluginProcessor.h:13-18 | an integer selects an enumerator exactly when it lies in 0..3, and the selected enumerator's ordinal is that integer |
| `Settings.OrdinalRoundTrip` | Source/PluginProcessor.h:13-18 | every slope is selected by its own ordinal |
| `Settings.StageCount` | Source/PluginProcessor.h:93-97 | a slope needs between 1 and 4 stages, namely its ordinal + 1 |
| `Settings.DbPerOctave` | Source/PluginProcessor.h:93-97 | a slope's roll-off is 12 dB/oct per stage: a multiple of 12 from 12 to 48 |
| `Settings.DefaultChainSettings` | Source/PluginProcessor.h:23-27 | a default snapshot has Q 1, zero frequencies and gain, and both slopes Slope12 |
| `Settings.PositionIndex` | Source/PluginProcessor.h:103-107 | each chain position has an index below 3 |
| `Settings.PositionsAreOrdered` | Source/PluginProcessor.h:99-107 | LowCut, Peak and HighCut sit at positions 0, 1 and 2, one filter per position |
| `Filters.InitialCut` | Source/PluginProcessor.h:94-97 | a new cascade has four stages, each holding the default coefficients and not bypassed |
| `Filters.InitialChain` | Source/PluginProcessor.h:99-101 | a new chain is well formed: two four-stage cascades around the peak biquad |
| `Filters.BypassAll` | Source/PluginProcessor.cpp:121-124 | all four stages become bypassed and no coefficients change |
| `Filters.Engage` | Source/PluginProcessor.cpp:128-129 | stage k receives the given coefficients and is un-bypassed; every other stage is unchanged |
| `Filters.EngageFirst` | Source/PluginProcessor.cpp:126-155 | stages below n hold designer outputs 0..n-1 and are engaged; stages from n on are unchanged |
| `Filters.ActiveStages` | Source/PluginProcessor.cpp:126-155 | the `switch` engages slope + 1 stages for a slope in 0..3 and none for any other value |
| `Filters.ButterworthOrder` | Source/PluginProcessor.cpp:114-117 | for a valid slope the requested order is even, between 2 and 8, and twice the number of engaged stages |
| `Filters.ConfigureCut` | Source/PluginProcessor.cpp:119-155 | stage k ends up engaged iff the slope is in 0..3 and k <= slope; an engaged stage holds designer output k; every other stage keeps its old coefficients |
| `Filters.ConfigureChain` | Source/PluginProcessor.cpp:111-155 | the peak stage gets the peak design, the low cut becomes `ConfigureCut` of the old low cut with the designer output, and the high cut is left unchanged |
| `Filters.Configure` | Source/PluginProcessor.cpp:104-193 | both high cuts are unchanged; both peaks equal the peak designer's output for the snapshot; each low cut is `ConfigureCut` of its old state with the designer output for order 2 * (slope + 1); both low cuts have the same bypass flags |
| `Filters.ChainFilters` | Source/PluginProcessor.h:99-107 | the chain holds three filters in the order of the positions, and only the Peak position holds a single biquad |
| `Filters.ConfigureChainByPosition` | Source/PluginProcessor.cpp:111-119 | addressed by position, a configuration puts the configured cascade at LowCut and the peak design at Peak, and keeps the filter at HighCut |
| `Filters.CountEngagedPrefix` | Source/PluginProcessor.h:93-97 | a bypass pattern that engages exactly the first n stages engages n stages |
| `Filters.ConfiguredRollOff` | Source/PluginProcessor.cpp:119-155 | after configuring with slope s in 0..3, 12 dB times the number of engaged stages equals the named roll-off of slope s; for any other value no stage is engaged |
| `Filters.ConfigureCutIdempotent` | Source/PluginProcessor.cpp:254-288 | configuring a cascade a second time with the same designer output and slope changes nothing |
| `Filters.ConfigureIdempotent` | Source/PluginProcessor.cpp:237-326 | a per-block configuration with an unchanged snapshot reproduces the state the previous configuration left |
| `Filters.ConfigureKeepsChannelsEqual` | Source/PluginProcessor.cpp:111-193 | left and right chains that are equal before a configuration are equal after it |
| `Filters.ConfigureIgnoresHighCut` | Source/PluginProcessor.cpp:104-117 | changing the snapshot's high-cut frequency or slope does not change the configured state |
| `Filters.ConfigureCutForgetsEngaged` | Source/PluginProcessor.cpp:121-155 | the configured cascade depends on the old cascade only through the stages the slope leaves bypassed |
| `Filters.CutFilter.constructor` | Source/PluginProcessor.h:97 | a new cut filter has fresh coefficient and bypass arrays in the initial state |
| `Filters.CutFilter.SetBypassed` | Source/PluginProcessor.cpp:121 | only the bypass flag of stage k changes, and it takes the given value |
| `Filters.CutFilter.SetCoefficients` | Source/PluginProcessor.cpp:128 | only the coefficients of stage k change, and they take the given value |
| `Filters.CutFilter.EngageStage` | Source/PluginProcessor.cpp:128-129 | the new state is `Engage` of the old one with designer output k |
| `Filters.CutFilter.Configure` | Source/PluginProcessor.cpp:121-155 | the in-place bypass-all prologue and `switch` leave the cascade in state `ConfigureCut(old state, designer output, slope)` |
| `Filters.MonoChain.constructor` | Source/PluginProcessor.h:99 | a new chain has two fresh cascades on non-aliased arrays and the default peak coefficients |
| `Processor.IsBusesLayoutSupported` | Source/PluginProcessor.cpp:203-225 | a layout is accepted iff its output is mono or stereo and its input equals its output |
| `Processor.SupportedLayoutClearsNothing` | Source/PluginProcessor.cpp:213-235 | under an accepted layout input and output have the same 1 or 2 channels, so no channel is cleared |
| `Processor.DispatchedChannels` | Source/PluginProcessor.cpp:328-336 | as written, the chains are always run on channels 0 and 1 |
| `Processor.MonoLayoutDispatchesMissingChannel` | Source/PluginProcessor.cpp:213-220 | the mono layout is accepted, but the right chain's channel 1 is missing from its one-channel buffer |
| `Processor.ChannelsToProcess` | Source/PluginProcessor.cpp:328-336 | the chains run on channel i, for each i below both 2 and the buffer's channel count |
| `Processor.ChannelsToProcessMatchesStereo` | Source/PluginProcessor.cpp:329-330 | a buffer with two or more channels gets the written dispatch 0, 1 |
| `Processor.ChannelsToProcessInRange` | Source/PluginProcessor.cpp:203-225 | under every accepted layout, exactly the layout's channels are processed and all of them exist |
| `Processor.ClearChannels` | Source/PluginProcessor.cpp:234-235 | channels from the input count up to the output count are zero over the whole block; all other channels keep their samples |
| `Processor.EqProcessor.constructor` | Source/PluginProcessor.h:101 | the two chains are separate fresh objects that start out equal, and the sample rate starts at 0 |
| `Processor.EqProcessor.ConfigureChains` | Source/PluginProcessor.cpp:104-193 | the new chain state is `Configure` of the old one at the stored sample rate; the high-cut arrays are outside the frame |
| `Processor.EqProcessor.PrepareToPlay` | Source/PluginProcessor.cpp:94-194 | the sample rate is recorded and the chains are configured from the snapshot at that rate |
| `Processor.EqProcessor.ProcessBlock` | Source/PluginProcessor.cpp:228-337 | surplus output channels are zeroed and others kept; the chains are configured as at prepare time; the channels handed to the left and right chains are always 0 and 1, so a one-channel buffer has no channel for the right chain |
| `Parameters.DecimalString` | Source/PluginProcessor.cpp:382 | an integer is written as a non-empty string of decimal digits |
| `Parameters.DecimalRoundTrip` | Source/PluginProcessor.cpp:382 | the written digits denote the integer written |
| `Parameters.SlopeOptions` | Source/PluginProcessor.cpp:379-385 | the loop yields exactly four options, option i being 12 + 12 i followed by " db/oct" |
| `Parameters.SlopeLabelsNameSlopes` | Source/PluginProcessor.cpp:380-385 | the label of slope ordinal i names that slope's dB/oct, and no two choices share a label |
| `Parameters.SlopeLabelTexts` | Source/PluginProcessor.cpp:380-385 | the labels are "12 db/oct", "24 db/oct", "36 db/oct" and "48 db/oct" |
| `Parameters.ParameterLayout` | Source/PluginProcessor.cpp:387-430 | seven parameters whose ids appear in declaration order; both slope parameters offer the given options |
| `Parameters.CreateParameterLayout` | Source/PluginProcessor.cpp:375-433 | seven parameters with the declared ids; both choices offer the four slope labels; every default lies in its range |
| `Parameters.ParameterIdsDistinct` | Source/PluginProcessor.cpp:389-425 | no two parameters share an id |
| `Parameters.ParameterDefaultsInRange` | Source/PluginProcessor.cpp:387-430 | 20, 20000 and 650 lie in [20, 20000], 0 in [-24, 24], 1 in [0.1, 10], and choice index 0 is a valid choice |
| `Parameters.TruncateToInt` | Source/PluginProcessor.cpp:449-450 | a float converts to the integer that truncates it toward zero |
| `Parameters.GetChainSettings` | Source/PluginProcessor.cpp:435-453 | each snapshot field is the store's value under its parameter id; each slope is its stored value truncated toward zero |
| `Parameters.SnapshotWithinRanges` | Source/PluginProcessor.cpp:435-453 | a store within the declared ranges yields in-range frequencies, gain and Q, and slope ordinals that each select one of the four slopes |
| `Parameters.DefaultSnapshot` | Source/PluginProcessor.cpp:387-453 | a store of defaults snapshots to low cut 20, high cut 20000, peak 650 Hz at 0 dB and Q 1, both slopes Slope12 |

## Findings

| source | as written | input that shows it | evidently intended | confidence | as-written member | corrected member |
|---|---|---|---|---|---|---|
| Source/PluginProcessor.cpp:329-330 | the right chain is always run on buffer channel 1 | layout mono in, mono out: `isBusesLayoutSupported` accepts it (lines 213-220), and its buffer has one channel | run each chain only on a channel the buffer has | medium, not executed | `Processor.MonoLayoutDispatchesMissingChannel` | `Processor.ChannelsToProcess` |

## Left out

- Coefficient design: the peak-filter designer and the Butterworth high-pass designer are floating-point framework code. They are the abstract `PeakDesigner` and `CutDesigner`. The decibel-to-gain conversion is folded into `PeakDesigner`. Coefficients are an opaque type.
- `SuppliesStages` is the designer's one assumed property: for a slope in 0..3 it returns at least slope + 1 sections. For other slopes the designer is still called with order 2 * (slope + 1), but nothing of its result is used.
- Sample processing: biquad filtering, chain execution and the replacing process contexts are framework code with float numerics. `ProcessBlock` returns the channel indices it hands to the left and right chains instead of running them.
- The filters' internal history and its reset by the chains' `prepare` call are not modelled, because that state exists only for sample processing. The processing spec built in `prepareToPlay` (block size, one channel) is not modelled either, and `samplesPerBlock` is unused.
- Stage coefficients are values. In the source, a cut stage's coefficient pointer is made to point at the designer's object, so the left and right stages share one object. Nothing mutates it afterwards, so sharing is not observable here.
- Floats are modelled as reals: parameter bounds such as 0.1 are exact, and normalisable-range skew and interval are stored but carry no mapping. Denormal flushing is a CPU-state concern.
- Parameter-store access: the atomic loads are concurrency in a foreign store. The store is a map from parameter id to value, taken as one snapshot.
- The host's current sample rate, read in `processBlock`, is the `sampleRate` field recorded by `PrepareToPlay`. The host's total input and output channel counts are parameters of `ProcessBlock`.
- Only the audio-effect build of `isBusesLayoutSupported` is modelled. The MIDI-effect and synth branches are compiled out for this plugin. Channel sets other than mono and stereo are described only by a name and a size.
- Host integration stubs are not modelled: name, MIDI flags, tail length, program methods, editor creation, the empty state save and restore, `releaseResources` and `createPluginFilter`. None of them affects the filter state.
