/** The two-channel audio processor: its accepted bus layouts, the clearing
    of surplus output channels, and the configuration of the left and right
    chains at prepare time and at the start of every audio block. */
module Processor {
  import opened Settings
  import opened Filters

  /** A main bus's channel set. Mono and stereo are the two named sets the
      processor looks at; every other set is described by a name and its
      number of channels. */
  datatype ChannelSet = Disabled | Mono | Stereo | Other(setName: string, size: nat)

  function ChannelCount(c: ChannelSet): (n: nat)
    ensures c == Mono ==> n == 1
    ensures c == Stereo ==> n == 2
    ensures c == Disabled ==> n == 0
  {
    match c
    case Disabled => 0
    case Mono => 1
    case Stereo => 2
    case Other(_, size) => size
  }

  datatype BusesLayout = BusesLayout(mainInput: ChannelSet, mainOutput: ChannelSet)

  /** The processor is an audio effect (neither a MIDI effect nor a synth):
      the output must be mono or stereo, and the input must match it. */
  predicate IsBusesLayoutSupported(layout: BusesLayout): (ok: bool)
    ensures ok <==> (layout.mainOutput == Mono || layout.mainOutput == Stereo)
                    && layout.mainOutput == layout.mainInput
  {
    if layout.mainOutput != Mono && layout.mainOutput != Stereo then false
    else if layout.mainOutput != layout.mainInput then false
    else true
  }

  /** Under an accepted layout input and output have the same one or two
      channels, so the block prologue (which zero-fills the output channels
      at or past the input count) clears no channel. */
  lemma SupportedLayoutClearsNothing(layout: BusesLayout, ch: int)
    requires IsBusesLayoutSupported(layout)
    ensures 1 <= ChannelCount(layout.mainOutput) <= 2
    ensures ChannelCount(layout.mainInput) == ChannelCount(layout.mainOutput)
    ensures !(ChannelCount(layout.mainInput) <= ch < ChannelCount(layout.mainOutput))
  {
  }

  /** The buffer channels the block code hands to the left and right chains,
      as written: always channel 0 and channel 1. */
  function DispatchedChannels(): (channels: seq<nat>)
    ensures |channels| == 2 && channels[0] == 0 && channels[1] == 1
  {
    [0, 1]
  }

  /** The mono layout is accepted, yet its one-channel buffer has no channel 1
      for the right chain. */
  lemma MonoLayoutDispatchesMissingChannel()
    ensures IsBusesLayoutSupported(BusesLayout(Mono, Mono))
    ensures DispatchedChannels()[1] >= ChannelCount(Mono)
  {
  }

  /** The channels the chains should be run on: channel 0 for the left chain
      and channel 1 for the right chain, each only if the buffer has it. */
  function ChannelsToProcess(numChannels: nat): (channels: seq<nat>)
    ensures |channels| == if numChannels < 2 then numChannels else 2
    ensures forall i :: 0 <= i < |channels| ==> channels[i] == i && i < numChannels
  {
    if numChannels == 0 then [] else if numChannels == 1 then [0] else [0, 1]
  }

  /** With two or more channels the corrected dispatch is the written one. */
  lemma ChannelsToProcessMatchesStereo(numChannels: nat)
    requires numChannels >= 2
    ensures ChannelsToProcess(numChannels) == DispatchedChannels()
  {
  }

  /** The corrected dispatch never names a channel the buffer does not have,
      under any accepted layout. */
  lemma ChannelsToProcessInRange(layout: BusesLayout)
    requires IsBusesLayoutSupported(layout)
    ensures forall i :: 0 <= i < |ChannelsToProcess(ChannelCount(layout.mainOutput))| ==>
              ChannelsToProcess(ChannelCount(layout.mainOutput))[i] < ChannelCount(layout.mainOutput)
    ensures |ChannelsToProcess(ChannelCount(layout.mainOutput))| == ChannelCount(layout.mainOutput)
  {
  }

  /** The block prologue: every channel from `numInputs` up to `numOutputs` is
      zeroed over the whole block; every other channel is left as it was. */
  method ClearChannels(buffer: array2<real>, numInputs: nat, numOutputs: nat)
    requires numInputs < numOutputs ==> numOutputs <= buffer.Length0
    modifies buffer
    ensures forall ch, j :: 0 <= ch < buffer.Length0 && 0 <= j < buffer.Length1 ==>
              buffer[ch, j] == if numInputs <= ch < numOutputs then 0.0 else old(buffer[ch, j])
  {
    var i := numInputs;
    while i < numOutputs
      invariant numInputs <= i <= if numInputs < numOutputs then numOutputs else numInputs
      invariant forall ch, j :: 0 <= ch < buffer.Length0 && 0 <= j < buffer.Length1 ==>
                  buffer[ch, j] == if numInputs <= ch < i then 0.0 else old(buffer[ch, j])
    {
      forall j | 0 <= j < buffer.Length1 {
        buffer[i, j] := 0.0;
      }
      i := i + 1;
    }
  }

  /** The processor owns two separate chains, one per channel. */
  class EqProcessor {
    const left: MonoChain
    const right: MonoChain
    /** The rate the host last prepared the processor with. */
    var sampleRate: real

    ghost predicate Valid() {
      left.Valid() && right.Valid() && left != right && left.Repr !! right.Repr
    }

    function State(): (p: ProcessorState)
      reads left, right, left.Repr, right.Repr
      requires Valid()
      ensures ProcessorWellFormed(p)
    {
      ProcessorState(left.State(), right.State())
    }

    /** Both chains start from default-constructed filters, so they start
        equal. */
    constructor (identity: Coefficients)
      ensures Valid() && fresh(left) && fresh(right) && fresh(left.Repr) && fresh(right.Repr)
      ensures State() == ProcessorState(InitialChain(identity), InitialChain(identity))
      ensures State().left == State().right
      ensures sampleRate == 0.0
    {
      left := new MonoChain(identity);
      right := new MonoChain(identity);
      sampleRate := 0.0;
    }

    /** The configuration shared by prepare time and every block: the peak
        stage of both chains receives the same designed coefficients, the
        high-pass designer is asked for order 2 * (slope + 1), and both low cuts
        are configured from its output. The high cuts are not touched. */
    method ConfigureChains(s: ChainSettings, peakDesign: PeakDesigner, cutDesign: CutDesigner)
      requires Valid() && SuppliesStages(cutDesign, s, sampleRate)
      modifies left, right, left.lowCut.stages, left.lowCut.bypassed, right.lowCut.stages, right.lowCut.bypassed
      ensures Valid()
      ensures State() == Configure(old(State()), s, sampleRate, peakDesign, cutDesign)
    {
      ghost var before := State();
      var peakCoeffs := peakDesign(sampleRate, s.peakFreq, s.peakQuality, s.peakGainInDecibels);
      left.peak := peakCoeffs;
      right.peak := peakCoeffs;
      var cutCoefficients := cutDesign(s.lowCutFreq, sampleRate, 2 * (s.lowCutSlope + 1));
      left.lowCut.Configure(cutCoefficients, s.lowCutSlope);
      assert left.State() == ConfigureChain(before.left, peakCoeffs, cutCoefficients, s.lowCutSlope);
      right.lowCut.Configure(cutCoefficients, s.lowCutSlope);
      assert right.State() == ConfigureChain(before.right, peakCoeffs, cutCoefficients, s.lowCutSlope);
    }

    /** Prepare time: the new sample rate is recorded and the chains are
        configured from the current snapshot. */
    method PrepareToPlay(newSampleRate: real, samplesPerBlock: int, s: ChainSettings,
                         peakDesign: PeakDesigner, cutDesign: CutDesigner)
      requires Valid() && SuppliesStages(cutDesign, s, newSampleRate)
      modifies this, left, right, left.lowCut.stages, left.lowCut.bypassed, right.lowCut.stages, right.lowCut.bypassed
      ensures Valid() && sampleRate == newSampleRate
      ensures State() == Configure(old(State()), s, newSampleRate, peakDesign, cutDesign)
    {
      sampleRate := newSampleRate;
      ConfigureChains(s, peakDesign, cutDesign);
    }

    /** One audio block: surplus output channels are zeroed, the chains are
        configured from the current snapshot at the prepared sample rate, and
        the channels handed to the left and right chains are returned: as
        written, channel 0 and channel 1 whatever the buffer's channel count. */
    method ProcessBlock(buffer: array2<real>, numInputs: nat, numOutputs: nat, s: ChainSettings,
                        peakDesign: PeakDesigner, cutDesign: CutDesigner)
      returns (channels: seq<nat>)
      requires Valid() && SuppliesStages(cutDesign, s, sampleRate)
      requires numInputs < numOutputs ==> numOutputs <= buffer.Length0
      modifies buffer, left, right, left.lowCut.stages, left.lowCut.bypassed, right.lowCut.stages, right.lowCut.bypassed
      ensures Valid() && sampleRate == old(sampleRate)
      ensures State() == Configure(old(State()), s, sampleRate, peakDesign, cutDesign)
      ensures forall ch, j :: 0 <= ch < buffer.Length0 && 0 <= j < buffer.Length1 ==>
                buffer[ch, j] == if numInputs <= ch < numOutputs then 0.0 else old(buffer[ch, j])
      ensures channels == DispatchedChannels()
      ensures buffer.Length0 == 1 ==> channels[1] >= buffer.Length0
    {
      ClearChannels(buffer, numInputs, numOutputs);
      ConfigureChains(s, peakDesign, cutDesign);
      channels := DispatchedChannels();
    }
  }
}
