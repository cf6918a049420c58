/** The audio component of the older revision: the same link notifications
    and pull count as the newer one, plus a channel count and an indirect
    input buffer sized by `init`, and no velocity. */
module LegacyAudio {
  import opened Common

  /** A delay line linking this component to `dest`. Its processing is not
      part of this model; `readable` is the count its `readable()` reports. */
  class DelayLine {
    const dest: AudioComponent
    var readable: SizeT

    constructor (dest: AudioComponent, readable: SizeT)
      ensures this.dest == dest && this.readable == readable
    {
      this.dest := dest;
      this.readable := readable;
    }
  }

  /** A call of `otherTransformUpdated` on the far end of `link`. */
  datatype Notice = Notice(dest: AudioComponent, link: DelayLine, outgoing: bool)

  /** `std::vector<float>::resize`: keeps the first `n` samples and pads with
      zeros up to `n`. */
  function Resize(buffer: seq<real>, n: nat): (r: seq<real>)
    ensures |r| == n
    ensures forall i :: 0 <= i < n && i < |buffer| ==> r[i] == buffer[i]
    ensures forall i :: |buffer| <= i < n ==> r[i] == 0.0
  {
    if n <= |buffer| then buffer[..n] else buffer + seq(n - |buffer|, _ => 0.0)
  }

  /** Resizing again to the same size changes nothing, so a repeated `init`
      with the same buffer size leaves the buffer as the first one did. */
  lemma ResizeIdempotent(buffer: seq<real>, n: nat)
    ensures Resize(Resize(buffer, n), n) == Resize(buffer, n)
  {
    var r := Resize(buffer, n);
    assert Resize(r, n) == r[..n];
  }

  class AudioComponent {
    var acceptsInput: bool
    var acceptsOutput: bool
    var dirtyTransform: bool
    var sampleRate: real
    var channels: nat
    var indirectInputBuffer: seq<real>
    var position: Vec3
    var forward: Vec3
    var inputs: seq<DelayLine>
    var outputs: seq<DelayLine>

    constructor ()
      ensures !acceptsInput && !acceptsOutput && !dirtyTransform
      ensures sampleRate == 0.0 && channels == 0
      ensures inputs == [] && outputs == [] && indirectInputBuffer == []
    {
      acceptsInput, acceptsOutput, dirtyTransform := false, false, false;
      sampleRate, channels := 0.0, 0;
      indirectInputBuffer := [];
      position, forward := Zero, Zero;
      inputs, outputs := [], [];
    }

    /** Stores the rate and channel count, resizes the indirect input buffer
        to `bufferSize`, then initialises every input and every output link
        with the rate (each `init` call is returned in call order, with the
        rate it was given). */
    method Init(rate: real, channelCount: nat, bufferSize: nat) returns (initialized: seq<(DelayLine, real)>)
      modifies this
      ensures sampleRate == rate && channels == channelCount
      ensures indirectInputBuffer == Resize(old(indirectInputBuffer), bufferSize)
      ensures |initialized| == |inputs| + |outputs|
      ensures forall k :: 0 <= k < |inputs| ==> initialized[k] == (inputs[k], rate)
      ensures forall k :: 0 <= k < |outputs| ==> initialized[|inputs| + k] == (outputs[k], rate)
      ensures forall k :: 0 <= k < |initialized| ==> initialized[k].1 == sampleRate
      ensures inputs == old(inputs) && outputs == old(outputs) && dirtyTransform == old(dirtyTransform)
      ensures position == old(position) && forward == old(forward)
      ensures acceptsInput == old(acceptsInput) && acceptsOutput == old(acceptsOutput)
    {
      sampleRate := rate;
      channels := channelCount;
      indirectInputBuffer := Resize(indirectInputBuffer, bufferSize);
      initialized := [];
      for i := 0 to |inputs|
        invariant |initialized| == i
        invariant forall k :: 0 <= k < i ==> initialized[k] == (inputs[k], rate)
        invariant forall k :: 0 <= k < |initialized| ==> initialized[k].1 == rate
      {
        initialized := initialized + [(inputs[i], rate)];
      }
      for i := 0 to |outputs|
        invariant |initialized| == |inputs| + i
        invariant forall k :: 0 <= k < |inputs| ==> initialized[k] == (inputs[k], rate)
        invariant forall k :: 0 <= k < i ==> initialized[|inputs| + k] == (outputs[k], rate)
        invariant forall k :: 0 <= k < |initialized| ==> initialized[k].1 == rate
      {
        initialized := initialized + [(outputs[i], rate)];
      }
    }

    method Position() returns (p: Vec3)
      ensures p == position
    {
      p := position;
    }

    method Forward() returns (f: Vec3)
      ensures f == forward
    {
      f := forward;
    }

    /** Marks the transform dirty and notifies the far end of every output
        (outgoing) and then of every input (incoming). */
    method TransformUpdated() returns (notices: seq<Notice>)
      modifies this
      ensures dirtyTransform
      ensures |notices| == |outputs| + |inputs|
      ensures forall k :: 0 <= k < |outputs| ==> notices[k] == Notice(outputs[k].dest, outputs[k], true)
      ensures forall k :: 0 <= k < |inputs| ==> notices[|outputs| + k] == Notice(inputs[k].dest, inputs[k], false)
      ensures inputs == old(inputs) && outputs == old(outputs)
      ensures position == old(position) && sampleRate == old(sampleRate) && channels == old(channels)
      ensures forward == old(forward) && indirectInputBuffer == old(indirectInputBuffer)
      ensures acceptsInput == old(acceptsInput) && acceptsOutput == old(acceptsOutput)
    {
      dirtyTransform := true;
      notices := [];
      for i := 0 to |outputs|
        invariant |notices| == i
        invariant forall k :: 0 <= k < i ==> notices[k] == Notice(outputs[k].dest, outputs[k], true)
      {
        notices := notices + [Notice(outputs[i].dest, outputs[i], true)];
      }
      for i := 0 to |inputs|
        invariant |notices| == |outputs| + i
        invariant forall k :: 0 <= k < |outputs| ==> notices[k] == Notice(outputs[k].dest, outputs[k], true)
        invariant forall k :: 0 <= k < i ==> notices[|outputs| + k] == Notice(inputs[k].dest, inputs[k], false)
      {
        notices := notices + [Notice(inputs[i].dest, inputs[i], false)];
      }
    }

    /** The smallest readable count over all inputs, or `SIZE_MAX` when there
        are no inputs. */
    method PullCount() returns (shortest: SizeT)
      ensures forall k :: 0 <= k < |inputs| ==> shortest <= inputs[k].readable
      ensures inputs == [] ==> shortest == SIZE_MAX
      ensures inputs != [] ==> exists k :: 0 <= k < |inputs| && shortest == inputs[k].readable
    {
      shortest := SIZE_MAX;
      for i := 0 to |inputs|
        invariant forall k :: 0 <= k < i ==> shortest <= inputs[k].readable
        invariant i == 0 ==> shortest == SIZE_MAX
        invariant i > 0 ==> exists k :: 0 <= k < i && shortest == inputs[k].readable
      {
        var count := inputs[i].readable;
        if count < shortest {
          shortest := count;
        }
      }
    }
  }
}
