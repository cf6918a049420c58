/** The audio component of the newer revision: a node of the audio graph with
    input and output links to other components. It flags transform changes,
    tells the far end of every link, derives the per-link radial velocity for
    the doppler stage, and reports how many samples all inputs can supply. */
module AudioComponents {
  import opened Common

  /** A delay line linking this component to `dest`, the component at its
      other end. Its own processing is not part of this model: `readable` is
      the count its `readable()` reports, and `velocity` is the radial
      velocity written for its doppler stage. */
  class DelayLine {
    const dest: AudioComponent
    var velocity: real
    var readable: SizeT

    constructor (dest: AudioComponent, readable: SizeT)
      ensures this.dest == dest && this.readable == readable && velocity == 0.0
    {
      this.dest := dest;
      this.readable := readable;
      velocity := 0.0;
    }
  }

  /** A call of `otherTransformUpdated` on the far end of `link`; `outgoing`
      says whether `link` is one of the caller's outputs. */
  datatype Notice = Notice(dest: AudioComponent, link: DelayLine, outgoing: bool)

  /** The radial velocity stored on an output link: the direction towards the
      far end, dotted with the caller's velocity relative to the far end's.
      Equal velocities give no radial velocity, and it is the negated rate at
      which the far end moves along that direction relative to the caller. */
  function OutgoingRadial(normal: Vec3 -> Vec3, selfPos: Vec3, selfVel: Vec3, destPos: Vec3, destVel: Vec3): (r: real)
    ensures selfVel == destVel ==> r == 0.0
    ensures r == -Dot(normal(Sub(destPos, selfPos)), Sub(destVel, selfVel))
  {
    Dot(normal(Sub(destPos, selfPos)), Sub(selfVel, destVel))
  }

  /** The radial velocity stored on an input link, with both differences
      mirrored relative to the output case; again zero for equal velocities,
      and the negated rate at which the caller moves away from the far end. */
  function IncomingRadial(normal: Vec3 -> Vec3, selfPos: Vec3, selfVel: Vec3, destPos: Vec3, destVel: Vec3): (r: real)
    ensures selfVel == destVel ==> r == 0.0
    ensures r == -Dot(normal(Sub(selfPos, destPos)), Sub(selfVel, destVel))
  {
    Dot(normal(Sub(selfPos, destPos)), Sub(destVel, selfVel))
  }

  /** Doppler symmetry: for components A and B, A's output link towards B and
      B's input link from A get the same value, whatever `normal` is. */
  lemma LinkVelocitySymmetric(normal: Vec3 -> Vec3, posA: Vec3, velA: Vec3, posB: Vec3, velB: Vec3)
    ensures OutgoingRadial(normal, posA, velA, posB, velB) == IncomingRadial(normal, posB, velB, posA, velA)
  {
  }

  class AudioComponent {
    var acceptsInput: bool
    var acceptsOutput: bool
    var dirtyTransform: bool
    var sampleRate: real
    var position: Vec3
    var velocity: Vec3
    var forward: Vec3
    var inputs: seq<DelayLine>
    var outputs: seq<DelayLine>

    /** Each link object is listed once among inputs and outputs. */
    ghost predicate LinksDistinct()
      reads this
    {
      && (forall i, j :: 0 <= i < j < |inputs| ==> inputs[i] != inputs[j])
      && (forall i, j :: 0 <= i < j < |outputs| ==> outputs[i] != outputs[j])
      && (forall i, j :: 0 <= i < |inputs| && 0 <= j < |outputs| ==> inputs[i] != outputs[j])
    }

    constructor ()
      ensures !acceptsInput && !acceptsOutput && !dirtyTransform && sampleRate == 0.0
      ensures inputs == [] && outputs == []
    {
      acceptsInput, acceptsOutput, dirtyTransform := false, false, false;
      sampleRate := 0.0;
      position, velocity, forward := Zero, Zero, Zero;
      inputs, outputs := [], [];
    }

    /** Initialises every input and then every output link with `rate` (each
        `init` call is returned in call order, with the rate it was given)
        and stores the rate. */
    method Init(rate: real, channels: nat, bufferSize: nat) returns (initialized: seq<(DelayLine, real)>)
      modifies this
      ensures |initialized| == |inputs| + |outputs|
      ensures forall k :: 0 <= k < |inputs| ==> initialized[k] == (inputs[k], rate)
      ensures forall k :: 0 <= k < |outputs| ==> initialized[|inputs| + k] == (outputs[k], rate)
      ensures forall k :: 0 <= k < |initialized| ==> initialized[k].1 == sampleRate
      ensures sampleRate == rate
      ensures inputs == old(inputs) && outputs == old(outputs)
      ensures dirtyTransform == old(dirtyTransform) && position == old(position) && velocity == old(velocity)
      ensures forward == old(forward) && acceptsInput == old(acceptsInput) && acceptsOutput == old(acceptsOutput)
    {
      initialized := [];
      for i := 0 to |inputs|
        invariant |initialized| == i
        invariant forall k :: 0 <= k < i ==> initialized[k] == (inputs[k], rate)
        invariant forall k :: 0 <= k < |initialized| ==> initialized[k].1 == rate
      {
        initialized := initialized + [(inputs[i], rate)];
      }
      for i := 0 to |outputs|
        invariant |initialized| == |inputs| + i
        invariant forall k :: 0 <= k < |inputs| ==> initialized[k] == (inputs[k], rate)
        invariant forall k :: 0 <= k < i ==> initialized[|inputs| + k] == (outputs[k], rate)
        invariant forall k :: 0 <= k < |initialized| ==> initialized[k].1 == rate
      {
        initialized := initialized + [(outputs[i], rate)];
      }
      sampleRate := rate;
    }

    method Position() returns (p: Vec3)
      ensures p == position
    {
      p := position;
    }

    method Velocity() returns (v: Vec3)
      ensures v == velocity
    {
      v := velocity;
    }

    method Forward() returns (f: Vec3)
      ensures f == forward
    {
      f := forward;
    }

    /** Marks the transform dirty and notifies the far end of every output
        (outgoing) and then of every input (incoming). */
    method TransformUpdated() returns (notices: seq<Notice>)
      modifies this
      ensures dirtyTransform
      ensures |notices| == |outputs| + |inputs|
      ensures forall k :: 0 <= k < |outputs| ==> notices[k] == Notice(outputs[k].dest, outputs[k], true)
      ensures forall k :: 0 <= k < |inputs| ==> notices[|outputs| + k] == Notice(inputs[k].dest, inputs[k], false)
      ensures inputs == old(inputs) && outputs == old(outputs)
      ensures position == old(position) && velocity == old(velocity) && sampleRate == old(sampleRate)
      ensures forward == old(forward) && acceptsInput == old(acceptsInput) && acceptsOutput == old(acceptsOutput)
    {
      dirtyTransform := true;
      notices := [];
      for i := 0 to |outputs|
        invariant |notices| == i
        invariant forall k :: 0 <= k < i ==> notices[k] == Notice(outputs[k].dest, outputs[k], true)
      {
        notices := notices + [Notice(outputs[i].dest, outputs[i], true)];
      }
      for i := 0 to |inputs|
        invariant |notices| == |outputs| + i
        invariant forall k :: 0 <= k < |outputs| ==> notices[k] == Notice(outputs[k].dest, outputs[k], true)
        invariant forall k :: 0 <= k < i ==> notices[|outputs| + k] == Notice(inputs[k].dest, inputs[k], false)
      {
        notices := notices + [Notice(inputs[i].dest, inputs[i], false)];
      }
    }

    /** Stores the new velocity and rewrites the radial velocity of every
        link from the current state of both of its ends. */
    method UpdateVelocity(v: Vec3, normal: Vec3 -> Vec3)
      requires LinksDistinct()
      modifies this, inputs, outputs
      ensures velocity == v
      ensures forall k :: 0 <= k < |outputs| ==>
                outputs[k].velocity ==
                  OutgoingRadial(normal, position, velocity, outputs[k].dest.position, outputs[k].dest.velocity)
      ensures forall k :: 0 <= k < |inputs| ==>
                inputs[k].velocity ==
                  IncomingRadial(normal, position, velocity, inputs[k].dest.position, inputs[k].dest.velocity)
      ensures inputs == old(inputs) && outputs == old(outputs)
      ensures position == old(position) && dirtyTransform == old(dirtyTransform) && sampleRate == old(sampleRate)
      ensures forward == old(forward) && acceptsInput == old(acceptsInput) && acceptsOutput == old(acceptsOutput)
      ensures forall l :: l in inputs || l in outputs ==> l.readable == old(l.readable)
    {
      velocity := v;
      for i := 0 to |outputs|
        invariant velocity == v && inputs == old(inputs) && outputs == old(outputs)
        invariant position == old(position) && dirtyTransform == old(dirtyTransform) && sampleRate == old(sampleRate)
        invariant forward == old(forward) && acceptsInput == old(acceptsInput) && acceptsOutput == old(acceptsOutput)
        invariant forall l :: l in inputs || l in outputs ==> l.readable == old(l.readable)
        invariant forall k :: 0 <= k < i ==>
                    outputs[k].velocity ==
                      OutgoingRadial(normal, position, velocity, outputs[k].dest.position, outputs[k].dest.velocity)
      {
        var dest := outputs[i].dest;
        outputs[i].velocity := OutgoingRadial(normal, position, velocity, dest.position, dest.velocity);
      }
      for i := 0 to |inputs|
        invariant velocity == v && inputs == old(inputs) && outputs == old(outputs)
        invariant position == old(position) && dirtyTransform == old(dirtyTransform) && sampleRate == old(sampleRate)
        invariant forward == old(forward) && acceptsInput == old(acceptsInput) && acceptsOutput == old(acceptsOutput)
        invariant forall l :: l in inputs || l in outputs ==> l.readable == old(l.readable)
        invariant forall k :: 0 <= k < |outputs| ==>
                    outputs[k].velocity ==
                      OutgoingRadial(normal, position, velocity, outputs[k].dest.position, outputs[k].dest.velocity)
        invariant forall k :: 0 <= k < i ==>
                    inputs[k].velocity ==
                      IncomingRadial(normal, position, velocity, inputs[k].dest.position, inputs[k].dest.velocity)
      {
        var dest := inputs[i].dest;
        inputs[i].velocity := IncomingRadial(normal, position, velocity, dest.position, dest.velocity);
      }
    }

    /** The smallest readable count over all inputs, or `SIZE_MAX` when there
        are no inputs. */
    method PullCount() returns (shortest: SizeT)
      ensures forall k :: 0 <= k < |inputs| ==> shortest <= inputs[k].readable
      ensures inputs == [] ==> shortest == SIZE_MAX
      ensures inputs != [] ==> exists k :: 0 <= k < |inputs| && shortest == inputs[k].readable
    {
      shortest := SIZE_MAX;
      for i := 0 to |inputs|
        invariant forall k :: 0 <= k < i ==> shortest <= inputs[k].readable
        invariant i == 0 ==> shortest == SIZE_MAX
        invariant i > 0 ==> exists k :: 0 <= k < i && shortest == inputs[k].readable
      {
        var count := inputs[i].readable;
        if count < shortest {
          shortest := count;
        }
      }
    }
  }
}
