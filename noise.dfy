/**
 * The control logic of the pink-noise button (`initAudio` and `toggleNoise`):
 * which audio objects exist, whether the looping source has been started, the
 * level the gain is heading to, and the `isMuted` flag behind the speaker icon.
 *
 * The synthesis of the noise buffer, the filter and the timing of the gain
 * ramp are not modelled; the gain is summarised by the level it settles at.
 */
module Noise {

  /** `gain.gain.value` when the gain node is created. */
  const InitialGain: real := 0.15

  /** The level `toggleNoise` fades to when the noise was muted. */
  const AudibleGain: real := 0.2

  const SilentGain: real := 0.0

  /** Seconds of noise in the looping buffer (`ctx.sampleRate * 2` samples). */
  const BufferSeconds: nat := 2

  /** `isMuted ? 0.2 : 0`: the target of the fade started by a toggle. */
  function TargetGain(wasMuted: bool): (g: real)
    ensures g == AudibleGain <==> wasMuted
    ensures g == SilentGain <==> !wasMuted
  {
    if wasMuted then 0.2 else 0.0
  }

  /** The muted flag after n toggles starting from `muted`. */
  function Flips(muted: bool, n: nat): bool
    decreases n
  {
    if n == 0 then muted else Flips(!muted, n - 1)
  }

  /** After n toggles the flag has changed exactly when n is odd. */
  lemma {:induction false} FlipsParity(muted: bool, n: nat)
    ensures Flips(muted, n) == if n % 2 == 0 then muted else !muted
    decreases n
  {
    if n > 0 {
      FlipsParity(!muted, n - 1);
    }
  }

  /** One more toggle flips the flag once more. */
  lemma FlipsOnceMore(muted: bool, n: nat)
    ensures Flips(muted, n + 1) == !Flips(muted, n)
  {
    FlipsParity(muted, n);
    FlipsParity(muted, n + 1);
  }

  /** From the initial `isMuted = false`, the flag is set exactly after an odd number of toggles. */
  lemma MutedAfterOddToggles(n: nat)
    ensures Flips(false, n) <==> n % 2 == 1
  {
    FlipsParity(false, n);
  }

  /**
   * The app's `isMuted` state, `audioInitialized` state and the three refs
   * (context, source node, gain node), each ref modelled by whether it is set.
   */
  class NoiseControl {
    var isMuted: bool
    var audioInitialized: bool
    var hasContext: bool
    var contextSuspended: bool
    var hasNoiseNode: bool
    var hasGainNode: bool
    /** Whether `noise.start(0)` has succeeded; later calls throw and are swallowed. */
    var started: bool
    var bufferLength: nat
    /** The level the gain node holds or is fading towards. */
    var gainTarget: real

    /** Successful toggles so far. */
    ghost var toggles: nat
    /** Audio graphs built so far. */
    ghost var graphs: nat

    ghost predicate Valid()
      reads this
    {
      isMuted == Flips(false, toggles)
      && audioInitialized == hasContext == hasNoiseNode == hasGainNode
      && graphs == (if hasContext then 1 else 0)
      && (started <==> toggles > 0)
      && (started ==> hasContext)
      && (hasContext && !started ==> gainTarget == InitialGain)
      && (started ==> gainTarget == TargetGain(!isMuted))
    }

    /** App mount: not muted, no audio objects. */
    constructor ()
      ensures Valid()
      ensures !isMuted && !audioInitialized && !hasContext && !started && toggles == 0 && graphs == 0
    {
      isMuted := false;
      audioInitialized, hasContext, contextSuspended := false, false, false;
      hasNoiseNode, hasGainNode, started := false, false, false;
      bufferLength, gainTarget := 0, 0.0;
      toggles, graphs := 0, 0;
    }

    /**
     * `initAudio`. The host decides whether Web Audio exists (`available`), its
     * sample rate and whether a new context starts suspended. Without Web Audio
     * the context constructor throws before any ref is set: `ok` is false and
     * nothing changes.
     */
    method InitAudio(available: bool, sampleRate: nat, startsSuspended: bool) returns (ok: bool)
      requires Valid()
      modifies this
      ensures Valid()
      ensures old(hasContext) ==> ok && unchanged(this)
      ensures !old(hasContext) && !available ==> !ok && unchanged(this)
      ensures !old(hasContext) && available ==>
        ok && audioInitialized && hasContext && hasNoiseNode && hasGainNode && graphs == 1
        && !started && gainTarget == InitialGain && bufferLength == BufferSeconds * sampleRate
        && contextSuspended == startsSuspended && isMuted == old(isMuted) && toggles == old(toggles)
    {
      if hasContext {
        return true;
      }
      if !available {
        return false;
      }
      hasContext := true;
      contextSuspended := startsSuspended;
      bufferLength := sampleRate * 2;
      hasNoiseNode := true;
      gainTarget := 0.15;
      hasGainNode := true;
      graphs := graphs + 1;
      audioInitialized := true;
      ok := true;
    }

    /**
     * `toggleNoise`: initialise if needed, resume a suspended context, start
     * the source once, fade towards `isMuted ? 0.2 : 0` and flip `isMuted`.
     * `ok` is false when initialisation threw, in which case nothing changes.
     */
    method Toggle(available: bool, sampleRate: nat, startsSuspended: bool) returns (ok: bool)
      requires Valid()
      modifies this
      ensures Valid()
      ensures !ok <==> !old(audioInitialized) && !available
      ensures !ok ==> unchanged(this)
      ensures ok ==>
        isMuted == !old(isMuted) && started && !contextSuspended
        && gainTarget == TargetGain(old(isMuted))
        && toggles == old(toggles) + 1 && graphs == 1
        && bufferLength == if old(hasContext) then old(bufferLength) else BufferSeconds * sampleRate
    {
      if !audioInitialized {
        ok := InitAudio(available, sampleRate, startsSuspended);
        if !ok {
          return;
        }
      }
      ok := true;
      if contextSuspended {
        contextSuspended := false;
      }
      if !started {
        started := true;
      }
      gainTarget := if isMuted then 0.2 else 0.0;
      FlipsOnceMore(false, toggles);
      isMuted := !isMuted;
      toggles := toggles + 1;
    }
  }

  /**
   * The first press on a fresh app starts the source at the initial gain and
   * fades it towards silence, since `isMuted` starts false; the second press
   * fades it in at the audible level.
   */
  method FirstTwoPresses(sampleRate: nat) returns (firstTarget: real, firstMuted: bool, secondTarget: real, secondMuted: bool)
    ensures firstTarget == SilentGain && firstMuted
    ensures secondTarget == AudibleGain && !secondMuted
  {
    var n := new NoiseControl();
    var ok := n.Toggle(true, sampleRate, false);
    firstTarget, firstMuted := n.gainTarget, n.isMuted;
    ok := n.Toggle(true, sampleRate, false);
    secondTarget, secondMuted := n.gainTarget, n.isMuted;
  }
}
