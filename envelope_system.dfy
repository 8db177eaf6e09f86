/**
 * The ADSR envelope controller. Calls on the Web Audio gain parameter are
 * recorded as an append-only log of automation commands; `window.setTimeout`
 * timers are entries of a pending map that a separate `Fire` step runs, in
 * whatever order the host chooses.
 */
module EnvelopeSystem {
  import opened Wrappers
  import opened Sequences

  /** Seconds for the three durations, levels in [0, 1] for sustain and peak. */
  datatype EnvelopeConfig = EnvelopeConfig(
    attack: real,
    decay: real,
    sustain: real,
    release: real,
    maxVolume: real)

  /** A fast attack, medium decay, low sustain and long release. */
  const DefaultEnvelope: EnvelopeConfig := EnvelopeConfig(0.005, 0.3, 0.2, 1.5, 0.3)

  /** Exponential ramps cannot reach zero; they stop here instead. */
  const ExponentialFloor: real := 0.001

  /** The hard stop fades out over 10 ms and reports completion after 15 ms. */
  const StopFadeSeconds: real := 0.01
  const StopCompletionDelayMs: real := 15.0

  /** One automation call on the gain parameter. */
  datatype GainCommand =
    | CancelScheduledValues(cancelTime: real)
    | SetValueAtTime(value: real, time: real)
      /** `setValueAtTime(gain.value, time)`: pins whatever level the gain has now. */
    | HoldCurrentValueAtTime(time: real)
    | LinearRampToValueAtTime(target: real, endTime: real)
    | ExponentialRampToValueAtTime(target: real, endTime: real)

  /** What a pending timer does when it fires. */
  datatype TimerAction =
    | AutoRelease(config: EnvelopeConfig)
    | ReleaseCompletion
    | StopCompletion
  {
    /** Auto-release and release completion are kept in `releaseTimeoutId`; the stop completion is not. */
    predicate IsTracked()
    {
      !StopCompletion?
    }
  }

  datatype Timer = Timer(delayMs: real, action: TimerAction)

  type TimerId = nat

  /** Identifies the completion callback the owner installed. */
  type CallbackId = nat

  function Max(a: real, b: real): (r: real)
    ensures r >= a && r >= b && (r == a || r == b)
  {
    if a >= b then a else b
  }

  /** The gain automation of `start`: from 0 up to the peak, then down to the sustain level. */
  function StartCommands(config: EnvelopeConfig, now: real): seq<GainCommand>
  {
    [ CancelScheduledValues(now),
      SetValueAtTime(0.0, now),
      LinearRampToValueAtTime(config.maxVolume, now + config.attack),
      ExponentialRampToValueAtTime(SustainLevel(config), now + config.attack + config.decay) ]
  }

  /** The level the decay settles at: the sustain fraction of the peak, kept above the floor. */
  function SustainLevel(config: EnvelopeConfig): (r: real)
    ensures r >= ExponentialFloor && r >= config.maxVolume * config.sustain
    ensures r == ExponentialFloor || r == config.maxVolume * config.sustain
  {
    Max(config.maxVolume * config.sustain, ExponentialFloor)
  }

  /** The gain automation of `release`: from the current level down to the floor. */
  function ReleaseCommands(config: EnvelopeConfig, now: real): seq<GainCommand>
  {
    [ CancelScheduledValues(now),
      HoldCurrentValueAtTime(now),
      ExponentialRampToValueAtTime(ExponentialFloor, now + config.release) ]
  }

  /** The gain automation of `stop`: a short linear fade to silence. */
  function StopCommands(now: real): seq<GainCommand>
  {
    [ CancelScheduledValues(now),
      HoldCurrentValueAtTime(now),
      LinearRampToValueAtTime(0.0, now + StopFadeSeconds) ]
  }

  /** The pending timers whose ids the controller keeps, and those it does not. */
  function Tracked(timers: map<TimerId, Timer>): map<TimerId, Timer>
  {
    map id | id in timers && timers[id].action.IsTracked() :: timers[id]
  }

  function Untracked(timers: map<TimerId, Timer>): map<TimerId, Timer>
  {
    map id | id in timers && !timers[id].action.IsTracked() :: timers[id]
  }

  /** Setting a tracked timer leaves the untracked ones alone, and the reverse. */
  lemma SetTrackedTimer(timers: map<TimerId, Timer>, id: TimerId, timer: Timer)
    requires timer.action.IsTracked() && Tracked(timers) == map[]
    ensures Untracked(timers[id := timer]) == Untracked(timers) - {id}
    ensures Tracked(timers[id := timer]) == map[id := timer]
  {
  }

  lemma SetUntrackedTimer(timers: map<TimerId, Timer>, id: TimerId, timer: Timer)
    requires !timer.action.IsTracked()
    ensures Untracked(timers[id := timer]) == Untracked(timers)[id := timer]
    ensures Tracked(timers[id := timer]) == Tracked(timers) - {id}
  {
  }

  /**
   * A pending timer agrees with the controller: it is tracked exactly when
   * its id is the kept one, an auto-release waits only outside the
   * releasing phase and a release completion only inside it.
   */
  predicate Consistent(timer: Timer, kept: bool, releasing: bool)
  {
    && (timer.action.IsTracked() <==> kept)
    && (timer.action.AutoRelease? ==> !releasing)
    && (timer.action.ReleaseCompletion? ==> releasing)
  }

  class EnvelopeController {
    var isReleasing: bool
    var releaseTimeoutId: Option<TimerId>
    var onReleaseComplete: Option<CallbackId>

    /** Every automation call made on the gain parameter, oldest first. */
    var gainLog: seq<GainCommand>
    /** Timers set and neither fired nor cleared. */
    var pendingTimers: map<TimerId, Timer>
    /** The id the next `setTimeout` returns. */
    var nextTimerId: TimerId
    /** Every invocation of a completion callback, oldest first. */
    var invokedCallbacks: seq<CallbackId>

    /**
     * At most one tracked timer is pending and `releaseTimeoutId` names it;
     * an auto-release waits only while not releasing, a release completion
     * only while releasing. A fired timer may leave a stale id behind.
     */
    ghost predicate Valid()
      reads this
    {
      && (releaseTimeoutId.Some? ==> releaseTimeoutId.value < nextTimerId)
      && forall id :: id in pendingTimers ==>
           id < nextTimerId && Consistent(pendingTimers[id], releaseTimeoutId == Some(id), isReleasing)
    }

    constructor ()
      ensures Valid()
      ensures !isReleasing && releaseTimeoutId.None? && onReleaseComplete.None?
      ensures gainLog == [] && pendingTimers == map[] && invokedCallbacks == []
    {
      isReleasing := false;
      releaseTimeoutId := None;
      onReleaseComplete := None;
      gainLog := [];
      pendingTimers := map[];
      nextTimerId := 0;
      invokedCallbacks := [];
    }

    /** The owner assigns the public completion callback. */
    method SetOnReleaseComplete(callback: Option<CallbackId>)
      requires Valid()
      modifies this`onReleaseComplete
      ensures Valid() && onReleaseComplete == callback
    {
      onReleaseComplete := callback;
    }

    /** `window.setTimeout`: a fresh id for a new pending timer. */
    method SetTimeout(timer: Timer) returns (id: TimerId)
      modifies this`pendingTimers, this`nextTimerId
      ensures id == old(nextTimerId) && nextTimerId == id + 1
      ensures pendingTimers == old(pendingTimers)[id := timer]
    {
      id := nextTimerId;
      pendingTimers := pendingTimers[id := timer];
      nextTimerId := nextTimerId + 1;
    }

    /** Cancels the tracked timer, if any, and forgets its id. */
    method ClearReleaseTimeout()
      requires Valid()
      modifies this`releaseTimeoutId, this`pendingTimers
      ensures Valid()
      ensures releaseTimeoutId.None?
      ensures pendingTimers == if old(releaseTimeoutId).Some?
        then old(pendingTimers) - {old(releaseTimeoutId).value} else old(pendingTimers)
      ensures Tracked(pendingTimers) == map[]
      ensures forall id :: id in pendingTimers ==> !pendingTimers[id].action.IsTracked()
      ensures Untracked(pendingTimers) == Untracked(old(pendingTimers))
    {
      if releaseTimeoutId.Some? {
        pendingTimers := pendingTimers - {releaseTimeoutId.value};
        releaseTimeoutId := None;
      }
    }

    /** Arms the auto-release timer, kept as the tracked timer. */
    method ScheduleAutoRelease(config: EnvelopeConfig, autoReleaseTime: real)
      requires Valid() && releaseTimeoutId.None? && !isReleasing
      modifies this`releaseTimeoutId, this`pendingTimers, this`nextTimerId
      ensures Valid()
      ensures releaseTimeoutId == Some(old(nextTimerId)) && nextTimerId == old(nextTimerId) + 1
      ensures pendingTimers == old(pendingTimers)[old(nextTimerId) := Timer(autoReleaseTime * 1000.0, AutoRelease(config))]
      ensures Tracked(pendingTimers) == map[old(nextTimerId) := Timer(autoReleaseTime * 1000.0, AutoRelease(config))]
      ensures Untracked(pendingTimers) == Untracked(old(pendingTimers))
    {
      SetTrackedTimer(pendingTimers, nextTimerId, Timer(autoReleaseTime * 1000.0, AutoRelease(config)));
      assert Untracked(pendingTimers) - {nextTimerId} == Untracked(pendingTimers);
      var id := SetTimeout(Timer(autoReleaseTime * 1000.0, AutoRelease(config)));
      releaseTimeoutId := Some(id);
    }

    /**
     * Starts a note: cancels the gain schedule and the tracked timer, leaves
     * the releasing phase, logs attack and decay and, when asked to, arms
     * an auto-release.
     */
    method Start(config: EnvelopeConfig, autoReleaseTime: Option<real>, now: real)
      requires Valid()
      modifies this`isReleasing, this`releaseTimeoutId, this`pendingTimers, this`nextTimerId, this`gainLog
      ensures Valid()
      ensures !isReleasing
      ensures gainLog == old(gainLog) + StartCommands(config, now)
      ensures Untracked(pendingTimers) == Untracked(old(pendingTimers))
      ensures nextTimerId == old(nextTimerId) + (if autoReleaseTime.Some? then 1 else 0)
      ensures autoReleaseTime.None? ==> releaseTimeoutId.None? && Tracked(pendingTimers) == map[]
      ensures autoReleaseTime.Some? ==>
        && releaseTimeoutId == Some(old(nextTimerId))
        && Tracked(pendingTimers) ==
           map[old(nextTimerId) := Timer(autoReleaseTime.value * 1000.0, AutoRelease(config))]
    {
      ClearReleaseTimeout();
      isReleasing := false;
      gainLog := gainLog + StartCommands(config, now);
      if autoReleaseTime.Some? {
        ScheduleAutoRelease(config, autoReleaseTime.value);
      }
    }

    /**
     * Releases the note unless it is already releasing: cancels the tracked
     * timer, ramps from the current level to the floor and arms the
     * completion timer as the tracked timer.
     */
    method Release(config: EnvelopeConfig, now: real)
      requires Valid()
      modifies this`isReleasing, this`releaseTimeoutId, this`pendingTimers, this`nextTimerId, this`gainLog
      ensures Valid()
      ensures isReleasing
      ensures old(isReleasing) ==>
        && gainLog == old(gainLog) && pendingTimers == old(pendingTimers)
        && releaseTimeoutId == old(releaseTimeoutId) && nextTimerId == old(nextTimerId)
      ensures !old(isReleasing) ==>
        && gainLog == old(gainLog) + ReleaseCommands(config, now)
        && nextTimerId == old(nextTimerId) + 1
        && releaseTimeoutId == Some(old(nextTimerId))
        && Tracked(pendingTimers) == map[old(nextTimerId) := Timer(config.release * 1000.0, ReleaseCompletion)]
        && Untracked(pendingTimers) == Untracked(old(pendingTimers))
    {
      if isReleasing {
        return;
      }
      ClearReleaseTimeout();
      isReleasing := true;
      gainLog := gainLog + ReleaseCommands(config, now);
      SetTrackedTimer(pendingTimers, nextTimerId, Timer(config.release * 1000.0, ReleaseCompletion));
      assert Untracked(pendingTimers) - {nextTimerId} == Untracked(pendingTimers);
      var id := SetTimeout(Timer(config.release * 1000.0, ReleaseCompletion));
      releaseTimeoutId := Some(id);
    }

    /**
     * Stops at once in any phase: enters the releasing phase, cancels the
     * tracked timer, fades out over 10 ms and sets a 15 ms completion timer
     * whose id is not kept.
     */
    method Stop(now: real)
      requires Valid()
      modifies this`isReleasing, this`releaseTimeoutId, this`pendingTimers, this`nextTimerId, this`gainLog
      ensures Valid()
      ensures isReleasing && releaseTimeoutId.None?
      ensures gainLog == old(gainLog) + StopCommands(now)
      ensures nextTimerId == old(nextTimerId) + 1
      ensures Tracked(pendingTimers) == map[]
      ensures Untracked(pendingTimers) ==
        Untracked(old(pendingTimers))[old(nextTimerId) := Timer(StopCompletionDelayMs, StopCompletion)]
    {
      ClearReleaseTimeout();
      isReleasing := true;
      gainLog := gainLog + StopCommands(now);
      SetUntrackedTimer(pendingTimers, nextTimerId, Timer(StopCompletionDelayMs, StopCompletion));
      var _ := SetTimeout(Timer(StopCompletionDelayMs, StopCompletion));
    }

    /** Whether the note is in its releasing phase. */
    method IsReleasingState() returns (r: bool)
      requires Valid()
      ensures r == isReleasing
      ensures !r ==> forall id :: id in pendingTimers ==> !pendingTimers[id].action.ReleaseCompletion?
    {
      r := isReleasing;
    }

    /** Cancels the tracked timer and detaches the completion callback. */
    method Dispose()
      requires Valid()
      modifies this`releaseTimeoutId, this`pendingTimers, this`onReleaseComplete
      ensures Valid()
      ensures releaseTimeoutId.None? && onReleaseComplete.None?
      ensures Tracked(pendingTimers) == map[]
      ensures Untracked(pendingTimers) == Untracked(old(pendingTimers))
    {
      ClearReleaseTimeout();
      onReleaseComplete := None;
    }

    /**
     * The host runs the pending timer `id`. An auto-release releases the
     * note; a completion timer calls whatever callback is attached when it
     * runs. The kept id of a fired tracked timer is not cleared.
     */
    method Fire(id: TimerId, now: real)
      requires Valid() && id in pendingTimers
      modifies this
      ensures Valid()
      ensures onReleaseComplete == old(onReleaseComplete)
      ensures old(pendingTimers[id].action).AutoRelease? ==>
        && isReleasing
        && invokedCallbacks == old(invokedCallbacks)
        && gainLog == old(gainLog) + ReleaseCommands(old(pendingTimers[id].action).config, now)
        && nextTimerId == old(nextTimerId) + 1
        && releaseTimeoutId == Some(old(nextTimerId))
        && Tracked(pendingTimers) ==
           map[old(nextTimerId) := Timer(old(pendingTimers[id].action).config.release * 1000.0, ReleaseCompletion)]
        && Untracked(pendingTimers) == Untracked(old(pendingTimers))
      ensures !old(pendingTimers[id].action).AutoRelease? ==>
        && pendingTimers == old(pendingTimers) - {id}
        && isReleasing == old(isReleasing) && releaseTimeoutId == old(releaseTimeoutId)
        && gainLog == old(gainLog) && nextTimerId == old(nextTimerId)
        && invokedCallbacks == old(invokedCallbacks) +
           (if onReleaseComplete.Some? then [onReleaseComplete.value] else [])
    {
      var timer := pendingTimers[id];
      pendingTimers := pendingTimers - {id};
      match timer.action
      case AutoRelease(config) =>
        assert Untracked(pendingTimers) == Untracked(old(pendingTimers));
        Release(config, now);
      case _ =>
        if onReleaseComplete.Some? {
          invokedCallbacks := invokedCallbacks + [onReleaseComplete.value];
        }
    }
  }

  /** Each client-visible sequence of calls, and what it leaves pending. */

  /** Starting again after a release cancels that release's completion. */
  method RestartCancelsPendingRelease(c: EnvelopeController, config: EnvelopeConfig, t0: real, t1: real, t2: real)
    requires c.Valid()
    modifies c
    ensures c.Valid() && !c.isReleasing
    ensures c.gainLog ==
      old(c.gainLog) + StartCommands(config, t0) + ReleaseCommands(config, t1) + StartCommands(config, t2)
    ensures forall id :: id in c.pendingTimers ==> c.pendingTimers[id].action.StopCompletion?
  {
    c.Start(config, None, t0);
    c.Release(config, t1);
    c.Start(config, None, t2);
    forall id | id in c.pendingTimers ensures c.pendingTimers[id].action.StopCompletion? {
      assert id !in Tracked(c.pendingTimers);
    }
  }

  /** A second release while releasing changes nothing. */
  method ReleaseTwiceIsReleaseOnce(c: EnvelopeController, config: EnvelopeConfig, t1: real, t2: real)
    requires c.Valid() && !c.isReleasing
    modifies c
    ensures c.Valid() && c.isReleasing
    ensures c.gainLog == old(c.gainLog) + ReleaseCommands(config, t1)
    ensures Tracked(c.pendingTimers) == map[old(c.nextTimerId) := Timer(config.release * 1000.0, ReleaseCompletion)]
  {
    c.Release(config, t1);
    c.Release(config, t2);
  }

  /** Each stop sets its own completion timer, so two stops report completion twice. */
  method StopTwiceSchedulesTwoCompletions(c: EnvelopeController, t1: real, t2: real)
    requires c.Valid()
    modifies c
    ensures c.Valid() && c.isReleasing
    ensures Untracked(c.pendingTimers) == Untracked(old(c.pendingTimers))
      [old(c.nextTimerId) := Timer(StopCompletionDelayMs, StopCompletion)]
      [old(c.nextTimerId) + 1 := Timer(StopCompletionDelayMs, StopCompletion)]
    ensures c.gainLog == old(c.gainLog) + StopCommands(t1) + StopCommands(t2)
  {
    c.Stop(t1);
    c.Stop(t2);
  }

  /** A stop followed by a new start leaves the stop's completion pending under the new note. */
  method StopThenStartKeepsStopCompletion(c: EnvelopeController, config: EnvelopeConfig, t1: real, t2: real)
    requires c.Valid()
    modifies c
    ensures c.Valid() && !c.isReleasing
    ensures old(c.nextTimerId) in c.pendingTimers
    ensures c.pendingTimers[old(c.nextTimerId)] == Timer(StopCompletionDelayMs, StopCompletion)
  {
    c.Stop(t1);
    ghost var id := old(c.nextTimerId);
    assert id in Untracked(c.pendingTimers);
    c.Start(config, None, t2);
    assert id in Untracked(c.pendingTimers);
  }

  /** Once disposed, no timer that fires can reach the owner. */
  method DisposeSilencesCallbacks(c: EnvelopeController, id: TimerId, now: real)
    requires c.Valid()
    modifies c
    ensures c.Valid() && c.onReleaseComplete.None?
    ensures c.invokedCallbacks == old(c.invokedCallbacks)
  {
    c.Dispose();
    if id in c.pendingTimers {
      assert id !in Tracked(c.pendingTimers);
      c.Fire(id, now);
    }
  }

  /** A note started with an auto-release releases itself and then reports completion once. */
  method AutoReleaseLifecycle(c: EnvelopeController, config: EnvelopeConfig, callback: CallbackId,
                              autoReleaseTime: real, t0: real, t1: real, t2: real)
    requires c.Valid()
    modifies c
    ensures c.Valid() && c.isReleasing
    ensures c.gainLog ==
      old(c.gainLog) + StartCommands(config, t0) + ReleaseCommands(config, t1)
    ensures c.invokedCallbacks == old(c.invokedCallbacks) + [callback]
    ensures Tracked(c.pendingTimers) == map[]
  {
    c.SetOnReleaseComplete(Some(callback));
    c.Start(config, Some(autoReleaseTime), t0);
    var autoId := c.releaseTimeoutId.value;
    assert autoId in Tracked(c.pendingTimers);
    c.Fire(autoId, t1);
    var completionId := c.releaseTimeoutId.value;
    assert completionId in Tracked(c.pendingTimers);
    c.Fire(completionId, t2);
    assert Tracked(c.pendingTimers) == map[] by {
      forall id | id in c.pendingTimers ensures !c.pendingTimers[id].action.IsTracked() {
        assert id != completionId;
      }
    }
  }

  /** The outcome of checking a configuration: valid exactly when no message is reported. */
  datatype ValidationResult = ValidationResult(isValid: bool, errors: seq<string>)

  const AttackError: string := "attack must be >= 0"
  const DecayError: string := "decay must be >= 0"
  const SustainError: string := "sustain must be between 0 and 1"
  const ReleaseError: string := "release must be >= 0"
  const MaxVolumeError: string := "maxVolume must be between 0 and 1"

  /** Every message the check can report, in the order it checks the fields. */
  const ErrorMessages: seq<string> := [AttackError, DecayError, SustainError, ReleaseError, MaxVolumeError]

  /** Durations are non-negative and both levels lie in [0, 1]. */
  predicate InRange(config: EnvelopeConfig)
  {
    && config.attack >= 0.0
    && config.decay >= 0.0
    && 0.0 <= config.sustain <= 1.0
    && config.release >= 0.0
    && 0.0 <= config.maxVolume <= 1.0
  }

  /** Message `k` of `ErrorMessages` applies: field `k` breaks its bound. */
  predicate Violates(config: EnvelopeConfig, k: nat)
  {
    match k
    case 0 => config.attack < 0.0
    case 1 => config.decay < 0.0
    case 2 => config.sustain < 0.0 || config.sustain > 1.0
    case 3 => config.release < 0.0
    case 4 => config.maxVolume < 0.0 || config.maxVolume > 1.0
    case _ => false
  }

  /** A configuration is in range exactly when no message applies. */
  lemma InRangeIffNoViolation(config: EnvelopeConfig)
    ensures InRange(config) <==> forall k :: 0 <= k < |ErrorMessages| ==> !Violates(config, k)
  {
    if config.attack < 0.0 {
      assert Violates(config, 0);
    } else if config.decay < 0.0 {
      assert Violates(config, 1);
    } else if config.sustain < 0.0 || config.sustain > 1.0 {
      assert Violates(config, 2);
    } else if config.release < 0.0 {
      assert Violates(config, 3);
    } else if config.maxVolume < 0.0 || config.maxVolume > 1.0 {
      assert Violates(config, 4);
    }
  }

  /** Messages drawn from `ErrorMessages`, one per violated bound, are absent exactly when in range. */
  lemma NoMessageIffInRange(config: EnvelopeConfig, errors: seq<string>)
    requires forall m :: m in errors ==> m in ErrorMessages
    requires forall k :: 0 <= k < |ErrorMessages| ==> (ErrorMessages[k] in errors <==> Violates(config, k))
    ensures errors == [] <==> InRange(config)
  {
    InRangeIffNoViolation(config);
    if errors != [] {
      assert errors[0] in errors;
      var k :| 0 <= k < |ErrorMessages| && ErrorMessages[k] == errors[0];
      assert Violates(config, k);
    }
  }

  lemma ErrorMessagesDistinct()
    ensures NoDuplicates(ErrorMessages)
  {
  }

  /** One check of the validator: appends message `k` when it applies. */
  method ReportIf(config: EnvelopeConfig, errors: seq<string>, k: nat) returns (r: seq<string>)
    requires k < |ErrorMessages|
    requires IsSubsequence(errors, ErrorMessages[..k])
    requires forall m :: m in errors ==> m in ErrorMessages[..k]
    requires forall j :: 0 <= j < k ==> (ErrorMessages[j] in errors <==> Violates(config, j))
    ensures IsSubsequence(r, ErrorMessages[..k + 1])
    ensures forall m :: m in r ==> m in ErrorMessages[..k + 1]
    ensures forall j :: 0 <= j <= k ==> (ErrorMessages[j] in r <==> Violates(config, j))
  {
    assert ErrorMessages[..k + 1] == ErrorMessages[..k] + [ErrorMessages[k]];
    SubsequenceOfExtension(errors, ErrorMessages[..k], ErrorMessages[k]);
    ErrorMessagesDistinct();
    assert ErrorMessages[k] !in errors;
    r := errors;
    if Violates(config, k) {
      r := errors + [ErrorMessages[k]];
    }
    forall j | 0 <= j < k ensures ErrorMessages[j] in r <==> ErrorMessages[j] in errors {
      assert ErrorMessages[j] != ErrorMessages[k];
    }
  }

  /**
   * Checks each field in turn and collects one message per violated
   * bound; the configuration is valid when none was collected.
   */
  method ValidateEnvelopeConfig(config: EnvelopeConfig) returns (r: ValidationResult)
    ensures r.isValid <==> r.errors == []
    ensures r.isValid <==> InRange(config)
    ensures IsSubsequence(r.errors, ErrorMessages)
    ensures forall k :: 0 <= k < |ErrorMessages| ==> (ErrorMessages[k] in r.errors <==> Violates(config, k))
  {
    var errors: seq<string> := [];
    errors := ReportIf(config, errors, 0);
    errors := ReportIf(config, errors, 1);
    errors := ReportIf(config, errors, 2);
    errors := ReportIf(config, errors, 3);
    errors := ReportIf(config, errors, 4);
    assert ErrorMessages[..5] == ErrorMessages;
    NoMessageIffInRange(config, errors);
    r := ValidationResult(|errors| == 0, errors);
  }

  /** The built-in envelope passes its own check. */
  method DefaultEnvelopePassesValidation() returns (r: ValidationResult)
    ensures r.isValid && r.errors == []
  {
    r := ValidateEnvelopeConfig(DefaultEnvelope);
  }
}
