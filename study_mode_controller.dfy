/**
 * The study-session state machine (`StudyModeController`).
 *
 * A session starts from IDLE with a countdown whose length is personalised
 * from the user's average calculation time. When the countdown fires while
 * the user is still STUDYING, the controller moves to INTERVENING and asks
 * for an intervention on the problem. Completing or resetting returns to IDLE
 * and cancels the countdown.
 *
 * The host's timers are modelled explicitly: `pending` holds the timers this
 * controller scheduled that have neither fired nor been cleared, under their
 * ids, and `Fire` is the host running one of them.
 */
module StudyMode {
  import opened Wrappers
  import UserProfile

  datatype StudyState = Idle | Studying | Intervening

  /** A scheduled countdown: what its callback captured, and its delay in milliseconds. */
  datatype Timer = Timer(problemText: string, sessionDuration: real, delayMs: real)

  /** The arguments handed to the intervention callback. */
  datatype Intervention = Intervention(problemText: string, sessionDuration: real)

  /** `Math.round`: the nearest integer, halves rounded up. */
  function RoundHalfUp(x: real): (n: int)
    ensures n as real - 0.5 <= x < n as real + 0.5
  {
    (x + 0.5).Floor
  }

  /** `startStudySession`'s truthiness test `averageTime && averageTime > 0`. */
  predicate HasPositiveAverage(average: Option<real>) {
    average.Some? && average.value > 0.0
  }

  /**
   * The countdown length in seconds: twice the stored average rounded to the
   * nearest whole second when a positive average is stored, otherwise the
   * manually chosen duration.
   */
  function SessionDuration(manualDuration: real, average: Option<real>): (d: real)
    ensures HasPositiveAverage(average) ==>
              d == d.Floor as real && d - 0.5 <= 2.0 * average.value < d + 0.5
    ensures !HasPositiveAverage(average) ==> d == manualDuration
  {
    if HasPositiveAverage(average) then RoundHalfUp(average.value * 2.0) as real else manualDuration
  }

  /** A personalised duration is never negative, and at least one second once the average reaches a quarter second. */
  lemma PersonalisedDurationBounds(manualDuration: real, average: real)
    requires average > 0.0
    ensures 0.0 <= SessionDuration(manualDuration, Some(average))
    ensures average >= 0.25 ==> SessionDuration(manualDuration, Some(average)) >= 1.0
  {
    var d := SessionDuration(manualDuration, Some(average));
    assert d.Floor >= 0;
  }

  class StudyModeController {
    var state: StudyState
    var timerId: Option<nat>
    var pending: map<nat, Timer>
    /** The id the host hands out for the next timer (ids are positive). */
    var nextTimerId: nat
    /** Whether an intervention callback has been set. */
    var hasInterventionCallback: bool
    const userProfileManager: UserProfile.UserProfileManager

    /**
     * The controller's invariant: the only timer that can still fire is the
     * one `timerId` names, and a timer can be pending only while STUDYING.
     * (After a timer fires, `timerId` still holds its id.)
     */
    ghost predicate Valid()
      reads this
    {
      1 <= nextTimerId
      && (timerId.Some? ==> 1 <= timerId.value < nextTimerId)
      && (forall id :: id in pending ==> timerId == Some(id))
      && (pending != map[] ==> state == Studying)
    }

    constructor (userProfileManager: UserProfile.UserProfileManager)
      ensures Valid()
      ensures state == Idle && timerId == None && pending == map[]
      ensures !hasInterventionCallback
      ensures this.userProfileManager == userProfileManager
    {
      state := Idle;
      timerId := None;
      pending := map[];
      nextTimerId := 1;
      hasInterventionCallback := false;
      this.userProfileManager := userProfileManager;
    }

    /**
     * Starts a session from IDLE: the state becomes STUDYING and exactly one
     * timer is pending, carrying the problem text and the session duration.
     * In any other state nothing changes.
     */
    method StartStudySession(manualDuration: real, problemText: string)
      requires Valid()
      modifies this
      ensures Valid()
      ensures hasInterventionCallback == old(hasInterventionCallback)
      ensures old(state) != Idle ==>
                state == old(state) && timerId == old(timerId) && pending == old(pending) && nextTimerId == old(nextTimerId)
      ensures old(state) == Idle ==>
                var duration := SessionDuration(manualDuration, userProfileManager.GetAverageCalculationTime());
                state == Studying
                && timerId == Some(old(nextTimerId))
                && pending == map[old(nextTimerId) := Timer(problemText, duration, duration * 1000.0)]
                && nextTimerId == old(nextTimerId) + 1
    {
      if state != Idle {
        return;
      }
      var averageTime := userProfileManager.GetAverageCalculationTime();
      var sessionDuration := SessionDuration(manualDuration, averageTime);
      state := Studying;
      ClearTimer();
      var id := nextTimerId;
      nextTimerId := nextTimerId + 1;
      pending := pending[id := Timer(problemText, sessionDuration, sessionDuration * 1000.0)];
      timerId := Some(id);
    }

    /**
     * The host runs pending timer `id`. If the user is still STUDYING, the
     * state becomes INTERVENING and, when a callback is set, it receives the
     * problem text and the session duration the timer captured. In any other
     * state the timer only leaves the host's queue.
     */
    method Fire(id: nat) returns (intervention: Option<Intervention>)
      requires Valid()
      requires id in pending
      modifies this`state, this`pending
      ensures Valid()
      ensures pending == old(pending) - {id}
      ensures old(state) == Studying ==> state == Intervening
      ensures old(state) == Studying && hasInterventionCallback ==>
                intervention == Some(Intervention(old(pending)[id].problemText, old(pending)[id].sessionDuration))
      ensures old(state) != Studying || !hasInterventionCallback ==> intervention == None
      ensures old(state) != Studying ==> state == old(state)
    {
      var timer := pending[id];
      pending := pending - {id};
      intervention := None;
      if state == Studying {
        state := Intervening;
        if hasInterventionCallback {
          intervention := Some(Intervention(timer.problemText, timer.sessionDuration));
        }
      }
    }

    /** Ends the session unless already IDLE: the countdown is cancelled and the state is IDLE. */
    method CompleteStudySession()
      requires Valid()
      modifies this`state, this`timerId, this`pending
      ensures Valid()
      ensures old(state) == Idle ==> state == Idle && timerId == old(timerId) && pending == old(pending)
      ensures old(state) != Idle ==> state == Idle && timerId == None && pending == map[]
    {
      if state == Idle {
        return;
      }
      ClearTimer();
      state := Idle;
    }

    /** Always ends in IDLE with no timer: the new state does not depend on the old, so a second call changes nothing. */
    method ResetToIdle()
      requires Valid()
      modifies this`state, this`timerId, this`pending
      ensures Valid()
      ensures state == Idle && timerId == None && pending == map[]
    {
      ClearTimer();
      state := Idle;
    }

    /** Cancels the countdown, if any: afterwards no id is held and no timer is pending. */
    method ClearTimer()
      requires Valid()
      modifies this`timerId, this`pending
      ensures Valid()
      ensures timerId == None && pending == map[]
    {
      if timerId.Some? {
        pending := pending - {timerId.value};
        timerId := None;
      }
      assert forall id :: id !in pending;
    }

    /** Installs the intervention callback (`present`), or removes it when given `null` (`!present`). */
    method SetOnInterventionRequired(present: bool)
      modifies this`hasInterventionCallback
      ensures hasInterventionCallback == present
    {
      hasInterventionCallback := present;
    }

    /** The current state; a timer that can still fire means a session is running. */
    function GetState(): (s: StudyState)
      reads this
      ensures Valid() && pending != map[] ==> s == Studying
    {
      state
    }
  }

  /** A valid controller has at most one timer that can still fire, and only while STUDYING. */
  lemma AtMostOnePendingTimer(c: StudyModeController)
    requires c.Valid()
    ensures |c.pending.Keys| <= 1
    ensures c.pending != map[] ==> c.GetState() == Studying
  {
    if c.timerId.Some? {
      var id := c.timerId.value;
      if id in c.pending {
        assert c.pending.Keys == {id};
      } else {
        assert c.pending.Keys == {};
      }
    } else {
      assert c.pending.Keys == {};
    }
  }
}
