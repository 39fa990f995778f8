/** The set/rest session timer of the eye-training page, as a pure state
    machine: one `Step` is one run of the once-per-second interval callback
    started by `startTraining`. */
module Timer {

  const TotalSets: int := 3
  const TrainingTime: int := 25
  const RestTime: int := 10

  /** Ticks in one training period followed by one rest period. */
  const CycleTicks: int := TrainingTime + RestTime
  /** Ticks from the start of the page until the interval is cleared. */
  const SessionTicks: int := TotalSets * CycleTicks

  /** The variables the interval callback reads and writes. `animating` stands
      for a live animation-frame chain (`animationId`), `complete` for the
      interval having been cleared. */
  datatype State = State(
    currentSet: int,
    timeLeft: int,
    isResting: bool,
    animating: bool,
    complete: bool)

  /** State right after page load: set 1, training for 25 seconds, ball moving. */
  function Initial(): (s: State)
    ensures Inv(s) && !s.complete && !s.isResting && s.animating
    ensures s.currentSet == 1 && s.timeLeft == TrainingTime
  {
    State(1, TrainingTime, false, true, false)
  }

  /** The state the session is left in once the interval has been cleared:
      the rest flag and the countdown were reset before the completion check,
      and the ball was never restarted. */
  function Final(): (s: State)
    ensures s.complete && !s.isResting && !s.animating
    ensures s.timeLeft == TrainingTime && s.currentSet == TotalSets + 1
  {
    State(TotalSets + 1, TrainingTime, false, false, true)
  }

  /** Every state reachable between two ticks. */
  ghost predicate Inv(s: State)
  {
    if s.complete then
      s == Final()
    else if s.isResting then
      2 <= s.currentSet <= TotalSets + 1 && 1 <= s.timeLeft <= RestTime && !s.animating
    else
      1 <= s.currentSet <= TotalSets && 1 <= s.timeLeft <= TrainingTime && s.animating
  }

  /** The set number shown on the page. */
  function DisplayedSet(s: State): (d: int)
    ensures d <= TotalSets
    ensures Inv(s) ==> 1 <= d
    ensures s.currentSet <= TotalSets ==> d == s.currentSet
    ensures s.currentSet >= TotalSets ==> d == TotalSets
  {
    if s.currentSet < TotalSets then s.currentSet else TotalSets
  }

  /** One run of the interval callback. */
  function Step(s: State): (r: State)
    // a cleared interval never fires again
    ensures s.complete ==> r == s
    // otherwise the countdown drops by one; if it has not reached 0, nothing else moves
    ensures !s.complete && s.timeLeft > 1 ==> r == s.(timeLeft := s.timeLeft - 1)
    // a training period that runs out starts the rest period of the next set
    ensures !s.complete && !s.isResting && s.timeLeft <= 1 ==>
      r.isResting && !r.animating && !r.complete &&
      r.timeLeft == RestTime && r.currentSet == s.currentSet + 1
    // a rest period that runs out either starts training again or ends the session
    ensures !s.complete && s.isResting && s.timeLeft <= 1 ==>
      !r.isResting && r.timeLeft == TrainingTime && r.currentSet == s.currentSet &&
      (r.complete <==> s.currentSet > TotalSets) &&
      (s.currentSet <= TotalSets ==> r.animating) &&
      (s.currentSet > TotalSets ==> r.animating == s.animating)
    // only the start of a rest period changes the set counter
    ensures r.currentSet != s.currentSet ==> !s.complete && !s.isResting && r.isResting
    ensures Inv(s) ==> Inv(r)
  {
    if s.complete then
      s
    else if s.isResting then
      var t := s.timeLeft - 1;
      if t <= 0 then
        var ended := s.(isResting := false, timeLeft := TrainingTime);
        if s.currentSet > TotalSets then ended.(complete := true)
        else ended.(animating := true)
      else
        s.(timeLeft := t)
    else
      var t := s.timeLeft - 1;
      if t <= 0 then
        s.(isResting := true, animating := false, timeLeft := RestTime, currentSet := s.currentSet + 1)
      else
        s.(timeLeft := t)
  }

  /** The state after `n` runs of the callback. */
  function Iterate(s: State, n: nat): (r: State)
    ensures s.complete ==> r == s
    ensures Inv(s) ==> Inv(r)
  {
    if n == 0 then s else Step(Iterate(s, n - 1))
  }

  /** Closed form of the schedule: within each 35-tick cycle the first 25
      ticks are training for set `c + 1`, the last 10 rest before set `c + 2`;
      after 105 ticks the session is over. */
  function At(n: nat): (r: State)
    ensures Inv(r)
    ensures r.complete <==> n >= SessionTicks
    ensures !r.complete ==> (r.isResting <==> n % CycleTicks >= TrainingTime)
    ensures r.animating <==> !r.isResting && !r.complete
  {
    if n >= SessionTicks then
      Final()
    else
      var c, o := n / CycleTicks, n % CycleTicks;
      if o < TrainingTime then State(c + 1, TrainingTime - o, false, true, false)
      else State(c + 2, CycleTicks - o, true, false, false)
  }

  /** Advancing the closed form by one tick is one run of the callback. */
  lemma StepAt(n: nat)
    ensures Step(At(n)) == At(n + 1)
  {
    if n + 1 < SessionTicks {
      var c, o := n / CycleTicks, n % CycleTicks;
      assert n == CycleTicks * c + o;
      if o + 1 < CycleTicks {
        assert (n + 1) / CycleTicks == c && (n + 1) % CycleTicks == o + 1;
      } else {
        assert (n + 1) / CycleTicks == c + 1 && (n + 1) % CycleTicks == 0;
      }
    } else if n < SessionTicks {
      // the last rest period's final second
      assert n == SessionTicks - 1;
      assert At(n) == State(TotalSets + 1, 1, true, false, false);
    }
  }

  /** Running the callback `n` times from page load gives the closed form. */
  lemma {:induction false} IterateAt(n: nat)
    ensures Iterate(Initial(), n) == At(n)
  {
    if n > 0 {
      IterateAt(n - 1);
      StepAt(n - 1);
    }
  }

  /** The interval is cleared after exactly 105 ticks, and not earlier. */
  lemma SessionLength(n: nat)
    ensures Iterate(Initial(), n).complete <==> n >= SessionTicks
    ensures SessionTicks == 105
  {
    IterateAt(n);
  }

  /** The session passes through three training periods and three rest
      periods: set k + 1 trains from tick 35k, and its rest (with the counter
      already at k + 2) starts 25 ticks later. */
  lemma Schedule(k: nat)
    requires k < TotalSets
    ensures Iterate(Initial(), k * CycleTicks) == State(k + 1, TrainingTime, false, true, false)
    ensures Iterate(Initial(), k * CycleTicks + TrainingTime) == State(k + 2, RestTime, true, false, false)
  {
    var start := k * CycleTicks;
    assert start / CycleTicks == k && start % CycleTicks == 0 by {
      assert k == 0 || k == 1 || k == 2;
    }
    assert (start + TrainingTime) / CycleTicks == k && (start + TrainingTime) % CycleTicks == TrainingTime;
    IterateAt(start);
    IterateAt(start + TrainingTime);
  }
}
