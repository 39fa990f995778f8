/** The page's shared training variables as one object: the timer state the
    interval callback updates, the animation-running flag, and the speed and
    pattern settings the two selectors overwrite. */
module Training {
  import opened Timer

  const Slow: real := 0.5
  const Medium: real := 1.0
  const Fast: real := 2.0

  /** Multiplier after a change of the speed selector: the three known
      values map to fixed multipliers, anything else keeps the current one. */
  function SpeedFor(value: string, current: real): (r: real)
    ensures value == "slow" ==> r == Slow
    ensures value == "medium" ==> r == Medium
    ensures value == "fast" ==> r == Fast
    ensures value !in {"slow", "medium", "fast"} ==> r == current
    ensures current > 0.0 ==> r > 0.0
  {
    match value
    case "slow" => Slow
    case "medium" => Medium
    case "fast" => Fast
    case _ => current
  }

  class Session {
    var currentSet: int
    var timeLeft: int
    var isResting: bool
    /** An animation-frame chain is scheduled (`animationId` is live). */
    var animating: bool
    /** The interval has been cleared. */
    var complete: bool

    var speedMultiplier: real
    var currentPattern: string
    var infinityT: real
    var circleAngle: real

    /** The timer part of the object. */
    function Snapshot(): State
      reads this
    {
      State(currentSet, timeLeft, isResting, animating, complete)
    }

    ghost predicate Valid()
      reads this
    {
      Inv(Snapshot()) && speedMultiplier > 0.0
    }

    /** Page load: the initial variable values, then `startTraining`, which
        starts the interval and the ball. */
    constructor ()
      ensures Valid()
      ensures Snapshot() == Initial()
      ensures speedMultiplier == Medium && currentPattern == "random"
      ensures infinityT == 0.0 && circleAngle == 0.0
    {
      currentSet := 1;
      timeLeft := TrainingTime;
      isResting := false;
      animating := false;
      complete := false;
      speedMultiplier := Medium;
      currentPattern := "random";
      infinityT := 0.0;
      circleAngle := 0.0;
      new;
      MoveBall();
    }

    /** `moveBall`: cancel any scheduled frame, then run the first frame,
        which schedules the next one only while not resting. */
    method MoveBall()
      modifies this`animating
      ensures animating == !isResting
    {
      animating := false;
      if !isResting {
        animating := true;
      }
    }

    /** One run of the interval callback. */
    method Tick()
      modifies this`currentSet, this`timeLeft, this`isResting, this`animating, this`complete
      ensures Snapshot() == Step(old(Snapshot()))
      ensures old(Valid()) ==> Valid()
    {
      if complete {
        return;
      }
      if isResting {
        timeLeft := timeLeft - 1;
        if timeLeft <= 0 {
          isResting := false;
          timeLeft := TrainingTime;
          if currentSet > TotalSets {
            complete := true;
            return;
          }
          MoveBall();
        }
      } else {
        timeLeft := timeLeft - 1;
        if timeLeft <= 0 {
          isResting := true;
          animating := false;
          timeLeft := RestTime;
          currentSet := currentSet + 1;
        }
      }
    }

    /** The speed selector's change handler. */
    method ChangeSpeed(value: string)
      modifies this`speedMultiplier
      ensures speedMultiplier == SpeedFor(value, old(speedMultiplier))
      ensures Snapshot() == old(Snapshot())
      ensures old(Valid()) ==> Valid()
    {
      if value == "slow" {
        speedMultiplier := Slow;
      } else if value == "medium" {
        speedMultiplier := Medium;
      } else if value == "fast" {
        speedMultiplier := Fast;
      }
    }

    /** The pattern selector's change handler: the new pattern starts its
        curve from parameter 0. */
    method ChangePattern(value: string)
      modifies this`currentPattern, this`infinityT, this`circleAngle
      ensures currentPattern == value && infinityT == 0.0 && circleAngle == 0.0
      ensures speedMultiplier == old(speedMultiplier)
      ensures Snapshot() == old(Snapshot())
      ensures old(Valid()) ==> Valid()
    {
      currentPattern := value;
      infinityT := 0.0;
      circleAngle := 0.0;
    }
  }

  /** The host's interval driving a freshly loaded page until the callback
      clears it: returns how many ticks that took, how many training periods
      the ball moved in and how many rest periods began. */
  method RunUntilCleared() returns (ticks: nat, trainingPeriods: nat, restPeriods: nat)
    ensures ticks == SessionTicks
    ensures trainingPeriods == TotalSets && restPeriods == TotalSets
  {
    var session := new Session();
    ticks, trainingPeriods, restPeriods := 0, 1, 0;
    while !session.complete
      invariant ticks <= SessionTicks
      invariant session.Valid()
      invariant session.Snapshot() == At(ticks)
      invariant restPeriods == session.currentSet - 1
      invariant trainingPeriods == if session.isResting || session.complete then session.currentSet - 1 else session.currentSet
      decreases SessionTicks - ticks
    {
      var wasResting := session.isResting;
      session.Tick();
      StepAt(ticks);
      ticks := ticks + 1;
      if !wasResting && session.isResting {
        restPeriods := restPeriods + 1;
      } else if wasResting && !session.isResting && !session.complete {
        trainingPeriods := trainingPeriods + 1;
      }
    }
  }
}
