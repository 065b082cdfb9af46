/** One hole of golf (GolfDemo/Course.cs): its configuration, the swings taken
    on it so far, the distances derived from them and the end-of-game flags. */
module Courses {
  import opened Swings

  /** How close to the cup the ball must come for the hole to be won. */
  const Tolerance: real := 0.1

  /** `Course.Swing` either completes or fails with the swing's error. */
  datatype Outcome = Pass | Fail(error: Error)

  function Abs(x: real): real {
    if x < 0.0 then -x else x
  }

  predicate AllNonNegative(ds: seq<real>) {
    forall i :: 0 <= i < |ds| ==> ds[i] >= 0.0
  }

  /** The distance of each swing, in the order the swings were taken. */
  function Distances(ss: seq<Swing>, t: Trig): seq<real> {
    seq(|ss|, i requires 0 <= i < |ss| => Distance(ss[i], t))
  }

  /** The total of the distances, added up from first to last. */
  function Sum(ds: seq<real>): (r: real)
    ensures AllNonNegative(ds) ==> r >= 0.0
  {
    if ds == [] then 0.0 else Sum(ds[..|ds| - 1]) + ds[|ds| - 1]
  }

  /** The distance left to the cup: starting from `start`, every swing carries
      the ball towards the cup by its distance, past it if it is longer. Once a
      swing has been taken the result is never negative. */
  function Bounce(start: real, ds: seq<real>): (r: real)
    ensures ds != [] || start >= 0.0 ==> r >= 0.0
  {
    if ds == [] then start else Abs(Bounce(start, ds[..|ds| - 1]) - ds[|ds| - 1])
  }

  /** Every swing a course records moves the ball a non-negative distance. */
  lemma DistancesNonNegative(ss: seq<Swing>, t: Trig)
    requires SineNonNegative(t)
    requires forall i :: 0 <= i < |ss| ==> WellFormed(ss[i])
    ensures AllNonNegative(Distances(ss, t))
  {
    forall i | 0 <= i < |ss|
      ensures Distances(ss, t)[i] >= 0.0
    {
      DistanceNonNegative(ss[i], t);
    }
  }

  /** As long as the swings together have not reached the cup, the distance
      left is exactly the course length minus the distance travelled. */
  lemma {:induction false} BounceWithoutOvershoot(start: real, ds: seq<real>)
    requires AllNonNegative(ds) && Sum(ds) <= start
    ensures Bounce(start, ds) == start - Sum(ds)
  {
    if ds != [] {
      var front, last := ds[..|ds| - 1], ds[|ds| - 1];
      assert AllNonNegative(front);
      BounceWithoutOvershoot(start, front);
    }
  }

  /** The distance left can never be less than the course length minus the
      distance travelled, nor more than the course length plus it. */
  lemma {:induction false} BounceBounds(start: real, ds: seq<real>)
    requires AllNonNegative(ds)
    ensures start - Sum(ds) <= Bounce(start, ds) <= Abs(start) + Sum(ds)
  {
    if ds != [] {
      var front, last := ds[..|ds| - 1], ds[|ds| - 1];
      assert AllNonNegative(front);
      BounceBounds(start, front);
    }
  }

  /** The ball can only leave the course through the rough if the swings
      together travelled further than the rough is wide. */
  lemma OutOfBoundsNeedsLongSwings(length: real, rough: real, ds: seq<real>)
    requires length >= 0.0 && AllNonNegative(ds)
    requires Bounce(length, ds) > length + rough
    ensures Sum(ds) > rough
  {
    BounceBounds(length, ds);
  }

  class Course {
    /** The library trigonometry every distance on this course is computed with. */
    const trig: Trig
    var maxSwings: int
    var courseRough: real
    var courseLength: real
    var swingCounter: int
    var swings: seq<Swing>
    var hasEnded: bool
    var hasLost: bool
    var hasWon: bool
    var isOutOfBounds: bool

    /** What holds of every course built by a constructor and changed only by
        `Swing`. */
    ghost predicate Valid()
      reads this
    {
      && swingCounter == |swings|
      && (forall i :: 0 <= i < |swings| ==> WellFormed(swings[i]))
      && (0 < swingCounter && maxSwings <= swingCounter ==> hasEnded && hasLost)
      && (isOutOfBounds ==> hasEnded && hasLost)
      && (hasWon || hasLost ==> hasEnded)
    }

    /** `Course(maxSwings)`: a zero-length hole limited only by its swing budget. */
    constructor (trig: Trig, maxSwings: int)
      ensures Valid()
      ensures this.trig == trig && this.maxSwings == maxSwings
      ensures courseLength == 0.0 && courseRough == 0.0
      ensures swings == [] && swingCounter == 0
      ensures !hasEnded && !hasWon && !hasLost && !isOutOfBounds
    {
      this.trig := trig;
      this.maxSwings := maxSwings;
      // The fields not set here keep the default values C# gives them.
      courseLength, courseRough := 0.0, 0.0;
      swings := [];
      swingCounter := 0;
      hasEnded, hasLost, hasWon, isOutOfBounds := false, false, false, false;
    }

    /** `Course(courseLength, maxSwings = 8, courseRough = 1000)`. */
    constructor WithLength(trig: Trig, courseLength: real, maxSwings: int := 8, courseRough: real := 1000.0)
      ensures Valid()
      ensures this.trig == trig && this.maxSwings == maxSwings
      ensures this.courseLength == courseLength && this.courseRough == courseRough
      ensures swings == [] && swingCounter == 0
      ensures !hasEnded && !hasWon && !hasLost && !isOutOfBounds
    {
      this.trig := trig;
      this.maxSwings := maxSwings;
      swings := [];
      swingCounter := 0;
      hasEnded, hasLost, hasWon, isOutOfBounds := false, false, false, false;
      this.courseLength := courseLength;
      this.courseRough := courseRough;
    }

    /** The setter of `SwingCounter`: storing a value that reaches the swing
        budget ends the game in a loss. */
    method SetSwingCounter(value: int)
      modifies this`swingCounter, this`hasEnded, this`hasLost
      ensures swingCounter == value
      ensures hasEnded == (old(hasEnded) || maxSwings <= value)
      ensures hasLost == (old(hasLost) || maxSwings <= value)
    {
      if value >= maxSwings {
        hasEnded := true;
        hasLost := true;
      }
      swingCounter := value;
    }

    /** The getter `DistanceTravelled`: the sum of the distances of all swings. */
    method DistanceTravelled() returns (total: real)
      ensures total == Sum(Distances(swings, trig))
    {
      ghost var ds := Distances(swings, trig);
      total := 0.0;
      for i := 0 to |swings|
        invariant total == Sum(ds[..i])
      {
        assert ds[..i + 1][..i] == ds[..i];
        total := total + Distance(swings[i], trig);
      }
      assert ds[..|swings|] == ds;
    }

    /** The getter `DistanceFromHole`: starting at the course length, each swing
        in turn replaces the running value with the absolute difference between
        it and the swing's distance. */
    method DistanceFromHole() returns (distance: real)
      ensures distance == Bounce(courseLength, Distances(swings, trig))
    {
      ghost var ds := Distances(swings, trig);
      distance := courseLength;
      for i := 0 to |swings|
        invariant distance == Bounce(courseLength, ds[..i])
      {
        assert ds[..i + 1][..i] == ds[..i];
        distance := Abs(distance - Distance(swings[i], trig));
      }
      assert ds[..|swings|] == ds;
    }

    /** `Swing(angle, velocity)`: build the swing (failing before any change on
        an invalid angle), record it, count it through the setter, then check
        for a win and, failing that, for the ball leaving the course. */
    method Swing(angle: real, velocity: real) returns (outcome: Outcome)
      requires Valid()
      modifies this`swings, this`swingCounter, this`hasEnded, this`hasLost, this`hasWon, this`isOutOfBounds
      ensures Valid()
      ensures outcome.Fail? <==> angle >= 90.0 || angle <= 0.0
      ensures outcome.Fail? ==> outcome.error == AngleInvalid && unchanged(this)
      ensures outcome.Pass? ==>
        && swings == old(swings) + [Swings.Swing(angle, if velocity <= 0.0 then 0.0 else velocity)]
        && swingCounter == old(swingCounter) + 1
      ensures outcome.Pass? ==>
        var dist := Bounce(courseLength, Distances(swings, trig));
        var won := dist <= Tolerance;
        var outside := !won && courseLength + courseRough < dist;
        && hasWon == (old(hasWon) || won)
        && isOutOfBounds == (old(isOutOfBounds) || outside)
        && hasLost == (old(hasLost) || maxSwings <= swingCounter || outside)
        && hasEnded == (old(hasEnded) || maxSwings <= swingCounter || won || outside)
    {
      var made := NewSwing(angle, velocity);
      if made.Err? {
        return Fail(made.error);
      }
      swings := swings + [made.value];
      SetSwingCounter(swingCounter + 1);
      var dist := DistanceFromHole();
      if dist <= Tolerance {
        hasEnded := true;
        hasWon := true;
      } else {
        // `Course.Swing` reads `DistanceFromHole` again in its else branch.
        var again := DistanceFromHole();
        if again > courseLength + courseRough {
          isOutOfBounds := true;
          hasEnded := true;
          hasLost := true;
        }
      }
      outcome := Pass;
    }
  }
}
