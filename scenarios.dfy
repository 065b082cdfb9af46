/** The behaviours the repository's unit tests (GolfDemo.Test/GolfDemoTests.cs)
    assert of a fresh course, stated for every library sine that returns 1 at a
    right angle where the distance matters. */
module Scenarios {
  import opened Swings
  import opened Courses

  /** A 45-degree swing at 56 m/s on an eight-swing course travels 320. */
  method CorrectDistance(t: Trig) returns (travelled: real)
    requires t.sin(t.pi / 2.0) == 1.0
    ensures travelled == 320.0
  {
    var c := new Course(t, 8);
    var outcome := c.Swing(45.0, 56.0);
    DistanceAtFortyFive(t, 56.0);
    travelled := c.DistanceTravelled();
  }

  /** Any swing with a valid angle raises the counter by one. */
  method SwingCounterIncrease(t: Trig, angle: real, velocity: real) returns (before: int, after: int)
    requires ValidAngle(angle)
    ensures after == before + 1
  {
    var c := new Course(t, 8);
    before := c.swingCounter;
    var outcome := c.Swing(angle, velocity);
    after := c.swingCounter;
  }

  /** With a budget of one swing, any valid swing ends the game in a loss. */
  method GameEndTooManySwings(t: Trig, angle: real, velocity: real) returns (ended: bool, lost: bool)
    requires ValidAngle(angle)
    ensures ended && lost
  {
    var c := new Course(t, 1);
    var outcome := c.Swing(angle, velocity);
    ended, lost := c.hasEnded, c.hasLost;
  }

  /** On a 320-long hole, the 320 swing holes out. */
  method GameEndWin(t: Trig) returns (ended: bool, won: bool, lost: bool)
    requires t.sin(t.pi / 2.0) == 1.0
    ensures ended && won && !lost
  {
    var c := new Course.WithLength(t, 320.0);
    var outcome := c.Swing(45.0, 56.0);
    DistanceAtFortyFive(t, 56.0);
    ended, won, lost := c.hasEnded, c.hasWon, c.hasLost;
  }

  /** On a 320-long hole with a rough of 200, a 100 m/s swing at 45 degrees
      carries the ball over 520 past the tee and out of bounds. */
  method GameEndTooFarFromGoal(t: Trig) returns (ended: bool, lost: bool, outside: bool, won: bool)
    requires t.sin(t.pi / 2.0) == 1.0
    ensures ended && lost && outside && !won
  {
    var c := new Course.WithLength(t, 320.0, courseRough := 200.0);
    var outcome := c.Swing(45.0, 100.0);
    DistanceAtFortyFive(t, 100.0);
    ended, lost, outside, won := c.hasEnded, c.hasLost, c.isOutOfBounds, c.hasWon;
  }

  /** Angles of -1 and 91 degrees are both refused, and neither is counted. */
  method AngleOutOfRange(t: Trig) returns (low: Outcome, high: Outcome, counter: int)
    ensures low == Fail(AngleInvalid) && high == Fail(AngleInvalid)
    ensures counter == 0
  {
    var c := new Course(t, 8);
    low := c.Swing(-1.0, 100.0);
    high := c.Swing(91.0, 100.0);
    counter := c.swingCounter;
  }

  /** A swing at -10 m/s is recorded with velocity 0 and travels nowhere. */
  method ValidVelocity(t: Trig) returns (velocity: real, distance: real)
    ensures velocity == 0.0 && distance == 0.0
  {
    var c := new Course(t, 8);
    var outcome := c.Swing(45.0, -10.0);
    velocity := c.swings[|c.swings| - 1].velocity;
    distance := c.DistanceTravelled();
  }

  /** The swing-budget check runs inside the counter update, before the win
      check, and neither undoes the other: a last allowed swing that reaches
      the cup leaves the game both won and lost. */
  method WinOnLastSwing(t: Trig) returns (won: bool, lost: bool)
    requires t.sin(t.pi / 2.0) == 1.0
    ensures won && lost
  {
    var c := new Course.WithLength(t, 320.0, maxSwings := 1);
    var outcome := c.Swing(45.0, 56.0);
    DistanceAtFortyFive(t, 56.0);
    won, lost := c.hasWon, c.hasLost;
  }
}
