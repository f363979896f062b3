/** web/src/lib/rrule.ts, instantOf: the instant a wall-clock time in a zone names. */
module WallClock {

  /** A zone's offset from UTC at each instant, in the unit of instants. */
  type Zone = int -> int

  /** The wall-clock time at an instant. */
  function WallAt(zone: Zone, instant: int): int {
    instant + zone(instant)
  }

  /** Within `reach` of `around`, where all its offsets lie, the zone's clock is
      changed at most once. */
  ghost predicate ChangesOnce(zone: Zone, around: int, reach: nat, change: int, before: int, after: int) {
    && -(reach as int) <= before <= reach && -(reach as int) <= after <= reach
    && forall t :: around - reach <= t <= around + reach ==> zone(t) == if t < change then before else after
  }

  function Refined(zone: Zone, wall: int, guess: int): int {
    wall - zone(guess)
  }

  /** The instant named: a first guess with the offset at the wall-clock time itself,
      refined until it settles, at most twice. */
  method InstantOf(zone: Zone, wall: int) returns (guess: int)
    ensures guess == Instant(zone, wall)
  {
    guess := wall - zone(wall);
    var i := 0;
    while i < 2
      invariant 0 <= i <= 2
      invariant guess == Refinements(zone, wall, i)
    {
      var refined := wall - zone(guess);
      if refined == guess {
        Settled(zone, wall, i, 2);
        break;
      }
      guess := refined;
      i := i + 1;
    }
  }

  function Refinements(zone: Zone, wall: int, i: nat): int {
    if i == 0 then wall - zone(wall) else Refined(zone, wall, Refinements(zone, wall, i - 1))
  }

  function Instant(zone: Zone, wall: int): int {
    Refinements(zone, wall, 2)
  }

  lemma {:induction false} Settled(zone: Zone, wall: int, i: nat, j: nat)
    requires i <= j && Refined(zone, wall, Refinements(zone, wall, i)) == Refinements(zone, wall, i)
    ensures Refinements(zone, wall, j) == Refinements(zone, wall, i)
    decreases j - i
  {
    if i < j {
      Settled(zone, wall, i, j - 1);
    }
  }

  /** Whether any instant near shows that wall-clock time. */
  ghost predicate Shown(zone: Zone, wall: int, reach: nat) {
    exists i :: wall - reach <= i <= wall + reach && WallAt(zone, i) == wall
  }

  /** The instant named shows the wall-clock time exactly when some instant does. In
      the hour a clock change skips, no instant does, and the time is taken with the
      offset at the wall-clock time itself. */
  lemma InstantShowsTheWall(zone: Zone, wall: int, reach: nat, change: int, before: int, after: int)
    requires ChangesOnce(zone, wall, reach, change, before, after)
    ensures WallAt(zone, Instant(zone, wall)) == wall <==> Shown(zone, wall, reach)
    ensures !Shown(zone, wall, reach) <==> change + before <= wall < change + after
    ensures !Shown(zone, wall, reach) ==> Instant(zone, wall) == wall - zone(wall)
  {
    var early, late := wall - before, wall - after;
    assert zone(wall) == if wall < change then before else after;
    assert zone(early) == if early < change then before else after;
    assert zone(late) == if late < change then before else after;
    assert Refinements(zone, wall, 1) == Refined(zone, wall, wall - zone(wall));
    assert WallAt(zone, early) == wall <==> early < change || before == after;
    assert WallAt(zone, late) == wall <==> late >= change || before == after;
    assert forall i :: wall - reach <= i <= wall + reach && WallAt(zone, i) == wall ==> i == early || i == late;
  }

  /** Where a clock change shows a time twice, the earlier instant is named if the
      wall-clock time, read as an instant, comes before the change, else the later. */
  lemma TwiceShown(zone: Zone, wall: int, reach: nat, change: int, before: int, after: int)
    requires ChangesOnce(zone, wall, reach, change, before, after) && change + after <= wall < change + before
    ensures WallAt(zone, wall - before) == wall == WallAt(zone, wall - after)
    ensures Instant(zone, wall) == if wall < change then wall - before else wall - after
  {
    var early, late := wall - before, wall - after;
    assert zone(early) == before && zone(late) == after;
    assert Refinements(zone, wall, 1) == Refined(zone, wall, wall - zone(wall));
  }
}
