/** What a look at a container shows, and when what was seen of one is good enough. */
module Looks {
  import opened Wrappers

  datatype Health = NoHealth | NoHealthcheck | Starting | Healthy | Unhealthy

  datatype RunState = RunState(running: bool, restarting: bool, dead: bool, exitCode: int, health: Health)

  const VERIFY_TIMEOUT := 15_000  // milliseconds
  const POLL_GAP := 1_000
  const MOST_POLLS := VERIFY_TIMEOUT / POLL_GAP + 2

  /** An observation that leaves the question open until the deadline. */
  predicate Undecided(s: Option<RunState>) {
    s.Some? && (s.value.restarting || (s.value.running && s.value.health !in {Healthy, Unhealthy}))
  }

  /** An observation good enough to accept a container on. */
  predicate Passing(s: Option<RunState>) {
    s.Some? && s.value.running && s.value.health in {NoHealth, Healthy}
  }

  /** One look: when, and what it showed. */
  datatype Glance = Glance(at: int, state: Option<RunState>)

  /** What the looks at one container can show at a time; the number tells those made
      at the same time apart. */
  type Sights = (int, nat) -> Option<RunState>

  ghost predicate Shown(sights: Sights, g: Glance) {
    exists nth: nat :: sights(g.at, nth) == g.state
  }

  lemma OnShow(sights: Sights, at: int, nth: nat)
    ensures Shown(sights, Glance(at, sights(at, nth)))
  {
    var g := Glance(at, sights(at, nth));
    assert sights(g.at, nth) == g.state;
  }

  /** A container passed verification: it was looked at from `start` on, at intervals,
      everything seen was undecided but the last sight, which is good enough, and that
      was not undecided too unless the deadline had passed when the matter was decided. */
  ghost predicate Withstood(sights: Sights, watched: seq<Glance>, start: int, decided: int) {
    && 0 < |watched| <= MOST_POLLS
    && (forall i :: 0 <= i < |watched| ==> Shown(sights, watched[i]))
    && watched[0].at == start && watched[|watched| - 1].at <= decided
    && (forall i :: 0 < i < |watched| ==> watched[i].at >= watched[i - 1].at + POLL_GAP)
    && (forall i :: 0 <= i < |watched| - 1 ==> Undecided(watched[i].state))
    && Passing(watched[|watched| - 1].state)
    && (Undecided(watched[|watched| - 1].state) ==> decided > start + VERIFY_TIMEOUT)
  }

  /** It did so by the time `now`. */
  ghost predicate Verified(sights: Sights, now: int) {
    exists watched, start, decided :: decided <= now && Withstood(sights, watched, start, decided)
  }
}
