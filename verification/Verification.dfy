/** internal/docker/update.go, verifyHealthy: the poll loop that decides whether a
    freshly created container is good enough to keep. */
module Verification {
  import opened Wrappers
  import opened Looks
  import opened Docker

  /** A container between two crashes can be good enough and yet be restarting; by
      the contracts below it is accepted on such a look only past the deadline. */
  lemma ARestartingContainerMayPass() returns (s: RunState)
    ensures Passing(Some(s)) && Undecided(Some(s)) && s.restarting
    ensures forall t: RunState :: Passing(Some(t)) ==> (Undecided(Some(t)) <==> t.restarting || t.health == NoHealth)
  {
    s := RunState(true, true, false, 0, NoHealth);
  }

  /** One round: look, decide if the look or the clock decides, else sleep.
      `saw` is what the look found, if it found anything. */
  method PollOnce(d: Daemon, id: Id, deadline: int) returns (r: Call<Option<bool>>, ghost saw: Option<Option<RunState>>)
    requires d.Valid()
    modifies d`world, d`now
    ensures d.Valid() && Rely(old(d.world), d.world, d.guarded) && d.now >= old(d.now)
    ensures d.reliable ==> d.world == old(d.world) && r.Replied?
    ensures saw.Some? && SeemsAlive(saw.value) ==> Shown(d.sights(id), Glance(old(d.now), saw.value))
    ensures r == Replied(Some(true)) ==> saw.Some? && Passing(saw.value) && Exists(d.world, id) && IsUp(d.world, id)
    // A look that decides nothing, yet is good enough, is accepted only once the time is up.
    ensures r == Replied(Some(true)) && Undecided(saw.value) ==> d.now > deadline
    ensures r == Replied(None) ==> saw.Some? && Undecided(saw.value) && old(d.now) <= deadline && d.now >= old(d.now) + POLL_GAP
    ensures d.reliable && r == Replied(Some(false)) && Exists(d.world, id) ==>
      saw.Some? && !Passing(saw.value) && (Undecided(saw.value) ==> d.now > deadline)
  {
    saw := None;
    r := Crashed;
    var looked := d.Inspect(id);
    if looked.Crashed? {
      return;
    }
    r := Replied(Some(false));
    if looked.value.Failure? {
      return;
    }
    var state := looked.value.value.state;
    saw := Some(state);
    if state.None? {
      return;
    }
    var st := state.value;
    if st.restarting {
      // Undecided, however often it restarts.
    } else if !st.running {
      return;
    } else if st.health == Healthy {
      r := Replied(Some(true));
      return;
    } else if st.health == Unhealthy {
      return;
    }
    d.Elapse();
    if d.now > deadline {
      r := Replied(Some(st.health in {NoHealth, Healthy} && st.running));
      return;
    }
    var cancelled := d.Sleep(POLL_GAP);
    r := Replied(if cancelled then Some(false) else None);
  }

  /** The looks so far have decided nothing, and there is time for another. */
  ghost predicate Waiting(sights: Sights, watched: seq<Glance>, start: int, now: int) {
    && (forall i :: 0 <= i < |watched| ==> Shown(sights, watched[i]) && Undecided(watched[i].state))
    && (forall i :: 0 < i < |watched| ==> watched[i].at >= watched[i - 1].at + POLL_GAP)
    && start + POLL_GAP * |watched| <= now && |watched| < MOST_POLLS
    && if watched == [] then now == start
       else
         var last := watched[|watched| - 1].at;
         watched[0].at == start && start + POLL_GAP * (|watched| - 1) <= last <= start + VERIFY_TIMEOUT && last + POLL_GAP <= now
  }

  /** The last look was not good enough, and undecided only if the time was up. */
  ghost predicate Failed(watched: seq<Glance>, start: int, decided: int) {
    && watched != [] && !Passing(watched[|watched| - 1].state)
    && (forall i :: 0 <= i < |watched| - 1 ==> Undecided(watched[i].state))
    && (Undecided(watched[|watched| - 1].state) ==> decided > start + VERIFY_TIMEOUT)
  }

  lemma LastLook(sights: Sights, watched: seq<Glance>, g: Glance, start: int, decided: int)
    requires Waiting(sights, watched, start, g.at) && g.at <= decided
    requires Undecided(g.state) ==> decided > start + VERIFY_TIMEOUT
    ensures Passing(g.state) && Shown(sights, g) ==> Withstood(sights, watched + [g], start, decided)
    ensures !Passing(g.state) ==> Failed(watched + [g], start, decided)
  {
  }

  lemma AnotherLook(sights: Sights, watched: seq<Glance>, g: Glance, start: int, now: int)
    requires Waiting(sights, watched, start, g.at) && Undecided(g.state) && Shown(sights, g)
    requires g.at <= start + VERIFY_TIMEOUT && g.at + POLL_GAP <= now
    ensures Waiting(sights, watched + [g], start, now)
  {
  }

  /** One more round, added to those `watched` since `start`. */
  method PollNext(d: Daemon, id: Id, deadline: int, ghost start: int, ghost watched: seq<Glance>)
    returns (r: Call<Option<bool>>, ghost watched': seq<Glance>)
    requires d.Valid() && deadline == start + VERIFY_TIMEOUT && Waiting(d.sights(id), watched, start, d.now)
    modifies d`world, d`now
    ensures d.Valid() && Rely(old(d.world), d.world, d.guarded) && |watched'| <= MOST_POLLS
    ensures d.reliable ==> d.world == old(d.world) && r.Replied?
    ensures r == Replied(None) ==>
      Waiting(d.sights(id), watched', start, d.now) && old(d.now) <= deadline && d.now >= old(d.now) + POLL_GAP
    ensures r == Replied(Some(true)) ==>
      Withstood(d.sights(id), watched', start, d.now) && Exists(d.world, id) && IsUp(d.world, id)
    ensures d.reliable && r == Replied(Some(false)) && Exists(d.world, id) ==> Failed(watched', start, d.now)
  {
    ghost var saw;
    r, saw := PollOnce(d, id, deadline);
    watched' := watched;
    if saw.Some? {
      ghost var g := Glance(old(d.now), saw.value);
      watched' := watched + [g];
      if r == Replied(None) {
        AnotherLook(d.sights(id), watched, g, start, d.now);
      } else if Undecided(g.state) ==> d.now > deadline {
        LastLook(d.sights(id), watched, g, start, d.now);
      }
    }
  }

  /** Polls container `id` until something decides. `watched` are the looks that
      reached it. Those of a container accepted are what `Verified` asks for. */
  method VerifyHealthy(d: Daemon, id: Id) returns (r: Call<Result<(), ()>>, ghost watched: seq<Glance>)
    requires d.Valid()
    modifies d`world, d`now, d`verified
    ensures d.Valid() && Rely(old(d.world), d.world, d.guarded)
    ensures d.reliable ==> d.world == old(d.world) && r.Replied?
    ensures |watched| <= MOST_POLLS
    ensures Succeeded(r) ==> Withstood(d.sights(id), watched, old(d.now), d.now) && Exists(d.world, id) && IsUp(d.world, id)
    ensures d.reliable && r.Replied? && r.value.Failure? && Exists(d.world, id) ==> Failed(watched, old(d.now), d.now)
    ensures d.verified == if Succeeded(r) then old(d.verified) + {id} else old(d.verified)
  {
    watched := [];
    r := Crashed;
    var deadline := d.now + VERIFY_TIMEOUT;
    var verdict := None;
    while verdict.None?
      invariant d.Valid() && Rely(old(d.world), d.world, d.guarded)
      invariant d.reliable ==> d.world == old(d.world)
      invariant verdict.None? ==> Waiting(d.sights(id), watched, old(d.now), d.now)
      invariant |watched| <= MOST_POLLS
      invariant verdict == Some(true) ==>
        Withstood(d.sights(id), watched, old(d.now), d.now) && Exists(d.world, id) && IsUp(d.world, id)
      invariant d.reliable && verdict == Some(false) && Exists(d.world, id) ==> Failed(watched, old(d.now), d.now)
      modifies d`world, d`now
      decreases verdict.None?, deadline - d.now
    {
      ghost var before := d.world;
      var polled;
      polled, watched := PollNext(d, id, deadline, old(d.now), watched);
      RelyTransitive(old(d.world), before, d.world, d.guarded);
      if polled.Crashed? {
        return;
      }
      verdict := polled.value;
    }
    if verdict.value {
      d.verified := d.verified + {id};
    }
    r := Replied(if verdict.value then Success(()) else Failure(()));
  }
}
