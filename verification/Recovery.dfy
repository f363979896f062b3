/** internal/docker/recover.go: reconciling updates that were interrupted. */
module Recovery {
  import opened Wrappers
  import opened Looks
  import opened Docker
  import opened Verification
  import opened Snapshots
  import opened Update

  function Original(k: Name): Name
    requires k.parkings > 0
  {
    k.(parkings := k.parkings - 1)
  }

  /** No parked name is itself parked: a name Veery manages never ends in the suffix. */
  ghost predicate NoNesting(w: World) {
    forall n :: n in w.containers ==> n.parkings <= 1
  }

  /** Nobody but Veery touches parked containers, or the names they wait for. */
  ghost predicate Undisturbed(guarded: iset<Name>, w: World) {
    && (forall n: Name :: n.parkings > 0 ==> n in guarded)
    && (forall k :: k in w.containers && k.parkings > 0 ==> Original(k) in guarded)
  }

  predicate IsParked(w: World, id: Id) {
    id in w.names && w.names[id].parkings > 0
  }

  /** Of the containers that were parked, some may have come back without a confirmed
      start. */
  ghost predicate Marked(w: World, before: set<Id>, after: set<Id>) {
    before <= after && forall id :: id in after ==> id in before || IsParked(w, id)
  }

  /** Nobody has been parked. */
  ghost predicate NoneParked(w: World, w': World) {
    forall id :: IsParked(w', id) ==> IsParked(w, id)
  }

  lemma StayingParksNone(w: World, w': World, guarded: iset<Name>)
    requires WellFormed(w) && WellFormed(w') && Stays(w, w', guarded) && (Undisturbed(guarded, w) || Undisturbed(guarded, w'))
    ensures NoneParked(w, w')
  {
    forall id | IsParked(w', id) ensures IsParked(w, id) {
      assert SameAt(w, w', w'.names[id]);
    }
  }

  function SelfSet(self: Option<Id>): set<Id> {
    if self.Some? then {self.value} else {}
  }

  // ---- What recovery makes of one parked container ----

  /** Settles the container parked as `k`. `accepted` says whether a replacement
      under the original name proved healthy. */
  function Reconciled(w: World, k: Name, self: Option<Id>, accepted: bool): (r: World)
    requires WellFormed(w)
    ensures WellFormed(r) && SameRest(w, r)
  {
    if k !in w.containers || k.parkings == 0 then w else
    var n := Original(k);
    var parked := w.containers[k].id;
    if n in w.containers then
      var newer := w.containers[n].id;
      if self == Some(newer) then Dropped(w, parked)
      else if self == Some(parked) then
        if accepted then w else Reseated(Dropped(w, newer), parked, n)
      else if accepted then Dropped(w, parked)
      else Raised(Reseated(Dropped(w, newer), parked, n), parked)
    else if self == Some(parked) then Reseated(w, parked, n)
    else Raised(Reseated(w, parked, n), parked)
  }

  /** Whether a look shows it running and not unhealthy. */
  method IsHealthy(d: Daemon, id: Id) returns (r: Call<bool>, ghost saw: Option<RunState>)
    requires d.Valid()
    modifies d`world
    ensures d.Valid() && Rely(old(d.world), d.world, d.guarded) && (d.reliable ==> d.world == old(d.world) && r.Replied?)
    ensures r == Replied(true) ==> Exists(d.world, id) && IsUp(d.world, id)
    ensures r.Replied? ==> r.value == (saw.Some? && saw.value.running && saw.value.health != Unhealthy)
  {
    saw := None;
    r := Crashed;
    var looked :- d.Inspect(id);
    saw := if looked.Success? then looked.value.state else None;
    r := Replied(looked.Success? && looked.value.state.Some? && looked.value.state.value.running
                 && looked.value.state.value.health != Unhealthy);
  }

  /** Removes the container holding the name, if any, and takes the name back. */
  method Displace(d: Daemon, k: Name, self: Id, newer: Option<Id>) returns (r: Call<()>)
    requires d.Valid() && k.parkings > 0 && Guards(d.guarded, Original(k)) && Holds(d.world, k, self)
    requires match newer case Some(f) => Holds(d.world, Original(k), f) case None => !Taken(d.world, Original(k))
    modifies d`world, d`disturbed
    ensures d.Valid() && Lineage(old(d.world), d.world, old(d.world).next)
    ensures Elsewhere(old(d.world), d.world, d.guarded, Original(k))
    ensures SameFaces(old(d.world), d.world, Original(k))
    ensures InPlace(d.world, Original(k), self) || Holds(d.world, k, self)
    ensures d.reliable ==> r.Replied? && d.world == Reconciled(old(d.world), k, Some(self), false)
  {
    if newer.Some? {
      var removed := d.Remove(newer.value);
      if removed.Crashed? || removed.value.Failure? {
        return if removed.Crashed? then Crashed else Replied(());
      }
    }
    var renamed := PutBack(d, self, Original(k));
    r := if renamed.Crashed? then Crashed else Replied(());
  }

  /** The recovering Veery runs in the container that is parked. It yields to a
      running bearer that is not unhealthy, and otherwise removes it. */
  method ReclaimName(d: Daemon, k: Name, self: Id, newer: Option<Summary>) returns (r: Call<()>, ghost accepted: bool)
    requires d.Valid() && k.parkings > 0 && Guards(d.guarded, Original(k)) && Holds(d.world, k, self)
    requires match newer case Some(f) => Holds(d.world, Original(k), f.id) case None => !Taken(d.world, Original(k))
    modifies d`world, d`disturbed
    ensures d.Valid() && Lineage(old(d.world), d.world, old(d.world).next)
    ensures Elsewhere(old(d.world), d.world, d.guarded, Original(k))
    ensures SameFaces(old(d.world), d.world, Original(k))
    ensures InPlace(d.world, Original(k), self) || Holds(d.world, k, self)
    ensures d.reliable ==> r.Replied? && d.world == Reconciled(old(d.world), k, Some(self), accepted)
    ensures d.reliable && accepted ==> newer.Some? && old(d.world).containers[Original(k)].up
  {
    accepted := false;
    if newer.Some? {
      if newer.value.running {
        var healthy, _ := IsHealthy(d, newer.value.id);
        if healthy.Crashed? || healthy.value {
          accepted := healthy.Replied?;
          return if healthy.Crashed? then Crashed else Replied(()), accepted;
        }
      }
    }
    r := Displace(d, k, self, if newer.Some? then Some(newer.value.id) else None);
  }

  /** Two strangers contend for the name: verification says which one is removed. */
  method JudgeReplacement(d: Daemon, k: Name, parked: Id, newer: Id) returns (r: Call<()>, ghost accepted: bool)
    requires d.Valid() && k.parkings > 0 && Guards(d.guarded, Original(k))
    requires Holds(d.world, k, parked) && Holds(d.world, Original(k), newer)
    modifies d`world, d`now, d`verified, d`disturbed, d`unstarted
    ensures d.Valid() && Lineage(old(d.world), d.world, old(d.world).next)
    ensures Elsewhere(old(d.world), d.world, d.guarded, Original(k))
    ensures SameFaces(old(d.world), d.world, Original(k))
    ensures Kept(d.world, Original(k), parked, d.verified) && old(d.verified) <= d.verified
    ensures UpUnless(d.world, Original(k), d.unstarted)
    ensures old(d.unstarted) <= d.unstarted <= old(d.unstarted) + {parked}
    ensures d.reliable ==> d.unstarted == old(d.unstarted)
    ensures d.reliable ==> r.Replied?
    ensures d.reliable ==> forall self: Option<Id> :: self != Some(parked) && self != Some(newer) ==>
      d.world == Reconciled(old(d.world), k, self, accepted)
    ensures d.reliable && accepted ==> newer in d.verified && old(d.world).containers[Original(k)].up
  {
    accepted := false;
    var verdict, _ := VerifyHealthy(d, newer);
    if verdict.Crashed? {
      return Crashed, accepted;
    }
    accepted := verdict.value.Success?;
    r := KeepOne(d, k, parked, newer, verdict.value.Success?);
  }

  /** Removes the parked container, or its replacement in favour of it. */
  method KeepOne(d: Daemon, k: Name, parked: Id, newer: Id, accepted: bool) returns (r: Call<()>)
    requires d.Valid() && k.parkings > 0 && Guards(d.guarded, Original(k))
    requires Holds(d.world, k, parked) && Holds(d.world, Original(k), newer)
    requires accepted ==> newer in d.verified && d.world.containers[Original(k)].up
    modifies d`world, d`disturbed, d`unstarted
    ensures d.Valid() && Lineage(old(d.world), d.world, old(d.world).next)
    ensures Elsewhere(old(d.world), d.world, d.guarded, Original(k))
    ensures SameFaces(old(d.world), d.world, Original(k))
    ensures Kept(d.world, Original(k), parked, d.verified) && UpUnless(d.world, Original(k), d.unstarted)
    ensures old(d.unstarted) <= d.unstarted <= old(d.unstarted) + {parked}
    ensures d.reliable ==> r.Replied? && d.unstarted == old(d.unstarted)
    ensures d.reliable ==> forall self: Option<Id> :: self != Some(parked) && self != Some(newer) ==>
      d.world == Reconciled(old(d.world), k, self, accepted)
  {
    assert Parked(Original(k)) == k;
    if accepted {
      var removed := Retire(d, parked, Original(k), newer);
      r := if removed.Crashed? then Crashed else Replied(());
    } else {
      var undone := Rollback(d, Some(newer), parked, Original(k));
      r := if undone.Crashed? then Crashed else Replied(());
    }
  }

  /** One entry of a listing with the parking suffix, and the entry of its original
      name if there is one: the branches. */
  method ReconcileOne(d: Daemon, self: Option<Id>, k: Name, parked: Id, newer: Option<Summary>)
    returns (r: Call<()>, ghost accepted: bool)
    requires d.Valid() && k.parkings > 0 && Guards(d.guarded, Original(k)) && Holds(d.world, k, parked)
    requires match newer case Some(f) => Holds(d.world, Original(k), f.id) case None => !Taken(d.world, Original(k))
    modifies d`world, d`now, d`verified, d`disturbed, d`unstarted
    ensures d.Valid() && Lineage(old(d.world), d.world, old(d.world).next)
    ensures Elsewhere(old(d.world), d.world, d.guarded, Original(k))
    ensures SameFaces(old(d.world), d.world, Original(k))
    ensures Kept(d.world, Original(k), parked, d.verified + SelfSet(self)) && old(d.verified) <= d.verified
    ensures UpUnless(d.world, Original(k), d.unstarted + SelfSet(self))
    ensures old(d.unstarted) <= d.unstarted <= old(d.unstarted) + {parked}
    ensures d.reliable ==> d.unstarted == old(d.unstarted)
    ensures d.reliable ==> r.Replied? && d.world == Reconciled(old(d.world), k, self, accepted)
    ensures d.reliable && accepted ==> newer.Some? && old(d.world).containers[Original(k)].up
    ensures d.reliable && accepted && self != Some(parked) ==> newer.value.id in d.verified
  {
    if newer.Some? && self == Some(newer.value.id) {
      accepted := false;
      var removed := Retire(d, parked, Original(k), newer.value.id);
      r := if removed.Crashed? then Crashed else Replied(());
    } else if self == Some(parked) {
      r, accepted := ReclaimName(d, k, parked, newer);
    } else if newer.None? {
      accepted := false;
      var restored := Restore(d, parked, Original(k));
      r := if restored.Crashed? then Crashed else Replied(());
    } else {
      r, accepted := JudgeReplacement(d, k, parked, newer.value.id);
    }
  }

  // ---- Recovery as a whole ----

  /** What recovery may do while others act and calls fail: every parked container
      is kept in the sense of a swap, and nothing else is touched. */
  ghost predicate AllKept(w: World, w': World, todo: set<Name>, good: set<Id>, excused: set<Id>) {
    forall k :: k in w.containers && k.parkings > 0 ==>
      if k in todo then SameAt(w, w', k) && SameAt(w, w', Original(k))
      else Kept(w', Original(k), w.containers[k].id, good) && SameFaces(w, w', Original(k)) && UpUnless(w', Original(k), excused)
  }

  ghost predicate OthersLeft(w: World, w': World, guarded: iset<Name>) {
    && (forall n :: n in guarded && n.parkings == 0 && Parked(n) !in w.containers ==> SameAt(w, w', n))
    && (forall k :: k in w'.containers && k.parkings > 0 ==> k in w.containers)
  }

  lemma OneMoreKept(w: World, w1: World, w2: World, guarded: iset<Name>, todo: set<Name>, k: Name,
                    good: set<Id>, good': set<Id>, excused: set<Id>, excused': set<Id>)
    requires NoNesting(w) && Undisturbed(guarded, w) && k in todo && k in w.containers && k.parkings > 0
    requires AllKept(w, w1, todo, good, excused) && OthersLeft(w, w1, guarded) && good <= good' && excused <= excused'
    requires Elsewhere(w1, w2, guarded, Original(k)) && Kept(w2, Original(k), w.containers[k].id, good')
    requires SameFaces(w1, w2, Original(k)) && UpUnless(w2, Original(k), excused')
    ensures AllKept(w, w2, todo - {k}, good', excused') && OthersLeft(w, w2, guarded)
  {
    forall m | m in w.containers && m.parkings > 0
      ensures if m in todo - {k} then SameAt(w, w2, m) && SameAt(w, w2, Original(m))
              else Kept(w2, Original(m), w.containers[m].id, good') && SameFaces(w, w2, Original(m)) && UpUnless(w2, Original(m), excused')
    {
      assert Parked(Original(m)) == m;
      if m == k {
        assert SameAt(w, w1, m) && SameAt(w, w1, Original(m));
      } else {
        StillKept(w, w1, w2, m, m in todo, good, good', excused, excused');
      }
    }
    forall m | m in w2.containers && m.parkings > 0 ensures m in w.containers {
      if m != k {
        assert SameAt(w1, w2, m);
      }
    }
    forall n | n in guarded && n.parkings == 0 && Parked(n) !in w.containers ensures SameAt(w, w2, n) {
      assert Parked(Original(k)) == k;
      assert SameAt(w, w1, n) && SameAt(w1, w2, n);
    }
  }

  lemma StillKept(w: World, w1: World, w2: World, m: Name, todo: bool, good: set<Id>, good': set<Id>, excused: set<Id>, excused': set<Id>)
    requires m in w.containers && m.parkings > 0 && good <= good' && excused <= excused'
    requires SameAt(w1, w2, m) && SameAt(w1, w2, Original(m)) && Parked(Original(m)) == m
    requires if todo then SameAt(w, w1, m) && SameAt(w, w1, Original(m))
             else Kept(w1, Original(m), w.containers[m].id, good) && SameFaces(w, w1, Original(m)) && UpUnless(w1, Original(m), excused)
    ensures if todo then SameAt(w, w2, m) && SameAt(w, w2, Original(m))
            else Kept(w2, Original(m), w.containers[m].id, good') && SameFaces(w, w2, Original(m)) && UpUnless(w2, Original(m), excused')
  {
  }

  /** What is still to do is as safe as what is done. */
  lemma AllKeptSoFar(w: World, w': World, todo: set<Name>, good: set<Id>, excused: set<Id>)
    requires AllKept(w, w', todo, good, excused)
    ensures AllKept(w, w', {}, good, excused)
  {
    forall k | k in w.containers && k.parkings > 0
      ensures Kept(w', Original(k), w.containers[k].id, good) && SameFaces(w, w', Original(k)) && UpUnless(w', Original(k), excused)
    {
      assert Parked(Original(k)) == k;
    }
  }

  /** A log of the steps that took a recovery from `w0` to `w`, with `todo` left. */
  ghost predicate Logged(w0: World, w: World, self: Option<Id>, steps: seq<Step>, todo: set<Name>)
    requires WellFormed(w0)
  {
    && w == RecoverAll(w0, self, steps) && Orderly(steps)
    && (forall s :: s in steps ==> Grounded(s, w0) && s.name !in todo)
    && (forall k :: k in w0.containers && k.parkings > 0 && k !in todo ==> Treated(steps, k))
  }

  /** A step settles a container that was there, and accepts only a replacement
      that had been started. */
  ghost predicate Grounded(s: Step, w: World) {
    && s.name in w.containers
    && (s.accepted ==> s.name.parkings > 0 && Original(s.name) in w.containers && w.containers[Original(s.name)].up)
  }

  ghost predicate Treated(steps: seq<Step>, k: Name) {
    exists i :: 0 <= i < |steps| && steps[i].name == k
  }

  lemma OneMoreLogged(w0: World, w1: World, w2: World, self: Option<Id>, steps: seq<Step>, todo: set<Name>, k: Name, accepted: bool)
    requires WellFormed(w0) && Logged(w0, w1, self, steps, todo) && k in todo && k.parkings == 1
    requires Grounded(Step(k, accepted), w0) && w2 == Reconciled(w1, k, self, accepted)
    ensures Logged(w0, w2, self, steps + [Step(k, accepted)], todo - {k})
  {
    var steps' := steps + [Step(k, accepted)];
    assert steps'[..|steps|] == steps;
    forall m | m in w0.containers && m.parkings > 0 && m !in todo - {k} ensures Treated(steps', m) {
      if m == k {
        assert steps'[|steps|].name == k;
      } else {
        var i :| 0 <= i < |steps| && steps[i].name == m;
        assert steps'[i].name == m;
      }
    }
    assert forall i :: 0 <= i < |steps| ==> steps[i] in steps;
    assert forall i :: 0 <= i < |steps| ==> steps'[i] == steps[i];
  }

  /** A listing tells of the containers still to settle as they were found. */
  ghost predicate Pending(byName: map<Name, Summary>, w0: World, todo: set<Name>) {
    forall k :: k in todo ==>
      && k.parkings == 1 && k in w0.containers && k in byName && w0.containers[k].id == byName[k].id
      && if Original(k) in byName then Holds(w0, Original(k), byName[Original(k)].id) else !Taken(w0, Original(k))
  }

  /** Settles one of the containers a listing found parked. */
  method ReconcileNext(d: Daemon, self: Option<Id>, byName: map<Name, Summary>, k: Name,
                       ghost w0: World, ghost todo: set<Name>, ghost steps: seq<Step>)
    returns (r: Call<()>, ghost step: Step)
    requires d.Valid() && WellFormed(w0) && NoNesting(w0) && Undisturbed(d.guarded, w0)
    requires k in todo && Pending(byName, w0, todo) && Lineage(w0, d.world, w0.next)
    requires AllKept(w0, d.world, todo, d.verified + SelfSet(self), d.unstarted + SelfSet(self)) && OthersLeft(w0, d.world, d.guarded)
    requires d.reliable ==> Logged(w0, d.world, self, steps, todo)
    modifies d`world, d`now, d`verified, d`disturbed, d`unstarted
    ensures d.Valid() && Lineage(w0, d.world, w0.next) && old(d.verified) <= d.verified
    ensures Marked(w0, old(d.unstarted), d.unstarted) && (d.reliable ==> d.unstarted == old(d.unstarted))
    ensures AllKept(w0, d.world, todo - {k}, d.verified + SelfSet(self), d.unstarted + SelfSet(self)) && OthersLeft(w0, d.world, d.guarded)
    ensures d.reliable ==> r.Replied? && Logged(w0, d.world, self, steps + [step], todo - {k})
  {
    var newer := if Original(k) in byName then Some(byName[Original(k)]) else None;
    ghost var before, good, excused := d.world, d.verified + SelfSet(self), d.unstarted + SelfSet(self);
    assert SameAt(w0, before, k) && SameAt(w0, before, Original(k));
    assert Parked(Original(k)) == k;
    ghost var accepted;
    r, accepted := ReconcileOne(d, self, k, byName[k].id, newer);
    step := Step(k, accepted);
    OneMoreDone(w0, before, d.world, d.guarded, todo, step, self, steps, d.reliable,
                good, d.verified + SelfSet(self), excused, d.unstarted + SelfSet(self));
    OneMoreMarked(w0, k, old(d.unstarted), d.unstarted);
  }

  lemma OneMoreMarked(w: World, k: Name, before: set<Id>, after: set<Id>)
    requires WellFormed(w) && k in w.containers && k.parkings > 0
    requires before <= after <= before + {w.containers[k].id}
    ensures Marked(w, before, after)
  {
  }

  lemma OneMoreDone(w0: World, w1: World, w2: World, guarded: iset<Name>, todo: set<Name>, step: Step, self: Option<Id>, steps: seq<Step>,
                    reliable: bool, good: set<Id>, good': set<Id>, excused: set<Id>, excused': set<Id>)
    requires WellFormed(w0) && WellFormed(w1) && NoNesting(w0) && Undisturbed(guarded, w0)
    requires var k := step.name;
      && k in todo && k in w0.containers && k.parkings == 1
      && Elsewhere(w1, w2, guarded, Original(k)) && SameFaces(w1, w2, Original(k))
      && Kept(w2, Original(k), w0.containers[k].id, good') && UpUnless(w2, Original(k), excused')
      && (reliable ==> Logged(w0, w1, self, steps, todo) && Grounded(step, w0) && w2 == Reconciled(w1, k, self, step.accepted))
    requires AllKept(w0, w1, todo, good, excused) && OthersLeft(w0, w1, guarded) && good <= good' && excused <= excused'
    ensures AllKept(w0, w2, todo - {step.name}, good', excused') && OthersLeft(w0, w2, guarded)
    ensures reliable ==> Logged(w0, w2, self, steps + [step], todo - {step.name})
  {
    OneMoreKept(w0, w1, w2, guarded, todo, step.name, good, good', excused, excused');
    if reliable {
      OneMoreLogged(w0, w1, w2, self, steps, todo, step.name, step.accepted);
    }
  }

  /** The loop over those entries, in any order. */
  method ReconcileParked(d: Daemon, self: Option<Id>) returns (r: Call<()>, ghost steps: seq<Step>)
    requires d.Valid() && NoNesting(d.world) && Undisturbed(d.guarded, d.world)
    modifies d`world, d`now, d`verified, d`disturbed, d`unstarted
    ensures d.Valid() && Lineage(old(d.world), d.world, old(d.world).next)
    ensures old(d.verified) <= d.verified && Marked(old(d.world), old(d.unstarted), d.unstarted)
    ensures d.reliable ==> d.unstarted == old(d.unstarted)
    ensures AllKept(old(d.world), d.world, {}, d.verified + SelfSet(self), d.unstarted + SelfSet(self)) && OthersLeft(old(d.world), d.world, d.guarded)
    ensures d.reliable ==> r.Replied? && Logged(old(d.world), d.world, self, steps, {})
  {
    steps := [];
    ghost var w0 := d.world;
    var listed := d.List();
    NothingDone(w0, d.world, d.guarded, d.verified + SelfSet(self), d.unstarted + SelfSet(self));
    AllKeptSoFar(w0, d.world, w0.containers.Keys, d.verified + SelfSet(self), d.unstarted + SelfSet(self));
    var listing :- listed;
    if listing.Failure? {
      return Replied(()), steps;
    }
    ListingIsPending(listing.value, w0, d.world, d.guarded, set k | k in listing.value && k.parkings > 0);
    r, steps := ReconcileListed(d, self, listing.value, w0);
  }

  method ReconcileListed(d: Daemon, self: Option<Id>, byName: map<Name, Summary>, ghost w0: World)
    returns (r: Call<()>, ghost steps: seq<Step>)
    requires d.Valid() && WellFormed(w0) && NoNesting(w0) && Undisturbed(d.guarded, w0) && Lineage(w0, d.world, w0.next)
    requires var todo := set k | k in byName && k.parkings > 0;
      && Pending(byName, w0, todo) && OthersLeft(w0, d.world, d.guarded)
      && AllKept(w0, d.world, todo, d.verified + SelfSet(self), d.unstarted + SelfSet(self))
      && (d.reliable ==> Logged(w0, d.world, self, [], todo))
    modifies d`world, d`now, d`verified, d`disturbed, d`unstarted
    ensures d.Valid() && Lineage(w0, d.world, w0.next)
    ensures old(d.verified) <= d.verified && Marked(w0, old(d.unstarted), d.unstarted)
    ensures d.reliable ==> d.unstarted == old(d.unstarted)
    ensures AllKept(w0, d.world, {}, d.verified + SelfSet(self), d.unstarted + SelfSet(self)) && OthersLeft(w0, d.world, d.guarded)
    ensures d.reliable ==> r.Replied? && Logged(w0, d.world, self, steps, {})
  {
    steps := [];
    var todo := set k | k in byName && k.parkings > 0;
    while todo != {}
      invariant d.Valid() && Lineage(w0, d.world, w0.next) && old(d.verified) <= d.verified
      invariant Marked(w0, old(d.unstarted), d.unstarted) && (d.reliable ==> d.unstarted == old(d.unstarted))
      invariant Pending(byName, w0, todo)
      invariant AllKept(w0, d.world, todo, d.verified + SelfSet(self), d.unstarted + SelfSet(self)) && OthersLeft(w0, d.world, d.guarded)
      invariant d.reliable ==> Logged(w0, d.world, self, steps, todo)
    {
      var k :| k in todo;
      var done;
      ghost var step;
      done, step := ReconcileNext(d, self, byName, k, w0, todo, steps);
      AllKeptSoFar(w0, d.world, todo - {k}, d.verified + SelfSet(self), d.unstarted + SelfSet(self));
      if done.Crashed? {
        return Crashed, steps;
      }
      todo := todo - {k};
      steps := steps + [step];
    }
    r := Replied(());
  }

  lemma KeepingParksNone(w: World, w': World, guarded: iset<Name>, good: set<Id>, excused: set<Id>)
    requires WellFormed(w) && WellFormed(w') && AllKept(w, w', {}, good, excused) && OthersLeft(w, w', guarded)
    ensures NoneParked(w, w')
  {
    forall id | IsParked(w', id) ensures IsParked(w, id) {
      var k := w'.names[id];
      assert k in w.containers && Parked(Original(k)) == k;
      assert Kept(w', Original(k), w.containers[k].id, good);
    }
  }

  lemma NothingDone(w: World, w': World, guarded: iset<Name>, good: set<Id>, excused: set<Id>)
    requires NoNesting(w) && Undisturbed(guarded, w) && Stays(w, w', guarded)
    ensures AllKept(w, w', (set k | k in w'.containers && k.parkings > 0), good, excused) && OthersLeft(w, w', guarded)
    ensures AllKept(w, w', w.containers.Keys, good, excused)
  {
    forall k | k in w.containers && k.parkings > 0
      ensures k in w'.containers && SameAt(w, w', k) && SameAt(w, w', Original(k))
    {
      assert SameAt(w, w', k) && SameAt(w, w', Original(k));
    }
    forall k | k in w'.containers && k.parkings > 0 ensures k in w.containers {
      assert SameAt(w, w', k);
    }
  }

  lemma ListingIsPending(byName: map<Name, Summary>, w: World, w': World, guarded: iset<Name>, todo: set<Name>)
    requires NoNesting(w) && Undisturbed(guarded, w) && Stays(w, w', guarded)
    requires Listed(byName, w') && todo == set k | k in byName && k.parkings > 0
    ensures Pending(byName, w, todo) && todo == set k | k in w'.containers && k.parkings > 0
  {
    forall k | k in todo
      ensures k in w.containers && w.containers[k].id == byName[k].id
      ensures if Original(k) in byName then Holds(w, Original(k), byName[Original(k)].id) else !Taken(w, Original(k))
    {
      assert SameAt(w, w', k);
      assert SameAt(w, w', Original(k));
    }
  }

  /** One parked container settled, and how its replacement fared. */
  datatype Step = Step(name: Name, accepted: bool)

  function RecoverAll(w: World, self: Option<Id>, steps: seq<Step>): (r: World)
    requires WellFormed(w)
    ensures WellFormed(r)
  {
    if steps == [] then w
    else
      var last := steps[|steps| - 1];
      Reconciled(RecoverAll(w, self, steps[..|steps| - 1]), last.name, self, last.accepted)
  }

  /** Every step settles a different container, and none is nested in another. */
  ghost predicate Orderly(steps: seq<Step>) {
    && (forall i :: 0 <= i < |steps| ==> steps[i].name.parkings == 1)
    && (forall i, j :: 0 <= i < j < |steps| ==> steps[i].name != steps[j].name)
  }

  function At(w: World, n: Name): Option<Container> {
    if n in w.containers then Some(w.containers[n]) else None
  }

  /** The decision table: who bears the name, and who is parked under it, afterwards. */
  function Verdict(here: Option<Container>, parked: Option<Container>, self: Option<Id>, accepted: bool)
    : (Option<Container>, Option<Container>)
  {
    if parked.None? then (here, parked)
    else if here.Some? && self == Some(here.value.id) then (here, None)
    else if here.Some? && accepted then (here, if self == Some(parked.value.id) then parked else None)
    else if self == Some(parked.value.id) then (parked, None)
    else (Some(parked.value.(up := true)), None)
  }

  /** The bearer of each name according to the table. */
  function Tabled(w: World, k: Name, self: Option<Id>, accepted: bool, n: Name): Option<Container>
    requires k.parkings > 0
  {
    var v := Verdict(At(w, Original(k)), At(w, k), self, accepted);
    if n == Original(k) then v.0 else if n == k then v.1 else At(w, n)
  }

  lemma RestoredAt(w: World, k: Name, parked: Id, n: Name)
    requires WellFormed(w) && k.parkings > 0 && Holds(w, k, parked) && !Taken(w, Original(k))
    ensures At(Reseated(w, parked, Original(k)), n) == if n == Original(k) then At(w, k) else if n == k then None else At(w, n)
    ensures
      var named := Reseated(w, parked, Original(k));
      At(Raised(named, parked), n) == if n == Original(k) then Some(Container(parked, true)) else At(named, n)
  {
    var named := Reseated(w, parked, Original(k));
    assert named.names[parked] == Original(k);
  }

  lemma ReconciledUncontested(w: World, k: Name, self: Option<Id>, accepted: bool, n: Name)
    requires WellFormed(w) && k.parkings > 0 && Taken(w, k) && !Taken(w, Original(k))
    ensures At(Reconciled(w, k, self, accepted), n) == Tabled(w, k, self, accepted, n)
  {
    RestoredAt(w, k, w.containers[k].id, n);
  }

  lemma TakenBackAt(w: World, k: Name, newer: Id, parked: Id, n: Name)
    requires WellFormed(w) && k.parkings > 0 && Holds(w, k, parked) && Holds(w, Original(k), newer)
    ensures
      var named := Reseated(Dropped(w, newer), parked, Original(k));
      && At(named, n) == (if n == Original(k) then At(w, k) else if n == k then None else At(w, n))
      && At(Raised(named, parked), n) ==
           (if n == Original(k) then Some(Container(parked, true)) else if n == k then None else At(w, n))
  {
  }

  lemma ReconciledContested(w: World, k: Name, self: Option<Id>, accepted: bool, n: Name)
    requires WellFormed(w) && k.parkings > 0 && Taken(w, k) && Taken(w, Original(k))
    ensures At(Reconciled(w, k, self, accepted), n) == Tabled(w, k, self, accepted, n)
  {
    var newer, parked := w.containers[Original(k)].id, w.containers[k].id;
    if self != Some(newer) && !accepted {
      TakenBackAt(w, k, newer, parked, n);
    }
  }

  lemma ReconciledByTable(w: World, k: Name, self: Option<Id>, accepted: bool)
    requires WellFormed(w) && k.parkings > 0
    ensures var w' := Reconciled(w, k, self, accepted);
      (At(w', Original(k)), At(w', k)) == Verdict(At(w, Original(k)), At(w, k), self, accepted)
  {
    if Taken(w, k) {
      if Taken(w, Original(k)) {
        ReconciledContested(w, k, self, accepted, k);
        ReconciledContested(w, k, self, accepted, Original(k));
      } else {
        ReconciledUncontested(w, k, self, accepted, k);
        ReconciledUncontested(w, k, self, accepted, Original(k));
      }
    }
  }

  lemma ReconciledElsewhere(w: World, k: Name, self: Option<Id>, accepted: bool, n: Name)
    requires WellFormed(w) && n != k && (k.parkings > 0 ==> n != Original(k))
    ensures At(Reconciled(w, k, self, accepted), n) == At(w, n)
  {
    if Taken(w, k) && k.parkings > 0 {
      if Taken(w, Original(k)) {
        ReconciledContested(w, k, self, accepted, n);
      } else {
        ReconciledUncontested(w, k, self, accepted, n);
      }
    }
  }

  ghost predicate Concerns(steps: seq<Step>, n: Name) {
    exists i :: 0 <= i < |steps| && (n == steps[i].name || (steps[i].name.parkings > 0 && n == Original(steps[i].name)))
  }

  lemma {:induction false} RecoveryElsewhere(w: World, self: Option<Id>, steps: seq<Step>, n: Name)
    requires WellFormed(w) && Orderly(steps)
    ensures var w' := RecoverAll(w, self, steps);
      && (!Concerns(steps, n) ==> At(w', n) == At(w, n))
      && SameRest(w, w')
  {
    if steps != [] {
      var init, last := steps[..|steps| - 1], steps[|steps| - 1];
      var w' := RecoverAll(w, self, init);
      RecoveryElsewhere(w, self, init, n);
      if !Concerns(steps, n) {
        assert n != last.name && n != Original(last.name);
        ReconciledElsewhere(w', last.name, self, last.accepted, n);
      }
    }
  }

  /** Each parked container fares as the table says of the state recovery started
      from, whatever was settled before and after it. */
  lemma {:induction false} FateOf(w: World, self: Option<Id>, steps: seq<Step>, i: nat)
    requires WellFormed(w) && Orderly(steps) && i < |steps|
    ensures
      var k := steps[i].name;
      var w' := RecoverAll(w, self, steps);
      (At(w', Original(k)), At(w', k)) == Verdict(At(w, Original(k)), At(w, k), self, steps[i].accepted)
    decreases |steps|
  {
    var init, last := steps[..|steps| - 1], steps[|steps| - 1];
    var w' := RecoverAll(w, self, init);
    var k := steps[i].name;
    if i == |steps| - 1 {
      assert !Concerns(init, k) && !Concerns(init, Original(k));
      RecoveryElsewhere(w, self, init, k);
      RecoveryElsewhere(w, self, init, Original(k));
      ReconciledByTable(w', k, self, last.accepted);
    } else {
      FateOf(w, self, init, i);
      ReconciledElsewhere(w', last.name, self, last.accepted, Original(k));
      ReconciledElsewhere(w', last.name, self, last.accepted, k);
    }
  }

  lemma SameContainers(w: World, w': World)
    requires WellFormed(w) && WellFormed(w')
    requires forall n :: At(w, n) == At(w', n)
    ensures w.containers == w'.containers && w.names == w'.names
  {
    forall n ensures n in w.containers <==> n in w'.containers
      ensures n in w.containers ==> w.containers[n] == w'.containers[n]
    {
      assert At(w, n) == At(w', n);
    }
    assert w.containers == w'.containers;
  }

  lemma SameConcerns(steps: seq<Step>, steps': seq<Step>, n: Name)
    requires forall s :: s in steps ==> s in steps'
    ensures Concerns(steps, n) ==> Concerns(steps', n)
  {
    if Concerns(steps, n) {
      var i :| 0 <= i < |steps| && (n == steps[i].name || (steps[i].name.parkings > 0 && n == Original(steps[i].name)));
      assert steps[i] in steps;
      var j :| 0 <= j < |steps'| && steps'[j] == steps[i];
    }
  }

  /** Docker lists containers in no particular order, and it does not matter. */
  lemma RecoveryIsOrderIndependent(w: World, self: Option<Id>, steps: seq<Step>, steps': seq<Step>)
    requires WellFormed(w) && Orderly(steps) && Orderly(steps')
    requires forall s :: s in steps <==> s in steps'
    ensures RecoverAll(w, self, steps) == RecoverAll(w, self, steps')
  {
    var r, r' := RecoverAll(w, self, steps), RecoverAll(w, self, steps');
    forall n ensures At(r, n) == At(r', n) {
      RecoveryElsewhere(w, self, steps, n);
      RecoveryElsewhere(w, self, steps', n);
      if Concerns(steps, n) {
        var i :| 0 <= i < |steps| && (n == steps[i].name || n == Original(steps[i].name));
        assert steps[i] in steps';
        var j :| 0 <= j < |steps'| && steps'[j] == steps[i];
        FateOf(w, self, steps, i);
        FateOf(w, self, steps', j);
      } else {
        SameConcerns(steps', steps, n);
      }
    }
    SameContainers(r, r');
    RecoveryElsewhere(w, self, steps, Name("", 0));
    RecoveryElsewhere(w, self, steps', Name("", 0));
  }

  /** Every parked container has been settled. */
  ghost predicate Covers(steps: seq<Step>, w: World) {
    forall k :: k in w.containers && k.parkings > 0 ==> Treated(steps, k)
  }

  /** Veery is the parked container and a healthy one holds its name. */
  predicate LeftParked(w: World, k: Name, self: Option<Id>, accepted: bool)
    requires k in w.containers && k.parkings > 0
  {
    self == Some(w.containers[k].id) && Original(k) in w.containers && accepted
  }

  /** Where a failure-free recovery leaves one name. */
  ghost predicate Settled(w: World, w': World, k: Name, self: Option<Id>, accepted: bool)
    requires k in w.containers && k.parkings > 0
  {
    var n := Original(k);
    var p := w.containers[k];
    if LeftParked(w, k, self, accepted) then At(w', n) == At(w, n) && At(w', k) == At(w, k)
    else
      && k !in w'.containers && n in w'.containers
      && if n in w.containers && (accepted || self == Some(w.containers[n].id))
         then w'.containers[n] == w.containers[n]
         else w'.containers[n].id == p.id && (w'.containers[n].up || self == Some(p.id))
  }

  lemma StepSettles(w: World, self: Option<Id>, steps: seq<Step>, i: nat)
    requires WellFormed(w) && Orderly(steps) && i < |steps| && steps[i].name in w.containers
    ensures Settled(w, RecoverAll(w, self, steps), steps[i].name, self, steps[i].accepted)
  {
    FateOf(w, self, steps, i);
  }

  lemma LeftByStep(w: World, self: Option<Id>, steps: seq<Step>, k: Name) returns (i: nat)
    requires WellFormed(w) && Orderly(steps) && Covers(steps, w)
    requires k in RecoverAll(w, self, steps).containers && k.parkings > 0
    ensures k in w.containers && i < |steps| && steps[i].name == k && LeftParked(w, k, self, steps[i].accepted)
  {
    RecoveryElsewhere(w, self, steps, k);
    assert k in w.containers ==> Treated(steps, k);
    i :| 0 <= i < |steps| && (k == steps[i].name || k == Original(steps[i].name));
    FateOf(w, self, steps, i);
  }

  /** After one failure-free recovery nothing stays parked, but for a Veery that
      finds its name healthily taken; each name is held by the original, started,
      or by a replacement that was accepted or is Veery itself; and no other
      container has changed. */
  lemma RecoveryConverges(w: World, self: Option<Id>, steps: seq<Step>)
    requires WellFormed(w) && Orderly(steps) && Covers(steps, w)
    ensures forall s :: s in steps && s.name in w.containers ==>
      Settled(w, RecoverAll(w, self, steps), s.name, self, s.accepted)
    ensures forall k :: k in RecoverAll(w, self, steps).containers && k.parkings > 0 ==>
      k in w.containers && exists s :: s in steps && s.name == k && LeftParked(w, k, self, s.accepted)
    ensures forall n :: !Concerns(steps, n) ==> At(RecoverAll(w, self, steps), n) == At(w, n)
  {
    var w' := RecoverAll(w, self, steps);
    forall i | 0 <= i < |steps| && steps[i].name in w.containers
      ensures Settled(w, w', steps[i].name, self, steps[i].accepted)
    {
      StepSettles(w, self, steps, i);
    }
    forall n ensures !Concerns(steps, n) ==> At(w', n) == At(w, n) {
      RecoveryElsewhere(w, self, steps, n);
    }
    forall k | k in w'.containers && k.parkings > 0
      ensures k in w.containers && exists s :: s in steps && s.name == k && LeftParked(w, k, self, s.accepted)
    {
      var i := LeftByStep(w, self, steps, k);
      assert steps[i] in steps;
    }
  }

  /** A second recovery that reaches the same judgements changes nothing. */
  lemma {:induction false} RecoveryIsIdempotent(w: World, self: Option<Id>, steps: seq<Step>, again: seq<Step>)
    requires WellFormed(w) && Orderly(steps) && Covers(steps, w) && Orderly(again)
    requires forall s, t :: s in steps && t in again && s.name == t.name ==> s.accepted == t.accepted
    ensures RecoverAll(RecoverAll(w, self, steps), self, again) == RecoverAll(w, self, steps)
    decreases |again|
  {
    if again != [] {
      var init, last := again[..|again| - 1], again[|again| - 1];
      RecoveryIsIdempotent(w, self, steps, init);
      var w' := RecoverAll(w, self, steps);
      RecoveryConverges(w, self, steps);
      if last.name in w'.containers {
        var s :| s in steps && s.name == last.name && LeftParked(w, last.name, self, s.accepted);
        assert last in again;
        assert Settled(w, w', s.name, self, s.accepted);
      }
    }
  }
}
