/** What holds over whole runs: a swap, a crash after any call, and any number of
    recoveries that may themselves fail and crash. */
module CrashSafety {
  import opened Wrappers
  import opened Docker
  import opened Snapshots
  import opened Records
  import opened Jobs
  import opened Update
  import opened SelfUpdate
  import opened Recovery
  import opened Startup

  function Selves(selves: seq<Option<Id>>): set<Id> {
    set i | 0 <= i < |selves| && selves[i].Some? :: selves[i].value
  }

  /** What a run never gives up about the container it set out to update. */
  ghost predicate Safe(w: World, guarded: iset<Name>, name: Name, original: Id, wanted: Spec, good: set<Id>) {
    && WellFormed(w) && NoNesting(w) && Undisturbed(guarded, w)
    && Kept(w, name, original, good) && Cast(w, name, original, wanted)
    && original in w.made && !IsUpdater(w.made[original].spec.labels)
  }

  lemma TendedStaysSafe(w: World, w': World, guarded: iset<Name>, name: Name, original: Id, wanted: Spec,
                        good: set<Id>, good': set<Id>, excused: set<Id>)
    requires Safe(w, guarded, name, original, wanted, good) && !IsUpdater(wanted.labels)
    requires Guards(guarded, name) && name.parkings == 0 && good <= good'
    requires WellFormed(w') && Lineage(w, w', w.next) && NoNesting(w') && Undisturbed(guarded, w')
    requires AllTended(w, w', guarded, good', excused)
    ensures Safe(w', guarded, name, original, wanted, good')
    ensures UpUnless(w, name, excused) ==> UpUnless(w', name, excused)
  {
    assert NoHelpersAt(w, name);
    assert Tended(w, w', name, good', excused);
    if !Taken(w, Parked(name)) {
      assert SameFaces(w, w', name);
    }
    CastKept(w, w', name, original, wanted);
  }

  lemma SwapStartsSafe(w: World, w': World, guarded: iset<Name>, name: Name, original: Id, wanted: Spec, good: set<Id>)
    requires WellFormed(w) && NoNesting(w) && Undisturbed(guarded, w) && Guards(guarded, name) && name.parkings == 0
    requires Holds(w, name, original) && !IsHelper(w, name)
    requires WellFormed(w') && Lineage(w, w', w.next) && Elsewhere(w, w', guarded, name)
    requires Kept(w', name, original, good) && Cast(w', name, original, wanted)
    ensures Safe(w', guarded, name, original, wanted, good)
  {
    forall k | k in w'.containers && k.parkings > 0 && k != Parked(name) ensures k in w.containers {
      assert SameAt(w, w', k);
    }
    assert Original(Parked(name)) == name;
  }

  lemma SwapParksOriginal(w: World, w': World, guarded: iset<Name>, name: Name, original: Id, good: set<Id>)
    requires WellFormed(w) && WellFormed(w') && Undisturbed(guarded, w) && name.parkings == 0
    requires Elsewhere(w, w', guarded, name) && Kept(w', name, original, good)
    ensures forall id :: IsParked(w', id) ==> id == original || IsParked(w, id)
  {
    forall id | IsParked(w', id) && id != original ensures IsParked(w, id) {
      var k := w'.names[id];
      assert k == Parked(name) || SameAt(w, w', k);
    }
  }

  /** One start of Veery keeps what a run keeps. */
  method RecoverSafely(d: Daemon, st: Store, t: JobTable, self: Option<Id>,
                       ghost name: Name, ghost original: Id, ghost wanted: Spec, ghost good: set<Id>)
    requires d.Valid() && Guards(d.guarded, name) && name.parkings == 0 && !IsUpdater(wanted.labels)
    requires Safe(d.world, d.guarded, name, original, wanted, d.verified + good) && Faithful(st.rows, d.world)
    modifies d`world, d`now, d`verified, d`disturbed, d`unstarted, t
    ensures d.Valid() && Faithful(st.rows, d.world)
    ensures Safe(d.world, d.guarded, name, original, wanted, d.verified + (good + SelfSet(self)))
    ensures UpUnless(old(d.world), name, old(d.unstarted) + good) ==>
      UpUnless(d.world, name, d.unstarted + (good + SelfSet(self)))
    ensures NoneParked(old(d.world), d.world) && Marked(old(d.world), old(d.unstarted), d.unstarted)
    ensures d.reliable ==> d.unstarted == old(d.unstarted)
  {
    ghost var before, good0 := d.world, d.verified + good;
    var _, _, _, _, _ := Recover(d, st, t, self);
    ghost var good', excused := d.verified + (good + SelfSet(self)), d.unstarted + (good + SelfSet(self));
    WiderStillTended(before, d.world, d.guarded, d.verified + SelfSet(self), good', d.unstarted + SelfSet(self), excused);
    TendedStaysSafe(before, d.world, d.guarded, name, original, wanted, good0, good', excused);
    FaithfulUnderInterference(st.rows, before, d.world);
  }

  /** A swap followed by any number of starts of Veery, as whichever containers:
      each may meet any failing call and die after any call, so every state of a
      run is the end of some run. Throughout, the original is in place or parked,
      or its name belongs to a container that passed verification or to a Veery
      that recovered; and the records stay true to the daemon. If the original was up,
      whoever has the name to itself in the end is up, unless it is a Veery that
      recovered, or was put back by a restore whose start was not confirmed. */
  method Run(d: Daemon, st: Store, t: JobTable, rowId: string, snap: Snapshot, ref: Ref, was: Inspection, selves: seq<Option<Id>>)
    requires d.Valid() && NoNesting(d.world) && Undisturbed(d.guarded, d.world)
    requires Guards(d.guarded, snap.name) && snap.name.parkings == 0
    requires Holds(d.world, snap.name, was.id) && !Taken(d.world, Parked(snap.name))
    requires Faithful(st.rows, d.world)
    requires !IsUpdater(snap.spec.labels) && !IsHelper(d.world, snap.name)
    modifies d`world, d`now, d`verified, d`disturbed, d`unstarted, st`rows, t
    ensures Safe(d.world, d.guarded, snap.name, was.id, Wanted(snap, Some(ref)), d.verified + Selves(selves))
    ensures Faithful(st.rows, d.world)
    ensures old(d.world).containers[snap.name].up ==> UpUnless(d.world, snap.name, d.unstarted + Selves(selves))
    // Only the original, and what had been parked, can have come back without a confirmed start.
    ensures forall id :: id in d.unstarted ==> id in old(d.unstarted) || id == was.id || IsParked(old(d.world), id)
    ensures d.reliable ==> d.unstarted == old(d.unstarted)
  {
    ghost var w0, wanted := d.world, Wanted(snap, Some(ref));
    var _ := Swap(d, st, rowId, snap.name, snap, ref, was);
    SwapStartsSafe(w0, d.world, d.guarded, snap.name, was.id, wanted, d.verified);
    SwapParksOriginal(w0, d.world, d.guarded, snap.name, was.id, d.verified);
    assert d.verified + Selves([]) == d.verified && d.unstarted + Selves([]) == d.unstarted;
    for i := 0 to |selves|
      invariant d.Valid() && Faithful(st.rows, d.world)
      invariant Safe(d.world, d.guarded, snap.name, was.id, wanted, d.verified + Selves(selves[..i]))
      invariant forall id :: IsParked(d.world, id) ==> id == was.id || IsParked(w0, id)
      invariant forall id :: id in d.unstarted ==> id in old(d.unstarted) || id == was.id || IsParked(w0, id)
      invariant d.reliable ==> d.unstarted == old(d.unstarted)
      invariant w0.containers[snap.name].up ==> UpUnless(d.world, snap.name, d.unstarted + Selves(selves[..i]))
    {
      RecoverSafely(d, st, t, selves[i], snap.name, was.id, wanted, Selves(selves[..i]));
      OneMoreSelf(selves, i);
    }
    assert selves[..|selves|] == selves;
  }

  lemma OneMoreSelf(selves: seq<Option<Id>>, i: nat)
    requires i < |selves|
    ensures Selves(selves[..i+1]) == Selves(selves[..i]) + SelfSet(selves[i])
  {
    var before, after := selves[..i], selves[..i+1];
    assert forall k :: 0 <= k < i ==> before[k] == after[k];
    assert after[i] == selves[i];
  }

  lemma WiderStillTended(w: World, w': World, guarded: iset<Name>,
                         good: set<Id>, good': set<Id>, excused: set<Id>, excused': set<Id>)
    requires WellFormed(w) && AllTended(w, w', guarded, good, excused) && good <= good' && excused <= excused'
    ensures AllTended(w, w', guarded, good', excused')
  {
    forall n | Guards(guarded, n) && n.parkings == 0 && NoHelpersAt(w, n) ensures Tended(w, w', n, good', excused') {
      assert Tended(w, w', n, good, excused);
    }
  }

  // ---- Convergence ----

  predicate WasUp(w: World, id: Id)
    requires WellFormed(w)
  {
    Exists(w, id) && IsUp(w, id)
  }

  /** Whoever bears the name in the end was up before, or is so because a container
      was parked under the name and the bearer is not the Veery recovering. */
  ghost predicate BearerUp(w: World, w': World, name: Name, self: Option<Id>)
    requires WellFormed(w)
  {
    && Taken(w', name)
    && var bearer := w'.containers[name];
      bearer.up <==> WasUp(w, bearer.id) || (Taken(w, Parked(name)) && self != Some(bearer.id))
  }

  /** Nothing stays parked, but for a Veery that is the original and finds a
      container that was up under its name; the name is held by the original or by
      a good container, and it is exactly known whether that is up. */
  ghost predicate Converged(w: World, w': World, name: Name, original: Id, self: Option<Id>, good: set<Id>)
    requires WellFormed(w)
  {
    && BearerUp(w, w', name, self)
    && (!Taken(w, Parked(name)) ==> SameAt(w, w', name))
    && if Taken(w', Parked(name)) then
         self == Some(original) && Holds(w', Parked(name), original) && Taken(w, name) && w.containers[name].up && SameAt(w, w', name)
       else Holds(w', name, original) || Replaced(w', name, good)
  }

  /** How the parked bearer of a name and its replacement stand after recovery. */
  ghost predicate NameSettled(w: World, w': World, name: Name, self: Option<Id>)
    requires WellFormed(w) && Taken(w, Parked(name))
  {
    var parked := w.containers[Parked(name)];
    && BearerUp(w, w', name, self)
    && if Taken(w', Parked(name)) then
         self == Some(parked.id) && Taken(w, name) && w.containers[name].up && SameAt(w, w', name) && SameAt(w, w', Parked(name))
       else SameAt(w, w', name) || w'.containers[name].id == parked.id
  }

  lemma NameSettles(w: World, mid: World, name: Name, self: Option<Id>, steps: seq<Step>)
    requires WellFormed(w) && name.parkings == 0 && Taken(w, Parked(name)) && Logged(w, mid, self, steps, {})
    ensures NameSettled(w, mid, name, self)
  {
    var k := Parked(name);
    var i :| 0 <= i < |steps| && steps[i].name == k;
    assert steps[i] in steps && Original(k) == name;
    FateOf(w, self, steps, i);
  }

  /** Clearing helpers away does not reach a name that no helper bears. */
  lemma ClearingSpares(w: World, mid: World, w': World, name: Name, self: Option<Id>, steps: seq<Step>)
    requires WellFormed(w) && name.parkings == 0 && Taken(w, Parked(name)) && Logged(w, mid, self, steps, {})
    requires NoHelpersAt(w, name) && WellFormed(mid) && Tidied(mid, w', {})
    ensures NameSettled(w, w', name, self)
  {
    NameSettles(w, mid, name, self, steps);
    LoggedRest(w, mid, self, steps);
    SettledFaces(w, mid, name, self);
    TidyingSpares(mid, w', name);
    TidyingSpares(mid, w', Parked(name));
    SettledThrough(w, mid, w', name, self);
  }

  lemma SettledThrough(w: World, mid: World, w': World, name: Name, self: Option<Id>)
    requires WellFormed(w) && Taken(w, Parked(name)) && NameSettled(w, mid, name, self)
    requires SameAt(mid, w', name) && SameAt(mid, w', Parked(name))
    ensures NameSettled(w, w', name, self)
  {
  }

  lemma LoggedRest(w: World, mid: World, self: Option<Id>, steps: seq<Step>)
    requires WellFormed(w) && Logged(w, mid, self, steps, {})
    ensures SameRest(w, mid)
  {
    RecoveryElsewhere(w, self, steps, Name("", 0));
  }

  lemma SettledFaces(w: World, mid: World, name: Name, self: Option<Id>)
    requires WellFormed(w) && WellFormed(mid) && Taken(w, Parked(name)) && NameSettled(w, mid, name, self)
    requires SameRest(w, mid) && NoHelpersAt(w, name)
    ensures NoHelpersAt(mid, name)
  {
  }

  lemma TidyingSpares(mid: World, w': World, n: Name)
    requires WellFormed(mid) && Tidied(mid, w', {}) && !IsHelper(mid, n)
    ensures SameAt(mid, w', n)
  {
    assert n in EVERYONE;
  }

  lemma NameConverges(w: World, w': World, name: Name, original: Id, self: Option<Id>, good: set<Id>, excused: set<Id>)
    requires WellFormed(w) && Tended(w, w', name, good, excused) && Holds(w, Parked(name), original) && NameSettled(w, w', name, self)
    ensures Converged(w, w', name, original, self, good)
  {
  }

  lemma UntouchedConverges(w: World, w': World, name: Name, original: Id, self: Option<Id>, good: set<Id>, good': set<Id>)
    requires WellFormed(w) && Kept(w, name, original, good) && good <= good' && !Holds(w, Parked(name), original)
    requires SameAt(w, w', name) && !Taken(w', Parked(name))
    ensures Converged(w, w', name, original, self, good')
  {
  }

  lemma SafeHasNoHelpers(w: World, guarded: iset<Name>, name: Name, original: Id, wanted: Spec, good: set<Id>)
    requires Safe(w, guarded, name, original, wanted, good) && !IsUpdater(wanted.labels)
    ensures NoHelpersAt(w, name)
  {
  }

  lemma RecoveryReaches(w: World, mid: World, w': World, guarded: iset<Name>, name: Name, original: Id, wanted: Spec,
                        self: Option<Id>, steps: seq<Step>, good: set<Id>, good': set<Id>, excused: set<Id>)
    requires Safe(w, guarded, name, original, wanted, good) && !IsUpdater(wanted.labels)
    requires Guards(guarded, name) && name.parkings == 0 && good <= good'
    requires Logged(w, mid, self, steps, {}) && WellFormed(mid) && Tidied(mid, w', {})
    requires AllTended(w, w', guarded, good', excused)
    ensures Converged(w, w', name, original, self, good')
  {
    SafeHasNoHelpers(w, guarded, name, original, wanted, good);
    assert Tended(w, w', name, good', excused);
    if Holds(w, Parked(name), original) {
      ClearingSpares(w, mid, w', name, self, steps);
      NameConverges(w, w', name, original, self, good', excused);
    } else {
      UntouchedConverges(w, w', name, original, self, good, good');
    }
  }

  /** From every state a run can leave, one failure-free start with no helper at
      work converges, and leaves no job unfinished. */
  method Converge(d: Daemon, st: Store, t: JobTable, self: Option<Id>, name: Name, ghost original: Id, ghost wanted: Spec, ghost good: set<Id>)
    returns (ghost helping: bool, ghost seen: map<Name, Summary>)
    requires d.reliable && t.reliable && d.Valid() && Guards(d.guarded, name) && name.parkings == 0
    requires Safe(d.world, d.guarded, name, original, wanted, good) && !IsUpdater(wanted.labels)
    modifies d`world, d`now, d`verified, d`disturbed, d`unstarted, t
    ensures Listed(seen, old(d.world)) && (helping <==> RunningUpdaters(seen) != {})
    ensures !helping ==> Converged(old(d.world), d.world, name, original, self, good + d.verified + SelfSet(self))
    ensures !helping ==> forall id :: id in t.jobs ==> t.jobs[id].done
  {
    ghost var w := d.world;
    ghost var steps, mid;
    var done;
    done, helping, seen, steps, mid := Recover(d, st, t, self);
    if !helping {
      ghost var good' := good + d.verified + SelfSet(self);
      ghost var excused := d.unstarted + SelfSet(self);
      WiderStillTended(w, d.world, d.guarded, d.verified + SelfSet(self), good', excused, excused);
      RecoveryReaches(w, mid, d.world, d.guarded, name, original, wanted, self, steps, good, good', excused);
    }
  }

  lemma {:induction false} Quiet(w: World, self: Option<Id>, steps: seq<Step>)
    requires WellFormed(w)
    requires forall s :: s in steps ==> Reconciled(w, s.name, self, s.accepted) == w
    ensures RecoverAll(w, self, steps) == w
    decreases |steps|
  {
    if steps != [] {
      Quiet(w, self, steps[..|steps| - 1]);
      assert steps[|steps| - 1] in steps;
    }
  }

  /** After a failure-free start, another as the same container that judges the
      replacements as the first did renames, starts and removes nothing, but for
      helpers that were up and are found to have exited since. */
  lemma SecondRecoveryChangesNothing(w0: World, mid: World, w1: World, mid': World, w2: World,
                                     self: Option<Id>, steps: seq<Step>, again: seq<Step>)
    requires WellFormed(w0) && WellFormed(mid) && WellFormed(w1)
    requires Logged(w0, mid, self, steps, {}) && Tidied(mid, w1, {})
    requires Logged(w1, mid', self, again, {}) && WellFormed(mid') && Tidied(mid', w2, {}) && Lineage(w0, w1, w0.next)
    requires forall s, s' :: s in steps && s' in again && s.name == s'.name ==> s.accepted == s'.accepted
    requires forall k :: k in w1.containers && k.parkings > 0 ==> !IsHelper(mid, Original(k))
    ensures mid' == w1
    ensures forall n :: SameAt(w1, w2, n) || (IsHelper(w1, n) && w1.containers[n].up && !Taken(w2, n))
  {
    forall s' | s' in again ensures Reconciled(w1, s'.name, self, s'.accepted) == w1 {
      var i :| 0 <= i < |again| && again[i] == s';
      OneAgain(w0, mid, w1, self, steps, s');
    }
    Quiet(w1, self, again);
    LoggedRest(w0, mid, self, steps);
    forall n ensures SameAt(w1, w2, n) || (IsHelper(w1, n) && w1.containers[n].up && !Taken(w2, n)) {
      OnlyExitedHelpersGo(w0, mid, w1, w2, n);
    }
  }

  lemma OnlyExitedHelpersGo(w0: World, mid: World, w1: World, w2: World, n: Name)
    requires WellFormed(w0) && WellFormed(mid) && WellFormed(w1) && SameRest(w0, mid) && Lineage(w0, w1, w0.next)
    requires Tidied(mid, w1, {}) && Pruned(w1, w2, EVERYONE)
    ensures SameAt(w1, w2, n) || (IsHelper(w1, n) && w1.containers[n].up && !Taken(w2, n))
  {
    assert n in EVERYONE;
    if Taken(w1, n) {
      TidyingLeaves(mid, w1, n);
    }
  }

  lemma OneAgain(w0: World, mid: World, w1: World, self: Option<Id>, steps: seq<Step>, s': Step)
    requires WellFormed(w0) && WellFormed(mid) && WellFormed(w1)
    requires Logged(w0, mid, self, steps, {}) && Tidied(mid, w1, {}) && Grounded(s', w1) && s'.name.parkings == 1
    requires forall s :: s in steps && s.name == s'.name ==> s.accepted == s'.accepted
    requires !IsHelper(mid, Original(s'.name))
    ensures Reconciled(w1, s'.name, self, s'.accepted) == w1
  {
    TidyingLeaves(mid, w1, s'.name);
    var s := StillParked(w0, mid, self, steps, s'.name);
    TidyingSpares(mid, w1, Original(s'.name));
  }

  lemma TidyingLeaves(mid: World, w': World, n: Name)
    requires WellFormed(mid) && Tidied(mid, w', {}) && Taken(w', n)
    ensures SameAt(mid, w', n)
  {
    assert n in EVERYONE;
  }

  /** Whatever is parked after a recovery was left so, with its name healthily held. */
  lemma StillParked(w0: World, mid: World, self: Option<Id>, steps: seq<Step>, k: Name) returns (s: Step)
    requires WellFormed(w0) && Logged(w0, mid, self, steps, {}) && k in mid.containers && k.parkings > 0
    ensures s in steps && s.name == k && s.accepted
    ensures self == Some(mid.containers[k].id) && Taken(mid, Original(k)) && mid.containers[Original(k)].id != mid.containers[k].id
  {
    RecoveryConverges(w0, self, steps);
    s :| s in steps && s.name == k && LeftParked(w0, k, self, s.accepted);
    assert Settled(w0, mid, k, self, s.accepted);
    assert Original(k) != k && At(mid, k) == At(w0, k) && At(mid, Original(k)) == At(w0, Original(k));
  }

  // ---- Telling the user ----

  /** The reference names an image that nothing changes meanwhile. */
  predicate Sure(w: World, ref: Ref) {
    Resolve(w, ref).Some? && (ref.Tag? ==> ref.name in w.frozen)
  }

  /** Settling a job tells a swap that took from one that did not, in every state a
      run can leave, unless the reference still names the original's image: a job
      interrupted before its pull is reported as updated. */
  lemma SettlementIsRight(w: World, guarded: iset<Name>, name: Name, original: Id, wanted: Spec, good: set<Id>, row: Row)
    requires Safe(w, guarded, name, original, wanted, good) && Taken(w, name)
    requires row.snapshot.spec.image == wanted.image && Sure(w, wanted.image)
    ensures Settlement(w, Some(row), name) == Success(!Holds(w, name, original)) <==>
      !(Holds(w, name, original) && Resolve(w, wanted.image) == Some(w.made[original].image))
  {
    assert CastAt(w, name, original, wanted);
  }

  /** Such a job: the container was never touched, and yet its row will say "Updated". */
  lemma AnInterruptedJobReadsUpdated() returns (w: World, row: Row)
    ensures
      var name := Name("web", 0);
      WellFormed(w) && InPlace(w, name, 0) && row.snapshot.spec == w.made[0].spec && Settlement(w, Some(row), name) == Success(true)
  {
    var spec := Bare(Tag("web:latest"));
    var name := Name("web", 0);
    w := World(map[name := Container(0, true)], map[0 := name], map[0 := Make(7, spec)], {7}, map["web:latest" := 7], map[], 1);
    row := Row("web", name, Snapshot(name, "", "", spec), Some(0), false);
  }

  /** So once the pull has found a newer image, the row a client reads says "done"
      exactly when the name passed to the new container. */
  method SettleAfterRun(d: Daemon, st: Store, t: JobTable, job: string, name: Name,
                        ghost original: Id, ghost wanted: Spec, ghost good: set<Id>)
    requires d.reliable && st.reliable && t.reliable && d.Valid() && job in t.jobs
    requires Safe(d.world, d.guarded, name, original, wanted, good)
    requires Sure(d.world, wanted.image) && Resolve(d.world, wanted.image) != Some(d.world.made[original].image)
    requires forall k :: k in st.rows && st.rows[k].name == name ==> st.rows[k].snapshot.spec.image == wanted.image
    requires exists k :: k in st.rows && st.rows[k].name == name
    modifies d`world, t
    ensures IsDone(t.jobs, job)
    ensures t.jobs[job].phase == if Taken(d.world, name) && !Holds(d.world, name, original) then "done" else "failed"
  {
    ghost var verdict;
    var settled;
    settled, verdict := SettleJob(d, st, t, job, name);
    ghost var k :| k in st.rows && st.rows[k].name == name && verdict == Settlement(d.world, Some(st.rows[k]), name);
    if Taken(d.world, name) {
      SettlementIsRight(d.world, d.guarded, name, original, wanted, good, st.rows[k]);
    }
    ClosedAs(old(t.jobs), job, verdict);
  }

  lemma ClosedAs(jobs: map<string, Job>, job: string, verdict: Result<bool, string>)
    requires job in jobs
    ensures
      var after := Applied(jobs, Closing(job, verdict));
      IsDone(after, job) && after[job].phase == if verdict == Success(true) then "done" else "failed"
  {
  }

  // ---- Where the guarantee ends ----

  /** A container left parked from an earlier update competes with the live
      original: recovery removes the original unless it passes for a healthy
      replacement or is the Veery recovering. Hence a swap is safe to interrupt
      only if nothing was parked under its name when it began. */
  lemma LeftoverDisplacesOriginal(w: World, name: Name, original: Id, leftover: Id, self: Option<Id>, accepted: bool)
    requires WellFormed(w) && Holds(w, name, original) && Holds(w, Parked(name), leftover)
    ensures Exists(Reconciled(w, Parked(name), self, accepted), original) <==> accepted || self == Some(original)
  {
    assert Original(Parked(name)) == name;
    assert original != leftover;
  }

  lemma ALeftoverDisplacesOne() returns (w: World)
    ensures
      var name := Name("web", 0);
      WellFormed(w) && Holds(w, name, 1) && Holds(w, Parked(name), 0) && !Exists(Reconciled(w, Parked(name), None, false), 1)
  {
    var make := Make(0, Bare(Digest(0)));
    var name := Name("web", 0);
    w := World(map[name := Container(1, true), Parked(name) := Container(0, false)], map[1 := name, 0 := Parked(name)],
               map[0 := make, 1 := make], {}, map[], map[], 2);
    LeftoverDisplacesOriginal(w, name, 1, 0, None, false);
  }

  /** A crash between giving a parked container its name back and starting it
      leaves it correctly named, but no failure-free recovery, as whichever
      container, will start it: it is up afterwards only if it was up while parked. */
  lemma RestoredButNotStarted(w: World, mid: World, name: Name, original: Id, self: Option<Id>, steps: seq<Step>)
    requires WellFormed(w) && Holds(w, Parked(name), original) && !Taken(w, name) && name.parkings == 0
    requires Logged(Reseated(w, original, name), mid, self, steps, {})
    ensures InPlace(mid, name, original)
    ensures mid.containers[name].up <==> w.containers[Parked(name)].up
  {
    var w' := Reseated(w, original, name);
    RestoredAt(w, Parked(name), original, name);
    RestoredAt(w, Parked(name), original, Parked(name));
    assert Original(Parked(name)) == name && At(w', name) == At(w, Parked(name)) && At(w', Parked(name)) == None;
    assert forall i :: 0 <= i < |steps| ==> steps[i] in steps && steps[i].name != Parked(name);
    RecoveryElsewhere(w', self, steps, name);
    RecoveryElsewhere(w', self, steps, Parked(name));
  }

  /** Such a state is one a run can leave. */
  lemma ARestoredContainerStaysDown() returns (w: World)
    ensures
      var name := Name("web", 0);
      && WellFormed(w) && InPlace(w, name, 0) && !w.containers[name].up
      && forall mid, self, steps :: Logged(w, mid, self, steps, {}) ==> InPlace(mid, name, 0) && !mid.containers[name].up
  {
    var name := Name("web", 0);
    var was := World(map[Parked(name) := Container(0, false)], map[0 := Parked(name)],
                     map[0 := Make(7, Bare(Digest(7)))], {7}, map[], map[], 1);
    w := Reseated(was, 0, name);
    RestoredAt(was, Parked(name), 0, name);
    forall mid, self, steps | Logged(w, mid, self, steps, {})
      ensures InPlace(mid, name, 0) && !mid.containers[name].up
    {
      RestoredButNotStarted(was, mid, name, 0, self, steps);
    }
  }

  /** Were parked names nested, the order of a listing would decide who survives. */
  lemma NestingMatters(w: World, n: Name, a: Id, b: Id)
    requires WellFormed(w) && !Taken(w, n) && Holds(w, Parked(n), a) && Holds(w, Parked(Parked(n)), b)
    ensures
      var first, second := Step(Parked(n), false), Step(Parked(Parked(n)), false);
      Holds(RecoverAll(w, None, [first, second]), n, a) && Holds(RecoverAll(w, None, [second, first]), n, b)
  {
    var s, t := Step(Parked(n), false), Step(Parked(Parked(n)), false);
    assert Original(s.name) == n && Original(t.name) == s.name;
    TwoSteps(w, s, t);
    TwoSteps(w, t, s);
    ReconciledByTable(w, s.name, None, false);
    ReconciledElsewhere(Reconciled(w, s.name, None, false), t.name, None, false, n);
    ReconciledByTable(w, t.name, None, false);
    ReconciledElsewhere(w, t.name, None, false, n);
    ReconciledByTable(Reconciled(w, t.name, None, false), s.name, None, false);
  }

  lemma TwoSteps(w: World, s: Step, t: Step)
    requires WellFormed(w)
    ensures RecoverAll(w, None, [s, t]) == Reconciled(Reconciled(w, s.name, None, s.accepted), t.name, None, t.accepted)
  {
    assert [s, t][..1] == [s] && [s][..0] == [];
    assert RecoverAll(w, None, []) == w;
    assert RecoverAll(w, None, [s]) == Reconciled(w, s.name, None, s.accepted);
  }
}
