/** The hand-off protocol of internal/docker/selfupdate.go and internal/docker/recover.go
    as an interleaving of daemon calls by every process that runs Veery's code:
    Veery in its own container, the helper it hands its update to, Veery in the
    container the helper creates, and any of them started over. */
module HandOff {
  import opened Wrappers
  import opened Docker
  import Recovery

  /** What a starting Veery means to do about the container parked under its name. */
  datatype Plan =
    | DropParked(parked: Id)             // it is the replacement: the parked one goes
    | Judge(newer: Id, parked: Id)       // it is the parked one: is the bearer of the name healthy?
    | Displace(newer: Id, parked: Id)    // it is not, so it goes
    | TakeName(parked: Id)

  datatype HandStage = CreateHelper | StartHelper | Cleanup

  datatype Pc =
    | Listing               // Recover: is a helper running?
    | Relisting             // no; which containers are parked?
    | Acting(plan: Plan)
    | Pruning               // which helpers have finished?
    | Clearing              // removing one
    | Serving
    | Handing(stage: HandStage)

  /** The helper's swap of container `o`, `n` being the replacement. */
  datatype Stage =
    | Inspecting
    | Clear(o: Id) | Park(o: Id) | StopOld(o: Id) | CreateNew(o: Id)
    | StartNew(o: Id, n: Id) | Verify(o: Id, n: Id) | RemoveOld(o: Id, n: Id)
    | RemoveNew(o: Id, n: Id) | Restore(o: Id) | StartOld(o: Id)

  datatype Helper = NoHelper | Unstarted | Working(stage: Stage) | Finished

  /** The containers bearing Veery's name and its parked form, the helper, and the
      Veery processes by the container they run in. */
  datatype State = State(here: Option<Id>, parked: Option<Id>, helper: Helper, procs: map<Id, Pc>, next: Id)

  /** A call works, fails without effect, or works and is reported failed. */
  datatype Outcome = Done | Failed | Lost

  datatype Action =
    | Boot(i: Id)                                     // the daemon, the helper or the user starts a container
    | Die(i: Id)
    | Act(i: Id, outcome: Outcome, healthy: bool)     // a Veery process makes its next call
    | BeginHandOff(i: Id)
    | Help(outcome: Outcome, healthy: bool)           // the helper makes its next call
    | HelperDies

  predicate Present(s: State, id: Id) {
    s.here == Some(id) || s.parked == Some(id)
  }

  /** Removing a container kills the process in it. */
  function Dropped(s: State, id: Id): State {
    s.(here := if s.here == Some(id) then None else s.here,
       parked := if s.parked == Some(id) then None else s.parked,
       procs := s.procs - {id})
  }

  function Goto(s: State, i: Id, pc: Pc): State {
    if i in s.procs then s.(procs := s.procs[i := pc]) else s
  }

  function Rename(s: State, id: Id): State {
    if s.here == None && s.parked == Some(id) then s.(here := Some(id), parked := None) else s
  }

  /** The branches of reconcileOne for the process in container `i`. */
  function PlanFor(here: Option<Id>, parked: Id, i: Id): Plan {
    if here == Some(i) then DropParked(parked)
    else if here.Some? then Judge(here.value, parked)
    else TakeName(parked)
  }

  /** The next call of the Veery process in container `i`. */
  function VeeryStep(s: State, i: Id, outcome: Outcome, healthy: bool): State
    requires i in s.procs
  {
    var happens := outcome != Failed;
    match s.procs[i]
    case Listing =>
      Goto(s, i, if outcome != Done || s.helper.Working? then Serving else Relisting)
    case Relisting =>
      Goto(s, i, if outcome != Done || s.parked == None then Pruning else Acting(PlanFor(s.here, s.parked.value, i)))
    case Acting(DropParked(p)) =>
      Goto(if happens then Dropped(s, p) else s, i, Pruning)
    case Acting(Judge(f, p)) =>
      Goto(s, i, if healthy then Pruning else Acting(Displace(f, p)))
    case Acting(Displace(f, p)) =>
      Goto(if happens then Dropped(s, f) else s, i, if outcome == Done then Acting(TakeName(p)) else Pruning)
    case Acting(TakeName(p)) =>
      Goto(if happens then Rename(s, p) else s, i, Pruning)
    case Pruning =>
      Goto(s, i, if outcome == Done && (s.helper.Unstarted? || s.helper.Finished?) then Clearing else Serving)
    case Clearing =>
      Goto(if happens then s.(helper := NoHelper) else s, i, Serving)
    case Serving => s
    case Handing(CreateHelper) =>
      Goto(if happens then s.(helper := Unstarted) else s, i, if outcome == Done then Handing(StartHelper) else Serving)
    case Handing(StartHelper) =>
      var started := happens && s.helper.Unstarted?;
      Goto(if started then s.(helper := Working(Inspecting)) else s, i,
           if started && outcome == Done then Serving else Handing(Cleanup))
    case Handing(Cleanup) =>
      Goto(if happens then s.(helper := NoHelper) else s, i, Serving)
  }

  /** The helper's next call. */
  function HelperStep(s: State, stage: Stage, outcome: Outcome, healthy: bool): State {
    var happens := outcome != Failed;
    match stage
    case Inspecting =>
      s.(helper := if outcome == Done && s.here.Some? then Working(Clear(s.here.value)) else Finished)
    case Clear(o) =>
      (if happens && s.parked.Some? then Dropped(s, s.parked.value) else s).(helper := Working(Park(o)))
    case Park(o) =>
      if s.here == Some(o) && s.parked == None && happens then
        s.(here := None, parked := Some(o), helper := if outcome == Done then Working(StopOld(o)) else Finished)
      else s.(helper := Finished)
    case StopOld(o) =>
      s.(procs := if happens then s.procs - {o} else s.procs, helper := Working(CreateNew(o)))
    case CreateNew(o) =>
      if s.here == None && happens then
        s.(here := Some(s.next), next := s.next + 1,
           helper := Working(if outcome == Done then StartNew(o, s.next) else Restore(o)))
      else s.(helper := Working(Restore(o)))
    case StartNew(o, n) =>
      s.(helper := Working(if outcome == Done then Verify(o, n) else RemoveNew(o, n)))
    case Verify(o, n) =>
      s.(helper := Working(if healthy then RemoveOld(o, n) else RemoveNew(o, n)))
    case RemoveOld(o, n) =>
      (if happens then Dropped(s, o) else s).(helper := Finished)
    case RemoveNew(o, n) =>
      (if happens then Dropped(s, n) else s).(helper := Working(Restore(o)))
    case Restore(o) =>
      var s' := if happens then Rename(s, o) else s;
      s'.(helper := if outcome == Done && s' != s then Working(StartOld(o)) else Finished)
    case StartOld(o) =>
      s.(helper := Finished)
  }

  /** One step of the system; an action that is not possible changes nothing. */
  function Step(s: State, a: Action): State {
    match a
    case Boot(i) => if Present(s, i) && i !in s.procs then s.(procs := s.procs[i := Listing]) else s
    case Die(i) => s.(procs := s.procs - {i})
    case Act(i, outcome, healthy) => if i in s.procs then VeeryStep(s, i, outcome, healthy) else s
    case BeginHandOff(i) => if CanHandOff(s, i) then Goto(s, i, Handing(CreateHelper)) else s
    case Help(outcome, healthy) => if s.helper.Working? then HelperStep(s, s.helper.stage, outcome, healthy) else s
    case HelperDies => if s.helper.Working? then s.(helper := Finished) else s
  }

  /** Veery hands off when the container under update is its own. */
  predicate CanHandOff(s: State, i: Id) {
    i in s.procs && s.procs[i] == Serving && s.here == Some(i)
  }

  /** The state after the first `n` actions of a run. */
  function StateAt(s: State, actions: seq<Action>, n: nat): State
    requires n <= |actions|
  {
    if n == 0 then s else Step(StateAt(s, actions, n - 1), actions[n - 1])
  }

  // ---- The claim ----

  /** Veery serves under its name, and nothing is left over. */
  predicate Initial(s: State) {
    s.here.Some? && s.parked == None && s.helper == NoHelper && s.procs == map[s.here.value := Serving] && s.here.value < s.next
  }

  /** No helper is at work, and no container is parked. */
  predicate Quiet(s: State) {
    s.parked == None && !s.helper.Working?
  }

  /** Every hand-off of the run begins in a quiet state. */
  ghost predicate BeginsQuietly(s: State, actions: seq<Action>) {
    forall n :: 0 <= n < |actions| && actions[n].BeginHandOff? && CanHandOff(StateAt(s, actions, n), actions[n].i) ==>
      Quiet(StateAt(s, actions, n))
  }

  /** In the part of Recover that renames and removes. */
  predicate Meddling(pc: Pc) {
    pc.Relisting? || pc.Acting? || pc.Pruning? || pc.Clearing?
  }

  /** While a helper works, no starting Veery renames or removes anything. */
  ghost predicate Excluded(s: State) {
    s.helper.Working? ==> forall i :: i in s.procs ==> !Meddling(s.procs[i])
  }

  /** Before it commits, the helper has the container it would roll back to. */
  ghost predicate TargetExists(s: State) {
    s.helper.Working? ==>
      match s.helper.stage
      case Inspecting => s.here.Some? && s.parked == None
      case Clear(o) => s.here == Some(o) && s.parked == None
      case Park(o) => s.here == Some(o) && s.parked == None
      case StopOld(o) => s.here == None && s.parked == Some(o)
      case CreateNew(o) => s.here == None && s.parked == Some(o)
      case StartNew(o, n) => s.here == Some(n) && s.parked == Some(o)
      case Verify(o, n) => s.here == Some(n) && s.parked == Some(o)
      case RemoveOld(o, n) => s.here == Some(n) && s.parked == Some(o)
      case RemoveNew(o, n) => s.here == Some(n) && s.parked == Some(o)
      case Restore(o) => s.parked == Some(o)
      case StartOld(o) => s.here == Some(o) && s.parked == None
  }

  predicate NeverLost(s: State) {
    s.here.Some? || s.parked.Some?
  }

  // ---- Why it holds ----

  ghost predicate Sensible(s: State) {
    && (s.here.Some? ==> s.here.value < s.next && s.parked != s.here)
    && (s.parked.Some? ==> s.parked.value < s.next)
    && forall i :: i in s.procs ==> Present(s, i)
  }

  /** A plan still fits the containers there are. */
  predicate Fits(s: State, i: Id, plan: Plan) {
    match plan
    case DropParked(p) => p != i && s.here == Some(i) && (s.parked == Some(p) || s.parked == None)
    case Judge(f, p) => p == i && s.parked == Some(i) && f != i
    case Displace(f, p) => p == i && s.parked == Some(i) && f != i
    case TakeName(p) => p == i && s.parked == Some(i)
  }

  ghost predicate Planned(s: State) {
    forall i :: i in s.procs && s.procs[i].Acting? ==> Fits(s, i, s.procs[i].plan)
  }

  /** A Veery that is about to have a helper is alone. */
  ghost predicate Alone(s: State) {
    forall i :: i in s.procs && (s.procs[i] == Handing(CreateHelper) || s.procs[i] == Handing(StartHelper)) ==>
      s.here == Some(i) && s.parked == None && !s.helper.Working?
  }

  ghost predicate Inv(s: State) {
    Sensible(s) && Excluded(s) && TargetExists(s) && NeverLost(s) && Planned(s) && Alone(s)
  }

  predicate Early(stage: Stage) {
    stage.Inspecting? || stage.Clear? || stage.Park? || stage.StopOld? || stage.CreateNew?
  }

  lemma HelperKeepsEarly(s: State, outcome: Outcome, healthy: bool)
    requires Inv(s) && s.helper.Working? && Early(s.helper.stage)
    ensures Inv(HelperStep(s, s.helper.stage, outcome, healthy))
  {
  }

  lemma HelperKeepsLate(s: State, outcome: Outcome, healthy: bool)
    requires Inv(s) && s.helper.Working? && !Early(s.helper.stage)
    ensures Inv(HelperStep(s, s.helper.stage, outcome, healthy))
  {
  }

  lemma DroppingKeeps(s: State, i: Id, outcome: Outcome, healthy: bool)
    requires Inv(s) && i in s.procs && s.procs[i].Acting? && s.procs[i].plan.DropParked?
    ensures Inv(VeeryStep(s, i, outcome, healthy))
  {
  }

  lemma DisplacingKeeps(s: State, i: Id, outcome: Outcome, healthy: bool)
    requires Inv(s) && i in s.procs && s.procs[i].Acting? && s.procs[i].plan.Displace?
    ensures Inv(VeeryStep(s, i, outcome, healthy))
  {
  }

  lemma TakingKeeps(s: State, i: Id, outcome: Outcome, healthy: bool)
    requires Inv(s) && i in s.procs && s.procs[i].Acting? && (s.procs[i].plan.Judge? || s.procs[i].plan.TakeName?)
    ensures Inv(VeeryStep(s, i, outcome, healthy))
  {
  }

  lemma LookingKeeps(s: State, i: Id, outcome: Outcome, healthy: bool)
    requires Inv(s) && i in s.procs && (s.procs[i].Listing? || s.procs[i].Relisting? || s.procs[i].Pruning? || s.procs[i].Clearing?)
    ensures Inv(VeeryStep(s, i, outcome, healthy))
  {
  }

  lemma ServingKeeps(s: State, i: Id, outcome: Outcome, healthy: bool)
    requires Inv(s) && i in s.procs && (s.procs[i].Serving? || s.procs[i].Handing?)
    ensures Inv(VeeryStep(s, i, outcome, healthy))
  {
  }

  lemma StepKeeps(s: State, a: Action)
    requires Inv(s) && (a.BeginHandOff? && CanHandOff(s, a.i) ==> Quiet(s))
    ensures Inv(Step(s, a))
  {
    match a
    case Act(i, outcome, healthy) =>
      if i in s.procs {
        if s.procs[i].Acting? {
          match s.procs[i].plan {
            case DropParked(_) => DroppingKeeps(s, i, outcome, healthy);
            case Displace(_, _) => DisplacingKeeps(s, i, outcome, healthy);
            case _ => TakingKeeps(s, i, outcome, healthy);
          }
        } else if s.procs[i].Serving? || s.procs[i].Handing? {
          ServingKeeps(s, i, outcome, healthy);
        } else {
          LookingKeeps(s, i, outcome, healthy);
        }
      }
    case Help(outcome, healthy) =>
      if s.helper.Working? {
        if Early(s.helper.stage) {
          HelperKeepsEarly(s, outcome, healthy);
        } else {
          HelperKeepsLate(s, outcome, healthy);
        }
      }
    case _ =>
  }

  lemma {:induction false} RunKeeps(s: State, actions: seq<Action>, n: nat)
    requires Inv(s) && BeginsQuietly(s, actions) && n <= |actions|
    ensures Inv(StateAt(s, actions, n))
  {
    if n > 0 {
      RunKeeps(s, actions, n - 1);
      StepKeeps(StateAt(s, actions, n - 1), actions[n - 1]);
    }
  }

  /** In every interleaving whose hand-offs begin quietly: no start of Veery gets in
      a working helper's way, the helper can always roll back until it commits, and
      Veery is never lost. */
  lemma HandOffIsSafe(s: State, actions: seq<Action>, n: nat)
    requires Initial(s) && BeginsQuietly(s, actions) && n <= |actions|
    ensures Inv(StateAt(s, actions, n))
    ensures
      var now := StateAt(s, actions, n);
      Excluded(now) && TargetExists(now) && NeverLost(now)
  {
    RunKeeps(s, actions, n);
  }

  /** While a helper works, whatever a Veery process does next leaves the containers
      as they are; and a process handing off never touches them, helper or not. */
  lemma RecoveryKeepsItsHandsOff(s: State, i: Id, outcome: Outcome, healthy: bool)
    requires Excluded(s) && i in s.procs
    requires s.helper.Working? || s.procs[i].Handing?
    ensures var s' := VeeryStep(s, i, outcome, healthy); s'.here == s.here && s'.parked == s.parked
    ensures !s.procs[i].Handing? ==> VeeryStep(s, i, outcome, healthy).helper == s.helper
  {
  }

  // ---- Why a hand-off has to begin quietly ----

  ghost predicate Reaches(start: State, actions: seq<Action>, s: State) {
    StateAt(start, actions, |actions|) == s
  }

  lemma {:induction false} SamePrefix(s: State, a: seq<Action>, b: seq<Action>, n: nat)
    requires n <= |a|
    ensures StateAt(s, a + b, n) == StateAt(s, a, n)
  {
    if n > 0 {
      SamePrefix(s, a, b, n - 1);
    }
  }

  lemma Then(start: State, actions: seq<Action>, s: State, a: Action, s': State) returns (longer: seq<Action>)
    requires Reaches(start, actions, s) && Step(s, a) == s'
    ensures longer == actions + [a] && Reaches(start, longer, s')
  {
    longer := actions + [a];
    SamePrefix(start, actions, [a], |actions|);
  }

  lemma {:induction false} Onwards(start: State, a: seq<Action>, s: State, b: seq<Action>, n: nat)
    requires Reaches(start, a, s) && n <= |b|
    ensures StateAt(start, a + b, |a| + n) == StateAt(s, b, n)
  {
    if n == 0 {
      SamePrefix(start, a, b, |a|);
    } else {
      Onwards(start, a, s, b, n - 1);
      assert (a + b)[|a| + n - 1] == b[n - 1];
    }
  }

  /** The run begins with a hand-off by container `i`, and with no other. */
  ghost predicate OnlyHandOff(actions: seq<Action>, i: Id) {
    actions != [] && actions[0] == BeginHandOff(i) && forall n :: 1 <= n < |actions| ==> !actions[n].BeginHandOff?
  }

  /** Container `i` starts to hand off, and container `p`, parked under its name, is
      started over and finds `i` unhealthy. */
  lemma Contested(s: State, i: Id, p: Id) returns (run: seq<Action>)
    requires s.here == Some(i) && s.parked == Some(p) && p != i && CanHandOff(s, i) && !s.helper.Working?
    ensures OnlyHandOff(run, i)
    ensures Reaches(s, run, s.(procs := s.procs[i := Handing(CreateHelper)][p := Acting(Displace(i, p))]))
  {
    var s1 := s.(procs := s.procs[i := Handing(CreateHelper)]);
    var s2 := s1.(procs := s1.procs - {p});
    var s3 := s1.(procs := s1.procs[p := Listing]);
    var s4 := s1.(procs := s1.procs[p := Relisting]);
    var s5 := s1.(procs := s1.procs[p := Acting(Judge(i, p))]);
    run := Then(s, [], s, BeginHandOff(i), s1);
    run := Then(s, run, s1, Die(p), s2);
    assert s2.procs[p := Listing] == s3.procs;
    run := Then(s, run, s2, Boot(p), s3);
    assert s3.procs[p := Relisting] == s4.procs;
    run := Then(s, run, s3, Act(p, Done, true), s4);
    assert s4.procs[p := Acting(Judge(i, p))] == s5.procs;
    run := Then(s, run, s4, Act(p, Done, true), s5);
    assert s5.procs[p := Acting(Displace(i, p))] == s1.procs[p := Acting(Displace(i, p))];
    run := Then(s, run, s5, Act(p, Done, false), s1.(procs := s1.procs[p := Acting(Displace(i, p))]));
  }

  /** Container `i` gets its helper, and the helper sets out to swap it. */
  lemma Helped(s: State, before: seq<Action>, t: State, i: Id, p: Id) returns (run: seq<Action>)
    requires Reaches(s, before, t) && OnlyHandOff(before, i) && p != i && !t.helper.Working?
    requires t.here == Some(i) && t.parked == Some(p)
    requires i in t.procs && t.procs[i] == Handing(CreateHelper)
    ensures OnlyHandOff(run, i)
    ensures Reaches(s, run, t.(procs := t.procs[i := Serving], helper := Working(Clear(i))))
  {
    var t1 := t.(procs := t.procs[i := Handing(StartHelper)], helper := Unstarted);
    var t2 := t.(procs := t.procs[i := Serving], helper := Working(Inspecting));
    run := Then(s, before, t, Act(i, Done, true), t1);
    assert t1.procs[i := Serving] == t2.procs;
    run := Then(s, run, t1, Act(i, Done, true), t2);
    run := Then(s, run, t2, Help(Done, true), t2.(helper := Working(Clear(i))));
  }

  /** From any state in which Veery can hand off with a container parked under its
      name and no helper at work, doing so can lose it: the parked container, started
      by hand, removes the other one, and the helper removes it as a leftover. */
  lemma UnquietHandOffLosesVeery(s: State, i: Id) returns (run: seq<Action>)
    requires CanHandOff(s, i) && s.parked.Some? && s.parked != Some(i) && !s.helper.Working?
    ensures OnlyHandOff(run, i) && !NeverLost(StateAt(s, run, |run|))
  {
    var p := s.parked.value;
    run := Contested(s, i, p);
    var t := s.(procs := s.procs[i := Handing(CreateHelper)][p := Acting(Displace(i, p))]);
    run := Helped(s, run, t, i, p);
    var t1 := t.(procs := t.procs[i := Serving], helper := Working(Clear(i)));
    var t2 := Step(t1, Act(p, Done, true));
    run := Then(s, run, t1, Act(p, Done, true), t2);
    run := Then(s, run, t2, Help(Done, true), Step(t2, Help(Done, true)));
  }

  /** So, with no helper at work, a hand-off is safe to begin if and only if nothing
      is parked: only then does every run that begins with it, and in which no other
      hand-off begins, keep Veery. */
  lemma SafeToHandOff(s: State, i: Id)
    requires Inv(s) && CanHandOff(s, i) && !s.helper.Working?
    ensures s.parked == None <==>
      forall run :: OnlyHandOff(run, i) ==> NeverLost(StateAt(s, run, |run|))
  {
    if s.parked == None {
      forall run | OnlyHandOff(run, i) ensures NeverLost(StateAt(s, run, |run|)) {
        RunKeeps(s, run, |run|);
      }
    } else {
      var run := UnquietHandOffLosesVeery(s, i);
      assert OnlyHandOff(run, i) && !NeverLost(StateAt(s, run, |run|));
    }
  }

  // ---- Such a state comes about ----

  const START := State(Some(0), None, NoHelper, map[0 := Serving], 1)
  const SWAPPED := State(Some(1), Some(0), Finished, map[], 2)

  /** Container 0 hands off; the helper looks at it and means to park it. */
  lemma FirstHandOff() returns (run: seq<Action>)
    ensures Reaches(START, run, State(Some(0), None, Working(Park(0)), map[0 := Serving], 1))
  {
    var inspecting := State(Some(0), None, Working(Inspecting), map[0 := Serving], 1);
    var handing := START.(procs := map[0 := Handing(StartHelper)], helper := Unstarted);
    run := Then(START, [], START, BeginHandOff(0), START.(procs := map[0 := Handing(CreateHelper)]));
    run := Then(START, run, START.(procs := map[0 := Handing(CreateHelper)]), Act(0, Done, true), handing);
    run := Then(START, run, handing, Act(0, Done, true), inspecting);
    run := Then(START, run, inspecting, Help(Done, true), inspecting.(helper := Working(Clear(0))));
    run := Then(START, run, inspecting.(helper := Working(Clear(0))), Help(Done, true), inspecting.(helper := Working(Park(0))));
  }

  /** The helper replaces it by container 1 and fails to remove it. */
  lemma FirstSwap() returns (run: seq<Action>)
    ensures Reaches(START, run, SWAPPED)
  {
    var parked := State(None, Some(0), Working(StopOld(0)), map[0 := Serving], 1);
    var stopped := State(None, Some(0), Working(CreateNew(0)), map[], 1);
    run := FirstHandOff();
    run := Then(START, run, State(Some(0), None, Working(Park(0)), map[0 := Serving], 1), Help(Done, true), parked);
    run := Then(START, run, parked, Help(Done, true), stopped);
    run := Then(START, run, stopped, Help(Done, true), SWAPPED.(helper := Working(StartNew(0, 1))));
    run := Then(START, run, SWAPPED.(helper := Working(StartNew(0, 1))), Help(Done, true), SWAPPED.(helper := Working(Verify(0, 1))));
    run := Then(START, run, SWAPPED.(helper := Working(Verify(0, 1))), Help(Done, true), SWAPPED.(helper := Working(RemoveOld(0, 1))));
    run := Then(START, run, SWAPPED.(helper := Working(RemoveOld(0, 1))), Help(Failed, true), SWAPPED);
  }

  /** A whole run that loses Veery: the first update leaves its original parked,
      container 1 starts, fails to list containers and serves, and hands off again. */
  lemma ARunLosesVeery() returns (run: seq<Action>)
    ensures Initial(START) && !NeverLost(StateAt(START, run, |run|))
  {
    run := FirstSwap();
    run := Then(START, run, SWAPPED, Boot(1), SWAPPED.(procs := map[1 := Listing]));
    run := Then(START, run, SWAPPED.(procs := map[1 := Listing]), Act(1, Failed, true), SWAPPED.(procs := map[1 := Serving]));
    var s := SWAPPED.(procs := map[1 := Serving]);
    var rest := UnquietHandOffLosesVeery(s, 1);
    Onwards(START, run, s, rest, |rest|);
    run := run + rest;
  }

  // ---- The steps against the swap and the recovery ----

  /** The next `n` calls of a starting Veery, as long as it settles what is parked
      and every call does what it says. */
  function Settling(s: State, i: Id, healthy: bool, n: nat): State
    decreases n
  {
    if n == 0 || i !in s.procs || !(s.procs[i].Relisting? || s.procs[i].Acting?) then s
    else Settling(VeeryStep(s, i, Done, healthy), i, healthy, n - 1)
  }

  function IdOf(c: Option<Container>): Option<Id> {
    if c.Some? then Some(c.value.id) else None
  }

  /** Undisturbed, it leaves the two names to whom recovery's decision table gives them. */
  lemma SettlesByTheTable(s: State, i: Id, healthy: bool, here: Option<Container>, parked: Option<Container>)
    requires Sensible(s) && i in s.procs && s.procs[i] == Relisting && s.parked.Some?
    requires IdOf(here) == s.here && IdOf(parked) == s.parked
    ensures
      var s' := Settling(s, i, healthy, 4);
      var verdict := Recovery.Verdict(here, parked, Some(i), healthy);
      && i in s'.procs && s'.procs[i] == Pruning
      && s'.here == IdOf(verdict.0) && s'.parked == IdOf(verdict.1)
  {
    var s1 := VeeryStep(s, i, Done, healthy);
    var s2 := VeeryStep(s1, i, Done, healthy);
    assert Settling(s, i, healthy, 4) == Settling(s2, i, healthy, 2);
    if s2.procs[i].Acting? {
      var s3 := VeeryStep(s2, i, Done, healthy);
      assert Settling(s2, i, healthy, 2) == VeeryStep(s3, i, Done, healthy);
    }
  }

  /** The next `n` calls of the helper, if all do what they say. */
  function Swapping(s: State, healthy: bool, n: nat): State
    decreases n
  {
    if n == 0 || !s.helper.Working? then s else Swapping(HelperStep(s, s.helper.stage, Done, healthy), healthy, n - 1)
  }

  /** Undisturbed, the helper ends as a swap on a reliable daemon does: with a new
      container and nothing parked if that one is healthy, else with the old one back. */
  lemma SwapsOrRollsBack(s: State, healthy: bool)
    requires Sensible(s) && s.helper == Working(Inspecting) && s.here.Some?
    ensures
      var s' := Swapping(s, healthy, 10);
      s'.helper == Finished && s'.parked == None && s'.here == if healthy then Some(s.next) else s.here
  {
    var o, n := s.here.value, s.next;
    var s0 := if s.parked.Some? then Dropped(s, s.parked.value) else s;
    var parked := s0.(here := None, parked := Some(o), helper := Working(StopOld(o)));
    assert Swapping(s, healthy, 10) == Swapping(s0.(helper := Working(Park(o))), healthy, 8) == Swapping(parked, healthy, 7);
    OnceParked(parked, o, healthy);
  }

  lemma OnceParked(s: State, o: Id, healthy: bool)
    requires s.helper == Working(StopOld(o)) && s.here == None && s.parked == Some(o) && o < s.next
    ensures
      var s' := Swapping(s, healthy, 7);
      s'.helper == Finished && s'.parked == None && s'.here == Some(if healthy then s.next else o)
  {
    var stopped := s.(procs := s.procs - {o}, helper := Working(CreateNew(o)));
    var created := stopped.(here := Some(s.next), next := s.next + 1, helper := Working(StartNew(o, s.next)));
    assert Swapping(s, healthy, 7) == Swapping(stopped, healthy, 6) == Swapping(created, healthy, 5);
    assert Swapping(created, healthy, 5) == Swapping(created.(helper := Working(Verify(o, s.next))), healthy, 4);
    EndsWell(created.(helper := Working(Verify(o, s.next))), o, s.next, healthy);
  }

  lemma EndsWell(s: State, o: Id, n: Id, healthy: bool)
    requires s.helper == Working(Verify(o, n)) && s.here == Some(n) && s.parked == Some(o) && o != n
    ensures
      var s' := Swapping(s, healthy, 4);
      s'.helper == Finished && s'.parked == None && s'.here == Some(if healthy then n else o)
  {
    if healthy {
      assert Swapping(s, healthy, 4) == Swapping(Dropped(s, o).(helper := Finished), healthy, 2);
    } else {
      var undone := Dropped(s, n).(helper := Working(Restore(o)));
      assert Swapping(s, healthy, 4) == Swapping(undone, healthy, 2);
      var renamed := Rename(undone, o).(helper := Working(StartOld(o)));
      assert Rename(undone, o) != undone;
      assert Swapping(undone, healthy, 2) == Swapping(renamed, healthy, 1) == renamed.(helper := Finished);
    }
  }
}
