/** internal/store/update_jobs.go: the rows through which the processes that work on
    one update tell each other, and the user, how it went. */
module Jobs {
  import opened Wrappers
  import opened Docker

  datatype Job = Job(name: Name, phase: string, message: string, error: string, self: bool, done: bool)

  /** One write to the table. */
  datatype Write =
    | Begin(id: string, name: Name, phase: string, message: string)
    | Phase(id: string, phase: string, message: string)
    | Mark(id: string)
    | Close(id: string, phase: string, message: string, error: string)

  function Applied(jobs: map<string, Job>, w: Write): map<string, Job> {
    match w
    case Begin(id, name, phase, message) =>
      jobs[id := if id in jobs then jobs[id].(phase := phase, message := message)
                 else Job(name, phase, message, "", false, false)]
    case Phase(id, phase, message) =>
      if id in jobs && !jobs[id].done then jobs[id := jobs[id].(phase := phase, message := message)] else jobs
    case Mark(id) =>
      if id in jobs then jobs[id := jobs[id].(self := true)] else jobs
    case Close(id, phase, message, error) =>
      if id in jobs then jobs[id := jobs[id].(phase := phase, message := message, error := error, done := true)] else jobs
  }

  function Run(jobs: map<string, Job>, writes: seq<Write>): map<string, Job>
    decreases |writes|
  {
    if writes == [] then jobs else Run(Applied(jobs, writes[0]), writes[1..])
  }

  predicate IsDone(jobs: map<string, Job>, id: string) {
    id in jobs && jobs[id].done
  }

  /** A finished job never becomes active again, whatever is written after. */
  lemma {:induction false} DoneIsForever(jobs: map<string, Job>, writes: seq<Write>, id: string)
    requires IsDone(jobs, id)
    ensures IsDone(Run(jobs, writes), id) && Run(jobs, writes)[id].name == jobs[id].name
    decreases |writes|
  {
    if writes != [] {
      DoneIsForever(Applied(jobs, writes[0]), writes[1..], id);
    }
  }

  /** A write that says how job `id` stands, finished or not. */
  predicate Decides(w: Write, id: string) {
    w.id == id && (w.Begin? || w.Close?)
  }

  /** Progress reported late, and a mark, do not disturb the outcome of a finished job. */
  lemma {:induction false} OutcomeStands(jobs: map<string, Job>, writes: seq<Write>, id: string)
    requires IsDone(jobs, id)
    requires forall w :: w in writes ==> !Decides(w, id)
    ensures
      var after := Run(jobs, writes);
      IsDone(after, id) && after[id] == jobs[id].(self := after[id].self)
    decreases |writes|
  {
    if writes != [] {
      assert writes[0] in writes;
      OutcomeStands(Applied(jobs, writes[0]), writes[1..], id);
    }
  }

  /** A job is unfinished to the end exactly when it was unfinished and nothing closed it. */
  lemma {:induction false} OnlyClosingFinishes(jobs: map<string, Job>, writes: seq<Write>, id: string)
    requires id in jobs
    ensures id in Run(jobs, writes)
    ensures IsDone(Run(jobs, writes), id) <==> jobs[id].done || exists w :: w in writes && w.Close? && w.id == id
    decreases |writes|
  {
    if writes != [] {
      OnlyClosingFinishes(Applied(jobs, writes[0]), writes[1..], id);
      assert forall w :: w in writes <==> w == writes[0] || w in writes[1..];
    }
  }

  lemma {:induction false} RunInTwo(jobs: map<string, Job>, a: seq<Write>, b: seq<Write>)
    ensures Run(jobs, a + b) == Run(Run(jobs, a), b)
    decreases |a|
  {
    if a == [] {
      assert a + b == b;
    } else {
      assert (a + b)[1..] == a[1..] + b;
      RunInTwo(Applied(jobs, a[0]), a[1..], b);
    }
  }

  /** What a finished job shows is what the last write that began or closed it said.
      So a job begun under a used id stays finished, but loses its outcome to the new
      start until it is closed again; its error stays that of the last closing. */
  lemma LastWordStands(jobs: map<string, Job>, writes: seq<Write>, id: string, i: nat)
    requires IsDone(jobs, id) && i < |writes| && Decides(writes[i], id)
    requires forall w :: w in writes[i+1..] ==> !Decides(w, id)
    ensures
      var before, after := Run(jobs, writes[..i]), Run(jobs, writes);
      && IsDone(before, id) && IsDone(after, id)
      && after[id].phase == writes[i].phase && after[id].message == writes[i].message
      && after[id].error == if writes[i].Close? then writes[i].error else before[id].error
  {
    var before, rest := Run(jobs, writes[..i]), writes[i+1..];
    DoneIsForever(jobs, writes[..i], id);
    assert writes == writes[..i] + ([writes[i]] + rest);
    RunInTwo(jobs, writes[..i], [writes[i]] + rest);
    RunInTwo(before, [writes[i]], rest);
    assert Run(before, [writes[i]]) == Applied(before, writes[i]);
    OutcomeStands(Applied(before, writes[i]), rest, id);
  }

  ghost predicate Wrote(jobs: map<string, Job>, jobs': map<string, Job>, reliable: bool, w: Write) {
    jobs' == Applied(jobs, w) || (!reliable && jobs' == jobs)
  }

  /** The table; every write may fail, unless the database is `reliable`. */
  class JobTable {
    var jobs: map<string, Job>
    const reliable: bool

    /** Whether a statement reaches the table; a failure is logged or ignored. */
    method Reach() returns (ok: bool)
      ensures reliable ==> ok
    {
      ok := *;
      if reliable {
        ok := true;
      }
    }

    method StartUpdateJob(id: string, name: Name, phase: string, message: string)
      modifies this
      ensures Wrote(old(jobs), jobs, reliable, Begin(id, name, phase, message))
    {
      var ok := Reach();
      if !ok {
        return;
      }
      if id in jobs {
        jobs := jobs[id := jobs[id].(phase := phase, message := message)];
      } else {
        jobs := jobs[id := Job(name, phase, message, "", false, false)];
      }
    }

    method SetPhase(id: string, phase: string, message: string)
      modifies this
      ensures Wrote(old(jobs), jobs, reliable, Phase(id, phase, message))
    {
      var ok := Reach();
      if ok && id in jobs && !jobs[id].done {
        jobs := jobs[id := jobs[id].(phase := phase, message := message)];
      }
    }

    method MarkSelf(id: string)
      modifies this
      ensures Wrote(old(jobs), jobs, reliable, Mark(id))
    {
      var ok := Reach();
      if ok && id in jobs {
        jobs := jobs[id := jobs[id].(self := true)];
      }
    }

    method Finish(id: string, phase: string, message: string, error: string)
      modifies this
      ensures Wrote(old(jobs), jobs, reliable, Close(id, phase, message, error))
    {
      var ok := Reach();
      if ok && id in jobs {
        jobs := jobs[id := jobs[id].(phase := phase, message := message, error := error, done := true)];
      }
    }

    /** The unfinished jobs, if they can be read. */
    method Active() returns (r: Result<set<string>, ()>)
      ensures r.Success? ==> r.value == set id | id in jobs && !jobs[id].done
      ensures reliable ==> r.Success?
    {
      var ok := Reach();
      r := if ok then Success(set id | id in jobs && !jobs[id].done) else Failure(());
    }
  }
}
