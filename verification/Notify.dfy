/** internal/docker/notify.go: announcing how managed containers change from one
    sweep to the next, across restarts of Veery. */
module Notify {
  datatype Status = Running | Stopped | NeedsAttention | Updating | Missing

  datatype Container = Container(name: string, status: Status, managed: bool)

  datatype Stack = Stack(id: string, containers: seq<Container>)

  type Statuses = map<string, Status>

  /** An announcement: a container's new status, its removal, or that of a whole stack. */
  datatype Note = NowIs(name: string, status: Status) | WasRemoved(name: string) | WasTakenDown(stack: string)

  /** A change worth announcing: the container was seen before, and is now otherwise,
      without an update being under way at either time. */
  predicate IsNews(last: Statuses, c: Container) {
    && c.managed && c.name in last && last[c.name] != c.status
    && last[c.name] != Updating && c.status != Updating
  }

  function Changed(last: Statuses, cs: seq<Container>): seq<Container> {
    if cs == [] then []
    else
      var c, before := cs[|cs| - 1], Changed(last, cs[..|cs| - 1]);
      if IsNews(last, c) && c.status != Missing then before + [c] else before
  }

  function Gone(last: Statuses, cs: seq<Container>): seq<Container> {
    if cs == [] then []
    else
      var c, before := cs[|cs| - 1], Gone(last, cs[..|cs| - 1]);
      if IsNews(last, c) && c.status == Missing then before + [c] else before
  }

  function ManagedIn(cs: seq<Container>): nat {
    if cs == [] then 0 else ManagedIn(cs[..|cs| - 1]) + if cs[|cs| - 1].managed then 1 else 0
  }

  function StatusNotes(cs: seq<Container>): seq<Note> {
    if cs == [] then [] else StatusNotes(cs[..|cs| - 1]) + [NowIs(cs[|cs| - 1].name, cs[|cs| - 1].status)]
  }

  function RemovedNotes(cs: seq<Container>): seq<Note> {
    if cs == [] then [] else RemovedNotes(cs[..|cs| - 1]) + [WasRemoved(cs[|cs| - 1].name)]
  }

  /** removalMessages: one message for a whole stack taken down, else one each. */
  function RemovalNotes(stack: string, gone: seq<Container>, managed: nat): seq<Note> {
    if gone == [] then []
    else if |gone| > 1 && |gone| == managed then [WasTakenDown(stack)]
    else RemovedNotes(gone)
  }

  function StackNotes(last: Statuses, st: Stack): seq<Note> {
    StatusNotes(Changed(last, st.containers)) + RemovalNotes(st.id, Gone(last, st.containers), ManagedIn(st.containers))
  }

  /** What one sweep has to say. */
  function Told(last: Statuses, stacks: seq<Stack>): seq<Note> {
    if stacks == [] then [] else Told(last, stacks[..|stacks| - 1]) + StackNotes(last, stacks[|stacks| - 1])
  }

  function SeenIn(cs: seq<Container>, seen: Statuses): Statuses {
    if cs == [] then seen
    else
      var before := SeenIn(cs[..|cs| - 1], seen);
      if cs[|cs| - 1].managed then before[cs[|cs| - 1].name := cs[|cs| - 1].status] else before
  }

  function Seen(stacks: seq<Stack>): Statuses {
    if stacks == [] then map[] else SeenIn(stacks[|stacks| - 1].containers, Seen(stacks[..|stacks| - 1]))
  }

  /** What is announced over a run of sweeps. */
  function ToldOver(last: Statuses, sweeps: seq<seq<Stack>>): seq<Note> {
    if sweeps == [] then []
    else ToldOver(last, sweeps[..|sweeps| - 1]) + Told(LastOf(last, sweeps[..|sweeps| - 1]), sweeps[|sweeps| - 1])
  }

  function LastOf(last: Statuses, sweeps: seq<seq<Stack>>): Statuses {
    if sweeps == [] then last else Seen(sweeps[|sweeps| - 1])
  }

  datatype Event = Swept(stacks: seq<Stack>) | Restarted

  function Sweeps(events: seq<Event>): seq<seq<Stack>> {
    if events == [] then []
    else
      var before := Sweeps(events[..|events| - 1]);
      match events[|events| - 1]
      case Swept(stacks) => before + [stacks]
      case Restarted => before
  }

  lemma RegroupNotes(a: seq<Note>, b: seq<Note>, c: seq<Note>)
    ensures (a + b) + c == a + (b + c)
  {
  }

  lemma ToldNext(last: Statuses, stacks: seq<Stack>, i: nat)
    requires i < |stacks|
    ensures Told(last, stacks[..i + 1]) == Told(last, stacks[..i]) + StackNotes(last, stacks[i])
    ensures Seen(stacks[..i + 1]) == SeenIn(stacks[i].containers, Seen(stacks[..i]))
  {
    assert stacks[..i + 1][..i] == stacks[..i];
  }

  lemma NextSweep(last: Statuses, sweeps: seq<seq<Stack>>, stacks: seq<Stack>)
    ensures ToldOver(last, sweeps + [stacks]) == ToldOver(last, sweeps) + Told(LastOf(last, sweeps), stacks)
    ensures LastOf(last, sweeps + [stacks]) == Seen(stacks)
  {
    assert (sweeps + [stacks])[..|sweeps|] == sweeps;
  }

  lemma NextEvent(before: seq<Event>, event: Event)
    ensures Sweeps(before + [event]) == match event case Swept(stacks) => Sweeps(before) + [stacks] case Restarted => Sweeps(before)
  {
    assert (before + [event])[..|before|] == before;
  }

  class StatusWatcher {
    var lastStatus: Statuses
    var loaded: bool       // whether lastStatus has been read from the database
    var saved: Statuses    // what the database holds
    var notes: seq<Note>

    /** The statuses the next sweep is compared with. */
    ghost function Last(): Statuses
      reads this
    {
      if loaded then lastStatus else saved
    }

    ghost predicate Valid()
      reads this
    {
      loaded ==> lastStatus == saved
    }

    constructor (saved: Statuses)
      ensures Valid() && Last() == saved && notes == []
    {
      lastStatus, loaded, this.saved, notes := map[], false, saved, [];
    }

    /** The process dies and is started again: only the database remains. */
    method Restart()
      requires Valid()
      modifies this`lastStatus, this`loaded
      ensures Valid() && Last() == old(Last())
    {
      lastStatus, loaded := map[], false;
    }

    method NoteStack(st: Stack, seen: Statuses) returns (seen': Statuses)
      modifies this`notes
      ensures notes == old(notes) + StackNotes(lastStatus, st)
      ensures seen' == SeenIn(st.containers, seen)
    {
      seen' := seen;
      var cs := st.containers;
      var changed: seq<Container>, gone: seq<Container>, managed := [], [], 0;
      for i := 0 to |cs|
        invariant seen' == SeenIn(cs[..i], seen) && managed == ManagedIn(cs[..i])
        invariant changed == Changed(lastStatus, cs[..i]) && gone == Gone(lastStatus, cs[..i])
      {
        assert cs[..i+1][..i] == cs[..i];
        var c := cs[i];
        if !c.managed {
          continue;
        }
        managed := managed + 1;
        seen' := seen'[c.name := c.status];
        if c.name !in lastStatus || lastStatus[c.name] == c.status || lastStatus[c.name] == Updating || c.status == Updating {
          continue;
        }
        if c.status == Missing {
          gone := gone + [c];
          continue;
        }
        changed := changed + [c];
      }
      assert cs[..|cs|] == cs;
      for i := 0 to |changed|
        invariant notes == old(notes) + StatusNotes(changed[..i])
      {
        assert changed[..i+1][..i] == changed[..i];
        notes := notes + [NowIs(changed[i].name, changed[i].status)];
      }
      assert changed[..|changed|] == changed;
      var messages := RemovalMessages(st, gone, managed);
      notes := notes + messages;
    }

    method RemovalMessages(st: Stack, gone: seq<Container>, managed: nat) returns (out: seq<Note>)
      ensures out == RemovalNotes(st.id, gone, managed)
    {
      if |gone| == 0 {
        return [];
      }
      if |gone| > 1 && |gone| == managed {
        return [WasTakenDown(st.id)];
      }
      out := [];
      for i := 0 to |gone|
        invariant out == RemovedNotes(gone[..i])
      {
        assert gone[..i+1][..i] == gone[..i];
        out := out + [WasRemoved(gone[i].name)];
      }
      assert gone[..|gone|] == gone;
    }

    method NoteStacks(stacks: seq<Stack>) returns (seen: Statuses)
      modifies this`notes
      ensures seen == Seen(stacks) && notes == old(notes) + Told(lastStatus, stacks)
    {
      seen := map[];
      ghost var told := [];
      for i := 0 to |stacks|
        invariant seen == Seen(stacks[..i]) && told == Told(lastStatus, stacks[..i]) && notes == old(notes) + told
      {
        ToldNext(lastStatus, stacks, i);
        RegroupNotes(old(notes), told, StackNotes(lastStatus, stacks[i]));
        seen := NoteStack(stacks[i], seen);
        told := told + StackNotes(lastStatus, stacks[i]);
      }
      assert stacks[..|stacks|] == stacks;
    }

    /** noteStatuses: announces what changed since the last sweep and remembers this one. */
    method NoteStatuses(stacks: seq<Stack>)
      requires Valid()
      modifies this
      ensures Valid() && Last() == Seen(stacks)
      ensures notes == old(notes) + Told(old(Last()), stacks)
    {
      if !loaded {
        lastStatus, loaded := saved, true;
      }
      var seen := NoteStacks(stacks);
      if lastStatus == seen {
        return;
      }
      lastStatus := seen;
      saved := seen;
    }

    method Happen(event: Event, ghost last: Statuses, ghost notes0: seq<Note>, ghost sweeps: seq<seq<Stack>>)
      returns (ghost sweeps': seq<seq<Stack>>)
      requires Valid() && notes == notes0 + ToldOver(last, sweeps) && Last() == LastOf(last, sweeps)
      modifies this
      ensures sweeps' == match event case Swept(stacks) => sweeps + [stacks] case Restarted => sweeps
      ensures Valid() && notes == notes0 + ToldOver(last, sweeps') && Last() == LastOf(last, sweeps')
    {
      sweeps' := sweeps;
      match event {
        case Swept(stacks) =>
          sweeps' := sweeps + [stacks];
          NextSweep(last, sweeps, stacks);
          RegroupNotes(notes0, ToldOver(last, sweeps), Told(LastOf(last, sweeps), stacks));
          NoteStatuses(stacks);
        case Restarted => Restart();
      }
    }

    /** Restarts at any points of a run change no announcement. */
    method Watch(events: seq<Event>)
      requires Valid()
      modifies this
      ensures Valid() && notes == old(notes) + ToldOver(old(Last()), Sweeps(events))
      ensures Last() == LastOf(old(Last()), Sweeps(events))
    {
      ghost var sweeps := [];
      for i := 0 to |events|
        invariant sweeps == Sweeps(events[..i])
        invariant Valid() && notes == old(notes) + ToldOver(old(Last()), sweeps) && Last() == LastOf(old(Last()), sweeps)
      {
        assert events[..i+1] == events[..i] + [events[i]];
        NextEvent(events[..i], events[i]);
        sweeps := Happen(events[i], old(Last()), old(notes), sweeps);
      }
      assert events[..|events|] == events;
    }
  }

  // ---- What the announcements of a sweep mean ----

  /** How often a status change of `name` to `status` is to be announced for these. */
  function NewsOf(last: Statuses, cs: seq<Container>, name: string, status: Status): nat {
    if cs == [] then 0
    else
      var c := cs[|cs| - 1];
      NewsOf(last, cs[..|cs| - 1], name, status) + if IsNews(last, c) && c.name == name && c.status == status then 1 else 0
  }

  function Count(note: Note, notes: seq<Note>): nat {
    if notes == [] then 0
    else if notes[|notes| - 1] == note then Count(note, notes[..|notes| - 1]) + 1
    else Count(note, notes[..|notes| - 1])
  }

  lemma {:induction false} CountConcat(note: Note, a: seq<Note>, b: seq<Note>)
    ensures Count(note, a + b) == Count(note, a) + Count(note, b)
    decreases |b|
  {
    if b == [] {
      assert a + b == a;
    } else {
      assert (a + b)[..|a + b| - 1] == a + b[..|b| - 1];
      CountConcat(note, a, b[..|b| - 1]);
    }
  }

  lemma StatusNotesNext(cs: seq<Container>, c: Container, note: Note)
    ensures Count(note, StatusNotes(cs + [c])) == Count(note, StatusNotes(cs)) + if note == NowIs(c.name, c.status) then 1 else 0
  {
    assert (cs + [c])[..|cs|] == cs;
    CountConcat(note, StatusNotes(cs), [NowIs(c.name, c.status)]);
    CountOne(note, NowIs(c.name, c.status));
  }

  lemma RemovedNotesNext(cs: seq<Container>, c: Container, note: Note)
    ensures Count(note, RemovedNotes(cs + [c])) == Count(note, RemovedNotes(cs)) + if note == WasRemoved(c.name) then 1 else 0
  {
    assert (cs + [c])[..|cs|] == cs;
    CountConcat(note, RemovedNotes(cs), [WasRemoved(c.name)]);
    CountOne(note, WasRemoved(c.name));
  }

  lemma CountOne(note: Note, only: Note)
    ensures Count(note, [only]) == if note == only then 1 else 0
  {
    assert [only][..0] == [];
  }

  lemma {:induction false} CountStatusNotes(last: Statuses, cs: seq<Container>, name: string, status: Status)
    ensures Count(NowIs(name, status), StatusNotes(Changed(last, cs))) == if status == Missing then 0 else NewsOf(last, cs, name, status)
  {
    if cs != [] {
      CountStatusNotes(last, cs[..|cs| - 1], name, status);
      OneMoreChanged(last, cs, NowIs(name, status));
    }
  }

  lemma OneMoreChanged(last: Statuses, cs: seq<Container>, note: Note)
    requires cs != []
    ensures
      var c := cs[|cs| - 1];
      Count(note, StatusNotes(Changed(last, cs))) == Count(note, StatusNotes(Changed(last, cs[..|cs| - 1])))
        + if IsNews(last, c) && c.status != Missing && note == NowIs(c.name, c.status) then 1 else 0
  {
    StatusNotesNext(Changed(last, cs[..|cs| - 1]), cs[|cs| - 1], note);
  }

  lemma {:induction false} CountRemovedNotes(last: Statuses, cs: seq<Container>, name: string)
    ensures Count(WasRemoved(name), RemovedNotes(Gone(last, cs))) == NewsOf(last, cs, name, Missing)
  {
    if cs != [] {
      CountRemovedNotes(last, cs[..|cs| - 1], name);
      OneMoreGone(last, cs, WasRemoved(name));
    }
  }

  lemma OneMoreGone(last: Statuses, cs: seq<Container>, note: Note)
    requires cs != []
    ensures
      var c := cs[|cs| - 1];
      Count(note, RemovedNotes(Gone(last, cs))) == Count(note, RemovedNotes(Gone(last, cs[..|cs| - 1])))
        + if IsNews(last, c) && c.status == Missing && note == WasRemoved(c.name) then 1 else 0
  {
    RemovedNotesNext(Gone(last, cs[..|cs| - 1]), cs[|cs| - 1], note);
  }

  lemma {:induction false} CountOthers(note: Note, cs: seq<Container>)
    ensures !note.NowIs? ==> Count(note, StatusNotes(cs)) == 0
    ensures !note.WasRemoved? ==> Count(note, RemovedNotes(cs)) == 0
  {
    if cs != [] {
      CountOthers(note, cs[..|cs| - 1]);
    }
  }

  /** All containers Veery manages in the stack, and more than one, have gone at once. */
  ghost predicate IsTakenDown(last: Statuses, st: Stack) {
    |Gone(last, st.containers)| > 1 && forall c :: c in st.containers && c.managed ==> IsNews(last, c) && c.status == Missing
  }

  lemma {:induction false} GoneAreManaged(last: Statuses, cs: seq<Container>)
    ensures |Gone(last, cs)| <= ManagedIn(cs)
    ensures |Gone(last, cs)| == ManagedIn(cs) <==> forall c :: c in cs && c.managed ==> IsNews(last, c) && c.status == Missing
  {
    if cs != [] {
      GoneAreManaged(last, cs[..|cs| - 1]);
      assert cs == cs[..|cs| - 1] + [cs[|cs| - 1]];
      assert cs[|cs| - 1] in cs;
    }
  }

  lemma {:induction false} CountRemovals(last: Statuses, st: Stack, note: Note)
    ensures Count(note, RemovalNotes(st.id, Gone(last, st.containers), ManagedIn(st.containers))) ==
      match note
      case NowIs(_, _) => 0
      case WasRemoved(name) => if IsTakenDown(last, st) then 0 else NewsOf(last, st.containers, name, Missing)
      case WasTakenDown(id) => if IsTakenDown(last, st) && id == st.id then 1 else 0
  {
    var gone := Gone(last, st.containers);
    GoneAreManaged(last, st.containers);
    if IsTakenDown(last, st) {
      assert [WasTakenDown(st.id)][..0] == [];
    } else {
      CountOthers(note, gone);
      if note.WasRemoved? {
        CountRemovedNotes(last, st.containers, note.name);
      }
    }
  }

  /** How often each thing is said about one stack. */
  lemma StackSays(last: Statuses, st: Stack, note: Note)
    ensures Count(note, StackNotes(last, st)) ==
      match note
      case NowIs(name, status) => if status == Missing then 0 else NewsOf(last, st.containers, name, status)
      case WasRemoved(name) => if IsTakenDown(last, st) then 0 else NewsOf(last, st.containers, name, Missing)
      case WasTakenDown(id) => if IsTakenDown(last, st) && id == st.id then 1 else 0
  {
    var changed := Changed(last, st.containers);
    CountConcat(note, StatusNotes(changed), RemovalNotes(st.id, Gone(last, st.containers), ManagedIn(st.containers)));
    CountRemovals(last, st, note);
    if note.NowIs? {
      CountStatusNotes(last, st.containers, note.name, note.status);
    } else {
      CountOthers(note, changed);
    }
  }

  lemma {:induction false} NoNewsOfStrangers(last: Statuses, cs: seq<Container>, name: string, status: Status)
    requires forall c :: c in cs ==> c.name != name
    ensures NewsOf(last, cs, name, status) == 0
  {
    if cs != [] {
      assert cs[|cs| - 1] in cs;
      NoNewsOfStrangers(last, cs[..|cs| - 1], name, status);
    }
  }

  ghost predicate DistinctNames(cs: seq<Container>) {
    forall i, j :: 0 <= i < j < |cs| ==> cs[i].name != cs[j].name
  }

  lemma {:induction false} NewsOfOne(last: Statuses, cs: seq<Container>, c: Container, status: Status)
    requires DistinctNames(cs) && c in cs
    ensures NewsOf(last, cs, c.name, status) == if IsNews(last, c) && c.status == status then 1 else 0
  {
    var init, end := cs[..|cs| - 1], cs[|cs| - 1];
    if end == c {
      NoNewsOfStrangers(last, init, c.name, status);
    } else {
      assert c in init;
      NewsOfOne(last, init, c, status);
      var i :| 0 <= i < |init| && init[i] == c;
      assert cs[i].name != cs[|cs| - 1].name;
    }
  }

  /** Stack ids are distinct, and so are container names throughout. */
  ghost predicate Distinct(stacks: seq<Stack>) {
    && (forall i :: 0 <= i < |stacks| ==> DistinctNames(stacks[i].containers))
    && (forall i, j :: 0 <= i < j < |stacks| ==> stacks[i].id != stacks[j].id && Apart(stacks[i].containers, stacks[j].containers))
  }

  ghost predicate Apart(a: seq<Container>, b: seq<Container>) {
    forall c, d :: c in a && d in b ==> c.name != d.name
  }

  /** How often something is said about one stack. */
  function Said(last: Statuses, st: Stack, note: Note): nat {
    Count(note, StackNotes(last, st))
  }

  lemma SaidNext(last: Statuses, stacks: seq<Stack>, note: Note)
    requires stacks != []
    ensures Count(note, Told(last, stacks)) ==
            Count(note, Told(last, stacks[..|stacks| - 1])) + Said(last, stacks[|stacks| - 1], note)
  {
    CountConcat(note, Told(last, stacks[..|stacks| - 1]), StackNotes(last, stacks[|stacks| - 1]));
  }

  function SaidEach(last: Statuses, stacks: seq<Stack>, note: Note): seq<nat> {
    seq(|stacks|, j requires 0 <= j < |stacks| => Said(last, stacks[j], note))
  }

  function Sum(ns: seq<nat>): nat {
    if ns == [] then 0 else Sum(ns[..|ns| - 1]) + ns[|ns| - 1]
  }

  lemma {:induction false} SumOfOne(ns: seq<nat>, i: nat)
    requires forall j :: 0 <= j < |ns| && j != i ==> ns[j] == 0
    ensures Sum(ns) == if i < |ns| then ns[i] else 0
  {
    if ns != [] {
      SumOfOne(ns[..|ns| - 1], i);
    }
  }

  lemma {:induction false} ToldIsSum(last: Statuses, stacks: seq<Stack>, note: Note)
    ensures Count(note, Told(last, stacks)) == Sum(SaidEach(last, stacks, note))
  {
    if stacks != [] {
      SaidNext(last, stacks, note);
      ToldIsSum(last, stacks[..|stacks| - 1], note);
      SaidEachNext(last, stacks, note);
    }
  }

  lemma SaidEachNext(last: Statuses, stacks: seq<Stack>, note: Note)
    requires stacks != []
    ensures
      var ns := SaidEach(last, stacks, note);
      && ns[..|ns| - 1] == SaidEach(last, stacks[..|stacks| - 1], note)
      && ns[|ns| - 1] == Said(last, stacks[|stacks| - 1], note)
  {
  }

  /** What is said about no stack but the `i`-th is said as often as about that one. */
  lemma SaidOnce(last: Statuses, stacks: seq<Stack>, i: nat, note: Note)
    requires i < |stacks|
    requires forall j :: 0 <= j < |stacks| && j != i ==> Said(last, stacks[j], note) == 0
    ensures Count(note, Told(last, stacks)) == Said(last, stacks[i], note)
  {
    ToldIsSum(last, stacks, note);
    SumOfOne(SaidEach(last, stacks, note), i);
  }

  lemma NotSaidElsewhere(last: Statuses, stacks: seq<Stack>, i: nat, c: Container, j: nat, note: Note)
    requires Distinct(stacks) && i < |stacks| && c in stacks[i].containers && j < |stacks| && j != i
    requires match note case NowIs(name, _) => name == c.name case WasRemoved(name) => name == c.name case WasTakenDown(id) => id == stacks[i].id
    ensures Said(last, stacks[j], note) == 0
  {
    StackSays(last, stacks[j], note);
    assert stacks[if i < j then i else j].id != stacks[if i < j then j else i].id;
    assert Apart(stacks[if i < j then i else j].containers, stacks[if i < j then j else i].containers);
    if note.NowIs? {
      NoNewsOfStrangers(last, stacks[j].containers, c.name, note.status);
    } else if note.WasRemoved? {
      NoNewsOfStrangers(last, stacks[j].containers, c.name, Missing);
    }
  }

  lemma SaidOf(last: Statuses, stacks: seq<Stack>, i: nat, c: Container, note: Note)
    requires Distinct(stacks) && i < |stacks| && c in stacks[i].containers
    requires match note case NowIs(name, _) => name == c.name case WasRemoved(name) => name == c.name case WasTakenDown(id) => id == stacks[i].id
    ensures Count(note, Told(last, stacks)) == Said(last, stacks[i], note)
  {
    forall j | 0 <= j < |stacks| && j != i ensures Said(last, stacks[j], note) == 0 {
      NotSaidElsewhere(last, stacks, i, c, j, note);
    }
    SaidOnce(last, stacks, i, note);
  }

  /** Each container is announced exactly once if it changed to something other than
      missing, and not at all otherwise. */
  lemma ChangesAreToldExactly(last: Statuses, stacks: seq<Stack>, i: nat, c: Container, status: Status)
    requires Distinct(stacks) && i < |stacks| && c in stacks[i].containers
    ensures Count(NowIs(c.name, status), Told(last, stacks)) ==
            if IsNews(last, c) && c.status == status && status != Missing then 1 else 0
  {
    SaidOf(last, stacks, i, c, NowIs(c.name, status));
    StackSays(last, stacks[i], NowIs(c.name, status));
    NewsOfOne(last, stacks[i].containers, c, status);
  }

  /** Every container newly missing is covered by exactly one message: its own, or
      that of its stack when all that Veery manages in it went at once. */
  lemma RemovalsAreCoveredOnce(last: Statuses, stacks: seq<Stack>, i: nat, c: Container)
    requires Distinct(stacks) && i < |stacks| && c in stacks[i].containers
    ensures
      var told, whole := Told(last, stacks), IsTakenDown(last, stacks[i]);
      && Count(WasTakenDown(stacks[i].id), told) == (if whole then 1 else 0)
      && Count(WasRemoved(c.name), told) == (if IsNews(last, c) && c.status == Missing && !whole then 1 else 0)
      && (whole && c.managed ==> IsNews(last, c) && c.status == Missing)
  {
    SaidOf(last, stacks, i, c, WasTakenDown(stacks[i].id));
    SaidOf(last, stacks, i, c, WasRemoved(c.name));
    StackSays(last, stacks[i], WasTakenDown(stacks[i].id));
    StackSays(last, stacks[i], WasRemoved(c.name));
    NewsOfOne(last, stacks[i].containers, c, Missing);
  }

  lemma {:induction false} SeenAt(stacks: seq<Stack>, i: nat, c: Container)
    requires Distinct(stacks) && i < |stacks| && c in stacks[i].containers && c.managed
    ensures c.name in Seen(stacks) && Seen(stacks)[c.name] == c.status
  {
    var init, st := stacks[..|stacks| - 1], stacks[|stacks| - 1];
    if i == |stacks| - 1 {
      SeenInHere(st.containers, Seen(init), c);
    } else {
      SeenAt(init, i, c);
      assert Apart(stacks[i].containers, st.containers);
      SeenInElsewhere(st.containers, Seen(init), c.name);
    }
  }

  lemma {:induction false} SeenInElsewhere(cs: seq<Container>, seen: Statuses, name: string)
    requires forall d :: d in cs ==> d.name != name
    ensures name in SeenIn(cs, seen) <==> name in seen
    ensures name in seen ==> SeenIn(cs, seen)[name] == seen[name]
  {
    if cs != [] {
      assert cs[|cs| - 1] in cs;
      SeenInElsewhere(cs[..|cs| - 1], seen, name);
    }
  }

  lemma {:induction false} SeenInHere(cs: seq<Container>, seen: Statuses, c: Container)
    requires DistinctNames(cs) && c in cs && c.managed
    ensures c.name in SeenIn(cs, seen) && SeenIn(cs, seen)[c.name] == c.status
  {
    if cs[|cs| - 1] != c {
      var i :| 0 <= i < |cs| - 1 && cs[i] == c;
      assert cs[i].name != cs[|cs| - 1].name;
      assert cs[..|cs| - 1][i] == c;
      SeenInHere(cs[..|cs| - 1], seen, c);
    }
  }

  /** A container that keeps its status from one sweep to the next is not mentioned
      by the second; the first mention of a new one is silent. */
  lemma SteadyIsSilent(stacks: seq<Stack>, stacks': seq<Stack>, i: nat, i': nat, c: Container, status: Status)
    requires Distinct(stacks) && i < |stacks| && c in stacks[i].containers && c.managed
    requires Distinct(stacks') && i' < |stacks'| && c in stacks'[i'].containers
    ensures Count(NowIs(c.name, status), Told(Seen(stacks), stacks')) == 0
    ensures Count(WasRemoved(c.name), Told(Seen(stacks), stacks')) == 0
  {
    SeenAt(stacks, i, c);
    ChangesAreToldExactly(Seen(stacks), stacks', i', c, status);
    RemovalsAreCoveredOnce(Seen(stacks), stacks', i', c);
  }
}
