/** internal/raidwatch/raidwatch.go, sweep and checkTransitions: announcing what
    changed about a RAID array between two looks at it. */
module RaidTransitions {
  import opened Wrappers

  datatype ArrayState = Healthy | Degraded | Recovering | Failed

  datatype Member = Member(device: string, up: bool)

  datatype MdArray = MdArray(name: string, state: ArrayState, action: string, members: seq<Member>)

  /** What is remembered of an array between sweeps. */
  datatype Base = Base(state: ArrayState, action: string, members: map<string, bool>)

  /** The things about an array whose changes are announced. */
  datatype Aspect = Scan(md: string) | Health(md: string) | Disk(md: string, device: string)

  /** An announcement: a scan started or finished, an array turned bad or recovered,
      a disk came up or went down, as `now` is true or false. */
  datatype Note = Note(about: Aspect, now: bool)

  predicate IsBad(s: ArrayState) {
    s == Degraded || s == Failed
  }

  /** Names are distinct, as the kernel's are. */
  ghost predicate Distinct(arrays: seq<MdArray>) {
    && (forall i, j :: 0 <= i < j < |arrays| ==> arrays[i].name != arrays[j].name)
    && (forall i :: 0 <= i < |arrays| ==> DistinctMembers(arrays[i].members))
  }

  ghost predicate DistinctMembers(members: seq<Member>) {
    forall i, j :: 0 <= i < j < |members| ==> members[i].device != members[j].device
  }

  // ---- Observations ----

  function MemberUp(members: seq<Member>, device: string): Option<bool> {
    if members == [] then None
    else if members[|members| - 1].device == device then Some(members[|members| - 1].up)
    else MemberUp(members[..|members| - 1], device)
  }

  function Look(x: Aspect, a: MdArray): Option<bool> {
    match x
    case Scan(_) => Some(a.action == "check")
    case Health(_) => Some(IsBad(a.state))
    case Disk(_, device) => MemberUp(a.members, device)
  }

  /** What a look at the arrays tells about an aspect, if anything. */
  function Saw(x: Aspect, arrays: seq<MdArray>): Option<bool> {
    if arrays == [] then None
    else if arrays[|arrays| - 1].name == x.md then Look(x, arrays[|arrays| - 1])
    else Saw(x, arrays[..|arrays| - 1])
  }

  function Recall(x: Aspect, b: Base): Option<bool> {
    match x
    case Scan(_) => Some(b.action == "check")
    case Health(_) => Some(IsBad(b.state))
    case Disk(_, device) => if device in b.members then Some(b.members[device]) else None
  }

  function Remembered(x: Aspect, baseline: map<string, Base>): Option<bool> {
    if x.md in baseline then Recall(x, baseline[x.md]) else None
  }

  /** An aspect is announced when it differs from when it was last seen, just before. */
  function Edge(prev: Option<bool>, cur: Option<bool>): seq<bool> {
    if prev.Some? && cur.Some? && prev != cur then [cur.value] else []
  }

  /** The announcements about one aspect, in order. */
  function Heard(x: Aspect, notes: seq<Note>): seq<bool> {
    if notes == [] then []
    else Heard(x, notes[..|notes| - 1]) + if notes[|notes| - 1].about == x then [notes[|notes| - 1].now] else []
  }

  lemma {:induction false} SawNone(x: Aspect, arrays: seq<MdArray>)
    requires forall i :: 0 <= i < |arrays| ==> arrays[i].name != x.md
    ensures Saw(x, arrays) == None
  {
    if arrays != [] {
      SawNone(x, arrays[..|arrays| - 1]);
    }
  }

  // ---- The watcher ----

  class TransitionWatcher {
    var baseline: map<string, Base>
    var lastScan: map<string, int>
    var notes: seq<Note>

    constructor ()
      ensures baseline == map[] && lastScan == map[] && notes == []
    {
      baseline, lastScan, notes := map[], map[], [];
    }

    method Announce(about: Aspect, now: bool)
      modifies this`notes
      ensures notes == old(notes) + [Note(about, now)]
    {
      notes := notes + [Note(about, now)];
    }

    method NotifyScan(a: MdArray, prev: Base) returns (finished: bool)
      modifies this`notes
      ensures forall x :: Heard(x, notes) == Heard(x, old(notes)) + (if x == Scan(a.name) then News(x, a, prev) else [])
      ensures finished <==> News(Scan(a.name), a, prev) == [false]
    {
      var was, now := prev.action == "check", a.action == "check";
      finished := false;
      if !was && now {
        Announce(Scan(a.name), true);
      } else if was && !now {
        Announce(Scan(a.name), false);
        finished := true;
      }
    }

    method NotifyHealth(a: MdArray, prev: Base)
      modifies this`notes
      ensures forall x :: Heard(x, notes) == Heard(x, old(notes)) + (if x == Health(a.name) then News(x, a, prev) else [])
    {
      var wasBad, isBad := IsBad(prev.state), IsBad(a.state);
      if !wasBad && isBad {
        Announce(Health(a.name), true);
      } else if wasBad && !isBad {
        Announce(Health(a.name), false);
      }
    }

    method NotifyDisk(name: string, m: Member, prev: Base)
      modifies this`notes
      ensures forall x :: Heard(x, notes) == Heard(x, old(notes)) +
                                             (if x == Disk(name, m.device) then Edge(Recall(x, prev), Some(m.up)) else [])
    {
      if m.device in prev.members {
        var wasUp := prev.members[m.device];
        if wasUp && !m.up {
          Announce(Disk(name, m.device), false);
        } else if !wasUp && m.up {
          Announce(Disk(name, m.device), true);
        }
      }
    }

    method NotifyDisks(a: MdArray, prev: Base)
      requires DistinctMembers(a.members)
      modifies this`notes
      ensures forall x :: Heard(x, notes) == Heard(x, old(notes)) + DiskNews(x, a.name, a.members, prev)
    {
      for j := 0 to |a.members|
        invariant forall x :: Heard(x, notes) == Heard(x, old(notes)) + DiskNews(x, a.name, a.members[..j], prev)
      {
        assert a.members[..j+1][..j] == a.members[..j];
        NotBefore(a.members, j);
        NotifyDisk(a.name, a.members[j], prev);
      }
      assert a.members[..|a.members|] == a.members;
    }

    /** Everything there is to say about one array. */
    method NotifyArray(a: MdArray, prev: Base) returns (finished: bool)
      requires DistinctMembers(a.members)
      modifies this`notes
      ensures forall x :: Heard(x, notes) == Heard(x, old(notes)) + (if x.md == a.name then News(x, a, prev) else [])
      ensures finished <==> News(Scan(a.name), a, prev) == [false]
    {
      finished := NotifyScan(a, prev);
      NotifyHealth(a, prev);
      NotifyDisks(a, prev);
    }

    method Snapshot(a: MdArray) returns (b: Base)
      ensures forall x: Aspect :: x.md == a.name ==> Recall(x, b) == Look(x, a)
    {
      var members: map<string, bool> := map[];
      for j := 0 to |a.members|
        invariant forall device :: (if device in members then Some(members[device]) else None) == MemberUp(a.members[..j], device)
      {
        assert a.members[..j+1][..j] == a.members[..j];
        members := members[a.members[j].device := a.members[j].up];
      }
      assert a.members[..|a.members|] == a.members;
      b := Base(a.state, a.action, members);
    }

    /** Announces what changed about one array, and whether it finished a scan. */
    method CheckOne(a: MdArray, now: int)
      requires DistinctMembers(a.members)
      modifies this`notes, this`lastScan
      ensures forall x :: Heard(x, notes) == Heard(x, old(notes)) + (if x.md == a.name then Edge(Remembered(x, baseline), Look(x, a)) else [])
      ensures LastAt(a.name, lastScan) ==
              if Edge(Remembered(Scan(a.name), baseline), Look(Scan(a.name), a)) == [false] then Some(now) else LastAt(a.name, old(lastScan))
      ensures forall n :: n != a.name ==> LastAt(n, lastScan) == LastAt(n, old(lastScan))
    {
      if a.name in baseline {
        var finished := NotifyArray(a, baseline[a.name]);
        if finished {
          lastScan := lastScan[a.name := now];
        }
      }
    }

    /** Does so, and remembers the array as it is now. */
    method CheckAndRemember(a: MdArray, now: int, next: map<string, Base>) returns (next': map<string, Base>)
      requires DistinctMembers(a.members)
      modifies this`notes, this`lastScan
      ensures forall x :: Heard(x, notes) == Heard(x, old(notes)) + (if x.md == a.name then Edge(Remembered(x, baseline), Look(x, a)) else [])
      ensures LastAt(a.name, lastScan) ==
              if Edge(Remembered(Scan(a.name), baseline), Look(Scan(a.name), a)) == [false] then Some(now) else LastAt(a.name, old(lastScan))
      ensures forall n :: n != a.name ==> LastAt(n, lastScan) == LastAt(n, old(lastScan))
      ensures forall x :: Remembered(x, next') == if x.md == a.name then Look(x, a) else Remembered(x, next)
    {
      CheckOne(a, now);
      var cur := Snapshot(a);
      next' := next[a.name := cur];
    }

    /** Announces what changed since the last sweep, remembers what is seen now, and
        notes when scans finished. */
    method CheckTransitions(arrays: seq<MdArray>, now: int)
      requires Distinct(arrays)
      modifies this
      ensures forall x :: Heard(x, notes) == Heard(x, old(notes)) + Edge(Remembered(x, old(baseline)), Saw(x, arrays))
      ensures forall x :: Remembered(x, baseline) == Saw(x, arrays)
      ensures forall n :: LastAt(n, lastScan) == LastAfter(n, old(baseline), arrays, LastAt(n, old(lastScan)), now)
    {
      var next: map<string, Base> := map[];
      for i := 0 to |arrays|
        invariant baseline == old(baseline)
        invariant forall x :: Heard(x, notes) == Heard(x, old(notes)) + Edge(Remembered(x, baseline), Saw(x, arrays[..i]))
        invariant forall x :: Remembered(x, next) == Saw(x, arrays[..i])
        invariant forall n :: LastAt(n, lastScan) == LastAfter(n, baseline, arrays[..i], LastAt(n, old(lastScan)), now)
      {
        SawNext(arrays, i);
        next := CheckAndRemember(arrays[i], now, next);
      }
      assert arrays[..|arrays|] == arrays;
      baseline := next;
    }

    /** One pass. An empty scan means there was nothing to read, and is ignored. */
    method Sweep(arrays: seq<MdArray>, now: int)
      requires Distinct(arrays)
      modifies this
      ensures arrays == [] ==> notes == old(notes) && baseline == old(baseline) && lastScan == old(lastScan)
      ensures arrays != [] ==>
        forall x :: Heard(x, notes) == Heard(x, old(notes)) + Edge(Remembered(x, old(baseline)), Saw(x, arrays))
      ensures arrays != [] ==> forall x :: Remembered(x, baseline) == Saw(x, arrays)
      ensures arrays != [] ==>
        forall n :: LastAt(n, lastScan) == LastAfter(n, old(baseline), arrays, LastAt(n, old(lastScan)), now)
    {
      if |arrays| == 0 {
        return;
      }
      CheckTransitions(arrays, now);
    }

    /** What is remembered, announced and noted follows from the sights of a run that
        began with the given state. */
    ghost predicate Accounts(baseline0: map<string, Base>, notes0: seq<Note>, lastScan0: map<string, int>, sights: seq<Sight>)
      reads this
    {
      && (forall x :: Remembered(x, baseline) == Last(History(x, baseline0, sights)))
      && (forall x :: Heard(x, notes) == Heard(x, notes0) + Edges(History(x, baseline0, sights)))
      && (forall n :: LastAt(n, lastScan) == LastFinish(n, baseline0, sights, LastAt(n, lastScan0)))
    }

    method SweepNext(s: Sight, ghost baseline0: map<string, Base>, ghost notes0: seq<Note>, ghost lastScan0: map<string, int>, ghost before: seq<Sight>)
      requires Distinct(s.arrays) && Accounts(baseline0, notes0, lastScan0, before)
      modifies this
      ensures Accounts(baseline0, notes0, lastScan0, before + [s])
    {
      ghost var sights := before + [s];
      assert sights[..|before|] == before;
      Sweep(s.arrays, s.at);
      forall x ensures Heard(x, notes) == Heard(x, notes0) + Edges(History(x, baseline0, sights)) {
        HeardNext(x, baseline0, before, s, Heard(x, notes0), Heard(x, old(notes)), Heard(x, notes));
      }
    }

    /** A whole run of sweeps: each aspect is announced exactly at the edges between
        consecutive observations of it, and the last scan of an array is when it was
        last seen to finish one. */
    method Watch(sights: seq<Sight>)
      requires forall i :: 0 <= i < |sights| ==> Distinct(sights[i].arrays)
      modifies this
      ensures forall x :: Heard(x, notes) == Heard(x, old(notes)) + Edges(History(x, old(baseline), sights))
      ensures forall x :: Remembered(x, baseline) == Last(History(x, old(baseline), sights))
      ensures forall n :: LastAt(n, lastScan) == LastFinish(n, old(baseline), sights, LastAt(n, old(lastScan)))
    {
      for i := 0 to |sights|
        invariant Accounts(old(baseline), old(notes), old(lastScan), sights[..i])
      {
        assert sights[..i+1] == sights[..i] + [sights[i]];
        SweepNext(sights[i], old(baseline), old(notes), old(lastScan), sights[..i]);
      }
      assert sights[..|sights|] == sights;
    }
  }

  lemma SawNext(arrays: seq<MdArray>, i: nat)
    requires Distinct(arrays) && i < |arrays|
    ensures forall x: Aspect :: x.md != arrays[i].name ==> Saw(x, arrays[..i+1]) == Saw(x, arrays[..i])
    ensures forall x: Aspect :: x.md == arrays[i].name ==> Saw(x, arrays[..i]) == None && Saw(x, arrays[..i+1]) == Look(x, arrays[i])
  {
    assert arrays[..i+1][..i] == arrays[..i];
    forall x: Aspect | x.md == arrays[i].name ensures Saw(x, arrays[..i]) == None {
      SawNone(x, arrays[..i]);
    }
  }

  function LastAt(n: string, lastScan: map<string, int>): Option<int> {
    if n in lastScan then Some(lastScan[n]) else None
  }

  /** When an array is known to have finished a scan, after one more sweep. */
  function LastAfter(n: string, baseline: map<string, Base>, arrays: seq<MdArray>, before: Option<int>, now: int): Option<int> {
    if Edge(Remembered(Scan(n), baseline), Saw(Scan(n), arrays)) == [false] then Some(now) else before
  }

  // ---- Runs ----

  /** One look at the arrays, and when. */
  datatype Sight = Sight(arrays: seq<MdArray>, at: int)

  /** The observations of an aspect in a run, from what was remembered at its start. */
  function History(x: Aspect, baseline: map<string, Base>, sights: seq<Sight>): (r: seq<Option<bool>>)
    ensures r != []
  {
    if sights == [] then [Remembered(x, baseline)]
    else
      var before := History(x, baseline, sights[..|sights| - 1]);
      if sights[|sights| - 1].arrays == [] then before else before + [Saw(x, sights[|sights| - 1].arrays)]
  }

  function Last(obs: seq<Option<bool>>): Option<bool>
    requires obs != []
  {
    obs[|obs| - 1]
  }

  function Edges(obs: seq<Option<bool>>): seq<bool> {
    if |obs| < 2 then []
    else Edges(obs[..|obs| - 1]) + Edge(obs[|obs| - 2], obs[|obs| - 1])
  }

  /** The time of the last sight at which an array's scan was seen to be over. */
  function LastFinish(n: string, baseline: map<string, Base>, sights: seq<Sight>, before: Option<int>): Option<int> {
    if sights == [] then before
    else
      var init, last := sights[..|sights| - 1], sights[|sights| - 1];
      if last.arrays != [] && Edge(Last(History(Scan(n), baseline, init)), Saw(Scan(n), last.arrays)) == [false] then Some(last.at)
      else LastFinish(n, baseline, init, before)
  }

  lemma HistoryStep(x: Aspect, baseline: map<string, Base>, sights: seq<Sight>)
    requires sights != []
    ensures
      var before, arrays := History(x, baseline, sights[..|sights| - 1]), sights[|sights| - 1].arrays;
      if arrays == [] then History(x, baseline, sights) == before
      else
        && History(x, baseline, sights) == before + [Saw(x, arrays)]
        && Edges(before + [Saw(x, arrays)]) == Edges(before) + Edge(Last(before), Saw(x, arrays))
  {
    var before, saw := History(x, baseline, sights[..|sights| - 1]), Saw(x, sights[|sights| - 1].arrays);
    assert (before + [saw])[..|before|] == before;
  }

  lemma HeardNext(x: Aspect, baseline: map<string, Base>, before: seq<Sight>, s: Sight,
                  heard0: seq<bool>, heard1: seq<bool>, heard2: seq<bool>)
    requires heard1 == heard0 + Edges(History(x, baseline, before))
    requires heard2 == heard1 + if s.arrays == [] then [] else Edge(Last(History(x, baseline, before)), Saw(x, s.arrays))
    ensures heard2 == heard0 + Edges(History(x, baseline, before + [s]))
  {
    assert (before + [s])[..|before|] == before;
    HistoryStep(x, baseline, before + [s]);
  }

  lemma SameStep(x: Aspect, baseline: map<string, Base>, one: seq<Sight>, two: seq<Sight>)
    requires one != [] && two != [] && one[|one| - 1] == two[|two| - 1]
    requires History(x, baseline, one[..|one| - 1]) == History(x, baseline, two[..|two| - 1])
    ensures History(x, baseline, one) == History(x, baseline, two)
  {
  }

  /** Sweeps that find nothing to read might as well not have happened. */
  lemma {:induction false} EmptySweepsDoNotMatter(x: Aspect, baseline: map<string, Base>, a: seq<Sight>, b: seq<Sight>, at: int)
    ensures History(x, baseline, a + [Sight([], at)] + b) == History(x, baseline, a + b)
    decreases |b|
  {
    var empty := Sight([], at);
    var with, without := a + [empty] + b, a + b;
    if b == [] {
      assert with[..|with| - 1] == a && without == a;
    } else {
      var init := b[..|b| - 1];
      EmptySweepsDoNotMatter(x, baseline, a, init, at);
      assert with[..|with| - 1] == a + [empty] + init && without[..|without| - 1] == a + init;
      assert with[|with| - 1] == without[|without| - 1];
      SameStep(x, baseline, with, without);
    }
  }

  ghost predicate Alternating(edges: seq<bool>) {
    forall i :: 0 < i < |edges| ==> edges[i] != edges[i - 1]
  }

  ghost predicate AlwaysSeen(obs: seq<Option<bool>>) {
    forall i :: 0 <= i < |obs| ==> obs[i].Some?
  }

  /** The edges between observations all of which show something alternate. */
  lemma {:induction false} EdgesAlternate(obs: seq<Option<bool>>)
    requires obs != [] && AlwaysSeen(obs)
    ensures
      var e := Edges(obs);
      && Alternating(e)
      && (e == [] ==> Last(obs) == obs[0])
      && (e != [] ==> Some(e[0]) != obs[0] && Some(e[|e| - 1]) == Last(obs))
  {
    if |obs| > 1 {
      EdgesAlternate(obs[..|obs| - 1]);
    }
  }

  lemma {:induction false} HistorySeen(x: Aspect, baseline: map<string, Base>, sights: seq<Sight>)
    requires Remembered(x, baseline).Some?
    requires forall s :: s in sights && s.arrays != [] ==> Saw(x, s.arrays).Some?
    ensures AlwaysSeen(History(x, baseline, sights)) && History(x, baseline, sights)[0] == Remembered(x, baseline)
    ensures forall s :: s in sights && s.arrays != [] ==> |History(x, baseline, sights)| > 1
  {
    if sights != [] {
      HistorySeen(x, baseline, sights[..|sights| - 1]);
      assert sights[|sights| - 1] in sights;
    }
  }

  /** While an array, and if a disk is meant that member of it, stays in the scans,
      what is heard of it over a run alternates, begins with a change from what was
      remembered, and ends with what is remembered in the end. */
  lemma AnnouncementsAlternate(x: Aspect, baseline: map<string, Base>, sights: seq<Sight>, baseline': map<string, Base>)
    requires Remembered(x, baseline).Some?
    requires forall s :: s in sights && s.arrays != [] ==> Saw(x, s.arrays).Some?
    requires Remembered(x, baseline') == Last(History(x, baseline, sights))
    ensures
      var heard := Edges(History(x, baseline, sights));
      && Alternating(heard)
      && (heard == [] ==> Remembered(x, baseline') == Remembered(x, baseline))
      && (heard != [] ==> Some(heard[0]) != Remembered(x, baseline) && Some(heard[|heard| - 1]) == Remembered(x, baseline'))
  {
    HistorySeen(x, baseline, sights);
    EdgesAlternate(History(x, baseline, sights));
  }

  /** A sight in which an aspect reads `v`. */
  function Showing(x: Aspect, v: bool): Sight {
    Sight([MdArray(x.md, if v then Degraded else Healthy, if v then "check" else "idle",
                   if x.Disk? then [Member(x.device, v)] else [])], 0)
  }

  /** For every aspect there is a run in which its array is missing from one scan
      that shows another, and which announces the same twice in a row: an array not
      seen for once is forgotten, and its return is silent. */
  lemma AbsenceBreaksAlternation(x: Aspect, other: string) returns (sights: seq<Sight>)
    requires other != x.md
    ensures forall s :: s in sights ==> s.arrays != [] && Distinct(s.arrays)
    ensures Edges(History(x, map[], sights)) == [true, true]
  {
    var gone := Sight([MdArray(other, Healthy, "idle", [])], 0);
    ShownAs(x, false);
    ShownAs(x, true);
    assert gone.arrays[..0] == [] && Saw(x, gone.arrays) == None;
    sights := RepeatedAfter(x, Showing(x, false), Showing(x, true), gone);
  }

  lemma RepeatedAfter(x: Aspect, off: Sight, on: Sight, gone: Sight) returns (sights: seq<Sight>)
    requires off.arrays != [] && on.arrays != [] && gone.arrays != []
    requires Saw(x, off.arrays) == Some(false) && Saw(x, on.arrays) == Some(true) && Saw(x, gone.arrays) == None
    ensures sights == [off, on, gone, off, on] && Edges(History(x, map[], sights)) == [true, true]
  {
    sights := [off, on, gone, off, on];
    FullHistory(x, sights);
    RepeatedEdges(History(x, map[], sights));
  }

  /** From scratch, and with no empty scan, the history is what each sight shows. */
  lemma {:induction false} FullHistory(x: Aspect, sights: seq<Sight>)
    requires forall i :: 0 <= i < |sights| ==> sights[i].arrays != []
    ensures
      var obs := History(x, map[], sights);
      && |obs| == |sights| + 1 && obs[0] == None
      && forall n :: 1 <= n <= |sights| ==> obs[n] == Saw(x, sights[n - 1].arrays)
  {
    if sights != [] {
      FullHistory(x, sights[..|sights| - 1]);
    }
  }

  lemma RepeatedEdges(obs: seq<Option<bool>>)
    requires |obs| == 6 && obs[0] == None && obs[1] == Some(false) && obs[2] == Some(true)
    requires obs[3] == None && obs[4] == Some(false) && obs[5] == Some(true)
    ensures Edges(obs) == [true, true]
  {
    EdgesUpTo(obs, 1);
    EdgesUpTo(obs, 2);
    EdgesUpTo(obs, 3);
    EdgesUpTo(obs, 4);
    EdgesUpTo(obs, 5);
    assert obs[..6] == obs;
  }

  lemma EdgesUpTo(obs: seq<Option<bool>>, n: nat)
    requires 1 <= n < |obs|
    ensures Edges(obs[..n + 1]) == Edges(obs[..n]) + Edge(obs[n - 1], obs[n])
    ensures n == 1 ==> Edges(obs[..n]) == []
  {
    assert obs[..n + 1][..n] == obs[..n];
  }

  lemma ShownAs(x: Aspect, v: bool)
    ensures Saw(x, Showing(x, v).arrays) == Some(v) && Distinct(Showing(x, v).arrays)
  {
  }

  /** The first sight of anything is silent, and so is every return: an announcement
      is only ever made of something seen differently one sweep before. */
  lemma {:induction false} EveryEdgeIsSeen(obs: seq<Option<bool>>, k: nat) returns (i: nat)
    requires k < |Edges(obs)|
    ensures 0 < i < |obs| && obs[i] == Some(Edges(obs)[k]) && obs[i - 1] == Some(!Edges(obs)[k])
  {
    if k < |Edges(obs[..|obs| - 1])| {
      i := EveryEdgeIsSeen(obs[..|obs| - 1], k);
    } else {
      i := |obs| - 1;
      assert Edge(obs[i - 1], obs[i]) == [obs[i].value] && obs[i - 1].value != obs[i].value;
    }
  }

  /** What is new about an array, compared with what is remembered of it. */
  function News(x: Aspect, a: MdArray, prev: Base): seq<bool> {
    Edge(Recall(x, prev), Look(x, a))
  }

  function DiskNews(x: Aspect, name: string, members: seq<Member>, prev: Base): seq<bool> {
    if x.Disk? && x.md == name then Edge(Recall(x, prev), MemberUp(members, x.device)) else []
  }

  lemma {:induction false} NotBefore(members: seq<Member>, j: nat)
    requires DistinctMembers(members) && j < |members|
    ensures MemberUp(members[..j], members[j].device) == None
    decreases j
  {
    NotAmong(members[..j], members[j].device);
  }

  lemma {:induction false} NotAmong(members: seq<Member>, device: string)
    requires forall i :: 0 <= i < |members| ==> members[i].device != device
    ensures MemberUp(members, device) == None
  {
    if members != [] {
      NotAmong(members[..|members| - 1], device);
    }
  }
}
