/** internal/store/events.go: the event log, and reading it page by page while it
    grows and is pruned. */
module Events {
  import opened Wrappers
  import opened Strings
  import opened Numbers
  import Like

  const DEFAULT_EVENT_LIMIT := 50
  const MAX_EVENT_LIMIT := 200

  const LEAST_INT64 := -0x8000_0000_0000_0000
  const MOST_INT64 := 0x7fff_ffff_ffff_ffff

  datatype Event = Event(id: int, kind: string, title: string, body: string, container: string, stack: string, createdAt: int)

  /** What the log is ordered by, newest first, and a cursor points at. */
  datatype Key = Key(createdAt: int, id: int)

  function KeyOf(e: Event): Key {
    Key(e.createdAt, e.id)
  }

  predicate Older(a: Key, b: Key) {
    a.createdAt < b.createdAt || (a.createdAt == b.createdAt && a.id < b.id)
  }

  /** Empty filters keep everything. */
  datatype Filter = Filter(kind: string, container: string, stack: string, search: string)

  predicate Keeps(f: Filter, e: Event) {
    && (f.kind == "" || e.kind == f.kind)
    && (f.container == "" || e.container == f.container)
    && (f.stack == "" || e.stack == f.stack)
    && (f.search == "" ||
        Like.Matches("%" + Like.EscapeLike(f.search) + "%", e.title) ||
        Like.Matches("%" + Like.EscapeLike(f.search) + "%", e.body))
  }

  /** A search keeps the rows whose title or body contains it. */
  lemma SearchKeepsWhatContainsIt(f: Filter, e: Event)
    requires f.search != ""
    ensures Keeps(f, e) ==> Like.Occurs(f.search, e.title) || Like.Occurs(f.search, e.body)
    ensures Keeps(f.(search := ""), e) && (Like.Occurs(f.search, e.title) || Like.Occurs(f.search, e.body)) ==> Keeps(f, e)
  {
    Like.SearchIsLiteral(f.search, e.title);
    Like.SearchIsLiteral(f.search, e.body);
  }

  // ---- Cursors ----

  /** strconv.ParseInt(s, 10, 64). */
  function ParseInt(s: string): Option<int> {
    var (negative, digits) :=
      if s != "" && s[0] == '-' then (true, s[1..])
      else if s != "" && s[0] == '+' then (false, s[1..])
      else (false, s);
    match FromDigits(digits)
    case None => None
    case Some(n) =>
      var value := (if negative then -1 else 1) * n;
      if digits != "" && LEAST_INT64 <= value <= MOST_INT64 then Some(value) else None
  }

  function EncodeCursor(k: Key): string {
    IntText(k.createdAt) + "_" + IntText(k.id)
  }

  function DecodeCursor(cursor: string): Option<Key> {
    var i := IndexOf(cursor, '_');
    if i == |cursor| then None
    else match (ParseInt(cursor[..i]), ParseInt(cursor[i + 1..]))
      case (Some(createdAt), Some(id)) => Some(Key(createdAt, id))
      case _ => None
  }

  lemma IntRoundTrip(n: int)
    requires LEAST_INT64 <= n <= MOST_INT64
    ensures ParseInt(IntText(n)) == Some(n) && '_' !in IntText(n)
  {
    DigitsRoundTrip(if n < 0 then -n else n);
    if n < 0 {
      assert IntText(n)[1..] == DigitsOf(-n);
    }
  }

  /** A cursor leads back to the row it was made from. */
  lemma CursorRoundTrip(k: Key)
    requires LEAST_INT64 <= k.createdAt <= MOST_INT64 && LEAST_INT64 <= k.id <= MOST_INT64
    ensures DecodeCursor(EncodeCursor(k)) == Some(k) && EncodeCursor(k) != ""
  {
    IntRoundTrip(k.createdAt);
    IntRoundTrip(k.id);
    var a, b := IntText(k.createdAt), IntText(k.id);
    assert EncodeCursor(k) == a + ['_'] + b;
    IndexOfAfter(a, '_', b);
    assert EncodeCursor(k)[..|a|] == a && EncodeCursor(k)[|a| + 1..] == b;
  }

  // ---- Pages ----

  ghost predicate Descending(items: seq<Event>) {
    forall i, j :: 0 <= i < j < |items| ==> Older(KeyOf(items[j]), KeyOf(items[i]))
  }

  /** A row a page below `below` may show. */
  predicate Wanted(f: Filter, below: Option<Key>, e: Event) {
    Keeps(f, e) && (below.Some? ==> Older(KeyOf(e), below.value))
  }

  function Clamp(limit: int): nat {
    if limit <= 0 then DEFAULT_EVENT_LIMIT else if limit > MAX_EVENT_LIMIT then MAX_EVENT_LIMIT else limit
  }

  /** The newest `limit` wanted rows, newest first; `more` says whether there are others. */
  ghost predicate IsPage(rows: map<int, Event>, f: Filter, below: Option<Key>, limit: nat, items: seq<Event>, more: bool) {
    && Descending(items) && |items| <= limit
    && (forall e :: e in items ==> e.id in rows && rows[e.id] == e && Wanted(f, below, e))
    && (forall id :: id in rows && Wanted(f, below, rows[id]) && rows[id] !in items ==>
          more && |items| == limit && forall e :: e in items ==> Older(KeyOf(rows[id]), KeyOf(e)))
    && (more ==> exists id :: id in rows && Wanted(f, below, rows[id]) && rows[id] !in items)
  }

  datatype Page = Page(items: seq<Event>, next: string)

  class EventLog {
    var rows: map<int, Event>
    var sequence: int  // the largest id ever given out; AUTOINCREMENT does not go back

    ghost predicate Valid()
      reads this
    {
      && 0 <= sequence <= MOST_INT64
      && forall id :: id in rows ==> 0 < id <= sequence && rows[id].id == id && LEAST_INT64 <= rows[id].createdAt <= MOST_INT64
    }

    constructor ()
      ensures Valid() && rows == map[]
    {
      rows, sequence := map[], 0;
    }

    /** AppendEvent. Fails only when ids have run out. */
    method Append(ev: Event, now: int) returns (r: Option<Event>)
      requires Valid() && LEAST_INT64 <= ev.createdAt <= MOST_INT64 && LEAST_INT64 <= now <= MOST_INT64
      modifies this
      ensures Valid() && (r.None? <==> old(sequence) == MOST_INT64)
      ensures r.None? ==> rows == old(rows)
      ensures r.Some? ==>
        && r.value == ev.(id := r.value.id, createdAt := if ev.createdAt == 0 then now else ev.createdAt)
        && r.value.id == old(sequence) + 1 == sequence && r.value.id !in old(rows)
        && rows == old(rows)[r.value.id := r.value]
    {
      if sequence == MOST_INT64 {
        return None;
      }
      sequence := sequence + 1;
      var stored := ev.(id := sequence, createdAt := if ev.createdAt == 0 then now else ev.createdAt);
      rows := rows[sequence := stored];
      r := Some(stored);
    }

    /** PruneEventsOlderThan. */
    method Prune(cutoff: int) returns (removed: nat)
      requires Valid()
      modifies this`rows
      ensures Valid()
      ensures cutoff <= 0 ==> rows == old(rows) && removed == 0
      ensures cutoff > 0 ==>
        rows == (map id | id in old(rows) && old(rows)[id].createdAt >= cutoff :: old(rows)[id]) && removed == |old(rows)| - |rows|
    {
      if cutoff <= 0 {
        return 0;
      }
      var kept := map id | id in rows && rows[id].createdAt >= cutoff :: rows[id];
      assert kept.Keys <= rows.Keys;
      FewerRows(kept, rows);
      removed := |rows| - |kept|;
      rows := kept;
    }

    /** SELECT ... WHERE ... ORDER BY created_at DESC, id DESC LIMIT n. */
    method Select(f: Filter, below: Option<Key>, n: nat) returns (items: seq<Event>)
      requires Valid()
      ensures Descending(items) && |items| <= n
      ensures forall e :: e in items ==> e.id in rows && rows[e.id] == e && Wanted(f, below, e)
      ensures forall id :: id in rows && Wanted(f, below, rows[id]) && rows[id] !in items ==>
        |items| == n && forall e :: e in items ==> Older(KeyOf(rows[id]), KeyOf(e))
    {
      items := [];
      var left := set id | id in rows && Wanted(f, below, rows[id]) :: rows[id];
      while left != {} && |items| < n
        invariant Descending(items) && |items| <= n
        invariant forall e :: e in left ==> e.id in rows && rows[e.id] == e && Wanted(f, below, e)
        invariant forall e :: e in items ==> e.id in rows && rows[e.id] == e && Wanted(f, below, e)
        invariant forall id :: id in rows && Wanted(f, below, rows[id]) ==> rows[id] in left || rows[id] in items
        invariant forall e, e' :: e in left && e' in items ==> Older(KeyOf(e), KeyOf(e'))
        decreases left
      {
        var e := Newest(left);
        left := left - {e};
        items := items + [e];
      }
    }

    /** ListEvents. Fails only on a malformed cursor. */
    method List(f: Filter, cursor: string, limit: int) returns (r: Result<Page, ()>)
      requires Valid()
      ensures r.Failure? <==> cursor != "" && DecodeCursor(cursor).None?
      ensures r.Success? ==>
        var below := if cursor == "" then None else DecodeCursor(cursor);
        && IsPage(rows, f, below, Clamp(limit), r.value.items, r.value.next != "")
        && (r.value.next != "" ==> DecodeCursor(r.value.next) == Some(KeyOf(r.value.items[|r.value.items| - 1])))
    {
      var below := None;
      if cursor != "" {
        below := DecodeCursor(cursor);
        if below.None? {
          return Failure(());
        }
      }
      var n := Clamp(limit);
      var items := Select(f, below, n + 1);
      if |items| <= n {
        return Success(Page(items, ""));
      }
      var page := items[..n];
      var last := items[n - 1];
      NotEarlier(items, n);
      CursorRoundTrip(KeyOf(last));
      r := Success(Page(page, EncodeCursor(KeyOf(last))));
    }
  }

  /** The newest of some rows with ids of their own. */
  method Newest(events: set<Event>) returns (e: Event)
    requires events != {} && forall a, b :: a in events && b in events && a.id == b.id ==> a == b
    ensures e in events && forall other :: other in events && other != e ==> Older(KeyOf(other), KeyOf(e))
  {
    e :| e in events;
    var rest := events - {e};
    while rest != {}
      invariant e in events && e !in rest && rest <= events
      invariant forall other :: other in events - rest && other != e ==> Older(KeyOf(other), KeyOf(e))
    {
      var next :| next in rest;
      rest := rest - {next};
      if Older(KeyOf(e), KeyOf(next)) {
        e := next;
      }
    }
  }

  lemma NotEarlier(items: seq<Event>, n: nat)
    requires Descending(items) && n < |items|
    ensures items[n] !in items[..n]
  {
    forall i | 0 <= i < n ensures items[i] != items[n] {
      assert Older(KeyOf(items[n]), KeyOf(items[i]));
    }
  }

  lemma FewerRows(a: map<int, Event>, b: map<int, Event>)
    requires a.Keys <= b.Keys
    ensures |a| <= |b|
  {
    assert |a| == |a.Keys| && |b| == |b.Keys|;
    var rest := b.Keys - a.Keys;
    assert b.Keys == a.Keys + rest;
  }

  // ---- Walking the log while it changes ----

  /** One page of a walk, and the table it was read from. */
  datatype Visit = Visit(rows: map<int, Event>, limit: int, items: seq<Event>, more: bool)

  function Cursor(visits: seq<Visit>): Option<Key> {
    if visits == [] || visits[|visits| - 1].items == [] then None
    else
      var items := visits[|visits| - 1].items;
      Some(KeyOf(items[|items| - 1]))
  }

  /** Each page is read from below the last row of the page before it, as long as
      there is more. Between pages the table may change in any way. */
  ghost predicate IsWalk(f: Filter, visits: seq<Visit>) {
    visits == [] ||
    var init, last := visits[..|visits| - 1], visits[|visits| - 1];
    && IsWalk(f, init) && (init != [] ==> init[|init| - 1].more)
    && IsPage(last.rows, f, Cursor(init), Clamp(last.limit), last.items, last.more)
  }

  function Shown(visits: seq<Visit>): seq<Event> {
    if visits == [] then [] else Shown(visits[..|visits| - 1]) + visits[|visits| - 1].items
  }

  lemma MoreHasItems(rows: map<int, Event>, f: Filter, below: Option<Key>, limit: int, items: seq<Event>)
    requires IsPage(rows, f, below, Clamp(limit), items, true)
    ensures items != [] && |items| == Clamp(limit)
  {
    var id :| id in rows && Wanted(f, below, rows[id]) && rows[id] !in items;
  }

  lemma DescendingSum(a: seq<Event>, b: seq<Event>)
    requires Descending(a) && Descending(b)
    requires forall e, e' :: e in a && e' in b ==> Older(KeyOf(e'), KeyOf(e))
    ensures Descending(a + b)
  {
    forall i, j | 0 <= i < j < |a + b| ensures Older(KeyOf((a + b)[j]), KeyOf((a + b)[i])) {
      if i < |a| <= j {
        assert (a + b)[i] in a && (a + b)[j] in b;
      }
    }
  }

  lemma DescendingDistinct(items: seq<Event>, i: nat, j: nat)
    requires Descending(items) && i < |items| && j < |items|
    ensures items[i] == items[j] ==> i == j
  {
    if i < j {
      assert Older(KeyOf(items[j]), KeyOf(items[i]));
    } else if j < i {
      assert Older(KeyOf(items[i]), KeyOf(items[j]));
    }
  }

  /** No row shown is older than the cursor. */
  ghost predicate NoneBelow(shown: seq<Event>, cursor: Option<Key>) {
    cursor.Some? && forall e :: e in shown ==> KeyOf(e) == cursor.value || Older(cursor.value, KeyOf(e))
  }

  /** The rows shown get strictly older from page to page, and the cursor is the
      oldest of them. */
  lemma {:induction false} ShownDescends(f: Filter, visits: seq<Visit>)
    requires IsWalk(f, visits)
    ensures Descending(Shown(visits))
    ensures visits != [] && visits[|visits| - 1].more ==> NoneBelow(Shown(visits), Cursor(visits))
  {
    if visits != [] {
      var init, last := visits[..|visits| - 1], visits[|visits| - 1];
      ShownDescends(f, init);
      OneMorePage(f, Shown(init), Cursor(init), last, Shown(visits));
    }
  }

  lemma OneMorePage(f: Filter, shown: seq<Event>, below: Option<Key>, v: Visit, shown': seq<Event>)
    requires Descending(shown) && (shown != [] ==> NoneBelow(shown, below))
    requires IsPage(v.rows, f, below, Clamp(v.limit), v.items, v.more)
    requires shown' == shown + v.items
    ensures Descending(shown')
    ensures v.more ==> v.items != [] && NoneBelow(shown', Some(KeyOf(v.items[|v.items| - 1])))
  {
    forall e, e' | e in shown && e' in v.items ensures Older(KeyOf(e'), KeyOf(e)) {
      assert Wanted(f, below, e');
    }
    DescendingSum(shown, v.items);
    if v.more {
      MoreHasItems(v.rows, f, below, v.limit, v.items);
      CursorIsOldest(shown, v.items);
    }
  }

  lemma CursorIsOldest(shown: seq<Event>, items: seq<Event>)
    requires Descending(shown + items) && items != []
    ensures NoneBelow(shown + items, Some(KeyOf(items[|items| - 1])))
  {
    var all := shown + items;
    forall e | e in all ensures KeyOf(e) == KeyOf(items[|items| - 1]) || Older(KeyOf(items[|items| - 1]), KeyOf(e)) {
      var i :| 0 <= i < |all| && all[i] == e;
      assert i < |all| - 1 ==> Older(KeyOf(all[|all| - 1]), KeyOf(all[i]));
    }
  }

  /** The row was in every table of the walk. */
  ghost predicate AlwaysThere(visits: seq<Visit>, e: Event) {
    forall v :: v in visits ==> e.id in v.rows && v.rows[e.id] == e
  }

  /** A row that was there throughout has been shown, or is older than the cursor of
      a walk that can go on. */
  lemma {:induction false} ShownSoFar(f: Filter, visits: seq<Visit>, e: Event)
    requires IsWalk(f, visits) && visits != [] && Keeps(f, e) && AlwaysThere(visits, e)
    ensures e in Shown(visits) || (visits[|visits| - 1].more && Cursor(visits).Some? && Older(KeyOf(e), Cursor(visits).value))
  {
    var init, last := visits[..|visits| - 1], visits[|visits| - 1];
    assert last in visits;
    if init != [] {
      ShownSoFar(f, init, e);
    }
    if e !in Shown(init) && e !in last.items {
      assert Wanted(f, Cursor(init), last.rows[e.id]);
      MoreHasItems(last.rows, f, Cursor(init), last.limit, last.items);
      assert last.items[|last.items| - 1] in last.items;
    }
  }

  /** Paging is exact under change. When a walk comes to its end, every matching row
      that was there throughout has been shown exactly once, in order, whatever was
      appended or pruned meanwhile; and every row shown matched when it was shown. */
  lemma WalkIsExact(f: Filter, visits: seq<Visit>, e: Event)
    requires IsWalk(f, visits) && visits != [] && !visits[|visits| - 1].more
    requires Keeps(f, e) && AlwaysThere(visits, e)
    ensures exists i :: 0 <= i < |Shown(visits)| && Shown(visits)[i] == e
    ensures forall i, j :: 0 <= i < |Shown(visits)| && 0 <= j < |Shown(visits)| && Shown(visits)[i] == e == Shown(visits)[j] ==> i == j
    ensures Descending(Shown(visits))
  {
    ShownSoFar(f, visits, e);
    ShownDescends(f, visits);
    forall i, j | 0 <= i < |Shown(visits)| && 0 <= j < |Shown(visits)| && Shown(visits)[i] == e == Shown(visits)[j] ensures i == j {
      DescendingDistinct(Shown(visits), i, j);
    }
  }

  // ---- Coming to an end ----

  function Remaining(rows: map<int, Event>, f: Filter, below: Option<Key>): set<Event> {
    set id | id in rows && Wanted(f, below, rows[id]) :: rows[id]
  }

  /** Nothing is inserted below the cursor while the walk goes on. */
  ghost predicate NothingInsertedBelow(f: Filter, visits: seq<Visit>) {
    |visits| < 2 ||
    var init, last := visits[..|visits| - 1], visits[|visits| - 1];
    && NothingInsertedBelow(f, init)
    && Remaining(last.rows, f, Cursor(init)) <= Remaining(init[|init| - 1].rows, f, Cursor(init))
  }

  /** Every page but the last uses up some of what was there at the start. */
  lemma {:induction false} WalkUsesUp(f: Filter, visits: seq<Visit>)
    requires IsWalk(f, visits) && visits != [] && NothingInsertedBelow(f, visits)
    ensures |visits| - 1 + |Remaining(visits[|visits| - 1].rows, f, Cursor(visits[..|visits| - 1]))|
            <= |Remaining(visits[0].rows, f, None)|
  {
    var init, last := visits[..|visits| - 1], visits[|visits| - 1];
    if init != [] {
      WalkUsesUp(f, init);
      VisitShrinks(f, init);
      SubsetSize(Remaining(last.rows, f, Cursor(init)), Remaining(init[|init| - 1].rows, f, Cursor(init)));
    }
  }

  lemma VisitShrinks(f: Filter, visits: seq<Visit>)
    requires IsWalk(f, visits) && visits != [] && visits[|visits| - 1].more
    ensures
      var init, last := visits[..|visits| - 1], visits[|visits| - 1];
      |Remaining(last.rows, f, Cursor(visits))| < |Remaining(last.rows, f, Cursor(init))|
  {
    var init, last := visits[..|visits| - 1], visits[|visits| - 1];
    MoreHasItems(last.rows, f, Cursor(init), last.limit, last.items);
    var shown := last.items[|last.items| - 1];
    assert shown in last.items;
    PageShrinks(last.rows, f, Cursor(init), shown);
  }

  lemma PageShrinks(rows: map<int, Event>, f: Filter, below: Option<Key>, shown: Event)
    requires shown.id in rows && rows[shown.id] == shown && Wanted(f, below, shown)
    ensures |Remaining(rows, f, Some(KeyOf(shown)))| < |Remaining(rows, f, below)|
  {
    var before, after := Remaining(rows, f, below), Remaining(rows, f, Some(KeyOf(shown)));
    assert shown in before && shown !in after;
    SubsetSize(after, before - {shown});
  }

  lemma SubsetSize(a: set<Event>, b: set<Event>)
    requires a <= b
    ensures |a| <= |b|
  {
    assert b == a + (b - a);
  }

  /** So a walk comes to an end after at most one page per row there was. */
  lemma WalkEnds(f: Filter, visits: seq<Visit>)
    requires IsWalk(f, visits) && visits != [] && NothingInsertedBelow(f, visits)
    ensures |visits| <= |Remaining(visits[0].rows, f, None)| + 1
    ensures |visits| == |Remaining(visits[0].rows, f, None)| + 1 ==> !visits[|visits| - 1].more
  {
    WalkUsesUp(f, visits);
    var last, below := visits[|visits| - 1], Cursor(visits[..|visits| - 1]);
    if last.more {
      var id :| id in last.rows && Wanted(f, below, last.rows[id]) && last.rows[id] !in last.items;
      assert last.rows[id] in Remaining(last.rows, f, below);
    }
  }

  /** Whatever happens to the log between two requests. */
  method Disturb(log: EventLog)
    requires log.Valid()
    modifies log
    ensures log.Valid()
  {
    var times: nat :| true;
    for i := 0 to times
      invariant log.Valid()
    {
      var cutoff: int, ev: Event := *, *;
      var _ := log.Prune(cutoff);
      if LEAST_INT64 <= ev.createdAt <= MOST_INT64 {
        var _ := log.Append(ev, 1);
      }
    }
  }

  lemma WalkOneMore(f: Filter, visits: seq<Visit>, visit: Visit)
    requires IsWalk(f, visits) && (visits != [] ==> visits[|visits| - 1].more)
    requires IsPage(visit.rows, f, Cursor(visits), Clamp(visit.limit), visit.items, visit.more)
    ensures IsWalk(f, visits + [visit]) && Shown(visits + [visit]) == Shown(visits) + visit.items
  {
    assert (visits + [visit])[..|visits|] == visits;
  }

  /** The cursor a client holds after these pages, empty before the first. */
  ghost predicate Holding(cursor: string, visits: seq<Visit>) {
    if visits == [] then cursor == ""
    else visits[|visits| - 1].more && cursor != "" && DecodeCursor(cursor).Some? && DecodeCursor(cursor) == Cursor(visits)
  }

  method Turn(log: EventLog, f: Filter, cursor: string, limit: int, ghost visits: seq<Visit>)
    returns (page: Page, ghost longer: seq<Visit>)
    requires log.Valid() && IsWalk(f, visits) && Holding(cursor, visits)
    ensures IsWalk(f, longer) && |longer| == |visits| + 1 && Shown(longer) == Shown(visits) + page.items
    ensures longer[|visits|].more <==> page.next != ""
    ensures page.next != "" ==> Holding(page.next, longer)
  {
    var listed := log.List(f, cursor, limit);
    page := listed.value;
    assert (if cursor == "" then None else DecodeCursor(cursor)) == Cursor(visits);
    ghost var visit := Visit(log.rows, limit, page.items, page.next != "");
    WalkOneMore(f, visits, visit);
    longer := visits + [visit];
    if page.next != "" {
      MoreHasItems(log.rows, f, Cursor(visits), limit, page.items);
    }
  }

  /** A client that follows the cursors of a live log, with whatever limits it
      chooses, makes such a walk. */
  method Walk(log: EventLog, f: Filter, limits: seq<int>) returns (shown: seq<Event>, ended: bool, ghost visits: seq<Visit>)
    requires log.Valid()
    modifies log
    ensures IsWalk(f, visits) && shown == Shown(visits)
    ensures ended ==> visits != [] && !visits[|visits| - 1].more
    ensures !ended ==> |visits| == |limits|
  {
    shown, ended, visits := [], false, [];
    var cursor := "";
    for i := 0 to |limits|
      invariant log.Valid() && IsWalk(f, visits) && shown == Shown(visits) && |visits| == i && Holding(cursor, visits)
    {
      Disturb(log);
      var page;
      page, visits := Turn(log, f, cursor, limits[i], visits);
      shown := shown + page.items;
      if page.next == "" {
        ended := true;
        return;
      }
      cursor := page.next;
    }
  }
}
