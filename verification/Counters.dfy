/** Distinct-reader counts per article and UTC day, rolled lazily over a 14-day window.

    A day is its number in the calendar; the dates the code formats as YYYY-MM-DD
    sort the same way. A count that is absent from a day map reads as zero. */
module Counters {
  import opened Collections

  type Id = string
  type Reader = string
  type DayMap = map<int, int>

  const COUNTER_DAYS := 14

  /** The day field of a new object, before any date. */
  const NO_DAY := -1

  datatype Ctr = Ctr(day: int, base: map<Id, DayMap>, sets: map<Id, set<Reader>>, dirty: set<Id>)

  const EMPTY := Ctr(NO_DAY, map[], map[], {})

  function At(m: DayMap, d: int): int { if d in m then m[d] else 0 }

  function BaseOf(c: Ctr, id: Id): DayMap { if id in c.base then c.base[id] else map[] }

  function SetOf(c: Ctr, id: Id): set<Reader> { if id in c.sets then c.sets[id] else {} }

  // ---------------------------------------------------------------- what each method computes

  function Loaded(days: map<Id, DayMap>, today: int): Ctr { Ctr(today, days, map[], {}) }

  function Plus(m: DayMap, d: int, n: int): DayMap { m[d := At(m, d) + n] }

  /** The persisted counts after the finished day's sets are folded in. */
  function Folded(c: Ctr): map<Id, DayMap> {
    map id | id in c.base.Keys + c.sets.Keys ::
      if id in c.sets then Plus(BaseOf(c, id), c.day, |c.sets[id]|) else c.base[id]
  }

  function Since(m: DayMap, cutoff: int): DayMap { map d | d in m && d >= cutoff :: m[d] }

  function Cutoff(today: int): int { today - (COUNTER_DAYS - 1) }

  function Pruned(base: map<Id, DayMap>, cutoff: int): map<Id, DayMap> {
    map id | id in base :: Since(base[id], cutoff)
  }

  function Stale(base: map<Id, DayMap>, cutoff: int): set<Id> {
    set id | id in base && Since(base[id], cutoff) != base[id]
  }

  function Rolled(c: Ctr, today: int): Ctr {
    if today == c.day then c
    else Ctr(today, Pruned(Folded(c), Cutoff(today)), map[], c.dirty + c.sets.Keys + Stale(Folded(c), Cutoff(today)))
  }

  function Added(c: Ctr, id: Id, reader: Reader, today: int): Ctr {
    var r := Rolled(c, today);
    if reader in SetOf(r, id) then r
    else r.(sets := r.sets[id := SetOf(r, id) + {reader}], dirty := r.dirty + {id})
  }

  function Dropped(c: Ctr, id: Id): Ctr {
    c.(base := c.base - {id}, sets := c.sets - {id}, dirty := c.dirty - {id})
  }

  /** An article's counts by day, the current day's set included. */
  function Days(c: Ctr, id: Id): DayMap {
    if |SetOf(c, id)| > 0 then Plus(BaseOf(c, id), c.day, |SetOf(c, id)|) else BaseOf(c, id)
  }

  // ---------------------------------------------------------------- the plain log

  datatype Event =
    | Load(days: map<Id, DayMap>)
    | Add(id: Id, reader: Reader, day: int)
    | Drop(id: Id)

  function NextReaders(before: set<Reader>, e: Event, id: Id, d: int): set<Reader> {
    match e
    case Load(_) => {}
    case Add(i, r, day) => if i == id && day == d then before + {r} else before
    case Drop(i) => if i == id then {} else before
  }

  function NextLoaded(before: int, e: Event, id: Id, d: int): int {
    match e
    case Load(days) => if id in days then At(days[id], d) else 0
    case Add(_, _, _) => before
    case Drop(i) => if i == id then 0 else before
  }

  /** The distinct readers logged for `id` on `d` since the last load or drop. */
  function Readers(log: seq<Event>, id: Id, d: int): set<Reader> {
    if log == [] then {} else NextReaders(Readers(log[..|log| - 1], id, d), log[|log| - 1], id, d)
  }

  /** The count of `id` on `d` that the last load brought in, unless dropped since. */
  function LoadedCount(log: seq<Event>, id: Id, d: int): int {
    if log == [] then 0 else NextLoaded(LoadedCount(log[..|log| - 1], id, d), log[|log| - 1], id, d)
  }

  function LogCount(log: seq<Event>, id: Id, d: int): int {
    LoadedCount(log, id, d) + |Readers(log, id, d)|
  }

  /** The running counters represent the log, from the oldest day still kept. */
  ghost predicate Refines(c: Ctr, log: seq<Event>) {
    && (forall id, d | d > c.day :: Readers(log, id, d) == {})
    && (forall id :: SetOf(c, id) == Readers(log, id, c.day))
    && (forall id, d | d >= Cutoff(c.day) :: BaseMatches(c, log, id, d))
  }

  ghost predicate BaseMatches(c: Ctr, log: seq<Event>, id: Id, d: int) {
    At(BaseOf(c, id), d) == LoadedCount(log, id, d) + if d < c.day then |Readers(log, id, d)| else 0
  }

  lemma RolledRefines(c: Ctr, log: seq<Event>, today: int)
    requires Refines(c, log) && today >= c.day
    ensures Refines(Rolled(c, today), log)
  {
    var r := Rolled(c, today);
    if today != c.day {
      forall id, d | d >= Cutoff(today) ensures BaseMatches(r, log, id, d) {
        assert BaseMatches(c, log, id, d);
        assert Readers(log, id, c.day) == SetOf(c, id);
        if d > c.day { assert Readers(log, id, d) == {}; }
      }
    }
  }

  lemma LogStep(log: seq<Event>, e: Event, id: Id, d: int)
    ensures Readers(log + [e], id, d) == NextReaders(Readers(log, id, d), e, id, d)
    ensures LoadedCount(log + [e], id, d) == NextLoaded(LoadedCount(log, id, d), e, id, d)
  {
    assert (log + [e])[..|log|] == log;
  }

  lemma AddedRefines(c: Ctr, log: seq<Event>, id: Id, reader: Reader, today: int)
    requires Refines(c, log) && today >= c.day
    ensures Refines(Added(c, id, reader, today), log + [Add(id, reader, today)])
  {
    RolledRefines(c, log, today);
    var r, a, log' := Rolled(c, today), Added(c, id, reader, today), log + [Add(id, reader, today)];
    forall i, d | d > a.day ensures Readers(log', i, d) == {} { LogStep(log, Add(id, reader, today), i, d); }
    forall i ensures SetOf(a, i) == Readers(log', i, a.day) {
      LogStep(log, Add(id, reader, today), i, today);
      assert SetOf(r, i) == Readers(log, i, today);
    }
    forall i, d | d >= Cutoff(a.day) ensures BaseMatches(a, log', i, d) {
      LogStep(log, Add(id, reader, today), i, d);
      assert BaseMatches(r, log, i, d);
    }
  }

  lemma DroppedRefines(c: Ctr, log: seq<Event>, id: Id)
    requires Refines(c, log)
    ensures Refines(Dropped(c, id), log + [Drop(id)])
  {
    var a, log' := Dropped(c, id), log + [Drop(id)];
    forall i, d | d > a.day ensures Readers(log', i, d) == {} { LogStep(log, Drop(id), i, d); }
    forall i ensures SetOf(a, i) == Readers(log', i, a.day) {
      LogStep(log, Drop(id), i, a.day);
      assert SetOf(c, i) == Readers(log, i, a.day);
    }
    forall i, d | d >= Cutoff(a.day) ensures BaseMatches(a, log', i, d) {
      LogStep(log, Drop(id), i, d);
      assert BaseMatches(c, log, i, d);
    }
  }

  lemma LoadedRefines(log: seq<Event>, days: map<Id, DayMap>, today: int)
    ensures Refines(Loaded(days, today), log + [Load(days)])
  {
    var a, log' := Loaded(days, today), log + [Load(days)];
    forall i, d ensures Readers(log', i, d) == {} && BaseMatches(a, log', i, d) { LogStep(log, Load(days), i, d); }
  }

  // ---------------------------------------------------------------- whole runs

  datatype Op =
    | OpLoad(days: map<Id, DayMap>, today: int)
    | OpAdd(id: Id, reader: Reader, today: int)
    | OpRoll(today: int)                        // days, readers7d and flush all roll first
    | OpDrop(id: Id)

  function Apply(c: Ctr, op: Op): Ctr {
    match op
    case OpLoad(days, today) => Loaded(days, today)
    case OpAdd(id, reader, today) => Added(c, id, reader, today)
    case OpRoll(today) => Rolled(c, today)
    case OpDrop(id) => Dropped(c, id)
  }

  function After(ops: seq<Op>): Ctr {
    if ops == [] then EMPTY else Apply(After(ops[..|ops| - 1]), ops[|ops| - 1])
  }

  function Logged(op: Op): seq<Event> {
    match op
    case OpLoad(days, _) => [Load(days)]
    case OpAdd(id, reader, today) => [Add(id, reader, today)]
    case OpRoll(_) => []
    case OpDrop(id) => [Drop(id)]
  }

  function LogOf(ops: seq<Op>): seq<Event> {
    if ops == [] then [] else LogOf(ops[..|ops| - 1]) + Logged(ops[|ops| - 1])
  }

  /** The clock the operations read never goes back. */
  predicate ClockForward(ops: seq<Op>) {
    forall i | 0 <= i < |ops| && !ops[i].OpDrop? :: ops[i].today >= After(ops[..i]).day
  }

  lemma {:induction false} RunRefines(ops: seq<Op>)
    requires ClockForward(ops)
    ensures Refines(After(ops), LogOf(ops))
  {
    if ops != [] {
      var n := |ops| - 1;
      forall i | 0 <= i < n ensures ops[..n][..i] == ops[..i] { }
      RunRefines(ops[..n]);
      var c, log := After(ops[..n]), LogOf(ops[..n]);
      match ops[n] {
        case OpLoad(days, today) => LoadedRefines(log, days, today);
        case OpAdd(id, reader, today) => AddedRefines(c, log, id, reader, today);
        case OpRoll(today) =>
          RolledRefines(c, log, today);
          assert log + [] == log;
        case OpDrop(id) => DroppedRefines(c, log, id);
      }
    }
  }

  /** After any run, every count in the 14-day window is the loaded count plus the
      number of distinct readers logged for that day, wherever the rolls fell. */
  lemma {:induction false} WindowMatchesLog(ops: seq<Op>, id: Id, d: int)
    requires ClockForward(ops)
    requires After(ops).day - 13 <= d <= After(ops).day
    ensures At(Days(After(ops), id), d) == LogCount(LogOf(ops), id, d)
  {
    RunRefines(ops);
    var c := After(ops);
    assert BaseMatches(c, LogOf(ops), id, d);
    assert SetOf(c, id) == Readers(LogOf(ops), id, c.day);
  }

  // ---------------------------------------------------------------- days go away

  /** A roll to another day keeps the days from thirteen before it on, with their counts,
      and forgets all others. */
  lemma RollForgetsOldDays(c: Ctr, today: int, id: Id, d: int)
    requires today != c.day
    ensures d in Days(Rolled(c, today), id) ==> d >= today - 13
    ensures d in Days(c, id) && d >= today - 13 ==> d in Days(Rolled(c, today), id)
    ensures d >= today - 13 ==> At(Days(Rolled(c, today), id), d) == At(Days(c, id), d)
  {
  }

  lemma ShorterIffOlder(m: DayMap, cutoff: int)
    ensures Since(m, cutoff) != m <==> exists d :: d in m && d < cutoff
  {
    if forall d | d in m :: d >= cutoff { assert Since(m, cutoff) == m; }
    if d :| d in m && d < cutoff { assert d !in Since(m, cutoff); }
  }

  /** It marks the ids with readers today and those that lose a day, and no others. */
  lemma RollMarksWhatItChanges(c: Ctr, today: int, id: Id)
    requires today != c.day
    ensures id in Rolled(c, today).dirty <==>
      id in c.dirty || id in c.sets || exists d :: d in Days(c, id) && d < today - 13
  {
    if id in c.base && id !in c.sets {
      assert Folded(c)[id] == Days(c, id);
      ShorterIffOlder(Days(c, id), today - 13);
    }
  }

  /** Adding marks the id only for a reader that the day has not seen. */
  lemma AddMarksNewReaders(c: Ctr, id: Id, reader: Reader, today: int, other: Id)
    ensures other in Added(c, id, reader, today).dirty <==>
      other in Rolled(c, today).dirty || (other == id && reader !in SetOf(Rolled(c, today), id))
  {
  }

  /** The load that counts in `ops` is step `i`, and no clock has moved since. */
  predicate LoadedToday(ops: seq<Op>, i: nat) {
    && i < |ops| && ops[i].OpLoad?
    && forall m | i < m < |ops| && !ops[m].OpDrop? :: !ops[m].OpLoad? && ops[m].today == ops[i].today
  }

  lemma OldDayWasThere(c: Ctr, op: Op, id: Id, d: int)
    requires !op.OpLoad? && d in Days(Apply(c, op), id) && d < Apply(c, op).day - 13
    ensures d in Days(c, id) && Apply(c, op).day == c.day && (!op.OpDrop? ==> op.today == c.day)
  {
    if !op.OpDrop? && op.today != c.day { RollForgetsOldDays(c, op.today, id, d); }
  }

  /** In every run, a day before the last fourteen is shown only if a load on the current
      day brought it in: the first roll to another day forgets it. */
  lemma {:induction false} OldDaysAreFreshlyLoaded(ops: seq<Op>, id: Id, d: int) returns (i: nat)
    requires d in Days(After(ops), id) && d < After(ops).day - 13
    ensures LoadedToday(ops, i) && After(ops).day == ops[i].today
    ensures id in ops[i].days && d in ops[i].days[id]
  {
    var n := |ops| - 1;
    if ops[n].OpLoad? {
      i := n;
    } else {
      OldDayWasThere(After(ops[..n]), ops[n], id, d);
      i := OldDaysAreFreshlyLoaded(ops[..n], id, d);
    }
  }

  // ---------------------------------------------------------------- the last seven days

  function SumRange(m: DayMap, lo: int, hi: int): int
    decreases hi - lo
  {
    if hi <= lo then 0 else SumRange(m, lo, hi - 1) + At(m, hi - 1)
  }

  lemma {:induction false} SumRangeInsert(m: DayMap, k: int, v: int, lo: int, hi: int)
    requires k !in m
    ensures SumRange(m[k := v], lo, hi) == SumRange(m, lo, hi) + if lo <= k < hi then v else 0
    decreases hi - lo
  {
    if lo < hi { SumRangeInsert(m, k, v, lo, hi - 1); }
  }

  lemma {:induction false} SumRangeEmpty(lo: int, hi: int)
    ensures SumRange(map[], lo, hi) == 0
    decreases hi - lo
  {
    if lo < hi { SumRangeEmpty(lo, hi - 1); }
  }

  lemma {:induction false} SumRangeBeyond(m: DayMap, lo: int, hi: int, hi': int)
    requires lo <= hi <= hi' && forall d | d in m :: d < hi
    ensures SumRange(m, lo, hi) == SumRange(m, lo, hi')
    decreases hi' - hi
  {
    if hi < hi' { SumRangeBeyond(m, lo, hi, hi' - 1); }
  }

  /** Map iteration: some key, no particular one. */
  method AnyDay(days: set<int>) returns (d: int)
    requires days != {}
    ensures d in days
  {
    ghost var some: int := SomeOf(days);
    d :| d in days;
  }

  /** All days of the map lie before `hi`. */
  predicate Before(m: DayMap, hi: int) { forall d | d in m :: d < hi }

  /** `n` adds up all counts of the map from `cutoff` on, however far they reach. */
  ghost predicate SumsSince(m: DayMap, cutoff: int, n: int) {
    forall hi | Before(m, hi) && cutoff <= hi :: n == SumRange(m, cutoff, hi)
  }

  lemma {:induction false} DaysEnd(days: set<int>) returns (hi: int)
    ensures forall d | d in days :: d < hi
    decreases |days|
  {
    hi := 0;
    if days != {} {
      var d: int := SomeOf(days);
      var most := DaysEnd(days - {d});
      hi := if most <= d then d + 1 else most;
      assert forall x | x in days :: x == d || x in days - {d};
    }
  }

  lemma AnyBoundWillDo(m: DayMap, cutoff: int, hi: int)
    requires Before(m, hi) && cutoff <= hi
    ensures SumsSince(m, cutoff, SumRange(m, cutoff, hi))
  {
    forall h | Before(m, h) && cutoff <= h ensures SumRange(m, cutoff, hi) == SumRange(m, cutoff, h) {
      if h < hi { SumRangeBeyond(m, cutoff, h, hi); } else { SumRangeBeyond(m, cutoff, hi, h); }
    }
  }

  /** Adds up the counts from `cutoff` on, in whatever order the map yields them. */
  method SumSince(m: DayMap, cutoff: int) returns (n: int)
    ensures SumsSince(m, cutoff, n)
  {
    n := 0;
    var todo := m.Keys;
    ghost var hi := DaysEnd(m.Keys);
    if hi < cutoff { hi := cutoff; }
    SumRangeEmpty(cutoff, hi);
    assert (map d | d in m && d !in todo :: m[d]) == map[];
    while todo != {}
      invariant todo <= m.Keys
      invariant n == SumRange(map d | d in m && d !in todo :: m[d], cutoff, hi)
    {
      var d := AnyDay(todo);
      ghost var seen := map x | x in m && x !in todo :: m[x];
      todo := todo - {d};
      if d >= cutoff { n := n + m[d]; }
      SumRangeInsert(seen, d, m[d], cutoff, hi);
      assert seen[d := m[d]] == map x | x in m && x !in todo :: m[x];
    }
    assert (map d | d in m && d !in todo :: m[d]) == m;
    AnyBoundWillDo(m, cutoff, hi);
  }

  function LogRange(log: seq<Event>, id: Id, lo: int, hi: int): int
    decreases hi - lo
  {
    if hi <= lo then 0 else LogRange(log, id, lo, hi - 1) + LogCount(log, id, hi - 1)
  }

  /** On any stretch of days from six before today on, what `days` shows adds up to the log,
      however long ago the last roll was: pruning never reaches that far. */
  lemma {:induction false} RecentDaysMatchLog(ops: seq<Op>, id: Id, today: int, lo: int, hi: int)
    requires ClockForward(ops) && today >= After(ops).day && lo >= today - 6
    ensures SumRange(Days(Rolled(After(ops), today), id), lo, hi) == LogRange(LogOf(ops), id, lo, hi)
    decreases hi - lo
  {
    if lo < hi {
      RecentDaysMatchLog(ops, id, today, lo, hi - 1);
      var c, log, d := Rolled(After(ops), today), LogOf(ops), hi - 1;
      RunRefines(ops);
      RolledRefines(After(ops), log, today);
      assert BaseMatches(c, log, id, d) && SetOf(c, id) == Readers(log, id, c.day);
      if d > c.day { assert Readers(log, id, d) == {}; }
    }
  }

  /** What `readers7d` returns is the log's count of the last seven days, and with it whatever
      counts a load brought in for days after today; without such counts, exactly the week. */
  lemma WeekMatchesLog(ops: seq<Op>, id: Id, today: int, n: int)
    requires ClockForward(ops) && today >= After(ops).day
    requires SumsSince(Days(Rolled(After(ops), today), id), today - 6, n)
    ensures forall hi | Before(Days(Rolled(After(ops), today), id), hi) && today < hi ::
              n == LogRange(LogOf(ops), id, today - 6, today + 1) + LogRange(LogOf(ops), id, today + 1, hi)
    ensures Before(Days(Rolled(After(ops), today), id), today + 1) ==>
        n == LogRange(LogOf(ops), id, today - 6, today + 1)
  {
    var m, log := Days(Rolled(After(ops), today), id), LogOf(ops);
    forall hi | Before(m, hi) && today < hi
      ensures n == LogRange(log, id, today - 6, today + 1) + LogRange(log, id, today + 1, hi)
    {
      RecentDaysMatchLog(ops, id, today, today - 6, hi);
      LogRangeSplits(log, id, today - 6, today + 1, hi);
    }
    if Before(m, today + 1) { RecentDaysMatchLog(ops, id, today, today - 6, today + 1); }
  }

  lemma {:induction false} LogRangeSplits(log: seq<Event>, id: Id, lo: int, mid: int, hi: int)
    requires lo <= mid <= hi
    ensures LogRange(log, id, lo, hi) == LogRange(log, id, lo, mid) + LogRange(log, id, mid, hi)
    decreases hi - mid
  {
    if mid < hi { LogRangeSplits(log, id, lo, mid, hi - 1); }
  }

  // ---------------------------------------------------------------- the object

  /** The persisted counts when the sets of `done` have been folded in. */
  function FoldedSoFar(c: Ctr, done: set<Id>): map<Id, DayMap> {
    map id | id in c.base.Keys + done ::
      if id in done && id in c.sets then Plus(BaseOf(c, id), c.day, |c.sets[id]|) else BaseOf(c, id)
  }

  lemma FoldStarts(c: Ctr)
    ensures FoldedSoFar(c, {}) == c.base && FoldedSoFar(c, c.sets.Keys) == Folded(c)
  {
  }

  lemma FoldOneMore(c: Ctr, done: set<Id>, id: Id)
    requires id in c.sets && id !in done
    ensures var base := FoldedSoFar(c, done);
            FoldedSoFar(c, done + {id}) == base[id := Plus(if id in base then base[id] else map[], c.day, |c.sets[id]|)]
  {
  }

  class Counters {
    var day: int
    var base: map<Id, DayMap>
    var sets: map<Id, set<Reader>>
    var dirty: set<Id>

    ghost function State(): Ctr reads this { Ctr(day, base, sets, dirty) }

    constructor ()
      ensures State() == EMPTY
    {
      day, base, sets, dirty := NO_DAY, map[], map[], {};
    }

    method Load(days: map<Id, DayMap>, today: int)
      modifies this
      ensures day == today && base == days && sets == map[] && dirty == {}
      ensures State() == Loaded(days, today)
    {
      day, base, sets, dirty := today, days, map[], {};
    }

    method RollLocked(today: int)
      modifies this
      ensures State() == Rolled(old(State()), today)
      ensures today != old(day) ==> forall id, d | id in base && d in base[id] :: d >= today - 13
    {
      if today == day {
        return;
      }
      ghost var c := State();
      Fold();
      sets := map[];
      day := today;
      Prune(Cutoff(today));
      assert State() == Rolled(c, today);
    }

    /** The ids in `done` are folded, the others untouched. */
    ghost predicate FoldedUpto(c: Ctr, done: set<Id>) reads this {
      c.sets == sets && c.day == day && base == FoldedSoFar(c, done) && dirty == c.dirty + done
    }

    method Fold()
      modifies this`base, this`dirty
      ensures base == Folded(old(State())) && dirty == old(dirty) + sets.Keys
    {
      ghost var c := State();
      FoldStarts(c);
      FoldAll(c);
    }

    method FoldAll(ghost c: Ctr)
      requires FoldedUpto(c, {})
      modifies this`base, this`dirty
      ensures FoldedUpto(c, c.sets.Keys)
    {
      var todo := sets.Keys;
      assert c.sets.Keys - todo == {};
      while todo != {}
        invariant todo <= c.sets.Keys
        invariant FoldedUpto(c, c.sets.Keys - todo)
      {
        var id :| id in todo;
        assert c.sets.Keys - (todo - {id}) == c.sets.Keys - todo + {id};
        FoldOne(id, c, c.sets.Keys - todo);
        todo := todo - {id};
      }
      assert c.sets.Keys - todo == c.sets.Keys;
    }

    method FoldOne(id: Id, ghost c: Ctr, ghost done: set<Id>)
      requires id in sets && id !in done && FoldedUpto(c, done)
      modifies this`base, this`dirty
      ensures FoldedUpto(c, done + {id})
    {
      FoldOneMore(c, done, id);
      var was: DayMap := map[];
      if id in base {
        was := base[id];
      }
      base := base[id := Plus(was, day, |sets[id]|)];
      dirty := dirty + {id};
    }

    method Prune(cutoff: int)
      modifies this`base, this`dirty
      ensures base == Pruned(old(base), cutoff) && dirty == old(dirty) + Stale(old(base), cutoff)
      ensures base.Keys == old(base).Keys
      ensures forall id | id in base :: base[id] == map d | d in old(base)[id] && d >= cutoff :: old(base)[id][d]
      ensures forall id :: id in dirty <==>
        id in old(dirty) || (id in base && exists d :: d in old(base)[id] && d < cutoff)
    {
      ghost var was, wasDirty := base, dirty;
      var todo := base.Keys;
      while todo != {}
        invariant todo <= was.Keys && base.Keys == was.Keys
        invariant forall id | id in was :: base[id] == if id in todo then was[id] else Since(was[id], cutoff)
        invariant dirty == wasDirty + (Stale(was, cutoff) - todo)
      {
        var id :| id in todo;
        todo := todo - {id};
        PruneOne(id, cutoff);
      }
      forall id ensures id in Stale(was, cutoff) <==> id in was && exists d :: d in was[id] && d < cutoff {
        if id in was { ShorterIffOlder(was[id], cutoff); }
      }
    }

    method PruneOne(id: Id, cutoff: int)
      requires id in base
      modifies this`base, this`dirty
      ensures base == old(base)[id := Since(old(base)[id], cutoff)]
      ensures dirty == if Since(old(base)[id], cutoff) != old(base)[id] then old(dirty) + {id} else old(dirty)
    {
      var kept, changed := DeleteBefore(base[id], cutoff);
      base := base[id := kept];
      if changed { dirty := dirty + {id}; }
    }

    static method DeleteBefore(m: DayMap, cutoff: int) returns (kept: DayMap, changed: bool)
      ensures kept == Since(m, cutoff) && (changed <==> kept != m)
    {
      kept, changed := m, false;
      var days := m.Keys;
      while days != {}
        invariant days <= m.Keys
        invariant kept == map d | d in m && (d in days || d >= cutoff) :: m[d]
        invariant changed <==> kept != m
      {
        var d := AnyDay(days);
        days := days - {d};
        if d < cutoff {
          kept, changed := kept - {d}, true;
          assert d in m && d !in kept;
        }
      }
    }

    method Add(id: Id, reader: Reader, today: int)
      modifies this
      ensures State() == Added(old(State()), id, reader, today)
    {
      RollLocked(today);
      ghost var r := State();
      var readers := if id in sets then sets[id] else {};
      if reader !in readers {
        sets := sets[id := readers + {reader}];
        dirty := dirty + {id};
      }
    }

    method DaysOf(id: Id, today: int) returns (out: DayMap)
      modifies this
      ensures State() == Rolled(old(State()), today)
      ensures out == Days(State(), id)
      ensures today != old(day) ==> forall d | d in out :: d >= today - 13
    {
      RollLocked(today);
      out := if id in base then base[id] else map[];
      if id in sets && |sets[id]| > 0 {
        out := Plus(out, day, |sets[id]|);
      }
    }

    method Readers7d(id: Id, today: int) returns (n: int)
      modifies this
      ensures State() == Rolled(old(State()), today)
      ensures SumsSince(Days(State(), id), today - 6, n)
    {
      var d := DaysOf(id, today);
      n := SumSince(d, today - 6);
    }

    method DropId(id: Id)
      modifies this
      ensures State() == Dropped(old(State()), id)
    {
      base := base - {id};
      sets := sets - {id};
      dirty := dirty - {id};
    }
  }
}
