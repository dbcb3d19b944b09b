/** Flushing the read counters while readers keep arriving.

    `flushLocked` takes the counter lock twice and the index lock in between, so the
    model splits it: snapshot, one check per snapshotted id, commit, and after a failed
    commit the re-marking. Additions, rolls and reads may run between any two steps.
    Record writes and flushes exclude one another, as the write lock makes them.
    A batch that returns an error, be it a flush or a delete, may or may not have landed. */
module CounterFlush {
  import opened Counters

  /** What the holder of the write lock is doing. */
  datatype Writer =
    | Idle
    | Checking(todo: set<Id>, live: set<Id>, out: map<Id, DayMap>)
    | Writing(live: set<Id>, out: map<Id, DayMap>)
    | Failed(live: set<Id>)
    | Erasing(id: Id)               // the delete batch is committed
    | Erased(id: Id)                // and the index no longer lists the record

  /** Memory (`c`, `live`, `writer`) and disk (`stored`, `recs`). History: `torn` holds the
      ids whose delete batch landed although it returned an error, until their counts are
      written again or go. */
  datatype Sys = Sys(c: Ctr, live: set<Id>, writer: Writer, stored: map<Id, DayMap>, recs: set<Id>, torn: set<Id>)

  datatype Action =
    | AddReader(id: Id, reader: Reader, today: int)
    | Roll(today: int)
    | Snapshot(today: int)
    | Check(id: Id)
    | Batch
    | Commit
    | FailCommit(landed: bool)      // an error does not say whether the batch reached the disk
    | MarkAgain
    | Create(id: Id)                // with an identifier never used before
    | Rewrite(id: Id)               // an update writes the record again
    | EraseCommit(id: Id)
    | FailErase(id: Id, landed: bool)
    | EraseIndex
    | EraseCounters
    | Restart(today: int)           // at any time; memory is lost

  predicate Enabled(s: Sys, a: Action) {
    match a
    case AddReader(_, _, _) => true
    case Roll(_) => true
    case Snapshot(_) => s.writer.Idle?
    case Check(id) => s.writer.Checking? && id in s.writer.todo
    case Batch => s.writer.Checking? && s.writer.todo == {}
    case Commit => s.writer.Writing?
    case FailCommit(_) => s.writer.Writing?
    case MarkAgain => s.writer.Failed?
    case Create(id) => s.writer.Idle? && id !in s.live && id !in s.recs && id !in s.stored
    case Rewrite(id) => s.writer.Idle? && id in s.live
    case EraseCommit(id) => s.writer.Idle? && id in s.live
    case FailErase(id, _) => s.writer.Idle? && id in s.live
    case EraseIndex => s.writer.Erasing?
    case EraseCounters => s.writer.Erased?
    case Restart(_) => true
  }

  function SnapshotOf(c: Ctr): map<Id, DayMap> {
    map id | id in c.dirty :: Days(c, id)
  }

  function Written(s: Sys): map<Id, DayMap>
    requires s.writer.Writing?
  {
    s.stored + map id | id in s.writer.live && id in s.writer.out :: s.writer.out[id]
  }

  function Step(s: Sys, a: Action): Sys
    requires Enabled(s, a)
  {
    match a
    case AddReader(id, reader, today) => s.(c := Added(s.c, id, reader, today))
    case Roll(today) => s.(c := Rolled(s.c, today))
    case Snapshot(today) =>
      var c := Rolled(s.c, today);
      if c.dirty == {} then s.(c := c)
      else s.(c := c.(dirty := {}), writer := Checking(c.dirty, {}, SnapshotOf(c)))
    case Check(id) =>
      var w := s.writer;
      if id in s.live then s.(writer := Checking(w.todo - {id}, w.live + {id}, w.out))
      else s.(c := Dropped(s.c, id), writer := Checking(w.todo - {id}, w.live, w.out))
    case Batch => s.(writer := Writing(s.writer.live, s.writer.out))
    case Commit => s.(stored := Written(s), torn := s.torn - s.writer.live, writer := Idle)
    case FailCommit(landed) =>
      var s' := s.(writer := Failed(s.writer.live));
      if landed then s'.(stored := Written(s), torn := s.torn - s.writer.live) else s'
    case MarkAgain => s.(c := s.c.(dirty := s.c.dirty + s.writer.live), writer := Idle)
    case Create(id) => s.(recs := s.recs + {id}, live := s.live + {id})
    case Rewrite(id) => s.(recs := s.recs + {id})
    case EraseCommit(id) => s.(recs := s.recs - {id}, stored := s.stored - {id}, torn := s.torn - {id},
        writer := Erasing(id))
    case FailErase(id, landed) =>
      if landed then s.(recs := s.recs - {id}, stored := s.stored - {id}, torn := s.torn + {id}) else s
    case EraseIndex => s.(live := s.live - {s.writer.id}, writer := Erased(s.writer.id))
    case EraseCounters => s.(c := Dropped(s.c, s.writer.id), writer := Idle)
    case Restart(today) =>
      Sys(Loaded(map id | id in s.stored && id in s.recs :: s.stored[id], today), s.recs, Idle, s.stored, s.recs, {})
  }

  const INIT := Sys(EMPTY, {}, Idle, map[], {}, {})

  ghost predicate Run(states: seq<Sys>, actions: seq<Action>) {
    && |states| == |actions| + 1
    && states[0] == INIT
    && forall i {:trigger actions[i]} | 0 <= i < |actions| ::
        Enabled(states[i], actions[i]) && states[i + 1] == Step(states[i], actions[i])
  }

  // ---------------------------------------------------------------- invariant

  ghost predicate Same(a: DayMap, b: DayMap) {
    forall d :: At(a, d) == At(b, d)
  }

  function StoredOf(s: Sys, id: Id): DayMap { if id in s.stored then s.stored[id] else map[] }

  /** The ids whose fate an unfinished write decides. */
  function Pending(w: Writer): set<Id> {
    match w
    case Idle => {}
    case Checking(todo, live, _) => todo + live
    case Writing(live, _) => live
    case Failed(live) => live
    case Erasing(id) => {id}
    case Erased(id) => {id}
  }

  function OutOf(w: Writer): map<Id, DayMap> {
    match w
    case Checking(_, _, out) => out
    case Writing(_, out) => out
    case _ => map[]
  }

  predicate Clean(s: Sys, id: Id) {
    id !in s.c.dirty && id !in Pending(s.writer)
  }

  /** The ids that the write in progress found live. */
  function Carried(w: Writer): set<Id> {
    match w
    case Checking(_, live, _) => live
    case Writing(live, _) => live
    case Failed(live) => live
    case _ => {}
  }

  /** What must hold of one id: when clean, the disk shows its view unless a delete tore it;
      while a snapshot of it waits to be written and nobody has touched it since, the
      snapshot shows its view. */
  ghost predicate IdOk(s: Sys, id: Id) {
    && (Clean(s, id) && id in s.live && id !in s.torn ==> Same(StoredOf(s, id), Days(s.c, id)))
    && (Clean(s, id) && id !in s.live ==> Same(Days(s.c, id), map[]))
    && (id in s.torn ==> id in s.live && id !in s.stored)
    && (id in OutOf(s.writer) && id in Pending(s.writer) && id !in s.c.dirty ==>
        Same(OutOf(s.writer)[id], Days(s.c, id)))
    && (s.writer.Checking? || s.writer.Writing? ==> id in Pending(s.writer) ==> id in OutOf(s.writer))
    && (id in Carried(s.writer) || id in s.recs || s.writer == Erasing(id) ==> id in s.live)
    && (s.writer == Erased(id) ==> id !in s.live)
    && (s.writer == Erasing(id) || s.writer == Erased(id) ==> id !in s.recs && id !in s.stored && id !in s.torn)
  }

  /** Folding a finished day and pruning old ones leaves an id's view alone unless it
      marks the id; folding alone never changes a view. */
  lemma RollKeepsView(c: Ctr, today: int, id: Id)
    ensures c.dirty <= Rolled(c, today).dirty
    ensures id !in Rolled(c, today).dirty ==> Days(Rolled(c, today), id) == Days(c, id)
    ensures forall d | d >= Cutoff(today) :: At(Days(Rolled(c, today), id), d) == At(Days(c, id), d)
  {
  }

  lemma AddKeepsView(c: Ctr, who: Id, reader: Reader, today: int, id: Id)
    ensures c.dirty <= Added(c, who, reader, today).dirty
    ensures id !in Added(c, who, reader, today).dirty ==> Days(Added(c, who, reader, today), id) == Days(c, id)
  {
    RollKeepsView(c, today, id);
  }

  predicate IsReader(a: Action) { a.AddReader? || a.Roll? }

  predicate IsFlush(a: Action) {
    a.Snapshot? || a.Check? || a.Batch? || a.Commit? || a.FailCommit? || a.MarkAgain?
  }

  lemma ReaderKeepsId(s: Sys, a: Action, id: Id)
    requires Enabled(s, a) && IsReader(a) && IdOk(s, id)
    ensures IdOk(Step(s, a), id)
  {
    match a {
      case AddReader(who, reader, today) => AddKeepsView(s.c, who, reader, today, id);
      case Roll(today) => RollKeepsView(s.c, today, id);
    }
  }

  lemma SnapshotKeepsId(s: Sys, today: int, id: Id)
    requires Enabled(s, Snapshot(today)) && IdOk(s, id)
    ensures IdOk(Step(s, Snapshot(today)), id)
  {
    RollKeepsView(s.c, today, id);
    var c := Rolled(s.c, today);
    assert Days(c.(dirty := {}), id) == Days(c, id);
    if id !in c.dirty {
      assert Clean(s, id);
    }
  }

  lemma WriteKeepsId(s: Sys, a: Action, id: Id)
    requires Enabled(s, a) && IsFlush(a) && !a.Snapshot? && IdOk(s, id)
    ensures IdOk(Step(s, a), id)
  {
    match a {
      case Check(_) => case Batch => case Commit => case FailCommit(_) => case MarkAgain =>
    }
  }

  lemma RecordWriteKeepsId(s: Sys, a: Action, id: Id)
    requires Enabled(s, a) && !IsReader(a) && !IsFlush(a) && IdOk(s, id)
    ensures IdOk(Step(s, a), id)
  {
    match a {
      case Create(_) => case Rewrite(_) => case EraseCommit(_) => case FailErase(_, _) =>
      case EraseIndex => case EraseCounters => case Restart(_) =>
    }
  }

  lemma StepKeepsId(s: Sys, a: Action, id: Id)
    requires Enabled(s, a) && IdOk(s, id)
    ensures IdOk(Step(s, a), id)
  {
    if IsReader(a) {
      ReaderKeepsId(s, a, id);
    } else if IsFlush(a) {
      if a.Snapshot? { SnapshotKeepsId(s, a.today, id); } else { WriteKeepsId(s, a, id); }
    } else {
      RecordWriteKeepsId(s, a, id);
    }
  }

  lemma {:induction false} RunsKeepIds(states: seq<Sys>, actions: seq<Action>, i: nat, id: Id)
    requires Run(states, actions) && i < |states|
    ensures IdOk(states[i], id)
  {
    if i > 0 {
      RunsKeepIds(states, actions, i - 1, id);
      StepKeepsId(states[i - 1], actions[i - 1], id);
    }
  }

  // ---------------------------------------------------------------- theorems about every run

  /** In every interleaving, a live id that is neither dirty nor in an unfinished write has on
      disk exactly the counts that memory shows, whatever commits failed before, if and only
      if no delete tore it or it has no counts to lose. */
  lemma CleanMeansStored(states: seq<Sys>, actions: seq<Action>, i: nat, id: Id)
    requires Run(states, actions) && i < |states| && Clean(states[i], id) && id in states[i].live
    ensures Same(StoredOf(states[i], id), Days(states[i].c, id))
            <==> id !in states[i].torn || Same(Days(states[i].c, id), map[])
  {
    RunsKeepIds(states, actions, i, id);
    var s := states[i];
    if id in s.torn && Same(StoredOf(s, id), Days(s.c, id)) {
      forall d ensures At(Days(s.c, id), d) == At(map[], d) {
        assert At(StoredOf(s, id), d) == At(Days(s.c, id), d);
      }
    }
  }

  /** When nobody holds the write lock, this speaks of every live id without a mark. */
  lemma UnmarkedMeansStored(states: seq<Sys>, actions: seq<Action>, i: nat, id: Id, d: int)
    requires Run(states, actions) && i < |states| && states[i].writer.Idle?
    requires id in states[i].live && id !in states[i].c.dirty && id !in states[i].torn
    ensures At(StoredOf(states[i], id), d) == At(Days(states[i].c, id), d)
  {
    CleanMeansStored(states, actions, i, id);
  }

  /** No step between `i` and `j` ends the write in progress. */
  predicate StillWriting(actions: seq<Action>, i: nat, j: nat)
    requires i <= j <= |actions|
  {
    forall m | i <= m < j :: !actions[m].Commit? && !actions[m].FailCommit? && !actions[m].Restart?
  }

  /** Whatever readers do meanwhile, a write carries its snapshot and only ids that it found live. */
  lemma {:induction false} WriteCarriesSnapshot(states: seq<Sys>, actions: seq<Action>, i: nat, j: nat)
    requires Run(states, actions) && i < j < |states| && StillWriting(actions, i, j)
    requires actions[i].Snapshot? && Rolled(states[i].c, actions[i].today).dirty != {}
    ensures states[j].writer.Checking? || states[j].writer.Writing?
    ensures OutOf(states[j].writer) == SnapshotOf(Rolled(states[i].c, actions[i].today))
    ensures states[j].stored == states[i].stored
    decreases j
  {
    assert Enabled(states[j - 1], actions[j - 1]) && states[j] == Step(states[j - 1], actions[j - 1]);
    if i + 1 < j { WriteCarriesSnapshot(states, actions, i, j - 1); }
  }

  /** A commit that returns stores, for each id the write found live, exactly what readers
      saw of it when the snapshot was taken, and leaves all other counts on disk alone. */
  lemma CommitStoresTheSnapshot(states: seq<Sys>, actions: seq<Action>, i: nat, j: nat, id: Id)
    requires Run(states, actions) && i < j < |actions| && StillWriting(actions, i, j)
    requires actions[i].Snapshot? && Rolled(states[i].c, actions[i].today).dirty != {} && actions[j].Commit?
    ensures states[j].writer.Writing?
    ensures id in states[j].writer.live ==>
      id in states[j + 1].stored && states[j + 1].stored[id] == Days(Rolled(states[i].c, actions[i].today), id)
    ensures id !in states[j].writer.live ==> StoredOf(states[j + 1], id) == StoredOf(states[i], id)
  {
    WriteCarriesSnapshot(states, actions, i, j);
    RunsKeepIds(states, actions, j, id);
    assert Enabled(states[j], actions[j]) && states[j + 1] == Step(states[j], actions[j]);
  }

  lemma RunExtends(states: seq<Sys>, actions: seq<Action>, a: Action) returns (next: seq<Sys>, taken: seq<Action>)
    requires Run(states, actions) && Enabled(states[|actions|], a)
    ensures Run(next, taken) && |taken| == |actions| + 1
    ensures next[|taken|] == Step(states[|actions|], a)
  {
    next, taken := states + [Step(states[|actions|], a)], actions + [a];
  }

  /** After any run, at any point of a write, a reader, a change of day or a crash may come next. */
  lemma AnythingCanInterrupt(states: seq<Sys>, actions: seq<Action>, today: int, id: Id, reader: Reader)
    requires Run(states, actions)
    ensures var c := states[|actions|].c;
      && (exists next :: Run(states + [next], actions + [Roll(today)]) && next.c == Rolled(c, today))
      && (exists next :: Run(states + [next], actions + [AddReader(id, reader, today)])
                         && next.c == Added(c, id, reader, today))
      && (exists next :: Run(states + [next], actions + [Restart(today)]) && next.writer.Idle?)
  {
    var s := states[|actions|];
    assert Run(states + [Step(s, Roll(today))], actions + [Roll(today)]);
    assert Run(states + [Step(s, AddReader(id, reader, today))], actions + [AddReader(id, reader, today)]);
    assert Run(states + [Step(s, Restart(today))], actions + [Restart(today)]);
  }

  /** A flush with nothing marked ends at once; any other goes on to check what was marked. */
  lemma FlushStartsIff(states: seq<Sys>, actions: seq<Action>, i: nat)
    requires Run(states, actions) && i < |actions| && actions[i].Snapshot?
    ensures var marked := Rolled(states[i].c, actions[i].today).dirty;
      if marked == {} then states[i + 1].writer.Idle?
      else states[i + 1].writer.Checking? && states[i + 1].writer.todo == marked
  {
    assert Enabled(states[i], actions[i]) && states[i + 1] == Step(states[i], actions[i]);
  }

  /** A failed commit has stored what the commit would have, or nothing at all. */
  lemma FailedCommitStoresAllOrNothing(states: seq<Sys>, actions: seq<Action>, i: nat, id: Id)
    requires Run(states, actions) && i < |actions| && actions[i].FailCommit?
    ensures states[i].writer.Writing?
    ensures !actions[i].landed ==> states[i + 1].stored == states[i].stored
    ensures var w := states[i].writer;
      var carried := id in w.live && id in w.out;
      actions[i].landed ==>
        StoredOf(states[i + 1], id) == if carried then w.out[id] else StoredOf(states[i], id)
  {
    assert Enabled(states[i], actions[i]) && states[i + 1] == Step(states[i], actions[i]);
  }

  /** The counters after one reader of one article. */
  function OneReaderOf(id: Id, reader: Reader, today: int): Ctr { Ctr(today, map[], map[id := {reader}], {id}) }

  lemma OneReader(id: Id, reader: Reader, today: int) returns (states: seq<Sys>, actions: seq<Action>)
    ensures Run(states, actions)
    ensures states[|actions|] == Sys(OneReaderOf(id, reader, today), {id}, Idle, map[], {id}, {})
  {
    FirstReader(id, reader, today);
    states, actions := [INIT], [];
    states, actions := RunExtends(states, actions, Create(id));
    states, actions := RunExtends(states, actions, AddReader(id, reader, today));
  }

  lemma FirstReader(id: Id, reader: Reader, today: int)
    ensures Added(EMPTY, id, reader, today) == OneReaderOf(id, reader, today)
  {
    var r := Rolled(EMPTY, today);
    assert r.base == map[] && r.sets == map[] && r.dirty == {} && r.day == today;
    assert {} + {reader} == {reader} && {} + {id} == {id};
  }

  /** A record with one reader, its count flushed. */
  lemma OneFlushedReader(id: Id, reader: Reader, today: int) returns (states: seq<Sys>, actions: seq<Action>)
    ensures Run(states, actions)
    ensures var s := states[|actions|];
      s.c == OneReaderOf(id, reader, today).(dirty := {}) && s.live == s.recs == {id} && s.writer == Idle
          && s.torn == {}
  {
    states, actions := OneReader(id, reader, today);
    var c := states[|actions|].c;
    states, actions := RunExtends(states, actions, Snapshot(today));
    assert states[|actions|].writer == Checking({id}, {}, SnapshotOf(c));
    states, actions := RunExtends(states, actions, Check(id));
    states, actions := RunExtends(states, actions, Batch);
    states, actions := RunExtends(states, actions, Commit);
  }

  /** The failing side happens: a delete that lands in spite of an error leaves a live, clean
      id whose counts are in memory and not on disk. */
  lemma TornDeleteLosesCounts(id: Id, reader: Reader, today: int) returns (states: seq<Sys>, actions: seq<Action>)
    ensures Run(states, actions)
    ensures var s := states[|actions|];
      && Clean(s, id) && id in s.live && id in s.torn
      && At(Days(s.c, id), today) == 1 && At(StoredOf(s, id), today) == 0 && id !in s.recs
  {
    states, actions := OneFlushedReader(id, reader, today);
    states, actions := RunExtends(states, actions, FailErase(id, true));
  }

  /** No delete of `id` has landed in spite of an error. */
  predicate NeverTorn(actions: seq<Action>, i: nat, id: Id)
    requires i <= |actions|
  {
    forall m | 0 <= m < i :: actions[m] != FailErase(id, true)
  }

  predicate Whole(s: Sys, id: Id) {
    && id !in s.torn
    && (id in s.stored ==> id in s.recs)
    && (id in s.live ==> id in s.recs || s.writer == Erasing(id))
  }

  lemma StepKeepsWhole(s: Sys, a: Action, id: Id)
    requires Enabled(s, a) && IdOk(s, id) && Whole(s, id) && a != FailErase(id, true)
    ensures Whole(Step(s, a), id)
  {
  }

  lemma {:induction false} NeverTornIsWhole(states: seq<Sys>, actions: seq<Action>, i: nat, id: Id)
    requires Run(states, actions) && i < |states| && NeverTorn(actions, i, id)
    ensures Whole(states[i], id)
  {
    if i > 0 {
      NeverTornIsWhole(states, actions, i - 1, id);
      RunsKeepIds(states, actions, i - 1, id);
      StepKeepsWhole(states[i - 1], actions[i - 1], id);
    }
  }

  /** What a crash costs a clean live id: nothing when its record is on disk and no delete
      tore it, and all its counts otherwise. */
  lemma RestartKeepsCleanCounts(states: seq<Sys>, actions: seq<Action>, i: nat, id: Id, today: int, d: int)
    requires Run(states, actions) && i < |actions| && actions[i] == Restart(today)
    requires Clean(states[i], id) && id in states[i].live
    ensures At(Days(states[i + 1].c, id), d) ==
      if id in states[i].recs && id !in states[i].torn then At(Days(states[i].c, id), d) else 0
  {
    RunsKeepIds(states, actions, i, id);
    CleanMeansStored(states, actions, i, id);
    assert states[i + 1] == Step(states[i], actions[i]);
    assert Same(StoredOf(states[i], id), Days(states[i].c, id)) ==>
        At(StoredOf(states[i], id), d) == At(Days(states[i].c, id), d);
  }

  /** Short of a delete that landed in spite of an error, a deleted record has no counts on
      disk, and none in memory but those of readers who came since, which mark it dirty. */
  lemma DeletedMeansGone(states: seq<Sys>, actions: seq<Action>, i: nat, id: Id, d: int)
    requires Run(states, actions) && i < |states| && id !in states[i].recs && NeverTorn(actions, i, id)
    ensures id !in states[i].stored
    ensures At(Days(states[i].c, id), d) == 0 || id in states[i].c.dirty || id in Pending(states[i].writer)
  {
    RunsKeepIds(states, actions, i, id);
    NeverTornIsWhole(states, actions, i, id);
    var s := states[i];
    if Clean(s, id) && id !in s.live { assert At(Days(s.c, id), d) == At(map[], d); }
  }

  /** And the next flush drops those, torn or not: it writes nothing for an id without a record. */
  lemma FlushDropsTheDead(states: seq<Sys>, actions: seq<Action>, i: nat, id: Id, d: int)
    requires Run(states, actions) && i < |actions| && actions[i] == Check(id) && id !in states[i].live
    ensures At(Days(states[i + 1].c, id), d) == 0
    ensures id !in states[i + 1].c.dirty && id !in Carried(states[i + 1].writer)
  {
    RunsKeepIds(states, actions, i, id);
    assert Enabled(states[i], actions[i]) && states[i + 1] == Step(states[i], actions[i]);
  }

  /** Until the re-marking or a restart, a failed write holds on to its ids. */
  lemma {:induction false} FailureWaits(states: seq<Sys>, actions: seq<Action>, i: nat, j: nat)
    requires Run(states, actions) && i < j < |states| && actions[i].FailCommit?
    requires forall m | i < m < j :: !actions[m].MarkAgain? && !actions[m].Restart?
    ensures states[i].writer.Writing? && states[j].writer == Failed(states[i].writer.live)
  {
    assert Enabled(states[i], actions[i]) && states[i + 1] == Step(states[i], actions[i]);
    if i + 1 < j {
      FailureWaits(states, actions, i, j - 1);
      assert Enabled(states[j - 1], actions[j - 1]) && states[j] == Step(states[j - 1], actions[j - 1]);
    }
  }

  /** When a commit fails, every id it carried is dirty once the write lock is released,
      whatever ran in between. */
  lemma FailedCommitLosesNothing(states: seq<Sys>, actions: seq<Action>, i: nat, j: nat, id: Id)
    requires Run(states, actions) && i < j < |actions| && actions[i].FailCommit? && actions[j].MarkAgain?
    requires forall m | i < m < j :: !actions[m].MarkAgain? && !actions[m].Restart?
    ensures states[i].writer.Writing?
    ensures id in states[i].writer.live ==> id in states[j + 1].c.dirty && states[j + 1].writer.Idle?
  {
    FailureWaits(states, actions, i, j);
    assert states[j + 1] == Step(states[j], actions[j]);
  }
}
