/** The /answer cache: a TTL store fused with singleflight.

    Every `Do` and every plain `Get` is a thread with a program counter; every
    locked section and every unlocked access to shared state is one step. Any
    thread may take the next step, so a theorem about all runs is a theorem
    about all interleavings. */
module AnswerCache {
  import opened Bytes
  import opened Collections

  type Key = string
  type Blob = bytes
  type Error = string

  datatype Entry = Entry(val: Blob, exp: int)

  /** What `fn` returned. Go allows a value beside an error. */
  datatype Outcome = Outcome(val: Blob, err: Option<Error>)

  /** An in-flight call: `closed` is the state of its `done` channel. */
  datatype Call = Call(closed: bool, result: Outcome)

  const ZERO_CALL := Call(false, Outcome([], None))

  /** How a finished lookup got its answer. */
  datatype How = Hit(exp: int, at: int) | Miss | Joined(c: nat) | Led(c: nat)

  datatype PC =
    | Entered
    | Read(e: Option<Entry>)          // store read under the read lock, clock not yet read
    | Missed
    | Waiting(c: nat)                 // blocked on the call's channel
    | Woken(c: nat)
    | Running(c: nat)                 // inside fn
    | Returned(c: nat, out: Outcome)
    | Filled(c: nat, out: Outcome)
    | Closed(c: nat, out: Outcome)
    | Deleted(c: nat, out: Outcome)
    | Done(out: Outcome, shared: bool, how: How)

  /** `full` distinguishes a `Do` from a plain `Get`. */
  datatype Thread = Thread(key: Key, full: bool, pc: PC)

  /** Who stored a value: a direct `Set`, or the leader of a call. */
  datatype Writer = Direct | Leader(c: nat)
  datatype Write = Write(key: Key, val: Blob, at: int, writer: Writer)

  /** The cache, the running lookups, and two history variables:
      `leaders[c]` is the thread that created call `c`, and `writes` lists every `Set`. */
  datatype State = State(
    ttl: int, cap: int, now: int,
    store: map<Key, Entry>, heap: seq<Call>, calls: map<Key, nat>,
    threads: seq<Thread>,
    hits: nat, misses: nat, shared: nat,
    leaders: seq<nat>, writes: seq<Write>)

  function Init(ttl: int, cap: int, now: int): State {
    State(ttl, cap, now, map[], [], map[], [], 0, 0, 0, [], [])
  }

  // ---------------------------------------------------------------- steps

  datatype Action =
    | Tick(d: nat)
    | Spawn(key: Key, full: bool)
    | SetDirect(key: Key, val: Blob, victim: Key)
    | ReadStore(t: nat)
    | CheckFresh(t: nat)
    | JoinOrLead(t: nat)
    | Wake(t: nat)
    | CountShared(t: nat)
    | FnReturn(t: nat, out: Outcome)
    | Fill(t: nat)
    | Close(t: nat)
    | Delete(t: nat)
    | Finish(t: nat, victim: Key)

  predicate Full(cap: int, store: map<Key, Entry>) {
    cap > 0 && |store| >= cap
  }

  predicate Fresh(e: Option<Entry>, now: int) {
    e.Some? && now <= e.value.exp
  }

  function Lookup(store: map<Key, Entry>, key: Key): Option<Entry> {
    if key in store then Some(store[key]) else None
  }

  /** The locked section of `Set`: evict `victim` when at the cap, then insert. */
  function Put(store: map<Key, Entry>, cap: int, victim: Key, key: Key, e: Entry): map<Key, Entry> {
    if Full(cap, store) then (store - {victim})[key := e] else store[key := e]
  }

  /** The store after some such section: one entry evicted at the cap, none below it. */
  ghost predicate IsPut(store: map<Key, Entry>, cap: int, key: Key, e: Entry, next: map<Key, Entry>) {
    exists victim :: (Full(cap, store) ==> victim in store) && next == Put(store, cap, victim, key, e)
  }

  /** `Set` with its TTL guard. */
  function Stored(s: State, key: Key, val: Blob, victim: Key, writer: Writer): State {
    if s.ttl <= 0 then s
    else s.(store := Put(s.store, s.cap, victim, key, Entry(val, s.now + s.ttl)),
            writes := s.writes + [Write(key, val, s.now, writer)])
  }

  predicate VictimOk(s: State, victim: Key) {
    s.ttl > 0 && Full(s.cap, s.store) ==> victim in s.store
  }

  /** Line 128: a leader stores only a non-empty result without error. */
  predicate Storable(out: Outcome) {
    out.err == None && |out.val| > 0
  }

  function Goto(s: State, t: nat, pc: PC): State
    requires t < |s.threads|
  {
    s.(threads := s.threads[t := s.threads[t].(pc := pc)])
  }

  predicate Enabled(s: State, a: Action) {
    match a
    case Tick(_) => true
    case Spawn(_, _) => true
    case SetDirect(_, _, victim) => VictimOk(s, victim)
    case ReadStore(t) => t < |s.threads| && s.threads[t].pc.Entered?
    case CheckFresh(t) => t < |s.threads| && s.threads[t].pc.Read?
    case JoinOrLead(t) => t < |s.threads| && s.threads[t].pc.Missed?
    case Wake(t) => t < |s.threads| && s.threads[t].pc.Waiting? &&
                    s.threads[t].pc.c < |s.heap| && s.heap[s.threads[t].pc.c].closed
    case CountShared(t) => t < |s.threads| && s.threads[t].pc.Woken? && s.threads[t].pc.c < |s.heap|
    case FnReturn(t, _) => t < |s.threads| && s.threads[t].pc.Running?
    case Fill(t) => t < |s.threads| && s.threads[t].pc.Returned? && s.threads[t].pc.c < |s.heap|
    case Close(t) => t < |s.threads| && s.threads[t].pc.Filled? && s.threads[t].pc.c < |s.heap|
    case Delete(t) => t < |s.threads| && s.threads[t].pc.Closed?
    case Finish(t, victim) => t < |s.threads| && s.threads[t].pc.Deleted? && VictimOk(s, victim)
  }

  /** A lookup that found nothing fresh: a plain `Get` ends, a `Do` goes on. */
  function AfterMiss(th: Thread): PC {
    if th.full then Missed else Done(Outcome([], None), false, Miss)
  }

  function Step(s: State, a: Action): State
    requires Enabled(s, a)
  {
    match a
    case Tick(d) => s.(now := s.now + d)
    case Spawn(key, full) => s.(threads := s.threads + [Thread(key, full, Entered)])
    case SetDirect(key, val, victim) => Stored(s, key, val, victim, Direct)
    case ReadStore(t) =>
      var th := s.threads[t];
      if s.ttl <= 0 then Goto(s, t, AfterMiss(th))
      else Goto(s, t, Read(Lookup(s.store, th.key)))
    case CheckFresh(t) =>
      var th := s.threads[t];
      if Fresh(th.pc.e, s.now) then
        Goto(s, t, Done(Outcome(th.pc.e.value.val, None), true, Hit(th.pc.e.value.exp, s.now))).(hits := s.hits + 1)
      else
        Goto(s, t, AfterMiss(th)).(misses := s.misses + 1)
    case JoinOrLead(t) =>
      var key := s.threads[t].key;
      if key in s.calls then Goto(s, t, Waiting(s.calls[key]))
      else Goto(s, t, Running(|s.heap|)).(heap := s.heap + [ZERO_CALL], leaders := s.leaders + [t],
                                         calls := s.calls[key := |s.heap|])
    case Wake(t) => Goto(s, t, Woken(s.threads[t].pc.c))
    case CountShared(t) =>
      var c := s.threads[t].pc.c;
      Goto(s, t, Done(s.heap[c].result, true, Joined(c))).(shared := s.shared + 1)
    case FnReturn(t, out) => Goto(s, t, Returned(s.threads[t].pc.c, out))
    case Fill(t) =>
      var pc := s.threads[t].pc;
      Goto(s, t, Filled(pc.c, pc.out)).(heap := s.heap[pc.c := s.heap[pc.c].(result := pc.out)])
    case Close(t) =>
      var pc := s.threads[t].pc;
      Goto(s, t, Closed(pc.c, pc.out)).(heap := s.heap[pc.c := s.heap[pc.c].(closed := true)])
    case Delete(t) =>
      var pc := s.threads[t].pc;
      Goto(s, t, Deleted(pc.c, pc.out)).(calls := s.calls - {s.threads[t].key})
    case Finish(t, victim) =>
      var th := s.threads[t];
      var s' := if Storable(th.pc.out) then Stored(s, th.key, th.pc.out.val, victim, Leader(th.pc.c)) else s;
      Goto(s', t, Done(th.pc.out, false, Led(th.pc.c)))
  }

  /** A run: `states[0]` initial, each next state one enabled step later. */
  ghost predicate Run(states: seq<State>, actions: seq<Action>) {
    && |states| == |actions| + 1
    && (exists ttl, cap, now :: states[0] == Init(ttl, cap, now))
    && forall i {:trigger actions[i]} | 0 <= i < |actions| ::
        Enabled(states[i], actions[i]) && states[i + 1] == Step(states[i], actions[i])
  }

  // ---------------------------------------------------------------- invariant

  /** The call a thread created, if it is or was a leader. */
  function LedCall(pc: PC): Option<nat> {
    match pc
    case Running(c) => Some(c)
    case Returned(c, _) => Some(c)
    case Filled(c, _) => Some(c)
    case Closed(c, _) => Some(c)
    case Deleted(c, _) => Some(c)
    case Done(_, _, Led(c)) => Some(c)
    case _ => None
  }

  /** The call a thread joined, if it did. */
  function JoinedCall(pc: PC): Option<nat> {
    match pc
    case Waiting(c) => Some(c)
    case Woken(c) => Some(c)
    case Done(_, _, Joined(c)) => Some(c)
    case _ => None
  }

  /** Between the insert at line 116 and the delete at line 125. */
  predicate InTable(pc: PC) {
    pc.Running? || pc.Returned? || pc.Filled? || pc.Closed?
  }

  predicate PastClose(pc: PC) {
    pc.Closed? || pc.Deleted? || pc.Done?
  }

  /** What call `c` must look like, given where its leader is. */
  ghost predicate CallOk(s: State, c: nat)
    requires c < |s.heap| == |s.leaders|
  {
    var t := s.leaders[c];
    && t < |s.threads|
    && s.threads[t].full
    && var pc := s.threads[t].pc;
    && LedCall(pc) == Some(c)
    && (InTable(pc) <==> s.threads[t].key in s.calls && s.calls[s.threads[t].key] == c)
    && (s.heap[c].closed <==> PastClose(pc))
    && (pc.Filled? || PastClose(pc) ==> s.heap[c].result == pc.out)
  }

  /** Some `Set` under `key` stored `val` at time `at`. */
  ghost predicate Written(writes: seq<Write>, key: Key, val: Blob, at: int) {
    exists i :: 0 <= i < |writes| && writes[i].key == key && writes[i].val == val && writes[i].at == at
  }

  /** An entry that some `Set` stored under `key`, not in the future. */
  ghost predicate Stamped(s: State, key: Key, e: Entry) {
    Written(s.writes, key, e.val, e.exp - s.ttl) && e.exp - s.ttl <= s.now
  }

  ghost predicate ThreadOk(s: State, t: nat)
    requires t < |s.threads| && |s.heap| == |s.leaders|
  {
    var th := s.threads[t];
    && (th.pc.Missed? ==> th.full)
    && (th.pc.Read? ==> s.ttl > 0)
    && (LedCall(th.pc).Some? ==> LedCall(th.pc).value < |s.heap| && s.leaders[LedCall(th.pc).value] == t)
    && (JoinedCall(th.pc).Some? ==> JoinOk(s, t, JoinedCall(th.pc).value))
    && (th.pc.Read? && th.pc.e.Some? ==> s.ttl > 0 && Stamped(s, th.key, th.pc.e.value))
    && (th.pc.Done? && th.pc.how.Miss? ==> !th.full)
    && (th.pc.Done? && th.pc.how.Hit? ==> HitOk(s, th))
  }

  ghost predicate JoinOk(s: State, t: nat, c: nat)
    requires t < |s.threads| && |s.heap| == |s.leaders|
  {
    var th := s.threads[t];
    && c < |s.heap|
    && th.full
    && s.leaders[c] < |s.threads|
    && s.threads[s.leaders[c]].key == th.key
    && (!th.pc.Waiting? ==> s.heap[c].closed)
    && (th.pc.Done? ==> th.pc.out == s.heap[c].result)
  }

  ghost predicate HitOk(s: State, th: Thread)
    requires th.pc.Done? && th.pc.how.Hit?
  {
    && th.pc.how.exp - s.ttl <= th.pc.how.at <= th.pc.how.exp
    && th.pc.how.at <= s.now
    && th.pc.out.err == None
    && Written(s.writes, th.key, th.pc.out.val, th.pc.how.exp - s.ttl)
  }

  /** A leader's write holds the non-empty, error-free result of its own call. */
  ghost predicate WriteOk(s: State, w: Write)
    requires |s.heap| == |s.leaders|
  {
    && w.at <= s.now
    && (w.writer.Leader? ==>
      && w.writer.c < |s.heap|
      && s.leaders[w.writer.c] < |s.threads|
      && s.threads[s.leaders[w.writer.c]].key == w.key
      && s.threads[s.leaders[w.writer.c]].pc.Done?
      && s.threads[s.leaders[w.writer.c]].pc.out.val == w.val
      && Storable(s.threads[s.leaders[w.writer.c]].pc.out))
  }

  ghost predicate CallsOk(s: State) {
    && |s.heap| == |s.leaders|
    && (forall c: nat | c < |s.heap| :: CallOk(s, c))
    && (forall k | k in s.calls :: s.calls[k] < |s.heap| && s.leaders[s.calls[k]] < |s.threads|
          && s.threads[s.leaders[s.calls[k]]].key == k)
  }

  ghost predicate ThreadsOk(s: State) {
    |s.heap| == |s.leaders| && forall t: nat | t < |s.threads| :: ThreadOk(s, t)
  }

  ghost predicate StoreOk(s: State) {
    && |s.heap| == |s.leaders|
    && (s.cap > 0 ==> |s.store| <= s.cap)
    && (forall k | k in s.store :: Stamped(s, k, s.store[k]))
    && (forall i | 0 <= i < |s.writes| :: WriteOk(s, s.writes[i]))
  }

  ghost predicate Inv(s: State) {
    CallsOk(s) && ThreadsOk(s) && StoreOk(s) && CountersOk(s)
  }

  // ---------------------------------------------------------------- counting

  datatype Kind = DoneHit | DoneMiss | DoneJoined | DoneLed | EverLed | GaveUp | FnOver

  predicate Is(kind: Kind, pc: PC) {
    match kind
    case DoneHit => pc.Done? && pc.how.Hit?
    case DoneMiss => pc.Done? && pc.how.Miss?
    case DoneJoined => pc.Done? && pc.how.Joined?
    case DoneLed => pc.Done? && pc.how.Led?
    case EverLed => LedCall(pc).Some?
    case FnOver => LedCall(pc).Some? && !pc.Running?
    case GaveUp => !pc.Entered? && !pc.Read? && !(pc.Done? && pc.how.Hit?)
  }

  function Count(threads: seq<Thread>, kind: Kind): nat {
    if threads == [] then 0
    else Count(threads[..|threads| - 1], kind) + Bit(Is(kind, threads[|threads| - 1].pc))
  }

  lemma {:induction false} CountUpdate(threads: seq<Thread>, t: nat, th: Thread, kind: Kind)
    requires t < |threads|
    ensures Count(threads[t := th], kind) == Count(threads, kind) - Bit(Is(kind, threads[t].pc)) + Bit(Is(kind, th.pc))
  {
    var n := |threads| - 1;
    if t == n {
      assert threads[t := th][..n] == threads[..n];
    } else {
      assert threads[t := th][..n] == threads[..n][t := th];
      CountUpdate(threads[..n], t, th, kind);
    }
  }

  lemma CountAppend(threads: seq<Thread>, th: Thread, kind: Kind)
    ensures Count(threads + [th], kind) == Count(threads, kind) + Bit(Is(kind, th.pc))
  {
    assert (threads + [th])[..|threads|] == threads;
  }

  ghost predicate CountersOk(s: State) {
    && s.hits == Count(s.threads, DoneHit)
    && s.shared == Count(s.threads, DoneJoined)
    && |s.heap| == Count(s.threads, EverLed)
    && (s.ttl > 0 ==> s.misses == Count(s.threads, GaveUp))
    && (s.ttl <= 0 ==> s.misses == 0)
  }

  lemma StepKeepsCounters(s: State, a: Action)
    requires CountersOk(s) && Enabled(s, a)
    requires Actor(a).Some? && s.threads[Actor(a).value].pc.Read? ==> s.ttl > 0
    ensures CountersOk(Step(s, a))
  {
    StepKeepsTallies(s, a);
    StepKeepsMisses(s, a);
  }

  lemma StepKeepsTallies(s: State, a: Action)
    requires CountersOk(s) && Enabled(s, a)
    ensures Step(s, a).hits == Count(Step(s, a).threads, DoneHit)
    ensures Step(s, a).shared == Count(Step(s, a).threads, DoneJoined)
    ensures |Step(s, a).heap| == Count(Step(s, a).threads, EverLed)
  {
    StepKeepsHits(s, a);
    StepKeepsShared(s, a);
    StepKeepsLed(s, a);
  }

  lemma StepKeepsHits(s: State, a: Action)
    requires s.hits == Count(s.threads, DoneHit) && Enabled(s, a)
    ensures Step(s, a).hits == Count(Step(s, a).threads, DoneHit)
  {
    StepCounts(s, a, DoneHit);
  }

  lemma StepKeepsShared(s: State, a: Action)
    requires s.shared == Count(s.threads, DoneJoined) && Enabled(s, a)
    ensures Step(s, a).shared == Count(Step(s, a).threads, DoneJoined)
  {
    StepCounts(s, a, DoneJoined);
  }

  lemma StepKeepsLed(s: State, a: Action)
    requires |s.heap| == Count(s.threads, EverLed) && Enabled(s, a)
    ensures |Step(s, a).heap| == Count(Step(s, a).threads, EverLed)
  {
    StepCounts(s, a, EverLed);
    LeadingMakesACall(s, a);
  }

  lemma LeadingMakesACall(s: State, a: Action)
    requires Enabled(s, a)
    ensures Actor(a) == None ==> Step(s, a).heap == s.heap
    ensures Actor(a).Some? ==>
      |Step(s, a).heap| == |s.heap| - Bit(Is(EverLed, s.threads[Actor(a).value].pc))
          + Bit(Is(EverLed, Step(s, a).threads[Actor(a).value].pc))
  {
    StepKeepsKeys(s, a);
  }

  lemma StepKeepsMisses(s: State, a: Action)
    requires CountersOk(s) && Enabled(s, a)
    requires Actor(a).Some? && s.threads[Actor(a).value].pc.Read? ==> s.ttl > 0
    ensures Step(s, a).misses == if s.ttl > 0 then Count(Step(s, a).threads, GaveUp) else 0
    ensures Step(s, a).ttl == s.ttl
  {
    StepCounts(s, a, GaveUp);
  }

  function Actor(a: Action): Option<nat> {
    match a
    case Tick(_) => None
    case Spawn(_, _) => None
    case SetDirect(_, _, _) => None
    case ReadStore(t) => Some(t)
    case CheckFresh(t) => Some(t)
    case JoinOrLead(t) => Some(t)
    case Wake(t) => Some(t)
    case CountShared(t) => Some(t)
    case FnReturn(t, _) => Some(t)
    case Fill(t) => Some(t)
    case Close(t) => Some(t)
    case Delete(t) => Some(t)
    case Finish(t, _) => Some(t)
  }

  ghost predicate CountedStep(s: State, a: Action, kind: Kind)
    requires Enabled(s, a)
  {
    var s' := Step(s, a);
    match Actor(a)
    case None =>
      if a.Spawn? then Count(s'.threads, kind) == Count(s.threads, kind) + Bit(Is(kind, Entered))
      else s'.threads == s.threads
    case Some(t) =>
      && t < |s.threads| == |s'.threads|
      && Count(s'.threads, kind)
         == Count(s.threads, kind) - Bit(Is(kind, s.threads[t].pc)) + Bit(Is(kind, s'.threads[t].pc))
  }

  lemma StepCounts(s: State, a: Action, kind: Kind)
    requires Enabled(s, a)
    ensures CountedStep(s, a, kind)
  {
    var s' := Step(s, a);
    match Actor(a) {
      case None =>
        if a.Spawn? { CountAppend(s.threads, Thread(a.key, a.full, Entered), kind); }
      case Some(t) =>
        assert s'.threads == s.threads[t := s'.threads[t]];
        CountUpdate(s.threads, t, s'.threads[t], kind);
    }
  }

  // ---------------------------------------------------------------- every step keeps the invariant

  /** What the acting thread may rely on: its own state, and the call it leads or would join. */
  ghost predicate ActorOk(s: State, a: Action)
    requires Enabled(s, a) && |s.heap| == |s.leaders|
  {
    Actor(a).Some? ==>
      var th := s.threads[Actor(a).value];
      && ThreadOk(s, Actor(a).value)
      && (LedCall(th.pc).Some? ==> CallOk(s, LedCall(th.pc).value))
      && (th.key in s.calls ==>
        && s.calls[th.key] < |s.heap|
        && s.leaders[s.calls[th.key]] < |s.threads|
        && s.threads[s.leaders[s.calls[th.key]]].key == th.key
        && CallOk(s, s.calls[th.key]))
  }

  lemma ActorIsOk(s: State, a: Action)
    requires CallsOk(s) && ThreadsOk(s) && Enabled(s, a)
    ensures ActorOk(s, a)
  {
    if Actor(a).Some? {
      var t := Actor(a).value;
      assert ThreadOk(s, t);
      if LedCall(s.threads[t].pc).Some? { assert CallOk(s, LedCall(s.threads[t].pc).value); }
    }
  }

  predicate TouchesTable(a: Action) {
    a.JoinOrLead? || a.Delete?
  }

  /** Steps that leave the table of calls alone. */
  lemma QuietStepKeepsCall(s: State, a: Action, c: nat)
    requires Enabled(s, a) && |s.heap| == |s.leaders| && c < |s.heap| && CallOk(s, c) && ActorOk(s, a)
    requires !TouchesTable(a)
    ensures |Step(s, a).heap| == |s.heap| == |Step(s, a).leaders| && CallOk(Step(s, a), c)
  {
    if Actor(a) == Some(s.leaders[c]) {
      LeaderKeepsCall(s, a, c);
    } else {
      StepKeepsKeys(s, a);
      if Actor(a).Some? { assert LedCall(s.threads[Actor(a).value].pc) != Some(c); }
      OthersKeepHeap(s, a, c);
    }
  }

  lemma LeaderKeepsCall(s: State, a: Action, c: nat)
    requires Enabled(s, a) && |s.heap| == |s.leaders| && c < |s.heap| && CallOk(s, c)
    requires !TouchesTable(a) && Actor(a) == Some(s.leaders[c])
    ensures |Step(s, a).heap| == |s.heap| == |Step(s, a).leaders| && CallOk(Step(s, a), c)
  {
    assert LedCall(s.threads[s.leaders[c]].pc) == Some(c);
    assert a.FnReturn? || a.Fill? || a.Close? || a.Finish?;
  }

  lemma OthersKeepHeap(s: State, a: Action, c: nat)
    requires Enabled(s, a) && |s.heap| == |s.leaders| && c < |s.heap| && !TouchesTable(a)
    requires Actor(a).Some? ==> LedCall(s.threads[Actor(a).value].pc) != Some(c)
    ensures |Step(s, a).heap| == |s.heap| && Step(s, a).heap[c] == s.heap[c]
    ensures Step(s, a).leaders == s.leaders && Step(s, a).calls == s.calls
  {
  }

  lemma TableStepKeepsCall(s: State, a: Action, c: nat)
    requires Enabled(s, a) && |s.heap| == |s.leaders| && c < |s.heap| && CallOk(s, c) && ActorOk(s, a)
    requires TouchesTable(a)
    ensures c < |Step(s, a).heap| == |Step(s, a).leaders| && CallOk(Step(s, a), c)
  {
    var t := Actor(a).value;
    if t != s.leaders[c] { assert LedCall(s.threads[t].pc) != Some(c); }
  }

  lemma StepKeepsCall(s: State, a: Action, c: nat)
    requires Enabled(s, a) && |s.heap| == |s.leaders| && c < |Step(s, a).heap| == |Step(s, a).leaders|
    requires c < |s.heap| ==> CallOk(s, c)
    requires ActorOk(s, a)
    ensures CallOk(Step(s, a), c)
  {
    if c == |s.heap| {
      assert a.JoinOrLead?;
    } else if TouchesTable(a) {
      TableStepKeepsCall(s, a, c);
    } else {
      QuietStepKeepsCall(s, a, c);
    }
  }

  lemma StepKeepsTable(s: State, a: Action)
    requires CallsOk(s) && Enabled(s, a) && ActorOk(s, a)
    ensures |Step(s, a).heap| == |Step(s, a).leaders|
    ensures forall k | k in Step(s, a).calls ::
      && Step(s, a).calls[k] < |Step(s, a).heap| && Step(s, a).leaders[Step(s, a).calls[k]] < |Step(s, a).threads|
      && Step(s, a).threads[Step(s, a).leaders[Step(s, a).calls[k]]].key == k
  {
    StepKeepsKeys(s, a);
    TableEntries(s, a);
  }

  /** An entry of the table after a step was there before, or is the new leader's. */
  lemma TableEntries(s: State, a: Action)
    requires |s.heap| == |s.leaders| && Enabled(s, a)
    ensures |Step(s, a).heap| == |Step(s, a).leaders| >= |s.heap|
    ensures forall k | k in Step(s, a).calls ::
      || (k in s.calls && Step(s, a).calls[k] == s.calls[k])
      || (a.JoinOrLead? && k == s.threads[a.t].key && Step(s, a).calls[k] == |s.heap|
          && Step(s, a).leaders == s.leaders + [a.t])
  {
  }

  /** A step neither renames nor removes a thread. */
  lemma StepKeepsKeys(s: State, a: Action)
    requires Enabled(s, a)
    ensures |s.threads| <= |Step(s, a).threads| && s.leaders <= Step(s, a).leaders
    ensures forall t: nat | t < |s.threads| :: Step(s, a).threads[t].key == s.threads[t].key
    ensures forall t: nat | t < |s.threads| && Actor(a) != Some(t) :: Step(s, a).threads[t] == s.threads[t]
    ensures Step(s, a).ttl == s.ttl
  {
  }

  lemma StepKeepsCalls(s: State, a: Action)
    requires CallsOk(s) && ThreadsOk(s) && Enabled(s, a)
    ensures CallsOk(Step(s, a))
  {
    ActorIsOk(s, a);
    StepKeepsTable(s, a);
    forall c: nat | c < |Step(s, a).heap| ensures CallOk(Step(s, a), c) { StepKeepsCall(s, a, c); }
  }

  lemma WrittenGrows(writes: seq<Write>, w: Write, key: Key, val: Blob, at: int)
    requires Written(writes, key, val, at)
    ensures Written(writes + [w], key, val, at)
  {
    var i :| 0 <= i < |writes| && writes[i].key == key && writes[i].val == val && writes[i].at == at;
    assert (writes + [w])[i] == writes[i];
  }

  lemma WrittenStep(s: State, a: Action, key: Key, val: Blob, at: int)
    requires Enabled(s, a) && Written(s.writes, key, val, at)
    ensures Written(Step(s, a).writes, key, val, at)
  {
    if Step(s, a).writes != s.writes {
      WrittenGrows(s.writes, Step(s, a).writes[|s.writes|], key, val, at);
      assert Step(s, a).writes == s.writes + [Step(s, a).writes[|s.writes|]];
    }
  }

  lemma JoinSurvives(s: State, a: Action, t: nat, c: nat)
    requires Enabled(s, a) && |s.heap| == |s.leaders| && t < |s.threads| && Actor(a) != Some(t)
    requires JoinOk(s, t, c) && ActorOk(s, a) && CallOk(s, c)
    ensures |Step(s, a).heap| == |Step(s, a).leaders| && JoinOk(Step(s, a), t, c)
  {
    StepKeepsKeys(s, a);
    if a.Fill? || a.Close? { assert s.threads[Actor(a).value].pc.c == c ==> !PastClose(s.threads[s.leaders[c]].pc); }
    CallSurvives(s, a, c);
  }

  /** Once closed, a call's result and its closing stand. */
  lemma CallSurvives(s: State, a: Action, c: nat)
    requires Enabled(s, a) && |s.heap| == |s.leaders| && c < |s.heap| && ActorOk(s, a) && CallOk(s, c)
    ensures c < |Step(s, a).heap| == |Step(s, a).leaders|
    ensures s.heap[c].closed ==> Step(s, a).heap[c] == s.heap[c]
  {
  }

  lemma OthersKeepThread(s: State, a: Action, t: nat)
    requires Enabled(s, a) && |s.heap| == |s.leaders| && t < |s.threads| && Actor(a) != Some(t)
    requires ThreadOk(s, t) && ActorOk(s, a)
    requires JoinedCall(s.threads[t].pc).Some? ==> CallOk(s, JoinedCall(s.threads[t].pc).value)
    ensures |Step(s, a).heap| == |Step(s, a).leaders| && t < |Step(s, a).threads| && ThreadOk(Step(s, a), t)
  {
    var th := s.threads[t];
    assert Step(s, a).threads[t] == th;
    if JoinedCall(th.pc).Some? { JoinSurvives(s, a, t, JoinedCall(th.pc).value); }
    if th.pc.Read? && th.pc.e.Some? { WrittenStep(s, a, th.key, th.pc.e.value.val, th.pc.e.value.exp - s.ttl); }
    if th.pc.Done? && th.pc.how.Hit? { WrittenStep(s, a, th.key, th.pc.out.val, th.pc.how.exp - s.ttl); }
  }

  lemma ReaderKeepsThread(s: State, a: Action, t: nat)
    requires Enabled(s, a) && |s.heap| == |s.leaders| && t < |s.threads| && Actor(a) == Some(t)
    requires ThreadOk(s, t) && (a.ReadStore? || a.CheckFresh?)
    requires forall k | k in s.store :: Stamped(s, k, s.store[k])
    ensures ThreadOk(Step(s, a), t)
  {
  }

  lemma JoinerKeepsThread(s: State, a: Action, t: nat)
    requires Enabled(s, a) && |s.heap| == |s.leaders| && t < |s.threads| && Actor(a) == Some(t)
    requires ActorOk(s, a) && (a.JoinOrLead? || a.Wake? || a.CountShared?)
    requires JoinedCall(s.threads[t].pc).Some? ==> CallOk(s, JoinedCall(s.threads[t].pc).value)
    ensures |Step(s, a).heap| == |Step(s, a).leaders| && ThreadOk(Step(s, a), t)
  {
    assert ThreadOk(s, t);
  }

  lemma LeaderKeepsThread(s: State, a: Action, t: nat)
    requires Enabled(s, a) && |s.heap| == |s.leaders| && t < |s.threads| && Actor(a) == Some(t)
    requires ThreadOk(s, t) && (a.FnReturn? || a.Fill? || a.Close? || a.Delete? || a.Finish?)
    ensures |Step(s, a).heap| == |Step(s, a).leaders| && ThreadOk(Step(s, a), t)
  {
    assert LedCall(s.threads[t].pc).Some?;
    assert LedCall(Step(s, a).threads[t].pc) == LedCall(s.threads[t].pc);
    assert JoinedCall(Step(s, a).threads[t].pc) == None;
  }

  lemma ActorKeepsThread(s: State, a: Action, t: nat)
    requires Enabled(s, a) && |s.heap| == |s.leaders| && t < |s.threads| && Actor(a) == Some(t)
    requires ActorOk(s, a)
    requires forall k | k in s.store :: Stamped(s, k, s.store[k])
    requires JoinedCall(s.threads[t].pc).Some? ==> CallOk(s, JoinedCall(s.threads[t].pc).value)
    ensures |Step(s, a).heap| == |Step(s, a).leaders| && t < |Step(s, a).threads| && ThreadOk(Step(s, a), t)
  {
    if a.ReadStore? || a.CheckFresh? {
      ReaderKeepsThread(s, a, t);
    } else if a.JoinOrLead? || a.Wake? || a.CountShared? {
      JoinerKeepsThread(s, a, t);
    } else {
      LeaderKeepsThread(s, a, t);
    }
  }

  lemma StepKeepsThread(s: State, a: Action, t: nat)
    requires CallsOk(s) && ThreadsOk(s) && StoreOk(s) && Enabled(s, a) && t < |Step(s, a).threads|
    ensures |Step(s, a).heap| == |Step(s, a).leaders| && ThreadOk(Step(s, a), t)
  {
    ActorIsOk(s, a);
    if t < |s.threads| {
      assert ThreadOk(s, t);
      if JoinedCall(s.threads[t].pc).Some? { assert CallOk(s, JoinedCall(s.threads[t].pc).value); }
      if Actor(a) == Some(t) { ActorKeepsThread(s, a, t); } else { OthersKeepThread(s, a, t); }
    }
  }

  lemma StepKeepsThreads(s: State, a: Action)
    requires Inv(s) && Enabled(s, a)
    ensures ThreadsOk(Step(s, a))
  {
    forall t: nat | t < |Step(s, a).threads| ensures ThreadOk(Step(s, a), t) { StepKeepsThread(s, a, t); }
  }

  lemma PutKeepsCap(store: map<Key, Entry>, cap: int, victim: Key, key: Key, e: Entry)
    requires cap > 0 && |store| <= cap
    requires Full(cap, store) ==> victim in store
    ensures |Put(store, cap, victim, key, e)| <= cap
  {
    if Full(cap, store) {
      RemoveShrinks(store, victim);
      InsertGrows(store - {victim}, key, e);
    } else {
      InsertGrows(store, key, e);
    }
  }

  lemma RemoveShrinks(store: map<Key, Entry>, victim: Key)
    requires victim in store
    ensures |store - {victim}| == |store| - 1
  {
    assert (store - {victim}).Keys == store.Keys - {victim};
    assert |store - {victim}| == |(store - {victim}).Keys| && |store| == |store.Keys|;
  }

  lemma InsertGrows(store: map<Key, Entry>, key: Key, e: Entry)
    ensures |store[key := e]| <= |store| + 1
  {
    assert store[key := e].Keys == store.Keys + {key};
    assert |store[key := e]| == |store[key := e].Keys| && |store| == |store.Keys|;
  }

  lemma StoredKeeps(s: State, key: Key, val: Blob, victim: Key, writer: Writer)
    requires |s.heap| == |s.leaders| && StoreOk(s) && VictimOk(s, victim)
    requires s.ttl > 0 ==> WriteOk(s, Write(key, val, s.now, writer))
    ensures StoreOk(Stored(s, key, val, victim, writer))
  {
    var s' := Stored(s, key, val, victim, writer);
    if s.ttl > 0 {
      if s.cap > 0 { PutKeepsCap(s.store, s.cap, victim, key, Entry(val, s.now + s.ttl)); }
      var w := Write(key, val, s.now, writer);
      assert s'.writes == s.writes + [w];
      AppendedWritesOk(s, s', w);
      forall k | k in s'.store ensures Stamped(s', k, s'.store[k]) {
        if k == key {
          assert s'.writes[|s.writes|] == Write(key, val, s.now, writer);
        } else {
          WrittenGrows(s.writes, Write(key, val, s.now, writer), k, s.store[k].val, s.store[k].exp - s.ttl);
        }
      }
    }
  }

  lemma AppendedWritesOk(s: State, s': State, w: Write)
    requires |s.heap| == |s.leaders| && WriteOk(s, w) && forall i | 0 <= i < |s.writes| :: WriteOk(s, s.writes[i])
    requires s'.heap == s.heap && s'.leaders == s.leaders && s'.threads == s.threads && s'.now == s.now
        && s'.writes == s.writes + [w]
    ensures forall i | 0 <= i < |s'.writes| :: WriteOk(s', s'.writes[i])
  {
    forall i | 0 <= i < |s'.writes| ensures WriteOk(s', s'.writes[i]) {
      assert i < |s.writes| ==> WriteOk(s, s.writes[i]);
    }
  }

  /** Moving a thread never invalidates a recorded write. */
  lemma WritesSurvive(s: State, s': State)
    requires |s.heap| == |s.leaders| && |s'.heap| == |s'.leaders| && StoreOk(s)
    requires s'.ttl == s.ttl && s'.cap == s.cap && s'.store == s.store && s'.writes == s.writes
    requires s.now <= s'.now && s.leaders <= s'.leaders && |s.threads| <= |s'.threads|
    requires forall t: nat | t < |s.threads| && s.threads[t].pc.Done? :: s'.threads[t] == s.threads[t]
    ensures StoreOk(s')
  {
    forall i | 0 <= i < |s'.writes| ensures WriteOk(s', s'.writes[i]) {
      assert WriteOk(s, s.writes[i]);
    }
  }

  /** The states a step passes through before it stores anything. */
  lemma StepKeepsWrites(s: State, a: Action)
    requires |s.heap| == |s.leaders| && StoreOk(s) && Enabled(s, a)
    requires !a.SetDirect? && !a.Finish?
    ensures |Step(s, a).heap| == |Step(s, a).leaders| && StoreOk(Step(s, a))
  {
    StepKeepsKeys(s, a);
    LeavesStore(s, a);
    LeavesDone(s, a);
    WritesSurvive(s, Step(s, a));
  }

  lemma LeavesStore(s: State, a: Action)
    requires Enabled(s, a) && !a.SetDirect? && !a.Finish?
    ensures Step(s, a).store == s.store && Step(s, a).writes == s.writes
    ensures Step(s, a).cap == s.cap && Step(s, a).now >= s.now
    ensures |s.heap| == |s.leaders| ==> |Step(s, a).heap| == |Step(s, a).leaders|
  {
  }

  lemma LeavesDone(s: State, a: Action)
    requires Enabled(s, a)
    ensures forall t: nat | t < |s.threads| && s.threads[t].pc.Done? ::
        t < |Step(s, a).threads| && Step(s, a).threads[t] == s.threads[t]
  {
    StepKeepsKeys(s, a);
    assert Actor(a).Some? ==> Actor(a).value < |s.threads| && !s.threads[Actor(a).value].pc.Done?;
  }

  /** The finishing thread's last state, before its `Set`. */
  function LedState(s: State, t: nat): State
    requires t < |s.threads| && s.threads[t].pc.Deleted?
  {
    Goto(s, t, Done(s.threads[t].pc.out, false, Led(s.threads[t].pc.c)))
  }

  lemma FinishIsStored(s: State, t: nat, victim: Key)
    requires Enabled(s, Finish(t, victim))
    ensures Step(s, Finish(t, victim)) ==
      if Storable(s.threads[t].pc.out)
      then Stored(LedState(s, t), s.threads[t].key, s.threads[t].pc.out.val, victim, Leader(s.threads[t].pc.c))
      else LedState(s, t)
  {
  }

  lemma FinishKeepsStore(s: State, t: nat, victim: Key)
    requires |s.heap| == |s.leaders| && StoreOk(s) && Enabled(s, Finish(t, victim)) && ThreadOk(s, t)
    ensures |Step(s, Finish(t, victim)).heap| == |s.leaders| && StoreOk(Step(s, Finish(t, victim)))
  {
    var th := s.threads[t];
    var done := LedState(s, t);
    FinishIsStored(s, t, victim);
    WritesSurvive(s, done);
    if Storable(th.pc.out) {
      FinishedIsWriter(s, t);
      StoredKeeps(done, th.key, th.pc.out.val, victim, Leader(th.pc.c));
    }
  }

  lemma FinishedIsWriter(s: State, t: nat)
    requires |s.heap| == |s.leaders| && t < |s.threads| && s.threads[t].pc.Deleted? && ThreadOk(s, t)
    ensures Storable(s.threads[t].pc.out) ==>
      WriteOk(LedState(s, t), Write(s.threads[t].key, s.threads[t].pc.out.val, s.now, Leader(s.threads[t].pc.c)))
  {
    assert LedCall(s.threads[t].pc) == Some(s.threads[t].pc.c);
  }

  lemma StepKeepsStore(s: State, a: Action)
    requires CallsOk(s) && ThreadsOk(s) && StoreOk(s) && Enabled(s, a)
    ensures StoreOk(Step(s, a))
  {
    match a {
      case SetDirect(key, val, victim) => StoredKeeps(s, key, val, victim, Direct);
      case Finish(t, victim) =>
        ActorIsOk(s, a);
        FinishKeepsStore(s, t, victim);
      case _ => StepKeepsWrites(s, a);
    }
  }

  lemma StepKeepsInv(s: State, a: Action)
    requires Inv(s) && Enabled(s, a)
    ensures Inv(Step(s, a))
  {
    StepKeepsCalls(s, a);
    StepKeepsThreads(s, a);
    StepKeepsStore(s, a);
    if Actor(a).Some? { assert ThreadOk(s, Actor(a).value); }
    StepKeepsCounters(s, a);
  }

  /** Every state of every run satisfies the invariant. */
  lemma {:induction false} RunsKeepInv(states: seq<State>, actions: seq<Action>, i: nat)
    requires Run(states, actions) && i < |states|
    ensures Inv(states[i])
  {
    if i > 0 {
      RunsKeepInv(states, actions, i - 1);
      StepKeepsInv(states[i - 1], actions[i - 1]);
    }
  }

  // ---------------------------------------------------------------- theorems about every run

  /** Singleflight: two lookups of one key are never both between the insert and
      the delete, and the table holds a key exactly while such a leader exists. */
  lemma AtMostOneLeader(states: seq<State>, actions: seq<Action>, i: nat, t: nat, u: nat)
    requires Run(states, actions) && i < |states|
    requires t < |states[i].threads| && u < |states[i].threads|
    requires InTable(states[i].threads[t].pc) && InTable(states[i].threads[u].pc)
    requires states[i].threads[t].key == states[i].threads[u].key
    ensures t == u && states[i].threads[t].key in states[i].calls
  {
    RunsKeepInv(states, actions, i);
    var s := states[i];
    assert ThreadOk(s, t) && ThreadOk(s, u);
    assert CallOk(s, LedCall(s.threads[t].pc).value) && CallOk(s, LedCall(s.threads[u].pc).value);
  }

  lemma EveryTableEntryHasALeader(states: seq<State>, actions: seq<Action>, i: nat, key: Key)
    requires Run(states, actions) && i < |states| && key in states[i].calls
    ensures exists t: nat ::
              t < |states[i].threads| && states[i].threads[t].key == key && InTable(states[i].threads[t].pc)
  {
    RunsKeepInv(states, actions, i);
    var s := states[i];
    assert CallOk(s, s.calls[key]);
    assert InTable(s.threads[s.leaders[s.calls[key]]].pc);
  }

  /** A joiner returns exactly what its leader's `fn` returned, for its own key. */
  lemma JoinersGetTheLeadersResult(states: seq<State>, actions: seq<Action>, i: nat, t: nat)
    requires Run(states, actions) && i < |states| && t < |states[i].threads|
    requires states[i].threads[t].pc.Done? && states[i].threads[t].pc.how.Joined?
    ensures exists u: nat :: u < |states[i].threads| && u != t && states[i].threads[u].full
              && states[i].threads[u].key == states[i].threads[t].key
              && LedCall(states[i].threads[u].pc) == Some(states[i].threads[t].pc.how.c)
              && PastClose(states[i].threads[u].pc)
              && states[i].threads[u].pc.out == states[i].threads[t].pc.out
  {
    RunsKeepInv(states, actions, i);
    var s := states[i];
    assert ThreadOk(s, t);
    assert CallOk(s, s.threads[t].pc.how.c);
    var u := s.leaders[s.threads[t].pc.how.c];
    assert u != t by { assert LedCall(s.threads[t].pc) == None; }
  }

  /** Nobody waits on an open channel whose leader is gone. */
  lemma WaitersHaveALiveLeader(states: seq<State>, actions: seq<Action>, i: nat, t: nat)
    requires Run(states, actions) && i < |states| && t < |states[i].threads|
    requires states[i].threads[t].pc.Waiting?
    ensures states[i].threads[t].pc.c < |states[i].heap|
    ensures !states[i].heap[states[i].threads[t].pc.c].closed ==>
      exists u: nat :: u < |states[i].threads| && LedCall(states[i].threads[u].pc) == Some(states[i].threads[t].pc.c)
        && (states[i].threads[u].pc.Running? || states[i].threads[u].pc.Returned? || states[i].threads[u].pc.Filled?)
  {
    RunsKeepInv(states, actions, i);
    var s := states[i];
    assert ThreadOk(s, t);
    assert CallOk(s, s.threads[t].pc.c);
    var u := s.leaders[s.threads[t].pc.c];
    assert LedCall(s.threads[u].pc) == Some(s.threads[t].pc.c);
  }

  lemma StoreStaysWithinCap(states: seq<State>, actions: seq<Action>, i: nat)
    requires Run(states, actions) && i < |states| && states[i].cap > 0
    ensures |states[i].store| <= states[i].cap
  {
    RunsKeepInv(states, actions, i);
  }

  /** A hit returns a value that some `Set` put under the same key before it, and at most
      `ttl` earlier. */
  lemma HitsAreFresh(states: seq<State>, actions: seq<Action>, i: nat, t: nat)
    requires Run(states, actions) && i < |states| && t < |states[i].threads|
    requires states[i].threads[t].pc.Done? && states[i].threads[t].pc.how.Hit?
    ensures exists j :: 0 <= j < |states[i].writes|
              && states[i].writes[j].key == states[i].threads[t].key
              && states[i].writes[j].val == states[i].threads[t].pc.out.val
              && states[i].writes[j].at <= states[i].threads[t].pc.how.at <= states[i].writes[j].at + states[i].ttl
  {
    RunsKeepInv(states, actions, i);
    var s := states[i];
    assert ThreadOk(s, t);
    var th := s.threads[t];
    assert Written(s.writes, th.key, th.pc.out.val, th.pc.how.exp - s.ttl);
  }

  /** `val` was returned without error by an `fn` run for `key`, or given to `Set` under `key`. */
  ghost predicate FromRunOrSet(s: State, key: Key, val: Blob) {
    || (exists u: nat :: u < |s.threads| && s.threads[u].key == key && s.threads[u].full
          && LedCall(s.threads[u].pc).Some? && PastClose(s.threads[u].pc) && s.threads[u].pc.out == Outcome(val, None))
    || (exists j ::
          0 <= j < |s.writes| && s.writes[j].key == key && s.writes[j].val == val && s.writes[j].writer == Direct)
  }

  lemma WrittenMeansFromRunOrSet(s: State, key: Key, val: Blob, at: int)
    requires Inv(s) && Written(s.writes, key, val, at)
    ensures FromRunOrSet(s, key, val)
  {
    var j :| 0 <= j < |s.writes| && s.writes[j].key == key && s.writes[j].val == val && s.writes[j].at == at;
    assert WriteOk(s, s.writes[j]);
    if s.writes[j].writer.Leader? {
      var c := s.writes[j].writer.c;
      assert CallOk(s, c);
      assert s.threads[s.leaders[c]].key == key;
    }
  }

  lemma AnswersBelongToTheirKey(states: seq<State>, actions: seq<Action>, i: nat, t: nat)
    requires Run(states, actions) && i < |states| && t < |states[i].threads|
    requires states[i].threads[t].full && states[i].threads[t].pc.Done? && states[i].threads[t].pc.out.err == None
    ensures FromRunOrSet(states[i], states[i].threads[t].key, states[i].threads[t].pc.out.val)
  {
    RunsKeepInv(states, actions, i);
    var s := states[i];
    var th := s.threads[t];
    assert ThreadOk(s, t);
    match th.pc.how {
      case Hit(exp, at) => WrittenMeansFromRunOrSet(s, th.key, th.pc.out.val, exp - s.ttl);
      case Joined(c) =>
        JoinersGetTheLeadersResult(states, actions, i, t);
        assert th.pc.out == Outcome(th.pc.out.val, None);
      case Led(c) =>
      case Miss => assert false;
    }
  }

  /** Whatever direct `Set`s occur, what a leader stores is the non-empty, error-free result
      of its own `fn`, under its own key; and the store holds nothing that was not written. */
  lemma ErrorsAreNeverStored(states: seq<State>, actions: seq<Action>, i: nat)
    requires Run(states, actions) && i < |states|
    ensures forall j | 0 <= j < |states[i].writes| && states[i].writes[j].writer.Leader? ::
              LeaderWrote(states[i], states[i].writes[j])
    ensures forall k | k in states[i].store ::
              Written(states[i].writes, k, states[i].store[k].val, states[i].store[k].exp - states[i].ttl)
  {
    RunsKeepInv(states, actions, i);
    var s := states[i];
    forall j | 0 <= j < |s.writes| && s.writes[j].writer.Leader? ensures LeaderWrote(s, s.writes[j]) {
      var w := s.writes[j];
      assert WriteOk(s, w) && CallOk(s, w.writer.c);
      var u := s.leaders[w.writer.c];
      assert s.threads[u].pc.out == Outcome(w.val, None);
    }
    forall k | k in s.store ensures Written(s.writes, k, s.store[k].val, s.store[k].exp - s.ttl) {
      assert Stamped(s, k, s.store[k]);
    }
  }

  /** Some finished leader of the key got exactly the value written, without error. */
  ghost predicate LeaderWrote(s: State, w: Write) {
    && |w.val| > 0
    && exists u: nat :: u < |s.threads| && s.threads[u].key == w.key && s.threads[u].full
         && s.threads[u].pc.Done? && s.threads[u].pc.how.Led? && s.threads[u].pc.out == Outcome(w.val, None)
  }

  // ---------------------------------------------------------------- accounting

  function FnRuns(actions: seq<Action>): nat {
    if actions == [] then 0 else FnRuns(actions[..|actions| - 1]) + Bit(actions[|actions| - 1].FnReturn?)
  }

  lemma StepCountsRuns(s: State, a: Action)
    requires Enabled(s, a)
    ensures Count(Step(s, a).threads, FnOver) == Count(s.threads, FnOver) + Bit(a.FnReturn?)
  {
    StepCounts(s, a, FnOver);
    ReturningEndsFn(s, a);
  }

  lemma ReturningEndsFn(s: State, a: Action)
    requires Enabled(s, a)
    ensures Actor(a).Some? ==>
      Bit(Is(FnOver, Step(s, a).threads[Actor(a).value].pc))
          == Bit(Is(FnOver, s.threads[Actor(a).value].pc)) + Bit(a.FnReturn?)
    ensures Actor(a) == None ==> !a.FnReturn?
  {
    StepKeepsKeys(s, a);
  }

  lemma {:induction false} FnRunsCounted(states: seq<State>, actions: seq<Action>, i: nat)
    requires Run(states, actions) && i < |states|
    ensures Count(states[i].threads, FnOver) == FnRuns(actions[..i])
  {
    if i > 0 {
      FnRunsCounted(states, actions, i - 1);
      StepCountsRuns(states[i - 1], actions[i - 1]);
      assert actions[..i][..i - 1] == actions[..i - 1];
    }
  }

  predicate AllDone(threads: seq<Thread>) {
    forall t | 0 <= t < |threads| :: threads[t].full && threads[t].pc.Done? && !threads[t].pc.how.Miss?
  }

  lemma {:induction false} DoneThreadsAddUp(threads: seq<Thread>)
    requires AllDone(threads)
    ensures |threads| == Count(threads, DoneHit) + Count(threads, DoneJoined) + Count(threads, FnOver)
  {
    if threads != [] {
      var n := |threads| - 1;
      assert forall t | 0 <= t < n :: threads[..n][t] == threads[t];
      DoneThreadsAddUp(threads[..n]);
      assert threads[n].full && threads[n].pc.Done?;
    }
  }

  /** When all lookups went through `Do` and have returned, every one of them is
      a hit, a shared join or a run of `fn`, and nothing is counted twice. */
  lemma CountersAddUp(states: seq<State>, actions: seq<Action>, i: nat)
    requires Run(states, actions) && i < |states|
    requires forall t | 0 <= t < |states[i].threads| :: states[i].threads[t].full && states[i].threads[t].pc.Done?
    ensures |states[i].threads| == states[i].hits + states[i].shared + FnRuns(actions[..i])
  {
    RunsKeepInv(states, actions, i);
    FnRunsCounted(states, actions, i);
    forall t | 0 <= t < |states[i].threads| ensures !states[i].threads[t].pc.how.Miss? {
      assert ThreadOk(states[i], t);
    }
    DoneThreadsAddUp(states[i].threads);
  }

  // ---------------------------------------------------------------- progress

  /** Steps a lookup may still take. */
  function Rest(pc: PC): nat {
    match pc
    case Entered => 8
    case Read(_) => 7
    case Missed => 6
    case Waiting(_) => 2
    case Woken(_) => 1
    case Running(_) => 5
    case Returned(_, _) => 4
    case Filled(_, _) => 3
    case Closed(_, _) => 2
    case Deleted(_, _) => 1
    case Done(_, _, _) => 0
  }

  lemma ActorAdvances(s: State, a: Action, t: nat)
    requires Enabled(s, a) && Actor(a) == Some(t) && t < |s.threads|
    ensures |Step(s, a).threads| == |s.threads| && Rest(Step(s, a).threads[t].pc) < Rest(s.threads[t].pc)
  {
  }

  /** Steps that lookup `t` itself has taken. */
  function StepsOf(actions: seq<Action>, t: nat): nat {
    if actions == [] then 0 else StepsOf(actions[..|actions| - 1], t) + Bit(Actor(actions[|actions| - 1]) == Some(t))
  }

  /** No livelock: a lookup takes at most eight steps of its own, whatever the others do. */
  lemma {:induction false} LookupsTakeBoundedSteps(states: seq<State>, actions: seq<Action>, i: nat, t: nat)
    requires Run(states, actions) && i < |states|
    ensures t < |states[i].threads| ==> StepsOf(actions[..i], t) + Rest(states[i].threads[t].pc) <= 8
    ensures t >= |states[i].threads| ==> StepsOf(actions[..i], t) == 0
  {
    if i > 0 {
      LookupsTakeBoundedSteps(states, actions, i - 1, t);
      assert actions[..i][..i - 1] == actions[..i - 1];
      OneStepAdvances(states, actions, i - 1, t);
    }
  }

  lemma OneStepAdvances(states: seq<State>, actions: seq<Action>, m: nat, t: nat)
    requires Run(states, actions) && m < |actions|
    ensures |states[m].threads| <= |states[m + 1].threads|
    ensures Actor(actions[m]) == Some(t) ==>
        t < |states[m].threads| && Rest(states[m + 1].threads[t].pc) < Rest(states[m].threads[t].pc)
    ensures Actor(actions[m]) != Some(t) && t < |states[m].threads| ==> states[m + 1].threads[t] == states[m].threads[t]
    ensures |states[m].threads| <= t < |states[m + 1].threads| ==> Rest(states[m + 1].threads[t].pc) == 8
  {
    var s, a := states[m], actions[m];
    StepKeepsKeys(s, a);
    if Actor(a) == Some(t) { ActorAdvances(s, a, t); }
    NewThreadsEnter(s, a);
  }

  lemma NewThreadsEnter(s: State, a: Action)
    requires Enabled(s, a)
    ensures forall t: nat | |s.threads| <= t < |Step(s, a).threads| :: Step(s, a).threads[t].pc.Entered?
  {
  }

  /** No deadlock: while some lookup has not returned, some lookup can move. */
  lemma NeverStuck(states: seq<State>, actions: seq<Action>, i: nat, t: nat)
    requires Run(states, actions) && i < |states| && t < |states[i].threads|
    requires !states[i].threads[t].pc.Done?
    ensures exists a :: Actor(a).Some? && Enabled(states[i], a)
  {
    RunsKeepInv(states, actions, i);
    var s := states[i];
    var u := t;
    if s.threads[t].pc.Waiting? {
      WaitersHaveALiveLeader(states, actions, i, t);
      if !s.heap[s.threads[t].pc.c].closed { u := s.leaders[s.threads[t].pc.c]; assert CallOk(s, s.threads[t].pc.c); }
    }
    var a := NextAction(s, u);
    assert Actor(a).Some? && Enabled(s, a);
  }

  lemma NextAction(s: State, t: nat) returns (a: Action)
    requires Inv(s) && t < |s.threads| && !s.threads[t].pc.Done?
    requires s.threads[t].pc.Waiting? ==> s.threads[t].pc.c < |s.heap| && s.heap[s.threads[t].pc.c].closed
    ensures Actor(a) == Some(t) && Enabled(s, a)
  {
    assert ThreadOk(s, t);
    match s.threads[t].pc {
      case Entered => a := ReadStore(t);
      case Read(_) => a := CheckFresh(t);
      case Missed => a := JoinOrLead(t);
      case Waiting(_) => a := Wake(t);
      case Woken(_) => a := CountShared(t);
      case Running(_) => a := FnReturn(t, Outcome([], None));
      case Returned(_, _) => a := Fill(t);
      case Filled(_, _) => a := Close(t);
      case Closed(_, _) => a := Delete(t);
      case Deleted(_, _) =>
        if Full(s.cap, s.store) {
          assert s.store.Keys != {};
          var victim :| victim in s.store;
          a := Finish(t, victim);
        } else {
          a := Finish(t, "");
        }
    }
  }

  // ---------------------------------------------------------------- what is not promised

  lemma RunExtends(states: seq<State>, actions: seq<Action>, a: Action)
      returns (states': seq<State>, actions': seq<Action>)
    requires Run(states, actions) && Enabled(states[|actions|], a)
    ensures Run(states', actions') && |actions'| == |actions| + 1
    ensures states'[0] == states[0] && states'[|actions'|] == Step(states[|actions|], a)
    ensures FnRuns(actions') == FnRuns(actions) + Bit(a.FnReturn?)
  {
    states', actions' := states + [Step(states[|actions|], a)], actions + [a];
    assert actions'[..|actions|] == actions;
  }

  /** Two lookups of one key that both looked before anything was stored. */
  lemma TwoMisses(ttl: int, cap: int, key: Key) returns (states: seq<State>, actions: seq<Action>)
    requires ttl > 0
    ensures Run(states, actions) && states[0] == Init(ttl, cap, 0) && FnRuns(actions) == 0
    ensures states[|actions|] ==
            Init(ttl, cap, 0).(threads := [Thread(key, true, Missed), Thread(key, true, Missed)], misses := 2)
  {
    states, actions := [Init(ttl, cap, 0)], [];
    assert states[0] == Init(ttl, cap, 0);
    states, actions := RunExtends(states, actions, Spawn(key, true));
    states, actions := RunExtends(states, actions, Spawn(key, true));
    assert states[|actions|].threads == [Thread(key, true, Entered), Thread(key, true, Entered)];
    states, actions := RunExtends(states, actions, ReadStore(0));
    states, actions := RunExtends(states, actions, ReadStore(1));
    assert states[|actions|].threads == [Thread(key, true, Read(None)), Thread(key, true, Read(None))];
    states, actions := RunExtends(states, actions, CheckFresh(0));
    states, actions := RunExtends(states, actions, CheckFresh(1));
    assert states[|actions|].threads == [Thread(key, true, Missed), Thread(key, true, Missed)];
  }

  /** The first lookup leads and computes; the second has not moved. */
  lemma FirstComputes(ttl: int, cap: int, key: Key, out: Outcome) returns (states: seq<State>, actions: seq<Action>)
    requires ttl > 0
    ensures Run(states, actions) && states[0] == Init(ttl, cap, 0) && FnRuns(actions) == 1
    ensures states[|actions|].threads == [Thread(key, true, Returned(0, out)), Thread(key, true, Missed)]
    ensures states[|actions|].calls == map[key := 0] && |states[|actions|].heap| == 1 && states[|actions|].now == 0
  {
    states, actions := TwoMisses(ttl, cap, key);
    states, actions := RunExtends(states, actions, JoinOrLead(0));
    assert states[|actions|].threads == [Thread(key, true, Running(0)), Thread(key, true, Missed)];
    states, actions := RunExtends(states, actions, FnReturn(0, out));
  }

  /** The first lookup has cleared the table; the second has not moved. */
  lemma FirstRun(ttl: int, cap: int, key: Key, out: Outcome) returns (states: seq<State>, actions: seq<Action>)
    requires ttl > 0
    ensures Run(states, actions) && states[0] == Init(ttl, cap, 0) && FnRuns(actions) == 1
    ensures states[|actions|].threads == [Thread(key, true, Deleted(0, out)), Thread(key, true, Missed)]
    ensures states[|actions|].calls == map[] && |states[|actions|].heap| == 1 && states[|actions|].now == 0
  {
    states, actions := FirstComputes(ttl, cap, key, out);
    states, actions := RunExtends(states, actions, Fill(0));
    assert states[|actions|].threads == [Thread(key, true, Filled(0, out)), Thread(key, true, Missed)];
    states, actions := RunExtends(states, actions, Close(0));
    assert states[|actions|].threads == [Thread(key, true, Closed(0, out)), Thread(key, true, Missed)];
    states, actions := RunExtends(states, actions, Delete(0));
  }

  /** The package comment says that of several equal requests in one TTL window the first
      computes and the rest hit. Not so: a lookup that missed before the first result was
      stored does not look again, and computes a second time. */
  lemma SecondRunWithinTtl(ttl: int, cap: int, key: Key, out: Outcome)
      returns (states: seq<State>, actions: seq<Action>)
    requires ttl > 0
    ensures Run(states, actions) && states[0] == Init(ttl, cap, 0)
    ensures FnRuns(actions) == 2 && states[|actions|].now == 0
    ensures forall t | 0 <= t < |states[|actions|].threads| :: states[|actions|].threads[t].key == key
  {
    states, actions := FirstRun(ttl, cap, key, out);
    states, actions := RunExtends(states, actions, JoinOrLead(1));
    assert states[|actions|].threads == [Thread(key, true, Deleted(0, out)), Thread(key, true, Running(1))];
    states, actions := RunExtends(states, actions, FnReturn(1, out));
    assert states[|actions|].threads == [Thread(key, true, Deleted(0, out)), Thread(key, true, Returned(1, out))];
  }

  lemma {:induction false} OthersLeaveThread(states: seq<State>, actions: seq<Action>, i: nat, j: nat, t: nat)
    requires Run(states, actions) && i <= j < |states| && t < |states[i].threads|
    requires forall m | i <= m < j :: Actor(actions[m]) != Some(t)
    ensures states[j].ttl == states[i].ttl && t < |states[j].threads| && states[j].threads[t] == states[i].threads[t]
  {
    if i < j {
      OthersLeaveThread(states, actions, i, j - 1, t);
      assert Actor(actions[j - 1]) != Some(t);
      OneStepLeavesThread(states, actions, j - 1, t);
    }
  }

  lemma OneStepLeavesThread(states: seq<State>, actions: seq<Action>, m: nat, t: nat)
    requires Run(states, actions) && m < |actions| && t < |states[m].threads| && Actor(actions[m]) != Some(t)
    ensures states[m + 1].ttl == states[m].ttl && t < |states[m + 1].threads|
        && states[m + 1].threads[t] == states[m].threads[t]
  {
    StepKeepsKeys(states[m], actions[m]);
  }

  /** What is promised instead: a lookup hits exactly when the store, at the moment it
      read it, held an entry still unexpired at the moment it checked the clock. */
  lemma HitsIffStoredAndFresh(states: seq<State>, actions: seq<Action>, i: nat, j: nat, t: nat)
    requires Run(states, actions) && i < j < |actions| && states[i].ttl > 0
    requires actions[i] == ReadStore(t) && actions[j] == CheckFresh(t)
    requires forall m | i < m < j :: Actor(actions[m]) != Some(t)
    ensures t < |states[i].threads| && t < |states[j + 1].threads|
    ensures states[j + 1].threads[t].pc.Done? && states[j + 1].threads[t].pc.how.Hit?
            <==> states[i].threads[t].key in states[i].store
                 && states[j].now <= states[i].store[states[i].threads[t].key].exp
  {
    assert Enabled(states[i], actions[i]) && states[i + 1] == Step(states[i], actions[i]);
    OthersLeaveThread(states, actions, i + 1, j, t);
    assert Enabled(states[j], actions[j]) && states[j + 1] == Step(states[j], actions[j]);
  }

  // ---------------------------------------------------------------- when a lookup computes

  /** What lookup `t` has done since it read the store: the step at which it checked the
      clock, the step at which it joined or led, and how often `fn` has returned to it. */
  datatype Story = Story(checked: Option<nat>, joined: Option<nat>, runs: nat)

  function Told(h: Story, a: Action, m: nat, t: nat): Story {
    match a
    case CheckFresh(u) => if u == t then h.(checked := Some(m)) else h
    case JoinOrLead(u) => if u == t then h.(joined := Some(m)) else h
    case FnReturn(u, _) => if u == t then h.(runs := h.runs + 1) else h
    case _ => h
  }

  function StoryOf(actions: seq<Action>, i: nat, m: nat, t: nat): (h: Story)
    requires i < m <= |actions|
    ensures h.checked.Some? ==> i < h.checked.value < m && actions[h.checked.value] == CheckFresh(t)
    ensures h.joined.Some? ==> i < h.joined.value < m && actions[h.joined.value] == JoinOrLead(t)
    decreases m
  {
    if m == i + 1 then Story(None, None, 0) else Told(StoryOf(actions, i, m - 1, t), actions[m - 1], m - 1, t)
  }

  /** The lookup's read at step `i` gave nothing fresh, or the cache is off. */
  predicate NothingFresh(states: seq<State>, i: nat, t: nat, h: Story)
    requires i < |states| && t < |states[i].threads| && (h.checked.Some? ==> h.checked.value < |states|)
  {
    states[i].ttl <= 0
    || (h.checked.Some? && !Fresh(Lookup(states[i].store, states[i].threads[t].key), states[h.checked.value].now))
  }

  /** Nobody was computing the key when the lookup came to join. */
  predicate NobodyComputing(states: seq<State>, key: Key, h: Story)
    requires h.joined.Some? ==> h.joined.value < |states|
  {
    h.joined.Some? && key !in states[h.joined.value].calls
  }

  predicate HasJoined(states: seq<State>, key: Key, h: Story)
    requires h.joined.Some? ==> h.joined.value < |states|
  {
    h.joined.Some? && key in states[h.joined.value].calls
  }

  /** The lookup's place in the code agrees with its story. */
  ghost predicate StoryOk(states: seq<State>, actions: seq<Action>, i: nat, m: nat, t: nat)
    requires i < m <= |actions| && |states| == |actions| + 1
  {
    && t < |states[i].threads| && t < |states[m].threads|
    && states[m].threads[t].full && states[m].threads[t].key == states[i].threads[t].key
    && PlaceOk(states, i, t, states[m].threads[t].pc, StoryOf(actions, i, m, t))
  }

  ghost predicate PlaceOk(states: seq<State>, i: nat, t: nat, pc: PC, h: Story)
    requires i < |states| && t < |states[i].threads|
    requires (h.checked.Some? ==> h.checked.value < |states|) && (h.joined.Some? ==> h.joined.value < |states|)
  {
    var key := states[i].threads[t].key;
    match pc
    case Entered => false
    case Read(e) => states[i].ttl > 0 && e == Lookup(states[i].store, key) && h == Story(None, None, 0)
    case Missed => h.joined == None && h.runs == 0 && NothingFresh(states, i, t, h)
    case Waiting(_) => HasJoined(states, key, h) && h.runs == 0 && NothingFresh(states, i, t, h)
    case Woken(_) => HasJoined(states, key, h) && h.runs == 0 && NothingFresh(states, i, t, h)
    case Running(_) => NobodyComputing(states, key, h) && h.runs == 0 && NothingFresh(states, i, t, h)
    case Returned(_, _) => NobodyComputing(states, key, h) && h.runs == 1 && NothingFresh(states, i, t, h)
    case Filled(_, _) => NobodyComputing(states, key, h) && h.runs == 1 && NothingFresh(states, i, t, h)
    case Closed(_, _) => NobodyComputing(states, key, h) && h.runs == 1 && NothingFresh(states, i, t, h)
    case Deleted(_, _) => NobodyComputing(states, key, h) && h.runs == 1 && NothingFresh(states, i, t, h)
    case Done(out, _, how) =>
      match how
      case Hit(_, _) =>
        && h.joined == None && h.runs == 0 && h.checked.Some? && !NothingFresh(states, i, t, h)
        && key in states[i].store && out == Outcome(states[i].store[key].val, None)
      case Miss => false
      case Joined(_) => HasJoined(states, key, h) && h.runs == 0 && NothingFresh(states, i, t, h)
      case Led(_) => NobodyComputing(states, key, h) && h.runs == 1 && NothingFresh(states, i, t, h)
  }

  lemma StoryStarts(states: seq<State>, actions: seq<Action>, i: nat, t: nat)
    requires Run(states, actions) && i < |actions| && actions[i] == ReadStore(t)
    requires t < |states[i].threads| && states[i].threads[t].full
    ensures StoryOk(states, actions, i, i + 1, t)
  {
    assert states[i + 1] == Step(states[i], actions[i]);
  }

  /** The actor's next place, against its story with this step told. */
  lemma PlaceStep(states: seq<State>, actions: seq<Action>, i: nat, m: nat, t: nat)
    requires Run(states, actions) && i < m < |actions| && Actor(actions[m]) == Some(t)
    requires StoryOk(states, actions, i, m, t)
    ensures StoryOk(states, actions, i, m + 1, t)
  {
    var s, a := states[m], actions[m];
    assert Enabled(s, a) && states[m + 1] == Step(s, a);
    StepKeepsKeys(s, a);
    assert StoryOf(actions, i, m + 1, t) == Told(StoryOf(actions, i, m, t), a, m, t);
  }

  lemma {:induction false} StoryHolds(states: seq<State>, actions: seq<Action>, i: nat, m: nat, t: nat)
    requires Run(states, actions) && i < m <= |actions| && actions[i] == ReadStore(t)
    requires t < |states[i].threads| && states[i].threads[t].full
    ensures StoryOk(states, actions, i, m, t)
    decreases m
  {
    if m == i + 1 {
      StoryStarts(states, actions, i, t);
    } else {
      StoryHolds(states, actions, i, m - 1, t);
      StoryGoesOn(states, actions, i, m - 1, t);
    }
  }

  lemma StoryGoesOn(states: seq<State>, actions: seq<Action>, i: nat, m: nat, t: nat)
    requires Run(states, actions) && i < m < |actions| && StoryOk(states, actions, i, m, t)
    ensures StoryOk(states, actions, i, m + 1, t)
  {
    if Actor(actions[m]) == Some(t) {
      PlaceStep(states, actions, i, m, t);
    } else {
      StoryWaits(states, actions, i, m, t);
    }
  }

  lemma StoryWaits(states: seq<State>, actions: seq<Action>, i: nat, m: nat, t: nat)
    requires Run(states, actions) && i < m < |actions| && Actor(actions[m]) != Some(t)
    requires StoryOk(states, actions, i, m, t)
    ensures StoryOk(states, actions, i, m + 1, t)
  {
    OneStepLeavesThread(states, actions, m, t);
    assert StoryOf(actions, i, m + 1, t) == StoryOf(actions, i, m, t);
  }

  /** The exact condition for a run of `fn`: a whole `Do` runs it, and then once, if and only
      if its read gave nothing fresh and nobody was computing the key when it came to join. */
  lemma ComputesIff(states: seq<State>, actions: seq<Action>, i: nat, k: nat, t: nat)
    requires Run(states, actions) && i < k <= |actions| && actions[i] == ReadStore(t)
    requires t < |states[i].threads| && states[i].threads[t].full
    requires t < |states[k].threads| && states[k].threads[t].pc.Done?
    ensures var h := StoryOf(actions, i, k, t);
      && h.runs <= 1
      && (h.runs == 1 <==> NothingFresh(states, i, t, h) && NobodyComputing(states, states[i].threads[t].key, h))
      && (h.joined.Some? <==> NothingFresh(states, i, t, h))
      && (states[i].ttl > 0 ==> h.checked.Some?)
  {
    StoryHolds(states, actions, i, k, t);
  }

  /** A step that writes or evicts the key's entry. */
  predicate Disturbs(s: State, a: Action, key: Key)
    requires Enabled(s, a)
  {
    match a
    case SetDirect(k, _, victim) => s.ttl > 0 && (k == key || (Full(s.cap, s.store) && victim == key))
    case Finish(t, victim) =>
      s.ttl > 0 && Storable(s.threads[t].pc.out) && (s.threads[t].key == key || (Full(s.cap, s.store) && victim == key))
    case _ => false
  }

  ghost predicate Undisturbed(states: seq<State>, actions: seq<Action>, f: nat, m: nat, key: Key)
    requires Run(states, actions) && m <= |actions|
  {
    forall x {:trigger actions[x]} | f <= x < m :: !Disturbs(states[x], actions[x], key)
  }

  lemma StepKeepsEntry(s: State, a: Action, key: Key)
    requires Enabled(s, a) && !Disturbs(s, a, key)
    ensures Lookup(Step(s, a).store, key) == Lookup(s.store, key)
  {
    if !a.SetDirect? && !a.Finish? { LeavesStore(s, a); }
  }

  lemma {:induction false} EntryStays(states: seq<State>, actions: seq<Action>, f: nat, m: nat, key: Key)
    requires Run(states, actions) && f <= m <= |actions| && Undisturbed(states, actions, f, m, key)
    ensures Lookup(states[m].store, key) == Lookup(states[f].store, key)
    decreases m
  {
    if f < m {
      EntryStays(states, actions, f, m - 1, key);
      assert !Disturbs(states[m - 1], actions[m - 1], key);
      StepKeepsEntry(states[m - 1], actions[m - 1], key);
    }
  }

  /** A leader finishes at step `f` with a result, not empty and without error. */
  predicate Stores(states: seq<State>, actions: seq<Action>, f: nat, key: Key)
    requires Run(states, actions) && f < |actions|
  {
    && states[f].ttl > 0 && actions[f].Finish?
    && states[f].threads[actions[f].t].key == key
    && states[f].threads[actions[f].t].pc.out.err == None
    && states[f].threads[actions[f].t].pc.out.val != []
  }

  /** A leader's finish stores its result exactly when caching is on and the result is good. */
  lemma FinishStoresIff(states: seq<State>, actions: seq<Action>, f: nat)
    requires Run(states, actions) && f < |actions| && actions[f].Finish?
    ensures var th := states[f].threads[actions[f].t];
      if states[f].ttl > 0 && th.pc.out.err == None && th.pc.out.val != []
      then Lookup(states[f + 1].store, th.key) == Some(Entry(th.pc.out.val, states[f].now + states[f].ttl))
      else states[f + 1].store == states[f].store
  {
    FinishIsStored(states[f], actions[f].t, actions[f].victim);
  }

  /** Whatever a step does, it drops at most one entry, and that only at the cap and in
      exchange for another; and an entry that is new or changed is the last `Set`'s. */
  lemma StoreChangesByOne(states: seq<State>, actions: seq<Action>, m: nat, key: Key)
    requires Run(states, actions) && m < |actions|
    ensures var s, s' := states[m], states[m + 1];
      && (key in s.store && key !in s'.store ==>
            && s.ttl > 0 && s.cap > 0 && |s.store| >= s.cap
            && forall k | k in s.store && k != key :: k in s'.store)
      && (key in s'.store && Lookup(s'.store, key) != Lookup(s.store, key) ==>
            && |s'.writes| == |s.writes| + 1
            && s'.store[key] == Entry(s'.writes[|s.writes|].val, s.now + s.ttl)
            && s'.writes[|s.writes|].key == key && s'.writes[|s.writes|].at == s.now)
  {
    var s, a := states[m], actions[m];
    assert Enabled(s, a) && states[m + 1] == Step(s, a);
    if a.Finish? {
      FinishIsStored(s, a.t, a.victim);
    } else if !a.SetDirect? {
      LeavesStore(s, a);
    }
  }

  /** A step disturbs a key exactly when it writes or evicts its entry. */
  lemma DisturbsIff(s: State, a: Action, key: Key)
    requires Enabled(s, a)
    ensures Disturbs(s, a, key) <==>
      || (|Step(s, a).writes| > |s.writes| && Step(s, a).writes[|s.writes|].key == key)
      || (key in s.store && key !in Step(s, a).store)
  {
    if a.Finish? {
      FinishIsStored(s, a.t, a.victim);
    } else if !a.SetDirect? {
      LeavesStore(s, a);
    }
  }

  lemma StoredAtFinish(states: seq<State>, actions: seq<Action>, f: nat, key: Key)
    requires Run(states, actions) && f < |actions| && Stores(states, actions, f, key)
    ensures Lookup(states[f + 1].store, key)
        == Some(Entry(states[f].threads[actions[f].t].pc.out.val, states[f].now + states[f].ttl))
  {
    FinishIsStored(states[f], actions[f].t, actions[f].victim);
  }

  lemma {:induction false} TtlStays(states: seq<State>, actions: seq<Action>, f: nat, m: nat)
    requires Run(states, actions) && f <= m <= |actions|
    ensures states[m].ttl == states[f].ttl
    decreases m
  {
    if f < m {
      TtlStays(states, actions, f, m - 1);
      StepKeepsKeys(states[m - 1], actions[m - 1]);
    }
  }

  /** Once a leader has stored its result, every `Do` of the key that reads later and checks
      the clock within the TTL gets that result and computes nothing, unless a `Set` wrote or
      evicted the entry before it read. */
  lemma LaterLookupsHit(states: seq<State>, actions: seq<Action>, f: nat, i: nat, k: nat, t: nat)
    requires Run(states, actions) && f < i < k <= |actions| && actions[i] == ReadStore(t)
    requires t < |states[i].threads| && states[i].threads[t].full
    requires t < |states[k].threads| && states[k].threads[t].pc.Done?
    requires Stores(states, actions, f, states[i].threads[t].key)
    requires Undisturbed(states, actions, f + 1, i, states[i].threads[t].key)
    requires var h := StoryOf(actions, i, k, t); h.checked.Some? ==>
        states[h.checked.value].now <= states[f].now + states[f].ttl
    ensures StoryOf(actions, i, k, t).runs == 0
    ensures states[k].threads[t].pc.how.Hit?
        && states[k].threads[t].pc.out == Outcome(states[f].threads[actions[f].t].pc.out.val, None)
  {
    EntryAtRead(states, actions, f, i, states[i].threads[t].key);
    FreshReadHits(states, actions, i, k, t,
        Entry(states[f].threads[actions[f].t].pc.out.val, states[f].now + states[f].ttl));
  }

  lemma EntryAtRead(states: seq<State>, actions: seq<Action>, f: nat, i: nat, key: Key)
    requires Run(states, actions) && f < i < |actions|
    requires Stores(states, actions, f, key) && Undisturbed(states, actions, f + 1, i, key)
    ensures states[i].ttl > 0
    ensures Lookup(states[i].store, key)
        == Some(Entry(states[f].threads[actions[f].t].pc.out.val, states[f].now + states[f].ttl))
  {
    StoredAtFinish(states, actions, f, key);
    EntryStays(states, actions, f + 1, i, key);
    TtlStays(states, actions, f, i);
  }

  lemma FreshReadHits(states: seq<State>, actions: seq<Action>, i: nat, k: nat, t: nat, e: Entry)
    requires Run(states, actions) && i < k <= |actions| && actions[i] == ReadStore(t)
    requires t < |states[i].threads| && states[i].threads[t].full
    requires t < |states[k].threads| && states[k].threads[t].pc.Done?
    requires states[i].ttl > 0 && Lookup(states[i].store, states[i].threads[t].key) == Some(e)
    requires var h := StoryOf(actions, i, k, t); h.checked.Some? ==> states[h.checked.value].now <= e.exp
    ensures StoryOf(actions, i, k, t).runs == 0
    ensures states[k].threads[t].pc.how.Hit? && states[k].threads[t].pc.out == Outcome(e.val, None)
  {
    StoryHolds(states, actions, i, k, t);
    FreshPlace(states, i, t, states[k].threads[t].pc, StoryOf(actions, i, k, t), e);
  }

  lemma FreshPlace(states: seq<State>, i: nat, t: nat, pc: PC, h: Story, e: Entry)
    requires i < |states| && t < |states[i].threads|
    requires (h.checked.Some? ==> h.checked.value < |states|) && (h.joined.Some? ==> h.joined.value < |states|)
    requires PlaceOk(states, i, t, pc, h) && pc.Done?
    requires states[i].ttl > 0 && Lookup(states[i].store, states[i].threads[t].key) == Some(e)
    requires h.checked.Some? ==> states[h.checked.value].now <= e.exp
    ensures h.runs == 0 && pc.how.Hit? && pc.out == Outcome(e.val, None)
  {
  }

  // ---------------------------------------------------------------- one caller at a time

  /** `f` is reached from `s` by `actions`. */
  ghost predicate Follows(s: State, actions: seq<Action>, f: State)
    decreases |actions|
  {
    if actions == [] then s == f
    else Enabled(s, actions[0]) && Follows(Step(s, actions[0]), actions[1..], f)
  }

  lemma {:induction false} FollowsMore(s: State, actions: seq<Action>, m: State, more: seq<Action>, f: State)
    requires Follows(s, actions, m) && Follows(m, more, f)
    ensures Follows(s, actions + more, f)
    decreases |actions|
  {
    if actions == [] {
      assert actions + more == more;
    } else {
      assert (actions + more)[1..] == actions[1..] + more;
      FollowsMore(Step(s, actions[0]), actions[1..], m, more, f);
    }
  }

  lemma FollowsOne(s: State, a: Action)
    requires Enabled(s, a)
    ensures Follows(s, [a], Step(s, a))
  {
    assert [a][1..] == [];
  }

  lemma FollowsThree(s: State, a1: Action, m1: State, a2: Action, m2: State, a3: Action, f: State)
    requires Enabled(s, a1) && m1 == Step(s, a1) && Enabled(m1, a2) && m2 == Step(m1, a2)
    requires Enabled(m2, a3) && f == Step(m2, a3)
    ensures Follows(s, [a1] + [a2] + [a3], f)
  {
    FollowsOne(s, a1);
    FollowsOne(m1, a2);
    FollowsOne(m2, a3);
    FollowsMore(s, [a1], m1, [a2], m2);
    FollowsMore(s, [a1] + [a2], m2, [a3], f);
  }

  /** What a put leaves: the new entry, all others below the cap, and all but one at it. */
  lemma PutMeans(store: map<Key, Entry>, cap: int, key: Key, e: Entry, next: map<Key, Entry>)
    requires IsPut(store, cap, key, e, next)
    ensures key in next && next[key] == e
    ensures forall k | k in next && k != key :: k in store && next[k] == store[k]
    ensures cap <= 0 || |store| < cap ==> next.Keys == store.Keys + {key}
    ensures 0 < cap <= |store| ==> exists k :: k in store && next.Keys == store.Keys - {k} + {key}
  {
    var victim :| (Full(cap, store) ==> victim in store) && next == Put(store, cap, victim, key, e);
    if 0 < cap <= |store| { assert victim in store && next.Keys == store.Keys - {victim} + {key}; }
  }

  /** Only lookup `t` moves, and the clock. */
  predicate Alone(actions: seq<Action>, t: nat) {
    forall i | 0 <= i < |actions| :: actions[i].Tick? || Actor(actions[i]) == Some(t)
  }

  /** What a lookup leaves: the store, what it counted, and its answer. */
  datatype Effect = Effect(store: map<Key, Entry>, hits: int, misses: int, joins: int, got: Outcome, shared: bool)

  predicate HitsAt(ttl: int, store: map<Key, Entry>, key: Key, now: int) { ttl > 0 && Fresh(Lookup(store, key), now) }

  /** A `Do` of its own: a hit, the result of the call in flight if there is one, or its own
      run of `fn`, which gives `out` at time `later`. */
  ghost predicate Looked(ttl: int, cap: int, store: map<Key, Entry>, inFlight: Option<Outcome>,
                         key: Key, now: int, out: Outcome, later: int, e: Effect)
  {
    var hit := HitsAt(ttl, store, key, now);
    && e.hits == Bit(hit) && e.misses == Bit(ttl > 0 && !hit) && e.joins == Bit(!hit && inFlight.Some?)
    && (e.shared <==> hit || inFlight.Some?)
    && (hit ==> e.got == Outcome(store[key].val, None) && e.store == store)
    && (!hit && inFlight.Some? ==> e.got == inFlight.value && e.store == store)
    && (!hit && inFlight.None? ==> e.got == out)
    && (!hit && inFlight.None? && ttl > 0 && out.err == None && out.val != [] ==>
        IsPut(store, cap, key, Entry(out.val, later + ttl), e.store))
    && (!hit && inFlight.None? && (ttl <= 0 || out.err != None || out.val == []) ==> e.store == store)
  }

  /** After the read and the clock check. */
  function GotState(s: State, t: nat): State
    requires t < |s.threads|
  {
    var th, hit := s.threads[t], HitsAt(s.ttl, s.store, s.threads[t].key, s.now);
    var pc :=
      if hit then Done(Outcome(s.store[th.key].val, None), true, Hit(s.store[th.key].exp, s.now)) else AfterMiss(th);
    Goto(s, t, pc).(hits := s.hits + Bit(hit), misses := s.misses + Bit(s.ttl > 0 && !hit))
  }

  function GetActions(s: State, t: nat): seq<Action> {
    [ReadStore(t)] + if s.ttl <= 0 then [] else [CheckFresh(t)]
  }

  /** The protocol's own `Get`, in one go: a hit ends the lookup, a miss goes on or ends. */
  lemma LoneGet(s: State, t: nat)
    requires t < |s.threads| && s.threads[t].pc.Entered?
    ensures Follows(s, GetActions(s, t), GotState(s, t)) && Alone(GetActions(s, t), t)
  {
    var m := Step(s, ReadStore(t));
    FollowsOne(s, ReadStore(t));
    if s.ttl > 0 {
      FollowsOne(m, CheckFresh(t));
      FollowsMore(s, [ReadStore(t)], m, [CheckFresh(t)], Step(m, CheckFresh(t)));
      assert Step(m, CheckFresh(t)) == GotState(s, t);
    } else {
      assert m == GotState(s, t);
    }
  }

  function JoinActions(t: nat): seq<Action> { [JoinOrLead(t)] + [Wake(t)] + [CountShared(t)] }

  function JoinedState(s: State, t: nat): State
    requires t < |s.threads| && s.threads[t].key in s.calls && s.calls[s.threads[t].key] < |s.heap|
  {
    var c := s.calls[s.threads[t].key];
    Goto(s, t, Done(s.heap[c].result, true, Joined(c))).(shared := s.shared + 1)
  }

  lemma LoneJoin(s: State, t: nat)
    requires t < |s.threads| && s.threads[t].pc.Missed? && s.threads[t].key in s.calls
    requires s.calls[s.threads[t].key] < |s.heap| && s.heap[s.calls[s.threads[t].key]].closed
    ensures Follows(s, JoinActions(t), JoinedState(s, t)) && Alone(JoinActions(t), t)
  {
    var m1 := Step(s, JoinOrLead(t));
    var m2 := Step(m1, Wake(t));
    var f := JoinedState(s, t);
    assert Step(m2, CountShared(t)) == f by {
      assert Step(m2, CountShared(t)).threads == f.threads && Step(m2, CountShared(t)).heap == f.heap;
    }
    FollowsThree(s, JoinOrLead(t), m1, Wake(t), m2, CountShared(t), f);
  }

  function ComputeActions(t: nat, out: Outcome, d: nat): seq<Action> {
    [JoinOrLead(t)] + [Tick(d)] + [FnReturn(t, out)]
  }

  /** Leading, and `fn` back after `d`. */
  function ComputedState(s: State, t: nat, out: Outcome, d: nat): State
    requires t < |s.threads|
  {
    Goto(s, t, Returned(|s.heap|, out)).(heap := s.heap + [ZERO_CALL], leaders := s.leaders + [t],
                                         calls := s.calls[s.threads[t].key := |s.heap|], now := s.now + d)
  }

  lemma LoneCompute(s: State, t: nat, out: Outcome, d: nat)
    requires t < |s.threads| && s.threads[t].pc.Missed? && s.threads[t].key !in s.calls
    ensures Follows(s, ComputeActions(t, out, d), ComputedState(s, t, out, d)) && Alone(ComputeActions(t, out, d), t)
  {
    var m1 := Step(s, JoinOrLead(t));
    var m2 := Step(m1, Tick(d));
    var f := ComputedState(s, t, out, d);
    assert Step(m2, FnReturn(t, out)) == f by {
      assert Step(m2, FnReturn(t, out)).threads == f.threads && Step(m2, FnReturn(t, out)).heap == f.heap;
    }
    FollowsThree(s, JoinOrLead(t), m1, Tick(d), m2, FnReturn(t, out), f);
  }

  function PublishActions(t: nat): seq<Action> { [Fill(t)] + [Close(t)] + [Delete(t)] }

  function PublishedState(s: State, t: nat): State
    requires t < |s.threads| && s.threads[t].pc.Returned? && s.threads[t].pc.c < |s.heap|
  {
    var pc := s.threads[t].pc;
    Goto(s, t, Deleted(pc.c, pc.out)).(heap := s.heap[pc.c := Call(true, pc.out)],
                                       calls := s.calls - {s.threads[t].key})
  }

  lemma LonePublish(s: State, t: nat)
    requires t < |s.threads| && s.threads[t].pc.Returned? && s.threads[t].pc.c < |s.heap|
    ensures Follows(s, PublishActions(t), PublishedState(s, t)) && Alone(PublishActions(t), t)
  {
    var m1 := Step(s, Fill(t));
    var m2 := Step(m1, Close(t));
    var f := PublishedState(s, t);
    assert Step(m2, Delete(t)) == f by {
      assert Step(m2, Delete(t)).threads == f.threads && Step(m2, Delete(t)).heap == f.heap;
    }
    FollowsThree(s, Fill(t), m1, Close(t), m2, Delete(t), f);
  }

  function LeadActions(t: nat, out: Outcome, d: nat, victim: Key): seq<Action> {
    ComputeActions(t, out, d) + PublishActions(t) + [Finish(t, victim)]
  }

  /** Everything a leader does: compute, publish, and store a good result. */
  function LedAloneState(s: State, t: nat, out: Outcome, d: nat, victim: Key): State
    requires t < |s.threads| && VictimOk(s, victim)
  {
    Step(PublishedState(ComputedState(s, t, out, d), t), Finish(t, victim))
  }

  lemma LoneLead(s: State, t: nat, out: Outcome, d: nat, victim: Key)
    requires t < |s.threads| && s.threads[t].pc.Missed? && s.threads[t].key !in s.calls && VictimOk(s, victim)
    ensures Follows(s, LeadActions(t, out, d, victim), LedAloneState(s, t, out, d, victim))
    ensures Alone(LeadActions(t, out, d, victim), t)
  {
    var m1 := ComputedState(s, t, out, d);
    var m2 := PublishedState(m1, t);
    LoneCompute(s, t, out, d);
    LonePublish(m1, t);
    FollowsOne(m2, Finish(t, victim));
    FollowsMore(s, ComputeActions(t, out, d), m1, PublishActions(t), m2);
    FollowsMore(s, ComputeActions(t, out, d) + PublishActions(t), m2, [Finish(t, victim)], Step(m2, Finish(t, victim)));
  }

  lemma LeadingAloneStores(s: State, t: nat, out: Outcome, d: nat, victim: Key)
    requires t < |s.threads| && s.threads[t].key !in s.calls && VictimOk(s, victim)
    ensures var f, key := LedAloneState(s, t, out, d, victim), s.threads[t].key;
      && f.threads == s.threads[t := s.threads[t].(pc := Done(out, false, Led(|s.heap|)))]
      && f.calls == s.calls && f.hits == s.hits && f.misses == s.misses && f.shared == s.shared
      && (s.ttl > 0 && out.err == None && out.val != [] ==>
            IsPut(s.store, s.cap, key, Entry(out.val, s.now + d + s.ttl), f.store))
      && (s.ttl <= 0 || out.err != None || out.val == [] ==> f.store == s.store)
  {
    var f, key := LedAloneState(s, t, out, d, victim), s.threads[t].key;
    assert s.calls[key := |s.heap|] - {key} == s.calls;
    var e := Entry(out.val, s.now + d + s.ttl);
    assert s.ttl > 0 && Storable(out) ==> f.store == Put(s.store, s.cap, victim, key, e);
  }

  /** The result of a call in flight, if there is one. */
  function InFlightOf(s: State, key: Key): Option<Outcome> {
    if key in s.calls && s.calls[key] < |s.heap| then Some(s.heap[s.calls[key]].result) else None
  }

  /** A lookup that need not wait: the call in flight for its key, if any, has closed. */
  predicate CanLookUp(s: State, t: nat, victim: Key) {
    && t < |s.threads| && s.threads[t].pc.Entered? && s.threads[t].full && VictimOk(s, victim)
    && (s.threads[t].key in s.calls ==>
          s.calls[s.threads[t].key] < |s.heap| && s.heap[s.calls[s.threads[t].key]].closed)
  }

  function DoActions(s: State, t: nat, out: Outcome, d: nat, victim: Key): seq<Action>
    requires t < |s.threads|
  {
    GetActions(s, t) +
    if HitsAt(s.ttl, s.store, s.threads[t].key, s.now) then []
    else if s.threads[t].key in s.calls then JoinActions(t)
    else LeadActions(t, out, d, victim)
  }

  function DoState(s: State, t: nat, out: Outcome, d: nat, victim: Key): State
    requires CanLookUp(s, t, victim)
  {
    var m := GotState(s, t);
    if HitsAt(s.ttl, s.store, s.threads[t].key, s.now) then m
    else if s.threads[t].key in s.calls then JoinedState(m, t)
    else LedAloneState(m, t, out, d, victim)
  }

  /** Left alone, a `Do` of the protocol is a path to its end. */
  lemma LoneDoRuns(s: State, t: nat, out: Outcome, d: nat, victim: Key)
    requires CanLookUp(s, t, victim)
    ensures Follows(s, DoActions(s, t, out, d, victim), DoState(s, t, out, d, victim))
    ensures Alone(DoActions(s, t, out, d, victim), t)
  {
    var m, f := GotState(s, t), DoState(s, t, out, d, victim);
    LoneGet(s, t);
    if HitsAt(s.ttl, s.store, s.threads[t].key, s.now) {
      assert GetActions(s, t) + [] == GetActions(s, t);
    } else if s.threads[t].key in s.calls {
      LoneJoin(m, t);
      FollowsMore(s, GetActions(s, t), m, JoinActions(t), f);
    } else {
      LoneLead(m, t, out, d, victim);
      FollowsMore(s, GetActions(s, t), m, LeadActions(t, out, d, victim), f);
    }
  }

  /** And there it has done what `Cache.Do` does, whichever entry goes. */
  lemma LoneDo(s: State, t: nat, out: Outcome, d: nat, victim: Key)
    requires CanLookUp(s, t, victim)
    ensures var f, key := DoState(s, t, out, d, victim), s.threads[t].key;
      && t < |f.threads| && f.threads[t].pc.Done? && f.calls == s.calls
      && Looked(s.ttl, s.cap, s.store, InFlightOf(s, key), key, s.now, out, s.now + d,
                Effect(f.store, f.hits - s.hits, f.misses - s.misses, f.shared - s.shared,
                       f.threads[t].pc.out, f.threads[t].pc.shared))
  {
    var m, key := GotState(s, t), s.threads[t].key;
    if !HitsAt(s.ttl, s.store, key, s.now) && key !in s.calls {
      LeadingAloneStores(m, t, out, d, victim);
    }
  }

  /** The other two methods of the object are steps too. */
  lemma SetIsAStep(s: State, key: Key, val: Blob, victim: Key)
    requires VictimOk(s, victim)
    ensures var f := Step(s, SetDirect(key, val, victim));
      && (s.ttl <= 0 ==> f.store == s.store)
      && (s.ttl > 0 ==> IsPut(s.store, s.cap, key, Entry(val, s.now + s.ttl), f.store))
  {
    var f := Step(s, SetDirect(key, val, victim));
    assert s.ttl > 0 ==> f.store == Put(s.store, s.cap, victim, key, Entry(val, s.now + s.ttl));
  }

  lemma EnterIsAStep(s: State, t: nat)
    requires t < |s.threads| && s.threads[t].pc.Missed? && |s.heap| == |s.leaders|
    ensures var key, f := s.threads[t].key, Step(s, JoinOrLead(t));
      && (key !in s.calls ==>
            && f.calls == s.calls[key := |s.heap|] && f.heap == s.heap + [ZERO_CALL]
            && f.threads[t].pc == Running(|s.heap|))
      && (key in s.calls ==> f.calls == s.calls && f.heap == s.heap && f.threads[t].pc == Waiting(s.calls[key]))
  {
  }

  // ---------------------------------------------------------------- the cache object

  /** A call as the code holds it: filled in by its leader, then closed. */
  class InFlight {
    var closed: bool
    var result: Outcome

    constructor ()
      ensures !closed && result == ZERO_CALL.result
    {
      closed, result := false, ZERO_CALL.result;
    }
  }

  /** The cache for one caller at a time. `LoneGet`, `SetIsAStep`, `EnterIsAStep` and `LoneDo`
      say that the protocol above does the same when nobody else moves. The clock is a parameter. */
  class Cache {
    const ttl: int
    const cap: int
    var store: map<Key, Entry>
    var calls: map<Key, InFlight>
    var hits: nat
    var misses: nat
    var joins: nat

    constructor (ttl: int, cap: int)
      ensures this.ttl == ttl && this.cap == cap
      ensures store == map[] && calls == map[] && hits == misses == joins == 0
    {
      this.ttl, this.cap := ttl, cap;
      store, calls, hits, misses, joins := map[], map[], 0, 0, 0;
    }

    /** The result of the call in flight for `key`, if there is one. */
    function InFlightResult(key: Key): Option<Outcome>
      reads this, if key in calls then {calls[key]} else {}
    {
      if key in calls then Some(calls[key].result) else None
    }

    method Get(key: Key, now: int) returns (val: Option<Blob>)
      modifies this`hits, this`misses
      ensures val == if ttl > 0 && key in store && now <= store[key].exp then Some(store[key].val) else None
      ensures hits == old(hits) + Bit(val.Some?)
      ensures misses == old(misses) + Bit(ttl > 0 && val == None)
    {
      if ttl <= 0 {
        return None;
      }
      if key !in store {
        misses := misses + 1;
        return None;
      }
      var e := store[key];
      if now > e.exp {
        misses := misses + 1;
        return None;
      }
      hits := hits + 1;
      return Some(e.val);
    }

    method Set(key: Key, val: Blob, now: int)
      modifies this`store
      ensures ttl <= 0 ==> store == old(store)
      ensures ttl > 0 ==> IsPut(old(store), cap, key, Entry(val, now + ttl), store)
      ensures ttl > 0 ==> key in store && store[key] == Entry(val, now + ttl)
      ensures cap > 0 && |old(store)| <= cap ==> |store| <= cap
    {
      if ttl <= 0 {
        return;
      }
      ghost var victim: Key := key;
      if cap > 0 && |store| >= cap {
        assert store.Keys != {};
        var k :| k in store;
        store := store - {k};
        victim := k;
      }
      store := store[key := Entry(val, now + ttl)];
      assert store == Put(old(store), cap, victim, key, Entry(val, now + ttl));
      if cap > 0 && |old(store)| <= cap { PutKeepsCap(old(store), cap, victim, key, Entry(val, now + ttl)); }
    }

    /** The first locked section of `Do`. */
    method Enter(key: Key) returns (ca: InFlight, leads: bool)
      modifies this`calls
      ensures leads <==> key !in old(calls)
      ensures leads ==> fresh(ca) && !ca.closed && calls == old(calls)[key := ca]
      ensures !leads ==> calls == old(calls) && ca == old(calls)[key]
    {
      if key in calls {
        return calls[key], false;
      }
      ca := new InFlight();
      calls := calls[key := ca];
      leads := true;
    }

    /** `Do` for a caller that need not wait: a call in flight for its key has closed. `out`
        is what `fn` returns at time `later`, if it runs. */
    method Do(key: Key, now: int, out: Outcome, later: int) returns (got: Outcome, shared: bool)
      requires key in calls ==> calls[key].closed
      modifies this
      ensures calls == old(calls)
      ensures Looked(ttl, cap, old(store), old(InFlightResult(key)), key, now, out, later,
                     Effect(store, hits - old(hits), misses - old(misses), joins - old(joins), got, shared))
    {
      var cached := Get(key, now);
      if cached.Some? {
        return Outcome(cached.value, None), true;
      }
      var ca, leads := Enter(key);
      if !leads {
        joins := joins + 1;
        return ca.result, true;
      }
      ca.result := out;
      ca.closed := true;
      calls := calls - {key};
      if out.err == None && |out.val| > 0 {
        assert store == old(store);
        Set(key, out.val, later);
      }
      return out, false;
    }
  }
}
