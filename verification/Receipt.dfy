/** The durable receipt journal of one community submission id.

    An attempt runs under one lock, so at most one is in progress. It reads and writes
    the journal in stages; the process may stop between any two of them, a failed write
    may or may not have reached the disk, and the crawler in the middle is an
    environment that reports novelty, writes the document, fails or returns as it likes. */
module Receipt {
  import opened Bytes

  type Hash = string

  datatype NoveltyDecision = NoveltyDecision(finalURL: string, novel: bool)

  datatype ContributionReceipt =
    ContributionReceipt(indexed: bool, novel: bool, contentHash: Hash, finalURL: string, complete: bool)

  /** `approved` is empty in a legacy record. */
  datatype Record = Record(payload: Hash, approved: Hash, eligible: bool,
                           decision: Option<NoveltyDecision>, receipt: Option<ContributionReceipt>)

  datatype Submission = Submission(payload: Hash, approved: Hash)

  predicate ValidApprovedHash(h: Hash) {
    |h| == 64 && forall i | 0 <= i < |h| :: '0' <= h[i] <= '9' || 'a' <= h[i] <= 'f'
  }

  /** Where the attempt in progress is, with its in-memory record. */
  datatype PC =
    | Idle
    | Opened(q: Submission)
    | Legacy(q: Submission, rec: Record)            // unbound receipt: compare its content
    | Upgrading(q: Submission, rec: Record)         // about to write the approval
    | NoRecord(q: Submission)
    | Intending(q: Submission, rec: Record)         // about to write the intent
    | Fetching(q: Submission, rec: Record, cleared: bool, failed: bool)
    | Fetched(q: Submission, rec: Record, got: ContributionReceipt)
    | Sealing(q: Submission, rec: Record)           // about to write the receipt
    | Replaying(q: Submission, rec: Record)

  datatype Reply = Reply(q: Submission, receipt: ContributionReceipt)

  /** `present`: a document sits at the submission's URL. History: `indexing` says that
      some attempt reached the crawler, `vacant` that the URL was free when the intent
      was decided, and `replies` lists the receipts returned. */
  datatype State = State(disk: Option<Record>, pc: PC, present: bool, indexing: bool, vacant: bool, replies: seq<Reply>)

  datatype Wrote = Durable | ErrLanded | ErrLost

  datatype Lookup = Found | Absent | Broken

  /** What `contentUnclaimed` reads. */
  datatype Probe = Probe(doc: Lookup, hashDecodes: bool, live: Option<bool>, held: Option<bool>)

  function ContentUnclaimed(p: Probe): Option<bool> {
    match p.doc
    case Absent => Some(false)
    case Broken => None
    case Found =>
      if !p.hashDecodes then Some(false)
      else if p.live == None then None
      else if p.live == Some(true) then Some(false)
      else if p.held == None then None
      else Some(!p.held.value)
  }

  datatype Action =
    | Begin(q: Submission)
    | Abandon                                     // a read error, a refused URL or a cancelled request
    | ReadJournal
    | CompareContent(same: bool)
    | WriteApproval(w: Wrote)
    | LookUpPrior
    | WriteIntent(w: Wrote)
    | Report(d: NoveltyDecision, w: Wrote)
    | WriteDocument                               // the write of new or changed content
    | FetchReturns(got: ContributionReceipt)
    | CheckIndex(complete: bool)
    | WriteReceipt(w: Wrote)
    | Replay(complete: bool, probe: Probe)
    | SetPresent(present: bool)                   // other contributions and purges
    | Crash

  /** The crawler's side of the recorder: a fetch reports before it writes a document, and
      an error from the recorder aborts the fetch, so that nothing is reported, written or
      returned after it. */
  predicate Enabled(s: State, a: Action) {
    match a
    case Begin(_) => s.pc.Idle?
    case Abandon => !s.pc.Idle?
    case ReadJournal => s.pc.Opened?
    case CompareContent(_) => s.pc.Legacy?
    case WriteApproval(_) => s.pc.Upgrading?
    case LookUpPrior => s.pc.NoRecord?
    case WriteIntent(_) => s.pc.Intending?
    case Report(_, _) => s.pc.Fetching? && !s.pc.failed
    case WriteDocument => s.pc.Fetching? && s.pc.cleared && !s.pc.failed
    case FetchReturns(_) => s.pc.Fetching? && !s.pc.failed
    case CheckIndex(_) => s.pc.Fetched?
    case WriteReceipt(_) => s.pc.Sealing?
    case Replay(_, _) => s.pc.Replaying?
    case SetPresent(_) => true
    case Crash => true
  }

  /** Lines 90-92 and 110-118: a record with a receipt is replayed, one without goes to the crawler. */
  function Proceed(s: State, q: Submission, rec: Record): State {
    if rec.receipt.Some? then s.(pc := Replaying(q, rec))
    else s.(pc := Fetching(q, rec, false, false), indexing := true)
  }

  function Opening(s: State, q: Submission): State {
    match s.disk
    case None => s.(pc := NoRecord(q))
    case Some(rec) =>
      if rec.payload != q.payload then s.(pc := Idle)
      else if rec.approved == "" then
        if rec.receipt.Some? then s.(pc := Legacy(q, rec))
        else s.(pc := Upgrading(q, rec.(approved := q.approved)))
      else if rec.approved != q.approved then s.(pc := Idle)
      else Proceed(s, q, rec)
  }

  /** A write leaves the record on disk unless it failed without landing. */
  function Put(s: State, w: Wrote, rec: Record): State {
    if w.ErrLost? then s else s.(disk := Some(rec))
  }

  /** Line 130. */
  function Sealed(rec: Record, got: ContributionReceipt, complete: bool): ContributionReceipt {
    var novel := if rec.decision.Some? then rec.decision.value.novel else got.novel;
    got.(novel := got.indexed && rec.eligible && novel && complete, complete := complete)
  }

  /** Lines 141-155. */
  function Replayed(rec: Record, complete: bool, probe: Probe): Option<ContributionReceipt>
    requires rec.receipt.Some?
  {
    var r := rec.receipt.value.(complete := complete);
    if r.novel && rec.decision == None && complete then
      var unclaimed := ContentUnclaimed(probe);
      if unclaimed == None then None else Some(r.(novel := unclaimed.value))
    else Some(r.(novel := r.novel && complete))
  }

  function Step(s: State, a: Action): State
    requires Enabled(s, a)
  {
    match a
    case Begin(q) => if ValidApprovedHash(q.approved) then s.(pc := Opened(q)) else s
    case Abandon => s.(pc := Idle)
    case ReadJournal => Opening(s, s.pc.q)
    case CompareContent(same) =>
      if same then s.(pc := Upgrading(s.pc.q, s.pc.rec.(approved := s.pc.q.approved))) else s.(pc := Idle)
    case WriteApproval(w) =>
      var s' := Put(s, w, s.pc.rec);
      if w.Durable? then Proceed(s', s.pc.q, s.pc.rec) else s'.(pc := Idle)
    case LookUpPrior =>
      s.(pc := Intending(s.pc.q, Record(s.pc.q.payload, s.pc.q.approved, !s.present, None, None)), vacant := !s.present)
    case WriteIntent(w) =>
      var s' := Put(s, w, s.pc.rec);
      if w.Durable? then Proceed(s', s.pc.q, s.pc.rec) else s'.(pc := Idle)
    case Report(d, w) =>
      if s.pc.rec.decision.Some? then s.(pc := s.pc.(cleared := true))
      else
        var rec := s.pc.rec.(decision := Some(d));
        if w.Durable? then Put(s, w, rec).(pc := s.pc.(rec := rec, cleared := true))
        else Put(s, w, rec).(pc := s.pc.(rec := rec, failed := true))
    case WriteDocument => s.(present := true)
    case FetchReturns(got) => s.(pc := Fetched(s.pc.q, s.pc.rec, got))
    case CheckIndex(complete) =>
      s.(pc := Sealing(s.pc.q, s.pc.rec.(receipt := Some(Sealed(s.pc.rec, s.pc.got, complete)))))
    case WriteReceipt(w) =>
      var s' := Put(s, w, s.pc.rec).(pc := Idle);
      if w.Durable? && s.pc.rec.receipt.Some? then s'.(replies := s.replies + [Reply(s.pc.q, s.pc.rec.receipt.value)])
      else s'
    case Replay(complete, probe) =>
      if s.pc.rec.receipt == None then s.(pc := Idle)
      else
        var answer := Replayed(s.pc.rec, complete, probe);
        if answer == None then s.(pc := Idle)
        else s.(pc := Idle, replies := s.replies + [Reply(s.pc.q, answer.value)])
    case SetPresent(present) => s.(present := present)
    case Crash => s.(pc := Idle)
  }

  /** A run for one id, starting from whatever an earlier version may have journaled. */
  ghost predicate Run(states: seq<State>, actions: seq<Action>) {
    && |states| == |actions| + 1
    && states[0].pc.Idle? && states[0].replies == []
    && (states[0].disk == None ==> !states[0].indexing)
    && (states[0].disk.Some? ==> RecordOk(states[0].disk.value) && states[0].vacant == states[0].disk.value.eligible)
    && forall i {:trigger actions[i]} | 0 <= i < |actions| ::
        Enabled(states[i], actions[i]) && states[i + 1] == Step(states[i], actions[i])
  }

  // ---------------------------------------------------------------- the journal only grows

  /** Nothing durably written is ever changed; only what was empty is filled in. */
  predicate Extends(a: Option<Record>, b: Option<Record>) {
    a.Some? ==>
      && b.Some?
      && b.value.payload == a.value.payload
      && (a.value.approved != "" ==> b.value.approved == a.value.approved)
      && b.value.eligible == a.value.eligible
      && (a.value.decision.Some? ==> b.value.decision == a.value.decision)
      && (a.value.receipt.Some? ==> b.value.receipt == a.value.receipt)
  }

  /** A stored novel receipt is eligible and not contradicted by the decision. */
  predicate RecordOk(rec: Record) {
    rec.receipt.Some? && rec.receipt.value.novel ==>
      rec.eligible && (rec.decision.Some? ==> rec.decision.value.novel)
  }

  predicate Owns(q: Submission, rec: Record) {
    ValidApprovedHash(q.approved) && rec.payload == q.payload && rec.approved == q.approved
  }

  /** How the in-memory record relates to the disk at each stage. */
  ghost predicate StageOk(s: State) {
    match s.pc
    case Idle => true
    case Opened(q) => ValidApprovedHash(q.approved)
    case Legacy(q, rec) =>
      && s.disk == Some(rec) && ValidApprovedHash(q.approved)
      && rec.payload == q.payload && rec.approved == "" && rec.receipt.Some?
    case Upgrading(q, rec) => Owns(q, rec) && s.disk == Some(rec.(approved := ""))
    case NoRecord(q) => s.disk == None && ValidApprovedHash(q.approved)
    case Intending(q, rec) =>
      && Owns(q, rec) && s.disk == None
      && rec.decision == None && rec.receipt == None && rec.eligible == s.vacant
    case Fetching(q, rec, cleared, failed) =>
      && Owns(q, rec) && rec.receipt == None && s.indexing
      && (failed ==> s.disk == Some(rec) || s.disk == Some(rec.(decision := None)))
      && (!failed ==> s.disk == Some(rec))
      && (cleared ==> rec.decision.Some?)
    case Fetched(q, rec, _) => Owns(q, rec) && s.disk == Some(rec) && rec.receipt == None
    case Sealing(q, rec) => Owns(q, rec) && s.disk == Some(rec.(receipt := None)) && rec.receipt.Some? && RecordOk(rec)
                              && (rec.receipt.value.novel ==> rec.receipt.value.complete && rec.receipt.value.indexed)
    case Replaying(q, rec) => Owns(q, rec) && s.disk == Some(rec) && rec.receipt.Some?
  }

  /** Every receipt returned so far agrees with what the journal holds now. */
  predicate ReplyOk(disk: Option<Record>, r: Reply) {
    && disk.Some?
    && disk.value.receipt.Some?
    && Owns(r.q, disk.value)
    && (r.receipt.novel ==> disk.value.receipt.value.novel && r.receipt.complete)
    && r.receipt.contentHash == disk.value.receipt.value.contentHash
    && (disk.value.decision.Some? && r.receipt.complete ==> r.receipt == disk.value.receipt.value.(complete := true))
  }

  ghost predicate Inv(s: State) {
    && StageOk(s)
    && DiskOk(s)
    && (forall i | 0 <= i < |s.replies| :: ReplyOk(s.disk, s.replies[i]))
  }

  predicate DiskOk(s: State) {
    && (s.disk.Some? ==> RecordOk(s.disk.value) && s.disk.value.eligible == s.vacant)
    && (s.indexing ==> s.disk.Some?)
  }

  predicate WritesJournal(a: Action) { a.WriteApproval? || a.WriteIntent? || a.Report? || a.WriteReceipt? }

  lemma OnlyWritesTouchDisk(s: State, a: Action)
    requires Enabled(s, a) && !WritesJournal(a)
    ensures Step(s, a).disk == s.disk
  {
  }

  lemma StepGrows(s: State, a: Action)
    requires StageOk(s) && Enabled(s, a)
    ensures Extends(s.disk, Step(s, a).disk)
    ensures s.disk.Some? && s.disk.value.receipt.Some? ==> Step(s, a).disk.value.decision == s.disk.value.decision
  {
    if !WritesJournal(a) { OnlyWritesTouchDisk(s, a); }
  }

  lemma StepKeepsStage(s: State, a: Action)
    requires StageOk(s) && DiskOk(s) && Enabled(s, a)
    ensures StageOk(Step(s, a))
  {
    if WritesJournal(a) { WriteKeepsStage(s, a); } else { OtherStepKeepsStage(s, a); }
  }

  lemma WriteKeepsStage(s: State, a: Action)
    requires StageOk(s) && DiskOk(s) && Enabled(s, a) && WritesJournal(a)
    ensures StageOk(Step(s, a))
  {
  }

  lemma OtherStepKeepsStage(s: State, a: Action)
    requires StageOk(s) && DiskOk(s) && Enabled(s, a) && !WritesJournal(a)
    ensures StageOk(Step(s, a))
  {
  }

  lemma StepKeepsDisk(s: State, a: Action)
    requires StageOk(s) && DiskOk(s) && Enabled(s, a)
    ensures DiskOk(Step(s, a))
  {
    if WritesJournal(a) { WriteKeepsDisk(s, a); } else { OnlyWritesTouchDisk(s, a); }
  }

  lemma WriteKeepsDisk(s: State, a: Action)
    requires StageOk(s) && DiskOk(s) && Enabled(s, a) && WritesJournal(a)
    ensures DiskOk(Step(s, a))
  {
  }

  lemma StepKeepsReplies(s: State, a: Action)
    requires Inv(s) && Enabled(s, a)
    ensures forall i | 0 <= i < |Step(s, a).replies| :: ReplyOk(Step(s, a).disk, Step(s, a).replies[i])
  {
    StepGrows(s, a);
    forall i | 0 <= i < |Step(s, a).replies| ensures ReplyOk(Step(s, a).disk, Step(s, a).replies[i]) {
      if i < |s.replies| { assert ReplyOk(s.disk, s.replies[i]); }
    }
  }

  lemma {:induction false} RunsKeepInv(states: seq<State>, actions: seq<Action>, i: nat)
    requires Run(states, actions) && i < |states|
    ensures Inv(states[i])
  {
    if i > 0 {
      RunsKeepInv(states, actions, i - 1);
      StepKeepsStage(states[i - 1], actions[i - 1]);
      StepKeepsDisk(states[i - 1], actions[i - 1]);
      StepKeepsReplies(states[i - 1], actions[i - 1]);
    }
  }

  // ---------------------------------------------------------------- theorems about every run

  /** From `a` to `b` the journal was only filled in, a sealed decision stood, and replies
      were only added. */
  predicate Grown(a: State, b: State) {
    && Extends(a.disk, b.disk)
    && (a.disk.Some? && a.disk.value.receipt.Some? ==> b.disk.value.decision == a.disk.value.decision)
    && a.replies <= b.replies
  }

  lemma GrownTwice(a: State, b: State, c: State)
    requires Grown(a, b) && Grown(b, c)
    ensures Grown(a, c)
  {
  }

  /** Across any attempts, failures and crashes the journal is only ever filled in. */
  lemma {:induction false} JournalOnlyGrows(states: seq<State>, actions: seq<Action>, i: nat, j: nat)
    requires Run(states, actions) && i <= j < |states|
    ensures Grown(states[i], states[j])
    decreases j
  {
    if i < j {
      JournalOnlyGrows(states, actions, i, j - 1);
      OneStepGrows(states, actions, j - 1);
      GrownTwice(states[i], states[j - 1], states[j]);
    }
  }

  lemma OneStepGrows(states: seq<State>, actions: seq<Action>, m: nat)
    requires Run(states, actions) && m < |actions|
    ensures Grown(states[m], states[m + 1])
  {
    RunsKeepInv(states, actions, m);
    StepGrows(states[m], actions[m]);
    RepliesAppend(states[m], actions[m]);
  }

  lemma RepliesAppend(s: State, a: Action)
    requires Enabled(s, a)
    ensures |s.replies| <= |Step(s, a).replies| && Step(s, a).replies[..|s.replies|] == s.replies
  {
  }

  /** All receipts ever returned for the id answer one payload under one approval, and
      they all name the same content: a different payload or approval gets none. */
  lemma OnePayloadOneApproval(states: seq<State>, actions: seq<Action>, i: nat, m: nat, n: nat)
    requires Run(states, actions) && i < |states| && m < |states[i].replies| && n < |states[i].replies|
    ensures states[i].replies[m].q == states[i].replies[n].q
    ensures states[i].replies[m].receipt.contentHash == states[i].replies[n].receipt.contentHash
    ensures states[i].disk.Some? && Owns(states[i].replies[m].q, states[i].disk.value)
  {
    RunsKeepInv(states, actions, i);
    assert ReplyOk(states[i].disk, states[i].replies[m]) && ReplyOk(states[i].disk, states[i].replies[n]);
  }

  /** A receipt returned as novel was eligible, was not contradicted by the journaled
      decision, and was returned over a complete content index. */
  lemma NovelIsEarned(states: seq<State>, actions: seq<Action>, i: nat, n: nat)
    requires Run(states, actions) && i < |states| && n < |states[i].replies| && states[i].replies[n].receipt.novel
    ensures states[i].disk.Some? && states[i].disk.value.eligible && states[i].vacant
    ensures states[i].disk.value.decision.Some? ==> states[i].disk.value.decision.value.novel
    ensures states[i].replies[n].receipt.complete
  {
    RunsKeepInv(states, actions, i);
    assert ReplyOk(states[i].disk, states[i].replies[n]);
  }

  /** A replay never upgrades a stored verdict; with a journaled decision and a complete
      index every answer, first or replayed, is the stored receipt itself, apart from the
      completeness bit that each answer carries for its own moment. */
  lemma RepliesRepeatTheVerdict(states: seq<State>, actions: seq<Action>, i: nat, m: nat, n: nat)
    requires Run(states, actions) && i < |states| && m < |states[i].replies| && n < |states[i].replies|
    requires states[i].replies[m].receipt.complete && states[i].replies[n].receipt.complete
    ensures states[i].disk.Some? && states[i].disk.value.receipt.Some?
    ensures states[i].disk.value.decision.Some? ==>
      && states[i].replies[m] == states[i].replies[n]
      && states[i].replies[m].receipt == states[i].disk.value.receipt.value.(complete := true)
    ensures states[i].replies[m].receipt.novel ==> states[i].disk.value.receipt.value.novel
  {
    RunsKeepInv(states, actions, i);
    assert ReplyOk(states[i].disk, states[i].replies[m]) && ReplyOk(states[i].disk, states[i].replies[n]);
  }

  /** A receipt with a decision says novel exactly when the contribution was indexed and
      eligible, the decision was novel, and the index was complete at sealing. */
  predicate Exact(rec: Record) {
    rec.receipt.Some? && rec.decision.Some? ==>
      (rec.receipt.value.novel <==>
        rec.receipt.value.indexed && rec.eligible && rec.decision.value.novel && rec.receipt.value.complete)
  }

  predicate AllExact(s: State) {
    && (s.disk.Some? ==> Exact(s.disk.value))
    && (s.pc.Upgrading? || s.pc.Sealing? ==> Exact(s.pc.rec))
  }

  lemma StepKeepsExact(s: State, a: Action)
    requires StageOk(s) && AllExact(s) && Enabled(s, a)
    ensures AllExact(Step(s, a))
  {
    if WritesJournal(a) { WriteKeepsExact(s, a); } else { OnlyWritesTouchDisk(s, a); }
  }

  lemma WriteKeepsExact(s: State, a: Action)
    requires StageOk(s) && AllExact(s) && Enabled(s, a) && WritesJournal(a)
    ensures AllExact(Step(s, a))
  {
  }

  lemma {:induction false} RunsKeepExact(states: seq<State>, actions: seq<Action>, i: nat)
    requires Run(states, actions) && i < |states| && (states[0].disk.Some? ==> Exact(states[0].disk.value))
    ensures AllExact(states[i])
  {
    if i > 0 {
      RunsKeepExact(states, actions, i - 1);
      RunsKeepInv(states, actions, i - 1);
      StepKeepsExact(states[i - 1], actions[i - 1]);
    }
  }

  /** A deserving contribution is never denied: with a journaled decision, an answer over a
      complete index says novel exactly when the sealed receipt had every reason to. */
  lemma VerdictIsExact(states: seq<State>, actions: seq<Action>, i: nat, n: nat)
    requires Run(states, actions) && (states[0].disk.Some? ==> Exact(states[0].disk.value))
    requires i < |states| && n < |states[i].replies| && states[i].replies[n].receipt.complete
    ensures states[i].disk.Some? && states[i].disk.value.receipt.Some?
    ensures var rec := states[i].disk.value;
      rec.decision.Some? ==>
        (states[i].replies[n].receipt.novel <==>
          rec.receipt.value.indexed && rec.eligible && rec.decision.value.novel && rec.receipt.value.complete)
  {
    RunsKeepExact(states, actions, i);
    RepliesRepeatTheVerdict(states, actions, i, n, n);
  }

  /** No other document holds the content: the document is found, its hash decodes, no live
      document has it and no variant that cannot be compared holds it. */
  predicate Unclaimed(p: Probe) {
    p.doc.Found? && p.hashDecodes && p.live == Some(false) && p.held == Some(false)
  }

  /** A lookup fails before the answer is known. */
  predicate LookupFails(p: Probe) {
    p.doc.Broken? || (p.doc.Found? && p.hashDecodes && (p.live == None || (p.live == Some(false) && p.held == None)))
  }

  lemma ProbeDecides(p: Probe)
    ensures ContentUnclaimed(p) == if LookupFails(p) then None else Some(Unclaimed(p))
  {
    match (p.live, p.held) {
      case (Some(true), _) => case (Some(false), Some(true)) => case (Some(false), Some(false)) =>
      case (Some(false), None) => case (None, _) =>
    }
  }

  /** The answer to a replay of `rec`. */
  predicate ReplayAs(rec: Record, complete: bool, p: Probe, answer: Option<ContributionReceipt>)
    requires rec.receipt.Some?
  {
    var r, judged := rec.receipt.value, rec.decision.Some?;
    if r.novel && !judged && complete && LookupFails(p) then answer == None
    else answer == Some(r.(complete := complete, novel := r.novel && complete && (judged || Unclaimed(p))))
  }

  /** What the answer to a replay says: the stored receipt, and no longer novel when the index
      is incomplete. Without a journaled decision a novel one is checked again: it stays novel
      exactly when nobody else holds the content, and there is no answer when a lookup fails. */
  lemma ReplayAnswers(states: seq<State>, actions: seq<Action>, i: nat)
    requires Run(states, actions) && i < |actions| && actions[i].Replay?
    ensures states[i].pc.Replaying? && states[i].disk.Some? && states[i].disk.value.receipt.Some?
    ensures exists answer ::
      && ReplayAs(states[i].disk.value, actions[i].complete, actions[i].probe, answer)
      && states[i + 1].replies == states[i].replies + Answered(states[i].pc.q, answer)
  {
    RunsKeepInv(states, actions, i);
    assert Enabled(states[i], actions[i]) && states[i + 1] == Step(states[i], actions[i]);
    ProbeDecides(actions[i].probe);
    var answer := Replayed(states[i].disk.value, actions[i].complete, actions[i].probe);
    assert ReplayAs(states[i].disk.value, actions[i].complete, actions[i].probe, answer);
  }

  /** What the first answer says, and that the journal holds it: novel exactly when the
      contribution was indexed and eligible, the index is complete and the journaled
      decision, or without one the crawler, called it novel. */
  lemma FirstAnswer(states: seq<State>, actions: seq<Action>, i: nat, j: nat)
    requires Run(states, actions) && i < j < |actions|
    requires actions[i].CheckIndex? && actions[j] == WriteReceipt(Durable)
    requires forall m | i < m < j :: actions[m].SetPresent?
    ensures states[i].pc.Fetched? && states[i].disk.Some?
    ensures var rec, got, complete := states[i].disk.value, states[i].pc.got, actions[i].complete;
      var called := if rec.decision.Some? then rec.decision.value.novel else got.novel;
      var r := got.(complete := complete, novel := got.indexed && rec.eligible && called && complete);
      && states[j + 1].disk == Some(rec.(receipt := Some(r)))
      && states[j + 1].replies == states[i].replies + [Reply(states[i].pc.q, r)]
  {
    RunsKeepInv(states, actions, i);
    assert Enabled(states[i], actions[i]) && states[i + 1] == Step(states[i], actions[i]);
    OthersOnly(states, actions, i + 1, j);
    assert states[j + 1] == Step(states[j], actions[j]);
  }

  function Answered(q: Submission, answer: Option<ContributionReceipt>): seq<Reply> {
    if answer.Some? then [Reply(q, answer.value)] else []
  }

  lemma {:induction false} OthersOnly(states: seq<State>, actions: seq<Action>, i: nat, j: nat)
    requires Run(states, actions) && i <= j < |states| && forall m | i <= m < j :: actions[m].SetPresent?
    ensures states[j].pc == states[i].pc && states[j].disk == states[i].disk && states[j].replies == states[i].replies
    decreases j
  {
    if i < j {
      OthersOnly(states, actions, i, j - 1);
      assert states[j] == Step(states[j - 1], actions[j - 1]);
    }
  }

  /** An attempt gets past the door exactly when its approval is a SHA-256 in lower-case hex. */
  lemma ApprovalsAreHashes(states: seq<State>, actions: seq<Action>, i: nat)
    requires Run(states, actions) && i < |actions| && actions[i].Begin?
    ensures states[i + 1].pc.Opened? <==>
      |actions[i].q.approved| == 64 && AllIn(actions[i].q.approved, "0123456789abcdef")
  {
    assert Enabled(states[i], actions[i]) && states[i + 1] == Step(states[i], actions[i]);
    HexDigits(actions[i].q.approved);
  }

  /** The intent is durable before any attempt reaches the crawler, and the eligibility it
      records is the vacancy of the URL at a moment before that. */
  lemma IntentPrecedesIndexing(states: seq<State>, actions: seq<Action>, i: nat)
    requires Run(states, actions) && i < |states| && (states[i].indexing || states[i].pc.Fetching?)
    ensures states[i].indexing && states[i].disk.Some? && states[i].disk.value.eligible == states[i].vacant
  {
    RunsKeepInv(states, actions, i);
  }

  lemma EligibleMeansVacantBeforeIndexing(states: seq<State>, actions: seq<Action>, i: nat)
    requires Run(states, actions) && i < |actions| && actions[i].LookUpPrior?
    ensures !states[i].indexing && states[i].disk == None
    ensures states[i + 1].vacant == !states[i].present
  {
    RunsKeepInv(states, actions, i);
    assert states[i + 1] == Step(states[i], actions[i]);
  }

  /** Whatever failed or crashed before, a verdict is on disk when the document is written,
      it is the one this attempt goes by, and it stands from then on. */
  lemma VerdictPrecedesWrite(states: seq<State>, actions: seq<Action>, i: nat, j: nat)
    requires Run(states, actions) && i < |actions| && actions[i].WriteDocument? && i <= j < |states|
    ensures states[i].disk.Some? && states[i].disk.value.decision.Some?
    ensures states[i].pc.Fetching? && states[i].disk == Some(states[i].pc.rec)
    ensures states[j].disk.Some? && states[j].disk.value.decision == states[i].disk.value.decision
  {
    RunsKeepInv(states, actions, i);
    JournalOnlyGrows(states, actions, i, j);
  }

  /** What is assumed of the crawler, over a run: after a report that could not be written
      durably nothing is reported, written or returned until the attempt ends. */
  lemma {:induction false} FailedReportEndsTheFetch(states: seq<State>, actions: seq<Action>, i: nat, j: nat)
    requires Run(states, actions) && i < j <= |actions| && actions[i].Report?
    requires states[i + 1].pc.Fetching? && states[i + 1].pc.failed
    requires forall m | i < m < j :: !actions[m].Abandon? && !actions[m].Crash?
    ensures states[j].pc == states[i + 1].pc
    ensures forall m | i < m < j :: actions[m].SetPresent?
    decreases j
  {
    if i + 1 < j {
      FailedReportEndsTheFetch(states, actions, i, j - 1);
      assert Enabled(states[j - 1], actions[j - 1]) && states[j] == Step(states[j - 1], actions[j - 1]);
    }
  }

  // ---------------------------------------------------------------- one attempt, as the code runs it

  /** Everything one attempt reads from outside, and how its writes end. */
  datatype Env = Env(
    readFails: bool, sameContent: bool, approvalWrite: Wrote,
    urlOk: bool, prior: Lookup, intentWrite: Wrote,
    reports: seq<(NoveltyDecision, Wrote)>, writes: bool, fetched: Option<ContributionReceipt>,
    complete: Option<bool>, sealWrite: Wrote, probe: Probe)

  /** `s'` is reached from `s` by `actions`. */
  ghost predicate Reaches(s: State, actions: seq<Action>, s': State)
    decreases |actions|
  {
    if actions == [] then s == s'
    else Enabled(s, actions[0]) && Reaches(Step(s, actions[0]), actions[1..], s')
  }

  lemma {:induction false} ReachesMore(s: State, actions: seq<Action>, m: State, a: Action)
    requires Reaches(s, actions, m) && Enabled(m, a)
    ensures Reaches(s, actions + [a], Step(m, a))
    decreases |actions|
  {
    if actions == [] {
      assert [a][1..] == [] && [] + [a] == [a];
    } else {
      assert (actions + [a])[1..] == actions[1..] + [a];
      ReachesMore(Step(s, actions[0]), actions[1..], m, a);
    }
  }

  predicate AllDurable(reports: seq<(NoveltyDecision, Wrote)>) {
    forall i | 0 <= i < |reports| :: reports[i].1.Durable?
  }

  /** The decision after some reports: the one journaled before, or else the first. */
  function Verdict(first: Record, reports: seq<(NoveltyDecision, Wrote)>): Option<NoveltyDecision> {
    if first.decision.Some? || reports == [] then first.decision else Some(reports[0].0)
  }

  /** Nothing that a first attempt needs fails. */
  predicate Smooth(env: Env) {
    && !env.readFails && env.urlOk && !env.prior.Broken? && env.intentWrite.Durable? && AllDurable(env.reports)
    && env.fetched.Some? && env.complete.Some? && env.sealWrite.Durable?
  }

  /** No hash, or a record of another payload or approval. */
  predicate Refused(q: Submission, disk: Option<Record>) {
    || !ValidApprovedHash(q.approved)
    || (disk.Some? && (disk.value.payload != q.payload || disk.value.approved !in {"", q.approved}))
  }

  /** The record of this very submission, with its receipt. */
  predicate Retries(q: Submission, disk: Option<Record>) {
    && ValidApprovedHash(q.approved) && disk.Some? && disk.value.receipt.Some?
    && disk.value.payload == q.payload && disk.value.approved == q.approved
  }

  /** What a first attempt that nothing disturbs returns. */
  function FirstReceipt(env: Env): ContributionReceipt
    requires Smooth(env)
  {
    var got, complete := env.fetched.value, env.complete.value;
    var called := if env.reports == [] then got.novel else env.reports[0].0.novel;
    got.(complete := complete, novel := got.indexed && env.prior.Absent? && called && complete)
  }

  lemma ReachesOne(s: State, a: Action)
    requires Enabled(s, a)
    ensures Reaches(s, [a], Step(s, a))
  {
    assert [a][1..] == [];
  }

  // ---------------------------------------------------------------- attempts succeed

  /** Whatever was going on, a crash and a retry of a submission with a receipt is answered. */
  lemma RetryIsAnswered(s: State, q: Submission, complete: bool, probe: Probe)
    requires Retries(q, s.disk)
    ensures exists answer ::
      && ReplayAs(s.disk.value, complete, probe, answer)
      && Reaches(s, [Crash] + [Begin(q)] + [ReadJournal] + [Replay(complete, probe)],
                 s.(pc := Idle, replies := s.replies + Answered(q, answer)))
  {
    var m1 := Step(s, Crash);
    var m2 := Step(m1, Begin(q));
    var m3 := Step(m2, ReadJournal);
    ReachesOne(s, Crash);
    ReachesMore(s, [Crash], m1, Begin(q));
    ReachesMore(s, [Crash] + [Begin(q)], m2, ReadJournal);
    ReachesMore(s, [Crash] + [Begin(q)] + [ReadJournal], m3, Replay(complete, probe));
    ReplayEnds(m3, complete, probe);
    var answer := Replayed(s.disk.value, complete, probe);
    assert Step(m3, Replay(complete, probe)) == s.(pc := Idle, replies := s.replies + Answered(q, answer));
  }

  /** A receipt without an approval gets the one that its content now has, durably, and is answered. */
  lemma LegacyIsUpgraded(s: State, q: Submission, complete: bool, probe: Probe)
    requires s.pc.Idle? && ValidApprovedHash(q.approved)
    requires s.disk.Some? && s.disk.value.receipt.Some?
    requires s.disk.value.payload == q.payload && s.disk.value.approved == ""
    ensures exists answer ::
      && ReplayAs(s.disk.value, complete, probe, answer)
      && Reaches(s, [Begin(q)] + [ReadJournal] + [CompareContent(true)] + [WriteApproval(Durable)]
                    + [Replay(complete, probe)],
                 s.(disk := Some(s.disk.value.(approved := q.approved)), replies := s.replies + Answered(q, answer)))
  {
    var m1 := Step(s, Begin(q));
    var m2 := Step(m1, ReadJournal);
    var m3 := Step(m2, CompareContent(true));
    var m4 := Step(m3, WriteApproval(Durable));
    ReachesOne(s, Begin(q));
    ReachesMore(s, [Begin(q)], m1, ReadJournal);
    ReachesMore(s, [Begin(q)] + [ReadJournal], m2, CompareContent(true));
    ReachesMore(s, [Begin(q)] + [ReadJournal] + [CompareContent(true)], m3, WriteApproval(Durable));
    ReachesMore(s, [Begin(q)] + [ReadJournal] + [CompareContent(true)] + [WriteApproval(Durable)], m4,
        Replay(complete, probe));
    ReplayEnds(m4, complete, probe);
    var answer := Replayed(m4.pc.rec, complete, probe);
    assert Step(m4, Replay(complete, probe)).replies == s.replies + Answered(q, answer);
  }

  /** The rest of an attempt, from the crawler on, when it indexes and nothing fails. */
  function CrawlActions(d: NoveltyDecision, w: Wrote, got: ContributionReceipt, complete: bool): seq<Action> {
    [Report(d, w)] + [WriteDocument] + [FetchReturns(got)] + [CheckIndex(complete)] + [WriteReceipt(Durable)]
  }

  /** The record as the crawler leaves it: a decision journaled before stands. */
  function Ruled(rec: Record, d: NoveltyDecision): Record {
    if rec.decision.Some? then rec else rec.(decision := Some(d))
  }

  lemma CrawlReturns(s: State, d: NoveltyDecision, w: Wrote, got: ContributionReceipt)
    requires s.pc.Fetching? && !s.pc.failed && s.disk == Some(s.pc.rec)
    requires s.pc.rec.decision == None ==> w.Durable?
    ensures var rec := Ruled(s.pc.rec, d);
      Reaches(s, [Report(d, w)] + [WriteDocument] + [FetchReturns(got)],
              s.(disk := Some(rec), pc := Fetched(s.pc.q, rec, got), present := true))
  {
    var m1 := Step(s, Report(d, w));
    var m2 := Step(m1, WriteDocument);
    ReachesOne(s, Report(d, w));
    ReachesMore(s, [Report(d, w)], m1, WriteDocument);
    ReachesMore(s, [Report(d, w)] + [WriteDocument], m2, FetchReturns(got));
  }

  /** It returns what it sealed: the decision journaled before stands, whatever is reported now;
      else the one reported is journaled, durably, before the document is written. */
  lemma CrawlIsSealed(s: State, d: NoveltyDecision, w: Wrote, got: ContributionReceipt, complete: bool)
    requires s.pc.Fetching? && !s.pc.failed && s.disk == Some(s.pc.rec)
    requires s.pc.rec.decision == None ==> w.Durable?
    ensures var decision := if s.pc.rec.decision.Some? then s.pc.rec.decision else Some(d);
      var r := got.(complete := complete,
                    novel := got.indexed && s.pc.rec.eligible && decision.value.novel && complete);
      Reaches(s, CrawlActions(d, w, got, complete),
              s.(disk := Some(s.pc.rec.(decision := decision, receipt := Some(r))), pc := Idle, present := true,
                 replies := s.replies + [Reply(s.pc.q, r)]))
  {
    var crawl, rec := [Report(d, w)] + [WriteDocument] + [FetchReturns(got)], Ruled(s.pc.rec, d);
    var m3 := s.(disk := Some(rec), pc := Fetched(s.pc.q, rec, got), present := true);
    CrawlReturns(s, d, w, got);
    ReachesMore(s, crawl, m3, CheckIndex(complete));
    ReachesMore(s, crawl + [CheckIndex(complete)], Step(m3, CheckIndex(complete)), WriteReceipt(Durable));
  }

  /** Where an attempt stands when its record is durable and the crawler is to be called. */
  function CrawlerCalled(s: State, q: Submission, rec: Record): State {
    s.(disk := Some(rec), pc := Fetching(q, rec, false, false), indexing := true)
  }

  /** A first attempt gets to the crawler with its intent durable: eligible if the URL is free. */
  lemma FirstAttemptCrawls(s: State, q: Submission, taken: bool)
    requires s.pc.Idle? && s.disk == None && ValidApprovedHash(q.approved)
    ensures Reaches(s, [Begin(q)] + [ReadJournal] + [SetPresent(taken)] + [LookUpPrior] + [WriteIntent(Durable)],
      CrawlerCalled(s, q, Record(q.payload, q.approved, !taken, None, None)).(present := taken, vacant := !taken))
  {
    var m1 := Step(s, Begin(q));
    var m2 := Step(m1, ReadJournal);
    var m3 := Step(m2, SetPresent(taken));
    var m4 := Step(m3, LookUpPrior);
    ReachesOne(s, Begin(q));
    ReachesMore(s, [Begin(q)], m1, ReadJournal);
    ReachesMore(s, [Begin(q)] + [ReadJournal], m2, SetPresent(taken));
    ReachesMore(s, [Begin(q)] + [ReadJournal] + [SetPresent(taken)], m3, LookUpPrior);
    ReachesMore(s, [Begin(q)] + [ReadJournal] + [SetPresent(taken)] + [LookUpPrior], m4, WriteIntent(Durable));
  }

  /** An attempt given up or crashed before its receipt was durable is taken up again by the next,
      with the record as it stood. */
  lemma AttemptResumes(s: State, q: Submission)
    requires ValidApprovedHash(q.approved) && s.disk.Some? && s.disk.value.receipt == None
    requires s.disk.value.payload == q.payload && s.disk.value.approved == q.approved
    ensures Reaches(s, [Crash] + [Begin(q)] + [ReadJournal], CrawlerCalled(s, q, s.disk.value))
    ensures !s.pc.Idle? ==> Reaches(s, [Abandon] + [Begin(q)] + [ReadJournal], CrawlerCalled(s, q, s.disk.value))
  {
    var m1 := Step(s, Crash);
    var m2 := Step(m1, Begin(q));
    ReachesOne(s, Crash);
    ReachesMore(s, [Crash], m1, Begin(q));
    ReachesMore(s, [Crash] + [Begin(q)], m2, ReadJournal);
    if !s.pc.Idle? {
      ReachesOne(s, Abandon);
      ReachesMore(s, [Abandon], m1, Begin(q));
      ReachesMore(s, [Abandon] + [Begin(q)], m2, ReadJournal);
    }
  }

  /** And a record without an approval or a receipt first gets this submission's approval. */
  lemma LegacyIntentResumes(s: State, q: Submission)
    requires s.pc.Idle? && ValidApprovedHash(q.approved) && s.disk.Some? && s.disk.value.receipt == None
    requires s.disk.value.payload == q.payload && s.disk.value.approved == ""
    ensures Reaches(s, [Begin(q)] + [ReadJournal] + [WriteApproval(Durable)],
                    CrawlerCalled(s, q, s.disk.value.(approved := q.approved)))
  {
    var m1 := Step(s, Begin(q));
    var m2 := Step(m1, ReadJournal);
    ReachesOne(s, Begin(q));
    ReachesMore(s, [Begin(q)], m1, ReadJournal);
    ReachesMore(s, [Begin(q)] + [ReadJournal], m2, WriteApproval(Durable));
  }

  /** Another payload, another approval or other content ends the attempt and changes nothing. */
  lemma ConflictsChangeNothing(states: seq<State>, actions: seq<Action>, i: nat)
    requires Run(states, actions) && i < |actions|
    requires actions[i] == CompareContent(false) || (actions[i].ReadJournal? && states[i].disk.Some?
      && (states[i].disk.value.payload != states[i].pc.q.payload
          || states[i].disk.value.approved !in {"", states[i].pc.q.approved}))
    ensures states[i + 1] == states[i].(pc := Idle)
  {
    assert Enabled(states[i], actions[i]) && states[i + 1] == Step(states[i], actions[i]);
  }

  /** A failed write ends the attempt without an answer; the record is on disk only if it landed. */
  lemma FailedWrites(states: seq<State>, actions: seq<Action>, i: nat, w: Wrote)
    requires Run(states, actions) && i < |actions| && !w.Durable?
    requires actions[i] == WriteApproval(w) || actions[i] == WriteIntent(w) || actions[i] == WriteReceipt(w)
    ensures states[i + 1].pc.Idle? && states[i + 1].replies == states[i].replies
    ensures states[i].pc.Upgrading? || states[i].pc.Intending? || states[i].pc.Sealing?
    ensures states[i + 1].disk == if w.ErrLost? then states[i].disk else Some(states[i].pc.rec)
  {
    assert Enabled(states[i], actions[i]) && states[i + 1] == Step(states[i], actions[i]);
  }

  lemma ReplayEnds(s: State, complete: bool, probe: Probe)
    requires s.pc.Replaying? && s.pc.rec.receipt.Some?
    ensures var answer := Replayed(s.pc.rec, complete, probe);
      && ReplayAs(s.pc.rec, complete, probe, answer)
      && Step(s, Replay(complete, probe)) == s.(pc := Idle, replies := s.replies + Answered(s.pc.q, answer))
  {
    ProbeDecides(probe);
    assert s.replies + [] == s.replies;
  }

  class Journal {
    var disk: Option<Record>
    ghost var machine: State
    ghost var start: State
    ghost var trace: seq<Action>

    ghost predicate Valid() reads this {
      machine.disk == disk && Reaches(start, trace, machine)
    }

    ghost method Take(a: Action)
      requires Enabled(machine, a) && Reaches(start, trace, machine)
      modifies this`machine, this`trace
      ensures machine == Step(old(machine), a) && trace == old(trace) + [a] && Reaches(start, trace, machine)
    {
      ReachesMore(start, trace, machine, a);
      machine, trace := Step(machine, a), trace + [a];
    }

    method Set(w: Wrote, rec: Record) returns (ok: bool)
      modifies this`disk
      ensures ok == w.Durable?
      ensures disk == if w.ErrLost? then old(disk) else Some(rec)
    {
      if !w.ErrLost? {
        disk := Some(rec);
      }
      ok := w.Durable?;
    }

    /** Lines 55-92, with a journaled record. None: the attempt ended. */
    method OpenFound(q: Submission, env: Env) returns (next: Option<Record>)
      requires Valid() && machine.pc == Opened(q) && disk.Some?
      modifies this
      ensures Valid() && start == old(start) && machine.replies == old(machine.replies)
      ensures next == None ==> machine.pc.Idle?
      ensures next.Some? ==> machine.pc == Proceed(old(machine), q, next.value).pc
      ensures old(disk).value.payload != q.payload || old(disk).value.approved !in {"", q.approved} ==>
        next == None && disk == old(disk)
      ensures old(disk).value.payload == q.payload && old(disk).value.approved == q.approved != "" ==>
        next == old(disk) == disk
    {
      var record := disk.value;
      Take(ReadJournal);
      if record.payload != q.payload {
        return None;
      }
      if record.approved == "" {
        if record.receipt.Some? {
          Take(CompareContent(env.urlOk && env.sameContent));
          if !env.urlOk || !env.sameContent {
            return None;
          }
        }
        record := record.(approved := q.approved);
        next := WriteApproved(q, record, env.approvalWrite);
        return;
      }
      if record.approved != q.approved {
        return None;
      }
      return Some(record);
    }

    method WriteApproved(q: Submission, record: Record, w: Wrote) returns (next: Option<Record>)
      requires Valid() && machine.pc == Upgrading(q, record)
      modifies this
      ensures Valid() && start == old(start) && machine.replies == old(machine.replies)
      ensures next == None ==> machine.pc.Idle?
      ensures next.Some? ==> machine.pc == Proceed(old(machine), q, next.value).pc
    {
      Take(WriteApproval(w));
      var ok := Set(w, record);
      return if ok then Some(record) else None;
    }

    /** Lines 93-106, with nothing journaled yet. */
    method OpenNew(q: Submission, env: Env) returns (next: Option<Record>)
      requires Valid() && machine.pc == Opened(q) && disk == None
      modifies this
      ensures Valid() && start == old(start) && machine.replies == old(machine.replies)
      ensures next == None ==> machine.pc.Idle?
      ensures next.Some? ==> machine.pc == Proceed(old(machine), q, next.value).pc
      ensures env.urlOk && !env.prior.Broken? && env.intentWrite.Durable? ==>
        next == Some(Record(q.payload, q.approved, env.prior.Absent?, None, None))
    {
      Take(ReadJournal);
      if !env.urlOk || env.prior.Broken? {
        Take(Abandon);
        return None;
      }
      Take(SetPresent(env.prior.Found?));
      Take(LookUpPrior);
      var record := Record(q.payload, q.approved, env.prior.Absent?, None, None);
      Take(WriteIntent(env.intentWrite));
      var ok := Set(env.intentWrite, record);
      return if ok then Some(record) else None;
    }

    /** Lines 110-121: the crawler, reporting through the recorder. A recorder error ends the
        fetch, and only a fetch that has reported writes a document. */
    method Crawl(q: Submission, first: Record, env: Env) returns (record: Record, got: Option<ContributionReceipt>)
      requires Valid() && machine.pc == Fetching(q, first, false, false)
      modifies this
      ensures Valid() && start == old(start) && machine.replies == old(machine.replies)
      ensures got == None ==> machine.pc.Idle?
      ensures got.Some? ==> machine.pc == Fetched(q, record, got.value)
      ensures AllDurable(env.reports) ==>
        got == env.fetched && record == first.(decision := Verdict(first, env.reports))
    {
      record := first;
      var i := 0;
      while i < |env.reports|
        invariant 0 <= i <= |env.reports|
        invariant Valid() && start == old(start) && machine.replies == old(machine.replies)
        invariant machine.pc.Fetching? && machine.pc.q == q && machine.pc.rec == record
        invariant !machine.pc.failed && (i > 0 ==> machine.pc.cleared)
        invariant record == first.(decision := Verdict(first, env.reports[..i]))
      {
        var (d, w) := env.reports[i];
        Take(Report(d, w));
        if record.decision == None {
          record := record.(decision := Some(d));
          var ok := Set(w, record);
          if !ok {
            Take(Abandon);
            return record, None;
          }
        }
        i := i + 1;
      }
      if env.writes && i > 0 { Take(WriteDocument); }
      if env.fetched == None {
        Take(Abandon);
        return record, None;
      }
      Take(FetchReturns(env.fetched.value));
      return record, env.fetched;
    }

    /** Lines 122-137. */
    method Seal(q: Submission, record: Record, got: ContributionReceipt, env: Env)
        returns (answer: Option<ContributionReceipt>)
      requires Valid() && machine.pc == Fetched(q, record, got)
      modifies this
      ensures env.complete.Some? && env.sealWrite.Durable? ==>
        answer == Some(got.(complete := env.complete.value, novel :=
          got.indexed && record.eligible && env.complete.value &&
          if record.decision.Some? then record.decision.value.novel else got.novel))
      ensures Valid() && start == old(start) && machine.pc.Idle?
      ensures machine.replies == old(machine.replies) + Answered(q, answer)
    {
      if env.complete == None {
        Take(Abandon);
        return None;
      }
      var complete := env.complete.value;
      var novel := got.novel;
      if record.decision.Some? {
        novel := record.decision.value.novel;
      }
      var receipt := got.(novel := got.indexed && record.eligible && novel && complete, complete := complete);
      Take(CheckIndex(complete));
      var sealed := record.(receipt := Some(receipt));
      answer := WriteSealed(q, sealed, env.sealWrite);
    }

    /** Lines 133-137: the receipt is durable before it is returned. */
    method WriteSealed(q: Submission, sealed: Record, w: Wrote) returns (answer: Option<ContributionReceipt>)
      requires Valid() && machine.pc == Sealing(q, sealed) && sealed.receipt.Some?
      modifies this
      ensures Valid() && start == old(start) && machine.pc.Idle?
      ensures machine.replies == old(machine.replies) + Answered(q, answer)
      ensures answer.Some? ==> answer == sealed.receipt && disk == Some(sealed)
      ensures w.Durable? ==> answer.Some?
    {
      Take(WriteReceipt(w));
      var ok := Set(w, sealed);
      answer := if ok then sealed.receipt else None;
    }

    /** `replayCommunityReceipt`. */
    method ReplayReceipt(q: Submission, record: Record, env: Env) returns (answer: Option<ContributionReceipt>)
      requires Valid() && machine.pc == Replaying(q, record) && record.receipt.Some?
      modifies this`machine, this`trace
      ensures Valid() && machine.pc.Idle? && start == old(start)
      ensures env.complete.Some? ==> ReplayAs(record, env.complete.value, env.probe, answer)
      ensures machine.replies == old(machine.replies) + Answered(q, answer)
    {
      if env.complete == None {
        Take(Abandon);
        return None;
      }
      var receipt := record.receipt.value.(complete := env.complete.value);
      Take(Replay(env.complete.value, env.probe));
      ProbeDecides(env.probe);
      if receipt.novel && record.decision == None && env.complete.value {
        var unclaimed := ContentUnclaimed(env.probe);
        if unclaimed == None {
          return None;
        }
        receipt := receipt.(novel := unclaimed.value);
      }
      receipt := receipt.(novel := receipt.novel && env.complete.value);
      return Some(receipt);
    }

    /** One attempt is a run of the protocol, whatever its environment does, and returns
        exactly the receipt that the protocol returned. Conflicts get nothing and change
        nothing; a first attempt that nothing disturbs and a retry get what they deserve. */
    method FetchCommunityReceipt(q: Submission, env: Env) returns (answer: Option<ContributionReceipt>)
      requires Valid() && machine.pc.Idle?
      modifies this
      ensures Refused(q, old(disk)) ==> answer == None && disk == old(disk)
      ensures ValidApprovedHash(q.approved) && old(disk) == None && Smooth(env) ==> answer == Some(FirstReceipt(env))
      ensures Retries(q, old(disk)) && !env.readFails && env.complete.Some? ==>
        disk == old(disk) && ReplayAs(disk.value, env.complete.value, env.probe, answer)
      ensures Valid() && machine.pc.Idle? && start == old(start)
      ensures machine.replies == old(machine.replies) + Answered(q, answer)
    {
      if !ValidApprovedHash(q.approved) {
        return None;
      }
      Take(Begin(q));
      if env.readFails {
        Take(Abandon);
        return None;
      }
      var next;
      if disk.Some? {
        next := OpenFound(q, env);
      } else {
        next := OpenNew(q, env);
      }
      if next == None {
        return None;
      }
      answer := ReplayOrCrawl(q, next.value, env);
    }

    /** Lines 90-92 and 110-137. */
    method ReplayOrCrawl(q: Submission, first: Record, env: Env) returns (answer: Option<ContributionReceipt>)
      requires Valid() && machine.pc == Proceed(machine, q, first).pc
      modifies this
      ensures first.receipt.Some? ==> disk == old(disk)
      ensures first.receipt.Some? && env.complete.Some? ==> ReplayAs(first, env.complete.value, env.probe, answer)
      ensures first == Record(q.payload, q.approved, env.prior.Absent?, None, None) && Smooth(env) ==>
        answer == Some(FirstReceipt(env))
      ensures Valid() && machine.pc.Idle? && start == old(start)
      ensures machine.replies == old(machine.replies) + Answered(q, answer)
    {
      if first.receipt.Some? {
        answer := ReplayReceipt(q, first, env);
        return;
      }
      var record, got := Crawl(q, first, env);
      if got == None {
        return None;
      }
      answer := Seal(q, record, got.value, env);
    }
  }
}
