/**
 Board pending-write decisions and reconciliations, delivered any number of times, with crashes between the Hermes
 call and the versioned Board update.
 */
module BoardDecision {
  import opened Runs

  /**
   A queued decision; `key` is a hash over its content, `changesSkills` marks an approved skills write, `at` is when it
   was queued.
   */
  datatype Decision = Decision(key: nat, changesSkills: bool, configuration: nat, capability: nat, at: nat)

  datatype Status = Provisioning | Ready | Attention | Archived

  datatype Board = Board(
    version: nat, status: Status, configuration: nat, capability: nat, observed: nat,
    skills: nat, pending: Option<Decision>, applied: seq<nat>, deactivated: bool)

  const KEPT_KEYS := 100

  function LastKeys(keys: seq<nat>): seq<nat> {
    if |keys| <= KEPT_KEYS then keys else keys[|keys| - KEPT_KEYS..]
  }

  function BumpedEpochs(board: Board, status: Status): Board {
    board.(version := board.version + 1, status := status, configuration := board.configuration + 1,
        capability := board.capability + 1)
  }

  /** An owner queues a decision for the Board as it stands. */
  function QueueDecision(board: Board, key: nat, changesSkills: bool, at: nat): Option<Board> {
    if board.status == Archived || key in board.applied || board.pending.Some? then None
    else Some(board.(
      version := board.version + 1,
      status := if changesSkills then Provisioning else board.status,
      pending := Some(Decision(key, changesSkills, board.configuration, board.capability, at))))
  }

  datatype Observed = AlreadyApplied | Mismatch | Applied(board: Board)

  function ObserveDecision(board: Board, decision: Decision): Observed {
    if decision.key in board.applied then AlreadyApplied
    else if board.pending.None? || board.pending.value.key != decision.key
        || board.pending.value.changesSkills != decision.changesSkills then Mismatch
    else
      var kept := board.(applied := LastKeys(board.applied + [decision.key]), pending := None);
      Applied(if decision.changesSkills then BumpedEpochs(kept, Provisioning) else kept.(version := kept.version + 1))
  }

  datatype Observation = Healthy(skills: nat) | Unhealthy(skills: nat) | HermesError

  /** What a reconciliation writes over the Board that it read. */
  function ObservePlugin(board: Board, configuration: nat, observation: Observation): Board {
    if board.status == Archived || board.pending.Some? || configuration != board.configuration then board
    else board.(
      version := board.version + 1,
      status := if observation.Healthy? then Ready else Attention,
      skills := if observation.HermesError? then board.skills else observation.skills,
      observed := if observation.Healthy? then configuration else board.observed)
  }

  function ObserveDeactivated(board: Board, configuration: nat, capability: nat): Board {
    if board.status != Archived || board.configuration != configuration || board.capability != capability
        || board.deactivated then board
    else board.(version := board.version + 1, deactivated := true)
  }

  datatype Job =
    | Decide(decision: Decision)
    | Reconcile(configuration: nat)
    | Deactivate(configuration: nat, capability: nat)

  /** Does the handler go on to call Hermes for the Board that it read? */
  predicate MayCall(board: Board, job: Job, brandActive: bool) {
    match job
    case Decide(d) =>
      && d.key !in board.applied && board.pending == Some(d) && board.status != Archived && brandActive
      && board.configuration == d.configuration && board.capability == d.capability
    case Reconcile(configuration) =>
      board.status != Archived && board.pending.None? && brandActive && board.configuration == configuration
    case Deactivate(configuration, capability) =>
      board.status == Archived && board.configuration == configuration && board.capability == capability
          && !board.deactivated
  }

  /** The Board that the handler wants to write after its second read; None when it stops there. */
  function Planned(read: Board, latest: Board, job: Job, observation: Observation): Option<Board> {
    match job
    case Decide(d) =>
      if latest.status == Archived then None
      else
        var observed := ObserveDecision(latest, d);
        if observed.Applied? then Some(observed.board) else None
    case Reconcile(configuration) =>
      if latest.version != read.version || latest.configuration != configuration || latest.status == Archived then None
      else Some(ObservePlugin(latest, configuration, observation))
    case Deactivate(configuration, capability) =>
      if latest.version != read.version || latest.status != Archived || latest.configuration != configuration
          || latest.capability != capability then None
      else Some(ObserveDeactivated(latest, configuration, capability))
  }

  datatype Pc =
    | Reads(job: Job)
    | Calls(job: Job, read: Board)
    | Rereads(job: Job, read: Board, observation: Observation)
    | Saves(job: Job, read: Board, latest: Board, observation: Observation, next: Board)
    | Stopped

  datatype Answer = Answers | Throws(applied: bool)

  datatype Event =
    | Start(w: nat, job: Job)
    | Read(w: nat, brandActive: bool)
    | Call(w: nat, arrives: bool, answers: bool, observation: Observation)
    | Reread(w: nat)
    | Save(w: nat, answer: Answer)
    | Crash(w: nat)
    | OwnerQueues(key: nat, changesSkills: bool)
    | OwnerRevises(archive: bool)
    | OwnerReconciles(rotates: bool)
    | OwnerRenames

  /** A Board write by a reconciliation or deactivation: the Board first read, and the one written over. */
  datatype Overwrite = Overwrite(read: Board, over: Board)

  /**
   `outbox` holds one message per key, for ever; `now` is the time of the next queueing. Then the log: decisions in
   effect at Hermes, keys recorded at the Board in order, fenced writes, and whether a worker was ever overtaken: its
   key was recorded and forgotten while it still worked on it.
   */
  datatype World = World(
    board: Board, workers: map<nat, Pc>, outbox: map<nat, Decision>, now: nat, hermes: set<nat>, effects: seq<nat>,
    recorded: seq<nat>, overwrites: seq<Overwrite>, overtaken: bool)

  const START := World(Board(0, Provisioning, 0, 0, 0, 0, None, [], false), map[], map[], 0, {}, [], [], [], false)

  /** A worker that has read the Board for the decision and not saved yet. */
  predicate WorksOn(pc: Pc, key: nat) {
    (pc.Calls? || pc.Rereads? || pc.Saves?) && pc.job.Decide? && pc.job.decision.key == key
  }

  function Give(s: World, w: nat, pc: Pc): World {
    s.(workers := s.workers[w := pc])
  }

  /** Hermes applies a decision that it has not seen and replays the receipt of one that it has. */
  function AtHermes(s: World, job: Job): World {
    if job.Decide? && job.decision.key !in s.hermes
    then s.(hermes := s.hermes + {job.decision.key}, effects := s.effects + [job.decision.key]) else s
  }

  function Called(s: World, w: nat, job: Job, read: Board, arrives: bool, answers: bool,
      observation: Observation): World {
    var t := if arrives || answers then AtHermes(s, job) else s;
    if answers then Give(t, w, Rereads(job, read, observation))
    else if job.Reconcile? then Give(t, w, Rereads(job, read, HermesError))
    else Give(t, w, Stopped)
  }

  function Recording(s: World, next: Board, key: nat): World {
    var recorded := s.recorded + [key];
    s.(board := next, recorded := recorded,
       overtaken := s.overtaken
           || exists v <- s.workers, k <- recorded :: WorksOn(s.workers[v], k) && k !in next.applied)
  }

  function Written(s: World, pc: Pc): World
    requires pc.Saves?
  {
    if s.board.version != pc.latest.version then s
    else if pc.job.Decide? then Recording(s, pc.next, pc.job.decision.key)
    else s.(board := pc.next, overwrites := s.overwrites + [Overwrite(pc.read, s.board)])
  }

  /** Only the reconciliation catches a failed save, once, and then records the failure instead. */
  function AfterThrow(pc: Pc): Pc
    requires pc.Saves?
  {
    if pc.job.Reconcile? && !pc.observation.HermesError? then Rereads(pc.job, pc.read, HermesError) else Stopped
  }

  function Saved(s: World, w: nat, pc: Pc, answer: Answer): World
    requires pc.Saves?
  {
    match answer
    case Answers => Give(Written(s, pc), w, Stopped)
    case Throws(applied) => Give(if applied then Written(s, pc) else s, w, AfterThrow(pc))
  }

  /** The Board and its outbox message are written together, but a message that exists already is kept as it is. */
  function Queueing(s: World, key: nat, changesSkills: bool): World {
    var board := QueueDecision(s.board, key, changesSkills, s.now);
    if board.None? then s
    else s.(board := board.value, now := s.now + 1,
            outbox := if key in s.outbox then s.outbox else s.outbox[key := board.value.pending.value])
  }

  /** A decision is delivered as the outbox has it, any number of times. */
  predicate MayDeliver(s: World, job: Job) {
    job.Decide? ==> job.decision.key in s.outbox && s.outbox[job.decision.key] == job.decision
  }

  function Revising(s: World, archive: bool): World {
    if s.board.pending.Some? || s.board.status == Archived then s
    else s.(board := BumpedEpochs(s.board, if archive then Archived else Provisioning))
  }

  /**
   A requested reconciliation takes a new configuration epoch, and a new capability epoch when skills or capabilities
   change.
   */
  function Requesting(s: World, rotates: bool): World {
    if s.board.pending.Some? || s.board.status == Archived then s
    else s.(board := s.board.(
      version := s.board.version + 1, status := Provisioning, configuration := s.board.configuration + 1,
      capability := if rotates then s.board.capability + 1 else s.board.capability))
  }

  function Apply(s: World, e: Event): World {
    if e.OwnerQueues? then Queueing(s, e.key, e.changesSkills)
    else if e.OwnerRevises? then Revising(s, e.archive)
    else if e.OwnerReconciles? then Requesting(s, e.rotates)
    else if e.OwnerRenames? then
      (if s.board.pending.Some? then s else s.(board := s.board.(version := s.board.version + 1)))
    else if e.w !in s.workers then (if e.Start? && MayDeliver(s, e.job) then Give(s, e.w, Reads(e.job)) else s)
    else if e.Start? then s
    else Step(s, e, e.w, s.workers[e.w])
  }

  predicate IsWorkerEvent(e: Event) {
    !e.Start? && !e.OwnerQueues? && !e.OwnerRevises? && !e.OwnerReconciles? && !e.OwnerRenames?
  }

  function Step(s: World, e: Event, w: nat, pc: Pc): World
    requires IsWorkerEvent(e)
  {
    match e
    case Crash(_) => Give(s, w, Stopped)
    case Read(_, brandActive) =>
      if !pc.Reads? then s
      else Give(s, w, if MayCall(s.board, pc.job, brandActive) then Calls(pc.job, s.board) else Stopped)
    case Call(_, arrives, answers, observation) =>
      if pc.Calls? then Called(s, w, pc.job, pc.read, arrives, answers, observation) else s
    case Reread(_) =>
      if !pc.Rereads? then s
      else
        var next := Planned(pc.read, s.board, pc.job, pc.observation);
        Give(s, w, if next.Some? then Saves(pc.job, pc.read, s.board, pc.observation, next.value) else Stopped)
    case Save(_, answer) => if pc.Saves? then Saved(s, w, pc, answer) else s
  }

  // ----- invariants

  ghost predicate Distinct(keys: seq<nat>) {
    forall i, j :: 0 <= i < j < |keys| ==> keys[i] != keys[j]
  }

  /** Equal keys lie more than a hundred records apart. */
  ghost predicate FarApart(keys: seq<nat>) {
    forall i, j :: 0 <= i < j < |keys| && keys[i] == keys[j] ==> j - i > KEPT_KEYS
  }

  predicate SnapshotOk(s: World, b: Board) {
    b.version <= s.board.version && (b.version == s.board.version ==> b == s.board)
  }

  predicate WorkerOk(s: World, pc: Pc) {
    && (!pc.Stopped? ==> MayDeliver(s, pc.job))
    && (pc.Calls? || pc.Rereads? || pc.Saves? ==>
          && SnapshotOk(s, pc.read)
          && MayCall(pc.read, pc.job, true)
          && (pc.job.Decide? && !pc.Calls? ==> pc.job.decision.key in s.hermes))
    && (pc.Saves? ==>
          && SnapshotOk(s, pc.latest) && pc.latest.version >= pc.read.version
          && Planned(pc.read, pc.latest, pc.job, pc.observation) == Some(pc.next)
          && (!pc.job.Decide? ==> pc.latest == pc.read))
    && (!s.overtaken && (pc.Calls? || pc.Rereads? || pc.Saves?) && pc.job.Decide?
        && pc.job.decision.key in s.recorded ==>
          pc.job.decision.key in s.board.applied)
  }

  /** The pending decision was queued last, and is not the one in the outbox if its key was recorded before. */
  predicate PendingOk(s: World) {
    s.board.pending.Some? ==>
      var d := s.board.pending.value;
      d.key in s.outbox && d.key !in s.board.applied && (d.key in s.recorded ==> s.outbox[d.key].at < d.at)
  }

  ghost predicate StoreOk(s: World) {
    && s.board.applied == LastKeys(s.recorded)
    && FarApart(s.recorded) && (!s.overtaken ==> Distinct(s.recorded))
    && PendingOk(s)
    && (forall k <- s.outbox :: s.outbox[k].key == k && s.outbox[k].at < s.now)
    && (forall k <- s.recorded :: k in s.hermes)
    && (forall k <- s.hermes :: k in s.outbox)
    && Distinct(s.effects) && (forall k :: k in s.effects <==> k in s.hermes)
    && (forall o <- s.overwrites :: o.read == o.over)
  }

  ghost predicate Inv(s: World) {
    StoreOk(s) && forall w <- s.workers :: WorkerOk(s, s.workers[w])
  }

  lemma QueueKeeps(s: World, key: nat, changesSkills: bool)
    requires Inv(s)
    ensures Inv(Queueing(s, key, changesSkills))
  {
    var t := Queueing(s, key, changesSkills);
    forall v <- t.workers ensures WorkerOk(t, t.workers[v]) {
      assert WorkerOk(s, s.workers[v]);
    }
  }

  lemma EnvironmentKeeps(s: World, e: Event)
    requires Inv(s) && !IsWorkerEvent(e)
    ensures Inv(Apply(s, e))
  {
    if e.OwnerQueues? {
      QueueKeeps(s, e.key, e.changesSkills);
    }
  }

  lemma GiveKeeps(s: World, w: nat, pc: Pc)
    requires Inv(s) && WorkerOk(s, pc)
    ensures Inv(Give(s, w, pc))
  {
  }

  lemma HermesKeeps(s: World, job: Job)
    requires Inv(s) && MayDeliver(s, job)
    ensures Inv(AtHermes(s, job))
  {
    var t := AtHermes(s, job);
    forall v <- t.workers ensures WorkerOk(t, t.workers[v]) {
      assert WorkerOk(s, s.workers[v]);
    }
  }

  lemma CallKeeps(s: World, w: nat, arrives: bool, answers: bool, observation: Observation)
    requires Inv(s) && w in s.workers && s.workers[w].Calls?
    ensures Inv(Called(s, w, s.workers[w].job, s.workers[w].read, arrives, answers, observation))
  {
    assert WorkerOk(s, s.workers[w]);
    var job, read := s.workers[w].job, s.workers[w].read;
    HermesKeeps(s, job);
    var t := if arrives || answers then AtHermes(s, job) else s;
    GiveKeeps(t, w, if answers then Rereads(job, read, observation) else if job.Reconcile? then
        Rereads(job, read, HermesError) else Stopped);
  }

  /**
   A new record is far from its last one: a key enters the Board's queue only when the kept keys no longer name it.
   */
  lemma RecordKeepsFarApart(recorded: seq<nat>, key: nat)
    requires FarApart(recorded) && key !in LastKeys(recorded)
    ensures FarApart(recorded + [key]) && LastKeys(recorded + [key]) == LastKeys(LastKeys(recorded) + [key])
  {
  }

  /** What an accepted save makes of the world. */
  lemma WrittenKeeps(s: World, w: nat)
    requires Inv(s) && w in s.workers && s.workers[w].Saves?
    ensures var t := Written(s, s.workers[w]);
      && StoreOk(t) && (t != s ==> t.board.version == s.board.version + 1) && t.workers == s.workers
      && t.outbox == s.outbox && t.hermes == s.hermes && (t.overtaken || !s.overtaken)
  {
    var pc := s.workers[w];
    assert WorkerOk(s, pc);
    if s.board.version == pc.latest.version && pc.job.Decide? {
      RecordKeepsFarApart(s.recorded, pc.job.decision.key);
    }
  }

  lemma WrittenLeaves(s: World, w: nat, v: nat)
    requires Inv(s) && w in s.workers && s.workers[w].Saves? && v in s.workers
    ensures WorkerOk(Written(s, s.workers[w]), s.workers[v])
  {
    assert WorkerOk(s, s.workers[w]) && WorkerOk(s, s.workers[v]);
    var t := Written(s, s.workers[w]);
    assert !s.workers[v].Stopped? && s.workers[v].job.Decide? ==>
      WorksOn(s.workers[v], s.workers[v].job.decision.key) || s.workers[v].Reads?;
  }

  lemma SaveKeeps(s: World, w: nat, answer: Answer)
    requires Inv(s) && w in s.workers && s.workers[w].Saves?
    ensures Inv(Saved(s, w, s.workers[w], answer))
  {
    var pc := s.workers[w];
    var t := Written(s, pc);
    assert WorkerOk(s, pc);
    WrittenKeeps(s, w);
    forall v <- t.workers ensures WorkerOk(t, t.workers[v]) {
      WrittenLeaves(s, w, v);
    }
    if answer.Answers? {
      GiveKeeps(t, w, Stopped);
    } else {
      GiveKeeps(if answer.applied then t else s, w, AfterThrow(pc));
    }
  }

  lemma ReadKeeps(s: World, w: nat, brandActive: bool)
    requires Inv(s) && w in s.workers && s.workers[w].Reads?
    ensures Inv(Step(s, Read(w, brandActive), w, s.workers[w]))
  {
    var job := s.workers[w].job;
    assert WorkerOk(s, s.workers[w]);
    GiveKeeps(s, w, if MayCall(s.board, job, brandActive) then Calls(job, s.board) else Stopped);
  }

  lemma RereadKeeps(s: World, w: nat)
    requires Inv(s) && w in s.workers && s.workers[w].Rereads?
    ensures Inv(Step(s, Reread(w), w, s.workers[w]))
  {
    var pc := s.workers[w];
    assert WorkerOk(s, pc);
    var next := Planned(pc.read, s.board, pc.job, pc.observation);
    GiveKeeps(s, w, if next.Some? then Saves(pc.job, pc.read, s.board, pc.observation, next.value) else Stopped);
  }

  lemma StepKeepsInv(s: World, e: Event)
    requires Inv(s)
    ensures Inv(Apply(s, e))
  {
    if !IsWorkerEvent(e) {
      EnvironmentKeeps(s, e);
    } else if e.w in s.workers {
      var w, pc := e.w, s.workers[e.w];
      if e.Call? {
        if pc.Calls? { CallKeeps(s, w, e.arrives, e.answers, e.observation); }
      } else if e.Save? {
        if pc.Saves? { SaveKeeps(s, w, e.answer); }
      } else if e.Read? {
        if pc.Reads? { ReadKeeps(s, w, e.brandActive); }
      } else if e.Reread? {
        if pc.Rereads? { RereadKeeps(s, w); }
      } else {
        GiveKeeps(s, w, Stopped);
      }
    }
  }

  lemma ReachableInv(schedule: seq<Event>)
    ensures Inv(Run(Apply, START, schedule))
  {
    forall t, e {:trigger Apply(t, e)} | Inv(t) ensures Inv(Apply(t, e)) {
      StepKeepsInv(t, e);
    }
    RunKeeps(Apply, Inv, START, schedule);
  }

  /**
   Over any deliveries and crashes a decision takes effect at most once, only if an owner queued it, and every recorded
   key is in effect. As long as no worker is overtaken each key is recorded once; in any case equal keys lie far apart.
   */
  lemma DecisionsAreRecordedOnce(schedule: seq<Event>)
    ensures var s := Run(Apply, START, schedule);
      && Distinct(s.effects) && (forall k <- s.effects :: k in s.outbox)
      && (forall k <- s.recorded :: k in s.effects)
      && (!s.overtaken ==> Distinct(s.recorded))
      && FarApart(s.recorded) && |s.board.applied| <= KEPT_KEYS && Distinct(s.board.applied)
  {
    ReachableInv(schedule);
    var s := Run(Apply, START, schedule);
    KeptKeysAreDistinct(s.recorded);
  }

  lemma KeptKeysAreDistinct(keys: seq<nat>)
    requires FarApart(keys)
    ensures Distinct(LastKeys(keys)) && |LastKeys(keys)| <= KEPT_KEYS
  {
  }

  /** A reconciliation or deactivation writes only over the very Board that it read at its start. */
  lemma FencedWritesLoseNothing(schedule: seq<Event>, o: Overwrite)
    requires o in Run(Apply, START, schedule).overwrites
    ensures o.over == o.read
  {
    ReachableInv(schedule);
  }

  // ----- a key that was recorded and forgotten

  /** A worker that may still record the key: it called Hermes, or will, for the same kind of decision. */
  predicate MayRecord(pc: Pc, key: nat, changesSkills: bool) {
    (pc.Calls? || pc.Rereads?) && pc.job.Decide? && pc.job.decision.key == key
        && pc.job.decision.changesSkills == changesSkills
  }

  /** The Board waits for a decision whose key was recorded before, and every snapshot of a saving worker is older. */
  ghost predicate Blocked(s: World, board: Board) {
    && Inv(s) && s.board == board && board.status != Archived
    && board.pending.Some? && board.pending.value.key in s.recorded
    && forall w <- s.workers ::
        !MayRecord(s.workers[w], board.pending.value.key, board.pending.value.changesSkills)
        && Outdated(s, s.workers[w])
  }

  predicate Outdated(s: World, pc: Pc) {
    && (pc.Saves? ==> pc.latest.version < s.board.version)
    && ((pc.Calls? || pc.Rereads?) && !pc.job.Decide? ==> pc.read.version < s.board.version)
  }

  lemma BlockedStaysBlocked(s: World, e: Event, board: Board)
    requires Blocked(s, board)
    ensures Blocked(Apply(s, e), board)
  {
    StepKeepsInv(s, e);
    if IsWorkerEvent(e) && e.w in s.workers {
      var w, pc := e.w, s.workers[e.w];
      assert WorkerOk(s, pc) && Outdated(s, pc)
          && !MayRecord(pc, board.pending.value.key, board.pending.value.changesSkills);
      BlockedStep(s, e, w, pc, board);
    }
  }

  ghost predicate StillBlocked(s: World, t: World, w: nat, board: Board)
    requires board.pending.Some?
  {
    && t.board == s.board && t.recorded == s.recorded && t.workers.Keys == s.workers.Keys
    && (forall v <- s.workers :: v != w ==> t.workers[v] == s.workers[v])
    && (w in t.workers ==>
        Outdated(t, t.workers[w])
        && !MayRecord(t.workers[w], board.pending.value.key, board.pending.value.changesSkills))
  }

  lemma BlockedRead(s: World, w: nat, brandActive: bool, board: Board)
    requires Blocked(s, board) && w in s.workers && s.workers[w].Reads? && WorkerOk(s, s.workers[w])
    ensures StillBlocked(s, Step(s, Read(w, brandActive), w, s.workers[w]), w, board)
  {
    assert PendingOk(s) && !MayCall(s.board, s.workers[w].job, brandActive);
  }

  lemma BlockedReread(s: World, w: nat, board: Board)
    requires Blocked(s, board) && w in s.workers && s.workers[w].Rereads?
    requires Outdated(s, s.workers[w])
        && !MayRecord(s.workers[w], board.pending.value.key, board.pending.value.changesSkills)
    ensures StillBlocked(s, Step(s, Reread(w), w, s.workers[w]), w, board)
  {
  }

  lemma BlockedCall(s: World, w: nat, e: Event, board: Board)
    requires Blocked(s, board) && w in s.workers && s.workers[w].Calls? && e.Call?
    requires Outdated(s, s.workers[w])
        && !MayRecord(s.workers[w], board.pending.value.key, board.pending.value.changesSkills)
    ensures StillBlocked(s, Called(s, w, s.workers[w].job, s.workers[w].read, e.arrives, e.answers, e.observation), w,
        board)
  {
  }

  lemma BlockedSave(s: World, w: nat, answer: Answer, board: Board)
    requires Blocked(s, board) && w in s.workers && s.workers[w].Saves? && Outdated(s, s.workers[w])
    requires WorkerOk(s, s.workers[w])
    ensures StillBlocked(s, Saved(s, w, s.workers[w], answer), w, board)
  {
    assert Written(s, s.workers[w]) == s;
  }

  lemma BlockedStep(s: World, e: Event, w: nat, pc: Pc, board: Board)
    requires Blocked(s, board) && IsWorkerEvent(e) && e.w == w && w in s.workers && s.workers[w] == pc
    requires WorkerOk(s, pc) && Outdated(s, pc)
        && !MayRecord(pc, board.pending.value.key, board.pending.value.changesSkills)
    ensures StillBlocked(s, Step(s, e, w, pc), w, board)
  {
    if e.Read? {
      if pc.Reads? { BlockedRead(s, w, e.brandActive, board); }
    } else if e.Reread? {
      if pc.Rereads? { BlockedReread(s, w, board); }
    } else if e.Call? {
      if pc.Calls? { BlockedCall(s, w, e, board); }
    } else if e.Save? {
      if pc.Saves? { BlockedSave(s, w, e.answer, board); }
    }
  }

  /**
   A forgotten key that is queued again keeps its old message in the outbox, which no longer fits: the Board never
   changes any more, whatever decision, revision or reconciliation is asked for. The one way out is a worker that read
   the earlier decision and was overtaken; it records the key a second time.
   */
  lemma ForgottenKeyBlocksIff(s: World, key: nat, changesSkills: bool)
    requires Inv(s) && key in s.recorded && QueueDecision(s.board, key, changesSkills, s.now).Some?
    ensures var t := Apply(s, OwnerQueues(key, changesSkills));
      (forall schedule :: Run(Apply, t, schedule).board == t.board) <==>
      !exists w :: w in s.workers && MayRecord(s.workers[w], key, changesSkills)
  {
    var e := OwnerQueues(key, changesSkills);
    var t := Apply(s, e);
    StepKeepsInv(s, e);
    if w :| w in s.workers && MayRecord(s.workers[w], key, changesSkills) {
      var schedule := OvertakenRecords(t, w);
      assert Run(Apply, t, schedule).board != t.board;
    } else {
      forall u, e {:trigger Apply(u, e)} | Blocked(u, t.board) ensures Blocked(Apply(u, e), t.board) {
        BlockedStaysBlocked(u, e, t.board);
      }
      forall w <- t.workers ensures Outdated(t, t.workers[w]) && !MayRecord(t.workers[w], key, changesSkills) {
        assert WorkerOk(s, s.workers[w]);
      }
      forall schedule ensures Run(Apply, t, schedule).board == t.board {
        RunKeeps(Apply, u => Blocked(u, t.board), t, schedule);
      }
    }
  }

  /** An overtaken worker goes on: its call is answered, it reads the key as pending, and records it. */
  lemma OvertakenRecords(t: World, w: nat) returns (schedule: seq<Event>)
    requires w in t.workers && t.board.pending.Some? && t.board.status != Archived
    requires MayRecord(t.workers[w], t.board.pending.value.key, t.board.pending.value.changesSkills)
    requires t.board.pending.value.key !in t.board.applied
    ensures Run(Apply, t, schedule).recorded == t.recorded + [t.board.pending.value.key]
    ensures Run(Apply, t, schedule).board != t.board
  {
    var call := Call(w, true, true, HermesError);
    if t.workers[w].Calls? {
      var u := Apply(t, call);
      assert u.board == t.board && u.recorded == t.recorded && w in u.workers && u.workers[w].Rereads?;
      var rest := RereadThenSave(u, w);
      schedule := [call] + rest;
      assert schedule[1..] == rest;
    } else {
      schedule := RereadThenSave(t, w);
    }
  }

  lemma RereadThenSave(t: World, w: nat) returns (schedule: seq<Event>)
    requires w in t.workers && t.workers[w].Rereads? && t.board.pending.Some? && t.board.status != Archived
    requires MayRecord(t.workers[w], t.board.pending.value.key, t.board.pending.value.changesSkills)
    requires t.board.pending.value.key !in t.board.applied
    ensures schedule == [Reread(w), Save(w, Answers)]
    ensures Run(Apply, t, schedule).recorded == t.recorded + [t.board.pending.value.key]
    ensures Run(Apply, t, schedule).board != t.board
  {
    schedule := [Reread(w), Save(w, Answers)];
    var u := Apply(t, Reread(w));
    var v := Apply(u, Save(w, Answers));
    assert schedule[1..] == [Save(w, Answers)] && Run(Apply, u, [Save(w, Answers)]) == Run(Apply, v, []) == v;
    assert u.workers[w].Saves? && u.board == t.board && v.board.pending.None?;
  }

  // ----- runs that exist

  /** Worker 0 stands still; all other workers are numbered as they record. */
  ghost predicate Idle(s: World, still: Pc) {
    && Reaches(Apply, START, s) && Inv(s)
    && s.board.status != Archived && s.board.pending.None?
    && 0 in s.workers && s.workers[0] == still && forall v <- s.workers :: v <= |s.recorded|
  }

  /** From an idle Board, any new key can be queued, applied and recorded. */
  lemma RecordOne(r: World, key: nat, still: Pc) returns (s: World)
    requires Idle(r, still) && key !in r.outbox
    ensures Idle(s, still) && s.recorded == r.recorded + [key] && s.outbox.Keys == r.outbox.Keys + {key}
  {
    s := Onward(Apply, START, r, OwnerQueues(key, false));
    StepKeepsInv(r, OwnerQueues(key, false));
    var d := Decision(key, false, r.board.configuration, r.board.capability, r.now);
    assert key !in r.recorded;
    assert s.board.pending == Some(d) && s.board.applied == r.board.applied && s.outbox[key] == d;
    s := DeliverOne(s, |r.recorded| + 1, d, still);
  }

  lemma DeliverOne(r: World, w: nat, d: Decision, still: Pc) returns (s: World)
    requires Reaches(Apply, START, r) && Inv(r) && r.board.status != Archived && w == |r.recorded| + 1
    requires r.board.pending == Some(d) && !d.changesSkills && d.key in r.outbox && r.outbox[d.key] == d
    requires d.configuration == r.board.configuration && d.capability == r.board.capability
    requires 0 in r.workers && r.workers[0] == still && forall v <- r.workers :: v < w
    ensures Idle(s, still) && s.recorded == r.recorded + [d.key] && s.outbox == r.outbox
  {
    var job := Decide(d);
    s := CallsHermes(r, w, job);
    s := HermesAnswers(s, w, d);
    s := RecordAnswered(s, w, d);
  }

  lemma HermesAnswers(r: World, w: nat, d: Decision) returns (s: World)
    requires Reaches(Apply, START, r) && w in r.workers && r.workers[w] == Calls(Decide(d), r.board)
    ensures Reaches(Apply, START, s) && s.workers == r.workers[w := Rereads(Decide(d), r.board, HermesError)]
    ensures s.board == r.board && s.recorded == r.recorded && s.outbox == r.outbox
  {
    s := Onward(Apply, START, r, Call(w, true, true, HermesError));
  }

  lemma CallsHermes(r: World, w: nat, job: Job) returns (s: World)
    requires Reaches(Apply, START, r) && w !in r.workers && MayDeliver(r, job) && MayCall(r.board, job, true)
    ensures Reaches(Apply, START, s) && s == r.(workers := r.workers[w := Calls(job, r.board)])
  {
    s := Onward(Apply, START, r, Start(w, job));
    s := Onward(Apply, START, s, Read(w, true));
    assert s.workers == r.workers[w := Calls(job, r.board)];
  }

  lemma RecordAnswered(r: World, w: nat, d: Decision) returns (s: World)
    requires Reaches(Apply, START, r) && w in r.workers && r.workers[w] == Rereads(Decide(d), r.board, HermesError)
    requires r.board.status != Archived && r.board.pending == Some(d) && !d.changesSkills && d.key !in r.board.applied
    requires w == |r.recorded| + 1 && 0 in r.workers && forall v <- r.workers :: v <= w
    ensures Idle(s, r.workers[0]) && s.recorded == r.recorded + [d.key] && s.outbox == r.outbox
  {
    var next := r.board.(applied := LastKeys(r.board.applied + [d.key]), pending := None,
        version := r.board.version + 1);
    s := Onward(Apply, START, r, Reread(w));
    assert s.workers == r.workers[w := Saves(Decide(d), r.board, r.board, HermesError, next)];
    s := Onward(Apply, START, s, Save(w, Answers));
    assert s.workers == r.workers[w := Stopped];
    ReachedInv(s);
  }

  lemma ReachedInv(s: World)
    requires Reaches(Apply, START, s)
    ensures Inv(s)
  {
    var schedule :| Run(Apply, START, schedule) == s;
    ReachableInv(schedule);
  }

  /** Worker 0 stops after its Hermes call for the first decision; another delivery records it. */
  lemma WorkerStandsStill() returns (s: World, still: Pc)
    ensures Idle(s, still) && s.recorded == [0] && s.outbox.Keys == {0} && MayRecord(still, 0, false)
  {
    Here(Apply, START);
    s := Onward(Apply, START, START, OwnerQueues(0, false));
    var d := Decision(0, false, 0, 0, 0);
    assert s.board.pending == Some(d) && s.outbox == map[0 := d];
    s := CallsHermes(s, 0, Decide(d));
    still := s.workers[0];
    ReachedInv(s);
    s := DeliverOne(s, 1, d, still);
  }

  lemma {:induction false} RecordMany(n: nat) returns (s: World, still: Pc)
    ensures Idle(s, still) && MayRecord(still, 0, false) && |s.recorded| == n + 1
    ensures (forall k :: 0 <= k <= n ==> s.recorded[k] == k) && forall k <- s.outbox :: k <= n
  {
    if n == 0 {
      s, still := WorkerStandsStill();
    } else {
      var r: World;
      r, still := RecordMany(n - 1);
      s := RecordOne(r, n, still);
    }
  }

  /**
   The family is not empty, and the distance is exact: a hundred others push a key out, and the overtaken worker records
   it again.
   */
  lemma OvertakenKeyIsRecordedAgain() returns (s: World)
    ensures Reaches(Apply, START, s) && |s.recorded| == KEPT_KEYS + 2 && s.recorded[0] == s.recorded[KEPT_KEYS + 1]
  {
    var r, still := RecordMany(KEPT_KEYS);
    assert forall k :: 0 <= k < KEPT_KEYS ==> LastKeys(r.recorded)[k] == k + 1;
    var t := Onward(Apply, START, r, OwnerQueues(0, false));
    assert t.board.pending.Some? && t.workers == r.workers;
    var more := OvertakenRecords(t, 0);
    var before :| Run(Apply, START, before) == t;
    RunAppends(Apply, START, before, more);
    s := Run(Apply, t, more);
  }
}
