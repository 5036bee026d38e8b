/**
 The first comment under a published post, under any number of interleaved workers: a leased claim in write or
 reconcile mode, evidence checkpointed before the post is inspected, lease recovery, and an operator.
 */
module FirstComment {
  import opened Runs
  import WriteAhead
  import CommentPages

  datatype Status = Approved | Queued | Processing | Succeeded | Failed | Uncertain | Cancelled

  datatype Mode = WriteMode | ReconcileMode

  datatype Grade = ConfirmedByProvider | ReconciledByProvider | AttestedByOperator

  datatype Proof = Proof(grade: Grade, id: Option<string>)

  const LEASE_MS := 180_000

  datatype Row = Row(
    status: Status, version: nat, mode: Mode, owner: Option<nat>, expires: int, commentId: Option<string>,
        proof: Option<Proof>)

  predicate Holds(row: Row, w: nat, now: int) {
    row.status == Processing && row.owner == Some(w) && now < row.expires
  }

  function CompareAndSet(row: Row, version: nat, expected: Status, next: Status): Option<Row> {
    if row.version != version || row.status != expected then None
    else Some(row.(status := next, version := version + 1, owner := None))
  }

  function Claiming(row: Row, w: nat, now: int): Option<Row> {
    if row.status != Queued then None
    else Some(row.(status := Processing, version := row.version + 1, owner := Some(w), expires := now + LEASE_MS))
  }

  function CheckpointEvidence(row: Row, w: nat, id: string, now: int): Option<Row> {
    if !Holds(row, w, now) then None else Some(row.(version := row.version + 1, commentId := Some(id)))
  }

  function FinishExecution(row: Row, w: nat, status: Status, now: int): Option<Row> {
    if !Holds(row, w, now) then None else Some(row.(status := status, version := row.version + 1, owner := None))
  }

  function ResolveWithProof(row: Row, w: nat, grade: Grade, id: string, now: int): Option<Row> {
    if !Holds(row, w, now) then None
    else Some(row.(status := Succeeded, version := row.version + 1, owner := None, commentId := Some(id),
        proof := Some(Proof(grade, Some(id)))))
  }

  function Recovering(row: Row, now: int): Option<Row> {
    if row.status != Processing || now < row.expires then None
    else Some(row.(status := Uncertain, version := row.version + 1, owner := None))
  }

  // ----- the provider

  datatype ErrorCode = PermissionMissing | Unsupported | RateLimited | ProviderFailed | CodeUncertain

  datatype Error = FirstCommentError(code: ErrorCode) | OtherError

  function FailureStatus(error: Error): Status {
    if error.FirstCommentError? && error.code in {PermissionMissing, Unsupported, RateLimited} then Failed
    else Uncertain
  }

  /** What the write call reports; an honest provider creates nothing when it reports a certain failure. */
  datatype Reply = Created(id: string) | CreateThrows(error: Error)

  predicate Honest(reply: Reply, created: Option<string>) {
    match reply
    case Created(id) => created == Some(id)
    case CreateThrows(error) => FailureStatus(error) == Failed ==> created.None?
  }

  // ----- the workers

  datatype Pc =
    | Reads
    | Binds(version: nat)
    | FailsWithPost(version: nat)
    | Claims
    | Checks
    | Creates
    | AwaitsCreate(created: Option<string>)
    | Checkpoints(id: string)
    | Inspects(mode: Mode, wanted: Option<string>)
    | Resolves(mode: Mode, id: string)
    | Finishes(status: Status, caught: bool)
    | Stopped

  datatype Answer = Answers | WriteThrows(applied: bool)

  datatype Post = Published | NotYet | Dead

  /**
   The capability check; a connector that does not support the write, and a check that throws, both end in an error.
   */
  datatype Capability = Supported | Refused(error: Error)

  datatype Event =
    | Start(w: nat)
    | Read(w: nat, post: Post)
    | TakeClaim(w: nat)
    | Check(w: nat, capability: Capability)
    | Create(w: nat, created: Option<string>)
    | CreateReturns(w: nat, reply: Reply)
    | Inspect(w: nat, host: CommentPages.Host)
    | Write(w: nat, answer: Answer)
    | Crash(w: nat)
    | Recover
    | Tick(ms: nat)
    | OperatorReconciles
    | OperatorConfirmsNotSent
    | OperatorAttests
    | OperatorCancels

  /** The comment that the intent asks for, as the inspection looks for it. */
  datatype Intent = Intent(account: string, body: string, publishedAt: string, limit: CommentPages.Limit)

  function Wanted(intent: Intent, id: Option<string>): CommentPages.Wanted {
    CommentPages.Wanted(intent.account, intent.body, id, intent.publishedAt)
  }

  /** A match: the host whose pages were read, the id that was looked for, and the comment that was found. */
  datatype Sight = Sight(host: CommentPages.Host, wanted: Option<string>, id: string)

  /**
   The log: the mode of every claim, the claims that wrote, the comments that came of it, and the matches that
   inspections saw.
   */
  datatype World = World(
    row: Row, clock: int, intent: Intent, workers: map<nat, Pc>,
    modes: map<nat, Mode>, writer: Option<nat>, writes: seq<nat>, comments: map<nat, string>,
    seen: map<nat, Sight>, overruled: bool)

  function Begin(intent: Intent): World {
    World(Row(Approved, 0, WriteMode, None, 0, None, None), 0, intent, map[], map[], None, [], map[], map[], false)
  }

  function Give(s: World, w: nat, pc: Pc): World {
    s.(workers := s.workers[w := pc])
  }

  function AfterRead(row: Row, post: Post): Pc {
    if row.status == Approved then
      match post
      case Published => Binds(row.version)
      case Dead => FailsWithPost(row.version)
      case NotYet => Stopped
    else if row.status == Queued then Claims else Stopped
  }

  function TakingClaim(s: World, w: nat): World {
    var row := Claiming(s.row, w, s.clock);
    if row.None? then Give(s, w, Stopped)
    else
      Give(s.(row := row.value, modes := s.modes[w := row.value.mode],
              writer := if row.value.mode == WriteMode then Some(w) else s.writer), w,
           if row.value.mode == WriteMode then Checks else Inspects(ReconcileMode, row.value.commentId))
  }

  function CallingCreate(s: World, w: nat, created: Option<string>): World {
    Give(s.(writes := s.writes + [w], comments := if created.Some? then s.comments[w := created.value] else s.comments),
         w, AwaitsCreate(created))
  }

  function AfterReply(reply: Reply): Pc {
    match reply
    case Created(id) => Checkpoints(id)
    case CreateThrows(error) => Finishes(FailureStatus(error), true)
  }

  function Observing(s: World, w: nat, mode: Mode, wanted: Option<string>, host: CommentPages.Host,
      observation: CommentPages.Observation): World {
    match observation
    case ReadFailed => Give(s, w, Finishes(Uncertain, true))
    case Matched(id) => Give(s.(seen := s.seen[w := Sight(host, wanted, id)]), w, Resolves(mode, id))
    case _ => Give(s, w, Finishes(Uncertain, false))
  }

  function Inspecting(s: World, w: nat, mode: Mode, wanted: Option<string>, host: CommentPages.Host): World
  {
    Observing(s, w, mode, wanted, host,
        CommentPages.InspectFirstComment(host, s.intent.limit, Wanted(s.intent, wanted)))
  }

  predicate IsWrite(pc: Pc) {
    pc.Binds? || pc.FailsWithPost? || pc.Checkpoints? || pc.Resolves? || pc.Finishes?
  }

  function GradeOf(mode: Mode): Grade {
    if mode == WriteMode then ConfirmedByProvider else ReconciledByProvider
  }

  function Written(s: World, w: nat, pc: Pc): Option<Row> {
    match pc
    case Binds(version) => CompareAndSet(s.row, version, Approved, Queued)
    case FailsWithPost(version) => CompareAndSet(s.row, version, Approved, Failed)
    case Checkpoints(id) => CheckpointEvidence(s.row, w, id, s.clock)
    case Resolves(mode, id) => ResolveWithProof(s.row, w, GradeOf(mode), id, s.clock)
    case Finishes(status, _) => FinishExecution(s.row, w, status, s.clock)
    case _ => None
  }

  function AfterWrite(pc: Pc, accepted: bool): Pc {
    match pc
    case Binds(_) => if accepted then Claims else Stopped
    case Checkpoints(id) => if accepted then Inspects(WriteMode, Some(id)) else Finishes(Uncertain, true)
    case _ => Stopped
  }

  function AfterThrow(pc: Pc): Pc {
    match pc
    case Checkpoints(_) => Finishes(Uncertain, true)
    case Resolves(_, _) => Finishes(Uncertain, true)
    case Finishes(_, false) => Finishes(Uncertain, true)
    case _ => Stopped
  }

  function Wrote(s: World, w: nat, pc: Pc, applied: bool, next: Pc): World {
    var row := Written(s, w, pc);
    Give(if applied && row.Some? then s.(row := row.value) else s, w, next)
  }

  function Writing(s: World, w: nat, pc: Pc, answer: Answer): World {
    match answer
    case Answers => Wrote(s, w, pc, true, AfterWrite(pc, Written(s, w, pc).Some?))
    case WriteThrows(applied) => Wrote(s, w, pc, applied, AfterThrow(pc))
  }

  function Recovered(s: World): World {
    var row := Recovering(s.row, s.clock);
    if row.Some? then s.(row := row.value) else s
  }

  /** What an operator may do with an uncertain intent, or with one that has not started. */
  function Operating(s: World, e: Event): World {
    if e.OperatorCancels? then
      if s.row.status !in {Approved, Queued} then s
      else s.(row := s.row.(status := Cancelled, version := s.row.version + 1))
    else if s.row.status != Uncertain then s
    else if e.OperatorReconciles? then
      s.(row := s.row.(status := Queued, version := s.row.version + 1, mode := ReconcileMode))
    else if e.OperatorConfirmsNotSent? then
      s.(row := s.row.(status := Queued, version := s.row.version + 1, mode := WriteMode, commentId := None),
          overruled := true)
    else
      s.(row := s.row.(status := Succeeded, version := s.row.version + 1,
          proof := Some(Proof(AttestedByOperator, None))))
  }

  function Apply(s: World, e: Event): World {
    if e.Tick? then s.(clock := s.clock + e.ms)
    else if e.Recover? then Recovered(s)
    else if IsOperator(e) then Operating(s, e)
    else if e.w !in s.workers then (if e.Start? then Give(s, e.w, Reads) else s)
    else if e.Start? then s
    else Step(s, e, e.w, s.workers[e.w])
  }

  predicate IsOperator(e: Event) {
    e.OperatorReconciles? || e.OperatorConfirmsNotSent? || e.OperatorAttests? || e.OperatorCancels?
  }

  predicate IsWorkerEvent(e: Event) {
    !e.Start? && !e.Recover? && !e.Tick? && !e.OperatorReconciles? && !e.OperatorConfirmsNotSent?
    && !e.OperatorAttests? && !e.OperatorCancels?
  }

  /** Events that only move their worker on. */
  predicate IsLocal(e: Event) {
    e.Crash? || e.Read? || e.Check? || e.CreateReturns?
  }

  function Moved(row: Row, pc: Pc, e: Event): Pc
    requires IsLocal(e)
  {
    match e
    case Crash(_) => Stopped
    case Read(_, post) => if pc.Reads? then AfterRead(row, post) else pc
    case Check(_, capability) =>
      if !pc.Checks? then pc
      else if capability.Supported? then Creates else Finishes(FailureStatus(capability.error), true)
    case CreateReturns(_, reply) => if pc.AwaitsCreate? && Honest(reply, pc.created) then AfterReply(reply) else pc
  }

  function Step(s: World, e: Event, w: nat, pc: Pc): World
    requires IsWorkerEvent(e)
  {
    if IsLocal(e) then Give(s, w, Moved(s.row, pc, e))
    else if e.TakeClaim? then (if pc.Claims? then TakingClaim(s, w) else s)
    else if e.Create? then (if pc.Creates? then CallingCreate(s, w, e.created) else s)
    else if e.Write? then (if IsWrite(pc) then Writing(s, w, pc, e.answer) else s)
    else if pc.Inspects? then Inspecting(s, w, pc.mode, pc.wanted, e.host)
    else s
  }

  // ----- invariants

  predicate BeforeWrite(pc: Pc) {
    pc.Checks? || pc.Creates?
  }

  predicate NotYetClaimed(pc: Pc) {
    pc.Reads? || pc.Binds? || pc.FailsWithPost? || pc.Claims?
  }

  predicate Saw(s: World, w: nat, mode: Mode, id: string) {
    && w in s.seen && s.seen[w].id == id
    && (mode == WriteMode ==> w in s.comments && s.seen[w].wanted == Some(s.comments[w]))
  }

  /** Per worker: its claim's mode, its single write, and where its evidence comes from. */
  predicate ClaimHeld(s: World, w: nat, pc: Pc) {
    && (NotYetClaimed(pc) ==> w !in s.modes && w !in s.writes && w !in s.comments && s.row.owner != Some(w))
    && (!NotYetClaimed(pc) && !pc.Stopped? ==> w in s.modes)
    && (BeforeWrite(pc) ==> s.modes[w] == WriteMode && w !in s.writes && w !in s.comments)
    && (pc.AwaitsCreate? || pc.Checkpoints? ==> s.modes[w] == WriteMode)
    && (pc.AwaitsCreate? ==> pc.created == if w in s.comments then Some(s.comments[w]) else None)
    && (pc.Checkpoints? ==> w in s.comments && s.comments[w] == pc.id)
    && (pc.Inspects? ==>
        pc.mode == s.modes[w] && (pc.mode == WriteMode ==> w in s.comments && pc.wanted == Some(s.comments[w])))
    && (pc.Resolves? ==> pc.mode == s.modes[w] && Saw(s, w, pc.mode, pc.id))
    && (pc.Finishes? ==>
        pc.status in {Failed, Uncertain} && (pc.status == Failed ==> s.modes[w] == WriteMode && w !in s.comments))
  }

  /**
   Until an operator overrules, there is at most one write claim, and a claim that still may write has the record or
   left it uncertain.
   */
  predicate CleanHeld(s: World, w: nat, pc: Pc) {
    !s.overruled ==>
      && (w in s.modes && s.modes[w] == WriteMode ==> s.writer == Some(w))
      && (s.row.status == Failed ==> !BeforeWrite(pc))
  }

  ghost predicate ProofStored(s: World) {
    && (s.row.status == Succeeded <==> s.row.proof.Some?)
    && (s.row.proof.Some? && s.row.proof.value.grade != AttestedByOperator ==> exists w :: Resolution(s, w))
  }

  /** Worker `w` resolved the record with what it saw. */
  predicate Resolution(s: World, w: nat) {
    && w in s.modes && s.row.commentId.Some? && Saw(s, w, s.modes[w], s.row.commentId.value)
    && s.row.proof == Some(Proof(GradeOf(s.modes[w]), s.row.commentId))
    && w in s.workers && IsPastInspection(s.workers[w])
  }

  predicate IsPastInspection(pc: Pc) {
    pc.Resolves? || pc.Finishes? || pc.Stopped?
  }

  ghost predicate LogOk(s: World) {
    && (s.row.status == Processing <==> s.row.owner.Some?)
    && (s.row.owner.Some? ==> s.row.owner.value in s.modes && s.modes[s.row.owner.value] == s.row.mode)
    && (forall w <- s.modes :: w in s.workers && !NotYetClaimed(s.workers[w]))
    && (forall w <- s.writes :: w in s.modes && s.modes[w] == WriteMode)
    && (forall i, j :: 0 <= i < j < |s.writes| ==> s.writes[i] != s.writes[j])
    && (forall w <- s.comments :: w in s.writes)
  }

  predicate CleanStored(s: World) {
    !s.overruled ==>
      && (s.row.status == Approved || (s.row.status in {Queued, Cancelled} && s.row.mode == WriteMode) ==>
          s.writer.None?)
      && (s.writer.None? ==> s.writes == [] && s.comments == map[])
      && (s.writer.Some? ==> s.writer.value in s.modes)
      && (s.row.status == Failed ==> s.comments == map[])
  }

  ghost predicate StoreOk(s: World) {
    LogOk(s) && ProofStored(s) && CleanStored(s)
  }

  ghost predicate WorkerOk(s: World, w: nat, pc: Pc) {
    ClaimHeld(s, w, pc) && CleanHeld(s, w, pc)
  }

  ghost predicate Inv(s: World) {
    StoreOk(s) && forall w <- s.workers :: WorkerOk(s, w, s.workers[w])
  }

  // ----- every event keeps the invariant

  lemma EnvironmentKeepsLog(s: World, e: Event)
    requires Inv(s) && !IsWorkerEvent(e)
    ensures LogOk(Apply(s, e))
  {
  }

  lemma EnvironmentKeepsClean(s: World, e: Event)
    requires Inv(s) && !IsWorkerEvent(e)
    ensures CleanStored(Apply(s, e))
  {
  }

  lemma EnvironmentKeepsProof(s: World, e: Event)
    requires Inv(s) && !IsWorkerEvent(e)
    ensures ProofStored(Apply(s, e))
  {
    if w :| Resolution(s, w) {
      assert Resolution(Apply(s, e), w);
    }
  }

  lemma RecoveryLeaves(s: World, v: nat)
    ensures Undisturbed(s, Recovered(s), v)
  {
  }

  lemma OperatorLeaves(s: World, e: Event, v: nat)
    requires IsOperator(e)
    ensures Undisturbed(s, Operating(s, e), v)
  {
  }

  lemma EnvironmentLeaves(s: World, e: Event, v: nat)
    requires !IsWorkerEvent(e) && v in s.workers
    ensures var t := Apply(s, e); Undisturbed(s, t, v) && v in t.workers && t.workers[v] == s.workers[v]
  {
    if e.Recover? {
      RecoveryLeaves(s, v);
    } else if IsOperator(e) {
      OperatorLeaves(s, e, v);
    }
  }

  /** A worker moves on and leaves record and log alone. */
  lemma GiveKeepsStore(s: World, w: nat, next: Pc)
    requires StoreOk(s) && w in s.workers && (NotYetClaimed(next) ==> NotYetClaimed(s.workers[w]))
    requires IsPastInspection(s.workers[w]) ==> IsPastInspection(next)
    ensures StoreOk(Give(s, w, next))
  {
    if x :| Resolution(s, x) {
      assert Resolution(Give(s, w, next), x);
    }
  }

  /** What an event of another worker leaves of the world, as `v` sees it. */
  ghost predicate Undisturbed(s: World, t: World, v: nat) {
    && (v in t.modes <==> v in s.modes) && (v in s.modes ==> t.modes[v] == s.modes[v])
    && (v in t.writes <==> v in s.writes)
    && (v in t.comments <==> v in s.comments) && (v in s.comments ==> t.comments[v] == s.comments[v])
    && (v in t.seen <==> v in s.seen) && (v in s.seen ==> t.seen[v] == s.seen[v])
    && (t.row.owner == Some(v) ==> s.row.owner == Some(v))
    && (s.overruled ==> t.overruled)
    && (!t.overruled && v in s.modes && s.modes[v] == WriteMode ==>
          t.writer == s.writer && (t.row.status == Failed ==> s.row.status == Failed))
  }

  lemma UndisturbedKeeps(s: World, t: World, v: nat)
    requires v in s.workers && WorkerOk(s, v, s.workers[v]) && Undisturbed(s, t, v)
    ensures WorkerOk(t, v, s.workers[v])
  {
  }

  lemma ClaimKeeps(s: World, w: nat)
    requires Inv(s) && w in s.workers && s.workers[w].Claims?
    ensures var t := TakingClaim(s, w); StoreOk(t) && WorkerOk(t, w, t.workers[w])
  {
    assert WorkerOk(s, w, s.workers[w]);
    var t := TakingClaim(s, w);
    if Claiming(s.row, w, s.clock).None? {
      GiveKeepsStore(s, w, Stopped);
    } else {
      assert s.row.proof.None?;
      assert LogOk(t);
      assert CleanStored(t);
    }
  }

  lemma CreateKeeps(s: World, w: nat, created: Option<string>)
    requires Inv(s) && w in s.workers && s.workers[w].Creates?
    ensures var t := CallingCreate(s, w, created); StoreOk(t) && WorkerOk(t, w, t.workers[w])
  {
    assert WorkerOk(s, w, s.workers[w]);
    var t := CallingCreate(s, w, created);
    assert LogOk(t);
    assert CleanStored(t);
    if x :| Resolution(s, x) {
      assert Resolution(t, x);
    }
  }

  lemma SeeingKeepsStore(s: World, w: nat, sight: Sight)
    requires StoreOk(s) && w in s.workers && !IsPastInspection(s.workers[w])
    ensures StoreOk(s.(seen := s.seen[w := sight]))
  {
    var t := s.(seen := s.seen[w := sight]);
    if x :| Resolution(s, x) {
      assert Resolution(t, x);
    }
  }

  lemma ObserveKeepsStore(s: World, w: nat, host: CommentPages.Host, observation: CommentPages.Observation)
    requires StoreOk(s) && w in s.workers && s.workers[w].Inspects?
    ensures StoreOk(Observing(s, w, s.workers[w].mode, s.workers[w].wanted, host, observation))
  {
    var pc := s.workers[w];
    if observation.Matched? {
      var sight := Sight(host, pc.wanted, observation.id);
      SeeingKeepsStore(s, w, sight);
      GiveKeepsStore(s.(seen := s.seen[w := sight]), w, Resolves(pc.mode, observation.id));
    } else {
      GiveKeepsStore(s, w, Finishes(Uncertain, observation.ReadFailed?));
    }
  }

  lemma ObserveKeepsActor(s: World, w: nat, host: CommentPages.Host, observation: CommentPages.Observation)
    requires w in s.workers && s.workers[w].Inspects? && WorkerOk(s, w, s.workers[w])
    ensures var t := Observing(s, w, s.workers[w].mode, s.workers[w].wanted, host, observation);
        w in t.workers && WorkerOk(t, w, t.workers[w])
  {
  }

  lemma ObserveKeeps(s: World, w: nat, host: CommentPages.Host, observation: CommentPages.Observation)
    requires Inv(s) && w in s.workers && s.workers[w].Inspects?
    ensures var t := Observing(s, w, s.workers[w].mode, s.workers[w].wanted, host, observation);
      StoreOk(t) && w in t.workers && WorkerOk(t, w, t.workers[w])
  {
    ObserveKeepsStore(s, w, host, observation);
    ObserveKeepsActor(s, w, host, observation);
  }

  lemma MovedIs(row: Row, pc: Pc, e: Event)
    requires IsLocal(e)
    ensures var next := Moved(row, pc, e);
      && (NotYetClaimed(next) ==> NotYetClaimed(pc))
      && (IsPastInspection(pc) ==> IsPastInspection(next))
      && (BeforeWrite(next) ==> BeforeWrite(pc))
  {
  }

  lemma MovedKeepsWorker(s: World, w: nat, pc: Pc, e: Event)
    requires IsLocal(e) && WorkerOk(s, w, pc)
    ensures WorkerOk(s, w, Moved(s.row, pc, e))
  {
  }

  lemma LocalKeeps(s: World, w: nat, e: Event)
    requires Inv(s) && IsLocal(e) && w in s.workers
    ensures var next := Moved(s.row, s.workers[w], e); StoreOk(Give(s, w, next)) && WorkerOk(Give(s, w, next), w, next)
  {
    var pc := s.workers[w];
    MovedIs(s.row, pc, e);
    GiveKeepsStore(s, w, Moved(s.row, pc, e));
    MovedKeepsWorker(s, w, pc, e);
    WorkerOkIgnoresWorkers(s, w, Moved(s.row, pc, e));
  }

  lemma WorkerOkIgnoresWorkers(s: World, w: nat, next: Pc)
    requires WorkerOk(s, w, next)
    ensures WorkerOk(Give(s, w, next), w, next)
  {
  }

  /** The record after an accepted write, without saying which store operation made it. */
  predicate Successor(s: World, w: nat, pc: Pc, row: Row) {
    && row.mode == s.row.mode && s.row.proof.None? && (row.proof.Some? <==> row.status == Succeeded)
    && row.owner == (if pc.Checkpoints? then s.row.owner else None)
    && (pc.Checkpoints? || pc.Resolves? || pc.Finishes? ==>
          w in s.modes && s.row.owner == Some(w) && s.modes[w] == s.row.mode && s.row.status == Processing)
    && (pc.Binds? || pc.FailsWithPost? ==> s.row.status == Approved)
    && (pc.Binds? ==> row.status == Queued)
    && (pc.FailsWithPost? ==> row.status == Failed)
    && (pc.Checkpoints? ==> row.status == Processing)
    && (pc.Resolves? ==>
        row.status == Succeeded && row.commentId == Some(pc.id)
        && row.proof == Some(Proof(GradeOf(pc.mode), Some(pc.id))))
    && (pc.Finishes? ==> row.status == pc.status)
  }

  lemma WrittenSucceeds(s: World, w: nat, pc: Pc)
    requires LogOk(s) && ProofStored(s) && ClaimHeld(s, w, pc) && IsWrite(pc) && Written(s, w, pc).Some?
    ensures Successor(s, w, pc, Written(s, w, pc).value)
  {
  }

  lemma SuccessorKeepsLog(s: World, w: nat, pc: Pc, row: Row, next: Pc)
    requires Inv(s) && w in s.workers && s.workers[w] == pc && IsWrite(pc) && Successor(s, w, pc, row)
    requires NotYetClaimed(next) ==> NotYetClaimed(pc)
    ensures LogOk(Give(s.(row := row), w, next))
  {
  }

  lemma SuccessorKeepsClean(s: World, w: nat, pc: Pc, row: Row, next: Pc)
    requires Inv(s) && w in s.workers && s.workers[w] == pc && IsWrite(pc) && Successor(s, w, pc, row)
    ensures CleanStored(Give(s.(row := row), w, next))
  {
  }

  lemma SuccessorKeepsProof(s: World, w: nat, pc: Pc, row: Row, next: Pc)
    requires Inv(s) && w in s.workers && s.workers[w] == pc && IsWrite(pc) && Successor(s, w, pc, row)
    requires IsPastInspection(pc) ==> IsPastInspection(next)
    ensures ProofStored(Give(s.(row := row), w, next))
  {
    assert ClaimHeld(s, w, pc);
    if pc.Resolves? {
      assert Resolution(Give(s.(row := row), w, next), w);
    }
  }

  lemma SuccessorKeepsWriter(s: World, w: nat, pc: Pc, row: Row, next: Pc)
    requires Inv(s) && w in s.workers && s.workers[w] == pc && IsWrite(pc) && Successor(s, w, pc, row)
    requires next in {AfterWrite(pc, true), AfterThrow(pc)}
    ensures WorkerOk(Give(s.(row := row), w, next), w, next)
  {
  }

  lemma RefusedKeeps(s: World, w: nat, pc: Pc, next: Pc)
    requires Inv(s) && w in s.workers && s.workers[w] == pc && IsWrite(pc)
    requires next in {AfterWrite(pc, false), AfterThrow(pc)}
    ensures StoreOk(Give(s, w, next)) && WorkerOk(Give(s, w, next), w, next)
  {
    assert ClaimHeld(s, w, pc) && CleanHeld(s, w, pc);
    GiveKeepsStore(s, w, next);
  }

  lemma WriteKeeps(s: World, w: nat, answer: Answer)
    requires Inv(s) && w in s.workers && IsWrite(s.workers[w])
    ensures var t := Writing(s, w, s.workers[w], answer); StoreOk(t) && WorkerOk(t, w, t.workers[w])
  {
    var pc := s.workers[w];
    assert WorkerOk(s, w, pc);
    var written := Written(s, w, pc);
    var next := if answer.Answers? then AfterWrite(pc, written.Some?) else AfterThrow(pc);
    if written.Some? && (answer.Answers? || answer.applied) {
      WrittenSucceeds(s, w, pc);
      SuccessorKeepsLog(s, w, pc, written.value, next);
      SuccessorKeepsClean(s, w, pc, written.value, next);
      SuccessorKeepsProof(s, w, pc, written.value, next);
      SuccessorKeepsWriter(s, w, pc, written.value, next);
    } else {
      RefusedKeeps(s, w, pc, next);
    }
  }

  lemma InspectKeeps(s: World, w: nat, host: CommentPages.Host)
    requires Inv(s) && w in s.workers && s.workers[w].Inspects?
    ensures var t := Inspecting(s, w, s.workers[w].mode, s.workers[w].wanted, host);
      StoreOk(t) && w in t.workers && WorkerOk(t, w, t.workers[w])
  {
    ObserveKeeps(s, w, host,
        CommentPages.InspectFirstComment(host, s.intent.limit, Wanted(s.intent, s.workers[w].wanted)));
  }

  lemma ActorKeeps(s: World, e: Event)
    requires Inv(s) && IsWorkerEvent(e) && e.w in s.workers
    ensures var t := Apply(s, e); StoreOk(t) && e.w in t.workers && WorkerOk(t, e.w, t.workers[e.w])
  {
    var w, pc := e.w, s.workers[e.w];
    if IsLocal(e) {
      LocalKeeps(s, w, e);
    } else if e.TakeClaim? {
      if pc.Claims? { ClaimKeeps(s, w); }
    } else if e.Create? {
      if pc.Creates? { CreateKeeps(s, w, e.created); }
    } else if e.Write? {
      if IsWrite(pc) { WriteKeeps(s, w, e.answer); }
    } else if pc.Inspects? {
      InspectKeeps(s, w, e.host);
    }
  }

  lemma WriteLeavesOthers(s: World, w: nat, answer: Answer, v: nat)
    requires StoreOk(s) && w in s.workers && v in s.workers && v != w
    requires IsWrite(s.workers[w]) && WorkerOk(s, w, s.workers[w]) && CleanHeld(s, v, s.workers[v])
    ensures var t := Writing(s, w, s.workers[w], answer);
        Undisturbed(s, t, v) && v in t.workers && t.workers[v] == s.workers[v]
  {
    var pc := s.workers[w];
    if Written(s, w, pc).Some? {
      WrittenSucceeds(s, w, pc);
      SuccessorLeavesOthers(s, w, pc, Written(s, w, pc).value, v);
    }
  }

  lemma SuccessorLeavesOthers(s: World, w: nat, pc: Pc, row: Row, v: nat)
    requires Successor(s, w, pc, row) && IsWrite(pc) && WorkerOk(s, w, pc) && v in s.workers
        && CleanHeld(s, v, s.workers[v]) && v != w
    requires LogOk(s) && CleanStored(s)
    ensures row.owner == Some(v) ==> s.row.owner == Some(v)
    ensures !s.overruled && v in s.modes && s.modes[v] == WriteMode && row.status == Failed ==> s.row.status == Failed
  {
  }

  lemma ClaimLeavesOthers(s: World, w: nat, v: nat)
    requires Inv(s) && w in s.workers && s.workers[w].Claims? && v in s.workers && v != w
    ensures Undisturbed(s, TakingClaim(s, w), v)
    ensures v in s.workers ==> v in TakingClaim(s, w).workers && TakingClaim(s, w).workers[v] == s.workers[v]
  {
  }

  lemma CreateLeavesOthers(s: World, w: nat, created: Option<string>, v: nat)
    requires v != w
    ensures Undisturbed(s, CallingCreate(s, w, created), v)
    ensures v in s.workers ==>
        v in CallingCreate(s, w, created).workers && CallingCreate(s, w, created).workers[v] == s.workers[v]
  {
  }

  lemma ObserveLeavesOthers(s: World, w: nat, mode: Mode, wanted: Option<string>, host: CommentPages.Host,
      observation: CommentPages.Observation, v: nat)
    requires v != w
    ensures Undisturbed(s, Observing(s, w, mode, wanted, host, observation), v)
    ensures v in s.workers ==>
        v in Observing(s, w, mode, wanted, host, observation).workers
        && Observing(s, w, mode, wanted, host, observation).workers[v] == s.workers[v]
  {
  }

  lemma InspectLeavesOthers(s: World, w: nat, host: CommentPages.Host, v: nat)
    requires v in s.workers && w in s.workers && v != w && s.workers[w].Inspects?
    ensures var t := Inspecting(s, w, s.workers[w].mode, s.workers[w].wanted, host);
      Undisturbed(s, t, v) && v in t.workers && t.workers[v] == s.workers[v]
  {
    var pc := s.workers[w];
    ObserveLeavesOthers(s, w, pc.mode, pc.wanted, host,
        CommentPages.InspectFirstComment(host, s.intent.limit, Wanted(s.intent, pc.wanted)), v);
  }

  lemma GiveLeavesOthers(s: World, w: nat, next: Pc, v: nat)
    requires v in s.workers && v != w
    ensures var t := Give(s, w, next); Undisturbed(s, t, v) && v in t.workers && t.workers[v] == s.workers[v]
  {
  }

  lemma OtherUndisturbed(s: World, e: Event, v: nat)
    requires Inv(s) && IsWorkerEvent(e) && e.w in s.workers && v in s.workers && v != e.w
    ensures var t := Apply(s, e); Undisturbed(s, t, v) && v in t.workers && t.workers[v] == s.workers[v]
  {
    var w, pc := e.w, s.workers[e.w];
    if IsLocal(e) {
      GiveLeavesOthers(s, w, Moved(s.row, pc, e), v);
    } else if e.Write? {
      if IsWrite(pc) {
        assert WorkerOk(s, w, pc) && WorkerOk(s, v, s.workers[v]);
        WriteLeavesOthers(s, w, e.answer, v);
      }
    } else if e.TakeClaim? {
      if pc.Claims? { ClaimLeavesOthers(s, w, v); }
    } else if e.Create? {
      if pc.Creates? { CreateLeavesOthers(s, w, e.created, v); }
    } else if pc.Inspects? {
      InspectLeavesOthers(s, w, e.host, v);
    }
  }

  lemma OtherKeeps(s: World, e: Event, v: nat)
    requires Inv(s) && IsWorkerEvent(e) && e.w in s.workers && v in s.workers && v != e.w
    ensures var t := Apply(s, e); v in t.workers && t.workers[v] == s.workers[v] && WorkerOk(t, v, s.workers[v])
  {
    OtherUndisturbed(s, e, v);
    UndisturbedKeeps(s, Apply(s, e), v);
  }

  lemma EnvironmentKeepsInv(s: World, e: Event)
    requires Inv(s) && !IsWorkerEvent(e)
    ensures Inv(Apply(s, e))
  {
    var t := Apply(s, e);
    EnvironmentKeepsLog(s, e);
    EnvironmentKeepsClean(s, e);
    EnvironmentKeepsProof(s, e);
    forall v <- t.workers ensures WorkerOk(t, v, t.workers[v]) {
      if v in s.workers {
        EnvironmentLeaves(s, e, v);
        UndisturbedKeeps(s, t, v);
      }
    }
  }

  lemma StepAddsNoWorker(s: World, e: Event, v: nat)
    requires IsWorkerEvent(e) && e.w in s.workers && v !in s.workers
    ensures v !in Apply(s, e).workers
  {
    var pc := s.workers[e.w];
    if e.Inspect? && pc.Inspects? {
      var observation := CommentPages.InspectFirstComment(e.host, s.intent.limit, Wanted(s.intent, pc.wanted));
      assert v !in Observing(s, e.w, pc.mode, pc.wanted, e.host, observation).workers;
    }
  }

  lemma StepKeepsInv(s: World, e: Event)
    requires Inv(s)
    ensures Inv(Apply(s, e))
  {
    var t := Apply(s, e);
    if !IsWorkerEvent(e) {
      EnvironmentKeepsInv(s, e);
    } else if e.w !in s.workers {
      assert t == s;
    } else {
      ActorKeeps(s, e);
      forall v <- t.workers ensures WorkerOk(t, v, t.workers[v]) {
        if v !in s.workers {
          StepAddsNoWorker(s, e, v);
        } else if v != e.w {
          OtherKeeps(s, e, v);
        }
      }
    }
  }

  lemma ReachableInv(intent: Intent, schedule: seq<Event>)
    ensures Inv(Run(Apply, Begin(intent), schedule))
  {
    forall t, e {:trigger Apply(t, e)} | Inv(t) ensures Inv(Apply(t, e)) {
      StepKeepsInv(t, e);
    }
    RunKeeps(Apply, Inv, Begin(intent), schedule);
  }

  // ----- refinement of the write-ahead journal, claim by claim

  function ClaimJournal(s: World, w: nat): WriteAhead.Journal {
    WriteAhead.Journal(
      if w !in s.modes then WriteAhead.Unrecorded
      else if s.row.owner == Some(w) then WriteAhead.Recorded else WriteAhead.Settled,
      w in s.modes && w in s.workers && BeforeWrite(s.workers[w]),
      multiset(s.writes)[w])
  }

  lemma EnvironmentRefines(s: World, e: Event, w: nat)
    requires Inv(s) && !IsWorkerEvent(e)
    ensures WriteAhead.Follows(ClaimJournal(s, w), ClaimJournal(Apply(s, e), w))
  {
    if w in s.workers {
      EnvironmentLeaves(s, e, w);
      assert WorkerOk(s, w, s.workers[w]);
      OtherRefines(s, Apply(s, e), w);
    } else {
      assert w !in s.modes;
    }
  }

  lemma OtherRefines(s: World, t: World, w: nat)
    requires Undisturbed(s, t, w) && (w in s.workers <==> w in t.workers)
        && (w in s.workers ==> t.workers[w] == s.workers[w])
    requires multiset(t.writes)[w] == multiset(s.writes)[w] && (w !in s.modes ==> s.row.owner != Some(w))
    ensures WriteAhead.Follows(ClaimJournal(s, w), ClaimJournal(t, w))
  {
  }

  lemma GiveRefines(s: World, w: nat, next: Pc)
    requires w in s.workers && !BeforeWrite(s.workers[w]) && !BeforeWrite(next)
    ensures ClaimJournal(Give(s, w, next), w) == ClaimJournal(s, w)
  {
  }

  lemma SuccessorRefines(s: World, w: nat, row: Row)
    requires w in s.modes || s.row.owner != Some(w)
    requires row.owner == s.row.owner || row.owner.None?
    ensures WriteAhead.Follows(ClaimJournal(s, w), ClaimJournal(s.(row := row), w))
  {
  }

  lemma WriteRefines(s: World, w: nat, answer: Answer)
    requires LogOk(s) && ProofStored(s) && w in s.workers && IsWrite(s.workers[w]) && ClaimHeld(s, w, s.workers[w])
    ensures WriteAhead.Follows(ClaimJournal(s, w), ClaimJournal(Writing(s, w, s.workers[w], answer), w))
  {
    var pc := s.workers[w];
    var written := Written(s, w, pc);
    var next := if answer.Answers? then AfterWrite(pc, written.Some?) else AfterThrow(pc);
    if written.Some? && (answer.Answers? || answer.applied) {
      WrittenSucceeds(s, w, pc);
      SuccessorRefines(s, w, written.value);
      GiveRefines(s.(row := written.value), w, next);
    } else {
      GiveRefines(s, w, next);
    }
  }

  lemma ClaimRefines(s: World, w: nat)
    requires Inv(s) && w in s.workers && s.workers[w].Claims?
    ensures WriteAhead.Follows(ClaimJournal(s, w), ClaimJournal(TakingClaim(s, w), w))
  {
  }

  lemma CreateRefines(s: World, w: nat, created: Option<string>)
    requires Inv(s) && w in s.workers && s.workers[w].Creates?
    ensures WriteAhead.Follows(ClaimJournal(s, w), ClaimJournal(CallingCreate(s, w, created), w))
  {
  }

  lemma LocalRefines(s: World, w: nat, e: Event)
    requires Inv(s) && IsLocal(e) && w in s.workers
    ensures WriteAhead.Follows(ClaimJournal(s, w), ClaimJournal(Give(s, w, Moved(s.row, s.workers[w], e)), w))
  {
  }

  lemma ObserveRefines(s: World, w: nat, mode: Mode, wanted: Option<string>, host: CommentPages.Host,
      observation: CommentPages.Observation)
    requires w in s.workers && s.workers[w].Inspects?
    ensures ClaimJournal(Observing(s, w, mode, wanted, host, observation), w) == ClaimJournal(s, w)
  {
  }

  lemma CountsOthers(writes: seq<nat>, x: nat, w: nat)
    requires x != w
    ensures multiset(writes + [x])[w] == multiset(writes)[w]
  {
  }

  lemma StepWrites(s: World, e: Event)
    requires IsWorkerEvent(e) && e.w in s.workers
    ensures Apply(s, e).writes in {s.writes, s.writes + [e.w]}
  {
    if e.Inspect? && s.workers[e.w].Inspects? {
      InspectingSees(s, e.w, s.workers[e.w].mode, s.workers[e.w].wanted, e.host);
    }
  }

  /** An inspection touches nothing but its worker and the log of matches. */
  lemma InspectingSees(s: World, w: nat, mode: Mode, wanted: Option<string>, host: CommentPages.Host)
    ensures var t := Inspecting(s, w, mode, wanted, host); t == s.(workers := t.workers, seen := t.seen)
  {
  }

  lemma RefinesJournal(s: World, e: Event, w: nat)
    requires Inv(s)
    ensures WriteAhead.Follows(ClaimJournal(s, w), ClaimJournal(Apply(s, e), w))
  {
    if !IsWorkerEvent(e) {
      EnvironmentRefines(s, e, w);
    } else if e.w !in s.workers {
      assert Apply(s, e) == s;
    } else if w != e.w {
      OtherWorkerRefines(s, e, w);
    } else {
      ActorRefines(s, e);
    }
  }

  lemma ActorRefines(s: World, e: Event)
    requires Inv(s) && IsWorkerEvent(e) && e.w in s.workers
    ensures WriteAhead.Follows(ClaimJournal(s, e.w), ClaimJournal(Apply(s, e), e.w))
  {
    var w, pc := e.w, s.workers[e.w];
    if IsLocal(e) {
      LocalRefines(s, w, e);
    } else if e.Write? {
      if IsWrite(pc) {
        assert WorkerOk(s, w, pc);
        WriteRefines(s, w, e.answer);
      }
    } else if e.TakeClaim? {
      if pc.Claims? { ClaimRefines(s, w); }
    } else if e.Create? {
      if pc.Creates? { CreateRefines(s, w, e.created); }
    } else if pc.Inspects? {
      ObserveRefines(s, w, pc.mode, pc.wanted, e.host,
          CommentPages.InspectFirstComment(e.host, s.intent.limit, Wanted(s.intent, pc.wanted)));
    }
  }

  lemma OtherWorkerRefines(s: World, e: Event, w: nat)
    requires Inv(s) && IsWorkerEvent(e) && e.w in s.workers && w != e.w
    ensures WriteAhead.Follows(ClaimJournal(s, w), ClaimJournal(Apply(s, e), w))
  {
    StepWrites(s, e);
    CountsOthers(s.writes, e.w, w);
    if w in s.workers {
      assert WorkerOk(s, w, s.workers[w]);
      OtherUndisturbed(s, e, w);
      OtherRefines(s, Apply(s, e), w);
    } else {
      assert w !in s.modes && w !in s.writes;
      NoNewClaim(s, e, w);
    }
  }

  lemma NoNewClaim(s: World, e: Event, w: nat)
    requires Inv(s) && IsWorkerEvent(e) && e.w in s.workers && w !in s.workers
    ensures w !in Apply(s, e).modes
  {
    var pc := s.workers[e.w];
    if e.Inspect? {
      if pc.Inspects? {
        InspectingSees(s, e.w, pc.mode, pc.wanted, e.host);
      }
    } else if IsLocal(e) {
      assert Apply(s, e) == Give(s, e.w, Moved(s.row, pc, e));
    }
  }

  /** Every claim writes at most once, and a claim in reconcile mode never does. */
  lemma ClaimWritesAtMostOnce(intent: Intent, schedule: seq<Event>, w: nat)
    ensures var s := Run(Apply, Begin(intent), schedule);
      && multiset(s.writes)[w] <= 1
      && (w in s.writes ==> w in s.modes && s.modes[w] == WriteMode)
  {
    forall t, e {:trigger Apply(t, e)} | Inv(t)
      ensures Inv(Apply(t, e)) && WriteAhead.Follows(ClaimJournal(t, w), ClaimJournal(Apply(t, e), w))
    {
      StepKeepsInv(t, e);
      RefinesJournal(t, e, w);
    }
    WriteAhead.RefinementFiresAtMostOnce(Apply, Inv, s => ClaimJournal(s, w), Begin(intent), schedule);
    ReachableInv(intent, schedule);
  }

  // ----- truthful statuses

  /**
   Until an operator overrules an uncertain result, one write goes out in all; approved, failed, and queued or
   cancelled in write mode mean that no comment was accepted.
   */
  lemma FailedMeansNothingWasAccepted(intent: Intent, schedule: seq<Event>)
    requires !Run(Apply, Begin(intent), schedule).overruled
    ensures var s := Run(Apply, Begin(intent), schedule);
      && |s.writes| <= 1
      && (s.row.status in {Approved, Failed} || (s.row.status in {Queued, Cancelled} && s.row.mode == WriteMode) ==>
          s.comments == map[])
  {
    ReachableInv(intent, schedule);
    var s := Run(Apply, Begin(intent), schedule);
    forall k | 0 <= k < |s.writes| ensures s.writer == Some(s.writes[k]) {
      assert s.writes[k] in s.modes && s.writes[k] in s.workers;
      assert CleanHeld(s, s.writes[k], s.workers[s.writes[k]]);
    }
    assert Nth(s.writes, 0) == Nth(s.writes, 1) || |s.writes| <= 1;
  }

  /** A logged match is what the inspection computes from the pages it read. */
  ghost predicate SeenTruly(s: World, intent: Intent) {
    && s.intent == intent
    && forall w <- s.seen :: TrueSight(intent, s.seen[w])
  }

  ghost predicate TrueSight(intent: Intent, sight: Sight) {
    CommentPages.InspectFirstComment(sight.host, intent.limit, Wanted(intent, sight.wanted)) ==
        CommentPages.Matched(sight.id)
  }

  lemma StepSeesTruly(s: World, e: Event, intent: Intent)
    requires SeenTruly(s, intent)
    ensures SeenTruly(Apply(s, e), intent)
  {
    var t := Apply(s, e);
    if e.Inspect? && e.w in s.workers && s.workers[e.w].Inspects? {
      var observation := CommentPages.InspectFirstComment(e.host, intent.limit, Wanted(intent, s.workers[e.w].wanted));
      ObservingSees(s, e.w, s.workers[e.w].mode, s.workers[e.w].wanted, e.host, observation, intent);
    } else {
      OnlyInspectionsSee(s, e);
    }
  }

  lemma OnlyInspectionsSee(s: World, e: Event)
    requires !e.Inspect? || e.w !in s.workers || !s.workers[e.w].Inspects?
    ensures Apply(s, e).seen == s.seen && Apply(s, e).intent == s.intent
  {
  }

  lemma ObservingSees(s: World, w: nat, mode: Mode, wanted: Option<string>, host: CommentPages.Host,
      observation: CommentPages.Observation, intent: Intent)
    requires SeenTruly(s, intent)
    requires observation == CommentPages.InspectFirstComment(host, intent.limit, Wanted(intent, wanted))
    ensures SeenTruly(Observing(s, w, mode, wanted, host, observation), intent)
  {
  }

  /**
   Worker `w` read the whole comment list from `sight.host`, and the stored id names the only comment in it that
   matches.
   */
  ghost predicate OneMatch(s: World, intent: Intent, w: nat)
  {
    && w in s.seen && s.row.commentId == Some(s.seen[w].id)
    && var read := CommentPages.Reading(s.seen[w].host, intent.limit);
    && read.Some?
    && exists k: nat :: CommentPages.OnlyMatch(s.seen[w].host, Wanted(intent, s.seen[w].wanted), read.value, k)
         && read.value[k].id == s.seen[w].id
  }

  lemma ResolutionIsLogged(s: World) returns (w: nat)
    requires Inv(s) && s.row.status == Succeeded && s.row.proof.Some? && s.row.proof.value.grade != AttestedByOperator
    ensures w in s.seen && s.row.commentId == Some(s.seen[w].id)
    ensures s.row.proof.value.grade == ConfirmedByProvider ==>
      w in s.writes && w in s.comments && s.seen[w].wanted == Some(s.comments[w])
  {
    w :| Resolution(s, w);
  }

  lemma SightHasOneMatch(intent: Intent, sight: Sight)
    requires TrueSight(intent, sight)
    ensures var read := CommentPages.Reading(sight.host, intent.limit);
      && read.Some?
      && exists k: nat :: CommentPages.OnlyMatch(sight.host, Wanted(intent, sight.wanted), read.value, k)
          && read.value[k].id == sight.id
    ensures sight.wanted.Some? && sight.wanted.value != "" ==> sight.id == sight.wanted.value
  {
    CommentPages.MatchedIsUnique(sight.host, intent.limit, Wanted(intent, sight.wanted), sight.id);
  }

  /**
   Success without an operator means one exact match in the list, which is complete under a whole page limit; after a
   write it is the comment that this very claim created and checkpointed.
   */
  lemma SuccessHasOneMatch(intent: Intent, schedule: seq<Event>) returns (w: nat)
    requires var s := Run(Apply, Begin(intent), schedule);
        s.row.status == Succeeded && s.row.proof.Some? && s.row.proof.value.grade != AttestedByOperator
    ensures var s := Run(Apply, Begin(intent), schedule);
      && OneMatch(s, intent, w)
      && (CommentPages.IsWhole(intent.limit) ==> CommentPages.IsComplete(s.seen[w].host, intent.limit))
      && (s.row.proof.value.grade == ConfirmedByProvider ==>
            w in s.writes && w in s.comments && s.seen[w].wanted == Some(s.comments[w])
            && (s.comments[w] != "" ==> s.row.commentId == Some(s.comments[w])))
  {
    var s := Run(Apply, Begin(intent), schedule);
    ReachableInv(intent, schedule);
    w := ResolutionIsLogged(s);
    ReachableSeesTruly(intent, schedule);
    SightHasOneMatch(intent, s.seen[w]);
    if CommentPages.IsWhole(intent.limit) {
      CommentPages.ReadingIsComplete(s.seen[w].host, intent.limit);
    }
  }

  lemma ReachableSeesTruly(intent: Intent, schedule: seq<Event>)
    ensures SeenTruly(Run(Apply, Begin(intent), schedule), intent)
  {
    forall t, e {:trigger Apply(t, e)} | SeenTruly(t, intent) ensures SeenTruly(Apply(t, e), intent) {
      StepSeesTruly(t, e, intent);
    }
    RunKeeps(Apply, t => SeenTruly(t, intent), Begin(intent), schedule);
  }

  // ----- runs that exist

  lemma WriterReachesClaim(intent: Intent, w: nat) returns (s: World)
    ensures Reaches(Apply, Begin(intent), s)
    ensures s == Begin(intent).(row := Row(Queued, 1, WriteMode, None, 0, None, None), workers := map[w := Claims])
  {
    var b := Begin(intent);
    Here(Apply, b);
    s := Onward(Apply, b, b, Start(w));
    assert s.workers == map[w := Reads];
    s := Onward(Apply, b, s, Read(w, Published));
    assert s.workers == map[w := Binds(0)];
    s := Onward(Apply, b, s, Write(w, Answers));
    assert s.workers == map[w := Claims];
  }

  lemma WriterReachesCreate(intent: Intent, w: nat) returns (s: World)
    ensures Reaches(Apply, Begin(intent), s) && s.workers == map[w := Creates] && s.intent == intent
    ensures s.row == Row(Processing, 2, WriteMode, Some(w), LEASE_MS, None, None) && s.clock == 0
    ensures s.writes == [] && s.comments == map[] && s.seen == map[] && s.modes == map[w := WriteMode] && !s.overruled
  {
    var b := Begin(intent);
    s := WriterReachesClaim(intent, w);
    s := Onward(Apply, b, s, TakeClaim(w));
    assert s.workers == map[w := Checks];
    s := Onward(Apply, b, s, Check(w, Supported));
    assert s.workers == map[w := Creates];
  }

  /** The protocol can confirm the comment that it wrote. */
  lemma FirstCommentSucceeds(intent: Intent, w: nat, id: string, host: CommentPages.Host) returns (s: World)
    requires CommentPages.InspectFirstComment(host, intent.limit, Wanted(intent, Some(id))) == CommentPages.Matched(id)
    ensures Reaches(Apply, Begin(intent), s) && s.writes == [w]
    ensures s.row.status == Succeeded && s.row.proof == Some(Proof(ConfirmedByProvider, Some(id)))
  {
    var b := Begin(intent);
    s := WriterReachesCreate(intent, w);
    s := Onward(Apply, b, s, Create(w, Some(id)));
    assert s.workers == map[w := AwaitsCreate(Some(id))];
    s := Onward(Apply, b, s, CreateReturns(w, Created(id)));
    assert s.workers == map[w := Checkpoints(id)];
    s := CheckpointedSucceeds(intent, s, w, id, host);
  }

  lemma CheckpointedSucceeds(intent: Intent, r: World, w: nat, id: string, host: CommentPages.Host) returns (s: World)
    requires Reaches(Apply, Begin(intent), r) && r.intent == intent
    requires CommentPages.InspectFirstComment(host, intent.limit, Wanted(intent, Some(id))) == CommentPages.Matched(id)
    requires w in r.workers && r.workers[w] == Checkpoints(id) && Holds(r.row, w, r.clock)
    ensures Reaches(Apply, Begin(intent), s) && s.writes == r.writes
    ensures s.row.status == Succeeded && s.row.proof == Some(Proof(ConfirmedByProvider, Some(id)))
  {
    var b := Begin(intent);
    s := Onward(Apply, b, r, Write(w, Answers));
    assert s.workers[w] == Inspects(WriteMode, Some(id)) && Holds(s.row, w, s.clock);
    s := MatchedSucceeds(intent, s, w, id, host);
  }

  lemma MatchedSucceeds(intent: Intent, r: World, w: nat, id: string, host: CommentPages.Host) returns (s: World)
    requires Reaches(Apply, Begin(intent), r) && r.intent == intent
    requires CommentPages.InspectFirstComment(host, intent.limit, Wanted(intent, Some(id))) == CommentPages.Matched(id)
    requires w in r.workers && r.workers[w] == Inspects(WriteMode, Some(id)) && Holds(r.row, w, r.clock)
    ensures Reaches(Apply, Begin(intent), s) && s.writes == r.writes
    ensures s.row.status == Succeeded && s.row.proof == Some(Proof(ConfirmedByProvider, Some(id)))
  {
    var b := Begin(intent);
    s := Onward(Apply, b, r, Inspect(w, host));
    assert s == Observing(r, w, WriteMode, Some(id), host, CommentPages.Matched(id));
    s := ResolvedSucceeds(intent, s, w, id);
  }

  lemma ResolvedSucceeds(intent: Intent, r: World, w: nat, id: string) returns (s: World)
    requires Reaches(Apply, Begin(intent), r)
    requires w in r.workers && r.workers[w] == Resolves(WriteMode, id) && Holds(r.row, w, r.clock)
    ensures Reaches(Apply, Begin(intent), s) && s.writes == r.writes
    ensures s.row.status == Succeeded && s.row.proof == Some(Proof(ConfirmedByProvider, Some(id)))
  {
    s := Onward(Apply, Begin(intent), r, Write(w, Answers));
  }

  /** An intent that waits for an inspection can be cancelled after its comment was accepted. */
  lemma CancelledAfterAcceptance(intent: Intent, w: nat) returns (s: World)
    ensures Reaches(Apply, Begin(intent), s) && !s.overruled && s.row.status == Cancelled && s.row.mode == ReconcileMode
    ensures s.comments == map[w := "c"]
  {
    var b := Begin(intent);
    s := WriterReachesCreate(intent, w);
    s := Onward(Apply, b, s, Create(w, Some("c")));
    s := Onward(Apply, b, s, Tick(LEASE_MS));
    s := Onward(Apply, b, s, Recover);
    assert s.row.status == Uncertain;
    s := Onward(Apply, b, s, OperatorReconciles);
    s := Onward(Apply, b, s, OperatorCancels);
  }

  /** Cancelled means in every run that no comment was accepted. */
  ghost predicate CancelledIsTruthful(intent: Intent, mode: Mode) {
    forall schedule :: var s := Run(Apply, Begin(intent), schedule);
      !s.overruled && s.row.status == Cancelled && s.row.mode == mode ==> s.comments == map[]
  }

  /** Until an operator overrules, cancelled is truthful exactly for an intent in write mode. */
  lemma CancelledIsTruthfulIff(intent: Intent, mode: Mode)
    ensures CancelledIsTruthful(intent, mode) <==> mode == WriteMode
  {
    if mode == WriteMode {
      forall schedule | !Run(Apply, Begin(intent), schedule).overruled
        ensures var s := Run(Apply, Begin(intent), schedule);
            s.row.status == Cancelled && s.row.mode == mode ==> s.comments == map[]
      {
        FailedMeansNothingWasAccepted(intent, schedule);
      }
    } else {
      var s := CancelledAfterAcceptance(intent, 0);
      var schedule :| Run(Apply, Begin(intent), schedule) == s;
      assert 0 in s.comments;
    }
  }

  // ----- how long a verdict holds

  /** `t` has new comments only from a writer of `s`, and only a new claim comes before its write. */
  ghost predicate WritesOnly(s: World, t: World) {
    && (forall v <- t.comments :: v in s.comments || (v in s.workers && s.workers[v].Creates?))
    && (forall v <- s.modes ::
        v in t.modes && v in s.workers && v in t.workers && (BeforeWrite(t.workers[v]) ==> BeforeWrite(s.workers[v])))
    && (s.row.status == Cancelled ==> t.row.status == Cancelled && t.modes == s.modes)
  }

  lemma GiveWritesOnly(s: World, w: nat, next: Pc)
    requires LogOk(s) && w in s.workers && (BeforeWrite(next) ==> BeforeWrite(s.workers[w]))
    ensures WritesOnly(s, Give(s, w, next))
  {
  }

  lemma WriteWritesOnly(s: World, w: nat, answer: Answer)
    requires LogOk(s) && w in s.workers && IsWrite(s.workers[w])
    ensures WritesOnly(s, Writing(s, w, s.workers[w], answer))
  {
  }

  lemma ClaimWritesOnly(s: World, w: nat)
    requires LogOk(s) && w in s.workers && s.workers[w].Claims?
    ensures WritesOnly(s, TakingClaim(s, w))
  {
  }

  lemma CreateWritesOnly(s: World, w: nat, created: Option<string>)
    requires LogOk(s) && w in s.workers && s.workers[w].Creates?
    ensures WritesOnly(s, CallingCreate(s, w, created))
  {
  }

  lemma ObserveWritesOnly(s: World, w: nat, mode: Mode, wanted: Option<string>, host: CommentPages.Host,
      observation: CommentPages.Observation)
    requires LogOk(s) && w in s.workers
    ensures WritesOnly(s, Observing(s, w, mode, wanted, host, observation))
  {
  }

  lemma EnvironmentWritesOnly(s: World, e: Event)
    requires LogOk(s) && !IsWorkerEvent(e)
    ensures WritesOnly(s, Apply(s, e))
  {
  }

  lemma StepWritesOnly(s: World, e: Event)
    requires Inv(s)
    ensures WritesOnly(s, Apply(s, e))
  {
    if !IsWorkerEvent(e) {
      EnvironmentWritesOnly(s, e);
    } else if e.w in s.workers {
      var w, pc := e.w, s.workers[e.w];
      if IsLocal(e) {
        MovedIs(s.row, pc, e);
        GiveWritesOnly(s, w, Moved(s.row, pc, e));
      } else if e.Write? {
        if IsWrite(pc) { WriteWritesOnly(s, w, e.answer); }
      } else if e.TakeClaim? {
        if pc.Claims? { ClaimWritesOnly(s, w); }
      } else if e.Create? {
        if pc.Creates? { CreateWritesOnly(s, w, e.created); }
      } else if pc.Inspects? {
        ObserveWritesOnly(s, w, pc.mode, pc.wanted, e.host,
            CommentPages.InspectFirstComment(e.host, s.intent.limit, Wanted(s.intent, pc.wanted)));
      }
    }
  }

  /** None of these claims wrote, and none still may; a cancelled intent has no others. */
  ghost predicate Unwritten(s: World, claims: map<nat, Mode>, cancelled: bool) {
    && Inv(s)
    && (forall v <- claims :: v in s.modes && v !in s.comments && !BeforeWrite(s.workers[v]))
    && (cancelled ==> s.row.status == Cancelled && s.modes == claims)
  }

  lemma UnwrittenStays(s: World, e: Event, claims: map<nat, Mode>, cancelled: bool)
    requires Unwritten(s, claims, cancelled)
    ensures Unwritten(Apply(s, e), claims, cancelled)
  {
    StepKeepsInv(s, e);
    StepWritesOnly(s, e);
  }

  lemma UnwrittenForGood(s: World, claims: map<nat, Mode>, cancelled: bool)
    requires Unwritten(s, claims, cancelled)
    ensures forall schedule :: Unwritten(Run(Apply, s, schedule), claims, cancelled)
  {
    forall u, e {:trigger Apply(u, e)} | Unwritten(u, claims, cancelled) ensures Unwritten(Apply(u, e), claims,
        cancelled) {
      UnwrittenStays(u, e, claims, cancelled);
    }
    forall schedule ensures Unwritten(Run(Apply, s, schedule), claims, cancelled) {
      RunKeeps(Apply, u => Unwritten(u, claims, cancelled), s, schedule);
    }
  }

  lemma Passes(s: World, w: nat) returns (t: World)
    requires w in s.workers && BeforeWrite(s.workers[w])
    ensures Reaches(Apply, s, t) && t == Give(s, w, Creates)
  {
    Here(Apply, s);
    if s.workers[w].Checks? {
      t := Onward(Apply, s, s, Check(w, Supported));
    } else {
      t := s;
      assert s.workers[w := Creates] == s.workers;
    }
  }

  lemma LateWrite(s: World, w: nat)
    requires w in s.workers && BeforeWrite(s.workers[w])
    ensures exists schedule :: w in Run(Apply, s, schedule).comments
  {
    var t := Passes(s, w);
    t := Onward(Apply, s, t, Create(w, Some("c")));
    var schedule :| Run(Apply, s, schedule) == t;
  }

  /** No comment was accepted, and no worker stands at or before its write. */
  ghost predicate NothingWritten(s: World) {
    s.comments == map[] && forall w <- s.workers :: !BeforeWrite(s.workers[w])
  }

  /** No claim that existed when the operator decided ever turns out to have written. */
  ghost predicate VerdictHolds(s: World, claims: map<nat, Mode>) {
    forall schedule, w :: w in claims ==> w !in Run(Apply, s, schedule).comments
  }

  /**
   An operator's verdict "not sent" holds for good exactly when nothing was written and nobody stands before a write.
   */
  lemma VerdictHoldsIff(s: World)
    requires Inv(s) && s.row.status == Uncertain
    ensures VerdictHolds(Apply(s, OperatorConfirmsNotSent), s.modes) <==> NothingWritten(s)
  {
    var t := Apply(s, OperatorConfirmsNotSent);
    StepKeepsInv(s, OperatorConfirmsNotSent);
    if NothingWritten(s) {
      UnwrittenForGood(t, s.modes, false);
    } else if w :| w in s.comments {
      assert w in s.modes && w in Run(Apply, t, []).comments;
    } else {
      var w :| w in s.workers && BeforeWrite(s.workers[w]);
      assert WorkerOk(s, w, s.workers[w]);
      LateWrite(t, w);
    }
  }

  ghost predicate NeverWritten(s: World) {
    forall schedule :: Run(Apply, s, schedule).comments == map[]
  }

  /** And so does a cancellation. */
  lemma CancelHoldsIff(s: World)
    requires Inv(s) && s.row.status in {Approved, Queued}
    ensures NeverWritten(Apply(s, OperatorCancels)) <==> NothingWritten(s)
  {
    var t := Apply(s, OperatorCancels);
    StepKeepsInv(s, OperatorCancels);
    if NothingWritten(s) {
      UnwrittenForGood(t, s.modes, true);
      forall schedule ensures Run(Apply, t, schedule).comments == map[] {
        var u := Run(Apply, t, schedule);
        assert Unwritten(u, s.modes, true);
        assert forall v <- u.comments :: v in u.modes;
      }
    } else if w :| w in s.comments {
      assert Run(Apply, t, []).comments == s.comments;
    } else {
      var w :| w in s.workers && BeforeWrite(s.workers[w]);
      LateWrite(t, w);
      var schedule :| w in Run(Apply, t, schedule).comments;
    }
  }

  /** What a caller can check: under a truthful status that no operator overruled, no claim so far ever writes. */
  lemma TruthfulStatusesLast(intent: Intent, schedule: seq<Event>)
    requires var s := Run(Apply, Begin(intent), schedule);
      && !s.overruled
      && (s.row.status in {Approved, Failed} || (s.row.status in {Queued, Cancelled} && s.row.mode == WriteMode))
    ensures var s := Run(Apply, Begin(intent), schedule); VerdictHolds(s, s.modes)
  {
    ReachableInv(intent, schedule);
    var s := Run(Apply, Begin(intent), schedule);
    FailedMeansNothingWasAccepted(intent, schedule);
    forall w <- s.modes ensures !BeforeWrite(s.workers[w]) {
      assert WorkerOk(s, w, s.workers[w]);
    }
    UnwrittenForGood(s, s.modes, false);
  }
}
