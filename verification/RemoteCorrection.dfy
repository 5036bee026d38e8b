/**
 The remote correction of a published post under any number of interleaved workers. Claims are judged by each
 worker's own clock, compare-and-set by the store's clock; the two need not agree.
 */
module RemoteCorrection {
  import opened Runs
  import WriteAhead

  datatype Status =
    | PendingApproval | Approved | PreWrite | Finalizing | ProviderConfirmed | Reconciled
    | ManualActionRequired | OperatorConfirmed | Uncertain | Rejected

  datatype Grade = ConfirmedByProvider | ReadBack | Attested

  datatype Lease = Lease(claim: nat, expires: int)

  /** One stored correction. */
  datatype Row = Row(status: Status, lease: Option<Lease>, proof: Option<Grade>)

  const LEASE_MS := 300_000

  predicate KeepsClaim(status: Status) {
    status in {PreWrite, Finalizing, Uncertain}
  }

  predicate Holds(row: Row, claim: nat, now: int) {
    row.lease.Some? && row.lease.value.claim == claim && now < row.lease.value.expires
  }

  /** Lease the operation for one kind of run; `now` is the worker's clock. */
  function Claiming(row: Row, claim: nat, reconcile: bool, now: int): Option<Row> {
    if row.lease.Some? && row.lease.value.expires > now then None
    else if row.status in (if reconcile then {Finalizing, Uncertain} else {Approved, PreWrite})
    then Some(row.(lease := Some(Lease(claim, now + LEASE_MS))))
    else None
  }

  /** Write a status over an expected one; workers also need their claim. */
  function CompareAndSet(row: Row, next: Status, expected: Status, claim: Option<nat>, now: int): Option<Row> {
    if row.status != expected || (claim.Some? && !Holds(row, claim.value, now)) then None
    else Some(row.(status := next, lease := if KeepsClaim(next) then row.lease else None))
  }

  function Resolved(grade: Grade): Status {
    match grade
    case ConfirmedByProvider => ProviderConfirmed
    case ReadBack => Reconciled
    case Attested => OperatorConfirmed
  }

  /** Resolve and append the proof in one step. */
  function ResolveWithProof(row: Row, expected: Status, grade: Grade, claim: nat, now: int): Option<Row> {
    if row.status != expected || (grade != Attested && !Holds(row, claim, now)) || row.proof.Some? then None
    else Some(Row(Resolved(grade), None, Some(grade)))
  }

  /** The in-memory store: three maps that are updated in place. */
  class CorrectionRepository {
    var statuses: map<nat, Status>
    var leases: map<nat, Lease>
    var proofs: map<nat, Grade>

    constructor ()
    {
      statuses, leases, proofs := map[], map[], map[];
    }

    ghost function Stored(id: nat): Option<Row>
      reads this
    {
      if id !in statuses then None
      else Some(Row(statuses[id],
        if id in leases then Some(leases[id]) else None, if id in proofs then Some(proofs[id]) else None))
    }

    twostate predicate OthersUnchanged(id: nat)
      reads this
    {
      && statuses - {id} == old(statuses) - {id}
      && leases - {id} == old(leases) - {id}
      && proofs - {id} == old(proofs) - {id}
    }

    method Claim(id: nat, claim: nat, reconcile: bool, now: int) returns (claimed: Option<Status>)
      modifies this
      ensures OthersUnchanged(id)
      ensures claimed.Some? <==> old(Stored(id)).Some? && Claiming(old(Stored(id)).value, claim, reconcile, now).Some?
      ensures claimed.Some? ==>
          claimed.value == old(statuses)[id] && Stored(id) == Claiming(old(Stored(id)).value, claim, reconcile, now)
      ensures claimed.None? ==> Stored(id) == old(Stored(id))
    {
      if id !in statuses || (id in leases && leases[id].expires > now) { return None; }
      if !reconcile && statuses[id] != Approved && statuses[id] != PreWrite { return None; }
      if reconcile && statuses[id] != Finalizing && statuses[id] != Uncertain { return None; }
      leases := leases[id := Lease(claim, now + LEASE_MS)];
      return Some(statuses[id]);
    }

    method CompareAndSetStatus(id: nat, next: Status, expected: Status, claim: Option<nat>, now: int)
        returns (changed: bool)
      modifies this
      ensures OthersUnchanged(id)
      ensures changed <==>
          old(Stored(id)).Some? && CompareAndSet(old(Stored(id)).value, next, expected, claim, now).Some?
      ensures Stored(id) == if changed then
          CompareAndSet(old(Stored(id)).value, next, expected, claim, now) else old(Stored(id))
    {
      if id !in statuses || statuses[id] != expected { return false; }
      if claim.Some? && (id !in leases || leases[id].claim != claim.value || leases[id].expires <= now) {
        return false;
      }
      statuses := statuses[id := next];
      if !KeepsClaim(next) { leases := leases - {id}; }
      return true;
    }

    method Resolve(id: nat, expected: Status, grade: Grade, claim: nat, now: int) returns (resolved: bool)
      modifies this
      ensures OthersUnchanged(id)
      ensures resolved <==>
          old(Stored(id)).Some? && ResolveWithProof(old(Stored(id)).value, expected, grade, claim, now).Some?
      ensures Stored(id) == if resolved then
          ResolveWithProof(old(Stored(id)).value, expected, grade, claim, now) else old(Stored(id))
    {
      if id !in statuses || statuses[id] != expected { return false; }
      if grade != Attested && (id !in leases || leases[id].claim != claim || leases[id].expires <= now) {
        return false;
      }
      if id in proofs { return false; }
      proofs := proofs[id := grade];
      statuses := statuses[id := Resolved(grade)];
      leases := leases - {id};
      return true;
    }
  }

  // ----- the workers

  datatype Outcome = Confirmed | Manual | Refused | Unclear | ExecuteThrows

  datatype Observation = Matches | Differs | ObserveThrows

  datatype Pc =
    | Reads(reconcileJob: bool)
    | Claims(reconcile: bool)
    | WritesPreWrite
    | WritesFinalizing
    | Executes
    | AwaitsOutcome
    | Resolves
    | Writes(next: Status, caught: bool)   // the outcome, over finalizing; `caught` once a handler has caught an error
    | Observes(claimed: Status)
    | ResolvesReadBack(claimed: Status)
    | WritesManual(claimed: Status, caught: bool)
    | Stopped

  /** What a store write meets: it answers, or it throws after or before it was applied. */
  datatype Answer = Answers | Throws(applied: bool)

  datatype Event =
    | Approve(manualRemove: bool)
    | Attest
    | Tick(ms: nat)
    | Start(w: nat, reconcileJob: bool)
    | Read(w: nat)
    | Claim(w: nat, workerClock: int)
    | Write(w: nat, answer: Answer)
    | Execute(w: nat, before: bool)
    | ExecuteReturns(w: nat, outcome: Outcome)
    | ObserveReturns(w: nat, observation: Observation)
    | Crash(w: nat)

  /** `finalizer` is the worker that made the intent durable; the sets log what the provider told whom. */
  datatype World = World(
    row: Row, clock: int, workers: map<nat, Pc>, finalizer: Option<nat>,
    mutations: seq<nat>, confirmed: set<nat>, matched: set<nat>, readers: set<nat>)

  const START := World(Row(PendingApproval, None, None), 0, map[], None, [], {}, {}, {})

  function Give(s: World, w: nat, pc: Pc): World {
    s.(workers := s.workers[w := pc])
  }

  /** The row that a worker's pending write asks for, if the store accepts it. */
  function Written(s: World, w: nat, pc: Pc): Option<Row> {
    match pc
    case WritesPreWrite => CompareAndSet(s.row, PreWrite, Approved, Some(w), s.clock)
    case WritesFinalizing => CompareAndSet(s.row, Finalizing, PreWrite, Some(w), s.clock)
    case Resolves => ResolveWithProof(s.row, Finalizing, ConfirmedByProvider, w, s.clock)
    case Writes(next, _) => CompareAndSet(s.row, next, Finalizing, Some(w), s.clock)
    case ResolvesReadBack(claimed) => ResolveWithProof(s.row, claimed, ReadBack, w, s.clock)
    case WritesManual(claimed, _) => CompareAndSet(s.row, ManualActionRequired, claimed, Some(w), s.clock)
    case _ => None
  }

  function Store(s: World, w: nat, pc: Pc): World {
    var row := Written(s, w, pc);
    if row.None? then s
    else s.(row := row.value, finalizer := if pc.WritesFinalizing? then Some(w) else s.finalizer)
  }

  /** After the store answered. */
  function Answered(pc: Pc, accepted: bool): Pc {
    match pc
    case WritesPreWrite => if accepted then WritesFinalizing else Stopped
    case WritesFinalizing => if accepted then Executes else Stopped
    case _ => Stopped
  }

  /** After the store threw: only the handlers around the provider calls catch it. */
  function Thrown(pc: Pc): Pc {
    match pc
    case Resolves => Writes(Uncertain, true)
    case Writes(_, false) => Writes(Uncertain, true)
    case ResolvesReadBack(claimed) => WritesManual(claimed, true)
    case WritesManual(claimed, false) => WritesManual(claimed, true)
    case _ => Stopped
  }

  function AfterOutcome(outcome: Outcome): Pc {
    match outcome
    case Confirmed => Resolves
    case Manual => Writes(ManualActionRequired, false)
    case Refused => Writes(Rejected, false)
    case Unclear => Writes(Uncertain, false)
    case ExecuteThrows => Writes(Uncertain, true)
  }

  function Changed(s: World, row: Option<Row>): World {
    if row.Some? then s.(row := row.value) else s
  }

  function Apply(s: World, e: Event): World {
    if e.Tick? then s.(clock := s.clock + e.ms)
    else if e.Approve? then
      Changed(s, CompareAndSet(s.row, if e.manualRemove then ManualActionRequired else Approved, PendingApproval, None,
          s.clock))
    else if e.Attest? then Changed(s, ResolveWithProof(s.row, ManualActionRequired, Attested, 0, s.clock))
    else if e.w !in s.workers then (if e.Start? then Give(s, e.w, Reads(e.reconcileJob)) else s)
    else if e.Start? then s
    else Step(s, e, e.w, s.workers[e.w])
  }

  predicate IsWorkerEvent(e: Event) {
    !e.Approve? && !e.Attest? && !e.Tick? && !e.Start?
  }

  function TakingClaim(s: World, w: nat, reconcile: bool, workerClock: int): World {
    var row := Claiming(s.row, w, reconcile, workerClock);
    if row.None? then Give(s, w, Stopped)
    else if reconcile then Give(s.(row := row.value, readers := s.readers + {w}), w, Observes(s.row.status))
    else Give(s.(row := row.value), w, if s.row.status == Approved then WritesPreWrite else WritesFinalizing)
  }

  function Writing(s: World, w: nat, pc: Pc, answer: Answer): World {
    match answer
    case Answers => Give(Store(s, w, pc), w, Answered(pc, Written(s, w, pc).Some?))
    case Throws(applied) => Give(if applied then Store(s, w, pc) else s, w, Thrown(pc))
  }

  function Observing(s: World, w: nat, claimed: Status, observation: Observation): World {
    match observation
    case Matches => Give(s.(matched := s.matched + {w}), w, ResolvesReadBack(claimed))
    case Differs => Give(s, w, WritesManual(claimed, false))
    case ObserveThrows => Give(s, w, WritesManual(claimed, true))
  }

  function Sending(s: World, w: nat, before: bool): World {
    if before then Give(s.(mutations := s.mutations + [w]), w, AwaitsOutcome) else Give(s, w, Writes(Uncertain, true))
  }

  function Returning(s: World, w: nat, outcome: Outcome): World {
    Give(if outcome.Confirmed? then s.(confirmed := s.confirmed + {w}) else s, w, AfterOutcome(outcome))
  }

  function Reading(s: World, w: nat, reconcileJob: bool): World {
    Give(s, w, Claims(reconcileJob || s.row.status in {Finalizing, Uncertain}))
  }

  function Step(s: World, e: Event, w: nat, pc: Pc): World
    requires IsWorkerEvent(e)
  {
    if e.Crash? then Give(s, w, Stopped)
    else if e.Read? then (if pc.Reads? then Reading(s, w, pc.reconcileJob) else s)
    else if e.Claim? then (if pc.Claims? then TakingClaim(s, w, pc.reconcile, e.workerClock) else s)
    else if e.Write? then (if IsWrite(pc) then Writing(s, w, pc, e.answer) else s)
    else if e.Execute? then (if pc.Executes? then Sending(s, w, e.before) else s)
    else if e.ExecuteReturns? then (if pc.AwaitsOutcome? then Returning(s, w, e.outcome) else s)
    else if pc.Observes? then Observing(s, w, pc.claimed, e.observation)
    else s
  }

  predicate IsWrite(pc: Pc) {
    pc.WritesPreWrite? || pc.WritesFinalizing? || pc.Resolves? || pc.Writes? || pc.ResolvesReadBack? || pc.WritesManual?
  }

  // ----- invariants

  predicate BeforeIntent(status: Status) {
    status in {PendingApproval, Approved, PreWrite}
  }

  predicate Reconciling(pc: Pc) {
    pc.Observes? || pc.ResolvesReadBack? || pc.WritesManual?
  }

  predicate Executing(pc: Pc) {
    pc.WritesPreWrite? || pc.WritesFinalizing? || pc.Executes? || pc.AwaitsOutcome? || pc.Resolves? || pc.Writes?
  }

  ghost predicate WorkerOk(s: World, w: nat, pc: Pc) {
    && (pc.Executes? ==> s.finalizer == Some(w) && s.mutations == [])
    && (pc.AwaitsOutcome? ==> w in s.mutations)
    && (pc.Resolves? ==> w in s.confirmed)
    && (pc.ResolvesReadBack? ==> w in s.matched)
    && (pc.Writes? ==>
        pc.next in {ManualActionRequired, Rejected, Uncertain} && (pc.next == Rejected ==> w in s.mutations))
    && (Reconciling(pc) ==> pc.claimed in {Finalizing, Uncertain} && w in s.readers)
    && (Executing(pc) ==> w !in s.readers)
    && (pc.Executes? && s.row.lease.Some? && s.row.lease.value.claim == w ==> s.row.status == Finalizing)
    && (pc.Reads? || pc.Claims? ==>
        w !in s.readers && w !in s.mutations && (s.row.lease.Some? ==> s.row.lease.value.claim != w))
  }

  ghost predicate ProofOk(s: World) {
    && (s.row.proof.Some? <==> s.row.status in {ProviderConfirmed, Reconciled, OperatorConfirmed})
    && (s.row.proof.Some? ==> s.row.status == Resolved(s.row.proof.value))
    && (s.row.proof == Some(ConfirmedByProvider) ==> s.confirmed != {})
    && (s.row.proof == Some(ReadBack) ==> s.matched != {})
    && (s.row.status == Rejected ==> s.mutations != [])
  }

  ghost predicate StoreOk(s: World) {
    && (BeforeIntent(s.row.status) ==> s.finalizer.None?)
    && (s.row.status in {Finalizing, ProviderConfirmed, Reconciled, Uncertain, Rejected} ==> s.finalizer.Some?)
    && (s.finalizer.None? ==> s.mutations == [])
    && |s.mutations| <= 1
    && (s.row.lease.Some? ==> s.row.lease.value.claim in s.workers)
    && (forall w <- s.mutations :: w in s.workers && w !in s.readers)
    && (forall w <- s.readers :: w in s.workers)
    && (forall w <- s.confirmed :: w in s.mutations)
    && s.matched <= s.readers
    && ProofOk(s)
  }

  ghost predicate Inv(s: World) {
    StoreOk(s) && forall w <- s.workers :: WorkerOk(s, w, s.workers[w])
  }

  // ----- writes

  /** The record after an accepted write, without saying which store operation made it. */
  predicate Successor(s: World, pc: Pc, row: Row) {
    && (row.lease == s.row.lease || row.lease.None?)
    && (pc.WritesPreWrite? ==> s.row.status == Approved && row.status == PreWrite && row.proof == s.row.proof)
    && (pc.WritesFinalizing? ==> s.row.status == PreWrite && row.status == Finalizing && row.proof == s.row.proof)
    && (pc.Resolves? ==> s.row.status == Finalizing && row == Row(ProviderConfirmed, None, Some(ConfirmedByProvider)))
    && (pc.Writes? ==> s.row.status == Finalizing && row.status == pc.next && row.proof == s.row.proof)
    && (pc.ResolvesReadBack? ==> s.row.status == pc.claimed && row == Row(Reconciled, None, Some(ReadBack)))
    && (pc.WritesManual? ==>
        s.row.status == pc.claimed && row.status == ManualActionRequired && row.proof == s.row.proof)
  }

  lemma WrittenSucceeds(s: World, w: nat, pc: Pc)
    requires IsWrite(pc) && Written(s, w, pc).Some?
    ensures Successor(s, pc, Written(s, w, pc).value)
  {
  }

  function Stored(s: World, w: nat, pc: Pc, row: Row): World {
    s.(row := row, finalizer := if pc.WritesFinalizing? then Some(w) else s.finalizer)
  }

  lemma SuccessorKeepsStore(s: World, w: nat, pc: Pc, row: Row)
    requires StoreOk(s) && w in s.workers && IsWrite(pc) && WorkerOk(s, w, pc) && Successor(s, pc, row)
    ensures StoreOk(Stored(s, w, pc, row))
  {
  }

  lemma SuccessorKeepsWriter(s: World, w: nat, pc: Pc, row: Row, next: Pc)
    requires StoreOk(s) && IsWrite(pc) && WorkerOk(s, w, pc) && Successor(s, pc, row)
    requires next in {Answered(pc, true), Thrown(pc)}
    ensures WorkerOk(Stored(s, w, pc, row), w, next)
  {
  }

  lemma RefusedKeepsWriter(s: World, w: nat, pc: Pc)
    requires IsWrite(pc) && WorkerOk(s, w, pc)
    ensures WorkerOk(s, w, Answered(pc, false)) && WorkerOk(s, w, Thrown(pc))
  {
  }

  /** A worker that moves on leaves the record and the log alone. */
  lemma GiveKeeps(s: World, w: nat, next: Pc)
    requires StoreOk(s) && WorkerOk(s, w, next)
    ensures StoreOk(Give(s, w, next)) && WorkerOk(Give(s, w, next), w, next)
  {
  }

  lemma WriteKeeps(s: World, w: nat, answer: Answer)
    requires StoreOk(s) && w in s.workers && IsWrite(s.workers[w]) && WorkerOk(s, w, s.workers[w])
    ensures var t := Writing(s, w, s.workers[w], answer); StoreOk(t) && w in t.workers && WorkerOk(t, w, t.workers[w])
  {
    var pc := s.workers[w];
    var written := Written(s, w, pc);
    var next := if answer.Answers? then Answered(pc, written.Some?) else Thrown(pc);
    if written.Some? && (answer.Answers? || answer.applied) {
      WrittenSucceeds(s, w, pc);
      SuccessorKeepsStore(s, w, pc, written.value);
      SuccessorKeepsWriter(s, w, pc, written.value, next);
      GiveKeeps(Stored(s, w, pc, written.value), w, next);
    } else {
      RefusedKeepsWriter(s, w, pc);
      GiveKeeps(s, w, next);
    }
  }

  // ----- the other steps

  lemma ClaimKeeps(s: World, w: nat, workerClock: int)
    requires StoreOk(s) && w in s.workers && s.workers[w].Claims? && WorkerOk(s, w, s.workers[w])
    ensures var t := TakingClaim(s, w, s.workers[w].reconcile, workerClock);
        StoreOk(t) && w in t.workers && WorkerOk(t, w, t.workers[w])
  {
  }

  lemma SendKeeps(s: World, w: nat, before: bool)
    requires StoreOk(s) && w in s.workers && s.workers[w].Executes? && WorkerOk(s, w, s.workers[w])
    ensures var t := Sending(s, w, before); StoreOk(t) && w in t.workers && WorkerOk(t, w, t.workers[w])
  {
  }

  lemma ReturnKeeps(s: World, w: nat, outcome: Outcome)
    requires StoreOk(s) && w in s.workers && s.workers[w].AwaitsOutcome? && WorkerOk(s, w, s.workers[w])
    ensures var t := Returning(s, w, outcome); StoreOk(t) && w in t.workers && WorkerOk(t, w, t.workers[w])
  {
  }

  lemma ObserveKeeps(s: World, w: nat, observation: Observation)
    requires StoreOk(s) && w in s.workers && s.workers[w].Observes? && WorkerOk(s, w, s.workers[w])
    ensures var t := Observing(s, w, s.workers[w].claimed, observation);
        StoreOk(t) && w in t.workers && WorkerOk(t, w, t.workers[w])
  {
  }

  lemma EnvironmentKeeps(s: World, e: Event)
    requires StoreOk(s) && !IsWorkerEvent(e)
    ensures StoreOk(Apply(s, e))
  {
  }

  lemma ActorKeeps(s: World, e: Event)
    requires Inv(s) && IsWorkerEvent(e) && e.w in s.workers
    ensures var t := Apply(s, e); StoreOk(t) && e.w in t.workers && WorkerOk(t, e.w, t.workers[e.w])
  {
    var w, pc := e.w, s.workers[e.w];
    assert WorkerOk(s, w, pc);
    if e.Crash? {
      GiveKeeps(s, w, Stopped);
    } else if e.Read? {
      if pc.Reads? { GiveKeeps(s, w, Claims(pc.reconcileJob || s.row.status in {Finalizing, Uncertain})); }
    } else if e.Claim? {
      if pc.Claims? { ClaimKeeps(s, w, e.workerClock); }
    } else if e.Write? {
      if IsWrite(pc) { WriteKeeps(s, w, e.answer); }
    } else if e.Execute? {
      if pc.Executes? { SendKeeps(s, w, e.before); }
    } else if e.ExecuteReturns? {
      if pc.AwaitsOutcome? { ReturnKeeps(s, w, e.outcome); }
    } else if pc.Observes? {
      ObserveKeeps(s, w, e.observation);
    }
  }

  // ----- the other workers

  /** What an event leaves of the world, as another worker `v` sees it. */
  predicate Undisturbed(s: World, t: World, v: nat) {
    && (v in t.mutations <==> v in s.mutations) && (v in t.readers <==> v in s.readers)
    && s.confirmed <= t.confirmed && s.matched <= t.matched
    && (s.finalizer == Some(v) && s.mutations == [] ==> t.finalizer == s.finalizer && t.mutations == [])
    && (t.row.lease.Some? && t.row.lease.value.claim == v ==>
          s.row.lease.Some? && s.row.lease.value.claim == v
              && (s.row.status == Finalizing && s.finalizer == Some(v) ==> t.row.status in {Finalizing}))
  }

  lemma UndisturbedKeeps(s: World, t: World, v: nat)
    requires v in s.workers && WorkerOk(s, v, s.workers[v]) && Undisturbed(s, t, v)
    ensures WorkerOk(t, v, s.workers[v])
  {
  }

  /** Only the holder of the claim writes, so that the record stands for a worker that holds it. */
  lemma HolderWrites(s: World, w: nat, pc: Pc)
    requires IsWrite(pc) && Written(s, w, pc).Some?
    ensures Holds(s.row, w, s.clock)
  {
  }

  lemma WriteLeaves(s: World, w: nat, answer: Answer, v: nat)
    requires StoreOk(s) && w in s.workers && v in s.workers && v != w && IsWrite(s.workers[w])
    ensures var t := Writing(s, w, s.workers[w], answer);
        Undisturbed(s, t, v) && v in t.workers && t.workers[v] == s.workers[v]
  {
    var pc := s.workers[w];
    if Written(s, w, pc).Some? {
      WrittenSucceeds(s, w, pc);
      HolderWrites(s, w, pc);
    }
  }

  lemma ClaimLeaves(s: World, w: nat, reconcile: bool, workerClock: int, v: nat)
    requires v in s.workers && v != w
    ensures var t := TakingClaim(s, w, reconcile, workerClock);
        Undisturbed(s, t, v) && v in t.workers && t.workers[v] == s.workers[v]
  {
  }

  lemma RestLeaves(s: World, e: Event, v: nat)
    requires Inv(s) && (IsWorkerEvent(e) ==> e.w in s.workers && v != e.w && !e.Write? && !e.Claim?) && v in s.workers
    ensures var t := Apply(s, e); Undisturbed(s, t, v) && v in t.workers && t.workers[v] == s.workers[v]
  {
    if e.Execute? {
      assert WorkerOk(s, e.w, s.workers[e.w]);
    }
  }

  lemma OthersKeep(s: World, e: Event, v: nat)
    requires Inv(s) && (IsWorkerEvent(e) ==> e.w in s.workers && v != e.w) && v in s.workers
    ensures var t := Apply(s, e); v in t.workers && t.workers[v] == s.workers[v] && WorkerOk(t, v, s.workers[v])
  {
    if e.Write? {
      if IsWrite(s.workers[e.w]) { WriteLeaves(s, e.w, e.answer, v); }
    } else if e.Claim? {
      if s.workers[e.w].Claims? { ClaimLeaves(s, e.w, s.workers[e.w].reconcile, e.workerClock, v); }
    } else {
      RestLeaves(s, e, v);
    }
    UndisturbedKeeps(s, Apply(s, e), v);
  }

  lemma StepAddsNoWorker(s: World, e: Event, v: nat)
    requires IsWorkerEvent(e) && e.w in s.workers && v !in s.workers
    ensures v !in Apply(s, e).workers
  {
  }

  lemma StepKeepsInv(s: World, e: Event)
    requires Inv(s)
    ensures Inv(Apply(s, e))
  {
    var t := Apply(s, e);
    if !IsWorkerEvent(e) {
      EnvironmentKeeps(s, e);
      forall v <- t.workers ensures WorkerOk(t, v, t.workers[v]) {
        if v in s.workers {
          OthersKeep(s, e, v);
        }
      }
    } else if e.w in s.workers {
      ActorKeeps(s, e);
      forall v <- t.workers ensures WorkerOk(t, v, t.workers[v]) {
        if v !in s.workers {
          StepAddsNoWorker(s, e, v);
        } else if v != e.w {
          OthersKeep(s, e, v);
        }
      }
    } else {
      assert t == s;
    }
  }

  // ----- refinement of the write-ahead journal

  function MutationJournal(s: World): WriteAhead.Journal {
    WriteAhead.Journal(
      if s.finalizer.None? then WriteAhead.Unrecorded
      else if s.row.status == Finalizing then WriteAhead.Recorded else WriteAhead.Settled,
      s.finalizer.Some? && s.finalizer.value in s.workers && s.workers[s.finalizer.value].Executes?,
      |s.mutations|)
  }

  lemma WriteRefines(s: World, w: nat, answer: Answer)
    requires StoreOk(s) && w in s.workers && IsWrite(s.workers[w]) && WorkerOk(s, w, s.workers[w])
    ensures WriteAhead.Follows(MutationJournal(s), MutationJournal(Writing(s, w, s.workers[w], answer)))
  {
    var pc := s.workers[w];
    if Written(s, w, pc).Some? {
      WrittenSucceeds(s, w, pc);
    }
  }

  lemma ClaimRefines(s: World, w: nat, reconcile: bool, workerClock: int)
    requires w in s.workers && s.workers[w].Claims?
    ensures MutationJournal(TakingClaim(s, w, reconcile, workerClock)) == MutationJournal(s)
  {
  }

  lemma RestRefines(s: World, e: Event)
    requires Inv(s) && !e.Write? && !e.Claim?
    ensures WriteAhead.Follows(MutationJournal(s), MutationJournal(Apply(s, e)))
  {
    if IsWorkerEvent(e) && e.w in s.workers {
      assert WorkerOk(s, e.w, s.workers[e.w]);
    }
  }

  lemma RefinesJournal(s: World, e: Event)
    requires Inv(s)
    ensures WriteAhead.Follows(MutationJournal(s), MutationJournal(Apply(s, e)))
  {
    if !e.Write? && !e.Claim? {
      RestRefines(s, e);
    } else if e.w in s.workers {
      var w, pc := e.w, s.workers[e.w];
      assert WorkerOk(s, w, pc);
      if e.Write? {
        if IsWrite(pc) { WriteRefines(s, w, e.answer); }
      } else if pc.Claims? {
        ClaimRefines(s, w, pc.reconcile, e.workerClock);
      }
    }
  }

  // ----- what holds over every schedule

  lemma ReachableInv(schedule: seq<Event>)
    ensures Inv(Run(Apply, START, schedule))
  {
    forall t, e {:trigger Apply(t, e)} | Inv(t) ensures Inv(Apply(t, e)) {
      StepKeepsInv(t, e);
    }
    RunKeeps(Apply, Inv, START, schedule);
  }

  /**
   The provider is asked to change the post at most once, whatever jobs, clocks and expired claims interleave, and never
   by a reconcile run.
   */
  lemma MutatesAtMostOnce(schedule: seq<Event>)
    ensures var s := Run(Apply, START, schedule); |s.mutations| <= 1 && forall w <- s.mutations :: w !in s.readers
  {
    ReachableInv(schedule);
    forall t, e {:trigger Apply(t, e)} | Inv(t)
      ensures Inv(Apply(t, e)) && WriteAhead.Follows(MutationJournal(t), MutationJournal(Apply(t, e)))
    {
      StepKeepsInv(t, e);
      RefinesJournal(t, e);
    }
    WriteAhead.RefinementFiresAtMostOnce(Apply, Inv, MutationJournal, START, schedule);
  }

  /**
   A proof exists exactly for the resolved statuses, carries the matching grade, and rests on a confirmed outcome or a
   matching read-back.
   */
  lemma ProofRestsOnEvidence(schedule: seq<Event>)
    ensures var s := Run(Apply, START, schedule);
      && (s.row.status == ProviderConfirmed <==> s.row.proof == Some(ConfirmedByProvider))
      && (s.row.status == Reconciled <==> s.row.proof == Some(ReadBack))
      && (s.row.status == OperatorConfirmed <==> s.row.proof == Some(Attested))
      && (s.row.proof == Some(ConfirmedByProvider) ==> exists w :: s.mutations == [w] && w in s.confirmed)
      && (s.row.proof == Some(ReadBack) ==> exists w :: w in s.matched && w in s.readers)
  {
    ReachableInv(schedule);
    var s := Run(Apply, START, schedule);
    assert ProofOk(s);
    if s.row.proof == Some(ConfirmedByProvider) {
      var w :| w in s.confirmed;
      assert s.mutations == [w];
    }
    if s.row.proof == Some(ReadBack) {
      var w :| w in s.matched;
    }
  }

  ghost predicate NeverBack(s: World, t: World) {
    && (!BeforeIntent(s.row.status) ==> !BeforeIntent(t.row.status))
    && (s.row.proof.Some? ==> t.row.proof == s.row.proof && t.row.status == s.row.status)
  }

  /** No schedule leads back before the intent, and a proof is never replaced. */
  lemma IntentAndProofStay(schedule: seq<Event>, more: seq<Event>)
    ensures NeverBack(Run(Apply, START, schedule), Run(Apply, Run(Apply, START, schedule), more))
  {
    ReachableInv(schedule);
    forall t, e {:trigger Apply(t, e)} | Inv(t) ensures Inv(Apply(t, e)) && NeverBack(t, Apply(t, e)) {
      StepKeepsInv(t, e);
      StepNeverBack(t, e);
    }
    RunRelates(Apply, Inv, NeverBack, Run(Apply, START, schedule), more);
  }

  lemma StepNeverBack(s: World, e: Event)
    requires Inv(s)
    ensures NeverBack(s, Apply(s, e))
  {
  }

  // ----- a mutation after the verdict

  ghost predicate MayStillMutate(s: World) {
    exists schedule :: |Run(Apply, s, schedule).mutations| > |s.mutations|
  }

  ghost predicate Spent(s: World, sent: nat) {
    Inv(s) && !BeforeIntent(s.row.status) && |s.mutations| == sent && forall w <- s.workers :: !s.workers[w].Executes?
  }

  /**
   Once the intent is durable, a mutation can still go out exactly when the worker that recorded it has yet to send it,
   whatever verdict is stored by then.
   */
  lemma LateMutationIff(s: World)
    requires Inv(s) && !BeforeIntent(s.row.status)
    ensures MayStillMutate(s) <==> exists w :: w in s.workers && s.workers[w].Executes?
  {
    if w :| w in s.workers && s.workers[w].Executes? {
      assert Run(Apply, s, [Execute(w, true)]) == Apply(s, Execute(w, true));
    } else {
      forall t, e {:trigger Apply(t, e)} | Spent(t, |s.mutations|) ensures Spent(Apply(t, e), |s.mutations|) {
        SpentStays(t, e, |s.mutations|);
      }
      forall schedule ensures |Run(Apply, s, schedule).mutations| == |s.mutations| {
        RunKeeps(Apply, t => Spent(t, |s.mutations|), s, schedule);
      }
    }
  }

  lemma SpentStays(s: World, e: Event, sent: nat)
    requires Spent(s, sent)
    ensures Spent(Apply(s, e), sent)
  {
    StepKeepsInv(s, e);
    StepNeverBack(s, e);
  }

  /** What a caller can check: once the provider confirmed or refused, no mutation goes out any more. */
  lemma ProviderVerdictsLast(s: World)
    requires Inv(s) && s.row.status in {ProviderConfirmed, Rejected}
    ensures !MayStillMutate(s)
  {
    if s.row.status == ProviderConfirmed {
      var w :| w in s.confirmed;
      assert w in s.mutations;
    }
    forall w | w in s.workers ensures !s.workers[w].Executes? {
      assert WorkerOk(s, w, s.workers[w]);
    }
    LateMutationIff(s);
  }

  /** A worker that still holds the claim sends under the status finalizing. */
  lemma ClaimHolderSendsUnderFinalizing(schedule: seq<Event>, w: nat)
    requires var s := Run(Apply, START, schedule); w in s.workers && s.workers[w].Executes? && Holds(s.row, w, s.clock)
    ensures Run(Apply, START, schedule).row.status == Finalizing
  {
    ReachableInv(schedule);
  }

  lemma IntentBecomesDurable(w: nat) returns (s: World)
    ensures Reaches(Apply, START, s)
    ensures s == World(Row(Finalizing, Some(Lease(w, LEASE_MS)), None), 0, map[w := Executes], Some(w), [], {}, {}, {})
  {
    Here(Apply, START);
    s := Onward(Apply, START, START, Approve(false));
    s := Onward(Apply, START, s, Start(w, false));
    s := Onward(Apply, START, s, Read(w));
    assert s.workers == map[w := Claims(false)];
    s := Onward(Apply, START, s, Claim(w, 0));
    assert s.workers == map[w := WritesPreWrite];
    s := Onward(Apply, START, s, Write(w, Answers));
    assert s.workers == map[w := WritesFinalizing];
    s := Onward(Apply, START, s, Write(w, Answers));
    assert s.workers == map[w := Executes];
  }

  /**
   The claim can expire under the sender: its mutation then lands after a reconcile run has asked for manual action.
   */
  lemma MutationAfterManualVerdict() returns (s: World)
    ensures Reaches(Apply, START, s) && s.row.status == ManualActionRequired && s.mutations == [0]
  {
    s := IntentBecomesDurable(0);
    s := ReaderClaims(s);
    s := ReaderGivesUp(s);
    s := Onward(Apply, START, s, Execute(0, true));
  }

  lemma ReaderClaims(r: World) returns (s: World)
    requires Reaches(Apply, START, r)
    requires r == World(Row(Finalizing, Some(Lease(0, LEASE_MS)), None), 0, map[0 := Executes], Some(0), [], {}, {}, {})
    ensures Reaches(Apply, START, s) && s.mutations == [] && s.clock == 0
    ensures s.row == Row(Finalizing, Some(Lease(1, 2 * LEASE_MS)), None)
    ensures 0 in s.workers && 1 in s.workers && s.workers[0] == Executes && s.workers[1] == Observes(Finalizing)
  {
    s := Onward(Apply, START, r, Start(1, true));
    s := Onward(Apply, START, s, Read(1));
    assert s.workers[1] == Claims(true);
    s := Onward(Apply, START, s, Claim(1, LEASE_MS));
  }

  lemma ReaderGivesUp(r: World) returns (s: World)
    requires Reaches(Apply, START, r) && r.mutations == [] && r.clock == 0
    requires r.row == Row(Finalizing, Some(Lease(1, 2 * LEASE_MS)), None)
    requires 0 in r.workers && 1 in r.workers && r.workers[0] == Executes && r.workers[1] == Observes(Finalizing)
    ensures Reaches(Apply, START, s) && s.row.status == ManualActionRequired && s.mutations == []
    ensures 0 in s.workers && s.workers[0] == Executes
  {
    s := Onward(Apply, START, r, ObserveReturns(1, Differs));
    assert s.workers[1] == WritesManual(Finalizing, false);
    s := Onward(Apply, START, s, Write(1, Answers));
  }

  /** The protocol can confirm a correction. */
  lemma CorrectionSucceeds(w: nat) returns (s: World)
    ensures Reaches(Apply, START, s) && s.row == Row(ProviderConfirmed, None, Some(ConfirmedByProvider))
        && s.mutations == [w]
  {
    s := IntentBecomesDurable(w);
    s := Onward(Apply, START, s, Execute(w, true));
    s := Onward(Apply, START, s, ExecuteReturns(w, Confirmed));
    assert s.workers[w] == Resolves;
    s := Onward(Apply, START, s, Write(w, Answers));
  }
}
