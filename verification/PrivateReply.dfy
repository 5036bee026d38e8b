/**
 The private reply under any number of interleaved workers: version compare-and-set, a fenced lease per claim,
 evidence checkpointed before it is confirmed, lease recovery, and an operator who may reconcile.
 */
module PrivateReply {
  import opened Runs
  import WriteAhead

  datatype Status = Queued | Processing | Succeeded | Failed | Uncertain | Cancelled | Expired

  const LEASE_MS := 120_000

  /** The provider's message key, its acceptance time and the digest of its response. */
  datatype Evidence = Evidence(key: Option<nat>, acceptedAt: Option<int>, digest: Option<nat>)

  const NO_EVIDENCE := Evidence(None, None, None)

  /** `owner` names a claim: a worker together with the fence that it took. */
  datatype Owner = Owner(worker: nat, fence: nat)

  datatype Row = Row(
    status: Status, version: nat, fence: nat, owner: Option<Owner>, expires: int, evidence: Evidence, body: nat)

  predicate MayMove(from: Status, to: Status) {
    match from
    case Queued => to in {Failed, Expired, Cancelled}
    case Processing => to in {Succeeded, Failed, Uncertain, Expired}
    case Uncertain => to in {Succeeded, Failed}
    case Failed => to == Cancelled
    case Expired => to == Cancelled
    case _ => false
  }

  function Claiming(row: Row, version: nat, worker: nat, now: int): Option<Row> {
    if row.status != Queued || row.version != version then None
    else Some(row.(status := Processing, version := row.version + 1, fence := row.fence + 1,
                   owner := Some(Owner(worker, row.fence + 1)), expires := now + LEASE_MS))
  }

  function Merge(given: Evidence, stored: Evidence): Evidence {
    Evidence(
      if given.key.Some? then given.key else stored.key,
      if given.acceptedAt.Some? then given.acceptedAt else stored.acceptedAt,
      if given.digest.Some? then given.digest else stored.digest)
  }

  function Transition(row: Row, version: nat, to: Status, owner: Option<Owner>, given: Evidence,
      now: int): Option<Row> {
    if row.status == Processing && (owner != row.owner || row.expires <= now) then None
    else if row.version != version || !MayMove(row.status, to) then None
    else if to == Succeeded && (given.key.None? || given.acceptedAt.None?) then None
    else Some(row.(status := to, version := row.version + 1, owner := None, expires := 0,
        evidence := Merge(given, row.evidence)))
  }

  function Recovering(row: Row, now: int): Option<Row> {
    if row.status != Processing || now < row.expires then None
    else Some(row.(status := Uncertain, version := row.version + 1, fence := row.fence + 1, owner := None,
        expires := 0))
  }

  // ----- the connector's answers

  datatype EligibilityState = Eligible | Ineligible | Unknown
  datatype Reason = WindowClosed | ConversationClosed | OtherReason
  datatype Eligibility = Eligibility(state: EligibilityState, reason: Option<Reason>, expiresAt: Option<int>)

  /** None when the reply may be sent; otherwise the status to record. */
  function Verdict(e: Eligibility, now: int): Option<Status> {
    if e.state == Eligible && e.expiresAt.Some? && now < e.expiresAt.value then None
    else if e.expiresAt.Some? && e.expiresAt.value <= now then Some(Expired)
    else if e.reason in {Some(WindowClosed), Some(ConversationClosed)} || e.state == Ineligible then Some(Expired)
    else Some(Failed)
  }

  /**
   An absent key is a blank one, an absent time an invalid one, an absent digest a response that does not serialise.
   */
  datatype Reply =
    | Rejected(windowClosed: bool)
    | Throws(certain: bool)
    | Accepted(recipientMatches: bool, evidence: Evidence)

  /**
   An honest connector: rejections and certain failures mean that nothing was delivered, acceptance that something was.
   */
  predicate Honest(reply: Reply, delivered: bool) {
    match reply
    case Rejected(_) => !delivered
    case Throws(certain) => certain ==> !delivered
    case Accepted(_, _) => delivered
  }

  // ----- the workers

  datatype Claim = Claim(owner: Owner, version: nat, body: nat)

  datatype Pc =
    | Reads
    | Claims(version: nat)
    | Inspects(claim: Claim)
    | Sends(claim: Claim)
    | AwaitsSend(claim: Claim, delivered: bool)
    | Moves(claim: Claim, to: Status, given: Evidence)
    | Checkpoints(claim: Claim, sent: Evidence)
    | Rereads(claim: Claim, sent: Evidence)
    | Adopts(claim: Claim, version: nat, owner: Option<Owner>, sent: Evidence)
    | Probes(claim: Claim, version: nat, sent: Evidence)
    | Succeeds(claim: Claim, version: nat, sent: Evidence)
    | Stopped

  datatype Answer = Answers | WriteThrows(applied: bool)

  datatype Event =
    | Start(w: nat)
    | Read(w: nat)
    | TakeClaim(w: nat)
    | Inspect(w: nat, eligibility: Eligibility, now: int)
    | Send(w: nat, delivers: bool)
    | SendReturns(w: nat, reply: Reply)
    | Write(w: nat, answer: Answer)
    | Reread(w: nat, fails: bool)
    | Probe(w: nat, confirms: bool)
    | Crash(w: nat)
    | Recover
    | Tick(ms: nat)
    | OperatorConfirmsSent
    | OperatorConfirmsNotSent
    | OperatorRevises(body: nat)   // and approves the revision
    | OperatorCancels

  /**
   The log: `claims` maps a fence to its claimer, `sends` and `deliveries` list the fences of the sends, and `bodies`
   what they carried.
   */
  datatype World = World(
    row: Row, clock: int, probing: bool, workers: map<nat, Pc>,
    claimant: Option<nat>, claims: map<nat, nat>, sends: seq<nat>, deliveries: seq<nat>, bodies: set<nat>,
    accepted: set<Evidence>, probed: set<Evidence>, confirmedSent: bool, overruled: bool)

  function Begin(probing: bool, body: nat): World {
    World(Row(Queued, 0, 0, None, 0, NO_EVIDENCE, body), 0, probing, map[],
          None, map[], [], [], {}, {}, {}, false, false)
  }

  function Give(s: World, w: nat, pc: Pc): World {
    s.(workers := s.workers[w := pc])
  }

  function Written(s: World, pc: Pc): Option<Row> {
    match pc
    case Moves(c, to, given) => Transition(s.row, c.version, to, Some(c.owner), given, s.clock)
    case Checkpoints(c, sent) => Transition(s.row, c.version, Uncertain, Some(c.owner), sent, s.clock)
    case Adopts(_, version, owner, sent) => Transition(s.row, version, Uncertain, owner, sent, s.clock)
    case Succeeds(_, version, sent) => Transition(s.row, version, Succeeded, None, sent, s.clock)
    case _ => None
  }

  predicate IsWrite(pc: Pc) {
    pc.Moves? || pc.Checkpoints? || pc.Adopts? || pc.Succeeds?
  }

  function Store(s: World, pc: Pc): World {
    var row := Written(s, pc);
    if row.Some? then s.(row := row.value) else s
  }

  /** After a write: a conflict is thrown like any other failure, and only the checkpoint is followed up. */
  function AfterWrite(pc: Pc, saved: Option<Row>): Pc {
    match pc
    case Checkpoints(c, sent) => if saved.Some? then Probes(c, saved.value.version, sent) else Rereads(c, sent)
    case Adopts(c, _, _, sent) => if saved.Some? then Probes(c, saved.value.version, sent) else Stopped
    case _ => Stopped
  }

  function AfterReply(claim: Claim, reply: Reply): Pc {
    match reply
    case Rejected(windowClosed) => Moves(claim, if windowClosed then Expired else Failed, NO_EVIDENCE)
    case Throws(certain) => Moves(claim, if certain then Failed else Uncertain, NO_EVIDENCE)
    case Accepted(recipientMatches, evidence) =>
      if evidence.digest.None? then Moves(claim, Uncertain, NO_EVIDENCE)
      else if !recipientMatches || evidence.key.None? || evidence.acceptedAt.None?
      then Moves(claim, Uncertain, Evidence(None, None, evidence.digest))
      else Checkpoints(claim, evidence)
  }

  function AfterReread(claim: Claim, sent: Evidence, row: Row): Pc {
    if row.status == Uncertain && row.evidence == sent then Probes(claim, row.version, sent)
    else if row.status == Processing then Adopts(claim, row.version, row.owner, sent)
    else Stopped
  }

  function Sending(s: World, c: Claim, delivers: bool): World {
    var called := s.(sends := s.sends + [c.owner.fence]);
    if delivers then called.(deliveries := s.deliveries + [c.owner.fence], bodies := s.bodies + {c.body}) else called
  }

  function ConfirmingSent(s: World): World {
    var row := Transition(s.row, s.row.version, Succeeded, None, s.row.evidence, s.clock);
    if s.row.status == Uncertain && row.Some? then s.(row := row.value, confirmedSent := true) else s
  }

  function ConfirmingNotSent(s: World): World {
    var row := Transition(s.row, s.row.version, Failed, None, NO_EVIDENCE, s.clock);
    if s.row.status == Uncertain && row.Some? then s.(row := row.value, overruled := true) else s
  }

  function Revising(s: World, body: nat): World {
    if s.row.status in {Failed, Expired}
    then s.(row := s.row.(status := Queued, version := s.row.version + 2, evidence := NO_EVIDENCE, body := body))
    else s
  }

  function Cancelling(s: World): World {
    if s.row.status in {Queued, Failed, Expired} then
        s.(row := s.row.(status := Cancelled, version := s.row.version + 1)) else s
  }

  function Recovered(s: World): World {
    var row := Recovering(s.row, s.clock);
    if row.Some? then s.(row := row.value) else s
  }

  function Apply(s: World, e: Event): World {
    if e.Tick? then s.(clock := s.clock + e.ms)
    else if e.Recover? then Recovered(s)
    else if e.OperatorConfirmsSent? then ConfirmingSent(s)
    else if e.OperatorConfirmsNotSent? then ConfirmingNotSent(s)
    else if e.OperatorRevises? then Revising(s, e.body)
    else if e.OperatorCancels? then Cancelling(s)
    else if e.w !in s.workers then (if e.Start? then Give(s, e.w, Reads) else s)
    else if e.Start? then s
    else Step(s, e, e.w, s.workers[e.w])
  }

  predicate IsWorkerEvent(e: Event) {
    !e.Start? && !e.Recover? && !e.Tick? && !e.OperatorConfirmsSent? && !e.OperatorConfirmsNotSent?
    && !e.OperatorRevises? && !e.OperatorCancels?
  }

  function TakingClaim(s: World, w: nat, version: nat): World {
    var row := Claiming(s.row, version, w, s.clock);
    if row.None? then Give(s, w, Stopped)
    else
      Give(s.(row := row.value, claimant := Some(w), claims := s.claims[row.value.fence := w]), w,
           Inspects(Claim(Owner(w, row.value.fence), row.value.version, row.value.body)))
  }

  function AfterInspect(claim: Claim, eligibility: Eligibility, now: int): Pc {
    var verdict := Verdict(eligibility, now);
    if verdict.None? then Sends(claim) else Moves(claim, verdict.value, NO_EVIDENCE)
  }

  function Returning(s: World, w: nat, claim: Claim, reply: Reply): World {
    var next := AfterReply(claim, reply);
    Give(if next.Checkpoints? then s.(accepted := s.accepted + {next.sent}) else s, w, next)
  }

  function Probing(s: World, w: nat, pc: Pc, confirms: bool): World
    requires pc.Probes?
  {
    if !s.probing then Give(s, w, Succeeds(pc.claim, pc.version, pc.sent))
    else if confirms then Give(s.(probed := s.probed + {pc.sent}), w, Succeeds(pc.claim, pc.version, pc.sent))
    else Give(s, w, Stopped)
  }

  /** The world after a write of worker `w`: its row is written or not, and the worker moves on. */
  function Wrote(s: World, w: nat, pc: Pc, applied: bool, next: Pc): World {
    Give(if applied then Store(s, pc) else s, w, next)
  }

  function Writing(s: World, w: nat, pc: Pc, answer: Answer): World {
    match answer
    case Answers => Wrote(s, w, pc, true, AfterWrite(pc, Written(s, pc)))
    case WriteThrows(applied) => Wrote(s, w, pc, applied, AfterWrite(pc, None))
  }

  /** Events that only move their worker on. */
  predicate IsLocal(e: Event) {
    e.Crash? || e.Read? || e.Inspect? || e.Reread?
  }

  function Moved(row: Row, pc: Pc, e: Event): Pc
    requires IsLocal(e)
  {
    if e.Crash? then Stopped
    else if e.Read? then (if !pc.Reads? then pc else if row.status == Queued then Claims(row.version) else Stopped)
    else if e.Inspect? then (if pc.Inspects? then AfterInspect(pc.claim, e.eligibility, e.now) else pc)
    else if !pc.Rereads? then pc
    else if e.fails then Stopped
    else AfterReread(pc.claim, pc.sent, row)
  }

  function Dispatching(s: World, w: nat, claim: Claim, delivers: bool): World {
    Give(Sending(s, claim, delivers), w, AwaitsSend(claim, delivers))
  }

  function Step(s: World, e: Event, w: nat, pc: Pc): World
    requires IsWorkerEvent(e)
  {
    if IsLocal(e) then Give(s, w, Moved(s.row, pc, e))
    else if e.Write? then (if IsWrite(pc) then Writing(s, w, pc, e.answer) else s)
    else if e.TakeClaim? then (if pc.Claims? then TakingClaim(s, w, pc.version) else s)
    else if e.Send? then (if pc.Sends? then Dispatching(s, w, pc.claim, e.delivers) else s)
    else if e.SendReturns? then
      (if pc.AwaitsSend? && Honest(e.reply, pc.delivered) then Returning(s, w, pc.claim, e.reply) else s)
    else if pc.Probes? then Probing(s, w, pc, e.confirms)
    else s
  }

  // ----- invariants

  predicate BeforeSend(pc: Pc) {
    pc.Inspects? || pc.Sends?
  }

  predicate Claimed(pc: Pc) {
    !pc.Reads? && !pc.Claims? && !pc.Stopped?
  }

  predicate Complete(e: Evidence) {
    e.key.Some? && e.acceptedAt.Some? && e.digest.Some?
  }

  predicate WasAccepted(s: World, e: Evidence) {
    Complete(e) && e in s.accepted
  }

  predicate HoldsEvidence(pc: Pc) {
    pc.Checkpoints? || pc.Rereads? || pc.Adopts? || pc.Probes? || pc.Succeeds?
  }

  // Evidence: what a record or a worker holds was accepted by the provider.

  predicate EvidenceStored(s: World) {
    && (s.row.status in {Queued, Processing} ==> s.row.evidence == NO_EVIDENCE)
    && (s.row.evidence.key.Some? || s.row.evidence.acceptedAt.Some? ==> WasAccepted(s, s.row.evidence))
    && (s.row.status == Succeeded ==> Complete(s.row.evidence))
    && (s.row.status == Succeeded && s.probing && !s.confirmedSent ==> s.row.evidence in s.probed)
  }

  predicate EvidenceHeld(s: World, pc: Pc) {
    && (HoldsEvidence(pc) ==> WasAccepted(s, pc.sent))
    && (pc.Succeeds? && s.probing ==> pc.sent in s.probed)
    && (pc.Moves? ==> pc.to in {Failed, Uncertain, Expired} && pc.given.key.None? && pc.given.acceptedAt.None?)
  }

  // Fences: every claim has its own fence, and sends at most once.

  ghost predicate FencesStored(s: World) {
    && (s.row.status == Processing <==> s.row.owner.Some?)
    && (s.row.owner.Some? ==>
          s.row.owner.value.fence == s.row.fence && s.row.fence in s.claims
              && s.claims[s.row.fence] == s.row.owner.value.worker)
    && (forall f <- s.claims :: f <= s.row.fence && s.claims[f] in s.workers && HasClaimed(s.workers[s.claims[f]]))
    && (forall f <- s.sends :: f in s.claims)
    && (forall f <- s.deliveries :: f in s.claims)
    && (forall i, j :: 0 <= i < j < |s.sends| ==> s.sends[i] != s.sends[j])
  }

  predicate HasClaimed(pc: Pc) {
    !pc.Reads? && !pc.Claims?
  }

  predicate FenceHeld(s: World, w: nat, pc: Pc) {
    Claimed(pc) ==>
      && pc.claim.owner.worker == w
      && pc.claim.owner.fence in s.claims && s.claims[pc.claim.owner.fence] == w
      && (BeforeSend(pc) ==> pc.claim.owner.fence !in s.sends)
      && pc.claim.version <= s.row.version
      && (pc.claim.version == s.row.version ==> s.row.status == Processing && s.row.owner == Some(pc.claim.owner))
  }

  // Cleanliness: until an operator overrules an uncertain result, at most one worker is at work and the statuses are
  // truthful.

  predicate CleanStored(s: World) {
    !s.overruled ==>
      && (s.row.status in {Queued, Failed, Expired, Cancelled} ==> s.deliveries == [] && Idle(s))
      && (s.claimant.Some? ==> s.claimant.value in s.workers && HasClaimed(s.workers[s.claimant.value]))
      && |s.deliveries| <= 1
      && (s.deliveries == [] ==> s.bodies == {} && s.accepted == {})
      && (s.deliveries != [] ==> s.bodies == {s.row.body})
  }

  predicate Idle(s: World) {
    s.claimant.Some? ==> s.claimant.value in s.workers && !Claimed(s.workers[s.claimant.value])
  }

  predicate CleanHeld(s: World, w: nat, pc: Pc) {
    !s.overruled && Claimed(pc) ==>
      && s.claimant == Some(w)
      && s.row.status in {Processing, Uncertain, Succeeded}
      && (s.row.status == Processing ==> s.row.owner == Some(pc.claim.owner) && s.row.version == pc.claim.version)
      && s.row.body == pc.claim.body
      && (BeforeSend(pc) || pc.AwaitsSend? || pc.Moves? ==> s.accepted == {} && s.row.status != Succeeded)
      && (BeforeSend(pc) ==> s.deliveries == [])
      && (pc.AwaitsSend? ==> (s.deliveries != [] <==> pc.delivered))
      && (pc.Moves? && pc.to in {Failed, Expired} ==> s.deliveries == [])
  }

  ghost predicate WorkerOk(s: World, w: nat, pc: Pc) {
    EvidenceHeld(s, pc) && FenceHeld(s, w, pc) && CleanHeld(s, w, pc)
  }

  ghost predicate StoreOk(s: World) {
    EvidenceStored(s) && FencesStored(s) && CleanStored(s)
  }

  ghost predicate Inv(s: World) {
    StoreOk(s) && forall w <- s.workers :: WorkerOk(s, w, s.workers[w])
  }

  // ----- the record and the log

  /** A worker that moves on without touching the record. */
  lemma GiveKeepsStore(s: World, w: nat, next: Pc)
    requires StoreOk(s) && w in s.workers && (HasClaimed(s.workers[w]) ==> HasClaimed(next))
    requires Claimed(next) ==> Claimed(s.workers[w])
    ensures StoreOk(Give(s, w, next))
  {
  }

  lemma ConfirmationKeepsStore(s: World)
    requires StoreOk(s)
    ensures StoreOk(ConfirmingSent(s))
  {
  }

  lemma OverrulingKeepsStore(s: World)
    requires StoreOk(s)
    ensures StoreOk(ConfirmingNotSent(s))
  {
  }

  lemma RevisionKeepsStore(s: World, body: nat)
    requires StoreOk(s)
    ensures StoreOk(Revising(s, body))
  {
  }

  lemma CancellationKeepsStore(s: World)
    requires StoreOk(s)
    ensures StoreOk(Cancelling(s))
  {
  }

  lemma RecoveryKeepsStore(s: World, ms: nat)
    requires StoreOk(s)
    ensures StoreOk(Recovered(s)) && StoreOk(s.(clock := s.clock + ms))
  {
  }

  lemma StartKeepsStore(s: World, w: nat)
    requires StoreOk(s) && w !in s.workers
    ensures StoreOk(Give(s, w, Reads))
  {
  }

  lemma EnvironmentKeeps(s: World, e: Event)
    requires StoreOk(s) && !IsWorkerEvent(e)
    ensures StoreOk(Apply(s, e))
  {
    if e.Start? {
      if e.w !in s.workers { StartKeepsStore(s, e.w); }
    } else if e.OperatorRevises? {
      RevisionKeepsStore(s, e.body);
    } else if e.Tick? {
      RecoveryKeepsStore(s, e.ms);
    } else {
      RecoveryKeepsStore(s, 0);
      ConfirmationKeepsStore(s);
      OverrulingKeepsStore(s);
      CancellationKeepsStore(s);
    }
  }

  // ----- writes

  /** The record after an accepted write, without saying which transition made it. */
  predicate Successor(s: World, pc: Pc, row: Row)
    requires IsWrite(pc)
  {
    && row == s.row.(status := row.status, version := s.row.version + 1, owner := None, expires := 0,
        evidence := row.evidence)
    && (pc.Moves? ==>
        row.status == pc.to && s.row.status == Processing && row.evidence == Evidence(None, None, pc.given.digest))
    && (!pc.Moves? ==> row.status == (if pc.Succeeds? then Succeeded else Uncertain) && row.evidence == pc.sent)
    && (pc.Succeeds? ==> s.row.status == Uncertain)
    && (pc.Checkpoints? || pc.Adopts? ==> s.row.status == Processing)
  }

  lemma WrittenSucceeds(s: World, w: nat, pc: Pc)
    requires EvidenceStored(s) && (s.row.status == Processing <==> s.row.owner.Some?)
    requires EvidenceHeld(s, pc) && FenceHeld(s, w, pc) && IsWrite(pc) && Written(s, pc).Some?
    ensures Successor(s, pc, Written(s, pc).value)
  {
  }

  lemma SuccessorKeepsStore(s: World, w: nat, pc: Pc, row: Row, next: Pc)
    requires StoreOk(s) && WorkerOk(s, w, pc) && w in s.workers && s.workers[w] == pc && IsWrite(pc)
        && Successor(s, pc, row)
    requires HasClaimed(next) && (pc.Moves? ==> !Claimed(next))
    ensures StoreOk(Give(s.(row := row), w, next))
  {
  }

  lemma SuccessorKeepsActor(s: World, w: nat, pc: Pc, row: Row, next: Pc)
    requires WorkerOk(s, w, pc) && IsWrite(pc) && Successor(s, pc, row)
    requires next in {AfterWrite(pc, None), AfterWrite(pc, Some(row))}
    ensures WorkerOk(Give(s.(row := row), w, next), w, next)
  {
  }

  lemma RefusedKeepsActor(s: World, w: nat, pc: Pc)
    requires WorkerOk(s, w, pc) && IsWrite(pc)
    ensures WorkerOk(Give(s, w, AfterWrite(pc, None)), w, AfterWrite(pc, None))
  {
  }

  lemma WriteKeeps(s: World, w: nat, answer: Answer)
    requires StoreOk(s) && w in s.workers && WorkerOk(s, w, s.workers[w]) && IsWrite(s.workers[w])
    ensures var t := Writing(s, w, s.workers[w], answer); StoreOk(t) && w in t.workers && WorkerOk(t, w, t.workers[w])
  {
    var pc := s.workers[w];
    var written := Written(s, pc);
    var next := if answer.Answers? then AfterWrite(pc, written) else AfterWrite(pc, None);
    if written.Some? && (answer.Answers? || answer.applied) {
      WrittenSucceeds(s, w, pc);
      SuccessorKeepsStore(s, w, pc, written.value, next);
      SuccessorKeepsActor(s, w, pc, written.value, next);
    } else {
      GiveKeepsStore(s, w, next);
      RefusedKeepsActor(s, w, pc);
    }
  }

  // ----- claims and calls

  lemma NewClaimKeepsStore(s: World, w: nat, version: nat)
    requires StoreOk(s) && w in s.workers && s.workers[w].Claims? && Claiming(s.row, version, w, s.clock).Some?
    ensures StoreOk(TakingClaim(s, w, version))
  {
  }

  lemma ClaimKeeps(s: World, w: nat)
    requires StoreOk(s) && w in s.workers && s.workers[w].Claims?
    ensures var t := TakingClaim(s, w, s.workers[w].version);
        StoreOk(t) && w in t.workers && WorkerOk(t, w, t.workers[w])
  {
    if Claiming(s.row, s.workers[w].version, w, s.clock).Some? {
      NewClaimKeepsStore(s, w, s.workers[w].version);
      NewClaimKeepsActor(s, w, s.workers[w].version);
    } else {
      GiveKeepsStore(s, w, Stopped);
    }
  }

  lemma NewClaimKeepsActor(s: World, w: nat, version: nat)
    requires StoreOk(s) && w in s.workers && s.workers[w].Claims? && Claiming(s.row, version, w, s.clock).Some?
    ensures var t := TakingClaim(s, w, version); w in t.workers && WorkerOk(t, w, t.workers[w])
  {
  }

  lemma DispatchKeeps(s: World, w: nat, delivers: bool)
    requires StoreOk(s) && w in s.workers && WorkerOk(s, w, s.workers[w]) && s.workers[w].Sends?
    ensures var t := Dispatching(s, w, s.workers[w].claim, delivers);
        StoreOk(t) && w in t.workers && WorkerOk(t, w, t.workers[w])
  {
  }

  lemma ReturnKeeps(s: World, w: nat, reply: Reply)
    requires StoreOk(s) && w in s.workers && WorkerOk(s, w, s.workers[w])
    requires s.workers[w].AwaitsSend? && Honest(reply, s.workers[w].delivered)
    ensures var t := Returning(s, w, s.workers[w].claim, reply);
        StoreOk(t) && w in t.workers && WorkerOk(t, w, t.workers[w])
  {
    var next := AfterReply(s.workers[w].claim, reply);
    var t := if next.Checkpoints? then s.(accepted := s.accepted + {next.sent}) else s;
    assert StoreOk(t);
    GiveKeepsStore(t, w, next);
  }

  lemma ProbeKeeps(s: World, w: nat, confirms: bool)
    requires StoreOk(s) && w in s.workers && WorkerOk(s, w, s.workers[w]) && s.workers[w].Probes?
    ensures var t := Probing(s, w, s.workers[w], confirms); StoreOk(t) && w in t.workers && WorkerOk(t, w, t.workers[w])
  {
    var pc := s.workers[w];
    GiveKeepsStore(s, w, Stopped);
    GiveKeepsStore(s, w, Succeeds(pc.claim, pc.version, pc.sent));
    GiveKeepsStore(s.(probed := s.probed + {pc.sent}), w, Succeeds(pc.claim, pc.version, pc.sent));
  }

  lemma MovedIs(row: Row, pc: Pc, e: Event)
    requires IsLocal(e)
    ensures var next := Moved(row, pc, e);
      && (HasClaimed(pc) ==> HasClaimed(next)) && (Claimed(next) ==> Claimed(pc) && next.claim == pc.claim)
      && (BeforeSend(next) ==> BeforeSend(pc))
  {
  }

  lemma MovedKeepsWorker(s: World, w: nat, pc: Pc, e: Event)
    requires IsLocal(e) && WorkerOk(s, w, pc)
    ensures WorkerOk(s, w, Moved(s.row, pc, e))
  {
  }

  lemma LocalKeeps(s: World, w: nat, e: Event)
    requires StoreOk(s) && w in s.workers && WorkerOk(s, w, s.workers[w]) && IsLocal(e)
    ensures var t := Give(s, w, Moved(s.row, s.workers[w], e));
        StoreOk(t) && w in t.workers && WorkerOk(t, w, t.workers[w])
  {
    var next := Moved(s.row, s.workers[w], e);
    MovedIs(s.row, s.workers[w], e);
    MovedKeepsWorker(s, w, s.workers[w], e);
    GiveKeepsStore(s, w, next);
    assert WorkerOk(Give(s, w, next), w, next);
  }

  lemma ActorKeeps(s: World, e: Event)
    requires Inv(s) && IsWorkerEvent(e) && e.w in s.workers
    ensures var t := Apply(s, e); StoreOk(t) && e.w in t.workers && WorkerOk(t, e.w, t.workers[e.w])
  {
    var w, pc := e.w, s.workers[e.w];
    if IsLocal(e) {
      LocalKeeps(s, w, e);
    } else if e.Write? {
      if IsWrite(pc) { WriteKeeps(s, w, e.answer); }
    } else if e.TakeClaim? {
      if pc.Claims? { ClaimKeeps(s, w); }
    } else if e.Send? {
      if pc.Sends? { DispatchKeeps(s, w, e.delivers); }
    } else if e.SendReturns? {
      if pc.AwaitsSend? && Honest(e.reply, pc.delivered) { ReturnKeeps(s, w, e.reply); }
    } else if pc.Probes? {
      ProbeKeeps(s, w, e.confirms);
    }
  }

  // ----- the other workers

  /** What an event leaves of the world, as another worker `v` sees it. */
  predicate Undisturbed(s: World, t: World, v: nat) {
    && t.probing == s.probing && s.accepted <= t.accepted && s.probed <= t.probed
    && (forall f <- s.claims :: f in t.claims && t.claims[f] == s.claims[f])
    && (forall f <- s.claims :: s.claims[f] == v && f in t.sends ==> f in s.sends)
    && (t.row == s.row || t.row.version > s.row.version)
    && (s.overruled ==> t.overruled)
    && (v in s.workers && Claimed(s.workers[v]) && !t.overruled ==>
          && t.claimant == s.claimant && t.deliveries == s.deliveries && t.accepted == s.accepted
          && (t.row == s.row || UndecidedStill(s.row, t.row)))
  }

  /** A record that was recovered, or confirmed by an operator. */
  predicate UndecidedStill(before: Row, after: Row) {
    && after.body == before.body && after.version > before.version
    && ((before.status == Processing && after.status == Uncertain && after.evidence == before.evidence)
        || (before.status == Uncertain && after.status == Succeeded && before.evidence.key.Some?))
  }

  lemma UndisturbedKeeps(s: World, t: World, v: nat)
    requires v in s.workers && WorkerOk(s, v, s.workers[v]) && EvidenceStored(s) && Undisturbed(s, t, v)
    ensures WorkerOk(t, v, s.workers[v])
  {
  }

  lemma OperatorLeaves(s: World, v: nat)
    requires EvidenceStored(s) && v in s.workers && WorkerOk(s, v, s.workers[v])
    ensures Undisturbed(s, ConfirmingSent(s), v) && Undisturbed(s, ConfirmingNotSent(s), v)
  {
  }

  lemma RevisionLeaves(s: World, body: nat, v: nat)
    requires v in s.workers && WorkerOk(s, v, s.workers[v])
    ensures Undisturbed(s, Revising(s, body), v) && Undisturbed(s, Cancelling(s), v)
  {
  }

  lemma RecoveryLeaves(s: World, v: nat)
    ensures Undisturbed(s, Recovered(s), v)
  {
  }

  lemma EnvironmentLeaves(s: World, e: Event, v: nat)
    requires EvidenceStored(s) && !IsWorkerEvent(e) && v in s.workers && WorkerOk(s, v, s.workers[v])
    ensures var t := Apply(s, e); Undisturbed(s, t, v) && v in t.workers && t.workers[v] == s.workers[v]
  {
    if e.OperatorConfirmsSent? || e.OperatorConfirmsNotSent? {
      OperatorLeaves(s, v);
    } else if e.OperatorRevises? {
      RevisionLeaves(s, e.body, v);
    } else if e.OperatorCancels? {
      RevisionLeaves(s, 0, v);
    } else if e.Recover? {
      RecoveryLeaves(s, v);
    }
  }

  lemma GiveLeaves(s: World, w: nat, next: Pc, v: nat)
    requires v in s.workers && v != w
    ensures var t := Give(s, w, next); Undisturbed(s, t, v) && v in t.workers && t.workers[v] == s.workers[v]
  {
  }

  /** Two workers with a claim, before any overruling, are one. */
  lemma OneIsClaimed(s: World, w: nat, v: nat)
    requires w in s.workers && v in s.workers && WorkerOk(s, w, s.workers[w]) && WorkerOk(s, v, s.workers[v]) && v != w
    requires Claimed(s.workers[w]) && Claimed(s.workers[v])
    ensures s.overruled
  {
  }

  lemma SuccessorLeaves(s: World, w: nat, pc: Pc, row: Row, next: Pc, v: nat)
    requires IsWrite(pc) && Successor(s, pc, row) && v in s.workers && v != w
    requires Claimed(s.workers[v]) ==> s.overruled
    ensures var t := Give(s.(row := row), w, next);
        Undisturbed(s, t, v) && v in t.workers && t.workers[v] == s.workers[v]
  {
  }

  lemma WriteLeaves(s: World, w: nat, answer: Answer, v: nat)
    requires StoreOk(s) && w in s.workers && v in s.workers && v != w && IsWrite(s.workers[w])
    requires WorkerOk(s, w, s.workers[w]) && WorkerOk(s, v, s.workers[v])
    ensures var t := Writing(s, w, s.workers[w], answer);
        Undisturbed(s, t, v) && v in t.workers && t.workers[v] == s.workers[v]
  {
    var pc := s.workers[w];
    var written := Written(s, pc);
    var next := if answer.Answers? then AfterWrite(pc, written) else AfterWrite(pc, None);
    if Claimed(s.workers[v]) {
      OneIsClaimed(s, w, v);
    }
    if written.Some? && (answer.Answers? || answer.applied) {
      WrittenSucceeds(s, w, pc);
      SuccessorLeaves(s, w, pc, written.value, next, v);
    } else {
      GiveLeaves(s, w, next, v);
    }
  }

  lemma ClaimLeaves(s: World, w: nat, v: nat)
    requires StoreOk(s) && w in s.workers && v in s.workers && v != w && s.workers[w].Claims?
        && WorkerOk(s, v, s.workers[v])
    ensures var t := TakingClaim(s, w, s.workers[w].version);
        Undisturbed(s, t, v) && v in t.workers && t.workers[v] == s.workers[v]
  {
  }

  lemma DispatchLeaves(s: World, w: nat, delivers: bool, v: nat)
    requires w in s.workers && v in s.workers && v != w && s.workers[w].Sends?
    requires WorkerOk(s, w, s.workers[w]) && WorkerOk(s, v, s.workers[v])
    ensures var t := Dispatching(s, w, s.workers[w].claim, delivers);
        Undisturbed(s, t, v) && v in t.workers && t.workers[v] == s.workers[v]
  {
  }

  lemma ReturnLeaves(s: World, w: nat, reply: Reply, v: nat)
    requires w in s.workers && v in s.workers && v != w && s.workers[w].AwaitsSend?
    requires WorkerOk(s, w, s.workers[w]) && WorkerOk(s, v, s.workers[v])
    ensures var t := Returning(s, w, s.workers[w].claim, reply);
        Undisturbed(s, t, v) && v in t.workers && t.workers[v] == s.workers[v]
  {
  }

  lemma ProbeLeaves(s: World, w: nat, confirms: bool, v: nat)
    requires w in s.workers && v in s.workers && v != w && s.workers[w].Probes?
    ensures var t := Probing(s, w, s.workers[w], confirms);
        Undisturbed(s, t, v) && v in t.workers && t.workers[v] == s.workers[v]
  {
  }

  lemma OtherUndisturbed(s: World, e: Event, v: nat)
    requires Inv(s) && IsWorkerEvent(e) && e.w in s.workers && v in s.workers && v != e.w
    ensures var t := Apply(s, e); Undisturbed(s, t, v) && v in t.workers && t.workers[v] == s.workers[v]
  {
    var w, pc := e.w, s.workers[e.w];
    assert WorkerOk(s, w, pc) && WorkerOk(s, v, s.workers[v]);
    if IsLocal(e) {
      GiveLeaves(s, w, Moved(s.row, pc, e), v);
    } else if e.Write? {
      if IsWrite(pc) { WriteLeaves(s, w, e.answer, v); }
    } else if e.TakeClaim? {
      if pc.Claims? { ClaimLeaves(s, w, v); }
    } else if e.Send? {
      if pc.Sends? { DispatchLeaves(s, w, e.delivers, v); }
    } else if e.SendReturns? {
      if pc.AwaitsSend? && Honest(e.reply, pc.delivered) { ReturnLeaves(s, w, e.reply, v); }
    } else if pc.Probes? {
      ProbeLeaves(s, w, e.confirms, v);
    }
  }

  lemma OtherKeeps(s: World, e: Event, v: nat)
    requires Inv(s) && (IsWorkerEvent(e) ==> e.w in s.workers && v != e.w) && v in s.workers
    ensures var t := Apply(s, e); v in t.workers && t.workers[v] == s.workers[v] && WorkerOk(t, v, s.workers[v])
  {
    assert WorkerOk(s, v, s.workers[v]);
    if IsWorkerEvent(e) {
      OtherUndisturbed(s, e, v);
    } else {
      EnvironmentLeaves(s, e, v);
    }
    UndisturbedKeeps(s, Apply(s, e), v);
  }

  lemma StepAddsNoWorker(s: World, e: Event, v: nat)
    requires IsWorkerEvent(e) && e.w in s.workers && v !in s.workers
    ensures v !in Apply(s, e).workers
  {
    var w, pc := e.w, s.workers[e.w];
    if e.Write? {
      if IsWrite(pc) { assert v !in Writing(s, w, pc, e.answer).workers; }
    } else if e.TakeClaim? {
      if pc.Claims? { assert v !in TakingClaim(s, w, pc.version).workers; }
    }
  }

  lemma StepKeepsInv(s: World, e: Event)
    requires Inv(s)
    ensures Inv(Apply(s, e))
  {
    var t := Apply(s, e);
    if !IsWorkerEvent(e) {
      EnvironmentKeeps(s, e);
      forall v <- t.workers ensures WorkerOk(t, v, t.workers[v]) {
        if v in s.workers {
          OtherKeeps(s, e, v);
        }
      }
    } else if e.w in s.workers {
      ActorKeeps(s, e);
      forall v <- t.workers ensures WorkerOk(t, v, t.workers[v]) {
        if v !in s.workers {
          StepAddsNoWorker(s, e, v);
        } else if v != e.w {
          OtherKeeps(s, e, v);
        }
      }
    } else {
      assert t == s;
    }
  }

  lemma ReachableInv(probing: bool, body: nat, schedule: seq<Event>)
    ensures Inv(Run(Apply, Begin(probing, body), schedule))
  {
    forall t, e {:trigger Apply(t, e)} | Inv(t) ensures Inv(Apply(t, e)) {
      StepKeepsInv(t, e);
    }
    RunKeeps(Apply, Inv, Begin(probing, body), schedule);
  }

  // ----- refinement of the write-ahead journal, claim by claim

  function ClaimJournal(s: World, f: nat): WriteAhead.Journal {
    WriteAhead.Journal(
      if f !in s.claims then WriteAhead.Unrecorded
      else if s.row.status == Processing && s.row.fence == f then WriteAhead.Recorded else WriteAhead.Settled,
      f in s.claims && s.claims[f] in s.workers && YetToSend(s.workers[s.claims[f]], f),
      multiset(s.sends)[f])
  }

  predicate YetToSend(pc: Pc, f: nat) {
    BeforeSend(pc) && pc.claim.owner.fence == f
  }

  /** A worker moves on, and the record changes at most from processing to another status. */
  lemma QuietRefines(s: World, t: World, f: nat)
    requires t.claims == s.claims && t.sends == s.sends
    requires t.row.status == Processing && t.row.fence == f ==> s.row.status == Processing && s.row.fence == f
    requires f in s.claims && s.claims[f] in t.workers && YetToSend(t.workers[s.claims[f]], f) ==>
      s.claims[f] in s.workers && YetToSend(s.workers[s.claims[f]], f)
    ensures WriteAhead.Follows(ClaimJournal(s, f), ClaimJournal(t, f))
  {
  }

  lemma WriteIsQuiet(s: World, w: nat, answer: Answer)
    requires StoreOk(s) && w in s.workers && IsWrite(s.workers[w]) && WorkerOk(s, w, s.workers[w])
    ensures var t := Writing(s, w, s.workers[w], answer);
      && t == s.(row := t.row, workers := t.workers)
      && w in t.workers && t.workers == s.workers[w := t.workers[w]] && !BeforeSend(t.workers[w])
      && (t.row.status == Processing ==> t.row == s.row)
  {
    if Written(s, s.workers[w]).Some? {
      WrittenSucceeds(s, w, s.workers[w]);
    }
  }

  lemma WriteRefines(s: World, w: nat, answer: Answer, f: nat)
    requires StoreOk(s) && w in s.workers && IsWrite(s.workers[w]) && WorkerOk(s, w, s.workers[w])
    ensures WriteAhead.Follows(ClaimJournal(s, f), ClaimJournal(Writing(s, w, s.workers[w], answer), f))
  {
    WriteIsQuiet(s, w, answer);
    QuietRefines(s, Writing(s, w, s.workers[w], answer), f);
  }

  lemma GiveRefines(s: World, w: nat, next: Pc, f: nat)
    requires w in s.workers && (BeforeSend(next) ==> BeforeSend(s.workers[w]) && next.claim == s.workers[w].claim)
    ensures WriteAhead.Follows(ClaimJournal(s, f), ClaimJournal(Give(s, w, next), f))
  {
  }

  lemma DispatchRefines(s: World, w: nat, delivers: bool, f: nat)
    requires w in s.workers && s.workers[w].Sends? && FenceHeld(s, w, s.workers[w])
    ensures WriteAhead.Follows(ClaimJournal(s, f), ClaimJournal(Dispatching(s, w, s.workers[w].claim, delivers), f))
  {
  }

  lemma ClaimRefines(s: World, w: nat, f: nat)
    requires FencesStored(s) && w in s.workers && s.workers[w].Claims?
    ensures WriteAhead.Follows(ClaimJournal(s, f), ClaimJournal(TakingClaim(s, w, s.workers[w].version), f))
  {
    if Claiming(s.row, s.workers[w].version, w, s.clock).None? {
      GiveRefines(s, w, Stopped, f);
    } else if f == s.row.fence + 1 {
      assert f !in s.claims && f !in s.sends;
    } else {
      OldClaimStands(s, w, f);
    }
  }

  lemma OldClaimStands(s: World, w: nat, f: nat)
    requires FencesStored(s) && w in s.workers && s.workers[w].Claims? && f != s.row.fence + 1
    requires Claiming(s.row, s.workers[w].version, w, s.clock).Some?
    ensures ClaimJournal(TakingClaim(s, w, s.workers[w].version), f) == ClaimJournal(s, f)
  {
  }

  lemma ReturnRefines(s: World, w: nat, reply: Reply, f: nat)
    requires w in s.workers && s.workers[w].AwaitsSend?
    ensures WriteAhead.Follows(ClaimJournal(s, f), ClaimJournal(Returning(s, w, s.workers[w].claim, reply), f))
  {
  }

  lemma ProbeRefines(s: World, w: nat, confirms: bool, f: nat)
    requires w in s.workers && s.workers[w].Probes?
    ensures WriteAhead.Follows(ClaimJournal(s, f), ClaimJournal(Probing(s, w, s.workers[w], confirms), f))
  {
  }

  lemma EnvironmentRefines(s: World, e: Event, f: nat)
    requires FencesStored(s) && !IsWorkerEvent(e)
    ensures WriteAhead.Follows(ClaimJournal(s, f), ClaimJournal(Apply(s, e), f))
  {
  }

  lemma RefinesJournal(s: World, e: Event, f: nat)
    requires Inv(s)
    ensures WriteAhead.Follows(ClaimJournal(s, f), ClaimJournal(Apply(s, e), f))
  {
    if !IsWorkerEvent(e) {
      EnvironmentRefines(s, e, f);
    } else if e.w in s.workers {
      var w, pc := e.w, s.workers[e.w];
      assert WorkerOk(s, w, pc);
      if IsLocal(e) {
        MovedIs(s.row, pc, e);
        GiveRefines(s, w, Moved(s.row, pc, e), f);
      } else if e.Write? {
        if IsWrite(pc) { WriteRefines(s, w, e.answer, f); }
      } else if e.TakeClaim? {
        if pc.Claims? { ClaimRefines(s, w, f); }
      } else if e.Send? {
        if pc.Sends? { DispatchRefines(s, w, e.delivers, f); }
      } else if e.SendReturns? {
        if pc.AwaitsSend? && Honest(e.reply, pc.delivered) { ReturnRefines(s, w, e.reply, f); }
      } else if pc.Probes? {
        ProbeRefines(s, w, e.confirms, f);
      }
    }
  }

  /** Every claim sends at most once, whatever interleaves. */
  lemma ClaimSendsAtMostOnce(probing: bool, body: nat, schedule: seq<Event>, f: nat)
    ensures multiset(Run(Apply, Begin(probing, body), schedule).sends)[f] <= 1
  {
    forall t, e {:trigger Apply(t, e)} | Inv(t)
      ensures Inv(Apply(t, e)) && WriteAhead.Follows(ClaimJournal(t, f), ClaimJournal(Apply(t, e), f))
    {
      StepKeepsInv(t, e);
      RefinesJournal(t, e, f);
    }
    WriteAhead.RefinementFiresAtMostOnce(Apply, Inv, s => ClaimJournal(s, f), Begin(probing, body), schedule);
  }

  // ----- truthful statuses

  /**
   A succeeded reply always rests on the stored evidence of a send that the provider accepted for the intended
   recipient, and a worker adds a matching read-back where the connector offers one.
   */
  lemma SuccessIsEvidenced(probing: bool, body: nat, schedule: seq<Event>)
    ensures var s := Run(Apply, Begin(probing, body), schedule);
      s.row.status == Succeeded ==>
        && Complete(s.row.evidence) && s.row.evidence in s.accepted
        && (s.probing && !s.confirmedSent ==> s.row.evidence in s.probed)
  {
    ReachableInv(probing, body, schedule);
  }

  /**
   Until an operator overrules an uncertain result, failed, expired, queued and cancelled mean that nothing was
   delivered, and at most one message ever is, with the stored body.
   */
  lemma StatusesAreTruthful(probing: bool, body: nat, schedule: seq<Event>)
    requires !Run(Apply, Begin(probing, body), schedule).overruled
    ensures var s := Run(Apply, Begin(probing, body), schedule);
      && |s.deliveries| <= 1
      && (s.deliveries != [] ==> s.bodies == {s.row.body} && s.row.status in {Processing, Uncertain, Succeeded})
      && (s.row.status == Succeeded ==> s.deliveries != [])
  {
    ReachableInv(probing, body, schedule);
  }

  /** The two statuses that only an operator may leave otherwise. */
  ghost predicate StaysUndecided(s: World, t: World) {
    && (s.overruled ==> t.overruled)
    && (s.row.status == Uncertain && !t.overruled ==> t.row.status in {Uncertain, Succeeded})
    && (s.row.status == Succeeded ==> t.row.status == Succeeded && t.row.evidence == s.row.evidence)
  }

  lemma UncertainIsNotRetried(probing: bool, body: nat, schedule: seq<Event>, more: seq<Event>)
    ensures StaysUndecided(Run(Apply, Begin(probing, body), schedule),
        Run(Apply, Run(Apply, Begin(probing, body), schedule), more))
  {
    ReachableInv(probing, body, schedule);
    forall t, e {:trigger Apply(t, e)} | Inv(t) ensures Inv(Apply(t, e)) && StaysUndecided(t, Apply(t, e)) {
      StepKeepsInv(t, e);
      StepStaysUndecided(t, e);
    }
    RunRelates(Apply, Inv, StaysUndecided, Run(Apply, Begin(probing, body), schedule), more);
  }

  lemma WriteStaysUndecided(s: World, w: nat, answer: Answer)
    requires StoreOk(s) && w in s.workers && IsWrite(s.workers[w]) && WorkerOk(s, w, s.workers[w])
    ensures StaysUndecided(s, Writing(s, w, s.workers[w], answer))
  {
    if Written(s, s.workers[w]).Some? {
      WrittenSucceeds(s, w, s.workers[w]);
    }
  }

  lemma OnlyWritesDecide(s: World, e: Event)
    requires IsWorkerEvent(e) && !e.Write?
    ensures Apply(s, e).row.status == s.row.status || s.row.status == Queued
    ensures Apply(s, e).row.evidence == s.row.evidence && Apply(s, e).overruled == s.overruled
  {
  }

  lemma StepStaysUndecided(s: World, e: Event)
    requires Inv(s)
    ensures StaysUndecided(s, Apply(s, e))
  {
    if e.Write? {
      if e.w in s.workers && IsWrite(s.workers[e.w]) {
        assert WorkerOk(s, e.w, s.workers[e.w]);
        WriteStaysUndecided(s, e.w, e.answer);
      }
    } else if IsWorkerEvent(e) {
      OnlyWritesDecide(s, e);
    }
  }

  // ----- when an operator's "not sent" holds

  /** No claim that existed when the operator decided ever turns out to have delivered. */
  ghost predicate VerdictHolds(s: World, claims: map<nat, nat>) {
    forall schedule, f :: f in claims ==> f !in Run(Apply, s, schedule).deliveries
  }

  ghost predicate Unsent(s: World, claims: map<nat, nat>) {
    && Inv(s)
    && (forall f <- claims :: f in s.claims && f !in s.deliveries)
    && (forall w <- s.workers :: BeforeSend(s.workers[w]) ==> s.workers[w].claim.owner.fence !in claims)
  }

  /** `t` delivers only for a sender of `s`, and only a new claim comes before its send. */
  ghost predicate DeliversOnlySends(s: World, t: World) {
    && (forall f <- s.claims :: f in t.claims)
    && (forall f <- t.deliveries :: f in s.deliveries || exists w ::
        w in s.workers && s.workers[w].Sends? && s.workers[w].claim.owner.fence == f)
    && (forall w <- t.workers :: BeforeSend(t.workers[w]) ==>
          || (w in s.workers && BeforeSend(s.workers[w]) && s.workers[w].claim == t.workers[w].claim)
          || t.workers[w].claim.owner.fence !in s.claims)
  }

  lemma GiveDelivers(s: World, t: World, w: nat, next: Pc)
    requires t.claims == s.claims && t.deliveries == s.deliveries && t.workers == s.workers && w in s.workers
    requires BeforeSend(next) ==> BeforeSend(s.workers[w]) && s.workers[w].claim == next.claim
    ensures DeliversOnlySends(s, Give(t, w, next))
  {
  }

  lemma DispatchDelivers(s: World, w: nat, delivers: bool)
    requires w in s.workers && s.workers[w].Sends?
    ensures DeliversOnlySends(s, Dispatching(s, w, s.workers[w].claim, delivers))
  {
  }

  lemma ClaimDelivers(s: World, w: nat)
    requires StoreOk(s) && w in s.workers && s.workers[w].Claims?
    ensures DeliversOnlySends(s, TakingClaim(s, w, s.workers[w].version))
  {
  }

  lemma EnvironmentDelivers(s: World, e: Event)
    requires !IsWorkerEvent(e)
    ensures DeliversOnlySends(s, Apply(s, e))
  {
  }

  lemma CallDelivers(s: World, e: Event)
    requires (e.SendReturns? || e.Probe?) && e.w in s.workers
    ensures DeliversOnlySends(s, Apply(s, e))
  {
  }

  lemma StepDelivers(s: World, e: Event)
    requires Inv(s)
    ensures DeliversOnlySends(s, Apply(s, e))
  {
    if !IsWorkerEvent(e) {
      EnvironmentDelivers(s, e);
    } else if e.w in s.workers {
      var w, pc := e.w, s.workers[e.w];
      assert WorkerOk(s, w, pc);
      if IsLocal(e) {
        MovedIs(s.row, pc, e);
        GiveDelivers(s, s, w, Moved(s.row, pc, e));
      } else if e.Write? {
        if IsWrite(pc) { WriteIsQuiet(s, w, e.answer); }
      } else if e.TakeClaim? {
        if pc.Claims? { ClaimDelivers(s, w); }
      } else if e.Send? {
        if pc.Sends? { DispatchDelivers(s, w, e.delivers); }
      } else {
        CallDelivers(s, e);
      }
    }
  }

  lemma UnsentStays(s: World, e: Event, claims: map<nat, nat>)
    requires Unsent(s, claims)
    ensures Unsent(Apply(s, e), claims)
  {
    StepKeepsInv(s, e);
    StepDelivers(s, e);
  }

  lemma UnsentForGood(s: World, claims: map<nat, nat>)
    requires Unsent(s, claims)
    ensures VerdictHolds(s, claims)
  {
    forall u, e {:trigger Apply(u, e)} | Unsent(u, claims) ensures Unsent(Apply(u, e), claims) {
      UnsentStays(u, e, claims);
    }
    forall schedule, f | f in claims ensures f !in Run(Apply, s, schedule).deliveries {
      RunKeeps(Apply, u => Unsent(u, claims), s, schedule);
    }
  }

  /**
   An operator's verdict "not sent" holds for good exactly when nothing was delivered and no worker is still before its
   send.
   */
  lemma VerdictHoldsIff(s: World)
    requires Inv(s) && !s.overruled && s.row.status == Uncertain
    ensures VerdictHolds(Apply(s, OperatorConfirmsNotSent), s.claims) <==>
      s.deliveries == [] && forall w <- s.workers :: !BeforeSend(s.workers[w])
  {
    var t := Apply(s, OperatorConfirmsNotSent);
    StepKeepsInv(s, OperatorConfirmsNotSent);
    if s.deliveries != [] {
      var f := s.deliveries[0];
      assert f in s.claims && f in Run(Apply, t, []).deliveries;
    } else if w :| w in s.workers && BeforeSend(s.workers[w]) {
      assert WorkerOk(s, w, s.workers[w]);
      LateSend(t, w);
    } else {
      UnsentForGood(t, s.claims);
    }
  }

  /**
   What a caller can check: under these statuses, as long as no operator has overruled, no claim so far ever delivers.
   */
  lemma TruthfulStatusesLast(s: World)
    requires Inv(s) && !s.overruled && s.row.status in {Queued, Failed, Expired, Cancelled}
    ensures VerdictHolds(s, s.claims)
  {
    forall w <- s.workers ensures !BeforeSend(s.workers[w]) {
      assert WorkerOk(s, w, s.workers[w]);
    }
    UnsentForGood(s, s.claims);
  }

  lemma LateSend(s: World, w: nat)
    requires w in s.workers && BeforeSend(s.workers[w])
    ensures exists schedule :: s.workers[w].claim.owner.fence in Run(Apply, s, schedule).deliveries
  {
    Here(Apply, s);
    var t := s;
    if s.workers[w].Inspects? {
      t := PassesInspection(s, w);
    }
    t := Delivers(s, t, w);
    var schedule :| Run(Apply, s, schedule) == t;
  }

  lemma PassesInspection(s: World, w: nat) returns (t: World)
    requires Reaches(Apply, s, s) && w in s.workers && s.workers[w].Inspects?
    ensures Reaches(Apply, s, t) && t == Give(s, w, Sends(s.workers[w].claim))
  {
    t := Onward(Apply, s, s, Inspect(w, Eligibility(Eligible, None, Some(1)), 0));
  }

  lemma Delivers(s: World, r: World, w: nat) returns (t: World)
    requires Reaches(Apply, s, r) && w in r.workers && r.workers[w].Sends?
    ensures Reaches(Apply, s, t) && r.workers[w].claim.owner.fence in t.deliveries
  {
    t := Onward(Apply, s, r, Send(w, true));
    assert t.deliveries == r.deliveries + [r.workers[w].claim.owner.fence];
  }

  /** Read, claim, inspect: the worker is about to send. */
  lemma ReachesSend(w: nat) returns (s: World)
    ensures Reaches(Apply, Begin(true, 7), s) && s.workers == map[w := Sends(Claim(Owner(w, 1), 1, 7))]
    ensures s.row == Row(Processing, 1, 1, Some(Owner(w, 1)), LEASE_MS, NO_EVIDENCE, 7) && s.clock == 0 && s.probing
    ensures s.deliveries == [] && s.claims == map[1 := w] && s.probed == {} && s.accepted == {}
  {
    Here(Apply, Begin(true, 7));
    s := Onward(Apply, Begin(true, 7), Begin(true, 7), Start(w));
    s := Onward(Apply, Begin(true, 7), s, Read(w));
    s := Onward(Apply, Begin(true, 7), s, TakeClaim(w));
    s := Onward(Apply, Begin(true, 7), s, Inspect(w, Eligibility(Eligible, None, Some(1)), 0));
  }

  /** The family is not empty: a stalled worker sends after its lease was recovered and the operator decided. */
  lemma DeliveredAfterNotSent(w: nat) returns (s: World)
    ensures Reaches(Apply, Begin(true, 7), s) && s.row.status == Failed && s.deliveries == [1]
  {
    s := ReachesSend(w);
    s := Onward(Apply, Begin(true, 7), s, Tick(LEASE_MS));
    s := Onward(Apply, Begin(true, 7), s, Recover);
    s := Onward(Apply, Begin(true, 7), s, OperatorConfirmsNotSent);
    assert s.row.status == Failed;
    s := Onward(Apply, Begin(true, 7), s, Send(w, true));
  }

  /** The protocol can succeed, through its checkpoint and its read-back. */
  lemma ReplySucceeds(w: nat, key: nat, at: int, digest: nat) returns (s: World)
    ensures Reaches(Apply, Begin(true, 7), s) && s.deliveries == [1]
    ensures s.row.status == Succeeded && s.row.evidence == Evidence(Some(key), Some(at), Some(digest))
  {
    var sent := Evidence(Some(key), Some(at), Some(digest));
    s := ReachesSend(w);
    s := Onward(Apply, Begin(true, 7), s, Send(w, true));
    s := Onward(Apply, Begin(true, 7), s, SendReturns(w, Accepted(true, sent)));
    assert s.workers[w].Checkpoints?;
    s := SentThenSucceeds(s, w);
  }

  lemma SentThenSucceeds(r: World, w: nat) returns (s: World)
    requires Reaches(Apply, Begin(true, 7), r) && w in r.workers && r.workers[w].Checkpoints? && r.probing
    requires Written(r, r.workers[w]).Some? && Complete(r.workers[w].sent)
    ensures Reaches(Apply, Begin(true, 7), s) && s.deliveries == r.deliveries
    ensures s.row.status == Succeeded && s.row.evidence == r.workers[w].sent
  {
    s := Onward(Apply, Begin(true, 7), r, Write(w, Answers));
    assert s.row.evidence == r.workers[w].sent && s.row.status == Uncertain && s.deliveries == r.deliveries;
    assert s.workers[w] == Probes(r.workers[w].claim, s.row.version, r.workers[w].sent);
    s := ProbedThenSucceeds(s, w);
  }

  lemma ProbedThenSucceeds(r: World, w: nat) returns (s: World)
    requires Reaches(Apply, Begin(true, 7), r) && w in r.workers && r.workers[w].Probes? && r.probing
    requires r.row.status == Uncertain && r.row.version == r.workers[w].version
    requires Complete(r.workers[w].sent)
    ensures Reaches(Apply, Begin(true, 7), s) && s.deliveries == r.deliveries
    ensures s.row.status == Succeeded && s.row.evidence == r.workers[w].sent
  {
    s := Onward(Apply, Begin(true, 7), r, Probe(w, true));
    assert s.workers[w] == Succeeds(r.workers[w].claim, r.row.version, r.workers[w].sent) && s.row == r.row;
    s := Onward(Apply, Begin(true, 7), s, Write(w, Answers));
  }
}
