/**
 The public comment reply under any number of interleaved workers. There is no lease: a claim is a version, and
 recovery may take any processing action, even one whose worker is still alive.
 */
module EngagementReply {
  import opened Runs
  import WriteAhead

  datatype Status = Queued | Processing | Succeeded | Failed | Uncertain | Cancelled

  datatype Row = Row(status: Status, version: nat, replyId: Option<nat>)

  predicate MayMove(from: Status, to: Status) {
    match from
    case Queued => to in {Processing, Cancelled}
    case Processing => to in {Succeeded, Failed, Uncertain}
    case Failed => to in {Queued, Cancelled}
    case Uncertain => to in {Succeeded, Failed, Cancelled}
    case _ => false
  }

  function Transition(row: Row, version: nat, to: Status, replyId: Option<nat>): Option<Row> {
    if row.version != version || !MayMove(row.status, to) then None
    else Some(Row(to, version + 1,
      if to in {Queued, Processing} then None else if replyId.Some? then replyId else row.replyId))
  }

  datatype ErrorCode =
    | CodeUncertain | ProviderFailed | PermissionMissing | Expired | Unsupported | RateLimited | NotFound

  datatype Error = EngagementError(code: ErrorCode) | OtherError

  predicate ReplyFailureIsAmbiguous(error: Error) {
    error.OtherError? || error.code in {CodeUncertain, ProviderFailed}
  }

  datatype Reply = Replied(id: nat) | ReplyThrows(error: Error)

  /** An honest connector: a result is a delivered reply, and a failure that is not ambiguous delivered nothing. */
  predicate Honest(reply: Reply, delivered: bool) {
    match reply
    case Replied(_) => delivered
    case ReplyThrows(error) => !ReplyFailureIsAmbiguous(error) ==> !delivered
  }

  /** `claim` is the version that the claim gave to the record. */
  datatype Pc =
    | Reads
    | Claims(version: nat)
    | Sends(claim: nat)
    | AwaitsReply(claim: nat, delivered: bool)
    | Moves(claim: nat, to: Status)
    | Records(claim: nat, id: nat)
    | Rereads(claim: nat)
    | Adopts(claim: nat, version: nat)
    | Stopped

  datatype Answer = Answers | WriteThrows(applied: bool)

  datatype Event =
    | Start(w: nat)
    | Read(w: nat)
    | TakeClaim(w: nat, answer: Answer)
    | Send(w: nat, delivers: bool)
    | SendReturns(w: nat, reply: Reply)
    | Write(w: nat, answer: Answer)
    | Reread(w: nat)
    | Crash(w: nat)
    | Recover
    | OperatorMoves(to: Status, typed: Option<nat>) // with the reply id that the operator typed

  /**
   The log: who claimed which version, the claims that sent, those whose reply was delivered, and the id that the
   provider gave to each; then the ids that operators typed, whether one confirmed the reply, and whether one turned
   an uncertain reply into a failed one.
   */
  datatype World = World(
    row: Row, workers: map<nat, Pc>, claims: map<nat, nat>, latest: Option<nat>,
    sends: seq<nat>, deliveries: seq<nat>, replies: map<nat, nat>,
    typed: set<nat>, confirmed: bool, overruled: bool)

  const START := World(Row(Queued, 0, None), map[], map[], None, [], [], map[], {}, false, false)

  function Give(s: World, w: nat, pc: Pc): World {
    s.(workers := s.workers[w := pc])
  }

  function TakingClaim(s: World, w: nat, version: nat, answer: Answer): World {
    var row := Transition(s.row, version, Processing, None);
    if row.None? || (answer.WriteThrows? && !answer.applied) then Give(s, w, Stopped)
    else
      Give(s.(row := row.value, claims := s.claims[row.value.version := w], latest := Some(w)), w,
           if answer.Answers? then Sends(row.value.version) else Stopped)
  }

  function Sending(s: World, w: nat, claim: nat, delivers: bool): World {
    Give(s.(sends := s.sends + [claim], deliveries := if delivers then s.deliveries + [claim] else s.deliveries), w,
         AwaitsReply(claim, delivers))
  }

  function Returning(s: World, w: nat, claim: nat, reply: Reply): World {
    match reply
    case Replied(id) => Give(s.(replies := s.replies[claim := id]), w, Records(claim, id))
    case ReplyThrows(error) => Give(s, w, Moves(claim, if ReplyFailureIsAmbiguous(error) then Uncertain else Failed))
  }

  predicate IsWrite(pc: Pc) {
    pc.Moves? || pc.Records? || pc.Adopts?
  }

  function Written(s: World, pc: Pc): Option<Row> {
    match pc
    case Moves(claim, to) => Transition(s.row, claim, to, None)
    case Records(claim, id) => Transition(s.row, claim, Succeeded, Some(id))
    case Adopts(_, version) => Transition(s.row, version, Uncertain, None)
    case _ => None
  }

  function Wrote(s: World, w: nat, pc: Pc, answer: Answer): World {
    var row := Written(s, pc);
    var saved := row.Some? && (answer.Answers? || answer.applied);
    Give(if saved then s.(row := row.value) else s, w,
         if pc.Records? && !(saved && answer.Answers?) then Rereads(pc.claim) else Stopped)
  }

  function Recovered(s: World): World {
    var row := Transition(s.row, s.row.version, Uncertain, None);
    if s.row.status == Processing && row.Some? then s.(row := row.value) else s
  }

  /** Confirm or deny what is uncertain, try again what failed, cancel what is not under way. */
  predicate OperatorMay(from: Status, to: Status, typed: Option<nat>) {
    match from
    case Uncertain => (to == Succeeded && typed.Some?) || to == Failed
    case Queued => to == Cancelled && typed.None?
    case Failed => to in {Queued, Cancelled} && typed.None?
    case _ => false
  }

  function Operating(s: World, to: Status, typed: Option<nat>): World {
    var row := Transition(s.row, s.row.version, to, typed);
    if OperatorMay(s.row.status, to, typed) && row.Some? then
      s.(row := row.value, typed := if typed.Some? then s.typed + {typed.value} else s.typed,
         confirmed := to == Succeeded, overruled := s.overruled || (s.row.status == Uncertain && to == Failed))
    else s
  }

  function Apply(s: World, e: Event): World {
    if e.Recover? then Recovered(s)
    else if e.OperatorMoves? then Operating(s, e.to, e.typed)
    else if e.w !in s.workers then (if e.Start? then Give(s, e.w, Reads) else s)
    else if e.Start? then s
    else Step(s, e, e.w, s.workers[e.w])
  }

  predicate IsWorkerEvent(e: Event) {
    !e.Start? && !e.Recover? && !e.OperatorMoves?
  }

  /** Events that only move their worker on. */
  predicate IsLocal(e: Event) {
    e.Crash? || e.Read? || e.Reread?
  }

  function Moved(row: Row, pc: Pc, e: Event): Pc
    requires IsLocal(e)
  {
    if e.Crash? then Stopped
    else if e.Read? then (if !pc.Reads? then pc else if row.status == Queued then Claims(row.version) else Stopped)
    else if !pc.Rereads? then pc
    else if row.status == Processing then Adopts(pc.claim, row.version) else Stopped
  }

  function Step(s: World, e: Event, w: nat, pc: Pc): World
    requires IsWorkerEvent(e)
  {
    if IsLocal(e) then Give(s, w, Moved(s.row, pc, e))
    else if e.TakeClaim? then (if pc.Claims? then TakingClaim(s, w, pc.version, e.answer) else s)
    else if e.Send? then (if pc.Sends? then Sending(s, w, pc.claim, e.delivers) else s)
    else if e.SendReturns? then
      (if pc.AwaitsReply? && Honest(e.reply, pc.delivered) then Returning(s, w, pc.claim, e.reply) else s)
    else if IsWrite(pc) then Wrote(s, w, pc, e.answer)
    else s
  }

  // ----- invariants

  predicate HasClaim(pc: Pc) {
    !pc.Reads? && !pc.Claims? && !pc.Stopped?
  }

  predicate HasTried(pc: Pc) {
    !pc.Reads? && !pc.Claims?
  }

  predicate ClaimHeld(s: World, w: nat, pc: Pc) {
    && (!HasTried(pc) ==> forall c <- s.claims :: s.claims[c] != w)
    && (HasClaim(pc) ==>
          && pc.claim in s.claims && s.claims[pc.claim] == w && pc.claim <= s.row.version
          && (pc.claim == s.row.version ==> s.row.status == Processing)
          && (pc.Sends? ==> pc.claim !in s.sends)
          && (pc.Sends? || pc.AwaitsReply? ==> pc.claim !in s.replies))
    && (pc.AwaitsReply? && pc.delivered ==> pc.claim in s.deliveries)
    && (pc.Moves? ==> pc.to in {Failed, Uncertain})
    && (pc.Records? ==> pc.claim in s.deliveries && pc.claim in s.replies && s.replies[pc.claim] == pc.id)
  }

  predicate CleanHeld(s: World, w: nat, pc: Pc) {
    !s.overruled && HasClaim(pc) ==>
      && s.latest == Some(w)
      && s.row.status in {Processing, Uncertain, Succeeded}
      && (s.row.status == Processing ==> s.row.version == pc.claim)
      && (pc.Sends? || (pc.AwaitsReply? && !pc.delivered) || (pc.Moves? && pc.to == Failed) ==> s.deliveries == [])
  }

  /** The claim before the success was delivered, and the record carries the id that the provider gave to it. */
  predicate Evidenced(s: World) {
    var c := s.row.version - 1;
    c in s.deliveries && c in s.replies && s.row.replyId == Some(s.replies[c])
  }

  predicate StoreOk(s: World) {
    && (forall c <- s.claims :: c <= s.row.version && s.claims[c] in s.workers && HasTried(s.workers[s.claims[c]]))
    && (forall c <- s.sends :: c in s.claims)
    && (forall i, j :: 0 <= i < j < |s.sends| ==> s.sends[i] != s.sends[j])
    && (s.confirmed ==> s.row.status == Succeeded)
    && (s.row.status == Succeeded && !s.confirmed ==> Evidenced(s))
    && (s.row.replyId.Some? && (s.row.status == Succeeded ==> s.confirmed) ==> s.row.replyId.value in s.typed)
    && (forall c <- s.replies :: c in s.claims)
    && (s.latest.Some? ==> s.latest.value in s.workers && HasTried(s.workers[s.latest.value]))
    && (forall c, d :: c in s.claims && d in s.claims && s.claims[c] == s.claims[d] ==> c == d)
  }

  predicate CleanStored(s: World) {
    !s.overruled ==>
      && |s.deliveries| <= 1
      && (s.row.status in {Queued, Failed, Cancelled} ==>
            s.deliveries == [] && (s.latest.Some? && s.latest.value in s.workers ==>
                !HasClaim(s.workers[s.latest.value])))
  }

  predicate WorkerOk(s: World, w: nat, pc: Pc) {
    ClaimHeld(s, w, pc) && CleanHeld(s, w, pc)
  }

  ghost predicate Inv(s: World) {
    StoreOk(s) && CleanStored(s) && forall w <- s.workers :: WorkerOk(s, w, s.workers[w])
  }

  // ----- the record and the log

  predicate ShiftsOnly(pc: Pc, next: Pc) {
    && (HasTried(pc) ==> HasTried(next))
    && (HasClaim(next) ==> HasClaim(pc) && next.claim == pc.claim)
  }

  lemma GiveKeepsStore(s: World, w: nat, next: Pc)
    requires StoreOk(s) && CleanStored(s) && w in s.workers && ShiftsOnly(s.workers[w], next)
    ensures StoreOk(Give(s, w, next)) && CleanStored(Give(s, w, next))
  {
  }

  lemma StartKeepsStore(s: World, w: nat)
    requires StoreOk(s) && CleanStored(s) && w !in s.workers
    ensures StoreOk(Give(s, w, Reads)) && CleanStored(Give(s, w, Reads)) && WorkerOk(Give(s, w, Reads), w, Reads)
  {
  }

  lemma NewClaimKeepsStore(s: World, w: nat, version: nat, answer: Answer)
    requires Inv(s) && w in s.workers && s.workers[w].Claims? && Transition(s.row, version, Processing, None).Some?
    ensures var t := TakingClaim(s, w, version, answer); StoreOk(t) && CleanStored(t)
  {
  }

  lemma NewClaimKeepsActor(s: World, w: nat, version: nat, answer: Answer)
    requires Inv(s) && w in s.workers && s.workers[w].Claims? && Transition(s.row, version, Processing, None).Some?
    ensures var t := TakingClaim(s, w, version, answer); w in t.workers && WorkerOk(t, w, t.workers[w])
  {
  }

  lemma ClaimKeeps(s: World, w: nat, answer: Answer)
    requires Inv(s) && w in s.workers && s.workers[w].Claims?
    ensures var t := TakingClaim(s, w, s.workers[w].version, answer);
      StoreOk(t) && CleanStored(t) && w in t.workers && WorkerOk(t, w, t.workers[w])
  {
    var version := s.workers[w].version;
    if Transition(s.row, version, Processing, None).Some? {
      NewClaimKeepsStore(s, w, version, answer);
      NewClaimKeepsActor(s, w, version, answer);
    } else {
      GiveKeepsStore(s, w, Stopped);
    }
  }

  lemma SendKeeps(s: World, w: nat, delivers: bool)
    requires StoreOk(s) && CleanStored(s) && w in s.workers && s.workers[w].Sends? && WorkerOk(s, w, s.workers[w])
    ensures var t := Sending(s, w, s.workers[w].claim, delivers);
      StoreOk(t) && CleanStored(t) && w in t.workers && WorkerOk(t, w, t.workers[w])
  {
  }

  lemma ReturnKeeps(s: World, w: nat, reply: Reply)
    requires StoreOk(s) && CleanStored(s) && w in s.workers && WorkerOk(s, w, s.workers[w])
    requires s.workers[w].AwaitsReply? && Honest(reply, s.workers[w].delivered)
    ensures var t := Returning(s, w, s.workers[w].claim, reply);
      StoreOk(t) && CleanStored(t) && w in t.workers && WorkerOk(t, w, t.workers[w])
  {
  }

  /** The record after an accepted write, without saying which transition made it. */
  predicate Successor(s: World, pc: Pc, row: Row) {
    && s.row.status in {Processing, Uncertain, Failed, Queued} && row.version == s.row.version + 1
    && (row.replyId == if pc.Records? then Some(pc.id) else s.row.replyId)
    && (pc.Moves? ==> s.row.status == Processing && row.status == pc.to)
    && (pc.Records? ==> s.row.status == Processing && row.status == Succeeded && s.row.version == pc.claim)
    && (pc.Adopts? ==> s.row.status == Processing && row.status == Uncertain)
  }

  lemma WrittenSucceeds(s: World, w: nat, pc: Pc)
    requires ClaimHeld(s, w, pc) && IsWrite(pc) && Written(s, pc).Some?
    ensures Successor(s, pc, Written(s, pc).value)
  {
  }

  function AfterWrite(pc: Pc, answered: bool): Pc {
    if pc.Records? && !answered then Rereads(pc.claim) else Stopped
  }

  lemma SuccessorKeepsStore(s: World, w: nat, pc: Pc, row: Row, next: Pc)
    requires StoreOk(s) && CleanStored(s) && WorkerOk(s, w, pc) && w in s.workers && s.workers[w] == pc
    requires IsWrite(pc) && Successor(s, pc, row) && next in {Stopped, AfterWrite(pc, false)}
    ensures var t := Give(s.(row := row), w, next); StoreOk(t) && CleanStored(t) && WorkerOk(t, w, next)
  {
  }

  lemma RefusedKeeps(s: World, w: nat, pc: Pc)
    requires WorkerOk(s, w, pc) && IsWrite(pc)
    ensures WorkerOk(Give(s, w, AfterWrite(pc, false)), w, AfterWrite(pc, false))
  {
  }

  lemma WriteKeeps(s: World, w: nat, answer: Answer)
    requires StoreOk(s) && CleanStored(s) && w in s.workers && WorkerOk(s, w, s.workers[w]) && IsWrite(s.workers[w])
    ensures var t := Wrote(s, w, s.workers[w], answer);
      StoreOk(t) && CleanStored(t) && w in t.workers && WorkerOk(t, w, t.workers[w])
  {
    var pc := s.workers[w];
    var written := Written(s, pc);
    if written.Some? && (answer.Answers? || answer.applied) {
      WrittenSucceeds(s, w, pc);
      SuccessorKeepsStore(s, w, pc, written.value, AfterWrite(pc, answer.Answers?));
    } else {
      GiveKeepsStore(s, w, AfterWrite(pc, false));
      RefusedKeeps(s, w, pc);
    }
  }

  lemma MovedShifts(s: World, w: nat, pc: Pc, e: Event)
    requires IsLocal(e) && WorkerOk(s, w, pc)
    ensures ShiftsOnly(pc, Moved(s.row, pc, e)) && WorkerOk(s, w, Moved(s.row, pc, e))
    ensures Moved(s.row, pc, e).Sends? ==> pc.Sends?
  {
  }

  lemma LocalKeeps(s: World, w: nat, e: Event)
    requires StoreOk(s) && CleanStored(s) && w in s.workers && WorkerOk(s, w, s.workers[w]) && IsLocal(e)
    ensures var t := Give(s, w, Moved(s.row, s.workers[w], e));
      StoreOk(t) && CleanStored(t) && w in t.workers && WorkerOk(t, w, t.workers[w])
  {
  }

  lemma ActorKeeps(s: World, e: Event)
    requires Inv(s) && IsWorkerEvent(e) && e.w in s.workers
    ensures var t := Apply(s, e); StoreOk(t) && CleanStored(t) && e.w in t.workers && WorkerOk(t, e.w, t.workers[e.w])
  {
    var w, pc := e.w, s.workers[e.w];
    assert WorkerOk(s, w, pc);
    if IsLocal(e) {
      LocalKeeps(s, w, e);
    } else if e.TakeClaim? {
      if pc.Claims? { ClaimKeeps(s, w, e.answer); }
    } else if e.Send? {
      if pc.Sends? { SendKeeps(s, w, e.delivers); }
    } else if e.SendReturns? {
      if pc.AwaitsReply? && Honest(e.reply, pc.delivered) { ReturnKeeps(s, w, e.reply); }
    } else if IsWrite(pc) {
      WriteKeeps(s, w, e.answer);
    }
  }

  lemma EnvironmentKeeps(s: World, e: Event)
    requires StoreOk(s) && CleanStored(s) && !IsWorkerEvent(e)
    ensures StoreOk(Apply(s, e)) && CleanStored(Apply(s, e))
  {
  }

  // ----- the other workers

  /** What an event leaves of the world, as another worker `v` sees it. */
  predicate Undisturbed(s: World, t: World, v: nat) {
    && (forall c <- s.replies :: c in t.replies && t.replies[c] == s.replies[c])
    && (forall c <- s.claims :: s.claims[c] == v && c in t.replies ==> c in s.replies)
    && (forall c <- s.deliveries :: c in t.deliveries)
    && (forall c <- s.claims :: c in t.claims && t.claims[c] == s.claims[c])
    && (forall c <- t.claims :: c in s.claims || t.claims[c] != v)
    && (forall c <- s.claims :: s.claims[c] == v && c in t.sends ==> c in s.sends)
    && (t.row == s.row || t.row.version > s.row.version)
    && (s.overruled ==> t.overruled)
    && (v in s.workers && HasClaim(s.workers[v]) && !t.overruled ==>
          && t.latest == s.latest && t.deliveries == s.deliveries
          && (t.row == s.row || t.row.status in {Uncertain, Succeeded}))
  }

  lemma UndisturbedKeeps(s: World, t: World, v: nat)
    requires v in s.workers && WorkerOk(s, v, s.workers[v]) && Undisturbed(s, t, v)
    ensures WorkerOk(t, v, s.workers[v])
  {
  }

  lemma OneHasTheClaim(s: World, w: nat, v: nat)
    requires w in s.workers && v in s.workers && WorkerOk(s, w, s.workers[w]) && WorkerOk(s, v, s.workers[v]) && v != w
    requires HasClaim(s.workers[w]) && HasClaim(s.workers[v])
    ensures s.overruled
  {
  }

  lemma EnvironmentLeaves(s: World, e: Event, v: nat)
    requires !IsWorkerEvent(e) && v in s.workers && WorkerOk(s, v, s.workers[v])
    ensures var t := Apply(s, e); Undisturbed(s, t, v) && v in t.workers && t.workers[v] == s.workers[v]
  {
  }

  lemma ClaimLeaves(s: World, w: nat, version: nat, answer: Answer, v: nat)
    requires StoreOk(s) && w in s.workers && v in s.workers && v != w && s.workers[w].Claims?
        && WorkerOk(s, v, s.workers[v])
    ensures var t := TakingClaim(s, w, version, answer);
        Undisturbed(s, t, v) && v in t.workers && t.workers[v] == s.workers[v]
  {
  }

  lemma SendLeaves(s: World, w: nat, delivers: bool, v: nat)
    requires w in s.workers && v in s.workers && v != w && s.workers[w].Sends?
    requires WorkerOk(s, w, s.workers[w]) && WorkerOk(s, v, s.workers[v])
    ensures var t := Sending(s, w, s.workers[w].claim, delivers);
        Undisturbed(s, t, v) && v in t.workers && t.workers[v] == s.workers[v]
  {
    if HasClaim(s.workers[v]) { OneHasTheClaim(s, w, v); }
  }

  lemma ReturnLeaves(s: World, w: nat, reply: Reply, v: nat)
    requires w in s.workers && v in s.workers && v != w && s.workers[w].AwaitsReply?
    requires WorkerOk(s, w, s.workers[w]) && WorkerOk(s, v, s.workers[v])
    ensures var t := Returning(s, w, s.workers[w].claim, reply);
        Undisturbed(s, t, v) && v in t.workers && t.workers[v] == s.workers[v]
  {
    if HasClaim(s.workers[v]) { OneHasTheClaim(s, w, v); }
  }

  lemma WriteLeaves(s: World, w: nat, answer: Answer, v: nat)
    requires w in s.workers && v in s.workers && v != w && IsWrite(s.workers[w])
    requires WorkerOk(s, w, s.workers[w]) && WorkerOk(s, v, s.workers[v])
    ensures var t := Wrote(s, w, s.workers[w], answer);
        Undisturbed(s, t, v) && v in t.workers && t.workers[v] == s.workers[v]
  {
  }

  lemma LocalLeaves(s: World, w: nat, next: Pc, v: nat)
    requires w in s.workers && v in s.workers && v != w
    ensures Undisturbed(s, Give(s, w, next), v) && Give(s, w, next).workers[v] == s.workers[v]
  {
  }

  lemma ActorLeaves(s: World, e: Event, v: nat)
    requires StoreOk(s) && IsWorkerEvent(e) && e.w in s.workers && v in s.workers && v != e.w
    requires WorkerOk(s, e.w, s.workers[e.w]) && WorkerOk(s, v, s.workers[v])
    ensures var t := Apply(s, e); Undisturbed(s, t, v) && v in t.workers && t.workers[v] == s.workers[v]
  {
    var w, pc := e.w, s.workers[e.w];
    if IsLocal(e) {
      LocalLeaves(s, w, Moved(s.row, pc, e), v);
    } else if e.TakeClaim? {
      if pc.Claims? { ClaimLeaves(s, w, pc.version, e.answer, v); }
    } else if e.Write? {
      if IsWrite(pc) { WriteLeaves(s, w, e.answer, v); }
    } else if e.Send? {
      if pc.Sends? { SendLeaves(s, w, e.delivers, v); }
    } else if pc.AwaitsReply? && Honest(e.reply, pc.delivered) {
      ReturnLeaves(s, w, e.reply, v);
    }
  }

  lemma OtherKeeps(s: World, e: Event, v: nat)
    requires Inv(s) && (IsWorkerEvent(e) ==> e.w in s.workers && v != e.w) && v in s.workers
    ensures var t := Apply(s, e); v in t.workers && t.workers[v] == s.workers[v] && WorkerOk(t, v, s.workers[v])
  {
    assert WorkerOk(s, v, s.workers[v]);
    if IsWorkerEvent(e) {
      assert WorkerOk(s, e.w, s.workers[e.w]);
      ActorLeaves(s, e, v);
    } else {
      EnvironmentLeaves(s, e, v);
    }
    UndisturbedKeeps(s, Apply(s, e), v);
  }

  lemma StepAddsNoWorker(s: World, e: Event, v: nat)
    requires IsWorkerEvent(e) && e.w in s.workers && v !in s.workers
    ensures v !in Apply(s, e).workers
  {
  }

  lemma StepKeepsInv(s: World, e: Event)
    requires Inv(s)
    ensures Inv(Apply(s, e))
  {
    var t := Apply(s, e);
    if !IsWorkerEvent(e) {
      EnvironmentKeeps(s, e);
      forall v <- t.workers ensures WorkerOk(t, v, t.workers[v]) {
        if v in s.workers {
          OtherKeeps(s, e, v);
        } else {
          StartKeepsStore(s, v);
        }
      }
    } else if e.w in s.workers {
      ActorKeeps(s, e);
      forall v <- t.workers ensures WorkerOk(t, v, t.workers[v]) {
        if v !in s.workers {
          StepAddsNoWorker(s, e, v);
        } else if v != e.w {
          OtherKeeps(s, e, v);
        }
      }
    } else {
      assert t == s;
    }
  }

  lemma ReachableInv(schedule: seq<Event>)
    ensures Inv(Run(Apply, START, schedule))
  {
    forall t, e {:trigger Apply(t, e)} | Inv(t) ensures Inv(Apply(t, e)) {
      StepKeepsInv(t, e);
    }
    RunKeeps(Apply, Inv, START, schedule);
  }

  // ----- refinement of the write-ahead journal, claim by claim

  function ClaimJournal(s: World, c: nat): WriteAhead.Journal {
    WriteAhead.Journal(
      if c !in s.claims then WriteAhead.Unrecorded
      else if s.row.status == Processing && s.row.version == c then WriteAhead.Recorded else WriteAhead.Settled,
      c in s.claims && s.claims[c] in s.workers && s.workers[s.claims[c]] == Sends(c),
      multiset(s.sends)[c])
  }

  /** A worker moves on, and the record changes at most from processing to another status. */
  lemma QuietRefines(s: World, t: World, c: nat)
    requires t.claims == s.claims && t.sends == s.sends
    requires t.row.status == Processing ==> t.row == s.row
    requires c in s.claims && s.claims[c] in t.workers && t.workers[s.claims[c]] == Sends(c) ==>
      s.claims[c] in s.workers && s.workers[s.claims[c]] == Sends(c)
    ensures WriteAhead.Follows(ClaimJournal(s, c), ClaimJournal(t, c))
  {
  }

  lemma SendRefines(s: World, w: nat, delivers: bool, c: nat)
    requires w in s.workers && s.workers[w].Sends? && ClaimHeld(s, w, s.workers[w])
    ensures WriteAhead.Follows(ClaimJournal(s, c), ClaimJournal(Sending(s, w, s.workers[w].claim, delivers), c))
  {
  }

  lemma ClaimRefines(s: World, w: nat, answer: Answer, c: nat)
    requires StoreOk(s) && w in s.workers && s.workers[w].Claims? && ClaimHeld(s, w, s.workers[w])
    ensures WriteAhead.Follows(ClaimJournal(s, c), ClaimJournal(TakingClaim(s, w, s.workers[w].version, answer), c))
  {
  }

  lemma ReturnRefines(s: World, w: nat, claim: nat, reply: Reply, c: nat)
    requires w in s.workers && s.workers[w].AwaitsReply?
    ensures WriteAhead.Follows(ClaimJournal(s, c), ClaimJournal(Returning(s, w, claim, reply), c))
  {
  }

  lemma WriteRefines(s: World, w: nat, answer: Answer, c: nat)
    requires w in s.workers && IsWrite(s.workers[w]) && ClaimHeld(s, w, s.workers[w])
    ensures WriteAhead.Follows(ClaimJournal(s, c), ClaimJournal(Wrote(s, w, s.workers[w], answer), c))
  {
  }

  lemma EnvironmentRefines(s: World, e: Event, c: nat)
    requires StoreOk(s) && !IsWorkerEvent(e)
    ensures WriteAhead.Follows(ClaimJournal(s, c), ClaimJournal(Apply(s, e), c))
  {
  }

  lemma RefinesJournal(s: World, e: Event, c: nat)
    requires Inv(s)
    ensures WriteAhead.Follows(ClaimJournal(s, c), ClaimJournal(Apply(s, e), c))
  {
    if !IsWorkerEvent(e) {
      EnvironmentRefines(s, e, c);
    } else if e.w in s.workers {
      var w, pc := e.w, s.workers[e.w];
      assert WorkerOk(s, w, pc);
      if IsLocal(e) {
        MovedShifts(s, w, pc, e);
        QuietRefines(s, Give(s, w, Moved(s.row, pc, e)), c);
      } else if e.TakeClaim? {
        if pc.Claims? { ClaimRefines(s, w, e.answer, c); }
      } else if e.Send? {
        if pc.Sends? { SendRefines(s, w, e.delivers, c); }
      } else if e.SendReturns? {
        if pc.AwaitsReply? && Honest(e.reply, pc.delivered) { ReturnRefines(s, w, pc.claim, e.reply, c); }
      } else if IsWrite(pc) {
        WriteRefines(s, w, e.answer, c);
      }
    }
  }

  /** Every claim sends at most once, although recovery does not wait for its worker. */
  lemma ClaimSendsAtMostOnce(schedule: seq<Event>, c: nat)
    ensures multiset(Run(Apply, START, schedule).sends)[c] <= 1
  {
    forall t, e {:trigger Apply(t, e)} | Inv(t)
      ensures Inv(Apply(t, e)) && WriteAhead.Follows(ClaimJournal(t, c), ClaimJournal(Apply(t, e), c))
    {
      StepKeepsInv(t, e);
      RefinesJournal(t, e, c);
    }
    WriteAhead.RefinementFiresAtMostOnce(Apply, Inv, s => ClaimJournal(s, c), START, schedule);
  }

  /**
   A success that no operator confirmed was delivered, and carries the id that the provider gave to that very claim;
   every other reply id was typed by an operator. Until an operator turns an uncertain reply into a failed one, at most
   one reply is ever delivered, and failed, queued or cancelled means that none was.
   */
  lemma StatusesAreTruthful(schedule: seq<Event>)
    ensures var s := Run(Apply, START, schedule);
      && (s.row.status == Succeeded && !s.confirmed ==> Evidenced(s))
      && (s.row.replyId.Some? && (s.row.status == Succeeded ==> s.confirmed) ==> s.row.replyId.value in s.typed)
      && (!s.overruled ==> |s.deliveries| <= 1 && (s.row.status in {Failed, Queued, Cancelled} ==> s.deliveries == []))
  {
    ReachableInv(schedule);
  }

  // ----- how long a claim may still deliver

  ghost predicate MayStillDeliver(s: World, c: nat) {
    exists schedule :: c in Run(Apply, s, schedule).deliveries
  }

  ghost predicate Spent(s: World, c: nat) {
    Inv(s) && Quiet(s, c)
  }

  /** No delivery of `c`, and nobody before its send. */
  predicate Quiet(s: World, c: nat) {
    c in s.claims && c !in s.deliveries && forall w <- s.workers :: s.workers[w] != Sends(c)
  }

  lemma ClaimStaysQuiet(s: World, w: nat, version: nat, answer: Answer, c: nat)
    requires StoreOk(s) && Quiet(s, c)
    ensures Quiet(TakingClaim(s, w, version, answer), c)
  {
  }

  lemma WriteStaysQuiet(s: World, w: nat, answer: Answer, c: nat)
    requires w in s.workers && IsWrite(s.workers[w]) && Quiet(s, c)
    ensures Quiet(Wrote(s, w, s.workers[w], answer), c)
  {
  }

  lemma CallStaysQuiet(s: World, e: Event, c: nat)
    requires (e.Send? || e.SendReturns?) && e.w in s.workers && Quiet(s, c)
    ensures Quiet(Apply(s, e), c)
  {
    assert s.workers[e.w] != Sends(c);
  }

  lemma StepStaysQuiet(s: World, e: Event, c: nat)
    requires Inv(s) && Quiet(s, c)
    ensures Quiet(Apply(s, e), c)
  {
    if IsWorkerEvent(e) && e.w in s.workers {
      var w, pc := e.w, s.workers[e.w];
      assert WorkerOk(s, w, pc);
      if IsLocal(e) {
        MovedShifts(s, w, pc, e);
      } else if e.TakeClaim? {
        if pc.Claims? { ClaimStaysQuiet(s, w, pc.version, e.answer, c); }
      } else if e.Write? {
        if IsWrite(pc) { WriteStaysQuiet(s, w, e.answer, c); }
      } else {
        CallStaysQuiet(s, e, c);
      }
    }
  }

  lemma SpentStays(s: World, e: Event, c: nat)
    requires Spent(s, c)
    ensures Spent(Apply(s, e), c)
  {
    StepKeepsInv(s, e);
    StepStaysQuiet(s, e, c);
  }

  /**
   A claim that has not delivered may still do so exactly while its worker stands before the send, whatever the record
   says by then.
   */
  lemma LateReplyIff(s: World, c: nat)
    requires Inv(s) && c in s.claims && c !in s.deliveries
    ensures MayStillDeliver(s, c) <==> exists w :: w in s.workers && s.workers[w] == Sends(c)
  {
    if w :| w in s.workers && s.workers[w] == Sends(c) {
      var t := Apply(s, Send(w, true));
      assert Run(Apply, s, [Send(w, true)]) == Run(Apply, t, []) == t;
      assert t.deliveries[|s.deliveries|] == c;
    } else {
      forall t, e {:trigger Apply(t, e)} | Spent(t, c) ensures Spent(Apply(t, e), c) {
        SpentStays(t, e, c);
      }
      forall schedule ensures Spent(Run(Apply, s, schedule), c) {
        RunKeeps(Apply, t => Spent(t, c), s, schedule);
      }
    }
  }

  /**
   What a caller can check: a reply that failed or is queued, and that no operator denied, was not and will not be
   delivered by any claim so far.
   */
  lemma FailedStaysUndelivered(s: World, c: nat)
    requires Inv(s) && c in s.claims && !s.overruled && s.row.status in {Failed, Queued, Cancelled}
    ensures c !in s.deliveries && !MayStillDeliver(s, c)
  {
    forall w | w in s.workers ensures s.workers[w] != Sends(c) {
      assert WorkerOk(s, w, s.workers[w]);
    }
    LateReplyIff(s, c);
  }

  lemma ReachesSend(w: nat) returns (s: World)
    ensures Reaches(Apply, START, s)
    ensures s == World(Row(Processing, 1, None), map[w := Sends(1)], map[1 := w], Some(w), [], [], map[], {}, false,
        false)
  {
    Here(Apply, START);
    s := Onward(Apply, START, START, Start(w));
    s := Onward(Apply, START, s, Read(w));
    assert s.workers == map[w := Claims(0)];
    s := Onward(Apply, START, s, TakeClaim(w, Answers));
    assert s.workers == map[w := Sends(1)];
  }

  /**
   The family is not empty: recovery overtakes a live worker, the operator decides, and the reply goes out under a
   failed record.
   */
  lemma DeliveredAfterFailed(w: nat) returns (s: World)
    ensures Reaches(Apply, START, s) && s.row.status == Failed && s.deliveries == [1]
  {
    s := ReachesSend(w);
    s := Onward(Apply, START, s, Recover);
    assert s.row == Row(Uncertain, 2, None) && s.workers == map[w := Sends(1)];
    s := Onward(Apply, START, s, OperatorMoves(Failed, None));
    assert s.row == Row(Failed, 3, None);
    s := Onward(Apply, START, s, Send(w, true));
  }

  /** The protocol can succeed. */
  lemma ReplySucceeds(w: nat, id: nat) returns (s: World)
    ensures Reaches(Apply, START, s) && s.row.status == Succeeded && s.row.replyId == Some(id) && s.deliveries == [1]
  {
    s := ReachesSend(w);
    s := Onward(Apply, START, s, Send(w, true));
    assert s.workers == map[w := AwaitsReply(1, true)];
    s := Onward(Apply, START, s, SendReturns(w, Replied(id)));
    assert s.workers == map[w := Records(1, id)];
    s := Onward(Apply, START, s, Write(w, Answers));
  }
}
