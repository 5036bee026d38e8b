/**
 The Instagram publication under any number of interleaved workers. A worker's handler is cut at every await;
 between two cuts other workers, crashes, lease expiry, edits and an operator's confirmation may come in.
 Two fences meet here. The record of the provider operation has an owner lease: that is the World, which lets a
 worker turn to the content item and to its claim whenever it likes. The content item has a version: that is the
 Desk. A System is both, and every one of its actions is at most one event of the World.
 */
module InstagramPublish {
  import opened Runs
  import opened ProviderOperations
  import WriteAhead

  datatype NextStep = Create | Wait | Finalize | Complete | ManualReconcile | GiveUp

  function OfficialPublishNextStep(operation: Option<Operation>): NextStep {
    match operation
    case None => Create
    case Some(o) =>
      match o.status
      case Creating => ManualReconcile
      case Processing => Wait
      case Ready => Finalize
      case Published => Complete
      case Finalizing => ManualReconcile
      case Uncertain => ManualReconcile
      case Failed => GiveUp
  }

  /** A change of the content item: a new attempt, or a verdict on the attempt or the target. */
  datatype Chore = Open | Mark | Review | Fail | Break | Finish | Flag

  /** What a worker has to do with the content item: commit a change, read it again after a lost claim, nothing. */
  datatype Task = Files(chore: Chore) | Rereads | Nothing

  /** What a worker does once its pending save is answered. */
  datatype After = Created | Relabelled | BecameReady | Intended | Final(chore: Chore)

  /** `held` is the worker's own copy of the stored operation. */
  datatype Pc =
    | Off(task: Task)
    | Claims(attempt: nat)
    | CallsCreate(attempt: nat, held: Operation)
    | AwaitsCreate(attempt: nat, held: Operation)
    | Saves(attempt: nat, held: Operation, next: Operation, after: After)
    | AwaitsReady(attempt: nat, held: Operation)
    | CallsFinalize(held: Operation)
    | AwaitsFinalize(held: Operation)

  datatype Readiness = IsReady | TerminalError | OtherError

  datatype Event =
    | Turn(w: nat, pc: Pc)                      // a worker without a copy turns to the content item, or to its claim
    | Claim(w: nat)
    | CallCreate(w: nat)
    | CreateReturns(w: nat, container: Option<nat>, matches: bool)
    | Save(w: nat)
    | SaveThrows(w: nat, applied: bool)         // the database failed; the write may have been applied
    | WaitReturns(w: nat, readiness: Readiness)
    | CallFinalize(w: nat)
    | FinalizeReturns(w: nat, post: Option<nat>)
    | Crash(w: nat)
    | Tick(ms: nat)
    | OperatorReads(o: nat)                     // an operator looks at an uncertain record
    | OperatorCommits(o: nat, found: nat)       // and later stores its confirmation, without a lease

  /**
   `creator` inserted the record, `finalizer` made the finalizing intent durable; the rest logs the provider.
   `collaborators`: the approved settings invite some; `matching`: the create call answered with that invitation.
   */
  datatype World = World(
    row: Option<Row>, clock: int, workers: map<nat, Pc>,
    creator: Option<nat>, finalizer: Option<nat>,
    creates: seq<nat>, containers: set<nat>, finalizes: seq<Option<nat>>, posts: set<nat>, confirmed: set<nat>,
    reviews: map<nat, Operation>, collaborators: bool, matching: bool)

  function Fresh(collaborators: bool): World {
    World(None, 0, map[], None, None, [], {}, [], {}, {}, map[], collaborators, false)
  }

  function Seed(attempt: nat): Operation {
    Operation(Creating, attempt)
  }

  function Give(s: World, w: nat, pc: Pc): World {
    s.(workers := s.workers[w := pc])
  }

  /** From a decided record to the next provider step. */
  function Route(attempt: nat, held: Operation): Pc {
    match OfficialPublishNextStep(Some(held))
    case ManualReconcile =>
      if held.status == Finalizing then Saves(attempt, held, held.(status := Uncertain), Final(Review))
      else Off(Files(Review))
    case Complete => Off(Files(Finish))
    case GiveUp => Off(Files(Fail))
    case Wait => AwaitsReady(attempt, held)
    case Finalize => Saves(attempt, held, held.(status := Finalizing), Intended)
    case Create => Off(Nothing)
  }

  /** The record belongs to the approved draft, account and settings: all but the invitation is fixed by the seed. */
  predicate Matches(s: World, held: Operation) {
    s.collaborators ==> held.containerId.Some? && s.matching
  }

  /** The worker holds the claim on an operation: check its lineage, move it to this attempt, then go on. */
  function Proceed(attempt: nat, held: Operation, created: bool, lineage: bool): Pc {
    if !created && !lineage then Saves(attempt, held, held.(status := Uncertain), Final(Review))
    else if held.attempt != attempt then Saves(attempt, held, held.(attempt := attempt), Relabelled)
    else Route(attempt, held)
  }

  function Claimed(s: World, w: nat, attempt: nat): World {
    var (claim, row) := Claiming(s.row, Seed(attempt), w, s.clock);
    if !claim.claimed then Give(s, w, Off(Nothing))
    else if claim.created then
      Give(s.(row := row, creator := Some(w)), w, CallsCreate(attempt, claim.operation))
    else if claim.operation.status == Creating then
      Give(s.(row := row), w, Saves(attempt, claim.operation, claim.operation.(status := Uncertain), Final(Review)))
    else
      Give(s.(row := row), w, Proceed(attempt, claim.operation, false, Matches(s, claim.operation)))
  }

  /** The save was applied and acknowledged. */
  function Saved(pc: Pc): Pc
    requires pc.Saves?
  {
    match pc.after
    case Created => Proceed(pc.attempt, pc.next, true, true)
    case Relabelled => Route(pc.attempt, pc.next)
    case BecameReady => Saves(pc.attempt, pc.next, pc.next.(status := Finalizing), Intended)
    case Intended => CallsFinalize(pc.next)
    case Final(chore) => Off(Files(chore))
  }

  /** The lease was lost: only the readiness save sits inside a handler that saves once more. */
  function Refused(pc: Pc): Pc
    requires pc.Saves?
  {
    if pc.after == BecameReady then pc.(after := Final(Fail)) else Off(Rereads)
  }

  /** The database threw: the create handler records uncertainty, the readiness handler saves again. */
  function Threw(pc: Pc): Pc
    requires pc.Saves?
  {
    match pc.after
    case Created => Saves(pc.attempt, pc.held, pc.held.(status := Uncertain), Final(Review))
    case BecameReady => pc.(after := Final(Fail))
    case _ => Off(Files(Fail))
  }

  function Write(s: World, w: nat, pc: Pc): World
    requires pc.Saves?
  {
    var (saved, row) := SavingClaimed(s.row, pc.next, w, s.clock);
    if saved && pc.next.status == Finalizing && s.finalizer.None? && pc.after == Intended
    then s.(row := row, finalizer := Some(w))
    else s.(row := row)
  }

  /** An operator may confirm only what it read as uncertain. */
  function Reviewing(s: World, o: nat): World {
    if s.row.Some? && s.row.value.operation.status == Uncertain then
        s.(reviews := s.reviews[o := s.row.value.operation]) else s
  }

  /** The confirmation must fit what was read; it is written over whatever the record holds by then. */
  predicate MayConfirm(s: World, o: nat, found: nat) {
    o in s.reviews && s.row.Some? && s.reviews[o].externalPostId in {None, Some(found)} && Matches(s, s.reviews[o])
  }

  function Confirming(s: World, o: nat, found: nat): World {
    if MayConfirm(s, o, found) then
      s.(row := Some(s.row.value.(operation := s.reviews[o].(status := Published, externalPostId := Some(found)))),
         confirmed := s.confirmed + {found})
    else s
  }

  predicate BeforeClaim(pc: Pc) {
    pc in {Off(Files(Open)), Off(Files(Mark))} || pc.Claims?
  }

  /** Only a worker that has not claimed yet can get to its claim. */
  predicate MayTurn(s: World, w: nat, pc: Pc) {
    && (pc.Off? || pc.Claims?)
    && (w in s.workers ==>
          var now := s.workers[w]; (now.Off? || now.Claims?) && (BeforeClaim(pc) ==> BeforeClaim(now)))
  }

  predicate IsWorkerEvent(e: Event) {
    !e.Turn? && !e.Tick? && !e.OperatorReads? && !e.OperatorCommits?
  }

  function Apply(s: World, e: Event): World {
    if e.Tick? then s.(clock := s.clock + e.ms)
    else if e.OperatorReads? then Reviewing(s, e.o)
    else if e.OperatorCommits? then Confirming(s, e.o, e.found)
    else if e.Turn? then (if MayTurn(s, e.w, e.pc) then Give(s, e.w, e.pc) else s)
    else if e.w in s.workers then Step(s, e, s.workers[e.w])
    else s
  }

  function AfterCreate(attempt: nat, held: Operation, container: Option<nat>): Pc {
    if container.Some? then Saves(attempt, held, held.(status := Processing, containerId := container), Created)
    else Saves(attempt, held, held.(status := Uncertain), Final(Review))
  }

  function AfterWait(attempt: nat, held: Operation, readiness: Readiness): Pc {
    match readiness
    case IsReady => Saves(attempt, held, held.(status := Ready), BecameReady)
    case TerminalError => Saves(attempt, held, held.(status := Failed), Final(Fail))
    case OtherError => Saves(attempt, held, held, Final(Fail))
  }

  function AfterFinalize(held: Operation, post: Option<nat>): Pc {
    if post.Some? then Saves(held.attempt, held, held.(status := Published, externalPostId := post), Final(Finish))
    else Saves(held.attempt, held, held.(status := Uncertain), Final(Review))
  }

  function Log(ids: set<nat>, id: Option<nat>): set<nat> {
    if id.Some? then ids + {id.value} else ids
  }

  function Answering(s: World, w: nat, pc: Pc): World
    requires pc.Saves?
  {
    Give(Write(s, w, pc), w, if SavingClaimed(s.row, pc.next, w, s.clock).0 then Saved(pc) else Refused(pc))
  }

  function Throwing(s: World, w: nat, pc: Pc, applied: bool): World
    requires pc.Saves?
  {
    Give(if applied then Write(s, w, pc) else s, w, Threw(pc))
  }

  function Step(s: World, e: Event, pc: Pc): World
    requires IsWorkerEvent(e)
  {
    match e
    case Crash(w) => Give(s, w, Off(Nothing))
    case Claim(w) => if pc.Claims? then Claimed(s, w, pc.attempt) else s
    case CallCreate(w) =>
      if pc.CallsCreate? then Give(s.(creates := s.creates + [w]), w, AwaitsCreate(pc.attempt, pc.held)) else s
    case CreateReturns(w, container, matches) =>
      if pc.AwaitsCreate?
      then Give(s.(containers := Log(s.containers, container), matching := matches), w,
          AfterCreate(pc.attempt, pc.held, container))
      else s
    case Save(w) => if pc.Saves? then Answering(s, w, pc) else s
    case SaveThrows(w, applied) => if pc.Saves? then Throwing(s, w, pc, applied) else s
    case WaitReturns(w, readiness) =>
        if pc.AwaitsReady? then Give(s, w, AfterWait(pc.attempt, pc.held, readiness)) else s
    case CallFinalize(w) =>
      if pc.CallsFinalize? then Give(s.(finalizes := s.finalizes + [pc.held.containerId]), w, AwaitsFinalize(pc.held))
      else s
    case FinalizeReturns(w, post) =>
      if pc.AwaitsFinalize? then Give(s.(posts := Log(s.posts, post)), w, AfterFinalize(pc.held, post)) else s
  }

  // ----- invariants

  predicate BeforeIntent(status: Status) {
    status in {Creating, Processing, Ready}
  }

  /** A worker that may still write an early status, or take the finalizing intent. */
  predicate MayStillAdvance(pc: Pc) {
    match pc
    case CallsCreate(_, _) => true
    case AwaitsCreate(_, _) => true
    case AwaitsReady(_, _) => true
    case Saves(_, _, next, after) => BeforeIntent(next.status) || after == Intended
    case _ => false
  }

  /** A worker whose copy of the record still decides a provider call. */
  predicate Relies(pc: Pc) {
    pc.CallsCreate? || pc.AwaitsCreate? || pc.AwaitsReady? || pc.CallsFinalize? || pc.AwaitsFinalize? ||
    (pc.Saves? && !pc.after.Final?)
  }

  predicate OwnedBy(s: World, w: nat) {
    s.row.Some? && s.row.value.owner == Some(w)
  }

  /** Container and post ids in a record come from the provider, or from the operator. */
  predicate Grounded(s: World, o: Operation) {
    && (o.containerId.Some? ==> o.containerId.value in s.containers)
    && (o.status in {Processing, Ready, Finalizing} ==> o.containerId.Some?)
    && (o.externalPostId.Some? ==> o.externalPostId.value in s.posts + s.confirmed)
    && (o.status == Published ==> o.externalPostId.Some? && (s.collaborators ==> o.containerId.Some?))
  }

  /** The intent save is the only one that writes `finalizing` over another status. */
  predicate WellShaped(pc: Pc) {
    match pc
    case CallsCreate(_, h) => h.status == Creating
    case AwaitsCreate(_, h) => h.status == Creating
    case AwaitsReady(_, h) => h.status == Processing
    case CallsFinalize(h) => h.status == Finalizing
    case AwaitsFinalize(h) => h.status == Finalizing
    case Saves(_, h, n, after) =>
      && (after == Intended <==> n.status == Finalizing && h.status == Ready)
      && (after == BecameReady ==> n.status == Ready && h.status == Processing)
      && (after == Created ==> n.status == Processing && h.status == Creating)
      && (after == Relabelled ==> n.status == h.status != Creating)
      && (n.status == Finalizing ==> after in {Intended, Relabelled})
      && n.status != Creating
      && (after.Final? ==> after.chore in {Review, Fail, Finish})
    case _ => true
  }

  predicate GroundedPc(s: World, pc: Pc) {
    match pc
    case Saves(_, h, n, _) => Grounded(s, h) && Grounded(s, n)
    case Claims(_) => true
    case Off(_) => true
    case _ => Grounded(s, pc.held)
  }

  /**
   Only the creator may call create, only the finalizer may call finalize, and an owner that may still advance precedes
   both.
   */
  predicate Fenced(s: World, w: nat, pc: Pc) {
    && (pc.CallsCreate? ==> s.creator == Some(w) && s.creates == [])
    && (pc.AwaitsCreate? ==> s.creator == Some(w) && s.creates != [] && s.containers == {})
    && (pc.CallsFinalize? ==> s.finalizer == Some(w) && s.finalizes == [])
    && (pc.AwaitsFinalize? ==> s.finalizer == Some(w) && s.finalizes != [] && s.posts == {})
    && (OwnedBy(s, w) && MayStillAdvance(pc) ==> s.finalizer.None?)
    && (OwnedBy(s, w) && MayStillAdvance(pc) ==> BeforeIntent(s.row.value.operation.status))
    && (s.row.None? ==> pc.Claims? || pc.Off?)
  }

  /** While a worker owns the record, its copy is the stored one, unless an operator has stepped in. */
  predicate CopyAgrees(s: World, w: nat, pc: Pc) {
    s.confirmed == {} && OwnedBy(s, w) && Relies(pc) ==> pc.held == s.row.value.operation
  }

  predicate WorkerOk(s: World, w: nat, pc: Pc) {
    WellShaped(pc) && GroundedPc(s, pc) && Fenced(s, w, pc) && CopyAgrees(s, w, pc)
  }

  ghost predicate AtMostOne(ids: set<nat>) {
    forall a, b :: a in ids && b in ids ==> a == b
  }

  predicate Late(s: World) {
    s.row.Some? && !BeforeIntent(s.row.value.operation.status)
  }

  ghost predicate StoreOk(s: World) {
    && (s.creator.None? <==> s.row.None?)
    && (s.row.None? ==> s.finalizer.None? && s.creates == [])
    && (s.finalizer.None? ==> s.finalizes == [])
    && (s.creates == [] ==> s.containers == {}) && AtMostOne(s.containers)
    && (s.finalizes == [] ==> s.posts == {}) && AtMostOne(s.posts)
    && (s.row.Some? && BeforeIntent(s.row.value.operation.status) ==> s.finalizer.None?)
    && |s.creates| <= 1 && |s.finalizes| <= 1
    && (s.row.Some? ==> Grounded(s, s.row.value.operation))
    && (forall c <- s.finalizes :: c.Some? && c.value in s.containers)
    && (forall o <- s.reviews :: Grounded(s, s.reviews[o]) && Late(s))
    && (s.row.Some? && s.row.value.owner.Some? ==>
          s.row.value.owner.value in s.workers && !BeforeClaim(s.workers[s.row.value.owner.value]))
  }

  ghost predicate Inv(s: World) {
    StoreOk(s) && forall w <- s.workers :: WorkerOk(s, w, s.workers[w])
  }

  /** What one event of worker `w` leaves of the shared state, as any other worker `v` sees it. */
  ghost predicate Undisturbed(s: World, t: World, v: nat) {
    && s.containers <= t.containers && s.posts <= t.posts && s.confirmed <= t.confirmed
        && t.collaborators == s.collaborators
    && (s.row.Some? ==> t.row.Some?)
    && (OwnedBy(t, v) ==>
        OwnedBy(s, v) && t.finalizer == s.finalizer
        && (t.row.value.operation == s.row.value.operation || (t.confirmed != {} && Late(s))))
    && (s.creator.Some? ==> t.creator == s.creator)
    && (s.creator == Some(v) ==> t.creates == s.creates && t.containers == s.containers)
    && (s.finalizer.Some? ==> t.finalizer == s.finalizer)
    && (s.finalizer == Some(v) ==> t.finalizes == s.finalizes && t.posts == s.posts)
  }

  /** A copy that a worker may carry on with. */
  predicate Usable(s: World, w: nat, held: Operation) {
    && s.row.Some? && Grounded(s, held) && held.status != Creating
    && (OwnedBy(s, w) ==>
          && (BeforeIntent(held.status) ==> s.finalizer.None?)
          && held == s.row.value.operation)
  }

  lemma RouteOk(s: World, w: nat, attempt: nat, held: Operation)
    requires Usable(s, w, held)
    ensures WorkerOk(s, w, Route(attempt, held))
  {
  }

  lemma ProceedOk(s: World, w: nat, attempt: nat, held: Operation, created: bool, lineage: bool)
    requires Usable(s, w, held)
    ensures WorkerOk(s, w, Proceed(attempt, held, created, lineage))
  {
  }

  lemma NewClaimKeeps(s: World, w: nat, attempt: nat)
    requires Inv(s) && w in s.workers && s.workers[w].Claims? && s.row.None?
    ensures var t := Claimed(s, w, attempt); StoreOk(t) && WorkerOk(t, w, t.workers[w])
  {
  }

  lemma LeaseKeepsStore(s: World, w: nat, row: Row, pc: Pc)
    requires StoreOk(s) && w in s.workers && s.row.Some? && row.operation == s.row.value.operation
    requires row.owner == Some(w) && !BeforeClaim(pc)
    ensures StoreOk(Give(s.(row := Some(row)), w, pc))
  {
  }

  lemma ClaimKeeps(s: World, w: nat, attempt: nat)
    requires Inv(s) && w in s.workers && s.workers[w].Claims?
    ensures var t := Claimed(s, w, attempt); StoreOk(t) && WorkerOk(t, w, t.workers[w])
  {
    var (claim, row) := Claiming(s.row, Seed(attempt), w, s.clock);
    var t := Claimed(s, w, attempt);
    if claim.created {
      NewClaimKeeps(s, w, attempt);
    } else if claim.claimed {
      LeaseKeepsStore(s, w, row.value, t.workers[w]);
      if claim.operation.status != Creating {
        ProceedOk(s.(row := row), w, attempt, claim.operation, false, Matches(s, claim.operation));
      }
    } else {
      CrashKeeps(s, w);
    }
  }

  lemma WriteKeeps(s: World, w: nat, pc: Pc)
    requires StoreOk(s) && w in s.workers && !BeforeClaim(s.workers[w]) && pc.Saves? && WorkerOk(s, w, pc)
    ensures var t := Write(s, w, pc);
      && StoreOk(t)
      && (SavingClaimed(s.row, pc.next, w, s.clock).0 ==> OwnedBy(t, w) && t.row.value.operation == pc.next)
      && (pc.after == Intended && SavingClaimed(s.row, pc.next, w, s.clock).0 ==>
          s.finalizer.None? && t.finalizer == Some(w))
      && (pc.after != Intended ==> t.finalizer == s.finalizer)
  {
  }

  lemma SavedOk(s: World, w: nat, pc: Pc)
    requires StoreOk(s) && w in s.workers && !BeforeClaim(s.workers[w]) && pc.Saves? && WorkerOk(s, w, pc)
    requires SavingClaimed(s.row, pc.next, w, s.clock).0
    ensures WorkerOk(Write(s, w, pc), w, Saved(pc))
  {
    WriteKeeps(s, w, pc);
    var t := Write(s, w, pc);
    match pc.after
    case Created => ProceedOk(t, w, pc.attempt, pc.next, true, true);
    case Relabelled => RouteOk(t, w, pc.attempt, pc.next);
    case _ =>
  }

  lemma UnsavedOk(s: World, w: nat, pc: Pc)
    requires StoreOk(s) && w in s.workers && !BeforeClaim(s.workers[w]) && pc.Saves? && WorkerOk(s, w, pc)
    ensures WorkerOk(s, w, Refused(pc)) && WorkerOk(s, w, Threw(pc)) && WorkerOk(Write(s, w, pc), w, Threw(pc))
  {
  }

  lemma GiveKeeps(s: World, w: nat, pc: Pc)
    requires StoreOk(s) && w in s.workers && !BeforeClaim(pc)
    ensures StoreOk(Give(s, w, pc)) && (WorkerOk(s, w, pc) ==> WorkerOk(Give(s, w, pc), w, pc))
  {
  }

  lemma AnswerKeeps(s: World, w: nat)
    requires StoreOk(s) && w in s.workers && s.workers[w].Saves? && WorkerOk(s, w, s.workers[w])
    ensures var t := Answering(s, w, s.workers[w]); StoreOk(t) && w in t.workers && WorkerOk(t, w, t.workers[w])
  {
    var pc := s.workers[w];
    if SavingClaimed(s.row, pc.next, w, s.clock).0 {
      WriteKeeps(s, w, pc);
      SavedOk(s, w, pc);
      GiveKeeps(Write(s, w, pc), w, Saved(pc));
    } else {
      UnsavedOk(s, w, pc);
      GiveKeeps(s, w, Refused(pc));
    }
  }

  lemma ThrowKeeps(s: World, w: nat, applied: bool)
    requires StoreOk(s) && w in s.workers && s.workers[w].Saves? && WorkerOk(s, w, s.workers[w])
    ensures var t := Throwing(s, w, s.workers[w], applied); StoreOk(t) && w in t.workers && WorkerOk(t, w, t.workers[w])
  {
    var pc := s.workers[w];
    WriteKeeps(s, w, pc);
    UnsavedOk(s, w, pc);
    GiveKeeps(if applied then Write(s, w, pc) else s, w, Threw(pc));
  }

  lemma CrashKeeps(s: World, w: nat)
    requires Inv(s) && w in s.workers
    ensures var t := Give(s, w, Off(Nothing)); StoreOk(t) && WorkerOk(t, w, t.workers[w])
  {
    assert WorkerOk(s, w, s.workers[w]);
    GiveKeeps(s, w, Off(Nothing));
  }

  lemma CallCreateKeeps(s: World, w: nat)
    requires Inv(s) && w in s.workers && s.workers[w].CallsCreate?
    ensures var t := Step(s, CallCreate(w), s.workers[w]); StoreOk(t) && WorkerOk(t, w, t.workers[w])
  {
    assert WorkerOk(s, w, s.workers[w]);
  }

  lemma CreateReturnKeeps(s: World, w: nat, container: Option<nat>, matches: bool)
    requires Inv(s) && w in s.workers && s.workers[w].AwaitsCreate?
    ensures var t := Step(s, CreateReturns(w, container, matches), s.workers[w]);
        StoreOk(t) && WorkerOk(t, w, t.workers[w])
  {
    assert WorkerOk(s, w, s.workers[w]);
  }

  lemma WaitReturnKeeps(s: World, w: nat, readiness: Readiness)
    requires Inv(s) && w in s.workers && s.workers[w].AwaitsReady?
    ensures var t := Give(s, w, AfterWait(s.workers[w].attempt, s.workers[w].held, readiness));
        StoreOk(t) && WorkerOk(t, w, t.workers[w])
  {
    assert WorkerOk(s, w, s.workers[w]);
    GiveKeeps(s, w, AfterWait(s.workers[w].attempt, s.workers[w].held, readiness));
  }

  lemma CallFinalizeKeeps(s: World, e: Event)
    requires Inv(s) && e.CallFinalize? && e.w in s.workers
    ensures var t := Apply(s, e); StoreOk(t) && WorkerOk(t, e.w, t.workers[e.w])
  {
    assert WorkerOk(s, e.w, s.workers[e.w]);
  }

  lemma FinalizeReturnKeeps(s: World, w: nat, post: Option<nat>)
    requires Inv(s) && w in s.workers && s.workers[w].AwaitsFinalize?
    ensures var t := Give(s.(posts := Log(s.posts, post)), w, AfterFinalize(s.workers[w].held, post));
      StoreOk(t) && WorkerOk(t, w, t.workers[w])
  {
    assert WorkerOk(s, w, s.workers[w]);
    var t := s.(posts := Log(s.posts, post));
    assert StoreOk(t);
    GiveKeeps(t, w, AfterFinalize(s.workers[w].held, post));
  }

  lemma ClaimLeavesOthers(s: World, w: nat, attempt: nat, v: nat)
    requires StoreOk(s) && v in s.workers && v != w && WorkerOk(s, v, s.workers[v])
    ensures var t := Claimed(s, w, attempt); Undisturbed(s, t, v) && v in t.workers && t.workers[v] == s.workers[v]
  {
  }

  lemma WriteLeavesOthers(s: World, w: nat, pc: Pc, v: nat)
    requires StoreOk(s) && pc.Saves? && WorkerOk(s, w, pc) && v != w
    ensures Undisturbed(s, Write(s, w, pc), v)
  {
  }

  lemma CallLeavesOthers(s: World, e: Event, v: nat)
    requires IsWorkerEvent(e) && !e.Claim? && !e.Save? && !e.SaveThrows? && e.w in s.workers && v in s.workers
        && v != e.w
    requires Fenced(s, e.w, s.workers[e.w])
    ensures var t := Step(s, e, s.workers[e.w]); Undisturbed(s, t, v) && v in t.workers && t.workers[v] == s.workers[v]
  {
  }

  lemma SaveLeavesOthers(s: World, e: Event, v: nat)
    requires StoreOk(s) && (e.Save? || e.SaveThrows?) && e.w in s.workers && v in s.workers && v != e.w
    requires WorkerOk(s, e.w, s.workers[e.w])
    ensures var t := Step(s, e, s.workers[e.w]); Undisturbed(s, t, v) && v in t.workers && t.workers[v] == s.workers[v]
  {
    if s.workers[e.w].Saves? { WriteLeavesOthers(s, e.w, s.workers[e.w], v); }
  }

  lemma OthersUndisturbed(s: World, e: Event, v: nat)
    requires Inv(s) && IsWorkerEvent(e) && e.w in s.workers && v in s.workers && v != e.w
    ensures var t := Apply(s, e); Undisturbed(s, t, v) && v in t.workers && t.workers[v] == s.workers[v]
  {
    var w, pc := e.w, s.workers[e.w];
    assert WorkerOk(s, w, pc) && WorkerOk(s, v, s.workers[v]);
    if e.Claim? {
      if pc.Claims? { ClaimLeavesOthers(s, w, pc.attempt, v); }
    } else if e.Save? || e.SaveThrows? {
      SaveLeavesOthers(s, e, v);
    } else {
      CallLeavesOthers(s, e, v);
    }
  }

  lemma UndisturbedKeeps(s: World, t: World, v: nat)
    requires v in s.workers && WorkerOk(s, v, s.workers[v]) && Undisturbed(s, t, v)
    ensures WorkerOk(t, v, s.workers[v])
  {
  }

  lemma ReviewKeeps(s: World, o: nat)
    requires StoreOk(s)
    ensures StoreOk(Reviewing(s, o)) && forall v :: Undisturbed(s, Reviewing(s, o), v)
  {
  }

  lemma ConfirmKeeps(s: World, o: nat, found: nat)
    requires StoreOk(s)
    ensures StoreOk(Confirming(s, o, found)) && forall v :: Undisturbed(s, Confirming(s, o, found), v)
  {
  }

  lemma TurnKeeps(s: World, w: nat, pc: Pc)
    requires Inv(s) && MayTurn(s, w, pc)
    ensures StoreOk(Give(s, w, pc)) && WorkerOk(Give(s, w, pc), w, pc)
  {
  }

  lemma EnvironmentKeeps(s: World, e: Event)
    requires Inv(s) && !IsWorkerEvent(e)
    ensures Inv(Apply(s, e))
  {
    if e.OperatorReads? {
      ReviewKeeps(s, e.o);
      AllUndisturbed(s, Reviewing(s, e.o));
    } else if e.OperatorCommits? {
      ConfirmKeeps(s, e.o, e.found);
      AllUndisturbed(s, Confirming(s, e.o, e.found));
    } else if e.Turn? {
      if MayTurn(s, e.w, e.pc) {
        TurnKeeps(s, e.w, e.pc);
        TurnLeaves(s, e.w, e.pc);
      }
    } else {
      AllUndisturbed(s, Apply(s, e));
    }
  }

  lemma AllUndisturbed(s: World, t: World)
    requires Inv(s) && t.workers == s.workers && forall v :: Undisturbed(s, t, v)
    ensures forall v <- t.workers :: WorkerOk(t, v, t.workers[v])
  {
    forall v <- t.workers ensures WorkerOk(t, v, t.workers[v]) {
      UndisturbedKeeps(s, t, v);
    }
  }

  lemma TurnLeaves(s: World, w: nat, pc: Pc)
    requires Inv(s)
    ensures forall v <- s.workers :: v != w ==> WorkerOk(Give(s, w, pc), v, s.workers[v])
  {
    forall v <- s.workers | v != w ensures WorkerOk(Give(s, w, pc), v, s.workers[v]) {
      UndisturbedKeeps(s, Give(s, w, pc), v);
    }
  }

  lemma OtherKeeps(s: World, e: Event, v: nat)
    requires Inv(s) && IsWorkerEvent(e) && e.w in s.workers && v in s.workers && v != e.w
    ensures var t := Apply(s, e); v in t.workers && WorkerOk(t, v, t.workers[v])
  {
    OthersUndisturbed(s, e, v);
    UndisturbedKeeps(s, Apply(s, e), v);
  }

  lemma StepAddsNoWorker(s: World, e: Event, v: nat)
    requires IsWorkerEvent(e) && e.w in s.workers && v !in s.workers
    ensures v !in Apply(s, e).workers
  {
  }

  lemma StepKeepsInv(s: World, e: Event)
    requires Inv(s)
    ensures Inv(Apply(s, e))
  {
    var t := Apply(s, e);
    if !IsWorkerEvent(e) {
      EnvironmentKeeps(s, e);
    } else if e.w in s.workers {
      ActorKeeps(s, e);
      forall v <- t.workers ensures WorkerOk(t, v, t.workers[v]) {
        if v !in s.workers {
          StepAddsNoWorker(s, e, v);
        } else if v != e.w {
          OtherKeeps(s, e, v);
        }
      }
    } else {
      assert t == s;
    }
  }

  lemma ActorKeeps(s: World, e: Event)
    requires Inv(s) && IsWorkerEvent(e) && e.w in s.workers
    ensures var t := Apply(s, e); StoreOk(t) && WorkerOk(t, e.w, t.workers[e.w])
  {
    match e
    case Claim(w) =>
      if s.workers[w].Claims? {
        ClaimKeeps(s, w, s.workers[w].attempt);
      }
    case Save(w) => if s.workers[w].Saves? { AnswerKeeps(s, w); }
    case SaveThrows(w, applied) => if s.workers[w].Saves? { ThrowKeeps(s, w, applied); }
    case CallCreate(w) => if s.workers[w].CallsCreate? { CallCreateKeeps(s, w); }
    case CreateReturns(w, container, matches) =>
        if s.workers[w].AwaitsCreate? { CreateReturnKeeps(s, w, container, matches); }
    case CallFinalize(_) => CallFinalizeKeeps(s, e);
    case FinalizeReturns(w, post) => if s.workers[w].AwaitsFinalize? { FinalizeReturnKeeps(s, w, post); }
    case WaitReturns(w, readiness) => if s.workers[w].AwaitsReady? { WaitReturnKeeps(s, w, readiness); }
    case Crash(w) => CrashKeeps(s, w);
  }

  // ----- refinement of the write-ahead journal

  function CreateJournal(s: World): WriteAhead.Journal {
    WriteAhead.Journal(
      if s.row.None? then WriteAhead.Unrecorded
      else if s.row.value.operation.status == Creating then WriteAhead.Recorded else WriteAhead.Settled,
      s.creator.Some? && s.creator.value in s.workers && s.workers[s.creator.value].CallsCreate?,
      |s.creates|)
  }

  function FinalizeJournal(s: World): WriteAhead.Journal {
    WriteAhead.Journal(
      if s.finalizer.None? then WriteAhead.Unrecorded
      else if s.row.Some? && s.row.value.operation.status == Finalizing && s.confirmed == {} then WriteAhead.Recorded
      else WriteAhead.Settled,
      s.finalizer.Some? && s.finalizer.value in s.workers && s.workers[s.finalizer.value].CallsFinalize?,
      |s.finalizes|)
  }

  lemma ClaimRefines(s: World, w: nat, attempt: nat)
    requires Inv(s) && w in s.workers && s.workers[w].Claims?
    ensures WriteAhead.Follows(CreateJournal(s), CreateJournal(Claimed(s, w, attempt)))
  {
    assert WorkerOk(s, w, s.workers[w]);
  }

  lemma ClaimDoesNotFinalize(s: World, w: nat, attempt: nat)
    requires w in s.workers && s.workers[w].Claims?
    ensures FinalizeJournal(Claimed(s, w, attempt)) == FinalizeJournal(s)
  {
  }

  lemma WriteChanges(s: World, w: nat, pc: Pc)
    requires StoreOk(s) && pc.Saves? && WorkerOk(s, w, pc)
    ensures var t := Write(s, w, pc);
      && t == s.(row := t.row, finalizer := t.finalizer)
      && (t.row.Some? <==> s.row.Some?)
      && (t.row != s.row ==> s.row.Some? && t.row.value.operation == pc.next && pc.next.status != Creating)
      && (t.finalizer != s.finalizer ==>
          s.finalizer.None? && t.finalizer == Some(w) && pc.after == Intended && t.row.Some?
          && t.row.value.operation == pc.next)
  {
  }

  /** A pending save never leads to the create call, and leads to the finalize call only through the intent save. */
  lemma SaveLeadsOn(pc: Pc)
    requires pc.Saves? && WellShaped(pc)
    ensures !Saved(pc).CallsCreate? && !Refused(pc).CallsCreate? && !Threw(pc).CallsCreate?
    ensures Saved(pc).CallsFinalize? <==> pc.after == Intended
    ensures !Refused(pc).CallsFinalize? && !Threw(pc).CallsFinalize?
  {
  }

  lemma AnswerRefinesCreate(s: World, w: nat)
    requires StoreOk(s) && w in s.workers && s.workers[w].Saves? && WorkerOk(s, w, s.workers[w])
    ensures WriteAhead.Follows(CreateJournal(s), CreateJournal(Answering(s, w, s.workers[w])))
  {
    WriteChanges(s, w, s.workers[w]);
    SaveLeadsOn(s.workers[w]);
  }

  lemma AnswerRefinesFinalize(s: World, w: nat)
    requires StoreOk(s) && w in s.workers && s.workers[w].Saves? && WorkerOk(s, w, s.workers[w])
    ensures WriteAhead.Follows(FinalizeJournal(s), FinalizeJournal(Answering(s, w, s.workers[w])))
  {
    WriteChanges(s, w, s.workers[w]);
    SaveLeadsOn(s.workers[w]);
  }

  lemma ThrowRefines(s: World, w: nat, applied: bool)
    requires StoreOk(s) && w in s.workers && s.workers[w].Saves? && WorkerOk(s, w, s.workers[w])
    ensures WriteAhead.Follows(CreateJournal(s), CreateJournal(Throwing(s, w, s.workers[w], applied)))
    ensures WriteAhead.Follows(FinalizeJournal(s), FinalizeJournal(Throwing(s, w, s.workers[w], applied)))
  {
    WriteChanges(s, w, s.workers[w]);
    SaveLeadsOn(s.workers[w]);
  }

  lemma CallRefines(s: World, e: Event)
    requires Inv(s) && (e.CallCreate? || e.CallFinalize? || e.Crash?) && e.w in s.workers
    ensures WriteAhead.Follows(CreateJournal(s), CreateJournal(Apply(s, e)))
    ensures WriteAhead.Follows(FinalizeJournal(s), FinalizeJournal(Apply(s, e)))
  {
    assert WorkerOk(s, e.w, s.workers[e.w]);
  }

  lemma ReturnRefines(s: World, e: Event)
    requires (e.CreateReturns? || e.WaitReturns? || e.FinalizeReturns?) && e.w in s.workers
    ensures CreateJournal(Apply(s, e)) == CreateJournal(s) && FinalizeJournal(Apply(s, e)) == FinalizeJournal(s)
  {
  }

  lemma EnvironmentRefines(s: World, e: Event)
    requires StoreOk(s) && !IsWorkerEvent(e)
    ensures WriteAhead.Follows(CreateJournal(s), CreateJournal(Apply(s, e)))
    ensures WriteAhead.Follows(FinalizeJournal(s), FinalizeJournal(Apply(s, e)))
  {
  }

  lemma RefinesJournals(s: World, e: Event)
    requires Inv(s)
    ensures WriteAhead.Follows(CreateJournal(s), CreateJournal(Apply(s, e)))
    ensures WriteAhead.Follows(FinalizeJournal(s), FinalizeJournal(Apply(s, e)))
  {
    if !IsWorkerEvent(e) {
      EnvironmentRefines(s, e);
    } else if e.w in s.workers {
      var w, pc := e.w, s.workers[e.w];
      if e.Claim? {
        if pc.Claims? {
          ClaimRefines(s, w, pc.attempt);
          ClaimDoesNotFinalize(s, w, pc.attempt);
        }
      } else if e.Save? {
        if pc.Saves? {
          assert WorkerOk(s, w, pc);
          AnswerRefinesCreate(s, w);
          AnswerRefinesFinalize(s, w);
        }
      } else if e.SaveThrows? {
        if pc.Saves? {
          assert WorkerOk(s, w, pc);
          ThrowRefines(s, w, e.applied);
        }
      } else if e.CallCreate? || e.CallFinalize? || e.Crash? {
        CallRefines(s, e);
      } else {
        ReturnRefines(s, e);
      }
    }
  }

  // ----- the content item

  /** What has become of the publish target. */
  datatype Target = Queued | Publishing | NeedsAction | Live | Broken | Cancelled

  /** The content item, as far as one target is concerned. `running`: its latest attempt has not failed. */
  datatype Item = Item(version: nat, target: Target, attempts: nat, running: bool)

  /** The stored item, and the copies that workers and operators have read. */
  datatype Desk = Desk(item: Item, items: map<nat, Item>, seen: map<nat, Item>)

  datatype System = System(world: World, desk: Desk)

  datatype Action =
    | Start(w: nat)
    | Commit(w: nat)                            // the pending change of the content item
    | CommitThrows(w: nat)                      // the database failed before it was applied
    | Trouble(w: nat)                           // account, media or settings are refused before the claim
    | Reread(w: nat)
    | Edit(cancels: bool)                       // somebody else changes the content item
    | OperatorOpens(o: nat)                     // an operator reads the content item, and only then the record
    | OperatorConfirms(o: nat, found: nat)
    | Does(e: Event)

  function Begin(collaborators: bool): System {
    System(Fresh(collaborators), Desk(Item(0, Queued, 0, false), map[], map[]))
  }

  predicate Closed(target: Target) {
    target in {Live, Cancelled}
  }

  function Edited(item: Item, chore: Chore): Item {
    match chore
    case Open => item.(attempts := item.attempts + 1, running := true)
    case Mark => item.(target := Publishing)
    case Review => item.(target := NeedsAction)
    case Flag => item.(target := NeedsAction)
    case Fail => item.(running := false)
    case Break => item.(target := Broken)
    case Finish => item.(target := Live)
  }

  function Turning(s: System, w: nat, pc: Pc): System {
    s.(world := Apply(s.world, Turn(w, pc)))
  }

  function Reading(s: System, w: nat): System {
    s.(desk := s.desk.(items := s.desk.items[w := s.desk.item]))
  }

  /** A job leaves a target alone that is published or cancelled. */
  function Starting(s: System, w: nat): System {
    Turning(Reading(s, w), w,
      Off(if Closed(s.desk.item.target) then Nothing else Files(if s.desk.item.running then Mark else Open)))
  }

  function Filed(chore: Chore, mine: Item): Pc {
    match chore
    case Open => Off(Files(Mark))
    case Mark => Claims(mine.attempts)
    case Fail => Off(Files(Break))
    case _ => Off(Nothing)
  }

  /** A verdict that cannot be committed ends in the general handler, which fails the attempt. */
  function Unfiled(chore: Chore): Pc {
    Off(if chore in {Review, Finish} then Files(Fail) else Nothing)
  }

  /** A commit goes through only over the version that the worker read. */
  function Filing(s: System, w: nat, chore: Chore): System {
    var mine := if w in s.desk.items then s.desk.items[w] else s.desk.item;
    var next := Edited(mine, chore).(version := mine.version + 1);
    if mine.version != s.desk.item.version then Turning(s, w, Unfiled(chore))
    else Turning(s.(desk := s.desk.(item := next, items := s.desk.items[w := next])), w, Filed(chore, next))
  }

  /** Only a target that still waits can be cancelled. */
  function Editing(item: Item, cancels: bool): Item {
    if !cancels then item.(version := item.version + 1)
    else if item.target == Queued then item.(version := item.version + 1, target := Cancelled)
    else item
  }

  /** The target waits for action, and the content item has not changed since the operator read it. */
  predicate IsAccepted(s: System, o: nat, found: nat) {
    && o in s.desk.seen && s.desk.seen[o].target == NeedsAction && s.desk.seen[o].version == s.desk.item.version
    && MayConfirm(s.world, o, found)
  }

  /** Item and record are written in one transaction. */
  function Accepting(s: System, o: nat, found: nat): System {
    if IsAccepted(s, o, found)
    then System(Apply(s.world, OperatorCommits(o, found)),
        s.desk.(item := s.desk.item.(version := s.desk.item.version + 1, target := Live)))
    else s
  }

  predicate MayDo(s: System, e: Event) {
    !e.Turn? && !e.OperatorCommits? && (e.OperatorReads? ==> e.o in s.desk.seen)
  }

  function Act(s: System, a: Action): System {
    match a
    case Does(e) => if MayDo(s, e) then s.(world := Apply(s.world, e)) else s
    case Edit(cancels) => s.(desk := s.desk.(item := Editing(s.desk.item, cancels)))
    case OperatorOpens(o) => if o in s.desk.seen then s else s.(desk := s.desk.(seen := s.desk.seen[o := s.desk.item]))
    case OperatorConfirms(o, found) => Accepting(s, o, found)
    case Start(w) => if w in s.world.workers then s else Starting(s, w)
    case _ => if a.w in s.world.workers then Working(s, a, s.world.workers[a.w]) else s
  }

  function Working(s: System, a: Action, pc: Pc): System
    requires a.Commit? || a.CommitThrows? || a.Trouble? || a.Reread?
  {
    if a.Trouble? then (if pc.Claims? then Turning(s, a.w, Off(Files(Fail))) else s)
    else if a.Reread? then
      if pc != Off(Rereads) then s
      else if s.desk.item.target in {Live, NeedsAction} then Turning(s, a.w, Off(Nothing))
      else Turning(Reading(s, a.w), a.w, Off(Files(Flag)))
    else if !pc.Off? || !pc.task.Files? then s
    else if a.Commit? then Filing(s, a.w, pc.task.chore)
    else Turning(s, a.w, Unfiled(pc.task.chore))
  }

  // ----- what holds over every schedule

  lemma ReachableInv(collaborators: bool, events: seq<Event>)
    ensures Inv(Run(Apply, Fresh(collaborators), events))
  {
    forall t, e {:trigger Apply(t, e)} | Inv(t) ensures Inv(Apply(t, e)) {
      StepKeepsInv(t, e);
    }
    RunKeeps(Apply, Inv, Fresh(collaborators), events);
  }

  lemma ActIsEvent(s: System, a: Action)
    ensures Act(s, a).world == s.world || exists e :: Act(s, a).world == Apply(s.world, e)
  {
  }

  /** Every run of the system is a run of the world. */
  lemma {:induction false} WorldRun(s: System, schedule: seq<Action>) returns (events: seq<Event>)
    ensures Run(Act, s, schedule).world == Run(Apply, s.world, events)
    decreases |schedule|
  {
    events := [];
    if schedule != [] {
      var t := Act(s, schedule[0]);
      ActIsEvent(s, schedule[0]);
      events := WorldRun(t, schedule[1..]);
      if t.world != s.world {
        var e :| t.world == Apply(s.world, e);
        events := [e] + events;
      }
    }
  }

  /** Each provider call is issued at most once per target, whatever workers, crashes and lease expiries interleave. */
  lemma ProviderCallsAtMostOnce(collaborators: bool, schedule: seq<Action>)
    ensures var s := Run(Act, Begin(collaborators), schedule).world; |s.creates| <= 1 && |s.finalizes| <= 1
  {
    var events := WorldRun(Begin(collaborators), schedule);
    forall t, e {:trigger Apply(t, e)} | Inv(t)
      ensures Inv(Apply(t, e))
      ensures WriteAhead.Follows(CreateJournal(t), CreateJournal(Apply(t, e)))
      ensures WriteAhead.Follows(FinalizeJournal(t), FinalizeJournal(Apply(t, e)))
    {
      StepKeepsInv(t, e);
      RefinesJournals(t, e);
    }
    WriteAhead.RefinementFiresAtMostOnce(Apply, Inv, CreateJournal, Fresh(collaborators), events);
    WriteAhead.RefinementFiresAtMostOnce(Apply, Inv, FinalizeJournal, Fresh(collaborators), events);
  }

  /** Only the container that the create call returned is finalized; a published record names the post of that call. */
  lemma EvidenceIsGrounded(collaborators: bool, schedule: seq<Action>)
    ensures var s := Run(Act, Begin(collaborators), schedule).world;
      && (forall c <- s.finalizes :: c.Some? && s.containers == {c.value})
      && (s.row.Some? && s.row.value.operation.status == Published ==>
            var id := s.row.value.operation.externalPostId;
            id.Some? && (id.value in s.confirmed || s.posts == {id.value}))
  {
    var events := WorldRun(Begin(collaborators), schedule);
    ReachableInv(collaborators, events);
    var s := Run(Apply, Fresh(collaborators), events);
    forall c <- s.finalizes ensures c.Some? && s.containers == {c.value} {
      assert AtMostOne(s.containers) && c.value in s.containers;
    }
  }

  /** A worker that owns the record decides on the stored record, as long as no operator has stepped in. */
  lemma OwnerCopyIsStored(collaborators: bool, schedule: seq<Action>, w: nat)
    requires var s := Run(Act, Begin(collaborators), schedule).world;
      w in s.workers && OwnedBy(s, w) && Relies(s.workers[w]) && s.confirmed == {}
    ensures var s := Run(Act, Begin(collaborators), schedule).world; s.workers[w].held == s.row.value.operation
  {
    var events := WorldRun(Begin(collaborators), schedule);
    ReachableInv(collaborators, events);
  }

  ghost predicate StaysLate(s: World, t: World) {
    Late(s) ==> Late(t)
  }

  lemma StepStaysLate(s: World, e: Event)
    requires Inv(s)
    ensures StaysLate(s, Apply(s, e))
  {
    if (e.Save? || e.SaveThrows?) && e.w in s.workers && s.workers[e.w].Saves? {
      assert WorkerOk(s, e.w, s.workers[e.w]);
      WriteChanges(s, e.w, s.workers[e.w]);
    }
  }

  /** No schedule leads from finalizing, uncertain, published or failed back to creating, processing or ready. */
  lemma LateStatusesStayLate(collaborators: bool, schedule: seq<Action>, more: seq<Action>)
    ensures var s := Run(Act, Begin(collaborators), schedule);
      StaysLate(s.world, Run(Act, s, more).world)
  {
    var events := WorldRun(Begin(collaborators), schedule);
    ReachableInv(collaborators, events);
    var later := WorldRun(Run(Act, Begin(collaborators), schedule), more);
    forall t, e {:trigger Apply(t, e)} | Inv(t) ensures Inv(Apply(t, e)) && StaysLate(t, Apply(t, e)) {
      StepKeepsInv(t, e);
      StepStaysLate(t, e);
    }
    RunRelates(Apply, Inv, StaysLate, Run(Apply, Fresh(collaborators), events), later);
  }

  // ----- the content item is fenced by its version

  /** A copy is an earlier version, or the current one. */
  predicate Agrees(s: System, mine: Item) {
    mine.version <= s.desk.item.version && (mine.version == s.desk.item.version ==> mine == s.desk.item)
  }

  /** A worker that has marked the target as publishing and is not done. */
  predicate Marked(pc: Pc) {
    pc !in {Off(Nothing), Off(Files(Open)), Off(Files(Mark))}
  }

  predicate CopyOk(s: System, w: nat, pc: Pc) {
    && w in s.desk.items
    && (pc != Off(Nothing) ==> !Closed(s.desk.items[w].target))
    && (Marked(pc) ==> s.desk.item.target !in {Queued, Cancelled})
  }

  ghost predicate DeskOk(s: System) {
    && (forall w <- s.world.workers :: CopyOk(s, w, s.world.workers[w]))
    && (forall w <- s.desk.items :: Agrees(s, s.desk.items[w]))
    && (forall o <- s.desk.seen :: Agrees(s, s.desk.seen[o]))
  }

  ghost predicate FullInv(s: System) {
    Inv(s.world) && DeskOk(s)
  }

  /** The version only grows, and a target that was published or cancelled stays so. */
  predicate ItemAdvances(s: System, t: System) {
    && s.desk.item.version <= t.desk.item.version
    && (s.desk.item.version == t.desk.item.version ==> s.desk.item == t.desk.item)
    && (Closed(s.desk.item.target) ==> t.desk.item.target == s.desk.item.target)
  }

  /** A worker's turn leaves the item and the other workers alone. */
  lemma TurningKeeps(s: System, w: nat, pc: Pc)
    requires DeskOk(s) && w in s.world.workers && MayTurn(s.world, w, pc) && CopyOk(s, w, pc)
    ensures DeskOk(Turning(s, w, pc)) && Turning(s, w, pc).desk == s.desk
  {
  }

  /** The store of the next version leaves every copy behind but the committer's. */
  lemma CommitKeeps(s: System, w: nat, chore: Chore)
    requires DeskOk(s) && w in s.world.workers && s.world.workers[w] == Off(Files(chore))
        && s.desk.items[w] == s.desk.item
    ensures var next := Edited(s.desk.item, chore).(version := s.desk.item.version + 1);
      var t := s.(desk := s.desk.(item := next, items := s.desk.items[w := next]));
      && ItemAdvances(s, t) && (forall v <- t.desk.items :: Agrees(t, t.desk.items[v]))
          && (forall o <- t.desk.seen :: Agrees(t, t.desk.seen[o]))
      && (forall v <- s.world.workers :: v != w ==> CopyOk(t, v, s.world.workers[v]))
      && CopyOk(t, w, Filed(chore, next))
  {
    assert CopyOk(s, w, s.world.workers[w]);
  }

  lemma FilingAdvances(s: System, w: nat, chore: Chore)
    requires DeskOk(s) && w in s.world.workers && s.world.workers[w] == Off(Files(chore))
    ensures DeskOk(Filing(s, w, chore)) && ItemAdvances(s, Filing(s, w, chore))
  {
    var mine := s.desk.items[w];
    assert CopyOk(s, w, s.world.workers[w]);
    if mine.version != s.desk.item.version {
      TurningKeeps(s, w, Unfiled(chore));
    } else {
      CommitKeeps(s, w, chore);
      var next := Edited(mine, chore).(version := mine.version + 1);
      var t := Filing(s, w, chore);
      assert t.world == Give(s.world, w, Filed(chore, next))
          && t.desk == s.desk.(item := next, items := s.desk.items[w := next]);
    }
  }

  lemma StartAdvances(s: System, w: nat)
    requires DeskOk(s) && w !in s.world.workers
    ensures DeskOk(Starting(s, w)) && ItemAdvances(s, Starting(s, w))
  {
  }

  lemma WorkAdvances(s: System, a: Action)
    requires DeskOk(s) && (a.CommitThrows? || a.Trouble? || a.Reread?)
    ensures DeskOk(Act(s, a)) && ItemAdvances(s, Act(s, a))
  {
  }

  predicate DoesNotMark(pc: Pc, next: Pc) {
    && (next != Off(Nothing) ==> pc != Off(Nothing))
    && (Marked(next) ==> Marked(pc)) && (next.Claims? ==> pc.Claims?)
  }

  lemma SaveDoesNotMark(pc: Pc)
    requires pc.Saves? && WellShaped(pc)
    ensures DoesNotMark(pc, Saved(pc)) && DoesNotMark(pc, Refused(pc)) && DoesNotMark(pc, Threw(pc))
  {
  }

  lemma StepDoesNotMark(s: World, e: Event, pc: Pc)
    requires IsWorkerEvent(e) && (pc.Saves? ==> WellShaped(pc)) && e.w in s.workers && s.workers[e.w] == pc
    ensures var t := Step(s, e, pc);
      && t.workers.Keys == s.workers.Keys && DoesNotMark(pc, t.workers[e.w])
      && forall v <- s.workers :: v != e.w ==> t.workers[v] == s.workers[v]
  {
    if pc.Saves? { SaveDoesNotMark(pc); }
  }

  /** Only a turn leads to a mark or a claim. */
  lemma EventDoesNotMark(s: World, e: Event)
    requires Inv(s) && !e.Turn?
    ensures Apply(s, e).workers.Keys == s.workers.Keys
    ensures forall w <- s.workers :: DoesNotMark(s.workers[w], Apply(s, e).workers[w])
  {
    if IsWorkerEvent(e) && e.w in s.workers {
      assert WorkerOk(s, e.w, s.workers[e.w]);
      StepDoesNotMark(s, e, s.workers[e.w]);
    }
  }

  lemma ActAdvances(s: System, a: Action)
    requires FullInv(s)
    ensures DeskOk(Act(s, a)) && ItemAdvances(s, Act(s, a))
  {
    if a.Commit? {
      if a.w in s.world.workers && s.world.workers[a.w].Off? && s.world.workers[a.w].task.Files? {
        FilingAdvances(s, a.w, s.world.workers[a.w].task.chore);
      }
    } else if a.Does? {
      if MayDo(s, a.e) {
        EventDoesNotMark(s.world, a.e);
        forall w <- s.world.workers ensures CopyOk(Act(s, a), w, Act(s, a).world.workers[w]) {
          assert CopyOk(s, w, s.world.workers[w]);
        }
      }
    } else if a.Start? {
      if a.w !in s.world.workers { StartAdvances(s, a.w); }
    } else if a.CommitThrows? || a.Trouble? || a.Reread? {
      WorkAdvances(s, a);
    }
  }

  lemma ActKeepsInv(s: System, a: Action)
    requires FullInv(s)
    ensures FullInv(Act(s, a)) && ItemAdvances(s, Act(s, a))
  {
    ActAdvances(s, a);
    ActIsEvent(s, a);
    if Act(s, a).world != s.world {
      var e :| Act(s, a).world == Apply(s.world, e);
      StepKeepsInv(s.world, e);
    }
  }

  lemma ReachableFullInv(collaborators: bool, schedule: seq<Action>)
    ensures FullInv(Run(Act, Begin(collaborators), schedule))
  {
    forall t, a {:trigger Act(t, a)} | FullInv(t) ensures FullInv(Act(t, a)) {
      ActKeepsInv(t, a);
    }
    RunKeeps(Act, FullInv, Begin(collaborators), schedule);
  }

  /** No schedule takes back a version of the content item, or leaves a target that was published or cancelled. */
  lemma ClosedTargetsStayClosed(collaborators: bool, schedule: seq<Action>, more: seq<Action>)
    ensures var s := Run(Act, Begin(collaborators), schedule); ItemAdvances(s, Run(Act, s, more))
  {
    ReachableFullInv(collaborators, schedule);
    forall t, a {:trigger Act(t, a)} | FullInv(t) ensures FullInv(Act(t, a)) && ItemAdvances(t, Act(t, a)) {
      ActKeepsInv(t, a);
    }
    RunRelates(Act, FullInv, ItemAdvances, Run(Act, Begin(collaborators), schedule), more);
  }

  // ----- the two fences do not know each other

  /** A worker that may still store something other than a published record. */
  predicate Overwrites(pc: Pc) {
    !pc.Claims? && !pc.Off? && !(pc.Saves? && pc.next.status == Published)
  }

  predicate OverwriterHoldsLease(s: World, w: nat) {
    s.row.Some? && LeaseHeld(s.row.value, w, s.clock) && w in s.workers && Overwrites(s.workers[w])
  }

  predicate IsPublished(s: World) {
    s.row.Some? && s.row.value.operation.status == Published
  }

  predicate AtClaim(s: World, w: nat) {
    w in s.workers && s.workers[w].Claims?
  }

  /** A worker stands at its claim, or one may still get there. */
  ghost predicate MayBeClaimed(s: System) {
    !Closed(s.desk.item.target) || exists w :: AtClaim(s.world, w)
  }

  ghost predicate Overwritten(s: System) {
    exists schedule :: !IsPublished(Run(Act, s, schedule).world)
  }

  ghost predicate NobodyOverwrites(s: World) {
    IsPublished(s) && forall w <- s.workers :: !OverwriterHoldsLease(s, w)
  }

  ghost predicate Safe(s: System) {
    FullInv(s) && NobodyOverwrites(s.world) && (Matches(s.world, s.world.row.value.operation) || !MayBeClaimed(s))
  }

  lemma ClaimStaysSafe(s: World, w: nat, attempt: nat)
    requires Inv(s) && NobodyOverwrites(s) && w in s.workers && s.workers[w].Claims?
        && Matches(s, s.row.value.operation)
    ensures NobodyOverwrites(Claimed(s, w, attempt))
  {
  }

  lemma WriteStaysSafe(s: World, w: nat)
    requires StoreOk(s) && NobodyOverwrites(s) && w in s.workers && s.workers[w].Saves?
    ensures var t := Write(s, w, s.workers[w]);
      && IsPublished(t) && t.workers == s.workers && t.clock == s.clock
      && forall v <- s.workers :: v != w ==> !OverwriterHoldsLease(t, v)
  {
    assert !OverwriterHoldsLease(s, w);
  }

  /** A worker that has just stored a published record, or stored nothing, overwrites nothing. */
  lemma SaverOverwritesNothing(s: World, w: nat, pc: Pc)
    requires pc.Saves? && WellShaped(pc) && IsPublished(s)
    requires s.row.value.owner == Some(w) && LeaseHeld(s.row.value, w, s.clock) ==> pc.next.status == Published
    ensures LeaseHeld(s.row.value, w, s.clock) ==> !Overwrites(Saved(pc)) && !Overwrites(Threw(pc))
  {
  }

  lemma SaveStaysSafe(s: World, e: Event)
    requires Inv(s) && NobodyOverwrites(s) && (e.Save? || e.SaveThrows?) && e.w in s.workers && s.workers[e.w].Saves?
    ensures NobodyOverwrites(Apply(s, e))
  {
    var w, pc := e.w, s.workers[e.w];
    assert !OverwriterHoldsLease(s, w) && WorkerOk(s, w, pc);
    WriteStaysSafe(s, w);
    SaverOverwritesNothing(s, w, pc);
  }

  lemma RestStaysSafe(s: World, e: Event)
    requires Inv(s) && NobodyOverwrites(s) && !e.Claim? && !e.Save? && !e.SaveThrows?
    ensures NobodyOverwrites(Apply(s, e))
  {
  }

  /** Whether a published record matches its approval is settled by the create call's answer. */
  lemma MatchStays(s: World, e: Event)
    requires Inv(s) && IsPublished(s) && Matches(s, s.row.value.operation) && IsPublished(Apply(s, e))
    ensures Matches(Apply(s, e), Apply(s, e).row.value.operation)
  {
    StepKeepsInv(s, e);
    if e.CreateReturns? && e.w in s.workers {
      assert WorkerOk(s, e.w, s.workers[e.w]);
    }
  }

  lemma EventStaysSafe(s: World, e: Event)
    requires Inv(s) && NobodyOverwrites(s)
    requires e.Claim? && AtClaim(s, e.w) ==> Matches(s, s.row.value.operation)
    ensures NobodyOverwrites(Apply(s, e))
  {
    if e.Claim? {
      if AtClaim(s, e.w) { ClaimStaysSafe(s, e.w, s.workers[e.w].attempt); }
    } else if e.Save? || e.SaveThrows? {
      if e.w in s.workers && s.workers[e.w].Saves? { SaveStaysSafe(s, e); }
    } else {
      RestStaysSafe(s, e);
    }
  }

  lemma FilingMakesNoClaim(s: System, w: nat, chore: Chore)
    requires DeskOk(s) && !MayBeClaimed(s) && w in s.world.workers && s.world.workers[w] == Off(Files(chore))
    ensures forall v :: !AtClaim(Filing(s, w, chore).world, v)
  {
    forall v ensures !AtClaim(Filing(s, w, chore).world, v) {
      assert !AtClaim(s.world, v) && CopyOk(s, w, s.world.workers[w]);
    }
  }

  /** Once the target is closed nobody gets to a claim any more. */
  lemma NoNewClaim(s: System, a: Action)
    requires FullInv(s) && !MayBeClaimed(s)
    ensures !MayBeClaimed(Act(s, a))
  {
    ActAdvances(s, a);
    if a.Commit? {
      if a.w in s.world.workers && s.world.workers[a.w].Off? && s.world.workers[a.w].task.Files? {
        FilingMakesNoClaim(s, a.w, s.world.workers[a.w].task.chore);
      }
    } else if a.Does? {
      if MayDo(s, a.e) { EventDoesNotMark(s.world, a.e); }
      forall w ensures !AtClaim(Act(s, a).world, w) {
        assert !AtClaim(s.world, w);
      }
    } else {
      OthersMakeNoClaim(s, a);
    }
  }

  lemma OthersMakeNoClaim(s: System, a: Action)
    requires !a.Commit? && !a.Does? && !MayBeClaimed(s)
    ensures forall w :: !AtClaim(Act(s, a).world, w)
  {
    forall w ensures !AtClaim(Act(s, a).world, w) {
      assert !AtClaim(s.world, w);
    }
  }

  lemma SafeStaysSafe(s: System, a: Action)
    requires Safe(s)
    ensures Safe(Act(s, a))
  {
    ActKeepsInv(s, a);
    if !MayBeClaimed(s) { NoNewClaim(s, a); }
    ActIsEvent(s, a);
    if Act(s, a).world != s.world {
      var e :| Act(s, a).world == Apply(s.world, e);
      EventStaysSafe(s.world, e);
      if Matches(s.world, s.world.row.value.operation) { MatchStays(s.world, e); }
    }
  }

  /**
   A published record, confirmed or not, can get another status exactly when a worker past its claim still holds the
   lease with something else to store, or when the record does not match its approval and may still be claimed.
   */
  lemma PublishedIsOverwrittenIff(s: System)
    requires FullInv(s) && IsPublished(s.world)
    ensures Overwritten(s) <==>
      || (exists w :: OverwriterHoldsLease(s.world, w))
      || (!Matches(s.world, s.world.row.value.operation) && MayBeClaimed(s))
  {
    if w :| OverwriterHoldsLease(s.world, w) {
      HolderOverwrites(s, w);
    } else if !Matches(s.world, s.world.row.value.operation) && MayBeClaimed(s) {
      if w :| AtClaim(s.world, w) {
        ClaimOverwrites(s, w);
      } else {
        ANewWorkerOverwrites(s);
      }
    } else {
      forall w <- s.world.workers ensures !OverwriterHoldsLease(s.world, w) {
      }
      forall u, a {:trigger Act(u, a)} | Safe(u) ensures Safe(Act(u, a)) {
        SafeStaysSafe(u, a);
      }
      forall schedule ensures Safe(Run(Act, s, schedule)) {
        RunKeeps(Act, Safe, s, schedule);
      }
    }
  }

  /** A confirmation that is accepted while nobody holds the lease lasts: nothing ever overwrites it. */
  lemma ConfirmationLasts(s: System, o: nat, found: nat)
    requires FullInv(s) && IsAccepted(s, o, found) && LeaseFree(s.world.row.value, s.world.clock)
    ensures !Overwritten(Act(s, OperatorConfirms(o, found)))
  {
    ActKeepsInv(s, OperatorConfirms(o, found));
    PublishedIsOverwrittenIff(Act(s, OperatorConfirms(o, found)));
  }

  lemma OverwrittenBefore(s: System, a: Action)
    requires Overwritten(Act(s, a))
    ensures Overwritten(s)
  {
    var schedule :| !IsPublished(Run(Act, Act(s, a), schedule).world);
    RunAppends(Act, s, [a], schedule);
    assert Run(Act, s, [a]) == Act(s, a);
  }

  lemma OverwrittenNow(s: System)
    requires !IsPublished(s.world)
    ensures Overwritten(s)
  {
    assert Run(Act, s, []) == s;
  }

  function Rank(pc: Pc): nat {
    if pc.CallsCreate? || pc.CallsFinalize? then 3 else if pc.Saves? then 1 else 2
  }

  /** What the holder does next. */
  function NextEvent(w: nat, pc: Pc): Event {
    if pc.CallsCreate? then CallCreate(w)
    else if pc.AwaitsCreate? then CreateReturns(w, None, false)
    else if pc.AwaitsReady? then WaitReturns(w, OtherError)
    else if pc.CallsFinalize? then CallFinalize(w)
    else if pc.AwaitsFinalize? then FinalizeReturns(w, None)
    else Save(w)
  }

  lemma HolderGoesOn(s: World, w: nat)
    requires Inv(s) && OverwriterHoldsLease(s, w)
    ensures var t := Apply(s, NextEvent(w, s.workers[w]));
      if s.workers[w].Saves? then !IsPublished(t)
      else OverwriterHoldsLease(t, w) && Rank(t.workers[w]) < Rank(s.workers[w])
  {
    assert WorkerOk(s, w, s.workers[w]);
  }

  /** The holder simply goes on: its save is still accepted. */
  lemma {:induction false} HolderOverwrites(s: System, w: nat)
    requires FullInv(s) && OverwriterHoldsLease(s.world, w)
    ensures Overwritten(s)
    decreases Rank(s.world.workers[w])
  {
    var a := Does(NextEvent(w, s.world.workers[w]));
    HolderGoesOn(s.world, w);
    ActKeepsInv(s, a);
    if s.world.workers[w].Saves? {
      OverwrittenNow(Act(s, a));
    } else {
      HolderOverwrites(Act(s, a), w);
    }
    OverwrittenBefore(s, a);
  }

  /** A worker at its claim waits for the lease, finds the mismatch, and saves. */
  lemma ClaimOverwrites(s: System, w: nat)
    requires FullInv(s) && IsPublished(s.world) && AtClaim(s.world, w) && !Matches(s.world, s.world.row.value.operation)
    ensures Overwritten(s)
  {
    var row := s.world.row.value;
    var wait := if row.expires.Some? && s.world.clock < row.expires.value then row.expires.value - s.world.clock else 0;
    var t := Act(s, Does(Tick(wait)));
    assert t == s.(world := s.world.(clock := s.world.clock + wait)) && LeaseFree(row, t.world.clock);
    var u := Act(t, Does(Event.Claim(w)));
    assert OverwriterHoldsLease(u.world, w);
    ActKeepsInv(s, Does(Tick(wait)));
    ActKeepsInv(t, Does(Event.Claim(w)));
    HolderOverwrites(u, w);
    OverwrittenBefore(t, Does(Event.Claim(w)));
    OverwrittenBefore(s, Does(Tick(wait)));
  }

  lemma {:induction false} SomeNewWorker(taken: set<nat>) returns (w: nat)
    ensures w !in taken && forall v <- taken :: v < w
    decreases |taken|
  {
    w := 0;
    if taken != {} {
      var v :| v in taken;
      w := SomeNewWorker(taken - {v});
      assert forall u <- taken :: u == v || u in taken - {v};
      w := if v < w then w else v + 1;
    }
  }

  lemma CommitOverwrites(s: System, w: nat)
    requires FullInv(s) && IsPublished(s.world) && !Matches(s.world, s.world.row.value.operation)
    requires w in s.world.workers && s.world.workers[w] == Off(Files(Mark))
    requires w in s.desk.items && s.desk.items[w].version == s.desk.item.version
    ensures Overwritten(s)
  {
    var t := Act(s, Commit(w));
    ActKeepsInv(s, Commit(w));
    assert AtClaim(t.world, w);
    ClaimOverwrites(t, w);
    OverwrittenBefore(s, Commit(w));
  }

  lemma ANewWorkerOverwrites(s: System)
    requires FullInv(s) && IsPublished(s.world) && !Matches(s.world, s.world.row.value.operation)
        && !Closed(s.desk.item.target)
    ensures Overwritten(s)
  {
    var w := SomeNewWorker(s.world.workers.Keys);
    var t := Act(s, Start(w));
    ActKeepsInv(s, Start(w));
    if s.desk.item.running {
      CommitOverwrites(t, w);
    } else {
      var u := Act(t, Commit(w));
      ActKeepsInv(t, Commit(w));
      CommitOverwrites(u, w);
      OverwrittenBefore(t, Commit(w));
    }
    OverwrittenBefore(s, Start(w));
  }

  // ----- the family is not empty

  lemma Commits(r: System, w: nat, chore: Chore) returns (s: System)
    requires Reaches(Act, Begin(false), r) && w in r.world.workers && r.world.workers[w] == Off(Files(chore))
    requires w in r.desk.items && r.desk.items[w] == r.desk.item
    ensures Reaches(Act, Begin(false), s)
    ensures var next := Edited(r.desk.item, chore).(version := r.desk.item.version + 1);
      && s.desk == r.desk.(item := next, items := r.desk.items[w := next])
      && s.world == r.world.(workers := r.world.workers[w := Filed(chore, next)])
  {
    s := Onward(Act, Begin(false), r, Commit(w));
  }

  lemma Doing(r: System, e: Event) returns (s: System)
    requires Reaches(Act, Begin(false), r) && MayDo(r, e)
    ensures Reaches(Act, Begin(false), s) && s == r.(world := Apply(r.world, e))
  {
    s := Onward(Act, Begin(false), r, Does(e));
  }

  lemma StartsJob(r: System, w: nat) returns (s: System)
    requires Reaches(Act, Begin(false), r) && w !in r.world.workers && !Closed(r.desk.item.target)
    ensures Reaches(Act, Begin(false), s) && s.desk == r.desk.(items := r.desk.items[w := r.desk.item])
    ensures s.world == r.world.(workers := r.world.workers[w := Off(Files(if r.desk.item.running then Mark else Open))])
  {
    s := Onward(Act, Begin(false), r, Start(w));
  }

  /** A worker that marks its target. */
  lemma MarksTarget(r: System, w: nat) returns (s: System)
    requires Reaches(Act, Begin(false), r) && w !in r.world.workers && !Closed(r.desk.item.target)
    ensures Reaches(Act, Begin(false), s)
    ensures var attempts := if r.desk.item.running then r.desk.item.attempts else r.desk.item.attempts + 1;
      && s.desk.item == Item(s.desk.item.version, Publishing, attempts, true)
      && s.world == r.world.(workers := r.world.workers[w := Claims(attempts)])
      && w in s.desk.items && s.desk.items[w] == s.desk.item && s.desk.seen == r.desk.seen
  {
    s := StartsJob(r, w);
    if !r.desk.item.running {
      s := Commits(s, w, Open);
    }
    s := Commits(s, w, Mark);
    assert s.world.workers == r.world.workers[w := Claims(s.desk.item.attempts)];
  }

  lemma IsRefused(r: System, w: nat) returns (s: System)
    requires Reaches(Act, Begin(false), r) && w in r.world.workers && r.world.workers[w].Claims?
    ensures Reaches(Act, Begin(false), s)
        && s == r.(world := r.world.(workers := r.world.workers[w := Off(Files(Fail))]))
  {
    s := Onward(Act, Begin(false), r, Trouble(w));
  }

  /** A worker refused before its claim fails the attempt and the target. */
  lemma FailsBeforeClaim(r: System, w: nat) returns (s: System)
    requires Reaches(Act, Begin(false), r) && w in r.world.workers && r.world.workers[w].Claims?
    requires w in r.desk.items && r.desk.items[w] == r.desk.item
    ensures Reaches(Act, Begin(false), s) && s.desk.seen == r.desk.seen
    ensures s.desk.item == Item(s.desk.item.version, Broken, r.desk.item.attempts, false)
    ensures s.world == r.world.(workers := r.world.workers[w := Off(Nothing)])
  {
    s := IsRefused(r, w);
    s := Commits(s, w, Fail);
    s := Commits(s, w, Break);
    assert s.world.workers == r.world.workers[w := Off(Nothing)];
  }

  /** Two workers mark the target for one attempt; the second one fails it. The first still stands at its claim. */
  lemma AttemptFails() returns (s: System)
    ensures Reaches(Act, Begin(false), s) && s.desk.item == Item(s.desk.item.version, Broken, 1, false)
        && s.desk.seen == map[]
    ensures s.world == Fresh(false).(workers := map[0 := Claims(1), 1 := Off(Nothing)])
  {
    Here(Act, Begin(false));
    s := MarksTarget(Begin(false), 0);
    s := MarksTarget(s, 1);
    s := FailsBeforeClaim(s, 1);
    assert s.world.workers == map[0 := Claims(1), 1 := Off(Nothing)];
  }

  /** A worker whose claim creates the record. */
  lemma CallsForContainer(r: System, w: nat) returns (s: System)
    requires Reaches(Act, Begin(false), r) && w in r.world.workers && r.world.workers[w].Claims? && r.world.row.None?
    ensures Reaches(Act, Begin(false), s) && s.desk == r.desk
    ensures var seed := Seed(r.world.workers[w].attempt);
      s.world == r.world.(
        row := Some(Row(seed, Some(w), Some(r.world.clock + LEASE_MS))), creator := Some(w),
            creates := r.world.creates + [w],
        workers := r.world.workers[w := AwaitsCreate(seed.attempt, seed)])
  {
    s := Doing(r, Event.Claim(w));
    s := Doing(s, CallCreate(w));
  }

  /** The answer of the create call is lost. */
  lemma SavesUncertain(r: System, w: nat, attempt: nat) returns (s: System)
    requires Reaches(Act, Begin(false), r) && w in r.world.workers
        && r.world.workers[w] == AwaitsCreate(attempt, Seed(attempt))
    requires r.world.row == Some(Row(Seed(attempt), Some(w), Some(r.world.clock + LEASE_MS)))
    ensures Reaches(Act, Begin(false), s) && s.desk == r.desk
    ensures s.world == r.world.(
      workers := r.world.workers[w := Off(Files(Review))], matching := false,
      row := Some(Row(Operation(Uncertain, attempt), Some(w), Some(r.world.clock + LEASE_MS))))
  {
    s := Doing(r, CreateReturns(w, None, false));
    assert s.world == r.world.(matching := false,
      workers := r.world.workers[w := Saves(attempt, Seed(attempt), Operation(Uncertain, attempt), Final(Review))]);
    s := Doing(s, Save(w));
  }

  /** A third worker begins the next attempt and leaves it uncertain; the first still stands at its claim. */
  lemma ActionIsRequired() returns (s: System)
    ensures Reaches(Act, Begin(false), s) && s.desk.item.target == NeedsAction && s.desk.seen == map[]
    ensures 0 in s.world.workers && s.world.workers[0] == Claims(1) && s.world.confirmed == {}
        && s.world.reviews == map[]
    ensures s.world.row == Some(Row(Operation(Uncertain, 2), Some(2), Some(LEASE_MS))) && s.world.clock == 0
    ensures !s.world.collaborators
  {
    s := AttemptFails();
    s := MarksTarget(s, 2);
    s := CallsForContainer(s, 2);
    s := SavesUncertain(s, 2, 2);
    s := Commits(s, 2, Review);
    assert s.world.workers[0] == Claims(1);
  }

  /** The first worker wakes up after an operator has read item and record, and moves the record to its own attempt. */
  lemma ClaimsUnderReview() returns (s: System)
    ensures Reaches(Act, Begin(false), s) && s.world.confirmed == {} && !s.world.collaborators
    ensures s.desk.item.target == NeedsAction && s.desk.seen == map[0 := s.desk.item]
    ensures 0 in s.world.reviews && s.world.reviews[0] == Operation(Uncertain, 2)
    ensures s.world.row.Some? && LeaseHeld(s.world.row.value, 0, s.world.clock)
    ensures 0 in s.world.workers
    ensures s.world.workers[0] == Saves(1, Operation(Uncertain, 2), Operation(Uncertain, 1), Relabelled)
  {
    s := ActionIsRequired();
    s := Onward(Act, Begin(false), s, OperatorOpens(0));
    s := Doing(s, OperatorReads(0));
    s := Doing(s, Tick(LEASE_MS));
    assert LeaseFree(s.world.row.value, s.world.clock) && s.world.workers[0] == Claims(1);
    s := Doing(s, Event.Claim(0));
  }

  /** The confirmation comes between that claim and its save: the target is published, its record uncertain. */
  lemma ConfirmationIsLost() returns (s: System)
    ensures Reaches(Act, Begin(false), s) && s.world.confirmed == {9} && s.desk.item.target == Live
    ensures s.world.row.Some? && s.world.row.value.operation == Operation(Uncertain, 1)
  {
    s := IsConfirmed();
    s := Doing(s, Save(0));
  }

  lemma IsConfirmed() returns (s: System)
    ensures Reaches(Act, Begin(false), s) && s.world.confirmed == {9} && s.desk.item.target == Live
    ensures IsPublished(s.world) && LeaseHeld(s.world.row.value, 0, s.world.clock)
    ensures 0 in s.world.workers
    ensures s.world.workers[0] == Saves(1, Operation(Uncertain, 2), Operation(Uncertain, 1), Relabelled)
  {
    s := ClaimsUnderReview();
    s := Onward(Act, Begin(false), s, OperatorConfirms(0, 9));
  }

  // ----- the protocol can succeed

  lemma PublicationSucceeds(w: nat, container: nat, post: nat) returns (s: System)
    ensures Reaches(Act, Begin(false), s) && s.desk.item.target == Live
    ensures s.world.creates == [w] && s.world.finalizes == [Some(container)] && s.world.posts == {post}
    ensures s.world.row.Some? && s.world.row.value.operation.status == Published
    ensures s.world.row.value.operation.externalPostId == Some(post)
  {
    s := GetsContainer(w, container);
    s := CreatedThenReady(s, w);
    s := ReadyThenPublished(s, w, post);
    s := Commits(s, w, Finish);
  }

  lemma GetsContainer(w: nat, container: nat) returns (s: System)
    ensures Reaches(Act, Begin(false), s) && w in s.desk.items && s.desk.items[w] == s.desk.item
    ensures s.world.creates == [w] && s.world.finalizes == [] && s.world.posts == {} && s.world.finalizer.None?
    ensures s.world.row == Some(Row(Seed(1), Some(w), Some(LEASE_MS))) && s.world.clock == 0
    ensures w in s.world.workers
    ensures s.world.workers[w] == Saves(1, Seed(1), Operation(Processing, 1, containerId := Some(container)), Created)
  {
    Here(Act, Begin(false));
    s := MarksTarget(Begin(false), w);
    s := CallsForContainer(s, w);
    s := Doing(s, CreateReturns(w, Some(container), false));
  }

  lemma CreatedThenReady(r: System, w: nat) returns (s: System)
    requires Reaches(Act, Begin(false), r) && w in r.world.workers && r.world.workers[w].Saves?
        && r.world.workers[w].after == Created
    requires r.world.row.Some? && LeaseHeld(r.world.row.value, w, r.world.clock)
    requires r.world.workers[w].next.attempt == r.world.workers[w].attempt
    requires r.world.workers[w].next.status == Processing && r.world.finalizer.None?
    ensures Reaches(Act, Begin(false), s) && s.desk == r.desk
    ensures s.world.creates == r.world.creates && s.world.finalizes == r.world.finalizes
        && s.world.posts == r.world.posts
    ensures w in s.world.workers && s.world.workers[w] == CallsFinalize(r.world.workers[w].next.(status := Finalizing))
    ensures s.world.row.Some? && LeaseHeld(s.world.row.value, w, s.world.clock)
  {
    var processing := r.world.workers[w].next;
    s := Doing(r, Save(w));
    assert s.world.workers[w] == AwaitsReady(r.world.workers[w].attempt, processing);
    s := Doing(s, WaitReturns(w, IsReady));
    s := Doing(s, Save(w));
    assert s.world.workers[w].after == Intended && LeaseHeld(s.world.row.value, w, s.world.clock);
    s := Doing(s, Save(w));
  }

  lemma ReadyThenPublished(r: System, w: nat, post: nat) returns (s: System)
    requires Reaches(Act, Begin(false), r) && w in r.world.workers && r.world.workers[w].CallsFinalize?
    requires r.world.row.Some? && LeaseHeld(r.world.row.value, w, r.world.clock)
    ensures Reaches(Act, Begin(false), s) && s.desk == r.desk && s.world.creates == r.world.creates
    ensures s.world.finalizes == r.world.finalizes + [r.world.workers[w].held.containerId]
        && s.world.posts == r.world.posts + {post}
    ensures s.world.row.Some?
    ensures s.world.row.value.operation == r.world.workers[w].held.(status := Published, externalPostId := Some(post))
    ensures w in s.world.workers && s.world.workers[w] == Off(Files(Finish))
  {
    s := Doing(r, CallFinalize(w));
    s := Doing(s, FinalizeReturns(w, Some(post)));
    s := Doing(s, Save(w));
  }

  // ----- the code that begins an operation takes the machine's steps

  datatype Beginning = Busy | ManualReconcileFirst | Begun(created: bool, operation: Operation) | ClaimLost

  /** The machine with one worker, about to claim. */
  function Alone(row: Option<Row>, now: int, owner: nat, attempt: nat): World {
    Fresh(false).(row := row, clock := now, workers := map[owner := Claims(attempt)])
  }

  /** The machine's side of a first run: claim, call, answer. */
  lemma FirstSteps(now: int, owner: nat, attempt: nat, create: Option<nat>, later: nat) returns (s: World)
    ensures var held := Seed(attempt);
      && Reaches(Apply, Alone(None, now, owner, attempt), s)
      && s.row == Some(Row(held, Some(owner), Some(now + LEASE_MS))) && s.clock == now + later && s.creates == [owner]
      && owner in s.workers && s.workers[owner] ==
           (if create.Some? then Saves(attempt, held, held.(status := Processing, containerId := create), Created)
            else Saves(attempt, held, held.(status := Uncertain), Final(Review)))
  {
    var alone := Alone(None, now, owner, attempt);
    Here(Apply, alone);
    s := Onward(Apply, alone, alone, Event.Claim(owner));
    s := Onward(Apply, alone, s, CallCreate(owner));
    assert s.workers[owner] == AwaitsCreate(attempt, Seed(attempt));
    s := Onward(Apply, alone, s, CreateReturns(owner, create, false));
    s := Onward(Apply, alone, s, Tick(later));
  }

  /** The machine's side of a later run: the claim decides. */
  lemma LaterSteps(row: Row, now: int, owner: nat, attempt: nat, later: nat) returns (s: World)
    ensures var alone := Alone(Some(row), now, owner, attempt);
      var (claim, next) := Claiming(Some(row), Seed(attempt), owner, now);
      && Reaches(Apply, alone, s) && s.row == next && s.clock == now + later && s.creates == []
      && owner in s.workers && s.workers[owner] ==
           (if !claim.claimed then Off(Nothing)
            else if row.operation.status == Creating
            then Saves(attempt, row.operation, row.operation.(status := Uncertain), Final(Review))
            else Proceed(attempt, row.operation, false, true))
  {
    var alone := Alone(Some(row), now, owner, attempt);
    Here(Apply, alone);
    s := Onward(Apply, alone, alone, Event.Claim(owner));
    s := Onward(Apply, alone, s, Tick(later));
  }

  lemma SaveStep(alone: World, r: World, owner: nat) returns (s: World)
    requires Reaches(Apply, alone, r) && owner in r.workers && r.workers[owner].Saves?
    ensures Reaches(Apply, alone, s) && s.creates == r.creates && owner in s.workers
    ensures var pc := r.workers[owner];
      var (saved, row) := SavingClaimed(r.row, pc.next, owner, r.clock);
      s.row == row && s.workers[owner] == if saved then Saved(pc) else Refused(pc)
  {
    s := Onward(Apply, alone, r, Save(owner));
  }

  /**
   Claim, create and record, uninterrupted. `create` is the provider's answer, and `later` the time until the save. The
   ghost result is the state that the same steps lead the machine to.
   */
  method BeginInstagramOperation(repository: OperationRepository, target: nat, attempt: nat, owner: nat, now: int,
      create: Option<nat>, later: nat)
    returns (beginning: Beginning, ghost s: World)
    modifies repository
    ensures Reaches(Apply, Alone(Lookup(old(repository.operations), target), now, owner, attempt), s)
    ensures s.row == Lookup(repository.operations, target)
    ensures repository.operations - {target} == old(repository.operations) - {target}
    ensures s.creates == if target in old(repository.operations) then [] else [owner]
    ensures owner in s.workers &&
      s.workers[owner] == match beginning {
        case Begun(created, operation) => Proceed(attempt, operation, created, true)
        case ManualReconcileFirst => Off(Files(Review))
        case ClaimLost => Off(Rereads)
        case Busy => Off(Nothing)
      }
    ensures beginning.Begun? ==>
        s.row.Some? && beginning.operation == s.row.value.operation && beginning.operation.status != Creating
  {
    ghost var before := Lookup(repository.operations, target);
    ghost var alone := Alone(before, now, owner, attempt);
    var claim := repository.ClaimExecution(target, Seed(attempt), owner, now);
    if before.None? {
      s := FirstSteps(now, owner, attempt, create, later);
    } else {
      s := LaterSteps(before.value, now, owner, attempt, later);
    }
    if !claim.claimed { return Busy, s; }
    if !claim.created && claim.operation.status != Creating { return Begun(false, claim.operation), s; }
    var next := claim.operation.(status := Uncertain);
    if claim.created && create.Some? {
      next := claim.operation.(status := Processing, containerId := create);
    }
    var saved := repository.SaveClaimed(target, next, owner, now + later);
    s := SaveStep(alone, s, owner);
    if !saved { return ClaimLost, s; }
    if claim.created && create.Some? { return Begun(true, next), s; }
    return ManualReconcileFirst, s;
  }

  // ----- retrying a busy claim

  datatype Retry = Retry(jobAt: int, bucket: int, delayMs: int)

  /** When the next attempt at a busy record is due; the job's id is (jobAt, bucket). */
  function ClaimRetry(storedExpiry: Option<int>, now: int): Retry {
    var at := if storedExpiry.Some? && storedExpiry.value > now then storedExpiry.value + 1_000 else now + 60_000;
    Retry(at, now / 30_000, if at - now > 1_000 then at - now else 1_000)
  }

  /**
   The delayed job finds the lease free if nobody renewed it, and two observers of one lease share a job id within half
   a minute.
   */
  lemma ClaimRetryFindsTheLeaseFree(row: Row, seed: Operation, owner: nat, now: nat, other: nat)
    requires !Claiming(Some(row), seed, owner, now).0.claimed
    ensures var retry := ClaimRetry(row.expires, now);
      && Claiming(Some(row), seed, owner, now + retry.delayMs).0.claimed
      && !Claiming(Some(row), seed, owner, now + retry.delayMs - 1_001).0.claimed
      && (other < row.expires.value ==>
            (ClaimRetry(row.expires, other).(delayMs := 0) == retry.(delayMs := 0) <==> other / 30_000 == now / 30_000))
  {
  }
}
