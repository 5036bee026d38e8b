/**
 One execution of a Board task at Hermes, under any number of workers: claimed once, guarded by the Board's epochs
 before the call and after it, finished under the claim, or recovered as uncertain.
 */
module BoardTask {
  import opened Runs
  import WriteAhead

  datatype Status = Queued | Running | Succeeded | Failed | Uncertain

  datatype Execution = Execution(
    status: Status, claim: Option<nat>, expires: int, taskVersion: nat, configuration: nat, capability: nat)

  datatype Epochs = Epochs(configuration: nat, capability: nat)

  /** The Board as the handler looks at it. `present`: it exists, belongs to the brand, and the brand is active. */
  datatype Board = Board(present: bool, ready: bool, pending: bool, epochs: Epochs, observed: nat)

  datatype Job = Job(taskVersion: nat, configuration: nat, capability: nat)

  const LEASE_MS := 240_000

  function Claiming(x: Execution, taskVersion: nat, w: nat, now: int): Option<Execution> {
    if x.status != Queued || taskVersion != x.taskVersion then None
    else Some(x.(status := Running, claim := Some(w), expires := now + LEASE_MS))
  }

  function Finishing(x: Execution, taskVersion: nat, w: nat, outcome: Status, now: int): Option<Execution> {
    if x.status != Running || x.claim != Some(w) || x.expires <= now || taskVersion != x.taskVersion then None
    else Some(x.(status := outcome, claim := None))
  }

  function Recovering(x: Execution, taskVersion: nat, queueTimedOut: bool, now: int): Option<Execution> {
    if taskVersion != x.taskVersion then None
    else if (x.status == Running && x.expires <= now) || (x.status == Queued && queueTimedOut)
    then Some(x.(status := Uncertain, claim := None)) else None
  }

  /** May Hermes be called for this claim? */
  predicate MayInvoke(board: Board, job: Job, x: Execution, taskVersion: nat) {
    && board.present && board.ready && !board.pending
    && board.epochs.configuration == job.configuration == x.configuration
    && board.observed == board.epochs.configuration
    && board.epochs.capability == job.capability == x.capability
    && taskVersion == job.taskVersion == x.taskVersion
  }

  /** Did the policy stay as it was when Hermes was called? */
  predicate Unchanged(before: Board, latest: Board) {
    && latest.present && latest.ready && !latest.pending
    && latest.epochs == before.epochs && latest.observed == before.epochs.configuration
  }

  datatype Pc =
    | Claims(job: Job)
    | ReadsBoard(job: Job, x: Execution, taskVersion: nat)
    | Invokes(board: Board)
    | AwaitsHermes(board: Board)
    | Rereads(board: Board)
    | Finishes(outcome: Status)
    | Stopped

  datatype Answer = Answers | Throws(applied: bool)

  datatype Event =
    | Start(w: nat, job: Job)
    | TakeClaim(w: nat, answer: Answer)
    | ReadBoard(w: nat, fails: bool)
    | Invoke(w: nat)
    | HermesReturns(w: nat, result: bool)  // false: the call threw
    | Reread(w: nat, fails: bool)
    | Finish(w: nat, valid: bool, answer: Answer)
    | Crash(w: nat)
    | Recover(queueTimedOut: bool)
    | Tick(ms: nat)
    | BoardChanges(board: Board)
    | TaskChanges

  /** The log: calls of executeTask and of finish, and per claim every epoch pair the Board has had since that claim. */
  datatype World = World(
    x: Execution, taskVersion: nat, board: Board, clock: int, workers: map<nat, Pc>,
    claimant: Option<nat>, invocations: seq<nat>, finishes: seq<nat>, spans: map<nat, seq<Epochs>>, steady: set<nat>)

  /** An execution is queued with the Board's epochs of that moment. */
  function Begin(board: Board, taskVersion: nat): World {
    World(Execution(Queued, None, 0, taskVersion, board.epochs.configuration, board.epochs.capability),
          taskVersion, board, 0, map[], None, [], [], map[], {})
  }

  function Give(s: World, w: nat, pc: Pc): World {
    s.(workers := s.workers[w := pc])
  }

  function TakingClaim(s: World, w: nat, job: Job, answer: Answer): World {
    var x := Claiming(s.x, s.taskVersion, w, s.clock);
    if x.None? || (answer.Throws? && !answer.applied) then Give(s, w, Stopped)
    else
      Give(s.(x := x.value, claimant := Some(w), spans := s.spans[w := [s.board.epochs]]), w,
           if answer.Answers? then ReadsBoard(job, x.value, s.taskVersion) else Stopped)
  }

  function Invoking(s: World, w: nat, board: Board): World {
    Give(s.(invocations := s.invocations + [w]), w, AwaitsHermes(board))
  }

  function Rereading(s: World, w: nat, board: Board, fails: bool): World {
    if fails || !Unchanged(board, s.board) then Give(s, w, Finishes(Uncertain))
    else Give(s.(steady := s.steady + {w}), w, Finishes(Succeeded))
  }

  /** `valid`: the outcome passes the record's own checks; finish is called only here, and nothing follows it. */
  function CallingFinish(s: World, w: nat, outcome: Status, valid: bool, answer: Answer): World {
    var called := s.(finishes := s.finishes + [w]);
    var x := Finishing(s.x, s.taskVersion, w, outcome, s.clock);
    Give(if valid && x.Some? && (answer.Answers? || answer.applied) then called.(x := x.value) else called, w, Stopped)
  }

  /** Epochs only grow, and every running claim's span records the change. */
  function Changing(s: World, board: Board): World {
    if board.epochs.configuration < s.board.epochs.configuration
        || board.epochs.capability < s.board.epochs.capability then s
    else s.(board := board, spans := map w <- s.spans ::
        if Watches(s, w) then s.spans[w] + [board.epochs] else s.spans[w])
  }

  predicate Watches(s: World, w: nat) {
    w in s.workers && (s.workers[w].ReadsBoard? || s.workers[w].Invokes? || s.workers[w].AwaitsHermes?
        || s.workers[w].Rereads?)
  }

  function Recovered(s: World, queueTimedOut: bool): World {
    var x := Recovering(s.x, s.taskVersion, queueTimedOut, s.clock);
    if x.Some? then s.(x := x.value) else s
  }

  function Apply(s: World, e: Event): World {
    if e.Tick? then s.(clock := s.clock + e.ms)
    else if e.Recover? then Recovered(s, e.queueTimedOut)
    else if e.BoardChanges? then Changing(s, e.board)
    else if e.TaskChanges? then s.(taskVersion := s.taskVersion + 1)
    else if e.w !in s.workers then (if e.Start? then Give(s, e.w, Claims(e.job)) else s)
    else if e.Start? then s
    else Step(s, e, e.w, s.workers[e.w])
  }

  predicate IsWorkerEvent(e: Event) {
    !e.Start? && !e.Recover? && !e.Tick? && !e.BoardChanges? && !e.TaskChanges?
  }

  function Step(s: World, e: Event, w: nat, pc: Pc): World
    requires IsWorkerEvent(e)
  {
    match e
    case Crash(_) => Give(s, w, Stopped)
    case TakeClaim(_, answer) => if pc.Claims? then TakingClaim(s, w, pc.job, answer) else s
    case ReadBoard(_, fails) =>
      if !pc.ReadsBoard? then s
      else Give(s, w, if !fails
          && MayInvoke(s.board, pc.job, pc.x, pc.taskVersion) then Invokes(s.board) else Finishes(Failed))
    case Invoke(_) => if pc.Invokes? then Invoking(s, w, pc.board) else s
    case HermesReturns(_, result) =>
      if pc.AwaitsHermes? then Give(s, w, if result then Rereads(pc.board) else Finishes(Uncertain)) else s
    case Reread(_, fails) => if pc.Rereads? then Rereading(s, w, pc.board, fails) else s
    case Finish(_, valid, answer) => if pc.Finishes? then CallingFinish(s, w, pc.outcome, valid, answer) else s
  }

  // ----- invariants

  predicate Expected(s: World, e: Epochs) {
    e == Epochs(s.x.configuration, s.x.capability)
  }

  predicate NotBefore(e: Epochs, f: Epochs) {
    e.configuration <= f.configuration && e.capability <= f.capability
  }

  predicate WorkerOk(s: World, w: nat, pc: Pc) {
    && (pc.Claims? ==> s.claimant != Some(w) && w !in s.finishes && w !in s.invocations)
    && (!pc.Claims? && !pc.Stopped? ==>
        s.claimant == Some(w) && w !in s.finishes && s.x.status != Queued && w in s.spans)
    && (pc.ReadsBoard? || pc.Invokes? || (pc.Finishes? && pc.outcome == Failed) ==> s.invocations == [])
    && (pc.AwaitsHermes? || pc.Rereads? || (pc.Finishes? && pc.outcome == Succeeded) ==> s.invocations == [w])
    && (pc.ReadsBoard? ==> pc.x.configuration == s.x.configuration && pc.x.capability == s.x.capability)
    && (pc.Invokes? || pc.AwaitsHermes? || pc.Rereads? ==> Expected(s, pc.board.epochs))
    && (pc.Finishes? ==> pc.outcome in {Failed, Succeeded, Uncertain} && (pc.outcome == Succeeded ==> w in s.steady))
    && (!pc.Claims? && !pc.Stopped? ==>
        s.x.status in {Running, Uncertain} && (s.x.status == Running ==> s.x.claim == Some(w)))
  }

  ghost predicate SpanOk(s: World, w: nat)
    requires w in s.spans
  {
    && (forall e <- s.spans[w] :: NotBefore(Epochs(s.x.configuration, s.x.capability), e))
    && (Watches(s, w) ==> forall e <- s.spans[w] :: NotBefore(e, s.board.epochs))
    && (w in s.steady ==> !Watches(s, w) && forall e <- s.spans[w] :: Expected(s, e))
  }

  ghost predicate StoreOk(s: World) {
    && (s.x.status == Running ==> s.x.claim.Some? && s.x.claim == s.claimant)
    && (s.claimant.None? ==> s.invocations == [] && s.x.status in {Queued, Uncertain})
    && (s.claimant.Some? ==>
        s.x.status != Queued && s.claimant.value in s.workers && !s.workers[s.claimant.value].Claims?)
    && |s.invocations| <= 1
    && (forall i, j :: 0 <= i < j < |s.finishes| ==> s.finishes[i] != s.finishes[j])
    && (forall w <- s.finishes :: s.claimant == Some(w))
    && (forall w <- s.invocations :: s.claimant == Some(w))
    && (s.x.status == Failed ==> s.invocations == [] && !MayStillInvoke(s))
    && (s.x.status == Succeeded ==>
        s.claimant.Some? && s.invocations == [s.claimant.value] && s.claimant.value in s.steady)
    && (forall w <- s.spans :: s.claimant == Some(w))
    && (forall w <- s.steady :: w in s.spans)
    && NotBefore(Epochs(s.x.configuration, s.x.capability), s.board.epochs)
    && (forall w <- s.spans :: SpanOk(s, w))
  }

  predicate MayStillInvoke(s: World) {
    s.claimant.Some? && s.claimant.value in s.workers
        && (s.workers[s.claimant.value].ReadsBoard? || s.workers[s.claimant.value].Invokes?)
  }

  ghost predicate Inv(s: World) {
    StoreOk(s) && forall w <- s.workers :: WorkerOk(s, w, s.workers[w])
  }

  lemma BoardChangeKeeps(s: World, board: Board)
    requires Inv(s)
    ensures Inv(Changing(s, board))
  {
    var t := Changing(s, board);
    assert forall w <- s.spans :: SpanOk(t, w);
    assert StoreOk(t);
    forall v <- t.workers ensures WorkerOk(t, v, t.workers[v]) {
      assert WorkerOk(s, v, s.workers[v]);
    }
  }

  lemma RecoveryKeeps(s: World, queueTimedOut: bool)
    requires Inv(s)
    ensures Inv(Recovered(s, queueTimedOut))
  {
    var t := Recovered(s, queueTimedOut);
    assert StoreOk(t);
    forall v <- t.workers ensures WorkerOk(t, v, t.workers[v]) {
      assert WorkerOk(s, v, s.workers[v]);
    }
  }

  lemma EnvironmentKeeps(s: World, e: Event)
    requires Inv(s) && !IsWorkerEvent(e)
    ensures Inv(Apply(s, e))
  {
    if e.BoardChanges? {
      BoardChangeKeeps(s, e.board);
    } else if e.Recover? {
      RecoveryKeeps(s, e.queueTimedOut);
    } else {
      var t := Apply(s, e);
      assert StoreOk(t);
      forall v <- t.workers ensures WorkerOk(t, v, t.workers[v]) {
        assert v in s.workers ==> WorkerOk(s, v, s.workers[v]);
      }
    }
  }

  lemma ClaimKeeps(s: World, w: nat, answer: Answer)
    requires Inv(s) && w in s.workers && s.workers[w].Claims?
    ensures Inv(TakingClaim(s, w, s.workers[w].job, answer))
  {
    var t := TakingClaim(s, w, s.workers[w].job, answer);
    assert WorkerOk(s, w, s.workers[w]);
    assert StoreOk(t);
    forall v <- t.workers ensures WorkerOk(t, v, t.workers[v]) {
      assert WorkerOk(s, v, s.workers[v]);
    }
  }

  lemma InvokeKeeps(s: World, w: nat)
    requires Inv(s) && w in s.workers && s.workers[w].Invokes?
    ensures Inv(Invoking(s, w, s.workers[w].board))
  {
  }

  lemma RereadKeeps(s: World, w: nat, fails: bool)
    requires Inv(s) && w in s.workers && s.workers[w].Rereads?
    ensures Inv(Rereading(s, w, s.workers[w].board, fails))
  {
    var t := Rereading(s, w, s.workers[w].board, fails);
    assert WorkerOk(s, w, s.workers[w]);
    assert StoreOk(t);
    forall v <- t.workers ensures WorkerOk(t, v, t.workers[v]) {
      assert WorkerOk(s, v, s.workers[v]);
    }
  }

  lemma FinishKeeps(s: World, w: nat, valid: bool, answer: Answer)
    requires Inv(s) && w in s.workers && s.workers[w].Finishes?
    ensures Inv(CallingFinish(s, w, s.workers[w].outcome, valid, answer))
  {
    var t := CallingFinish(s, w, s.workers[w].outcome, valid, answer);
    assert WorkerOk(s, w, s.workers[w]);
    assert StoreOk(t);
    forall v <- t.workers ensures WorkerOk(t, v, t.workers[v]) {
      assert WorkerOk(s, v, s.workers[v]);
    }
  }

  lemma LocalKeeps(s: World, e: Event)
    requires Inv(s) && (e.Crash? || e.ReadBoard? || e.HermesReturns?) && e.w in s.workers
    ensures Inv(Apply(s, e))
  {
    var t := Apply(s, e);
    assert WorkerOk(s, e.w, s.workers[e.w]);
    assert StoreOk(t);
    forall v <- t.workers ensures WorkerOk(t, v, t.workers[v]) {
      assert WorkerOk(s, v, s.workers[v]);
    }
  }

  lemma StepKeepsInv(s: World, e: Event)
    requires Inv(s)
    ensures Inv(Apply(s, e))
  {
    if !IsWorkerEvent(e) {
      EnvironmentKeeps(s, e);
    } else if e.w in s.workers {
      var w, pc := e.w, s.workers[e.w];
      if e.TakeClaim? {
        if pc.Claims? { ClaimKeeps(s, w, e.answer); }
      } else if e.Invoke? {
        if pc.Invokes? { InvokeKeeps(s, w); }
      } else if e.Reread? {
        if pc.Rereads? { RereadKeeps(s, w, e.fails); }
      } else if e.Finish? {
        if pc.Finishes? { FinishKeeps(s, w, e.valid, e.answer); }
      } else {
        LocalKeeps(s, e);
      }
    }
  }

  lemma ReachableInv(board: Board, taskVersion: nat, schedule: seq<Event>)
    ensures Inv(Run(Apply, Begin(board, taskVersion), schedule))
  {
    forall t, e {:trigger Apply(t, e)} | Inv(t) ensures Inv(Apply(t, e)) {
      StepKeepsInv(t, e);
    }
    RunKeeps(Apply, Inv, Begin(board, taskVersion), schedule);
  }

  // ----- refinement of the write-ahead journal

  function InvocationJournal(s: World): WriteAhead.Journal {
    WriteAhead.Journal(
      if s.claimant.None? then WriteAhead.Unrecorded else if s.x.status == Running then WriteAhead.Recorded
      else WriteAhead.Settled,
      MayStillInvoke(s),
      |s.invocations|)
  }

  lemma RefinesJournal(s: World, e: Event)
    requires Inv(s)
    ensures WriteAhead.Follows(InvocationJournal(s), InvocationJournal(Apply(s, e)))
  {
    if IsWorkerEvent(e) && e.w in s.workers {
      assert WorkerOk(s, e.w, s.workers[e.w]);
    }
  }

  /** Hermes is invoked at most once per execution, and a claimed run calls finish at most once. */
  lemma InvokesAndFinishesAtMostOnce(board: Board, taskVersion: nat, schedule: seq<Event>)
    ensures var s := Run(Apply, Begin(board, taskVersion), schedule); |s.invocations| <= 1 && |s.finishes| <= 1
  {
    forall t, e {:trigger Apply(t, e)} | Inv(t)
      ensures Inv(Apply(t, e)) && WriteAhead.Follows(InvocationJournal(t), InvocationJournal(Apply(t, e)))
    {
      StepKeepsInv(t, e);
      RefinesJournal(t, e);
    }
    WriteAhead.RefinementFiresAtMostOnce(Apply, Inv, InvocationJournal, Begin(board, taskVersion), schedule);
    ReachableInv(board, taskVersion, schedule);
    var s := Run(Apply, Begin(board, taskVersion), schedule);
    assert Nth(s.finishes, 0) == Nth(s.finishes, 1) || |s.finishes| <= 1;
  }

  /**
   Failed means that Hermes was never invoked. Succeeded means that it was, and that from the claim to its return the
   Board's epochs were the queued ones throughout.
   */
  lemma OutcomesAreTruthful(board: Board, taskVersion: nat, schedule: seq<Event>)
    ensures var s := Run(Apply, Begin(board, taskVersion), schedule);
      && (s.x.status == Failed ==> s.invocations == [] && !MayStillInvoke(s))
      && (s.x.status == Succeeded ==> exists w :: SteadyRun(s, w))
  {
    ReachableInv(board, taskVersion, schedule);
    var s := Run(Apply, Begin(board, taskVersion), schedule);
    if s.x.status == Succeeded {
      assert SpanOk(s, s.claimant.value);
      assert SteadyRun(s, s.claimant.value);
    }
  }

  /** Worker `w` invoked Hermes, and its span holds nothing but the epochs that the execution was queued with. */
  ghost predicate SteadyRun(s: World, w: nat) {
    s.invocations == [w] && w in s.spans && forall e <- s.spans[w] :: Expected(s, e)
  }

  /** Recovery decides nothing twice: an outcome that is stored stays. */
  lemma OutcomeStays(board: Board, taskVersion: nat, schedule: seq<Event>, more: seq<Event>)
    ensures var s := Run(Apply, Begin(board, taskVersion), schedule);
      s.x.status in {Succeeded, Failed, Uncertain} ==> Run(Apply, s, more).x == s.x
  {
    var s := Run(Apply, Begin(board, taskVersion), schedule);
    if s.x.status in {Succeeded, Failed, Uncertain} {
      RunKeeps(Apply, (t: World) => t.x == s.x, s, more);
    }
  }

  /** The protocol can succeed. */
  lemma ExecutionSucceeds(w: nat, taskVersion: nat, epochs: Epochs) returns (s: World)
    ensures Reaches(Apply, Begin(Board(true, true, false, epochs, epochs.configuration), taskVersion), s)
    ensures s.x.status == Succeeded && s.invocations == [w]
  {
    var board := Board(true, true, false, epochs, epochs.configuration);
    var b := Begin(board, taskVersion);
    var job := Job(taskVersion, epochs.configuration, epochs.capability);
    Here(Apply, b);
    s := Onward(Apply, b, b, Start(w, job));
    assert s.workers == map[w := Claims(job)];
    s := Onward(Apply, b, s, TakeClaim(w, Answers));
    assert s.workers == map[w := ReadsBoard(job, s.x, taskVersion)]
        && Finishing(s.x, taskVersion, w, Succeeded, 0).Some?;
    s := Onward(Apply, b, s, ReadBoard(w, false));
    assert s.workers == map[w := Invokes(board)];
    s := InvokedSucceeds(b, s, w, board);
  }

  lemma InvokedSucceeds(b: World, r: World, w: nat, board: Board) returns (s: World)
    requires Reaches(Apply, b, r) && w in r.workers && r.workers[w] == Invokes(board) && r.board == board
        && Unchanged(board, board)
    requires Finishing(r.x, r.taskVersion, w, Succeeded, r.clock).Some?
    ensures Reaches(Apply, b, s) && s.x.status == Succeeded && s.invocations == r.invocations + [w]
  {
    s := Onward(Apply, b, r, Invoke(w));
    s := Onward(Apply, b, s, HermesReturns(w, true));
    assert s.workers[w] == Rereads(board) && s.board == board && s.x == r.x;
    s := Onward(Apply, b, s, Reread(w, false));
    assert s.workers[w] == Finishes(Succeeded) && s.x == r.x;
    s := Onward(Apply, b, s, Finish(w, true, Answers));
  }
}
