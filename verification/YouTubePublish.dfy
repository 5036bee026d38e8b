/**
 The resumable YouTube upload and its processing polls: one run at a time per target, each of which may die at any
 await.
 */
module YouTubePublish {
  import opened Runs
  import opened ProviderOperations
  import opened SerialRuns

  const MAX_CHECKS := 240
  const TIMEOUT_MS := 2 * 60 * 60_000

  datatype NextStep = CreateSession | QuerySession | Upload | CheckProcessing | FinishProof | ActionRequired | GiveUp

  function YouTubePublishNextStep(operation: Option<Operation>): NextStep {
    match operation
    case None => CreateSession
    case Some(o) =>
      if o.status == Uncertain then ActionRequired
      else if o.status == Failed then GiveUp
      else if o.status == Published then FinishProof
      else if o.externalPostId.Some? then CheckProcessing
      else if o.status == Finalizing then QuerySession
      else Upload
  }

  datatype Advanced = Advanced(gaveUp: bool, operation: Operation)

  function AdvanceProcessingPoll(operation: Operation, now: int): Advanced {
    var checks := operation.processingChecks.GetOr(0) + 1;
    var deadline := operation.deadline.GetOr(At(now + TIMEOUT_MS));
    var timedOut := checks >= MAX_CHECKS || deadline.NotADate? || deadline.ms <= now;
    Advanced(timedOut, operation.(
      status := if timedOut then Uncertain else Processing, processingChecks := Some(checks),
          deadline := Some(deadline)))
  }

  // ----- the provider: sessions that receive bytes and turn into a video once they are complete

  datatype Session = Session(received: nat, video: bool)

  datatype Reply = Answers | Fails | Dies

  datatype OpenCall = Opened | NotAnswered(created: bool, dies: bool)
  datatype QueryCall = QueryCall(settles: bool, reply: Reply)
  datatype UploadCall = UploadCall(sent: bool, accepts: nat, settles: bool, reply: Reply)
  datatype CheckCall = CheckFails(dies: bool) | VideoFailed | StillProcessing | Processed(privacyMatches: bool)
  datatype Enqueue = Added | NotConfirmed(added: bool, dies: bool)

  /** Bytes sent to a session: where they start, and what the session held at that moment. */
  datatype Sending = Sending(session: nat, start: nat, received: nat)

  /** The stored record and the provider. A session is named by its index, and so is the video made of it. */
  datatype Channel = Channel(
    size: nat, stored: Option<Operation>, sessions: seq<Session>,
    calls: seq<NextStep>, sendings: seq<Sending>, jobs: seq<nat>)

  function Fresh(size: nat): Channel {
    Channel(size, None, [], [], [], [])
  }

  function Receive(s: Session, size: nat, accepts: nat, settles: bool): Session {
    var received := if s.received + accepts <= size then s.received + accepts else if s.received <= size then
        size else s.received;
    Session(received, s.video || (settles && received == size))
  }

  function Querying(c: Channel, session: nat, call: QueryCall): Channel
    requires session < |c.sessions|
  {
    c.(sessions := c.sessions[session := Receive(c.sessions[session], c.size, 0, call.settles)],
        calls := c.calls + [QuerySession])
  }

  /** The connector refuses an offset outside the file before it sends anything. */
  function Uploading(c: Channel, session: nat, start: nat, call: UploadCall): (Channel, Reply)
    requires session < |c.sessions|
  {
    var called := c.(calls := c.calls + [Upload]);
    if c.size <= start then (called, Fails)
    else if !call.sent && !call.reply.Answers? then (called, call.reply)
    else
      (called.(
         sessions := c.sessions[session := Receive(c.sessions[session], c.size, call.accepts, call.settles)],
         sendings := c.sendings + [Sending(session, start, c.sessions[session].received)]),
       call.reply)
  }

  // ----- one run

  /** What each await of a run meets; a run reaches each of them at most once. */
  datatype Script = Script(
    attempt: nat, open: OpenCall, openSave: Write, relabel: Write,
    query: QueryCall, queryReady: Write, queryUncertain: Write,
    finalizing: Write, upload: UploadCall, partial: Write,
    recheck: QueryCall, recheckReady: Write, recheckUncertain: Write,
    acceptedAt: int, accepted: Write, check: CheckCall, polledAt: int, verdict: Write, enqueue: Enqueue)

  function Store(c: Channel, operation: Operation, write: Write): Channel {
    c.(stored := Put(c.stored, operation, write))
  }

  function Reviewing(c: Channel, operation: Operation, write: Write): (Channel, Outcome) {
    (Store(c, operation.(status := Uncertain), write), if write.Done? then NeedsReview else Ending(write))
  }

  function Publishing(c: Channel, k: Script): (Channel, Outcome) {
    match YouTubePublishNextStep(c.stored)
    case ActionRequired => (c, NeedsReview)
    case GiveUp => (c, Raised)
    case CreateSession => Opening(c, k)
    case _ =>
      var operation := c.stored.value.(attempt := k.attempt);
      if c.stored.value.attempt == k.attempt then Continuing(c, operation, k)
      else
        var c1 := Store(c, operation, k.relabel);
        if k.relabel.Done? then Continuing(c1, operation, k) else (c1, Ending(k.relabel))
  }

  function Opening(c: Channel, k: Script): (Channel, Outcome) {
    var called := c.(calls := c.calls + [CreateSession]);
    var open := called.(sessions := c.sessions + [Session(0, false)]);
    match k.open
    case NotAnswered(created, dies) => (if created then open else called, if dies then Gone else Raised)
    case Opened =>
      var operation := Operation(Ready, k.attempt, session := Some(|c.sessions|), uploadedBytes := Some(0));
      var c1 := Store(open, operation, k.openSave);
      if k.openSave.Done? then Continuing(c1, operation, k) else (c1, Ending(k.openSave))
  }

  /** From a decided record: a known video is only checked; otherwise its session is resumed. */
  function Continuing(c: Channel, operation: Operation, k: Script): (Channel, Outcome) {
    if operation.externalPostId.Some? then Checking(c, operation, k)
    else if operation.session.None? || |c.sessions| <= operation.session.value then (c, Raised)
    else if operation.status != Finalizing then Resuming(c, operation, operation.uploadedBytes.GetOr(0), k)
    else
      var c1 := Querying(c, operation.session.value, k.query);
      var session := c1.sessions[operation.session.value];
      var ready := operation.(status := Ready, uploadedBytes := Some(session.received));
      match k.query.reply
      case Dies => (c1, Gone)
      case Fails => Reviewing(c1, operation, k.queryUncertain)
      case Answers =>
        if session.video then Accepting(c1, operation, k)
        else match k.queryReady
          case Done => Resuming(Store(c1, ready, Done), ready, session.received, k)
          case Thrown(_) => Reviewing(Store(c1, ready, k.queryReady), ready, k.queryUncertain)
          case Crashed(_) => (Store(c1, ready, k.queryReady), Gone)
  }

  function Resuming(c: Channel, operation: Operation, start: nat, k: Script): (Channel, Outcome)
    requires operation.session.Some? && operation.session.value < |c.sessions|
  {
    var finalizing := operation.(status := Finalizing, uploadedBytes := Some(start));
    var c1 := Store(c, finalizing, k.finalizing);
    if !k.finalizing.Done? then (c1, Ending(k.finalizing))
    else
      var (c2, reply) := Uploading(c1, finalizing.session.value, start, k.upload);
      var session := c2.sessions[finalizing.session.value];
      match reply
      case Dies => (c2, Gone)
      case Fails => Rechecking(c2, finalizing, k)
      case Answers =>
        if session.video then Accepting(c2, finalizing, k)
        else (Store(c2, finalizing.(status := Ready, uploadedBytes := Some(session.received)), k.partial),
              if k.partial.Crashed? then Gone else Raised)
  }

  /** The upload failed: ask the session what it received. */
  function Rechecking(c: Channel, operation: Operation, k: Script): (Channel, Outcome)
    requires operation.session.Some? && operation.session.value < |c.sessions|
  {
    var c1 := Querying(c, operation.session.value, k.recheck);
    var session := c1.sessions[operation.session.value];
    var ready := operation.(status := Ready, uploadedBytes := Some(session.received));
    match k.recheck.reply
    case Dies => (c1, Gone)
    case Fails => Reviewing(c1, operation, k.recheckUncertain)
    case Answers =>
      if session.video then Accepting(c1, operation, k)
      else match k.recheckReady
        case Done => (Store(c1, ready, Done), Raised)
        case Thrown(_) => Reviewing(Store(c1, ready, k.recheckReady), ready, k.recheckUncertain)
        case Crashed(_) => (Store(c1, ready, k.recheckReady), Gone)
  }

  /** The record once its session became a video. */
  function Accepted(c: Channel, operation: Operation, at: int): Operation {
    operation.(
      status := Processing, externalPostId := operation.session, uploadedBytes := Some(c.size),
      processingChecks := Some(0), deadline := Some(At(at + TIMEOUT_MS)))
  }

  function Accepting(c: Channel, operation: Operation, k: Script): (Channel, Outcome)
    requires operation.session.Some?
  {
    var processing := Accepted(c, operation, k.acceptedAt);
    var c1 := Store(c, processing, k.accepted);
    if k.accepted.Done? then Checking(c1, processing, k) else (c1, Ending(k.accepted))
  }

  function Checking(c: Channel, operation: Operation, k: Script): (Channel, Outcome)
    requires operation.externalPostId.Some?
  {
    if operation.status == Published then (c, Proved(operation.externalPostId.value))
    else
      var c1 := c.(calls := c.calls + [CheckProcessing]);
      match k.check
      case CheckFails(dies) => (c1, if dies then Gone else Raised)
      case VideoFailed => (Store(c1, operation.(status := Failed), k.verdict),
          if k.verdict.Done? then Raised else Ending(k.verdict))
      case StillProcessing => Polling(c1, AdvanceProcessingPoll(operation, k.polledAt), k)
      case Processed(true) =>
        (Store(c1, operation.(status := Published), k.verdict),
         if k.verdict.Done? then Proved(operation.externalPostId.value) else Ending(k.verdict))
      case Processed(false) => Reviewing(c1, operation, k.verdict)
  }

  function Polling(c: Channel, advanced: Advanced, k: Script): (Channel, Outcome) {
    var c1 := Store(c, advanced.operation, k.verdict);
    if !k.verdict.Done? then (c1, Ending(k.verdict))
    else if advanced.gaveUp then (c1, NeedsReview)
    else
      var queued := c1.(jobs := c1.jobs + [advanced.operation.processingChecks.GetOr(0)]);
      match k.enqueue
      case Added => (queued, Waiting)
      case NotConfirmed(added, dies) => (if added then queued else c1, if dies then Gone else Raised)
  }

  function AfterRun(c: Channel, k: Script): Channel {
    Publishing(c, k).0
  }

  /** The handler itself, which reassigns its operation and saves it step by step. */
  class YouTubeTarget {
    const size: nat
    var stored: Option<Operation>
    var sessions: seq<Session>
    var calls: seq<NextStep>
    var sendings: seq<Sending>
    var jobs: seq<nat>

    constructor (size: nat)
      ensures State() == Fresh(size)
    {
      this.size := size;
      stored, sessions, calls, sendings, jobs := None, [], [], [], [];
    }

    ghost function State(): Channel
      reads this
    {
      Channel(size, stored, sessions, calls, sendings, jobs)
    }

    method Save(operation: Operation, write: Write)
      modifies this`stored
      ensures State() == Store(old(State()), operation, write)
    {
      if write.Done? || write.applied {
        stored := Some(operation);
      }
    }

    method CallQuery(session: nat, call: QueryCall) returns (now: Session)
      requires session < |sessions|
      modifies this`sessions, this`calls
      ensures State() == Querying(old(State()), session, call) && now == sessions[session]
    {
      now := Receive(sessions[session], size, 0, call.settles);
      sessions, calls := sessions[session := now], calls + [QuerySession];
    }

    method CallUpload(session: nat, start: nat, call: UploadCall) returns (reply: Reply, now: Session)
      requires session < |sessions|
      modifies this`sessions, this`calls, this`sendings
      ensures (State(), reply) == Uploading(old(State()), session, start, call) && now == sessions[session]
    {
      calls := calls + [Upload];
      if size <= start { return Fails, sessions[session]; }
      if call.sent || call.reply.Answers? {
        sendings := sendings + [Sending(session, start, sessions[session].received)];
        sessions := sessions[session := Receive(sessions[session], size, call.accepts, call.settles)];
      }
      return call.reply, sessions[session];
    }

    method MarkForReview(operation: Operation, write: Write) returns (outcome: Outcome)
      modifies this`stored
      ensures (State(), outcome) == Reviewing(old(State()), operation, write)
    {
      Save(operation.(status := Uncertain), write);
      return if write.Done? then NeedsReview else Ending(write);
    }

    method Publish(k: Script) returns (outcome: Outcome)
      modifies this
      ensures (State(), outcome) == Publishing(old(State()), k)
    {
      var nextStep := YouTubePublishNextStep(stored);
      if nextStep == ActionRequired { return NeedsReview; }
      if nextStep == GiveUp { return Raised; }
      var operation: Operation;
      if stored.None? {
        calls := calls + [CreateSession];
        if k.open.Opened? || k.open.created { sessions := sessions + [Session(0, false)]; }
        if k.open.NotAnswered? { return if k.open.dies then Gone else Raised; }
        operation := Operation(Ready, k.attempt, session := Some(|sessions| - 1), uploadedBytes := Some(0));
        Save(operation, k.openSave);
        if !k.openSave.Done? { return Ending(k.openSave); }
      } else {
        operation := stored.value;
        if operation.attempt != k.attempt {
          operation := operation.(attempt := k.attempt);
          Save(operation, k.relabel);
          if !k.relabel.Done? { return Ending(k.relabel); }
        }
      }
      if operation.externalPostId.None? {
        outcome := UploadAndCheck(operation, k);
      } else {
        outcome := CheckVideo(operation, k);
      }
    }

    method UploadAndCheck(current: Operation, k: Script) returns (outcome: Outcome)
      requires current.externalPostId.None?
      modifies this
      ensures (State(), outcome) == Continuing(old(State()), current, k)
    {
      var operation := current;
      if operation.session.None? || |sessions| <= operation.session.value { return Raised; }
      var session := operation.session.value;
      var startByte := operation.uploadedBytes.GetOr(0);
      var video := false;
      if operation.status == Finalizing {
        var checked := CallQuery(session, k.query);
        if k.query.reply.Dies? { return Gone; }
        if k.query.reply.Fails? {
          outcome := MarkForReview(operation, k.queryUncertain);
          return;
        }
        if checked.video {
          video := true;
        } else {
          startByte := checked.received;
          operation := operation.(status := Ready, uploadedBytes := Some(startByte));
          Save(operation, k.queryReady);
          if k.queryReady.Crashed? { return Gone; }
          if k.queryReady.Thrown? {
            outcome := MarkForReview(operation, k.queryUncertain);
            return;
          }
        }
      }
      if !video {
        operation := operation.(status := Finalizing, uploadedBytes := Some(startByte));
        Save(operation, k.finalizing);
        if !k.finalizing.Done? { return Ending(k.finalizing); }
        var reply, uploaded := CallUpload(session, startByte, k.upload);
        if reply == Dies { return Gone; }
        if reply == Answers && !uploaded.video {
          Save(operation.(status := Ready, uploadedBytes := Some(uploaded.received)), k.partial);
          return if k.partial.Crashed? then Gone else Raised;
        }
        if reply == Fails {
          var checked := CallQuery(session, k.recheck);
          if k.recheck.reply.Dies? { return Gone; }
          if k.recheck.reply.Fails? {
            outcome := MarkForReview(operation, k.recheckUncertain);
            return;
          }
          if !checked.video {
            operation := operation.(status := Ready, uploadedBytes := Some(checked.received));
            Save(operation, k.recheckReady);
            if k.recheckReady.Crashed? { return Gone; }
            if k.recheckReady.Done? { return Raised; }
            outcome := MarkForReview(operation, k.recheckUncertain);
            return;
          }
        }
      }
      operation := operation.(
        status := Processing, externalPostId := Some(session), uploadedBytes := Some(size),
        processingChecks := Some(0), deadline := Some(At(k.acceptedAt + TIMEOUT_MS)));
      Save(operation, k.accepted);
      if !k.accepted.Done? { return Ending(k.accepted); }
      outcome := CheckVideo(operation, k);
    }

    method CheckVideo(current: Operation, k: Script) returns (outcome: Outcome)
      requires current.externalPostId.Some?
      modifies this
      ensures (State(), outcome) == Checking(old(State()), current, k)
    {
      if current.status == Published { return Proved(current.externalPostId.value); }
      calls := calls + [CheckProcessing];
      match k.check {
        case CheckFails(dies) =>
          return if dies then Gone else Raised;
        case VideoFailed =>
          Save(current.(status := Failed), k.verdict);
          return if k.verdict.Done? then Raised else Ending(k.verdict);
        case StillProcessing =>
          var advanced := AdvanceProcessingPoll(current, k.polledAt);
          Save(advanced.operation, k.verdict);
          if !k.verdict.Done? { return Ending(k.verdict); }
          if advanced.gaveUp { return NeedsReview; }
          if k.enqueue.Added? || k.enqueue.added { jobs := jobs + [advanced.operation.processingChecks.GetOr(0)]; }
          return if k.enqueue.Added? then Waiting else if k.enqueue.dies then Gone else Raised;
        case Processed(privacyMatches) =>
          if !privacyMatches {
            outcome := MarkForReview(current, k.verdict);
            return;
          }
          Save(current.(status := Published), k.verdict);
          return if k.verdict.Done? then Proved(current.externalPostId.value) else Ending(k.verdict);
      }
    }
  }

  // ----- every sequence of runs

  ghost predicate Ascending(jobs: seq<nat>, last: nat) {
    && (forall i, j :: 0 <= i < j < |jobs| ==> jobs[i] < jobs[j])
    && (forall i :: 0 <= i < |jobs| ==> 1 <= jobs[i] <= last && jobs[i] < MAX_CHECKS)
  }

  ghost predicate SessionsOk(c: Channel, mine: Option<nat>) {
    && (forall i :: 0 <= i < |c.sessions| ==>
          && c.sessions[i].received <= c.size
          && (c.sessions[i].video ==> c.sessions[i].received == c.size && mine == Some(i))
          && (c.sessions[i].received > 0 ==> mine == Some(i)))
    && (forall u <- c.sendings :: mine == Some(u.session) && u.start == u.received)
  }

  ghost predicate RecordOk(c: Channel, o: Operation) {
    && o.session.Some? && o.session.value < |c.sessions|
    && o.status in {Ready, Finalizing, Processing, Published, Uncertain, Failed}
    && (o.status in {Ready, Finalizing} ==> o.externalPostId.None?)
    && (o.status in {Processing, Published, Failed} ==> o.externalPostId.Some?)
    && (o.status == Ready ==> o.uploadedBytes == Some(c.sessions[o.session.value].received))
    && (o.externalPostId.Some? ==>
          && o.externalPostId == o.session && c.sessions[o.session.value].video
          && o.deadline.Some? && o.deadline.value.At? && o.processingChecks.Some?
          && o.processingChecks.value <= MAX_CHECKS
          && (o.processingChecks.value == MAX_CHECKS ==> o.status == Uncertain)
          && Ascending(c.jobs, o.processingChecks.value))
    && (o.externalPostId.None? ==> c.jobs == [])
  }

  ghost predicate Inv(c: Channel) {
    match c.stored
    case None => SessionsOk(c, None) && c.jobs == []
    case Some(o) => SessionsOk(c, o.session) && RecordOk(c, o)
  }

  /** `o` could be stored. */
  ghost predicate Fits(c: Channel, o: Operation) {
    SessionsOk(c, o.session) && RecordOk(c, o)
  }

  lemma StoreKeeps(c: Channel, o: Operation, write: Write)
    requires Inv(c) && Fits(c, o)
    ensures Inv(Store(c, o, write))
  {
  }

  lemma PollingKeeps(c: Channel, o: Operation, k: Script)
    requires Inv(c) && Fits(c, o) && o.status == Processing
    ensures Inv(Polling(c, AdvanceProcessingPoll(o, k.polledAt), k).0)
  {
    var advanced := AdvanceProcessingPoll(o, k.polledAt);
    assert Ascending(c.jobs, o.processingChecks.value);
    assert Fits(c, advanced.operation);
    StoreKeeps(c, advanced.operation, k.verdict);
    var c1 := Store(c, advanced.operation, k.verdict);
    var checks := advanced.operation.processingChecks.GetOr(0);
    if !advanced.gaveUp {
      assert Ascending(c1.jobs + [checks], checks);
    }
  }

  lemma CheckingKeeps(c: Channel, o: Operation, k: Script)
    requires Inv(c) && Fits(c, o) && o.status in {Processing, Published}
    ensures Inv(Checking(c, o, k).0)
  {
    if o.status != Published {
      var c1 := c.(calls := c.calls + [CheckProcessing]);
      assert Inv(c1) && Fits(c1, o);
      match k.check
      case CheckFails(_) =>
      case VideoFailed => StoreKeeps(c1, o.(status := Failed), k.verdict);
      case StillProcessing => PollingKeeps(c1, o, k);
      case Processed(true) => StoreKeeps(c1, o.(status := Published), k.verdict);
      case Processed(false) => StoreKeeps(c1, o.(status := Uncertain), k.verdict);
    }
  }

  lemma AcceptedFits(c: Channel, o: Operation, at: int)
    requires Inv(c) && c.stored == Some(o) && o.status == Finalizing && c.sessions[o.session.value].video
    ensures Fits(c, Accepted(c, o, at))
  {
  }

  lemma AcceptingKeeps(c: Channel, o: Operation, k: Script)
    requires Inv(c) && c.stored == Some(o) && o.status == Finalizing && c.sessions[o.session.value].video
    ensures Inv(Accepting(c, o, k).0)
  {
    AcceptedFits(c, o, k.acceptedAt);
    var processing := Accepted(c, o, k.acceptedAt);
    StoreKeeps(c, processing, k.accepted);
    if k.accepted.Done? {
      CheckingKeeps(Store(c, processing, Done), processing, k);
    }
  }

  lemma QueryingKeeps(c: Channel, o: Operation, call: QueryCall)
    requires Inv(c) && c.stored == Some(o) && o.status == Finalizing
    ensures var d := Querying(c, o.session.value, call);
      && Inv(d) && Fits(d, o)
      && d.stored == Some(o)
      && Fits(d, o.(status := Ready, uploadedBytes := Some(d.sessions[o.session.value].received)))
  {
  }

  lemma RecheckingKeeps(c: Channel, o: Operation, k: Script)
    requires Inv(c) && c.stored == Some(o) && o.status == Finalizing
    ensures Inv(Rechecking(c, o, k).0)
  {
    QueryingKeeps(c, o, k.recheck);
    var c1 := Querying(c, o.session.value, k.recheck);
    var session := c1.sessions[o.session.value];
    var ready := o.(status := Ready, uploadedBytes := Some(session.received));
    match k.recheck.reply
    case Dies =>
    case Fails => StoreKeeps(c1, o.(status := Uncertain), k.recheckUncertain);
    case Answers =>
      if session.video {
        AcceptingKeeps(c1, o, k);
      } else {
        StoreKeeps(c1, ready, k.recheckReady);
        StoreKeeps(Store(c1, ready, k.recheckReady), ready.(status := Uncertain), k.recheckUncertain);
      }
  }

  lemma UploadingKeeps(c: Channel, o: Operation, start: nat, call: UploadCall)
    requires Inv(c) && c.stored == Some(o) && o.status == Finalizing
    requires start == c.sessions[o.session.value].received
    ensures var (d, _) := Uploading(c, o.session.value, start, call);
      && Inv(d) && d.stored == Some(o)
      && Fits(d, o.(status := Ready, uploadedBytes := Some(d.sessions[o.session.value].received)))
  {
  }

  lemma ResumingKeeps(c: Channel, o: Operation, start: nat, k: Script)
    requires Inv(c) && c.stored.Some? && Fits(c, o) && o.externalPostId.None?
    requires start == c.sessions[o.session.value].received
    ensures Inv(Resuming(c, o, start, k).0)
  {
    var finalizing := o.(status := Finalizing, uploadedBytes := Some(start));
    var c1 := Store(c, finalizing, k.finalizing);
    assert Inv(c1);
    if k.finalizing.Done? {
      UploadingKeeps(c1, finalizing, start, k.upload);
      var (c2, reply) := Uploading(c1, finalizing.session.value, start, k.upload);
      if reply.Fails? {
        RecheckingKeeps(c2, finalizing, k);
      } else if reply.Answers? && c2.sessions[o.session.value].video {
        AcceptingKeeps(c2, finalizing, k);
      }
    }
  }

  lemma ContinuingKeeps(c: Channel, o: Operation, k: Script)
    requires Inv(c) && c.stored == Some(o) && o.status !in {Uncertain, Failed}
    ensures Inv(Continuing(c, o, k).0)
  {
    if o.externalPostId.Some? {
      CheckingKeeps(c, o, k);
    } else if o.status != Finalizing {
      ResumingKeeps(c, o, o.uploadedBytes.GetOr(0), k);
    } else {
      QueryingKeeps(c, o, k.query);
      var c1 := Querying(c, o.session.value, k.query);
      var session := c1.sessions[o.session.value];
      var ready := o.(status := Ready, uploadedBytes := Some(session.received));
      match k.query.reply
      case Dies =>
      case Fails => StoreKeeps(c1, o.(status := Uncertain), k.queryUncertain);
      case Answers =>
        StoreKeeps(c1, ready, k.queryReady);
        if session.video {
          AcceptingKeeps(c1, o, k);
        } else if k.queryReady.Done? {
          ResumingKeeps(Store(c1, ready, Done), ready, session.received, k);
        } else if k.queryReady.Thrown? {
          StoreKeeps(Store(c1, ready, k.queryReady), ready.(status := Uncertain), k.queryUncertain);
        }
    }
  }

  lemma OpeningKeeps(c: Channel, k: Script)
    requires Inv(c) && c.stored.None?
    ensures Inv(Opening(c, k).0)
  {
    var called := c.(calls := c.calls + [CreateSession]);
    var open := called.(sessions := c.sessions + [Session(0, false)]);
    var o := Operation(Ready, k.attempt, session := Some(|c.sessions|), uploadedBytes := Some(0));
    assert Inv(called) && Inv(open) && Fits(open, o);
    StoreKeeps(open, o, k.openSave);
    if k.open.Opened? && k.openSave.Done? {
      ContinuingKeeps(Store(open, o, k.openSave), o, k);
    }
  }

  lemma RelabelKeeps(c: Channel, o: Operation, write: Write)
    requires Inv(c) && c.stored.Some? && o == c.stored.value.(attempt := o.attempt)
    ensures Fits(c, o) && Inv(Store(c, o, write))
  {
  }

  lemma RunKeepsInv(c: Channel, k: Script)
    requires Inv(c)
    ensures Inv(AfterRun(c, k))
  {
    match YouTubePublishNextStep(c.stored)
    case ActionRequired =>
    case GiveUp =>
    case CreateSession => OpeningKeeps(c, k);
    case _ =>
      var o := c.stored.value.(attempt := k.attempt);
      RelabelKeeps(c, o, k.relabel);
      if c.stored.value.attempt == k.attempt {
        ContinuingKeeps(c, o, k);
      } else if k.relabel.Done? {
        ContinuingKeeps(Store(c, o, k.relabel), o, k);
      }
  }

  lemma ReachableInv(size: nat, runs: seq<Script>)
    ensures Inv(Run(AfterRun, Fresh(size), runs))
  {
    forall c, k {:trigger AfterRun(c, k)} | Inv(c) ensures Inv(AfterRun(c, k)) {
      RunKeepsInv(c, k);
    }
    RunKeeps(AfterRun, Inv, Fresh(size), runs);
  }

  /** Bytes go only to the one stored session, and every transfer starts at the byte that the session waits for. */
  lemma UploadsResumeWhereTheyStopped(size: nat, runs: seq<Script>)
    ensures var c := Run(AfterRun, Fresh(size), runs);
      && (forall u <- c.sendings ::
          c.stored.Some? && c.stored.value.session == Some(u.session) && u.start == u.received)
      && (forall i :: 0 <= i < |c.sessions| && c.sessions[i].received > 0 ==>
          c.stored.Some? && c.stored.value.session == Some(i))
      && (c.stored.Some? && c.stored.value.status == Ready ==>
            var session := c.stored.value.session;
            session.Some? && session.value < |c.sessions|
                && c.stored.value.uploadedBytes == Some(c.sessions[session.value].received))
  {
    ReachableInv(size, runs);
  }

  /** At most one video comes of a target, and a record under processing or published names it. */
  lemma AtMostOneVideo(size: nat, runs: seq<Script>, i: nat, j: nat)
    requires var c := Run(AfterRun, Fresh(size), runs);
      i < |c.sessions| && j < |c.sessions| && c.sessions[i].video && c.sessions[j].video
    ensures var c := Run(AfterRun, Fresh(size), runs);
      && i == j && c.stored.Some? && c.sessions[i].received == c.size
      && (c.stored.value.status in {Processing, Published, Failed} ==> c.stored.value.externalPostId == Some(i))
  {
    ReachableInv(size, runs);
  }

  /** Once a video is known, its checks only grow, its deadline stays, and jobs are only added. */
  ghost predicate PollsAdvance(c: Channel, d: Channel) {
    && c.jobs <= d.jobs
    && (c.stored.Some? && c.stored.value.externalPostId.Some? ==>
          && d.stored.Some?
          && d.stored.value.externalPostId == c.stored.value.externalPostId
          && d.stored.value.deadline == c.stored.value.deadline
          && c.stored.value.processingChecks.GetOr(0) <= d.stored.value.processingChecks.GetOr(0))
  }

  lemma RunAdvancesPolls(c: Channel, k: Script)
    requires Inv(c)
    ensures PollsAdvance(c, AfterRun(c, k))
  {
    if c.stored.Some? && c.stored.value.externalPostId.Some? {
      var o := c.stored.value.(attempt := k.attempt);
      CheckingAdvances(c, o, k);
      CheckingAdvances(Store(c, o, Done), o, k);
    }
  }

  lemma CheckingAdvances(c: Channel, o: Operation, k: Script)
    requires Inv(c) && c.stored.Some? && o == c.stored.value.(attempt := o.attempt) && o.externalPostId.Some?
    ensures PollsAdvance(c, Checking(c, o, k).0)
  {
  }

  lemma {:induction false} AscendingIsShort(jobs: seq<nat>, last: nat)
    requires Ascending(jobs, last)
    ensures |jobs| <= last
    decreases |jobs|
  {
    if jobs != [] {
      var rest := jobs[..|jobs| - 1];
      assert Ascending(rest, jobs[|jobs| - 1] - 1);
      AscendingIsShort(rest, jobs[|jobs| - 1] - 1);
    }
  }

  lemma PollsAdvanceAlong(c: Channel, more: seq<Script>)
    requires Inv(c)
    ensures PollsAdvance(c, Run(AfterRun, c, more))
  {
    forall t, k {:trigger AfterRun(t, k)} | Inv(t) ensures Inv(AfterRun(t, k)) && PollsAdvance(t, AfterRun(t, k)) {
      RunKeepsInv(t, k);
      RunAdvancesPolls(t, k);
    }
    RunRelates(AfterRun, Inv, PollsAdvance, c, more);
  }

  lemma FewJobs(c: Channel)
    requires Inv(c)
    ensures |c.jobs| < MAX_CHECKS && forall i, j :: 0 <= i < j < |c.jobs| ==> c.jobs[i] != c.jobs[j]
  {
    if c.jobs != [] {
      AscendingIsShort(c.jobs, MAX_CHECKS - 1);
    }
  }

  /**
   Polling ends: the deadline never moves, no job id repeats, at most 239 jobs are queued, and check 240 makes the
   result uncertain.
   */
  lemma PollingEnds(size: nat, runs: seq<Script>, more: seq<Script>)
    ensures var c := Run(AfterRun, Fresh(size), runs);
      && PollsAdvance(c, Run(AfterRun, c, more))
      && (forall i, j :: 0 <= i < j < |c.jobs| ==> c.jobs[i] != c.jobs[j])
      && |c.jobs| < MAX_CHECKS
      && (c.stored.Some? && c.stored.value.processingChecks.GetOr(0) >= MAX_CHECKS
          && c.stored.value.externalPostId.Some? ==>
            c.stored.value.status == Uncertain)
  {
    ReachableInv(size, runs);
    PollsAdvanceAlong(Run(AfterRun, Fresh(size), runs), more);
    FewJobs(Run(AfterRun, Fresh(size), runs));
  }

  /** The step a run performs first: the first provider call it makes, or else the way it ends. */
  function Performed(c: Channel, k: Script): NextStep {
    var (d, outcome) := Publishing(c, k);
    if |c.calls| < |d.calls| then d.calls[|c.calls|]
    else if outcome.Proved? then FinishProof
    else if outcome == NeedsReview then ActionRequired
    else GiveUp
  }

  /** Whatever follows, calls are only added. */
  lemma CheckingCalls(c: Channel, o: Operation, k: Script)
    requires o.externalPostId.Some?
    ensures o.status != Published ==> c.calls + [CheckProcessing] <= Checking(c, o, k).0.calls
    ensures o.status == Published ==> Checking(c, o, k) == (c, Proved(o.externalPostId.value))
  {
  }

  lemma AcceptingCalls(c: Channel, o: Operation, k: Script)
    requires o.session.Some?
    ensures c.calls <= Accepting(c, o, k).0.calls
  {
  }

  lemma RecheckingCalls(c: Channel, o: Operation, k: Script)
    requires o.session.Some? && o.session.value < |c.sessions|
    ensures c.calls <= Rechecking(c, o, k).0.calls
  {
  }

  lemma ResumingCalls(c: Channel, o: Operation, start: nat, k: Script)
    requires o.session.Some? && o.session.value < |c.sessions|
    ensures var (d, outcome) := Resuming(c, o, start, k);
      if k.finalizing.Done? then c.calls + [Upload] <= d.calls else d.calls == c.calls
  {
    var finalizing := o.(status := Finalizing, uploadedBytes := Some(start));
    var (c2, reply) := Uploading(Store(c, finalizing, k.finalizing), o.session.value, start, k.upload);
    RecheckingCalls(c2, finalizing, k);
    AcceptingCalls(c2, finalizing, k);
  }

  lemma ContinuingCalls(c: Channel, o: Operation, k: Script)
    requires o.session.Some? && o.session.value < |c.sessions|
    ensures var (d, outcome) := Continuing(c, o, k);
      if o.externalPostId.Some? then
        if o.status == Published then d.calls == c.calls && outcome.Proved? else c.calls + [CheckProcessing] <= d.calls
      else if o.status == Finalizing then c.calls + [QuerySession] <= d.calls
      else if k.finalizing.Done? then c.calls + [Upload] <= d.calls
      else d.calls == c.calls
  {
    if o.externalPostId.Some? {
      CheckingCalls(c, o, k);
    } else if o.status != Finalizing {
      ResumingCalls(c, o, o.uploadedBytes.GetOr(0), k);
    } else {
      var c1 := Querying(c, o.session.value, k.query);
      var session := c1.sessions[o.session.value];
      var ready := o.(status := Ready, uploadedBytes := Some(session.received));
      AcceptingCalls(c1, o, k);
      ResumingCalls(Store(c1, ready, Done), ready, session.received, k);
    }
  }

  lemma OpeningCalls(c: Channel, k: Script)
    ensures c.calls + [CreateSession] <= Opening(c, k).0.calls
  {
    var o := Operation(Ready, k.attempt, session := Some(|c.sessions|), uploadedBytes := Some(0));
    var open := c.(calls := c.calls + [CreateSession], sessions := c.sessions + [Session(0, false)]);
    ContinuingCalls(Store(open, o, k.openSave), o, k);
  }

  /**
   After any runs, the first provider call of a run is the step that the decision function names; and unless a save
   before that call fails, the run performs that step: it makes the call, finishes, asks for action, or gives up.
   */
  lemma HandlerFollowsNextStep(size: nat, runs: seq<Script>, k: Script)
    ensures var c := Run(AfterRun, Fresh(size), runs); var d := AfterRun(c, k);
      && c.calls <= d.calls
      && (c.calls < d.calls ==> d.calls[|c.calls|] == YouTubePublishNextStep(c.stored))
      && (k.relabel.Done? && k.finalizing.Done? ==> Performed(c, k) == YouTubePublishNextStep(c.stored))
  {
    ReachableInv(size, runs);
    var c := Run(AfterRun, Fresh(size), runs);
    match YouTubePublishNextStep(c.stored)
    case ActionRequired =>
    case GiveUp =>
    case CreateSession => OpeningCalls(c, k);
    case _ =>
      var o := c.stored.value.(attempt := k.attempt);
      ContinuingCalls(c, o, k);
      ContinuingCalls(Store(c, o, Done), o, k);
  }

  /** A script in which nothing fails and the provider takes every byte. */
  predicate Clean(k: Script, size: nat) {
    && k.openSave == k.relabel == k.queryReady == k.finalizing == k.accepted == k.verdict == Done
    && k.open == Opened && k.query.reply == Answers && k.recheck == QueryCall(true, Answers)
    && k.upload == UploadCall(true, size, true, Answers) && k.check == Processed(true)
  }

  /** `result` is a published video of the operation's session. */
  ghost predicate PublishesSession(result: (Channel, Outcome), o: Operation) {
    var d := result.0;
    && o.session.Some? && d.stored.Some? && d.stored.value.session == o.session && o.session.value < |d.sessions|
    && result.1 == Proved(o.session.value) && d.stored.value.status == Published && d.sessions[o.session.value].video
  }

  lemma CleanChecking(c: Channel, o: Operation, k: Script)
    requires Clean(k, c.size) && Fits(c, o) && o.status in {Processing, Published}
        && (o.status == Published ==> c.stored == Some(o))
    ensures PublishesSession(Checking(c, o, k), o)
  {
  }

  lemma CleanResuming(c: Channel, o: Operation, start: nat, k: Script)
    requires Inv(c) && c.stored.Some? && Fits(c, o) && o.externalPostId.None? && Clean(k, c.size)
    requires start == c.sessions[o.session.value].received
    ensures PublishesSession(Resuming(c, o, start, k), o)
  {
  }

  lemma CleanAccepting(c: Channel, o: Operation, k: Script)
    requires Inv(c) && c.stored == Some(o) && o.status == Finalizing && c.sessions[o.session.value].video
        && Clean(k, c.size)
    ensures PublishesSession(Accepting(c, o, k), o)
  {
  }

  lemma CleanContinuing(c: Channel, o: Operation, k: Script)
    requires Inv(c) && c.stored == Some(o) && o.status !in {Uncertain, Failed} && Clean(k, c.size)
    ensures PublishesSession(Continuing(c, o, k), o)
  {
    if o.externalPostId.Some? {
      CleanChecking(c, o, k);
    } else if o.status != Finalizing {
      CleanResuming(c, o, o.uploadedBytes.GetOr(0), k);
    } else {
      QueryingKeeps(c, o, k.query);
      var c1 := Querying(c, o.session.value, k.query);
      var session := c1.sessions[o.session.value];
      if session.video {
        CleanAccepting(c1, o, k);
      } else {
        var ready := o.(status := Ready, uploadedBytes := Some(session.received));
        StoreKeeps(c1, ready, Done);
        CleanResuming(Store(c1, ready, Done), ready, session.received, k);
      }
    }
  }

  /** However earlier runs died, one clean run after them publishes the one video of the stored session. */
  lemma CleanRunPublishes(size: nat, runs: seq<Script>, k: Script)
    requires var c := Run(AfterRun, Fresh(size), runs);
      Clean(k, c.size) && (c.stored.None? || c.stored.value.status !in {Uncertain, Failed})
    ensures var (d, outcome) := Publishing(Run(AfterRun, Fresh(size), runs), k);
      && d.stored.Some? && d.stored.value.session.Some? && outcome == Proved(d.stored.value.session.value)
      && d.stored.value.status == Published && d.stored.value.session.value < |d.sessions|
      && d.sessions[d.stored.value.session.value].video
  {
    ReachableInv(size, runs);
    var c := Run(AfterRun, Fresh(size), runs);
    if c.stored.None? {
      var open := c.(calls := c.calls + [CreateSession], sessions := c.sessions + [Session(0, false)]);
      var o := Operation(Ready, k.attempt, session := Some(|c.sessions|), uploadedBytes := Some(0));
      assert Inv(Store(open, o, Done));
      CleanContinuing(Store(open, o, Done), o, k);
    } else {
      var o := c.stored.value.(attempt := k.attempt);
      assert Inv(Store(c, o, Done));
      CleanContinuing(Store(c, o, Done), o, k);
      assert c.stored.value.attempt == k.attempt ==> Store(c, o, Done) == c;
    }
  }
}
