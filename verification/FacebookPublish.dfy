/** The Facebook publication: one run at a time per target, each of which may die at any await. */
module FacebookPublish {
  import opened Runs
  import opened ProviderOperations
  import opened SerialRuns

  datatype NextStep = CreateIntent | CreatePost | VerifyPost | FinishProof | ActionRequired | GiveUp

  predicate EndsWith(s: string, suffix: string) {
    |suffix| <= |s| && s[|s| - |suffix|..] == suffix
  }

  /** The recovery's check of a stored permalink. */
  predicate IsVerifiedPermalink(link: Option<Url>) {
    && link.Some? && link.value.Url?
    && link.value.protocol == "https:"
    && (link.value.hostname == "facebook.com" || EndsWith(link.value.hostname, ".facebook.com"))
  }

  function FacebookPublishNextStep(operation: Option<Operation>): NextStep {
    match operation
    case None => CreateIntent
    case Some(o) =>
      if o.status == Failed then GiveUp
      else if o.status in {Uncertain, Processing} then ActionRequired
      else if o.status == Published then
        if o.externalPostId.Some? && IsVerifiedPermalink(o.liveUrl) then FinishProof else ActionRequired
      else if o.status == Finalizing then
        if o.externalPostId.Some? then VerifyPost else ActionRequired
      else CreatePost
  }

  // ----- the provider

  datatype CreateCall = Answered(post: nat) | Unanswered(sent: bool, landed: Option<nat>, dies: bool)

  /** The Graph answer to a read of one post. */
  datatype ReadCall = ReadDies | ReadFails | ReadAnswer(ours: bool, isPublishedFalse: bool, permalink: Option<Url>,
      id: Option<nat>)

  /** The connector's check of the permalink it is given. */
  predicate ValidFacebookPermalink(link: Option<Url>) {
    match link
    case None => false
    case Some(Unparsable) => false
    case Some(Url(protocol, hostname)) =>
      protocol == "https:" && (hostname == "facebook.com" || EndsWith(hostname, ".facebook.com"))
  }

  datatype Verified = Verified(post: nat, link: Option<Url>)

  function ReadPublishedPost(post: nat, call: ReadCall): Option<Verified>
    requires !call.ReadDies?
  {
    if call.ReadFails? || !call.ours || call.isPublishedFalse || !ValidFacebookPermalink(call.permalink) then None
    else Some(Verified(if call.id.Some? then call.id.value else post, call.permalink))
  }

  // ----- one run

  /** What each await of a run meets; a run reaches each of them at most once. */
  datatype Script = Script(
    attempt: nat, intent: Write, relabel: Write, review: Write, finalizing: Write, create: CreateCall,
    keepId: Write, createUncertain: Write, read: ReadCall, readUncertain: Write, publish: Write)

  /** The stored record, and the provider's side: POSTs sent and posts that came of them. */
  datatype Target = Target(stored: Option<Operation>, sent: nat, posts: set<nat>)

  const FRESH := Target(None, 0, {})

  function Store(t: Target, operation: Operation, write: Write): Target {
    t.(stored := Put(t.stored, operation, write))
  }

  function Publishing(t: Target, k: Script): (Target, Outcome) {
    match FacebookPublishNextStep(t.stored)
    case CreateIntent =>
      var operation := Operation(Ready, k.attempt);
      var t1 := Store(t, operation, k.intent);
      if k.intent.Done? then Creating(t1, operation, k) else (t1, Ending(k.intent))
    case step =>
      var operation := t.stored.value.(attempt := k.attempt);
      if t.stored.value.attempt == k.attempt then Continuing(t, operation, step, k)
      else
        var t1 := Store(t, operation, k.relabel);
        if k.relabel.Done? then Continuing(t1, operation, step, k) else (t1, Ending(k.relabel))
  }

  function Continuing(t: Target, operation: Operation, step: NextStep, k: Script): (Target, Outcome) {
    match step
    case ActionRequired => if operation.status == Uncertain then (t, NeedsReview) else Reviewing(t, operation, k.review)
    case FinishProof => if operation.externalPostId.Some? then
        (t, Proved(operation.externalPostId.value)) else (t, Raised)
    case CreatePost => Creating(t, operation, k)
    case VerifyPost => Verifying(t, operation, k)
    case _ => (t, Raised)
  }

  /** Record that the result is unknown. */
  function Reviewing(t: Target, operation: Operation, write: Write): (Target, Outcome) {
    (Store(t, operation.(status := Uncertain), write), if write.Done? then NeedsReview else Ending(write))
  }

  /** The provider after a call that may have reached it. */
  function Sending(t: Target, call: CreateCall): Target {
    match call
    case Answered(post) => t.(sent := t.sent + 1, posts := t.posts + {post})
    case Unanswered(true, Some(post), _) => t.(sent := t.sent + 1, posts := t.posts + {post})
    case Unanswered(true, None, _) => t.(sent := t.sent + 1)
    case Unanswered(false, _, _) => t
  }

  function Creating(t: Target, operation: Operation, k: Script): (Target, Outcome) {
    var finalizing := operation.(status := Finalizing);
    var t1 := Store(t, finalizing, k.finalizing);
    if !k.finalizing.Done? then (t1, Ending(k.finalizing))
    else match k.create
      case Unanswered(sent, landed, dies) =>
        var t2 := Sending(t1, k.create);
        if dies then (t2, Gone) else Reviewing(t2, finalizing, k.createUncertain)
      case Answered(post) =>
        var named := finalizing.(externalPostId := Some(post));
        var t2 := Store(Sending(t1, k.create), named, k.keepId);
        match k.keepId
        case Done => Verifying(t2, named, k)
        case Thrown(_) => Reviewing(t2, named, k.createUncertain)
        case Crashed(_) => (t2, Gone)
  }

  function Verifying(t: Target, operation: Operation, k: Script): (Target, Outcome) {
    if operation.externalPostId.None? then (t, Raised)
    else if k.read.ReadDies? then (t, Gone)
    else match ReadPublishedPost(operation.externalPostId.value, k.read)
      case None => Reviewing(t, operation, k.readUncertain)
      case Some(verified) =>
        var published := operation.(status := Published, externalPostId := Some(verified.post),
            liveUrl := verified.link);
        (Store(t, published, k.publish), if k.publish.Done? then Proved(verified.post) else Ending(k.publish))
  }

  /** The handler itself, which reassigns its operation and saves it step by step. */
  class FacebookTarget {
    var stored: Option<Operation>
    var sent: nat
    var posts: set<nat>

    constructor ()
      ensures State() == FRESH
    {
      stored, sent, posts := None, 0, {};
    }

    ghost function State(): Target
      reads this
    {
      Target(stored, sent, posts)
    }

    method Save(operation: Operation, write: Write)
      modifies this`stored
      ensures State() == Store(old(State()), operation, write)
    {
      if write.Done? || write.applied {
        stored := Some(operation);
      }
    }

    method MarkForReview(current: Operation, write: Write) returns (outcome: Outcome)
      modifies this`stored
      ensures (State(), outcome) == Reviewing(old(State()), current, write)
    {
      Save(current.(status := Uncertain), write);
      return if write.Done? then NeedsReview else Ending(write);
    }

    /** The POST, as the provider sees it. */
    method CallCreate(call: CreateCall) returns (post: Option<nat>)
      modifies this`sent, this`posts
      ensures post == if call.Answered? then Some(call.post) else None
      ensures State() == Sending(old(State()), call)
    {
      match call {
        case Answered(p) =>
          sent, posts, post := sent + 1, posts + {p}, Some(p);
        case Unanswered(reached, landed, _) =>
          post := None;
          if reached {
            sent := sent + 1;
            if landed.Some? { posts := posts + {landed.value}; }
          }
      }
    }

    method Publish(k: Script) returns (outcome: Outcome)
      modifies this
      ensures (State(), outcome) == Publishing(old(State()), k)
    {
      var nextStep := FacebookPublishNextStep(stored);
      var operation: Operation;
      if nextStep == CreateIntent {
        operation := Operation(Ready, k.attempt);
        Save(operation, k.intent);
        if !k.intent.Done? { return Ending(k.intent); }
        nextStep := CreatePost;
      } else {
        operation := stored.value;
        if operation.attempt != k.attempt {
          operation := operation.(attempt := k.attempt);
          Save(operation, k.relabel);
          if !k.relabel.Done? { return Ending(k.relabel); }
        }
      }
      if nextStep == ActionRequired {
        if operation.status == Uncertain { return NeedsReview; }
        outcome := MarkForReview(operation, k.review);
        return;
      }
      if nextStep == GiveUp { return Raised; }
      if nextStep == FinishProof {
        if operation.externalPostId.None? { return Raised; }
        return Proved(operation.externalPostId.value);
      }
      if nextStep == CreatePost {
        operation := operation.(status := Finalizing);
        Save(operation, k.finalizing);
        if !k.finalizing.Done? { return Ending(k.finalizing); }
        var created := CallCreate(k.create);
        if k.create.Unanswered? && k.create.dies { return Gone; }
        if created.Some? {
          operation := operation.(externalPostId := created);
          Save(operation, k.keepId);
          if k.keepId.Crashed? { return Gone; }
        }
        if created.None? || k.keepId.Thrown? {
          outcome := MarkForReview(operation, k.createUncertain);
          return;
        }
      }
      if operation.externalPostId.None? { return Raised; }
      if k.read.ReadDies? { return Gone; }
      var verified := ReadPublishedPost(operation.externalPostId.value, k.read);
      if verified.None? {
        outcome := MarkForReview(operation, k.readUncertain);
        return;
      }
      operation := operation.(status := Published, externalPostId := Some(verified.value.post),
          liveUrl := verified.value.link);
      Save(operation, k.publish);
      return if k.publish.Done? then Proved(verified.value.post) else Ending(k.publish);
    }
  }

  // ----- every sequence of runs

  function AfterRun(t: Target, k: Script): Target {
    Publishing(t, k).0
  }

  ghost predicate Inv(t: Target) {
    && t.sent <= 1 && (t.sent == 0 ==> t.posts == {})
    && (forall a, b :: a in t.posts && b in t.posts ==> a == b)
    && match t.stored
       case None => t.sent == 0
       case Some(o) =>
         && o.status in {Ready, Finalizing, Uncertain, Published}
         && (o.status == Ready ==> t.sent == 0 && o.externalPostId.None?)
         && (o.status == Finalizing && o.externalPostId.Some? ==> o.externalPostId.value in t.posts)
         && (o.status == Published ==> FacebookPublishNextStep(t.stored) == FinishProof)
  }

  lemma RunKeepsInv(t: Target, k: Script)
    requires Inv(t)
    ensures Inv(AfterRun(t, k))
  {
  }

  lemma ReachableInv(runs: seq<Script>)
    ensures Inv(Run(AfterRun, FRESH, runs))
  {
    forall t, k {:trigger AfterRun(t, k)} | Inv(t) ensures Inv(AfterRun(t, k)) {
      RunKeepsInv(t, k);
    }
    RunKeeps(AfterRun, Inv, FRESH, runs);
  }

  /** However the runs die, the POST goes out at most once and makes at most one post. */
  lemma PostIsSentAtMostOnce(runs: seq<Script>)
    ensures Run(AfterRun, FRESH, runs).sent <= 1 && |Run(AfterRun, FRESH, runs).posts| <= 1
  {
    ReachableInv(runs);
    var posts := Run(AfterRun, FRESH, runs).posts;
    if p :| p in posts {
      assert posts == {p};
    }
  }

  /**
   A record that the worker stored as published recovers to its proof, in every later run and without another POST.
   */
  lemma PublishedRecoversToItsProof(runs: seq<Script>, k: Script)
    requires var t := Run(AfterRun, FRESH, runs); t.stored.Some? && t.stored.value.status == Published
    ensures var t := Run(AfterRun, FRESH, runs);
      && FacebookPublishNextStep(t.stored) == FinishProof
      && (k.attempt == t.stored.value.attempt || k.relabel.Done? ==>
          Publishing(t, k).1 == Proved(t.stored.value.externalPostId.value))
      && AfterRun(t, k).(stored := None) == t.(stored := None)
      && AfterRun(t, k).stored.Some? && AfterRun(t, k).stored.value.(attempt := 0) == t.stored.value.(attempt := 0)
  {
    ReachableInv(runs);
  }

  /** From any record whatever, a run reports a proof only for the stored, verified result. */
  lemma ProofIsStored(t: Target, k: Script)
    requires Publishing(t, k).1.Proved?
    ensures var (u, outcome) := Publishing(t, k);
      && u.stored.Some? && u.stored.value.status == Published
      && u.stored.value.externalPostId == Some(outcome.post) && ValidFacebookPermalink(u.stored.value.liveUrl)
  {
  }

  ghost predicate Unknown(t: Target) {
    && t.stored.Some? && t.stored.value.externalPostId.None?
    && t.stored.value.status in {Finalizing, Uncertain}
  }

  /**
   An intent without a post id is never sent again: every later run leaves the provider alone, and the first complete
   one records that the result is unknown.
   */
  lemma UnknownResultIsNeverResent(t: Target, runs: seq<Script>, k: Script)
    requires Unknown(t)
    ensures var u := Run(AfterRun, t, runs);
      && Unknown(u) && u.sent == t.sent && u.posts == t.posts
      && (Publishing(u, k).1 in {NeedsReview, Raised, Gone})
      && (Publishing(u, k).1 == NeedsReview ==> AfterRun(u, k).stored.value.status == Uncertain)
  {
    RunKeeps(AfterRun, u => Unknown(u) && u.sent == t.sent && u.posts == t.posts, t, runs);
  }

  /** The connector admits exactly the permalinks that the recovery accepts later. */
  lemma PermalinkChecksAgree(link: Option<Url>)
    ensures ValidFacebookPermalink(link) <==> IsVerifiedPermalink(link)
  {
  }

  /** Without failures one run publishes. */
  lemma PublicationSucceeds(k: Script, post: nat, link: Url)
    requires k.intent == k.finalizing == k.keepId == k.publish == Done
    requires k.create == Answered(post) && IsVerifiedPermalink(Some(link))
    requires k.read == ReadAnswer(true, false, Some(link), None)
    ensures var (t, outcome) := Publishing(FRESH, k);
      outcome == Proved(post) && t.posts == {post} && t.stored.value.status == Published
  {
  }
}
