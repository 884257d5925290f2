/** The pause linearizes against admission, and a decided position is settled from receipts. */
module CampaignAdmission {
  import opened Wrappers
  import opened CampaignEvidence
  import opened CampaignStore
  import opened CampaignRuns
  import opened CampaignMutations
  import opened CampaignSafety

  /** Admission is closed: no helper runs, or the running one holds no authorization. */
  predicate Closed(s: System) {
    s.up ==> s.store.mem.authorization.None?
  }

  /** An activation under a decision identifier this campaign has never recorded. */
  predicate FreshActivation(s: System, e: Event) {
    e.AuthorizeEvent? && e.request.decision !in s.store.files.controls
  }

  /** What a step may do to the published decisions and to admission. */
  ghost predicate AdmissionDiscipline(s: System, e: Event, t: System) {
    && (t.store.files.decisions != s.store.files.decisions ==> Admits(s, e, t))
    && (Closed(s) && !FreshActivation(s, e) ==> Closed(t))
  }

  /** The one way a decision appears: under the lock, naming the authorization in force. */
  predicate Admits(s: System, e: Event, t: System) {
    && e.AdmitEvent? && s.up && s.worker.Admitting? && s.store.mem.authorization.Some?
    && s.worker.position !in s.store.files.decisions
    && t.store.files.decisions == s.store.files.decisions[s.worker.position :=
         Admission(s.store.mem.authorization.value, s.worker.source, s.worker.selection)]
  }

  lemma GateLeaves(c: Campaign, s: System, result: (Store, Reply), andThen: Option<Reason>, fates: Fates)
    ensures var t := GateLeft(c, s, result, andThen, fates);
            t.store.files == result.0.files && t.store.mem.authorization in {None, result.0.mem.authorization}
  {
    FailClosedShape(c, result.0, Storage, fates.last);
    if andThen.Some? { FailClosedShape(c, result.0, andThen.value, fates.last); }
  }

  /** The stages before the admission, then those after it. */
  predicate EarlyStage(e: Event) {
    e.BeginEvent? || e.AnalyseEvent? || e.ScreenEvent? || e.ReadEvent?
  }

  lemma EarlyStageDiscipline(c: Campaign, s: System, e: Event)
    requires s.up && EarlyStage(e)
    ensures var t := Act(c, s, e);
            t.store.files.decisions == s.store.files.decisions
            && t.store.mem.authorization in {None, s.store.mem.authorization}
  {
    hide FailClosed, Settle, Release, RecordAnalysis, GateLeft, Extends, RunProvenance, RecoverDecision, RowOutcome,
      Admit, Review, LinkRun, Apply, Finish;
    var fates := e.fates;
    forall u: System, result: (Store, Reply), andThen
      ensures var t := GateLeft(c, u, result, andThen, fates);
              t.store.files == result.0.files && t.store.mem.authorization in {None, result.0.mem.authorization}
    {
      GateLeaves(c, u, result, andThen, fates);
    }
    forall store: Store, reason
      ensures FailClosed(c, store, reason, fates.last).files == store.files
      ensures FailClosed(c, store, reason, fates.last).mem.authorization == None
    {
      FailClosedShape(c, store, reason, fates.last);
    }
    forall store: Store, p, value
      ensures var t := Settle(c, store, p, value, fates).0;
              t.files.decisions == store.files.decisions && t.mem.authorization in {None, store.mem.authorization}
    {
      SettleIsQuiet(c, store, p, value, fates);
    }
    forall store: Store, p
      ensures var t := Release(c, store, p, fates).0;
              t.files.decisions == store.files.decisions && t.mem.authorization in {None, store.mem.authorization}
    {
      ReleaseIsQuiet(c, store, p, fates);
    }
    if e.AnalyseEvent? && s.worker.Analysing? {
      AnalysisIsQuiet(c, s.store, s.worker.position, e.load, fates);
    }
  }

  lemma LateStageDiscipline(c: Campaign, s: System, e: Event)
    requires s.up && (e.ReviewEvent? || e.LinkEvent? || e.ApplyEvent? || e.FinishEvent?)
    ensures var t := Act(c, s, e);
            t.store.files.decisions == s.store.files.decisions
            && t.store.mem.authorization in {None, s.store.mem.authorization}
  {
    hide FailClosed, Settle, Release, RecordAnalysis, GateLeft, Extends, RunProvenance, RecoverDecision, RowOutcome,
      Begin, Analyse, ScreenRow, ReadPhoto, Admit;
    var fates := e.fates;
    forall u: System, result: (Store, Reply), andThen
      ensures var t := GateLeft(c, u, result, andThen, fates);
              t.store.files == result.0.files && t.store.mem.authorization in {None, result.0.mem.authorization}
    {
      GateLeaves(c, u, result, andThen, fates);
    }
    forall store: Store, reason
      ensures FailClosed(c, store, reason, fates.last).files == store.files
      ensures FailClosed(c, store, reason, fates.last).mem.authorization == None
    {
      FailClosedShape(c, store, reason, fates.last);
    }
    forall store: Store, p, value
      ensures var t := Settle(c, store, p, value, fates).0;
              t.files.decisions == store.files.decisions && t.mem.authorization in {None, store.mem.authorization}
    {
      SettleIsQuiet(c, store, p, value, fates);
    }
    forall store: Store, p
      ensures var t := Release(c, store, p, fates).0;
              t.files.decisions == store.files.decisions && t.mem.authorization in {None, store.mem.authorization}
    {
      ReleaseIsQuiet(c, store, p, fates);
    }
  }

  lemma StageDiscipline(c: Campaign, s: System, e: Event)
    requires s.up
    requires StageEvent(e) && !e.AdmitEvent?
    ensures var t := Act(c, s, e);
            t.store.files.decisions == s.store.files.decisions
            && t.store.mem.authorization in {None, s.store.mem.authorization}
  {
    hide Act;
    if EarlyStage(e) {
      EarlyStageDiscipline(c, s, e);
    } else {
      LateStageDiscipline(c, s, e);
    }
  }

  lemma AdmitDiscipline(c: Campaign, s: System, fates: Fates)
    requires s.up
    ensures AdmissionDiscipline(s, AdmitEvent(fates), Admit(c, s, fates))
  {
    if s.worker.Admitting? {
      GateReleaseKeeps(c, s, s.worker.position, fates);
      ReleaseIsQuiet(c, s.store, s.worker.position, fates);
      GateLeaves(c, s, Release(c, s.store, s.worker.position, fates), None, fates);
      FailClosedShape(c, s.store, Storage, fates.last);
      if s.store.mem.authorization.Some? {
        var admission := Admission(s.store.mem.authorization.value, s.worker.source, s.worker.selection);
        FailClosedShape(c, Decided(s, s.worker.position, admission, Idle).store, Storage, fates.last);
      }
    }
  }

  lemma ControlDiscipline(c: Campaign, s: System, e: Event)
    requires !StageEvent(e)
    ensures var t := Act(c, s, e);
            && t.store.files.decisions == s.store.files.decisions && t.up == s.up
            && (!FreshActivation(s, e) ==> t.store.mem.authorization in {None, s.store.mem.authorization})
  {
    hide FailClosed, Settle, Release, RecordAnalysis, MarkExamined, Authorize, Pause, CheckpointState, DriveEnd;
    hide Extends;
    match e
    case AuthorizeEvent(request, fates) => AuthorizeIsQuiet(c, s.store, request, fates);
    case PauseEvent(request, fates) => PauseIsQuiet(c, s.store, request, fates);
    case FailEvent(reason, fates) => FailClosedShape(c, s.store, reason, fates.closing);
    case ExamineEvent(position, fates) => ExamineIsQuiet(c, s.store, position, fates);
    case SourceEvent(position, load, fates) => AnalysisIsQuiet(c, s.store, position, load, fates);
    case AbandonEvent(position, fates) => SettleIsQuiet(c, s.store, position, Settlement(Attention, RunFailed), fates);
    case ReleaseEvent(position, fates) => ReleaseIsQuiet(c, s.store, position, fates);
    case ManualDrainEvent(fates) =>
      CheckpointShape(c, s.store, s.store.mem.checkpoint.(phase := Preparing, reason := ManualDrain), fates.checkpoint);
    case ActivationStoppedEvent(reason, fates) =>
      CheckpointShape(c, s.store.(mem := s.store.mem.(authorization := None)),
        s.store.mem.checkpoint.(phase := Paused, reason := reason), fates.checkpoint);
    case DriveEndEvent(failure, revoked, fates) => DriveEndCloses(c, s, failure, revoked, fates);
    case CatchUpEvent(revision, fates) =>
      if revision >= s.store.mem.checkpoint.revision {
        CheckpointShape(c, s.store, s.store.mem.checkpoint.(revision := revision), fates.checkpoint);
      }
    case _ =>
  }

  lemma DriveEndCloses(c: Campaign, s: System, failure: Option<Reason>, revoked: bool, fates: Fates)
    ensures var t := DriveEnd(c, s, failure, revoked, fates);
            t.store.files == s.store.files && t.up == s.up
            && t.store.mem.authorization in {None, s.store.mem.authorization}
  {
    DriveEndKeeps(c, s, failure, revoked, fates);
    var closed := WithStore(s, s.store.(mem := s.store.mem.(authorization := None)));
    forall changed: Checkpoint | changed.revision == s.store.mem.checkpoint.revision
      ensures Announced(c, closed, changed, fates).store.mem.authorization == None
    {
      CheckpointShape(c, closed.store, changed, fates.checkpoint);
      FailClosedShape(c, CheckpointState(c, closed.store, changed, fates.checkpoint).0, Storage, fates.closing);
    }
  }

  lemma OpenDiscipline(c: Campaign, s: System, entries: set<nat>, blind: set<nat>, fate: Fate)
    ensures Open(c, s, entries, blind, fate).store.files.decisions == s.store.files.decisions
    ensures Closed(s) ==> Closed(Open(c, s, entries, blind, fate))
  {
    hide Loadable, RebuiltCheckpoint, ReadSettlement;
  }

  lemma StepDiscipline(c: Campaign, s: System, e: Event)
    ensures AdmissionDiscipline(s, e, Step(c, s, e))
  {
    hide Act, Admit, Open, StatusReadable;
    if e.OpenEvent? {
      OpenDiscipline(c, s, e.entries, e.blind, e.fate);
    } else if e.ManualRollbackEvent? || e.CrashEvent? || e.StatusEvent? || !(s.up || (s.shown && OfShown(e))) {
    } else if e.AdmitEvent? {
      AdmitDiscipline(c, s, e.fates);
      assert Step(c, s, e) == Act(c, s, e);
      ActAdmits(c, s, e);
    } else if StageEvent(e) && !e.AdmitEvent? {
      StageDiscipline(c, s, e);
    } else {
      ControlDiscipline(c, s, e);
    }
  }

  lemma ActAdmits(c: Campaign, s: System, e: Event)
    requires e.AdmitEvent?
    ensures Act(c, s, e) == Admit(c, s, e.fates)
  {
  }

  /** A pause, a revocation or a failure closes admission in the very step that performs it. */
  lemma ClosingCloses(c: Campaign, s: System, e: Event)
    requires e.RevokeEvent? || (e.FailEvent? && e.reason in {Permission, Storage})
          || (e.PauseEvent? && e.request.command == PauseCampaign)
    ensures Closed(Step(c, s, e))
  {
    if e.PauseEvent? { PauseIsQuiet(c, s.store, e.request, e.fates); }
    if e.FailEvent? { FailClosedShape(c, s.store, e.reason, e.fates.closing); }
  }

  /** Once admission is closed, no decision appears over any run, with crashes, reopenings and
      exact replays of old activations in it, until an activation whose decision identifier was
      never recorded before. */
  lemma {:induction false} NoAdmissionWhileClosed(c: Campaign, s: System, events: seq<Event>)
    requires Inv(c, s) && Closed(s)
    requires forall e :: e in events ==> !FreshActivation(s, e)
    ensures After(c, s, events).store.files.decisions == s.store.files.decisions
    ensures Closed(After(c, s, events))
    decreases |events|
  {
    hide Inv, Step;
    if events != [] {
      var t := Step(c, s, events[0]);
      assert events[0] in events;
      StepDiscipline(c, s, events[0]);
      StepKeeps(c, s, events[0]);
      forall e | e in events[1..] ensures !FreshActivation(t, e) { assert e in events; }
      NoAdmissionWhileClosed(c, t, events[1..]);
    }
  }

  /** The two together: from the moment of the pause. */
  lemma PauseLinearizes(c: Campaign, before: seq<Event>, closing: Event, later: seq<Event>)
    requires closing.RevokeEvent? || (closing.FailEvent? && closing.reason in {Permission, Storage})
          || (closing.PauseEvent? && closing.request.command == PauseCampaign)
    requires var paused := Step(c, After(c, Created(c), before), closing);
             forall e :: e in later ==> !FreshActivation(paused, e)
    ensures var paused := Step(c, After(c, Created(c), before), closing);
            After(c, paused, later).store.files.decisions == After(c, Created(c), before).store.files.decisions
  {
    var s := After(c, Created(c), before);
    CreatedIsSafe(c);
    RunKeeps(c, Created(c), before);
    StepKeeps(c, s, closing);
    StepDiscipline(c, s, closing);
    ClosingCloses(c, s, closing);
    NoAdmissionWhileClosed(c, Step(c, s, closing), later);
  }

  /** Every decision was published while the authorization it names was in force and on disk. */
  lemma AdmissionNamesLiveAuthorization(c: Campaign, s: System, e: Event, position: nat)
    requires Inv(c, s)
    ensures var before, after := s.store.files, Step(c, s, e).store.files;
            position !in before.decisions && position in after.decisions ==>
              && s.up && s.store.mem.authorization == Some(after.decisions[position].authorization)
              && AuthorizationSound(before, after.decisions[position].authorization)
              && position in before.analyses && after.decisions[position].source == before.analyses[position]
  {
    StepDiscipline(c, s, e);
    hide Step, Grows;
    var t := Step(c, s, e);
    if position !in s.store.files.decisions && position in t.store.files.decisions {
      assert Admits(s, e, t) && WorkerBound(s.store.files, s.worker);
    }
  }

  // --------------------------------------------------- settling decided positions

  /** The steps that settle a decided position without asking its receipts: the dispatcher gives
      it up, a runner raised, or the apply exited with an error. */
  predicate GivenUp(s: System, e: Event, position: nat) {
    || (e.AbandonEvent? && e.position == position)
    || (e.ReviewEvent? && e.review.ReviewRaised? && s.worker.Admitted? && s.worker.position == position)
    || (e.ApplyEvent? && e.result.ApplyRaised? && s.worker.Linked? && s.worker.position == position)
    || (e.FinishEvent? && s.worker.Applied? && !s.worker.exitClean && s.worker.position == position)
  }

  /** The steps that judge a decided position while its run cannot be read. */
  predicate Blinded(e: Event, position: nat) {
    || (e.OpenEvent? && position in e.blind)
    || (e.BeginEvent? && e.position == position && e.fates.receipts != ReceiptsRead)
  }

  ghost predicate ReceiptBacked(s: System, e: Event, t: System) {
    forall p :: p in s.store.files.decisions && p !in s.store.files.outcomes && p in t.store.files.outcomes ==>
      if GivenUp(s, e, p) then t.store.files.outcomes[p].outcome == Attention
      else if Blinded(e, p) then t.store.files.outcomes[p] == Settlement(Attention, Uncertain)
      else t.store.files.outcomes[p] == RecoveredSettlement(s.store.files, p)
  }

  lemma FinishSettles(c: Campaign, s: System, fates: Fates)
    requires Inv(c, s) && s.worker.Applied?
    ensures ReceiptBacked(s, FinishEvent(fates), Finish(c, s, fates))
  {
    assert LinkBound(s.store.files, s.worker.position, s.worker.admission, s.worker.run);
    hide FailClosed, Settle, GateLeft, Inv;
    FailClosedShape(c, s.store, Storage, fates.last);
    forall value, andThen
      ensures var t := GateLeft(c, s, Settle(c, s.store, s.worker.position, value, fates), andThen, fates);
              t.store.files.outcomes == s.store.files.outcomes
              || t.store.files.outcomes == s.store.files.outcomes[s.worker.position := value]
    {
      GateSettleKeeps(c, s, s.worker.position, value, andThen, fates);
    }
  }

  lemma EarlyStageSettles(c: Campaign, s: System, e: Event)
    requires Inv(c, s) && (e.BeginEvent? || e.AnalyseEvent? || e.ScreenEvent? || e.ReadEvent?)
    ensures ReceiptBacked(s, e, Act(c, s, e))
  {
    hide FailClosed, Settle, Release, RecordAnalysis, GateLeft, Grows, Bound, AppliedOnce, RecoverDecision;
    var fates := e.fates;
    forall u: System, p, value, andThen
      ensures var t := GateLeft(c, u, Settle(c, u.store, p, value, fates), andThen, fates);
              t.store.files.outcomes == u.store.files.outcomes
              || (p !in u.store.files.outcomes && t.store.files.outcomes == u.store.files.outcomes[p := value])
    {
      GateSettleKeeps(c, u, p, value, andThen, fates);
    }
    forall u: System, p
      ensures GateLeft(c, u, Release(c, u.store, p, fates), None, fates).store.files.outcomes == u.store.files.outcomes
    {
      GateReleaseKeeps(c, u, p, fates);
    }
    forall store: Store, reason
      ensures FailClosed(c, store, reason, fates.last).files == store.files
    {
      FailClosedShape(c, store, reason, fates.last);
    }
    if e.AnalyseEvent? && s.worker.Analysing? {
      AnalysisIsQuiet(c, s.store, s.worker.position, e.load, fates);
    }
  }

  lemma LateStageSettles(c: Campaign, s: System, e: Event)
    requires e.AdmitEvent? || e.ReviewEvent? || e.LinkEvent? || e.ApplyEvent?
    ensures ReceiptBacked(s, e, Act(c, s, e))
  {
    hide FailClosed, Settle, Release, RecordAnalysis, GateLeft, Grows, Bound, AppliedOnce, RecoverDecision, RunProvenance;
    var fates := e.fates;
    forall u: System, p, value, andThen
      ensures var t := GateLeft(c, u, Settle(c, u.store, p, value, fates), andThen, fates);
              t.store.files.outcomes == u.store.files.outcomes
              || (p !in u.store.files.outcomes && t.store.files.outcomes == u.store.files.outcomes[p := value])
    {
      GateSettleKeeps(c, u, p, value, andThen, fates);
    }
    forall u: System, p
      ensures GateLeft(c, u, Release(c, u.store, p, fates), None, fates).store.files.outcomes == u.store.files.outcomes
    {
      GateReleaseKeeps(c, u, p, fates);
    }
    forall store: Store, reason
      ensures FailClosed(c, store, reason, fates.last).files == store.files
    {
      FailClosedShape(c, store, reason, fates.last);
    }
  }

  lemma StageSettles(c: Campaign, s: System, e: Event)
    requires Inv(c, s) && StageEvent(e)
    ensures ReceiptBacked(s, e, Act(c, s, e))
  {
    hide Act, Inv;
    if e.FinishEvent? {
      ActFinishes(c, s, e);
      if s.worker.Applied? { FinishSettles(c, s, e.fates); }
    } else if e.AdmitEvent? || e.ReviewEvent? || e.LinkEvent? || e.ApplyEvent? {
      LateStageSettles(c, s, e);
    } else {
      EarlyStageSettles(c, s, e);
    }
  }

  lemma ActFinishes(c: Campaign, s: System, e: Event)
    requires e.FinishEvent?
    ensures Act(c, s, e) == Finish(c, s, e.fates)
    ensures !s.worker.Applied? ==> Act(c, s, e) == s
  {
  }

  lemma ControlSettles(c: Campaign, s: System, e: Event)
    requires !StageEvent(e)
    ensures ReceiptBacked(s, e, Act(c, s, e))
  {
    hide Grows, Bound, Extends, FailClosed, Settle, Release, RecordAnalysis, MarkExamined, Authorize, Pause;
    hide RecoverDecision, DriveEnd;
    match e
    case AuthorizeEvent(request, fates) => AuthorizeIsQuiet(c, s.store, request, fates);
    case PauseEvent(request, fates) => PauseIsQuiet(c, s.store, request, fates);
    case FailEvent(reason, fates) => FailClosedShape(c, s.store, reason, fates.closing);
    case ExamineEvent(position, fates) => ExamineIsQuiet(c, s.store, position, fates);
    case SourceEvent(position, load, fates) => AnalysisIsQuiet(c, s.store, position, load, fates);
    case AbandonEvent(position, fates) => SettleIsQuiet(c, s.store, position, Settlement(Attention, RunFailed), fates);
    case ReleaseEvent(position, fates) => ReleaseIsQuiet(c, s.store, position, fates);
    case DriveEndEvent(failure, revoked, fates) => DriveEndKeeps(c, s, failure, revoked, fates);
    case _ =>
  }

  lemma ReconciledSettles(s: System, e: Event, t: System, entries: set<nat>, blind: set<nat>)
    requires e.OpenEvent? && e.blind == blind && t.store.files == Reconciled(s.store.files, entries, blind)
    ensures ReceiptBacked(s, e, t)
  {
    hide RecoverDecision;
  }

  lemma OpenSettles(c: Campaign, s: System, entries: set<nat>, blind: set<nat>, fate: Fate)
    ensures ReceiptBacked(s, OpenEvent(entries, blind, fate), Open(c, s, entries, blind, fate))
  {
    hide RecoverDecision, Reconciled, ReceiptBacked, Loadable;
    var e, t := OpenEvent(entries, blind, fate), Open(c, s, entries, blind, fate);
    if t.store.files == s.store.files { SameOutcomesSettle(s, e, t); }
    else if t.store.files == Reconciled(s.store.files, entries, blind) { ReconciledSettles(s, e, t, entries, blind); }
    else { ReconciledSettles(s, e, t, s.store.files.examined, blind); }
  }

  lemma SameOutcomesSettle(s: System, e: Event, t: System)
    requires t.store.files.outcomes == s.store.files.outcomes
    ensures ReceiptBacked(s, e, t)
  {
  }

  lemma ShownFiles(c: Campaign, s: System)
    ensures ShowStatus(c, s).store.files == s.store.files
  {
  }

  /** A decided position is settled with exactly what its own run's receipts show, except where
      it is given up or its run cannot be read just then; in both cases it needs attention. */
  lemma DecidedSettledFromReceipts(c: Campaign, s: System, e: Event)
    requires Inv(c, s)
    ensures ReceiptBacked(s, e, Step(c, s, e))
  {
    hide Act, Open, ShowStatus, Inv, RecoverDecision, ReceiptBacked;
    ShownFiles(c, s);
    SameOutcomesSettle(s, e, s);
    match e
    case OpenEvent(entries, blind, fate) => OpenSettles(c, s, entries, blind, fate);
    case ManualRollbackEvent(_, _, _) => SameOutcomesSettle(s, e, Step(c, s, e));
    case CrashEvent(_) => SameOutcomesSettle(s, e, Step(c, s, e));
    case StatusEvent => SameOutcomesSettle(s, e, Step(c, s, e));
    case _ => if StageEvent(e) { StageSettles(c, s, e); } else { ControlSettles(c, s, e); }
  }
}
