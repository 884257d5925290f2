/** Recovery refines the evidence: a reopened campaign counts exactly what is on disk, and with
    no failed write since, every step keeps it so and shows a snapshot the app accepts. */
module CampaignCounters {
  import opened Wrappers
  import opened CampaignEvidence
  import opened CampaignStore
  import opened CampaignRuns
  import opened CampaignMutations
  import opened CampaignSafety

  /** The counters are the cardinalities of the evidence. */
  ghost predicate CountsMatch(c: Campaign, files: Files, checkpoint: Checkpoint) {
    && checkpoint.examined == |files.examined|
    && checkpoint.analyzed == |files.analyses.Keys|
    && (forall o: Outcome :: checkpoint.Count(o) == |SettledAs(files.outcomes, o)|)
  }

  ghost predicate FlightOpen(files: Files, inFlight: set<nat>) {
    inFlight <= files.examined && inFlight !! files.outcomes.Keys
  }

  ghost predicate Exact(c: Campaign, s: Store) {
    && s.saved == Some(s.mem.checkpoint)
    && CountsMatch(c, s.files, s.mem.checkpoint)
    && FlightOpen(s.files, s.mem.inFlight)
    && s.mem.checkpoint.remaining == c.total - s.mem.checkpoint.Settled()
    && s.mem.checkpoint.inFlight == |s.mem.inFlight|
    && (s.mem.checkpoint.phase == Completed ==> s.mem.checkpoint.remaining == 0)
  }

  /** The conditions under which the app's decoder accepts a snapshot. */
  predicate SnapshotValid(c: Campaign, checkpoint: Checkpoint) {
    && checkpoint.revision <= MAX_COUNTER && c.total <= MAX_COUNTER
    && checkpoint.remaining == c.total - checkpoint.saved - checkpoint.noChange - checkpoint.attention
    && 0 <= checkpoint.remaining
    && checkpoint.examined <= c.total
    && checkpoint.analyzed <= checkpoint.examined
    && checkpoint.inFlight <= checkpoint.remaining
    && (checkpoint.phase == Completed ==> checkpoint.remaining == 0 && checkpoint.inFlight == 0)
  }

  lemma CountsSettled(c: Campaign, files: Files, checkpoint: Checkpoint)
    requires CountsMatch(c, files, checkpoint)
    ensures checkpoint.Settled() == |files.outcomes.Keys|
  {
    SettledPartition(files.outcomes);
    assert checkpoint.Count(Saved) == |SettledAs(files.outcomes, Saved)|;
    assert checkpoint.Count(NoChange) == |SettledAs(files.outcomes, NoChange)|;
    assert checkpoint.Count(Attention) == |SettledAs(files.outcomes, Attention)|;
  }

  /** Exact counters over bound evidence make a snapshot the app accepts. */
  lemma ExactIsValid(c: Campaign, s: Store)
    requires Bound(c, s.files) && Exact(c, s)
    requires c.total <= MAX_COUNTER && s.mem.checkpoint.revision <= MAX_COUNTER
    ensures SnapshotValid(c, s.mem.checkpoint)
  {
    CountsSettled(c, s.files, s.mem.checkpoint);
    CardinalityBelow(s.files.examined, c.total);
    CardinalityMonotone(s.files.analyses.Keys, s.files.examined);
    var open := s.mem.inFlight + s.files.outcomes.Keys;
    assert |open| == |s.mem.inFlight| + |s.files.outcomes.Keys|;
    CardinalityBelow(open, c.total);
  }

  /** When every position is settled, no position is left. */
  lemma AllSettled(c: Campaign, files: Files, position: nat)
    requires Bound(c, files) && |files.outcomes.Keys| == c.total && position < c.total
    ensures position in files.outcomes
  {
    if position !in files.outcomes {
      CardinalityBelow(files.outcomes.Keys + {position}, c.total);
    }
  }

  // ------------------------------------------------------------ exactness of a mutation

  /** A confirmed publication of matching counters is exact. */
  lemma ExactCheckpoint(c: Campaign, s: Store, changed: Checkpoint)
    requires CountsMatch(c, s.files, changed) && FlightOpen(s.files, s.mem.inFlight)
    requires changed.phase == Completed ==> changed.Settled() == c.total
    requires changed.revision < MAX_COUNTER
    ensures Exact(c, CheckpointState(c, s, changed, Done).0)
    ensures CheckpointState(c, s, changed, Done).1 == Accepted
  {
    var value := Stamped(c, s.mem.inFlight, changed);
    assert forall o :: value.Count(o) == changed.Count(o);
  }

  lemma ExactFailClosed(c: Campaign, s: Store, reason: Reason)
    requires Exact(c, s) && FailClosed(c, s, reason, Done).mem.checkpoint.revision < MAX_COUNTER
    ensures Exact(c, FailClosed(c, s, reason, Done))
  {
    var closed := s.(mem := s.mem.(authorization := None, failure := Some(reason)));
    var changed := closed.mem.checkpoint.(phase := DrainPhase(closed.mem.inFlight), reason := reason);
    assert forall o :: changed.Count(o) == s.mem.checkpoint.Count(o);
    ExactCheckpoint(c, closed, changed);
  }

  lemma ExactGuard(c: Campaign, result: (Store, Reply))
    requires Exact(c, result.0) && Guarded(c, result, Done).0.mem.checkpoint.revision < MAX_COUNTER
    ensures Exact(c, Guarded(c, result, Done).0)
  {
    if result.1 == Failed { ExactFailClosed(c, result.0, Storage); }
  }

  /** The revision before a store mutation bounds the headroom after it. */
  predicate Headroom(s: Store) { s.mem.checkpoint.revision < MAX_COUNTER }

  /** Evidence outside positions does not enter the counters. */
  lemma ExactSameCounts(c: Campaign, s: Store, files: Files)
    requires files.examined == s.files.examined && files.analyses == s.files.analyses
    requires files.outcomes == s.files.outcomes
    ensures Exact(c, s) ==> Exact(c, s.(files := files))
  {
  }

  lemma SameCounts(c: Campaign, files: Files, before: Checkpoint, after: Checkpoint)
    requires CountsMatch(c, files, before)
    requires after == before.(revision := after.revision, phase := after.phase, reason := after.reason)
    ensures CountsMatch(c, files, after)
  {
    assert forall o: Outcome :: after.Count(o) == before.Count(o);
  }

  lemma ExactAuthorize(c: Campaign, s: Store, request: Control)
    requires Exact(c, s) && Headroom(Authorize(c, s, request, ALL_DONE).0)
    ensures Exact(c, Authorize(c, s, request, ALL_DONE).0)
  {
    var body := AuthorizeBody(c, s, request, ALL_DONE);
    GuardShape(c, body, Done);
    if request.command != PauseCampaign && RecordControl(c, s, request, ALL_DONE).1 == Accepted {
      var s1 := RecordControl(c, s, request, ALL_DONE).0;
      if request.decision !in s1.files.authorizations {
        var s2 := s1.(files := Authorized(s.files, request, true));
        var changed := s2.mem.checkpoint.(phase := CampaignEvidence.Running, reason := NoReason);
        SameCounts(c, s.files, s.mem.checkpoint, changed);
        if changed.revision < MAX_COUNTER { ExactCheckpoint(c, s2, changed); }
      }
    }
    ExactGuard(c, body);
  }

  lemma ExactPause(c: Campaign, s: Store, request: Control)
    requires Exact(c, s) && Headroom(Pause(c, s, request, ALL_DONE).0)
    ensures Exact(c, Pause(c, s, request, ALL_DONE).0)
  {
    var body := PauseBody(c, s, request, ALL_DONE);
    GuardShape(c, body, Done);
    if request.command == PauseCampaign {
      var s1 := RecordControl(c, s.(mem := s.mem.(authorization := None)), request, ALL_DONE).0;
      var changed := s1.mem.checkpoint.(phase := DrainPhase(s1.mem.inFlight), reason := UserPause);
      SameCounts(c, s.files, s.mem.checkpoint, changed);
      if changed.revision < MAX_COUNTER { ExactCheckpoint(c, s1, changed); }
    }
    ExactGuard(c, body);
  }

  lemma ExactExamine(c: Campaign, s: Store, position: nat)
    requires Bound(c, s.files) && Exact(c, s) && Headroom(MarkExamined(c, s, position, ALL_DONE).0)
    ensures Exact(c, MarkExamined(c, s, position, ALL_DONE).0)
  {
    hide SettledAs, Guarded;
    var body := MarkExaminedBody(c, s, position, ALL_DONE);
    GuardShape(c, body, Done);
    if position < c.total && position !in s.mem.inFlight && |s.mem.inFlight| < c.photoCount
      && position !in s.files.outcomes
    {
      var isNew := position !in s.files.examined;
      var files := s.files.(examined := s.files.examined + {position});
      var s1 := Store(if isNew then files else s.files, s.saved, s.mem.(inFlight := s.mem.inFlight + {position}));
      var changed := s1.mem.checkpoint.(examined := s1.mem.checkpoint.examined + if isNew then 1 else 0);
      assert forall o: Outcome :: changed.Count(o) == s.mem.checkpoint.Count(o);
      if changed.phase == Completed {
        CountsSettled(c, s.files, s.mem.checkpoint);
        AllSettled(c, s.files, position);
      }
      if changed.revision < MAX_COUNTER { ExactCheckpoint(c, s1, changed); }
    }
    ExactGuard(c, body);
  }

  lemma SettledCountsMatch(c: Campaign, files: Files, checkpoint: Checkpoint, position: nat, value: Settlement)
    requires CountsMatch(c, files, checkpoint) && position !in files.outcomes
    ensures CountsMatch(c, files.(outcomes := files.outcomes[position := value]), checkpoint.Bump(value.outcome))
  {
    hide SettledAs;
    SettleMovesOneCount(files.outcomes, position, value);
    BumpCounts(checkpoint, value.outcome);
  }

  /** A campaign with an open position is not completed. */
  lemma OpenMeansIncomplete(c: Campaign, s: Store, position: nat)
    requires Bound(c, s.files) && Exact(c, s) && position < c.total && position !in s.files.outcomes
    ensures s.mem.checkpoint.phase != Completed
  {
    CountsSettled(c, s.files, s.mem.checkpoint);
    if |s.files.outcomes.Keys| == c.total { AllSettled(c, s.files, position); }
  }

  lemma SettleCounts(c: Campaign, s: Store, position: nat, value: Settlement)
    requires Bound(c, s.files) && Exact(c, s)
    requires position < c.total && position !in s.files.outcomes
    ensures var files := s.files.(outcomes := s.files.outcomes[position := value]);
            var changed := SettledCheckpoint(s.mem, position, value.outcome);
            && CountsMatch(c, files, changed) && FlightOpen(files, SettledMemory(s.mem, position).inFlight)
            && (changed.phase == Completed ==> changed.Settled() == c.total)
            && changed.revision == s.mem.checkpoint.revision
  {
    hide CountsMatch, Bound;
    var files := s.files.(outcomes := s.files.outcomes[position := value]);
    var changed := SettledCheckpoint(s.mem, position, value.outcome);
    SettledCountsMatch(c, s.files, s.mem.checkpoint, position, value);
    SameCounts(c, files, s.mem.checkpoint.Bump(value.outcome), changed);
    OpenMeansIncomplete(c, s, position);
    if changed.phase == Completed { }
  }

  lemma BumpCounts(checkpoint: Checkpoint, outcome: Outcome)
    ensures forall o: Outcome :: checkpoint.Bump(outcome).Count(o) == checkpoint.Count(o) + (if o == outcome then 1 else 0)
  {
  }

  lemma ExactSettle(c: Campaign, s: Store, position: nat, value: Settlement)
    requires Bound(c, s.files) && Exact(c, s) && Headroom(Settle(c, s, position, value, ALL_DONE).0)
    ensures Exact(c, Settle(c, s, position, value, ALL_DONE).0)
  {
    hide SettledCheckpoint, CountsMatch, Exact, FlightOpen, Bound, Guarded;
    var body := SettleBody(c, s, position, value, ALL_DONE);
    GuardShape(c, body, Done);
    if position < c.total && position in s.files.examined && position !in s.files.outcomes {
      var files := s.files.(outcomes := s.files.outcomes[position := value]);
      var changed := SettledCheckpoint(s.mem, position, value.outcome);
      SettleCounts(c, s, position, value);
      if changed.revision < MAX_COUNTER {
        ExactCheckpoint(c, Store(files, s.saved, SettledMemory(s.mem, position)), changed);
      }
    }
    ExactGuard(c, body);
  }

  lemma ExactRelease(c: Campaign, s: Store, position: nat)
    requires Exact(c, s) && Headroom(Release(c, s, position, ALL_DONE).0)
    ensures Exact(c, Release(c, s, position, ALL_DONE).0)
  {
    var body := ReleaseBody(c, s, position, ALL_DONE);
    GuardShape(c, body, Done);
    var s1 := s.(mem := s.mem.(inFlight := s.mem.inFlight - {position}));
    var changed := if s1.mem.checkpoint.phase == Pausing && s1.mem.inFlight == {}
                   then s1.mem.checkpoint.(phase := Paused) else s1.mem.checkpoint;
    SameCounts(c, s.files, s.mem.checkpoint, changed);
    if changed.revision < MAX_COUNTER { ExactCheckpoint(c, s1, changed); }
    ExactGuard(c, body);
  }

  lemma ExactAnalysis(c: Campaign, s: Store, position: nat, load: SourceLoad)
    requires Exact(c, s) && Headroom(RecordAnalysis(c, s, position, load, ALL_DONE).0)
    ensures Exact(c, RecordAnalysis(c, s, position, load, ALL_DONE).0)
  {
    hide SettledAs, Guarded;
    var body := RecordAnalysisBody(c, s, position, load, ALL_DONE);
    GuardShape(c, body, Done);
    if position < c.total && position in s.files.examined && load.Loaded? && position !in s.files.analyses {
      var s1 := s.(files := s.files.(analyses := s.files.analyses[position := load.source]));
      var changed := s1.mem.checkpoint.(analyzed := s1.mem.checkpoint.analyzed + 1);
      assert s1.files.analyses.Keys == s.files.analyses.Keys + {position};
      assert forall o: Outcome :: changed.Count(o) == s.mem.checkpoint.Count(o);
      if changed.revision < MAX_COUNTER { ExactCheckpoint(c, s1, changed); }
    }
    ExactGuard(c, body);
  }

  // ------------------------------------------------------------ exactness of a step

  ghost predicate ExactUp(c: Campaign, s: System) { s.up && Bound(c, s.store.files) && Exact(c, s.store) }

  /** Nothing failed: every write of the step went through, nothing crashed. */
  predicate FaultFree(e: Event) {
    match e
    case RevokeEvent => true
    case ManualRollbackEvent(_, _, _) => true
    case StatusEvent => true
    case CrashEvent(_) => false
    case OpenEvent(_, _, _) => false
    case _ => e.fates == ALL_DONE
  }

  lemma ExactGateLeft(c: Campaign, s: System, result: (Store, Reply), andThen: Option<Reason>)
    requires Headroom(result.0) ==> Exact(c, result.0)
    requires Headroom(GateLeft(c, s, result, andThen, ALL_DONE).store)
    ensures Exact(c, GateLeft(c, s, result, andThen, ALL_DONE).store)
  {
    FailClosedShape(c, result.0, Storage, Done);
    if result.1 != Accepted { ExactFailClosed(c, result.0, Storage); }
    else if andThen.Some? {
      FailClosedShape(c, result.0, andThen.value, Done);
      ExactFailClosed(c, result.0, andThen.value);
    }
  }

  lemma ExactGateSettle(c: Campaign, s: System, store: Store, position: nat, value: Settlement, andThen: Option<Reason>)
    requires Bound(c, store.files) && Exact(c, store)
    requires Headroom(GateLeft(c, s, Settle(c, store, position, value, ALL_DONE), andThen, ALL_DONE).store)
    ensures Exact(c, GateLeft(c, s, Settle(c, store, position, value, ALL_DONE), andThen, ALL_DONE).store)
  {
    var result := Settle(c, store, position, value, ALL_DONE);
    if Headroom(result.0) { ExactSettle(c, store, position, value); }
    ExactGateLeft(c, s, result, andThen);
  }

  lemma ExactAnnounced(c: Campaign, s: System, store: Store, changed: Checkpoint)
    requires Exact(c, s.store) && store == s.store.(mem := s.store.mem.(authorization := None))
    requires changed == s.store.mem.checkpoint.(phase := changed.phase, reason := changed.reason)
    requires changed.phase == Completed ==> s.store.mem.checkpoint.remaining == 0
    requires Headroom(Announced(c, WithStore(s, store), changed, ALL_DONE).store)
    ensures Exact(c, Announced(c, WithStore(s, store), changed, ALL_DONE).store)
  {
    SameCounts(c, store.files, s.store.mem.checkpoint, changed);
    FailClosedShape(c, store, Storage, Done);
    if changed.revision < MAX_COUNTER { ExactCheckpoint(c, store, changed); }
  }

  lemma ExactPlainCheckpoint(c: Campaign, s: Store, changed: Checkpoint)
    requires Exact(c, s) && (changed.phase == Completed ==> s.mem.checkpoint.phase == Completed)
    requires changed == s.mem.checkpoint.(revision := changed.revision, phase := changed.phase, reason := changed.reason)
    requires changed.revision >= s.mem.checkpoint.revision
    requires Headroom(CheckpointState(c, s, changed, Done).0)
    ensures changed.revision < MAX_COUNTER ==> Exact(c, CheckpointState(c, s, changed, Done).0)
    ensures changed.revision >= MAX_COUNTER ==> CheckpointState(c, s, changed, Done).0 == s
  {
    SameCounts(c, s.files, s.mem.checkpoint, changed);
    if changed.revision < MAX_COUNTER { ExactCheckpoint(c, s, changed); }
  }

  lemma ExactControl(c: Campaign, s: System, e: Event)
    requires ExactUp(c, s) && FaultFree(e) && Headroom(Act(c, s, e).store)
    requires !StageEvent(e)
    ensures Exact(c, Act(c, s, e).store)
  {
    hide FailClosed, Settle, Release, RecordAnalysis, MarkExamined, Authorize, Pause, CheckpointState, Announced;
    match e
    case AuthorizeEvent(request, fates) => ExactAuthorize(c, s.store, request);
    case PauseEvent(request, fates) => ExactPause(c, s.store, request);
    case FailEvent(reason, fates) =>
      if reason in {Permission, Storage} { ExactFailClosed(c, s.store, reason); }
    case ExamineEvent(position, fates) => ExactExamine(c, s.store, position);
    case SourceEvent(position, load, fates) => ExactAnalysis(c, s.store, position, load);
    case AbandonEvent(position, fates) => ExactSettle(c, s.store, position, Settlement(Attention, RunFailed));
    case ReleaseEvent(position, fates) => ExactRelease(c, s.store, position);
    case ManualDrainEvent(fates) =>
      ExactPlainCheckpoint(c, s.store, s.store.mem.checkpoint.(phase := Preparing, reason := ManualDrain));
    case ActivationStoppedEvent(reason, fates) =>
      if reason in {NoReason, UserPause} {
        ExactPlainCheckpoint(c, s.store.(mem := s.store.mem.(authorization := None)),
          s.store.mem.checkpoint.(phase := Paused, reason := reason));
      }
    case DriveEndEvent(failure, revoked, fates) =>
      var closed := s.store.(mem := s.store.mem.(authorization := None));
      forall changed: Checkpoint
        | changed == s.store.mem.checkpoint.(phase := changed.phase, reason := changed.reason)
          && (changed.phase == Completed ==> s.store.mem.checkpoint.remaining == 0)
          && Headroom(Announced(c, WithStore(s, closed), changed, ALL_DONE).store)
        ensures Exact(c, Announced(c, WithStore(s, closed), changed, ALL_DONE).store)
      {
        ExactAnnounced(c, s, closed, changed);
      }
    case CatchUpEvent(revision, fates) =>
      if revision >= s.store.mem.checkpoint.revision {
        ExactPlainCheckpoint(c, s.store, s.store.mem.checkpoint.(revision := revision));
      }
    case _ =>
  }

  /** The stages of the gate: what they publish besides a settlement is not counted. */
  lemma ExactStage(c: Campaign, s: System, e: Event)
    requires ExactUp(c, s) && Inv(c, s) && FaultFree(e) && Headroom(Act(c, s, e).store)
    requires StageEvent(e)
    ensures Exact(c, Act(c, s, e).store)
  {
    hide FailClosed, Settle, Release, RecordAnalysis, GateLeft, Exact, Bound, Inv;
    forall u: System, position, value, andThen
      | Bound(c, u.store.files) && Exact(c, u.store)
        && Headroom(GateLeft(c, u, Settle(c, u.store, position, value, ALL_DONE), andThen, ALL_DONE).store)
      ensures Exact(c, GateLeft(c, u, Settle(c, u.store, position, value, ALL_DONE), andThen, ALL_DONE).store)
    {
      ExactGateSettle(c, u, u.store, position, value, andThen);
    }
    forall u: System, position
      | Exact(c, u.store) && Headroom(GateLeft(c, u, Release(c, u.store, position, ALL_DONE), None, ALL_DONE).store)
      ensures Exact(c, GateLeft(c, u, Release(c, u.store, position, ALL_DONE), None, ALL_DONE).store)
    {
      if Headroom(Release(c, u.store, position, ALL_DONE).0) { ExactRelease(c, u.store, position); }
      ExactGateLeft(c, u, Release(c, u.store, position, ALL_DONE), None);
    }
    forall store: Store | Exact(c, store) && Headroom(FailClosed(c, store, Storage, Done))
      ensures Exact(c, FailClosed(c, store, Storage, Done))
    {
      ExactFailClosed(c, store, Storage);
    }
    forall files: Files
      | files.examined == s.store.files.examined && files.analyses == s.store.files.analyses
        && files.outcomes == s.store.files.outcomes
      ensures Exact(c, s.store.(files := files))
    {
      ExactSameCounts(c, s.store, files);
    }
    if e.AnalyseEvent? && s.worker.Analysing? { ExactAnalyseStage(c, s, e.load); }
    if e.ApplyEvent? && s.worker.Linked? && s.worker.run in s.store.files.runs {
      CalledKeeps(c, s, e.row, e.statusClean, Idle);
      assert Bound(c, Called(s, e.row, e.statusClean, Idle).store.files) by { InvBound(c, s, e.row, e.statusClean); }
    }
  }

  lemma InvBound(c: Campaign, s: System, row: Row, statusClean: bool)
    requires Inv(c, s) && s.worker.Linked? && s.worker.run in s.store.files.runs
    ensures Bound(c, Called(s, row, statusClean, Idle).store.files)
  {
    CalledKeeps(c, s, row, statusClean, Idle);
  }

  lemma ExactAnalyseStage(c: Campaign, s: System, load: SourceLoad)
    requires ExactUp(c, s) && s.worker.Analysing? && Headroom(Analyse(c, s, load, ALL_DONE).store)
    ensures Exact(c, Analyse(c, s, load, ALL_DONE).store)
  {
    hide FailClosed, Settle, RecordAnalysis, GateLeft, Exact, Bound, Extends;
    var position := s.worker.position;
    var (store, reply) := RecordAnalysis(c, s.store, position, load, ALL_DONE);
    AnalysisIsQuiet(c, s.store, position, load, ALL_DONE);
    assert Bound(c, store.files) by { QuietBound(c, s.store, store); }
    if Headroom(store) {
      ExactAnalysis(c, s.store, position, load);
      if reply == BadManifest {
        ExactGateSettle(c, WithStore(s, store), store, position, Settlement(Attention, Invalid), None);
      } else if Headroom(FailClosed(c, store, Storage, Done)) {
        ExactFailClosed(c, store, Storage);
      }
    } else {
      FailClosedShape(c, store, Storage, Done);
      SettleIsQuiet(c, store, position, Settlement(Attention, Invalid), ALL_DONE);
      GateLeftRevision(c, WithStore(s, store), Settle(c, store, position, Settlement(Attention, Invalid), ALL_DONE), None, ALL_DONE);
    }
  }

  lemma QuietBound(c: Campaign, s: Store, t: Store)
    requires Quiet(c, s, t) && Bound(c, s.files)
    ensures Bound(c, t.files)
  {
  }

  lemma GateLeftRevision(c: Campaign, s: System, result: (Store, Reply), andThen: Option<Reason>, fates: Fates)
    ensures GateLeft(c, s, result, andThen, fates).store.mem.checkpoint.revision >= result.0.mem.checkpoint.revision
  {
    FailClosedShape(c, result.0, Storage, fates.last);
    if andThen.Some? { FailClosedShape(c, result.0, andThen.value, fates.last); }
  }
}
