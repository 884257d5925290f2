/** What failed writes leave of the counters. Over every run they may lag the evidence but never exceed
    it, and that decides exactly which snapshots the app accepts and which status a new helper can read. */
module CampaignLag {
  import opened Wrappers
  import opened CampaignEvidence
  import opened CampaignStore
  import opened CampaignRuns
  import opened CampaignMutations
  import opened CampaignSafety
  import opened CampaignCounters
  import opened CampaignRecovery

  /** No counter exceeds its evidence, and what is left is counted from the settled ones. */
  ghost predicate Behind(c: Campaign, files: Files, checkpoint: Checkpoint) {
    && checkpoint.revision <= MAX_COUNTER
    && NoneAhead(files, checkpoint)
    && checkpoint.remaining == c.total - checkpoint.Settled()
    && checkpoint.inFlight <= checkpoint.remaining
    && (checkpoint.phase == Completed ==> checkpoint.remaining == 0)
  }

  ghost predicate NoneAhead(files: Files, checkpoint: Checkpoint) {
    && checkpoint.examined <= |files.examined|
    && checkpoint.analyzed <= |files.analyses.Keys|
    && (forall o: Outcome :: checkpoint.Count(o) <= |SettledAs(files.outcomes, o)|)
  }

  predicate Placed(c: Campaign, files: Files) {
    && (forall p :: p in files.examined ==> p < c.total)
    && files.analyses.Keys <= files.examined && files.outcomes.Keys <= files.examined
  }

  /** What is counted as settled is settled and out of flight. */
  predicate OutOfFlight(files: Files, inFlight: set<nat>, settled: nat) {
    inFlight <= files.examined && settled <= |files.outcomes.Keys - inFlight|
  }

  ghost predicate StoreBehind(c: Campaign, s: Store) {
    && Placed(c, s.files) && OutOfFlight(s.files, s.mem.inFlight, s.mem.checkpoint.Settled())
    && Behind(c, s.files, s.mem.checkpoint)
    && s.saved.Some? && Behind(c, s.files, s.saved.value)
  }

  // ------------------------------------------------------------------ checkpoints

  lemma FlightFits(c: Campaign, files: Files, inFlight: set<nat>, settled: nat)
    requires Placed(c, files) && OutOfFlight(files, inFlight, settled)
    ensures |inFlight| + settled <= c.total
  {
    var done := files.outcomes.Keys - inFlight;
    assert |inFlight + done| == |inFlight| + |done|;
    CardinalityBelow(inFlight + done, c.total);
  }

  lemma BehindGrows(c: Campaign, before: Files, after: Files, checkpoint: Checkpoint)
    requires before.examined <= after.examined && before.analyses.Keys <= after.analyses.Keys
    requires SubMap(before.outcomes, after.outcomes) && Behind(c, before, checkpoint)
    ensures Behind(c, after, checkpoint)
  {
    CardinalityMonotone(before.examined, after.examined);
    CardinalityMonotone(before.analyses.Keys, after.analyses.Keys);
    forall o: Outcome ensures checkpoint.Count(o) <= |SettledAs(after.outcomes, o)| {
      CardinalityMonotone(SettledAs(before.outcomes, o), SettledAs(after.outcomes, o));
    }
  }

  /** Evidence that grows while memory stands still. */
  lemma StoreGrows(c: Campaign, s: Store, files: Files)
    requires StoreBehind(c, s) && Placed(c, files)
    requires s.files.examined <= files.examined && s.files.analyses.Keys <= files.analyses.Keys
    requires SubMap(s.files.outcomes, files.outcomes)
    ensures StoreBehind(c, s.(files := files))
  {
    BehindGrows(c, s.files, files, s.mem.checkpoint);
    BehindGrows(c, s.files, files, s.saved.value);
    CardinalityMonotone(s.files.outcomes.Keys - s.mem.inFlight, files.outcomes.Keys - s.mem.inFlight);
    hide Behind, Placed;
  }

  lemma CheckpointBehind(c: Campaign, s: Store, changed: Checkpoint, fate: Fate)
    requires StoreBehind(c, s) && NoneAhead(s.files, changed)
    requires OutOfFlight(s.files, s.mem.inFlight, changed.Settled())
    requires changed.phase == Completed ==> changed.Settled() == c.total
    ensures StoreBehind(c, CheckpointState(c, s, changed, fate).0)
  {
    hide Placed, SettledAs;
    FlightFits(c, s.files, s.mem.inFlight, changed.Settled());
    var value := Stamped(c, s.mem.inFlight, changed);
    assert forall o: Outcome :: value.Count(o) == changed.Count(o);
    assert changed.revision < MAX_COUNTER ==> Behind(c, s.files, value);
  }

  /** A checkpoint that moves no counter. */
  lemma PlainBehind(c: Campaign, s: Store, changed: Checkpoint, fate: Fate)
    requires StoreBehind(c, s)
    requires changed
             == s.mem.checkpoint.(revision := changed.revision, phase := changed.phase, reason := changed.reason)
    requires changed.phase == Completed ==> s.mem.checkpoint.remaining == 0
    ensures StoreBehind(c, CheckpointState(c, s, changed, fate).0)
  {
    hide Placed, SettledAs, CheckpointState;
    assert forall o: Outcome :: changed.Count(o) == s.mem.checkpoint.Count(o);
    CheckpointBehind(c, s, changed, fate);
  }

  lemma FailClosedBehind(c: Campaign, s: Store, reason: Reason, fate: Fate)
    requires StoreBehind(c, s)
    ensures StoreBehind(c, FailClosed(c, s, reason, fate))
  {
    hide Placed, SettledAs, CheckpointState, OutOfFlight;
    var closed := s.(mem := s.mem.(authorization := None, failure := Some(reason)));
    var changed := closed.mem.checkpoint.(phase := DrainPhase(closed.mem.inFlight), reason := reason);
    PlainBehind(c, closed, changed, fate);
    var next := CheckpointState(c, closed, changed, fate).0;
    var marked := next.mem.checkpoint.(phase := Paused, reason := Storage);
    assert forall o: Outcome :: marked.Count(o) == next.mem.checkpoint.Count(o);
  }

  lemma GuardedBehind(c: Campaign, result: (Store, Reply), fate: Fate)
    requires StoreBehind(c, result.0)
    ensures StoreBehind(c, Guarded(c, result, fate).0)
  {
    hide StoreBehind, FailClosed;
    FailClosedBehind(c, result.0, Storage, fate);
  }

  predicate SameCounted(files: Files, others: Files) {
    files.examined == others.examined && files.analyses == others.analyses && files.outcomes == others.outcomes
  }

  /** Neither the controls nor anything a position does not count by is in the way. */
  lemma OtherFilesBehind(c: Campaign, s: Store, files: Files, authorization: Option<Id>, failure: Option<Reason>)
    requires StoreBehind(c, s)
    requires SameCounted(files, s.files)
    ensures StoreBehind(c, s.(files := files, mem := s.mem.(authorization := authorization, failure := failure)))
  {
    hide SettledAs;
  }

  // ---------------------------------------------------------------- store mutations

  lemma AuthorizeBehind(c: Campaign, s: Store, request: Control, fates: Fates)
    requires StoreBehind(c, s)
    ensures StoreBehind(c, Authorize(c, s, request, fates).0)
  {
    hide StoreBehind, CheckpointState, FailClosed;
    var mem := s.mem;
    forall files: Files | SameCounted(files, s.files)
      ensures StoreBehind(c, s.(files := files))
      ensures var changed := mem.checkpoint.(phase := CampaignEvidence.Running, reason := NoReason);
              StoreBehind(c, CheckpointState(c, s.(files := files), changed, fates.checkpoint).0)
    {
      OtherFilesBehind(c, s, files, mem.authorization, mem.failure);
      SameMemory(s, files);
      PlainBehind(c, s.(files := files), mem.checkpoint.(phase := CampaignEvidence.Running, reason := NoReason),
                  fates.checkpoint);
    }
    forall u: Store | StoreBehind(c, u)
      ensures StoreBehind(c, u.(mem := u.mem.(failure := None, authorization := Some(request.decision))))
    {
      OtherFilesBehind(c, u, u.files, Some(request.decision), None);
    }
    GuardedBehind(c, AuthorizeBody(c, s, request, fates), fates.closing);
  }

  lemma PauseBehind(c: Campaign, s: Store, request: Control, fates: Fates)
    requires StoreBehind(c, s)
    ensures StoreBehind(c, Pause(c, s, request, fates).0)
  {
    hide StoreBehind, CheckpointState, FailClosed;
    var closed := s.(mem := s.mem.(authorization := None));
    forall files: Files | SameCounted(files, s.files)
      ensures StoreBehind(c, closed.(files := files))
      ensures var changed := closed.mem.checkpoint.(phase := DrainPhase(closed.mem.inFlight), reason := UserPause);
              StoreBehind(c, CheckpointState(c, closed.(files := files), changed, fates.checkpoint).0)
    {
      OtherFilesBehind(c, s, files, None, s.mem.failure);
      PlainBehind(c, closed.(files := files),
                  closed.mem.checkpoint.(phase := DrainPhase(closed.mem.inFlight), reason := UserPause),
                  fates.checkpoint);
    }
    assert closed.(files := closed.files) == closed;
    GuardedBehind(c, PauseBody(c, s, request, fates), fates.closing);
  }

  /** An examination that was published takes the position into flight, and may be counted. */
  lemma ExaminedMore(c: Campaign, s: Store, position: nat)
    requires StoreBehind(c, s) && position < c.total && position !in s.files.outcomes
    ensures var files := s.files.(examined := s.files.examined + {position});
            var s1 := Store(files, s.saved, s.mem.(inFlight := s.mem.inFlight + {position}));
            && StoreBehind(c, s.(files := files)) && StoreBehind(c, s1)
            && (position !in s.files.examined ==> |files.examined| == |s.files.examined| + 1)
            && (position in s.files.examined ==> files == s.files)
  {
    hide Behind, SubMap, Placed, OutOfFlight;
    var files := s.files.(examined := s.files.examined + {position});
    assert SubMap(s.files.outcomes, files.outcomes) by { SameOutcomes(s.files.outcomes); }
    assert Placed(c, files) by { ExaminedPlaced(c, s.files, position); }
    StoreGrows(c, s, files);
    ExaminedOut(s.files, s.mem.inFlight, s.mem.checkpoint.Settled(), position);
    assert position in s.files.examined ==> files.examined == s.files.examined;
  }

  lemma ExaminedPlaced(c: Campaign, files: Files, position: nat)
    requires Placed(c, files) && position < c.total
    ensures Placed(c, files.(examined := files.examined + {position}))
  {
  }

  lemma ExaminedOut(files: Files, inFlight: set<nat>, settled: nat, position: nat)
    requires OutOfFlight(files, inFlight, settled) && position !in files.outcomes
    ensures OutOfFlight(files.(examined := files.examined + {position}), inFlight + {position}, settled)
  {
    assert files.outcomes.Keys - (inFlight + {position}) == files.outcomes.Keys - inFlight;
  }

  lemma CountedOneMore(files: Files, before: Checkpoint, after: Checkpoint)
    requires NoneAhead(files, before) && after.examined <= |files.examined| && after.analyzed <= |files.analyses.Keys|
    requires after == before.(examined := after.examined, analyzed := after.analyzed)
    ensures NoneAhead(files, after) && after.Settled() == before.Settled()
  {
    assert forall o: Outcome :: after.Count(o) == before.Count(o);
  }

  lemma BehindParts(c: Campaign, s: Store)
    requires StoreBehind(c, s)
    ensures NoneAhead(s.files, s.mem.checkpoint) && OutOfFlight(s.files, s.mem.inFlight, s.mem.checkpoint.Settled())
    ensures s.mem.checkpoint.phase == Completed ==> s.mem.checkpoint.Settled() == c.total
    ensures s.mem.checkpoint.remaining == c.total - s.mem.checkpoint.Settled()
    ensures s.mem.checkpoint.examined <= |s.files.examined| && s.mem.checkpoint.analyzed <= |s.files.analyses.Keys|
  {
    hide OutOfFlight, Placed, SettledAs;
  }

  lemma ExamineBehind(c: Campaign, s: Store, position: nat, fates: Fates)
    requires StoreBehind(c, s)
    ensures StoreBehind(c, MarkExamined(c, s, position, fates).0)
  {
    hide StoreBehind, Guarded, CheckpointState, NoneAhead, OutOfFlight;
    if position < c.total && position !in s.mem.inFlight && position !in s.files.outcomes {
      ExaminedMore(c, s, position);
      var files := s.files.(examined := s.files.examined + {position});
      var s1 := Store(files, s.saved, s.mem.(inFlight := s.mem.inFlight + {position}));
      var counted := if position !in s.files.examined then 1 else 0;
      var changed := s.mem.checkpoint.(examined := s.mem.checkpoint.examined + counted);
      BehindParts(c, s);
      BehindParts(c, s1);
      CountedOneMore(files, s.mem.checkpoint, changed);
      CheckpointBehind(c, s1, changed, fates.checkpoint);
    }
    GuardedBehind(c, MarkExaminedBody(c, s, position, fates), fates.closing);
  }

  /** A settlement that was published leaves the flight, and its outcome may be counted. */
  lemma SettledOut(c: Campaign, s: Store, position: nat, value: Settlement)
    requires StoreBehind(c, s) && position in s.files.examined && position !in s.files.outcomes
    ensures var files := s.files.(outcomes := s.files.outcomes[position := value]);
            var s1 := Store(files, s.saved, SettledMemory(s.mem, position));
            && StoreBehind(c, s.(files := files)) && StoreBehind(c, s1)
            && OutOfFlight(files, s1.mem.inFlight, s.mem.checkpoint.Settled() + 1)
            && s.mem.checkpoint.Settled() + 1 <= c.total
  {
    hide Behind, SubMap, LastSettlement, Placed, OutOfFlight;
    var files := s.files.(outcomes := s.files.outcomes[position := value]);
    assert SubMap(s.files.outcomes, files.outcomes) by { OneMoreOutcome(s.files.outcomes, position, value); }
    assert Placed(c, files) by { OutcomePlaced(c, s.files, position, value); }
    StoreGrows(c, s, files);
    OutcomeOut(s.files, s.mem.inFlight, s.mem.checkpoint.Settled(), position, value);
    FlightFits(c, files, s.mem.inFlight - {position}, s.mem.checkpoint.Settled() + 1);
  }

  lemma OutcomePlaced(c: Campaign, files: Files, position: nat, value: Settlement)
    requires Placed(c, files) && position in files.examined
    ensures Placed(c, files.(outcomes := files.outcomes[position := value]))
  {
  }

  lemma OutcomeOut(files: Files, inFlight: set<nat>, settled: nat, position: nat, value: Settlement)
    requires OutOfFlight(files, inFlight, settled) && position in files.examined && position !in files.outcomes
    ensures var after := files.(outcomes := files.outcomes[position := value]);
            OutOfFlight(after, inFlight - {position}, settled + 1) && OutOfFlight(after, inFlight - {position}, settled)
  {
    var before := files.outcomes.Keys - inFlight;
    var after := files.outcomes[position := value].Keys - (inFlight - {position});
    CardinalityMonotone(before + {position}, after);
    assert |before + {position}| == |before| + 1;
  }

  lemma OneMoreOutcome(outcomes: map<nat, Settlement>, position: nat, value: Settlement)
    requires position !in outcomes
    ensures SubMap(outcomes, outcomes[position := value])
  {
  }

  lemma BumpNotAhead(files: Files, checkpoint: Checkpoint, changed: Checkpoint, position: nat, value: Settlement)
    requires NoneAhead(files, checkpoint) && position !in files.outcomes
    requires changed == checkpoint.Bump(value.outcome).(phase := changed.phase, reason := changed.reason)
    ensures NoneAhead(files.(outcomes := files.outcomes[position := value]), changed)
    ensures changed.Settled() == checkpoint.Settled() + 1
  {
    hide SettledAs;
    SettleMovesOneCount(files.outcomes, position, value);
    BumpCounts(checkpoint, value.outcome);
    assert forall o: Outcome :: changed.Count(o) == checkpoint.Bump(value.outcome).Count(o);
  }

  lemma SettledShape(mem: Memory, position: nat, outcome: Outcome)
    ensures var changed := SettledCheckpoint(mem, position, outcome);
            && changed == mem.checkpoint.Bump(outcome).(phase := changed.phase, reason := changed.reason)
            && (changed.phase == Completed ==> mem.checkpoint.phase == Completed || mem.checkpoint.remaining == 1)
  {
  }

  lemma SettleBehind(c: Campaign, s: Store, position: nat, value: Settlement, fates: Fates)
    requires StoreBehind(c, s)
    ensures StoreBehind(c, Settle(c, s, position, value, fates).0)
  {
    hide StoreBehind, Guarded, CheckpointState, NoneAhead, OutOfFlight, SettledCheckpoint, SettledMemory;
    if position in s.files.examined && position !in s.files.outcomes {
      SettledOut(c, s, position, value);
      BehindParts(c, s);
      var changed := SettledCheckpoint(s.mem, position, value.outcome);
      SettledShape(s.mem, position, value.outcome);
      BumpNotAhead(s.files, s.mem.checkpoint, changed, position, value);
      var files := s.files.(outcomes := s.files.outcomes[position := value]);
      CheckpointBehind(c, Store(files, s.saved, SettledMemory(s.mem, position)), changed, fates.checkpoint);
    }
    GuardedBehind(c, SettleBody(c, s, position, value, fates), fates.closing);
  }

  lemma ReleaseBehind(c: Campaign, s: Store, position: nat, fates: Fates)
    requires StoreBehind(c, s)
    ensures StoreBehind(c, Release(c, s, position, fates).0)
  {
    var mem := s.mem.(inFlight := s.mem.inFlight - {position});
    CardinalityMonotone(s.files.outcomes.Keys - s.mem.inFlight, s.files.outcomes.Keys - mem.inFlight);
    assert StoreBehind(c, s.(mem := mem));
    var changed := if mem.checkpoint.phase == Pausing && mem.inFlight == {}
                   then mem.checkpoint.(phase := Paused) else mem.checkpoint;
    hide CheckpointState, SettledAs, Placed, OutOfFlight;
    PlainBehind(c, s.(mem := mem), changed, fates.checkpoint);
    hide StoreBehind, Guarded;
    GuardedBehind(c, ReleaseBody(c, s, position, fates), fates.closing);
  }

  lemma AnalysedMore(c: Campaign, s: Store, position: nat, source: Source)
    requires StoreBehind(c, s) && position in s.files.examined && position !in s.files.analyses
    ensures var files := s.files.(analyses := s.files.analyses[position := source]);
            StoreBehind(c, s.(files := files)) && |files.analyses.Keys| == |s.files.analyses.Keys| + 1
  {
    hide Behind, SubMap;
    var files := s.files.(analyses := s.files.analyses[position := source]);
    assert files.analyses.Keys == s.files.analyses.Keys + {position};
    assert SubMap(s.files.outcomes, files.outcomes) by { SameOutcomes(s.files.outcomes); }
    StoreGrows(c, s, files);
  }

  lemma SameOutcomes(outcomes: map<nat, Settlement>)
    ensures SubMap(outcomes, outcomes)
  {
  }

  lemma AnalysisBehind(c: Campaign, s: Store, position: nat, load: SourceLoad, fates: Fates)
    requires StoreBehind(c, s)
    ensures StoreBehind(c, RecordAnalysis(c, s, position, load, fates).0)
  {
    hide StoreBehind, Guarded, CheckpointState, NoneAhead, OutOfFlight;
    if position in s.files.examined && load.Loaded? && position !in s.files.analyses {
      AnalysedMore(c, s, position, load.source);
      var s1 := s.(files := s.files.(analyses := s.files.analyses[position := load.source]));
      var changed := s.mem.checkpoint.(analyzed := s.mem.checkpoint.analyzed + 1);
      BehindParts(c, s);
      BehindParts(c, s1);
      CountedOneMore(s1.files, s.mem.checkpoint, changed);
      CheckpointBehind(c, s1, changed, fates.checkpoint);
    }
    GuardedBehind(c, RecordAnalysisBody(c, s, position, load, fates), fates.closing);
  }

  // -------------------------------------------------------------------------- steps

  lemma GateLeftBehind(c: Campaign, s: System, result: (Store, Reply), andThen: Option<Reason>, fates: Fates)
    requires StoreBehind(c, result.0)
    ensures StoreBehind(c, GateLeft(c, s, result, andThen, fates).store)
  {
    hide StoreBehind, FailClosed;
    FailClosedBehind(c, result.0, Storage, fates.last);
    if andThen.Some? { FailClosedBehind(c, result.0, andThen.value, fates.last); }
  }

  lemma StageBehind(c: Campaign, s: System, e: Event)
    requires StoreBehind(c, s.store) && StageEvent(e)
    ensures StoreBehind(c, Act(c, s, e).store)
  {
    hide StoreBehind, FailClosed, Settle, Release, RecordAnalysis, GateLeft, RunProvenance, RecoverDecision, RowOutcome;
    var fates := e.fates;
    forall u: System, p, value, andThen | StoreBehind(c, u.store)
      ensures StoreBehind(c, GateLeft(c, u, Settle(c, u.store, p, value, fates), andThen, fates).store)
    {
      SettleBehind(c, u.store, p, value, fates);
      GateLeftBehind(c, u, Settle(c, u.store, p, value, fates), andThen, fates);
    }
    forall u: System, p | StoreBehind(c, u.store)
      ensures StoreBehind(c, GateLeft(c, u, Release(c, u.store, p, fates), None, fates).store)
    {
      ReleaseBehind(c, u.store, p, fates);
      GateLeftBehind(c, u, Release(c, u.store, p, fates), None, fates);
    }
    forall u: Store, reason | StoreBehind(c, u) ensures StoreBehind(c, FailClosed(c, u, reason, fates.last)) {
      FailClosedBehind(c, u, reason, fates.last);
    }
    forall files: Files | SameCounted(files, s.store.files)
      ensures StoreBehind(c, s.store.(files := files))
    {
      OtherFilesBehind(c, s.store, files, s.store.mem.authorization, s.store.mem.failure);
      SameMemory(s.store, files);
    }
    if e.AnalyseEvent? && s.worker.Analysing? {
      AnalysisBehind(c, s.store, s.worker.position, e.load, fates);
    }
  }

  lemma AnnouncedBehind(c: Campaign, s: System, changed: Checkpoint, fates: Fates)
    requires StoreBehind(c, s.store)
    requires changed == s.store.mem.checkpoint.(phase := changed.phase, reason := changed.reason)
    requires changed.phase == Completed ==> s.store.mem.checkpoint.remaining == 0
    ensures StoreBehind(c, Announced(c, s, changed, fates).store)
  {
    hide StoreBehind, CheckpointState, FailClosed;
    PlainBehind(c, s.store, changed, fates.checkpoint);
    FailClosedBehind(c, CheckpointState(c, s.store, changed, fates.checkpoint).0, Storage, fates.closing);
  }

  lemma DriveEndBehind(c: Campaign, s: System, failure: Option<Reason>, revoked: bool, fates: Fates)
    requires StoreBehind(c, s.store)
    ensures StoreBehind(c, DriveEnd(c, s, failure, revoked, fates).store)
  {
    hide StoreBehind, Announced;
    var mem := s.store.mem;
    var closed := WithStore(s, s.store.(mem := mem.(authorization := None)));
    OtherFilesBehind(c, s.store, s.store.files, None, mem.failure);
    assert closed.store == s.store.(files := s.store.files, mem := mem.(authorization := None, failure := mem.failure));
    if failure.Some? {
      AnnouncedBehind(c, closed, mem.checkpoint.(phase := Paused, reason := failure.value), fates);
    } else if mem.checkpoint.remaining == 0 {
      AnnouncedBehind(c, closed, mem.checkpoint.(phase := Completed, reason := NoReason), fates);
    } else {
      AnnouncedBehind(c, closed, mem.checkpoint.(phase := Paused,
        reason := if mem.checkpoint.reason in {Permission, Storage} then mem.checkpoint.reason else UserPause), fates);
    }
  }

  lemma ControlBehind(c: Campaign, s: System, e: Event)
    requires StoreBehind(c, s.store) && !StageEvent(e)
    ensures StoreBehind(c, Act(c, s, e).store)
  {
    hide StoreBehind, FailClosed, Settle, Release, RecordAnalysis, MarkExamined, Authorize, Pause, CheckpointState;
    hide DriveEnd;
    var mem := s.store.mem;
    OtherFilesBehind(c, s.store, s.store.files, None, mem.failure);
    assert s.store.(mem := mem.(authorization := None))
           == s.store.(files := s.store.files, mem := mem.(authorization := None, failure := mem.failure));
    match e
    case AuthorizeEvent(request, fates) => AuthorizeBehind(c, s.store, request, fates);
    case PauseEvent(request, fates) => PauseBehind(c, s.store, request, fates);
    case FailEvent(reason, fates) => FailClosedBehind(c, s.store, reason, fates.closing);
    case ExamineEvent(position, fates) => ExamineBehind(c, s.store, position, fates);
    case SourceEvent(position, load, fates) => AnalysisBehind(c, s.store, position, load, fates);
    case AbandonEvent(position, fates) => SettleBehind(c, s.store, position, Settlement(Attention, RunFailed), fates);
    case ReleaseEvent(position, fates) => ReleaseBehind(c, s.store, position, fates);
    case ManualDrainEvent(fates) =>
      PlainBehind(c, s.store, mem.checkpoint.(phase := Preparing, reason := ManualDrain), fates.checkpoint);
    case ActivationStoppedEvent(reason, fates) =>
      PlainBehind(c, s.store.(mem := mem.(authorization := None)), mem.checkpoint.(phase := Paused, reason := reason),
                  fates.checkpoint);
    case DriveEndEvent(failure, revoked, fates) => DriveEndBehind(c, s, failure, revoked, fates);
    case CatchUpEvent(revision, fates) => CaughtUpBehind(c, s.store, revision, fates);
    case _ =>
  }

  lemma CaughtUpBehind(c: Campaign, s: Store, revision: nat, fates: Fates)
    requires StoreBehind(c, s)
    ensures StoreBehind(c, CheckpointState(c, s, s.mem.checkpoint.(revision := revision), fates.checkpoint).0)
  {
    hide Placed, SettledAs, CheckpointState, OutOfFlight;
    PlainBehind(c, s, s.mem.checkpoint.(revision := revision), fates.checkpoint);
  }

  lemma ReconciledBehind(c: Campaign, s: Store, entries: set<nat>, blind: set<nat>)
    requires StoreBehind(c, s)
    ensures StoreBehind(c, s.(files := Reconciled(s.files, entries, blind)))
  {
    hide JudgedSettlement, Behind, OutOfFlight;
    StoreGrows(c, s, Reconciled(s.files, entries, blind));
  }

  /** A load starts from the evidence alone. */
  lemma ReloadedBehind(c: Campaign, s: Store, blind: set<nat>)
    requires StoreBehind(c, s) && Loadable(c, s)
    ensures var t := Reloaded(c, s, blind);
            StoreBehind(c, t) && StoreBehind(c, t.(mem := s.mem))
  {
    var t := Reloaded(c, s, blind);
    ReconciledBehind(c, s, s.files.examined, blind);
    RebuiltBehind(c, t.files, OpeningCheckpoint(c, s).value.revision + 1);
    hide Reconciled, RebuiltCheckpoint, Behind, EvidenceSound;
    assert t.mem.checkpoint == RebuiltCheckpoint(c, t.files, OpeningCheckpoint(c, s).value.revision + 1);
  }

  lemma RebuiltBehind(c: Campaign, files: Files, revision: nat)
    requires Placed(c, files) && revision <= MAX_COUNTER
    ensures var rebuilt := RebuiltCheckpoint(c, files, revision);
            Behind(c, files, rebuilt) && OutOfFlight(files, {}, rebuilt.Settled())
  {
    var rebuilt := RebuiltCheckpoint(c, files, revision);
    forall o: Outcome ensures rebuilt.Count(o) == |SettledAs(files.outcomes, o)| {
      match o case Saved => case NoChange => case Attention =>
    }
    SettledPartition(files.outcomes);
    CardinalityBelow(files.outcomes.Keys, c.total);
    assert files.outcomes.Keys - {} == files.outcomes.Keys;
  }

  lemma ShownBehind(c: Campaign, s: System)
    requires StoreBehind(c, s.store)
    ensures StoreBehind(c, ShowStatus(c, s).store)
  {
    if !s.up && StatusReadable(c, s.store) {
      var shown := ShowStatus(c, s).store.mem.checkpoint;
      var saved := s.store.saved.value;
      assert forall o: Outcome :: shown.Count(o) == saved.Count(o);
      ShownOut(c, s.store.files, saved);
      hide SettledAs, Placed;
    }
  }

  lemma ShownOut(c: Campaign, files: Files, checkpoint: Checkpoint)
    requires NoneAhead(files, checkpoint)
    ensures OutOfFlight(files, {}, checkpoint.Settled())
  {
    SettledPartition(files.outcomes);
    assert checkpoint.Count(Saved) <= |SettledAs(files.outcomes, Saved)|;
    assert checkpoint.Count(NoChange) <= |SettledAs(files.outcomes, NoChange)|;
    assert checkpoint.Count(Attention) <= |SettledAs(files.outcomes, Attention)|;
    assert files.outcomes.Keys - {} == files.outcomes.Keys;
  }

  lemma StepBehind(c: Campaign, s: System, e: Event)
    requires StoreBehind(c, s.store)
    ensures StoreBehind(c, Step(c, s, e).store)
  {
    hide StoreBehind, Act, ShowStatus, Reconciled, Reloaded, Loadable;
    match e
    case ManualRollbackEvent(run, row, statusClean) =>
      OtherFilesBehind(c, s.store, Step(c, s, e).store.files, s.store.mem.authorization, s.store.mem.failure);
      SameMemory(s.store, Step(c, s, e).store.files);
    case CrashEvent(orphan) =>
      OtherFilesBehind(c, s.store, Step(c, s, e).store.files, s.store.mem.authorization, s.store.mem.failure);
      SameMemory(s.store, Step(c, s, e).store.files);
    case StatusEvent => ShownBehind(c, s);
    case OpenEvent(entries, blind, fate) =>
      ReconciledBehind(c, s.store, entries, blind);
      if Loadable(c, s.store) { ReloadedBehind(c, s.store, blind); }
    case _ => if StageEvent(e) { StageBehind(c, s, e); } else { ControlBehind(c, s, e); }
  }

  lemma SameMemory(s: Store, files: Files)
    ensures s.(files := files, mem := s.mem.(authorization := s.mem.authorization, failure := s.mem.failure))
            == s.(files := files)
  {
  }

  lemma {:induction false} RunBehind(c: Campaign, s: System, events: seq<Event>)
    requires StoreBehind(c, s.store)
    ensures StoreBehind(c, After(c, s, events).store)
    decreases |events|
  {
    hide StoreBehind, Step;
    if events != [] {
      StepBehind(c, s, events[0]);
      RunBehind(c, Step(c, s, events[0]), events[1..]);
    }
  }

  // -------------------------------------------------------------------- over every run

  lemma CreatedBehind(c: Campaign)
    ensures StoreBehind(c, Created(c).store)
  {
    var s := Created(c).store;
    assert forall o: Outcome :: SettledAs(s.files.outcomes, o) == {};
  }

  /** Whatever is lost, torn or interrupted, no counter ever runs ahead of its evidence, in memory or
      on disk, and what is left is always counted from what is counted as settled. */
  lemma CountersNeverRunAhead(c: Campaign, events: seq<Event>)
    ensures StoreBehind(c, After(c, Created(c), events).store)
  {
    hide StoreBehind;
    CreatedBehind(c);
    RunBehind(c, Created(c), events);
  }

  lemma ValidExactly(c: Campaign, files: Files, checkpoint: Checkpoint)
    requires Placed(c, files) && Behind(c, files, checkpoint)
    ensures SnapshotValid(c, checkpoint) <==> c.total <= MAX_COUNTER && checkpoint.analyzed <= checkpoint.examined
  {
    CardinalityBelow(files.examined, c.total);
  }

  /** So lagging counters break a snapshot in one way only: the app accepts it exactly unless more
      photos are counted as analyzed than as examined. */
  lemma SnapshotValidExactly(c: Campaign, events: seq<Event>)
    ensures var s := After(c, Created(c), events).store;
            && s.saved.Some?
            && forall shown | shown in {s.mem.checkpoint, s.saved.value} ::
                 SnapshotValid(c, shown) <==> c.total <= MAX_COUNTER && shown.analyzed <= shown.examined
  {
    hide Behind, SnapshotValid;
    CountersNeverRunAhead(c, events);
    var s := After(c, Created(c), events).store;
    ValidExactly(c, s.files, s.mem.checkpoint);
    ValidExactly(c, s.files, s.saved.value);
  }

  /** What a new helper looks at: no announced drain, no analysis ahead of the examinations, a revision left. */
  predicate Showable(checkpoint: Checkpoint) {
    checkpoint.reason != ManualDrain && checkpoint.analyzed <= checkpoint.examined && checkpoint.revision < MAX_COUNTER
  }

  lemma ReadableExactly(c: Campaign, s: Store)
    requires StoreBehind(c, s)
    ensures StatusReadable(c, s) <==> Showable(s.saved.value)
  {
    hide Placed, NoneAhead, OutOfFlight;
  }

  /** After every run, failed writes included, status can be read without replaying positions exactly when
      the checkpoint on disk can be shown. */
  lemma StatusReadableExactly(c: Campaign, events: seq<Event>)
    ensures var s := After(c, Created(c), events).store;
            s.saved.Some? && (StatusReadable(c, s) <==> Showable(s.saved.value))
  {
    hide StatusReadable, Behind, Placed;
    CountersNeverRunAhead(c, events);
    ReadableExactly(c, After(c, Created(c), events).store);
  }
}
