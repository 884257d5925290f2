/** Which failed writes can leave a photo uncounted. As long as every examination on disk is counted,
    whatever else fails, the app accepts each snapshot; the one step that can leave one out is an
    examination whose directory sync or checkpoint failed. */
module CampaignCounted {
  import opened Wrappers
  import opened CampaignEvidence
  import opened CampaignStore
  import opened CampaignRuns
  import opened CampaignMutations
  import opened CampaignSafety
  import opened CampaignCounters
  import opened CampaignRecovery
  import opened CampaignLag

  /** The helper and the checkpoint on disk both count every examination on disk. */
  predicate AllCounted(s: Store) {
    && s.mem.checkpoint.examined == |s.files.examined|
    && s.saved.Some? && s.saved.value.examined == |s.files.examined|
  }

  /** An examination of a new position that is published, but torn at its directory sync, or not
      followed by a confirmed checkpoint. */
  predicate Uncounted(c: Campaign, s: System, e: Event) {
    && s.up && e.ExamineEvent? && e.position < c.total
    && e.position !in s.store.mem.inFlight && |s.store.mem.inFlight| < c.photoCount
    && e.position !in s.store.files.outcomes && e.position !in s.store.files.examined && e.fates.readable
    && (|| e.fates.evidence == Torn
        || (e.fates.evidence == Done
            && (e.fates.checkpoint != Done || s.store.mem.checkpoint.revision >= MAX_COUNTER)))
  }

  // ------------------------------------------------------------------ one mutation

  lemma CheckpointCounted(c: Campaign, s: Store, changed: Checkpoint, fate: Fate)
    requires AllCounted(s) && changed.examined == s.mem.checkpoint.examined
    ensures AllCounted(CheckpointState(c, s, changed, fate).0)
  {
  }

  lemma FailClosedCounted(c: Campaign, s: Store, reason: Reason, fate: Fate)
    ensures AllCounted(s) ==> AllCounted(FailClosed(c, s, reason, fate))
    ensures FailClosed(c, s, reason, fate).files == s.files
    ensures FailClosed(c, s, reason, fate).mem.checkpoint.examined == s.mem.checkpoint.examined
  {
  }

  lemma GuardedCounted(c: Campaign, result: (Store, Reply), fate: Fate)
    ensures AllCounted(result.0) ==> AllCounted(Guarded(c, result, fate).0)
  {
    hide FailClosed, AllCounted;
    FailClosedCounted(c, result.0, Storage, fate);
  }

  lemma ControlsCounted(c: Campaign, s: Store, request: Control, fates: Fates)
    requires AllCounted(s)
    ensures AllCounted(Authorize(c, s, request, fates).0) && AllCounted(Pause(c, s, request, fates).0)
  {
    hide FailClosed, Guarded;
    GuardedCounted(c, AuthorizeBody(c, s, request, fates), fates.closing);
    GuardedCounted(c, PauseBody(c, s, request, fates), fates.closing);
  }

  lemma SettleCounted(c: Campaign, s: Store, position: nat, value: Settlement, fates: Fates)
    requires AllCounted(s)
    ensures AllCounted(Settle(c, s, position, value, fates).0)
  {
    hide FailClosed, Guarded, CheckpointState, SettledCheckpoint, LastSettlement;
    var files := s.files.(outcomes := s.files.outcomes[position := value]);
    var changed := SettledCheckpoint(s.mem, position, value.outcome);
    SettledShape(s.mem, position, value.outcome);
    CheckpointCounted(c, Store(files, s.saved, SettledMemory(s.mem, position)), changed, fates.checkpoint);
    GuardedCounted(c, SettleBody(c, s, position, value, fates), fates.closing);
  }

  lemma ReleaseCounted(c: Campaign, s: Store, position: nat, fates: Fates)
    requires AllCounted(s)
    ensures AllCounted(Release(c, s, position, fates).0)
  {
    hide FailClosed, Guarded;
    GuardedCounted(c, ReleaseBody(c, s, position, fates), fates.closing);
  }

  lemma AnalysisCounted(c: Campaign, s: Store, position: nat, load: SourceLoad, fates: Fates)
    requires AllCounted(s)
    ensures AllCounted(RecordAnalysis(c, s, position, load, fates).0)
  {
    hide FailClosed, Guarded;
    GuardedCounted(c, RecordAnalysisBody(c, s, position, load, fates), fates.closing);
  }

  lemma ExamineCounted(c: Campaign, s: System, position: nat, fates: Fates)
    requires AllCounted(s.store) && s.up
    ensures AllCounted(MarkExamined(c, s.store, position, fates).0) <==> !Uncounted(c, s, ExamineEvent(position, fates))
  {
    hide FailClosed, Uncounted, MarkExaminedBody;
    var (t, reply) := MarkExaminedBody(c, s.store, position, fates);
    FailClosedCounted(c, t, Storage, fates.closing);
    ExamineBodyCounted(c, s, position, fates);
  }

  lemma ExamineBodyCounted(c: Campaign, s: System, position: nat, fates: Fates)
    requires AllCounted(s.store) && s.up
    ensures var t := MarkExaminedBody(c, s.store, position, fates).0;
            if Uncounted(c, s, ExamineEvent(position, fates)) then t.mem.checkpoint.examined != |t.files.examined|
            else AllCounted(t)
  {
    hide CheckpointState;
    var files := s.store.files.(examined := s.store.files.examined + {position});
    var mem := s.store.mem.(inFlight := s.store.mem.inFlight + {position});
    CheckpointCounted(c, s.store.(mem := mem), mem.checkpoint, fates.checkpoint);
    if position in s.store.files.examined {
      assert Store(s.store.files, s.store.saved, mem) == s.store.(mem := mem);
    } else {
      assert |files.examined| == |s.store.files.examined| + 1;
      var changed := mem.checkpoint.(examined := mem.checkpoint.examined + 1);
      OneMoreCounted(c, Store(files, s.store.saved, mem), changed, fates.checkpoint);
    }
  }

  lemma OneMoreCounted(c: Campaign, s: Store, changed: Checkpoint, fate: Fate)
    requires |s.files.examined| == changed.examined == s.mem.checkpoint.examined + 1
    requires changed.revision == s.mem.checkpoint.revision
    ensures var t := CheckpointState(c, s, changed, fate).0;
            if fate == Done && s.mem.checkpoint.revision < MAX_COUNTER then AllCounted(t)
            else t.mem.checkpoint.examined != |t.files.examined|
  {
  }

  // -------------------------------------------------------------------------- steps

  lemma GateLeftCounted(c: Campaign, s: System, result: (Store, Reply), andThen: Option<Reason>, fates: Fates)
    requires AllCounted(result.0)
    ensures AllCounted(GateLeft(c, s, result, andThen, fates).store)
  {
    hide AllCounted, FailClosed;
    FailClosedCounted(c, result.0, Storage, fates.last);
    if andThen.Some? { FailClosedCounted(c, result.0, andThen.value, fates.last); }
  }

  lemma StageCounted(c: Campaign, s: System, e: Event)
    requires AllCounted(s.store) && StageEvent(e)
    ensures AllCounted(Act(c, s, e).store)
  {
    hide AllCounted, FailClosed, Settle, Release, RecordAnalysis, GateLeft, RunProvenance, RecoverDecision, RowOutcome;
    var fates := e.fates;
    forall u: System, p, value, andThen | AllCounted(u.store)
      ensures AllCounted(GateLeft(c, u, Settle(c, u.store, p, value, fates), andThen, fates).store)
    {
      SettleCounted(c, u.store, p, value, fates);
      GateLeftCounted(c, u, Settle(c, u.store, p, value, fates), andThen, fates);
    }
    forall u: System, p | AllCounted(u.store)
      ensures AllCounted(GateLeft(c, u, Release(c, u.store, p, fates), None, fates).store)
    {
      ReleaseCounted(c, u.store, p, fates);
      GateLeftCounted(c, u, Release(c, u.store, p, fates), None, fates);
    }
    forall u: Store, reason | AllCounted(u) ensures AllCounted(FailClosed(c, u, reason, fates.last)) {
      FailClosedCounted(c, u, reason, fates.last);
    }
    forall files: Files | files.examined == s.store.files.examined ensures AllCounted(s.store.(files := files)) {
      SameExaminations(s.store, files, s.store.mem.authorization);
    }
    if e.AnalyseEvent? && s.worker.Analysing? {
      AnalysisCounted(c, s.store, s.worker.position, e.load, fates);
    }
  }

  lemma SameExaminations(s: Store, files: Files, authorization: Option<Id>)
    requires AllCounted(s) && files.examined == s.files.examined
    ensures AllCounted(s.(files := files)) && AllCounted(s.(mem := s.mem.(authorization := authorization)))
  {
  }

  lemma AnnouncedCounted(c: Campaign, s: System, changed: Checkpoint, fates: Fates)
    requires AllCounted(s.store) && changed.examined == s.store.mem.checkpoint.examined
    ensures AllCounted(Announced(c, s, changed, fates).store)
  {
    hide AllCounted, FailClosed, CheckpointState;
    CheckpointCounted(c, s.store, changed, fates.checkpoint);
    FailClosedCounted(c, CheckpointState(c, s.store, changed, fates.checkpoint).0, Storage, fates.closing);
  }

  lemma DriveEndCounted(c: Campaign, s: System, failure: Option<Reason>, revoked: bool, fates: Fates)
    requires AllCounted(s.store)
    ensures AllCounted(DriveEnd(c, s, failure, revoked, fates).store)
  {
    hide AllCounted, Announced;
    var mem := s.store.mem;
    var closed := WithStore(s, s.store.(mem := mem.(authorization := None)));
    SameExaminations(s.store, s.store.files, None);
    forall changed: Checkpoint | changed.examined == mem.checkpoint.examined
      ensures AllCounted(Announced(c, closed, changed, fates).store)
    {
      AnnouncedCounted(c, closed, changed, fates);
    }
  }

  lemma ControlCounted(c: Campaign, s: System, e: Event)
    requires AllCounted(s.store) && !StageEvent(e) && !e.ExamineEvent?
    ensures AllCounted(Act(c, s, e).store)
  {
    hide AllCounted, FailClosed, Settle, Release, RecordAnalysis, MarkExamined, Authorize, Pause, CheckpointState;
    hide DriveEnd;
    var mem := s.store.mem;
    SameExaminations(s.store, s.store.files, None);
    match e
    case AuthorizeEvent(request, fates) => ControlsCounted(c, s.store, request, fates);
    case PauseEvent(request, fates) => ControlsCounted(c, s.store, request, fates);
    case FailEvent(reason, fates) => FailClosedCounted(c, s.store, reason, fates.closing);
    case SourceEvent(position, load, fates) => AnalysisCounted(c, s.store, position, load, fates);
    case AbandonEvent(position, fates) => SettleCounted(c, s.store, position, Settlement(Attention, RunFailed), fates);
    case ReleaseEvent(position, fates) => ReleaseCounted(c, s.store, position, fates);
    case ManualDrainEvent(fates) =>
      CheckpointCounted(c, s.store, mem.checkpoint.(phase := Preparing, reason := ManualDrain), fates.checkpoint);
    case ActivationStoppedEvent(reason, fates) =>
      CheckpointCounted(c, s.store.(mem := mem.(authorization := None)),
                        mem.checkpoint.(phase := Paused, reason := reason), fates.checkpoint);
    case DriveEndEvent(failure, revoked, fates) => DriveEndCounted(c, s, failure, revoked, fates);
    case CatchUpEvent(revision, fates) =>
      CheckpointCounted(c, s.store, mem.checkpoint.(revision := revision), fates.checkpoint);
    case _ =>
  }

  lemma OpenedCounted(c: Campaign, s: System, entries: set<nat>, blind: set<nat>, fate: Fate)
    requires AllCounted(s.store)
    ensures AllCounted(Open(c, s, entries, blind, fate).store)
  {
    hide JudgedSettlement, EvidenceSound, SettledAs;
  }

  lemma ShownCounted(c: Campaign, s: System)
    requires AllCounted(s.store)
    ensures AllCounted(ShowStatus(c, s).store)
  {
    hide StatusReadable;
  }

  /** Of all the steps there are, failed or not, exactly that one ends the count. */
  lemma StepCountedExactly(c: Campaign, s: System, e: Event)
    requires AllCounted(s.store)
    ensures AllCounted(Step(c, s, e).store) <==> !Uncounted(c, s, e)
  {
    hide AllCounted, Act, ShowStatus, Open, MarkExamined;
    match e
    case ManualRollbackEvent(run, row, statusClean) =>
      SameExaminations(s.store, Step(c, s, e).store.files, None);
    case CrashEvent(orphan) => SameExaminations(s.store, Step(c, s, e).store.files, None);
    case StatusEvent => ShownCounted(c, s);
    case OpenEvent(entries, blind, fate) => OpenedCounted(c, s, entries, blind, fate);
    case ExamineEvent(position, fates) =>
      if s.up { ExamineActs(c, s, position, fates); ExamineCounted(c, s, position, fates); }
    case _ => if StageEvent(e) { StageCounted(c, s, e); } else { ControlCounted(c, s, e); }
  }

  lemma ExamineActs(c: Campaign, s: System, position: nat, fates: Fates)
    ensures Act(c, s, ExamineEvent(position, fates)).store == MarkExamined(c, s.store, position, fates).0
  {
  }

  /** No examination of the run is left uncounted. */
  predicate NeverUncounted(c: Campaign, s: System, events: seq<Event>)
    decreases |events|
  {
    events != [] ==> !Uncounted(c, s, events[0]) && NeverUncounted(c, Step(c, s, events[0]), events[1..])
  }

  lemma {:induction false} RunCounted(c: Campaign, s: System, events: seq<Event>)
    requires AllCounted(s.store) && NeverUncounted(c, s, events)
    ensures AllCounted(After(c, s, events).store)
    decreases |events|
  {
    hide AllCounted, Uncounted, Step;
    if events != [] {
      StepCountedExactly(c, s, events[0]);
      RunCounted(c, Step(c, s, events[0]), events[1..]);
    }
  }

  lemma CountedIsValid(c: Campaign, s: Store)
    requires StoreBehind(c, s) && AllCounted(s) && c.total <= MAX_COUNTER
    ensures SnapshotValid(c, s.mem.checkpoint) && SnapshotValid(c, s.saved.value)
    ensures StatusReadable(c, s) <==> s.saved.value.reason != ManualDrain && s.saved.value.revision < MAX_COUNTER
  {
    hide StatusReadable, SnapshotValid;
    CardinalityMonotone(s.files.analyses.Keys, s.files.examined);
    ValidExactly(c, s.files, s.mem.checkpoint);
    ValidExactly(c, s.files, s.saved.value);
    ReadableExactly(c, s);
  }

  /** However many other writes are lost or torn, and however often the helper dies: while no
      examination was left uncounted, the app accepts what is shown and what is on disk, and the status
      can be read unless a manual drain is announced or the revision is exhausted. */
  lemma CountedRunStaysValid(c: Campaign, events: seq<Event>)
    requires c.total <= MAX_COUNTER && NeverUncounted(c, Created(c), events)
    ensures var s := After(c, Created(c), events).store;
            && s.saved.Some? && SnapshotValid(c, s.mem.checkpoint) && SnapshotValid(c, s.saved.value)
            && (StatusReadable(c, s) <==> s.saved.value.reason != ManualDrain && s.saved.value.revision < MAX_COUNTER)
  {
    hide StatusReadable, SnapshotValid, Step, StoreBehind;
    RunCounted(c, Created(c), events);
    CountersNeverRunAhead(c, events);
    CountedIsValid(c, After(c, Created(c), events).store);
  }

  /** A completed load counts everything again, whatever was left out before it. */
  lemma LoadedRunStaysValid(c: Campaign, history: seq<Event>, blind: set<nat>, later: seq<Event>)
    requires c.total <= MAX_COUNTER
    requires var down := After(c, Created(c), history);
             && !down.up && Loadable(c, down.store)
             && NeverUncounted(c, Step(c, down, OpenEvent(down.store.files.examined, blind, Done)), later)
    ensures var down := After(c, Created(c), history);
            var s := After(c, Step(c, down, OpenEvent(down.store.files.examined, blind, Done)), later).store;
            && s.saved.Some? && SnapshotValid(c, s.mem.checkpoint) && SnapshotValid(c, s.saved.value)
            && (StatusReadable(c, s) <==> s.saved.value.reason != ManualDrain && s.saved.value.revision < MAX_COUNTER)
  {
    hide StatusReadable, SnapshotValid, Step, StoreBehind, Loadable, Reloaded, NeverUncounted;
    var down := After(c, Created(c), history);
    var open := Step(c, down, OpenEvent(down.store.files.examined, blind, Done));
    CountersNeverRunAhead(c, history);
    StepBehind(c, down, OpenEvent(down.store.files.examined, blind, Done));
    OpeningReloads(c, down, blind);
    ReloadedCounts(c, down.store, blind);
    RunBehind(c, open, later);
    RunCounted(c, open, later);
    CountedIsValid(c, After(c, open, later).store);
  }

  lemma ReloadedCounts(c: Campaign, s: Store, blind: set<nat>)
    requires Loadable(c, s)
    ensures AllCounted(Reloaded(c, s, blind))
  {
    hide JudgedSettlement, EvidenceSound, SettledAs;
  }
}
