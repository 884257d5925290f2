/** Safety of every run: at most one apply per position, each behind its published decision;
    evidence never changes; admission needs a live authorization. */
module CampaignSafety {
  import opened Wrappers
  import opened CampaignEvidence
  import opened CampaignStore
  import opened CampaignRuns
  import opened CampaignMutations

  /** What the gate's worker may rely on at each stage. */
  ghost predicate WorkerBound(files: Files, worker: Worker) {
    match worker
    case Idle => true
    case Analysing(p) => p !in files.decisions
    case Screening(p, source) => AnalysisBound(files, p, source)
    case Reading(p, source) => AnalysisBound(files, p, source)
    case Admitting(p, source, _) => AnalysisBound(files, p, source)
    case Admitted(p, admission) => p in files.decisions && files.decisions[p] == admission
    case Reviewed(p, admission, run) => ReviewBound(files, p, admission, run)
    case Linked(p, admission, run) => LinkBound(files, p, admission, run)
    case Applied(p, admission, run, _, _) => LinkBound(files, p, admission, run)
  }

  predicate AnalysisBound(files: Files, position: nat, source: Source) {
    position in files.analyses && files.analyses[position] == source && position !in files.decisions
  }

  predicate ReviewBound(files: Files, position: nat, admission: Admission, run: Id) {
    && position in files.decisions && files.decisions[position] == admission
    && position in files.reviews && files.reviews[position] == run
    && run in files.runs
  }

  predicate LinkBound(files: Files, position: nat, admission: Admission, run: Id) {
    && ReviewBound(files, position, admission, run)
    && files.runs[run].link == Some(Link(position, admission))
  }

  /** A position whose admission is held by the worker but not yet spent. */
  predicate Unspent(worker: Worker, position: nat) {
    match worker
    case Admitted(p, _) => p == position
    case Reviewed(p, _, _) => p == position
    case Linked(p, _, _) => p == position
    case _ => false
  }

  ghost predicate AppliedOnce(s: System) {
    && (forall p :: s.applied[p] <= 1)
    && (forall p :: s.applied[p] > 0 ==> p in s.store.files.decisions)
    && (forall p :: Unspent(s.worker, p) ==> s.applied[p] == 0)
  }

  predicate AuthorizationKnown(s: Store) {
    s.mem.authorization.Some? ==> s.mem.authorization.value in s.files.authorizations
  }

  ghost predicate Inv(c: Campaign, s: System) {
    && Bound(c, s.store.files)
    && AuthorizationKnown(s.store)
    && WorkerBound(s.store.files, s.worker)
    && AppliedOnce(s)
  }

  /** Kept over one step: the invariant, and every immutable artifact. */
  ghost predicate Keeps(c: Campaign, s: System, t: System) {
    && (Inv(c, s) ==> Inv(c, t) && Grows(s.store.files, t.store.files))
    && SavedKept(s.store, t.store)
  }

  // ------------------------------------------------------------ quiet steps

  lemma QuietKeeps(c: Campaign, s: System, t: Store, worker: Worker)
    requires Quiet(c, s.store, t)
    requires AuthorizationKnown(s.store) ==> AuthorizationKnown(t)
    requires worker == s.worker || worker == Idle
    ensures Keeps(c, s, s.(store := t, worker := worker))
  {
  }

  lemma FailClosedKeeps(c: Campaign, s: Store, t: Store, reason: Reason, fate: Fate)
    requires Quiet(c, s, t)
    ensures Quiet(c, s, FailClosed(c, t, reason, fate)) && FailClosed(c, t, reason, fate).mem.authorization == None
  {
    FailClosedShape(c, t, reason, fate);
  }

  lemma GateFailedKeeps(c: Campaign, s: System, fates: Fates)
    ensures Keeps(c, s, GateFailed(c, s, fates))
  {
    QuietSame(c, s.store, s.store);
    FailClosedKeeps(c, s.store, s.store, Storage, fates.last);
    QuietKeeps(c, s, GateFailed(c, s, fates).store, Idle);
  }

  lemma GateLeftKeeps(c: Campaign, s: System, result: (Store, Reply), andThen: Option<Reason>, fates: Fates)
    requires Quiet(c, s.store, result.0) && KeepsClosed(s.store, result.0)
    ensures Keeps(c, s, GateLeft(c, s, result, andThen, fates))
    ensures GateLeft(c, s, result, andThen, fates).store.files == result.0.files
  {
    FailClosedKeeps(c, s.store, result.0, Storage, fates.last);
    FailClosedShape(c, result.0, Storage, fates.last);
    if andThen.Some? {
      FailClosedKeeps(c, s.store, result.0, andThen.value, fates.last);
      FailClosedShape(c, result.0, andThen.value, fates.last);
    }
    var t := GateLeft(c, s, result, andThen, fates);
    assert t.store.mem.authorization in {None, s.store.mem.authorization};
    QuietKeeps(c, s, t.store, Idle);
  }

  /** A gate that leaves through `settle`: the files change by at most that settlement. */
  lemma GateSettleKeeps(c: Campaign, s: System, position: nat, value: Settlement, andThen: Option<Reason>, fates: Fates)
    ensures var t := GateLeft(c, s, Settle(c, s.store, position, value, fates), andThen, fates);
            && Keeps(c, s, t) && t.store.files.decisions == s.store.files.decisions
            && t.store.files.runs == s.store.files.runs && t.store.files.reviews == s.store.files.reviews
            && t.worker == Idle && t.applied == s.applied && t.up == s.up
            && (t.store.files.outcomes == s.store.files.outcomes
                || (position !in s.store.files.outcomes
                    && t.store.files.outcomes == s.store.files.outcomes[position := value]))
  {
    SettleIsQuiet(c, s.store, position, value, fates);
    GateLeftKeeps(c, s, Settle(c, s.store, position, value, fates), andThen, fates);
  }

  lemma GateReleaseKeeps(c: Campaign, s: System, position: nat, fates: Fates)
    ensures Keeps(c, s, GateReleased(c, s, position, fates))
    ensures GateReleased(c, s, position, fates).store.files.decisions == s.store.files.decisions
    ensures GateReleased(c, s, position, fates).store.files.outcomes == s.store.files.outcomes
  {
    ReleaseIsQuiet(c, s.store, position, fates);
    GateLeftKeeps(c, s, Release(c, s.store, position, fates), None, fates);
  }

  /** A store mutation by another thread, the worker standing where it stood. */
  lemma StoreStepKeeps(c: Campaign, s: System, t: Store)
    requires Quiet(c, s.store, t) && KeepsClosed(s.store, t)
    ensures Keeps(c, s, WithStore(s, t))
  {
    QuietKeeps(c, s, t, s.worker);
  }

  lemma CheckpointStepKeeps(c: Campaign, s: System, base: Store, changed: Checkpoint, fate: Fate)
    requires base.files == s.store.files && base.saved == s.store.saved && base.mem.checkpoint == s.store.mem.checkpoint
    requires KeepsClosed(s.store, base) && changed.revision >= base.mem.checkpoint.revision
    ensures Keeps(c, s, WithStore(s, CheckpointState(c, base, changed, fate).0))
  {
    CheckpointShape(c, base, changed, fate);
    QuietSame(c, s.store, CheckpointState(c, base, changed, fate).0);
    StoreStepKeeps(c, s, CheckpointState(c, base, changed, fate).0);
  }

  lemma DriveEndKeeps(c: Campaign, s: System, failure: Option<Reason>, revoked: bool, fates: Fates)
    ensures Keeps(c, s, DriveEnd(c, s, failure, revoked, fates))
    ensures DriveEnd(c, s, failure, revoked, fates).store.files == s.store.files
  {
    var closed := WithStore(s, s.store.(mem := s.store.mem.(authorization := None)));
    var t := DriveEnd(c, s, failure, revoked, fates);
    forall changed: Checkpoint | changed.revision == s.store.mem.checkpoint.revision
      ensures Announced(c, closed, changed, fates).store.files == s.store.files
      ensures SavedKept(s.store, Announced(c, closed, changed, fates).store)
      ensures Announced(c, closed, changed, fates).store.mem.authorization == None
      ensures Announced(c, closed, changed, fates).store.mem.checkpoint.revision >= changed.revision
    {
      CheckpointShape(c, closed.store, changed, fates.checkpoint);
      FailClosedShape(c, CheckpointState(c, closed.store, changed, fates.checkpoint).0, Storage, fates.closing);
    }
    QuietSame(c, s.store, t.store);
    StoreStepKeeps(c, s, t.store);
  }

  // ------------------------------------------------------------ the stages of the gate

  lemma BeginKeeps(c: Campaign, s: System, position: nat, fates: Fates)
    ensures Keeps(c, s, Begin(c, s, position, fates))
  {
    KeepsReflexive(c, s);
    hide Inv, Grows, FailClosed, Settle;
    GateFailedKeeps(c, s, fates);
    GateSettleKeeps(c, s, position, ReadSettlement(s.store.files, position, fates.receipts), None, fates);
    if s.worker.Idle? && position !in s.store.files.decisions { AnalysingKeeps(c, s, position); }
  }

  lemma AnalysingKeeps(c: Campaign, s: System, position: nat)
    requires s.worker.Idle? && position !in s.store.files.decisions
    ensures Keeps(c, s, s.(worker := Analysing(position)))
  {
  }

  lemma AnalyseKeeps(c: Campaign, s: System, load: SourceLoad, fates: Fates)
    ensures Keeps(c, s, Analyse(c, s, load, fates))
  {
    KeepsReflexive(c, s);
    hide Inv, Grows, FailClosed;
    if s.worker.Analysing? {
      var position := s.worker.position;
      var (store, reply) := RecordAnalysis(c, s.store, position, load, fates);
      AnalysisIsQuiet(c, s.store, position, load, fates);
      var s1 := WithStore(s, store);
      StoreStepKeeps(c, s, store);
      GateFailedKeeps(c, s1, fates);
      GateSettleKeeps(c, s1, position, Settlement(Attention, Invalid), None, fates);
      if reply == Accepted && load.Loaded? { ScreeningKeeps(c, s1, position, load.source); }
      KeepsTransitive(c, s, s1, Analyse(c, s, load, fates));
    }
  }

  lemma ScreeningKeeps(c: Campaign, s: System, position: nat, source: Source)
    requires s.worker == Analysing(position) && position in s.store.files.analyses && s.store.files.analyses[position] == source
    ensures Keeps(c, s, s.(worker := Screening(position, source)))
  {
  }

  lemma StageKeeps(c: Campaign, s: System, worker: Worker)
    requires (s.worker.Screening? && worker == Reading(s.worker.position, s.worker.source))
          || (worker.Admitting? && s.worker.Reading?
              && worker.position == s.worker.position && worker.source == s.worker.source)
    ensures Keeps(c, s, s.(worker := worker))
  {
  }

  lemma KeepsReflexive(c: Campaign, s: System)
    ensures Keeps(c, s, s)
  {
  }

  lemma KeepsTransitive(c: Campaign, s: System, t: System, u: System)
    ensures Keeps(c, s, t) && Keeps(c, t, u) ==> Keeps(c, s, u)
  {
    hide Inv;
  }

  lemma ScreenKeeps(c: Campaign, s: System, verdict: Screen, fates: Fates)
    ensures Keeps(c, s, ScreenRow(c, s, verdict, fates))
  {
    KeepsReflexive(c, s);
    hide Inv, Grows, FailClosed;
    if s.worker.Screening? {
      var position := s.worker.position;
      GateReleaseKeeps(c, s, position, fates);
      GateSettleKeeps(c, s, position, Settlement(Attention, LowConfidence), None, fates);
      GateSettleKeeps(c, s, position, Settlement(Attention, Invalid),
        if verdict.Unready? && verdict.permission then Some(Permission) else None, fates);
      StageKeeps(c, s, Reading(position, s.worker.source));
    }
  }

  lemma ReadKeeps(c: Campaign, s: System, read: PhotoRead, fates: Fates)
    ensures Keeps(c, s, ReadPhoto(c, s, read, fates))
  {
    KeepsReflexive(c, s);
    hide Inv, Grows, FailClosed;
    if s.worker.Reading? {
      var position := s.worker.position;
      GateSettleKeeps(c, s, position, Settlement(Attention, RunFailed), Some(Permission), fates);
      GateSettleKeeps(c, s, position, Settlement(Attention, RunFailed), None, fates);
      GateSettleKeeps(c, s, position, Settlement(Attention, Invalid), None, fates);
      GateSettleKeeps(c, s, position, Settlement(NoChange, Unexplained), None, fates);
      if read.Selection? { StageKeeps(c, s, Admitting(position, s.worker.source, read.selection)); }
    }
  }

  /** The published decision, whether or not the write was confirmed to the worker. */
  function Decided(s: System, position: nat, admission: Admission, worker: Worker): System {
    s.(store := s.store.(files := s.store.files.(decisions := s.store.files.decisions[position := admission])),
       worker := worker)
  }

  lemma DecidedKeeps(c: Campaign, s: System, position: nat, admission: Admission, worker: Worker)
    requires s.worker.Admitting? && s.worker.position == position && position !in s.store.files.decisions
    requires s.store.mem.authorization == Some(admission.authorization)
    requires worker == Admitted(position, admission) || worker == Idle
    ensures Keeps(c, s, Decided(s, position, admission, worker))
  {
    if Inv(c, s) {
    }
  }

  lemma AdmitKeeps(c: Campaign, s: System, fates: Fates)
    ensures Keeps(c, s, Admit(c, s, fates))
  {
    KeepsReflexive(c, s);
    hide Inv, Grows, FailClosed;
    if s.worker.Admitting? {
      var position := s.worker.position;
      GateReleaseKeeps(c, s, position, fates);
      GateFailedKeeps(c, s, fates);
      if s.store.mem.authorization.Some? && position !in s.store.files.decisions {
        var admission := Admission(s.store.mem.authorization.value, s.worker.source, s.worker.selection);
        DecidedKeeps(c, s, position, admission, Admitted(position, admission));
        DecidedKeeps(c, s, position, admission, Idle);
        GateFailedKeeps(c, Decided(s, position, admission, Idle), fates);
        KeepsTransitive(c, s, Decided(s, position, admission, Idle), Admit(c, s, fates));
      }
    }
  }

  function ReviewPublished(s: System, position: nat, run: Id, manifest: Run, published: bool, worker: Worker): System {
    var files := s.store.files;
    var runs := if run in files.runs then files.runs else files.runs[run := manifest.(link := None)];
    var reviews := if published then files.reviews[position := run] else files.reviews;
    s.(store := s.store.(files := files.(reviews := reviews, runs := runs)), worker := worker)
  }

  lemma ReviewExtends(c: Campaign, files: Files, position: nat, reviews: map<nat, Id>, runs: map<Id, Run>)
    requires SubMap(files.reviews, reviews) && reviews.Keys <= files.reviews.Keys + {position}
    requires SubMap(files.runs, runs) && position in files.decisions
    ensures Extends(c, files, files.(reviews := reviews, runs := runs))
  {
    var after := files.(reviews := reviews, runs := runs);
    assert forall id :: AuthorizationSound(files, id) == AuthorizationSound(after, id);
    hide AuthorizationSound;
  }

  lemma ReviewPublishedKeeps(c: Campaign, s: System, position: nat, run: Id, manifest: Run, published: bool, worker: Worker)
    requires s.worker.Admitted? && s.worker.position == position
    requires published ==> position !in s.store.files.reviews
    requires (published && worker == Reviewed(position, s.worker.admission, run)) || worker == Idle
    ensures Keeps(c, s, ReviewPublished(s, position, run, manifest, published, worker))
  {
    hide Bound, Grows, AuthorizationSound;
    if Inv(c, s) {
      var after := ReviewPublished(s, position, run, manifest, published, worker).store.files;
      ReviewExtends(c, s.store.files, position, after.reviews, after.runs);
    }
  }

  lemma ReviewKeeps(c: Campaign, s: System, review: ReviewResult, fates: Fates)
    ensures Keeps(c, s, Review(c, s, review, fates))
  {
    KeepsReflexive(c, s);
    hide Inv, Grows, FailClosed;
    if s.worker.Admitted? {
      var position := s.worker.position;
      GateFailedKeeps(c, s, fates);
      GateSettleKeeps(c, s, position, Settlement(Attention, Uncertain), None, fates);
      if review.ReviewedInto? {
        var published := position !in s.store.files.reviews && fates.evidence != Lost;
        ReviewPublishedKeeps(c, s, position, review.run, review.manifest, published, Idle);
        if published {
          ReviewPublishedKeeps(c, s, position, review.run, review.manifest, published,
                               Reviewed(position, s.worker.admission, review.run));
        }
        var published' := ReviewPublished(s, position, review.run, review.manifest, published, Idle);
        GateFailedKeeps(c, published', fates);
        KeepsTransitive(c, s, published', Review(c, s, review, fates));
      }
    }
  }

  function RunRewritten(s: System, run: Id, value: Run, worker: Worker): System {
    s.(store := s.store.(files := s.store.files.(runs := s.store.files.runs[run := value])), worker := worker)
  }

  lemma LinkedKeeps(c: Campaign, s: System, worker: Worker)
    requires s.worker.Reviewed? && s.worker.run in s.store.files.runs && s.store.files.runs[s.worker.run].link.None?
    requires worker == Linked(s.worker.position, s.worker.admission, s.worker.run) || worker == Idle
    ensures Keeps(c, s, RunRewritten(s, s.worker.run,
              s.store.files.runs[s.worker.run].(link := Some(Link(s.worker.position, s.worker.admission))), worker))
  {
    if Inv(c, s) {
    }
  }

  lemma LinkKeeps(c: Campaign, s: System, fates: Fates)
    ensures Keeps(c, s, LinkRun(c, s, fates))
  {
    KeepsReflexive(c, s);
    hide Inv, Grows, FailClosed;
    if s.worker.Reviewed? {
      var run := s.worker.run;
      GateFailedKeeps(c, s, fates);
      if run in s.store.files.runs && s.store.files.runs[run].link.None? {
        var linked := s.store.files.runs[run].(link := Some(Link(s.worker.position, s.worker.admission)));
        LinkedKeeps(c, s, Linked(s.worker.position, s.worker.admission, run));
        LinkedKeeps(c, s, Idle);
        GateFailedKeeps(c, RunRewritten(s, run, linked, Idle), fates);
        KeepsTransitive(c, s, RunRewritten(s, run, linked, Idle), LinkRun(c, s, fates));
      }
    }
  }

  /** The system as `apply_runner` leaves it: the call is spent whatever follows. */
  function Called(s: System, row: Row, statusClean: bool, worker: Worker): System
    requires s.worker.Linked? && s.worker.run in s.store.files.runs
  {
    RunRewritten(s, s.worker.run, s.store.files.runs[s.worker.run].(statusClean := statusClean, row := row), worker)
      .(applied := s.applied + multiset{s.worker.position})
  }

  lemma CalledKeeps(c: Campaign, s: System, row: Row, statusClean: bool, worker: Worker)
    requires s.worker.Linked? && s.worker.run in s.store.files.runs
    requires worker == Idle
          || (worker.Applied? && worker.position == s.worker.position
              && worker.admission == s.worker.admission && worker.run == s.worker.run)
    ensures Keeps(c, s, Called(s, row, statusClean, worker))
  {
    hide Bound, Grows;
    if Inv(c, s) {
      assert Unspent(s.worker, s.worker.position);
      RewrittenStillBound(c, s.store.files, Called(s, row, statusClean, worker).store.files, s.worker);
    }
  }

  lemma ApplyKeeps(c: Campaign, s: System, result: ApplyResult, row: Row, statusClean: bool, fates: Fates)
    ensures Keeps(c, s, Apply(c, s, result, row, statusClean, fates))
  {
    KeepsReflexive(c, s);
    hide Inv, Grows, FailClosed, Settle;
    if s.worker.Linked? && s.worker.run in s.store.files.runs {
      var position := s.worker.position;
      var called := Called(s, row, statusClean, Idle);
      CalledKeeps(c, s, row, statusClean, Idle);
      GateFailedKeeps(c, called, fates);
      GateSettleKeeps(c, called, position, Settlement(Attention, Uncertain), None, fates);
      KeepsTransitive(c, s, called, Apply(c, s, result, row, statusClean, fates));
      if result.ApplyReturned? {
        CalledKeeps(c, s, row, statusClean,
                    Applied(position, s.worker.admission, s.worker.run, result.exitClean, result.codes));
      }
    }
  }

  lemma FinishKeeps(c: Campaign, s: System, fates: Fates)
    ensures Keeps(c, s, Finish(c, s, fates))
  {
    KeepsReflexive(c, s);
    hide Inv, Grows, FailClosed;
    if s.worker.Applied? && s.worker.run in s.store.files.runs {
      GateFailedKeeps(c, s, fates);
      forall value, closing
        ensures Keeps(c, s, GateLeft(c, s, Settle(c, s.store, s.worker.position, value, fates), closing, fates))
      {
        GateSettleKeeps(c, s, s.worker.position, value, closing, fates);
      }
    }
  }

  // -------------------------------------------------------------------- all steps

  lemma ControlKeeps(c: Campaign, s: System, e: Event)
    requires !StageEvent(e)
    ensures Keeps(c, s, Act(c, s, e))
  {
    KeepsReflexive(c, s);
    hide Inv, Grows, Extends, FailClosed, Settle, Release, RecordAnalysis, MarkExamined, Authorize, Pause, DriveEnd;
    QuietSame(c, s.store, s.store);
    StoreStepKeeps(c, s, s.store);
    match e
    case AuthorizeEvent(request, fates) =>
      AuthorizeIsQuiet(c, s.store, request, fates);
      QuietKeeps(c, s, Authorize(c, s.store, request, fates).0, s.worker);
    case PauseEvent(request, fates) =>
      PauseIsQuiet(c, s.store, request, fates);
      StoreStepKeeps(c, s, Pause(c, s.store, request, fates).0);
    case RevokeEvent => StoreStepKeeps(c, s, s.store.(mem := s.store.mem.(authorization := None)));
    case FailEvent(reason, fates) =>
      FailClosedKeeps(c, s.store, s.store, reason, fates.closing);
      StoreStepKeeps(c, s, FailClosed(c, s.store, reason, fates.closing));
    case ExamineEvent(position, fates) =>
      ExamineIsQuiet(c, s.store, position, fates);
      StoreStepKeeps(c, s, MarkExamined(c, s.store, position, fates).0);
    case SourceEvent(position, load, fates) =>
      AnalysisIsQuiet(c, s.store, position, load, fates);
      StoreStepKeeps(c, s, RecordAnalysis(c, s.store, position, load, fates).0);
    case AbandonEvent(position, fates) =>
      SettleIsQuiet(c, s.store, position, Settlement(Attention, RunFailed), fates);
      StoreStepKeeps(c, s, Settle(c, s.store, position, Settlement(Attention, RunFailed), fates).0);
    case ReleaseEvent(position, fates) =>
      ReleaseIsQuiet(c, s.store, position, fates);
      StoreStepKeeps(c, s, Release(c, s.store, position, fates).0);
    case ManualDrainEvent(fates) =>
      CheckpointStepKeeps(c, s, s.store, s.store.mem.checkpoint.(phase := Preparing, reason := ManualDrain), fates.checkpoint);
    case ActivationStoppedEvent(reason, fates) =>
      CheckpointStepKeeps(c, s, s.store.(mem := s.store.mem.(authorization := None)),
        s.store.mem.checkpoint.(phase := Paused, reason := reason), fates.checkpoint);
    case DriveEndEvent(failure, revoked, fates) => DriveEndKeeps(c, s, failure, revoked, fates);
    case CatchUpEvent(revision, fates) =>
      if revision >= s.store.mem.checkpoint.revision {
        CheckpointStepKeeps(c, s, s.store, s.store.mem.checkpoint.(revision := revision), fates.checkpoint);
      }
    case _ =>
  }

  lemma StageKeepsAll(c: Campaign, s: System, e: Event)
    requires StageEvent(e)
    ensures Keeps(c, s, Act(c, s, e))
  {
    hide Keeps, Begin, Analyse, ScreenRow, ReadPhoto, Admit, Review, LinkRun, Apply, Finish;
    match e
    case BeginEvent(position, fates) => BeginKeeps(c, s, position, fates);
    case AnalyseEvent(load, fates) => AnalyseKeeps(c, s, load, fates);
    case ScreenEvent(verdict, fates) => ScreenKeeps(c, s, verdict, fates);
    case ReadEvent(read, fates) => ReadKeeps(c, s, read, fates);
    case AdmitEvent(fates) => AdmitKeeps(c, s, fates);
    case ReviewEvent(review, fates) => ReviewKeeps(c, s, review, fates);
    case LinkEvent(fates) => LinkKeeps(c, s, fates);
    case ApplyEvent(result, row, statusClean, fates) => ApplyKeeps(c, s, result, row, statusClean, fates);
    case FinishEvent(fates) => FinishKeeps(c, s, fates);
  }

  lemma RunningKeeps(c: Campaign, s: System, e: Event)
    ensures Keeps(c, s, Act(c, s, e))
  {
    hide Act, Keeps;
    if StageEvent(e) { StageKeepsAll(c, s, e); } else { ControlKeeps(c, s, e); }
  }

  lemma ReconciledKeeps(c: Campaign, s: System, entries: set<nat>, blind: set<nat>)
    requires Inv(c, s)
    ensures var after := Reconciled(s.store.files, entries, blind);
            && Bound(c, after) && Grows(s.store.files, after) && after.decisions == s.store.files.decisions
            && after.authorizations == s.store.files.authorizations && WorkerBound(after, s.worker)
  {
  }

  lemma OpenKeeps(c: Campaign, s: System, entries: set<nat>, blind: set<nat>, fate: Fate)
    ensures Keeps(c, s, Open(c, s, entries, blind, fate))
  {
    KeepsReflexive(c, s);
    hide Bound, Grows, Reconciled, Loadable;
    if Inv(c, s) && !s.up {
      ReconciledKeeps(c, s, entries, blind);
      ReconciledKeeps(c, s, s.store.files.examined, blind);
    }
  }

  lemma ShownKeeps(c: Campaign, s: System)
    ensures Keeps(c, s, ShowStatus(c, s))
  {
    KeepsReflexive(c, s);
    hide Bound, Grows, StatusReadable;
  }

  lemma CrashKeeps(c: Campaign, s: System, orphan: Option<nat>)
    ensures Keeps(c, s, Step(c, s, CrashEvent(orphan)))
  {
    var after := Step(c, s, CrashEvent(orphan)).store.files;
    assert forall id :: AuthorizationSound(s.store.files, id) == AuthorizationSound(after, id);
  }

  lemma ManualRollbackKeeps(c: Campaign, s: System, run: Id, row: Row, statusClean: bool)
    ensures Keeps(c, s, Step(c, s, ManualRollbackEvent(run, row, statusClean)))
  {
    var files, after := s.store.files, Step(c, s, ManualRollbackEvent(run, row, statusClean)).store.files;
    if run in files.runs && Inv(c, s) {
      assert after == files.(runs := files.runs[run := files.runs[run].(row := row, statusClean := statusClean)]);
      RewrittenStillBound(c, files, after, s.worker);
    }
  }

  /** A run rewritten under its link. */
  lemma RewrittenStillBound(c: Campaign, files: Files, after: Files, worker: Worker)
    requires after == files.(runs := after.runs)
    requires forall r | r in files.runs :: r in after.runs && after.runs[r].link == files.runs[r].link
    requires Bound(c, files) && WorkerBound(files, worker)
    ensures Bound(c, after) && WorkerBound(after, worker) && Grows(files, after)
  {
    assert forall id :: AuthorizationSound(files, id) == AuthorizationSound(after, id);
  }

  lemma StepKeeps(c: Campaign, s: System, e: Event)
    ensures Keeps(c, s, Step(c, s, e))
  {
    KeepsReflexive(c, s);
    hide Inv, Grows, Act, Open, ShowStatus;
    match e
    case ManualRollbackEvent(run, row, statusClean) => ManualRollbackKeeps(c, s, run, row, statusClean);
    case CrashEvent(orphan) => CrashKeeps(c, s, orphan);
    case StatusEvent => ShownKeeps(c, s);
    case OpenEvent(entries, blind, fate) => OpenKeeps(c, s, entries, blind, fate);
    case _ => RunningKeeps(c, s, e);
  }

  // ------------------------------------------------------------------ the theorems

  lemma {:induction false} RunKeeps(c: Campaign, s: System, events: seq<Event>)
    ensures Keeps(c, s, After(c, s, events))
    decreases |events|
  {
    KeepsReflexive(c, s);
    hide Inv, Grows, Step;
    if events != [] {
      StepKeeps(c, s, events[0]);
      RunKeeps(c, Step(c, s, events[0]), events[1..]);
      KeepsTransitive(c, s, Step(c, s, events[0]), After(c, s, events));
    }
  }

  /** No immutable artifact is ever altered or lost, whatever fails or crashes. */
  lemma EvidenceIsImmutable(c: Campaign, before: seq<Event>, later: seq<Event>)
    ensures Grows(After(c, Created(c), before).store.files, After(c, Created(c), before + later).store.files)
  {
    RunKeeps(c, Created(c), before);
    RunKeeps(c, After(c, Created(c), before), later);
    AfterConcat(c, Created(c), before, later);
  }

  lemma {:induction false} AfterConcat(c: Campaign, s: System, first: seq<Event>, second: seq<Event>)
    ensures After(c, s, first + second) == After(c, After(c, s, first), second)
    decreases |first|
  {
    if first == [] {
      assert first + second == second;
    } else {
      assert (first + second)[0] == first[0] && (first + second)[1..] == first[1..] + second;
      AfterConcat(c, Step(c, s, first[0]), first[1..], second);
    }
  }

  lemma CreatedIsSafe(c: Campaign)
    ensures Inv(c, Created(c))
  {
  }

  /** Over every interleaving, pause, failed write, crash and reopening, a position is applied
      at most once, and only with its decision already published. */
  lemma AppliedAtMostOnce(c: Campaign, events: seq<Event>, position: nat)
    ensures var s := After(c, Created(c), events);
            && s.applied[position] <= 1
            && (s.applied[position] == 1 ==>
                  && position in s.store.files.decisions
                  && s.store.files.decisions[position].authorization in s.store.files.authorizations)
  {
    CreatedIsSafe(c);
    RunKeeps(c, Created(c), events);
  }

  /** The one step that applies finds a published decision, a published review and a linked run. */
  lemma ApplyNeedsEvidence(c: Campaign, s: System, e: Event, position: nat)
    requires Inv(c, s)
    requires Step(c, s, e).applied[position] != s.applied[position]
    ensures e.ApplyEvent? && s.up && s.applied[position] == 0
    ensures s.worker.Linked? && s.worker.position == position
    ensures position in s.store.files.reviews
         && LinkBound(s.store.files, position, s.worker.admission, s.store.files.reviews[position])
  {
    OnlyApplyCounts(c, s, e);
    assert Unspent(s.worker, s.worker.position);
  }

  lemma OnlyApplyCounts(c: Campaign, s: System, e: Event)
    ensures Act(c, s, e).applied == s.applied
         || (e.ApplyEvent? && s.worker.Linked? && Act(c, s, e).applied == s.applied + multiset{s.worker.position})
  {
  }
}
