/** In a benign world the evidence of a campaign always passes a load: every settled save stays backed
    by its receipts through every stage of every run. */
module CampaignBacking {
  import opened Wrappers
  import opened CampaignEvidence
  import opened CampaignStore
  import opened CampaignRuns
  import opened CampaignMutations
  import opened CampaignSafety
  import opened CampaignRecovery

  /** What recovery needs of the world: reviews create new run directories, a manual rollback keeps
      what its receipts prove, and no crash hits the temporary file of an unpublished admission. */
  predicate Benign(s: System, e: Event) {
    match e
    case ReviewEvent(review, _) => review.ReviewedInto? ==> review.run !in s.store.files.runs
    case ManualRollbackEvent(run, row, statusClean) =>
      run in s.store.files.runs && RowOutcome(s.store.files.runs[run]) == Saved ==>
        RowOutcome(s.store.files.runs[run].(row := row, statusClean := statusClean)) == Saved
    case CrashEvent(orphan) => orphan.Some? ==> orphan.value in s.store.files.examined
    case _ => true
  }

  predicate SavedAt(files: Files, position: nat) {
    position in files.outcomes && files.outcomes[position].outcome == Saved
  }

  predicate Holds(worker: Worker, position: nat) {
    !worker.Idle? && worker.position == position
  }

  /** Receipts back every save, runs are not shared, and the worker's own position is not saved. */
  ghost predicate Backed(s: System) {
    && (forall p :: SavedAt(s.store.files, p) ==> RecoverDecision(s.store.files, p) == Saved)
    && (forall p, q | p in s.store.files.reviews && q in s.store.files.reviews ::
          s.store.files.reviews[p] == s.store.files.reviews[q] ==> p == q)
    && (forall p :: p in s.store.files.reviews ==> s.store.files.reviews[p] in s.store.files.runs)
    && (forall p :: Holds(s.worker, p) ==> !SavedAt(s.store.files, p))
    && s.store.files.orphans <= s.store.files.examined
  }

  /** Growing evidence keeps a proven save proven while its run is not rewritten. */
  lemma RecoverStable(before: Files, after: Files, position: nat)
    requires Grows(before, after) && RecoverDecision(before, position) == Saved
    requires after.runs[before.reviews[position]] == before.runs[before.reviews[position]]
    ensures RecoverDecision(after, position) == Saved
  {
  }

  /** Steps that rewrite no run and settle nothing but (maybe) the worker's or an undecided position. */
  lemma QuietBacked(c: Campaign, s: System, t: System)
    requires Backed(s) && Grows(s.store.files, t.store.files)
    requires t.store.files.runs == s.store.files.runs && t.store.files.reviews == s.store.files.reviews
    requires t.store.files.orphans == s.store.files.orphans
    requires forall p :: SavedAt(t.store.files, p) && !SavedAt(s.store.files, p) ==>
               RecoverDecision(s.store.files, p) == Saved && t.worker.Idle?
    requires t.worker.Idle? || (forall p :: Holds(t.worker, p) ==> !SavedAt(t.store.files, p))
    ensures Backed(t)
  {
    forall p | SavedAt(t.store.files, p) ensures RecoverDecision(t.store.files, p) == Saved {
      RecoverStable(s.store.files, t.store.files, p);
    }
  }

  /** The files and worker of a step that rewrites no run and settles nothing. */
  lemma StillBacked(c: Campaign, s: System, t: System)
    requires Backed(s) && Grows(s.store.files, t.store.files)
    requires t.store.files.runs == s.store.files.runs && t.store.files.reviews == s.store.files.reviews
    requires t.store.files.orphans == s.store.files.orphans && t.store.files.outcomes == s.store.files.outcomes
    requires t.worker.Idle? || (!s.worker.Idle? && t.worker.position == s.worker.position)
    ensures Backed(t)
  {
    QuietBacked(c, s, t);
  }

  /** Leaving the gate with a settlement that the receipts allow. */
  lemma SettledBacked(c: Campaign, s: System, position: nat, value: Settlement, andThen: Option<Reason>, fates: Fates)
    requires Inv(c, s) && Backed(s)
    requires value.outcome == Saved ==> RecoverDecision(s.store.files, position) == Saved
    ensures Backed(GateLeft(c, s, Settle(c, s.store, position, value, fates), andThen, fates))
  {
    hide Settle, GateLeft, Backed, RecoverDecision;
    GateSettleKeeps(c, s, position, value, andThen, fates);
    GateSettleOrphans(c, s, position, value, andThen, fates);
    QuietBacked(c, s, GateLeft(c, s, Settle(c, s.store, position, value, fates), andThen, fates));
  }

  lemma GateSettleOrphans(c: Campaign, s: System, position: nat, value: Settlement, andThen: Option<Reason>, fates: Fates)
    ensures GateLeft(c, s, Settle(c, s.store, position, value, fates), andThen, fates).store.files.orphans
            == s.store.files.orphans
  {
    SettleIsQuiet(c, s.store, position, value, fates);
    GateLeftKeeps(c, s, Settle(c, s.store, position, value, fates), andThen, fates);
  }

  lemma GateFailedBacked(c: Campaign, s: System, fates: Fates)
    requires Backed(s)
    ensures Backed(GateFailed(c, s, fates))
  {
    FailClosedShape(c, s.store, Storage, fates.last);
    StillBacked(c, s, GateFailed(c, s, fates));
  }

  lemma ReleasedBacked(c: Campaign, s: System, position: nat, fates: Fates)
    requires Inv(c, s) && Backed(s)
    ensures Backed(GateReleased(c, s, position, fates))
  {
    hide Release, Backed;
    ReleaseIsQuiet(c, s.store, position, fates);
    GateLeftKeeps(c, s, Release(c, s.store, position, fates), None, fates);
    StillBacked(c, s, GateReleased(c, s, position, fates));
  }

  lemma BeginBacked(c: Campaign, s: System, position: nat, fates: Fates)
    requires Inv(c, s) && Backed(s)
    ensures Backed(Begin(c, s, position, fates))
  {
    GateFailedBacked(c, s, fates);
    SettledBacked(c, s, position, ReadSettlement(s.store.files, position, fates.receipts), None, fates);
    if s.worker.Idle? && position !in s.store.files.outcomes {
      var t := s.(worker := Analysing(position));
      assert forall p :: Holds(t.worker, p) ==> !SavedAt(t.store.files, p);
    }
  }

  lemma AnalyseBacked(c: Campaign, s: System, load: SourceLoad, fates: Fates)
    requires Inv(c, s) && Backed(s)
    ensures Backed(Analyse(c, s, load, fates))
  {
    if s.worker.Analysing? {
      hide RecordAnalysis, Backed, Settle, GateLeft;
      var position := s.worker.position;
      var (store, reply) := RecordAnalysis(c, s.store, position, load, fates);
      AnalysisIsQuiet(c, s.store, position, load, fates);
      var s1 := WithStore(s, store);
      StoreStepKeeps(c, s, store);
      StillBacked(c, s, s1);
      SettledBacked(c, s1, position, Settlement(Attention, Invalid), None, fates);
      GateFailedBacked(c, s1, fates);
      if load.Loaded? {
        StillBacked(c, s1, s1.(worker := Screening(position, load.source)));
      }
    }
  }

  lemma ScreenAndReadBacked(c: Campaign, s: System, verdict: Screen, read: PhotoRead, fates: Fates)
    requires Inv(c, s) && Backed(s)
    ensures Backed(ScreenRow(c, s, verdict, fates)) && Backed(ReadPhoto(c, s, read, fates))
  {
    hide Backed, Settle, GateLeft, Inv;
    forall position, outcome, why, andThen | outcome != Saved
      ensures Backed(GateLeft(c, s, Settle(c, s.store, position, Settlement(outcome, why), fates), andThen, fates))
    {
      SettledBacked(c, s, position, Settlement(outcome, why), andThen, fates);
    }
    if s.worker.Screening? {
      ReleasedBacked(c, s, s.worker.position, fates);
      StillBacked(c, s, s.(worker := Reading(s.worker.position, s.worker.source)));
    }
    if s.worker.Reading? && read.Selection? {
      StillBacked(c, s, s.(worker := Admitting(s.worker.position, s.worker.source, read.selection)));
    }
  }

  lemma AdmitBacked(c: Campaign, s: System, fates: Fates)
    requires Inv(c, s) && Backed(s)
    ensures Backed(Admit(c, s, fates))
  {
    hide Backed, FailClosed, Inv, Bound, Grows, Release, GateLeft;
    if s.worker.Admitting? {
      var position := s.worker.position;
      ReleasedBacked(c, s, position, fates);
      GateFailedBacked(c, s, fates);
      if s.store.mem.authorization.Some? && position !in s.store.files.decisions {
        var admission := Admission(s.store.mem.authorization.value, s.worker.source, s.worker.selection);
        DecidedKeeps(c, s, position, admission, Idle);
        StillBacked(c, s, Decided(s, position, admission, Admitted(position, admission)));
        StillBacked(c, s, Decided(s, position, admission, Idle));
        GateFailedBacked(c, Decided(s, position, admission, Idle), fates);
      }
    }
  }

  lemma ReviewPublishedRecovers(c: Campaign, s: System, position: nat, run: Id, manifest: Run, published: bool, worker: Worker)
    requires Backed(s) && run !in s.store.files.runs && Grows(s.store.files, ReviewPublished(s, position, run, manifest, published, worker).store.files)
    ensures var t := ReviewPublished(s, position, run, manifest, published, worker);
            forall p | SavedAt(t.store.files, p) :: RecoverDecision(t.store.files, p) == Saved
  {
    var t := ReviewPublished(s, position, run, manifest, published, worker);
    assert forall p | SavedAt(s.store.files, p) :: RecoverDecision(s.store.files, p) == Saved;
    hide RecoverDecision, Grows, Backed;
    forall p | SavedAt(t.store.files, p) ensures RecoverDecision(t.store.files, p) == Saved {
      RecoverStable(s.store.files, t.store.files, p);
    }
  }

  lemma ReviewPublishedBacked(c: Campaign, s: System, position: nat, run: Id, manifest: Run, published: bool, worker: Worker)
    requires Inv(c, s) && Backed(s) && run !in s.store.files.runs
    requires s.worker.Admitted? && s.worker.position == position
    requires published ==> position !in s.store.files.reviews
    requires worker.Idle? || worker.position == position
    ensures Backed(ReviewPublished(s, position, run, manifest, published, worker))
  {
    hide Inv, RecoverDecision, Grows;
    ReviewPublishedKeeps(c, s, position, run, manifest, published, Idle);
    ReviewPublishedRecovers(c, s, position, run, manifest, published, worker);
    assert Holds(s.worker, position);
  }

  lemma ReviewBacked(c: Campaign, s: System, review: ReviewResult, fates: Fates)
    requires Inv(c, s) && Backed(s) && Benign(s, ReviewEvent(review, fates))
    ensures Backed(Review(c, s, review, fates))
  {
    hide Backed, FailClosed, Settle, GateLeft, Inv;
    if s.worker.Admitted? {
      var position := s.worker.position;
      GateFailedBacked(c, s, fates);
      SettledBacked(c, s, position, Settlement(Attention, Uncertain), None, fates);
      if review.ReviewedInto? {
        var published := position !in s.store.files.reviews && fates.evidence != Lost;
        ReviewPublishedBacked(c, s, position, review.run, review.manifest, published, Idle);
        ReviewPublishedBacked(c, s, position, review.run, review.manifest, published,
                              Reviewed(position, s.worker.admission, review.run));
        GateFailedBacked(c, ReviewPublished(s, position, review.run, review.manifest, published, Idle), fates);
      }
    }
  }

  predicate SavedRunKept(before: Run, after: Run) {
    RowOutcome(after) == Saved && after.link == before.link
  }

  /** Rewriting a run disturbs no save that is not its own. */
  lemma RewrittenBacked(c: Campaign, s: System, run: Id, value: Run, worker: Worker)
    requires Backed(s) && run in s.store.files.runs && LinkKept(s.store.files.runs[run], value)
    requires forall p | SavedAt(s.store.files, p) :: p in s.store.files.reviews
               && (s.store.files.reviews[p] == run ==> SavedRunKept(s.store.files.runs[run], value))
    requires worker.Idle? || worker == s.worker || (!s.worker.Idle? && worker.position == s.worker.position)
    ensures Backed(RunRewritten(s, run, value, worker))
  {
    var t := RunRewritten(s, run, value, worker);
    forall p | SavedAt(t.store.files, p) ensures RecoverDecision(t.store.files, p) == Saved {
      if s.store.files.reviews[p] != run { RecoverStable(s.store.files, t.store.files, p); }
      else { RecoverRewritten(s.store.files, p, value); }
    }
  }

  lemma RecoverRewritten(files: Files, position: nat, value: Run)
    requires RecoverDecision(files, position) == Saved && RowOutcome(value) == Saved
    requires value.link == files.runs[files.reviews[position]].link
    ensures RecoverDecision(files.(runs := files.runs[files.reviews[position] := value]), position) == Saved
  {
    var after := files.(runs := files.runs[files.reviews[position] := value]);
    assert forall id :: AuthorizationSound(files, id) == AuthorizationSound(after, id);
  }

  /** A run without a link proves nothing, so no save rests on it. */
  lemma UnlinkedRun(s: System, run: Id)
    requires Backed(s) && run in s.store.files.runs && s.store.files.runs[run].link.None?
    ensures forall p | SavedAt(s.store.files, p) ::
              p in s.store.files.reviews && s.store.files.reviews[p] != run
  {
    assert forall p | SavedAt(s.store.files, p) :: RecoverDecision(s.store.files, p) == Saved;
  }

  lemma LinkBacked(c: Campaign, s: System, fates: Fates)
    requires Inv(c, s) && Backed(s)
    ensures Backed(LinkRun(c, s, fates))
  {
    hide Backed, FailClosed, Inv, Grows, RunProvenance, RowOutcome, SavedAt;
    if s.worker.Reviewed? {
      var run := s.worker.run;
      GateFailedBacked(c, s, fates);
      if run in s.store.files.runs && s.store.files.runs[run].link.None? {
        UnlinkedRun(s, run);
        var linked := s.store.files.runs[run].(link := Some(Link(s.worker.position, s.worker.admission)));
        RewrittenBacked(c, s, run, linked, Linked(s.worker.position, s.worker.admission, run));
        RewrittenBacked(c, s, run, linked, Idle);
        GateFailedBacked(c, RunRewritten(s, run, linked, Idle), fates);
      }
    }
  }

  lemma ApplyBacked(c: Campaign, s: System, result: ApplyResult, row: Row, statusClean: bool, fates: Fates)
    requires Inv(c, s) && Backed(s)
    ensures Backed(Apply(c, s, result, row, statusClean, fates))
  {
    hide Backed, FailClosed, Settle, Inv, Grows, RunProvenance, RowOutcome, SavedAt;
    if s.worker.Linked? && s.worker.run in s.store.files.runs {
      var position, run := s.worker.position, s.worker.run;
      var written := s.store.files.runs[run].(statusClean := statusClean, row := row);
      OwnRun(c, s);
      RewrittenBacked(c, s, run, written, Idle);
      CalledKeeps(c, s, row, statusClean, Idle);
      var called := Called(s, row, statusClean, Idle);
      SameBacked(RunRewritten(s, run, written, Idle), called);
      GateFailedBacked(c, called, fates);
      SettledBacked(c, called, position, Settlement(Attention, Uncertain), None, fates);
      if result.ApplyReturned? {
        var worker := Applied(position, s.worker.admission, run, result.exitClean, result.codes);
        RewrittenBacked(c, s, run, written, worker);
        SameBacked(RunRewritten(s, run, written, worker), Called(s, row, statusClean, worker));
      }
    }
  }

  lemma SameBacked(s: System, t: System)
    requires Backed(s) && t.store.files == s.store.files && t.worker == s.worker
    ensures Backed(t)
  {
  }

  /** The run the worker is about to write belongs to no saved position. */
  lemma OwnRun(c: Campaign, s: System)
    requires Inv(c, s) && Backed(s) && s.worker.Linked?
    ensures forall p :: SavedAt(s.store.files, p) ==>
              p in s.store.files.reviews && s.store.files.reviews[p] != s.worker.run
  {
    assert LinkBound(s.store.files, s.worker.position, s.worker.admission, s.worker.run);
    assert Holds(s.worker, s.worker.position);
    forall p | SavedAt(s.store.files, p)
      ensures p in s.store.files.reviews && s.store.files.reviews[p] != s.worker.run
    {
      assert RecoverDecision(s.store.files, p) == Saved;
    }
  }

  lemma FinishBacked(c: Campaign, s: System, fates: Fates)
    requires Inv(c, s) && Backed(s)
    ensures Backed(Finish(c, s, fates))
  {
    if s.worker.Applied? && s.worker.run in s.store.files.runs {
      assert LinkBound(s.store.files, s.worker.position, s.worker.admission, s.worker.run);
      hide Backed, FailClosed, Settle, Inv, GateLeft;
      GateFailedBacked(c, s, fates);
      forall value: Settlement, closing
        | value.outcome == Saved ==> RecoverDecision(s.store.files, s.worker.position) == Saved
        ensures Backed(GateLeft(c, s, Settle(c, s.store, s.worker.position, value, fates), closing, fates))
      {
        SettledBacked(c, s, s.worker.position, value, closing, fates);
      }
    }
  }

  lemma ControlBacked(c: Campaign, s: System, e: Event)
    requires Inv(c, s) && Backed(s)
    requires !StageEvent(e)
    ensures Backed(Act(c, s, e))
  {
    RunningKeeps(c, s, e);
    hide FailClosed, Settle, Release, RecordAnalysis, MarkExamined, Authorize, Pause, CheckpointState, DriveEnd;
    hide Backed, Inv, Grows;
    var t := Act(c, s, e);
    match e {
      case AuthorizeEvent(request, fates) => AuthorizeIsQuiet(c, s.store, request, fates);
      case PauseEvent(request, fates) => PauseIsQuiet(c, s.store, request, fates);
      case FailEvent(reason, fates) => FailClosedShape(c, s.store, reason, fates.closing);
      case ExamineEvent(position, fates) => ExamineIsQuiet(c, s.store, position, fates);
      case SourceEvent(position, load, fates) => AnalysisIsQuiet(c, s.store, position, load, fates);
      case AbandonEvent(position, fates) => SettleIsQuiet(c, s.store, position, Settlement(Attention, RunFailed), fates);
      case ReleaseEvent(position, fates) => ReleaseIsQuiet(c, s.store, position, fates);
      case ManualDrainEvent(fates) =>
        CheckpointShape(c, s.store, s.store.mem.checkpoint.(phase := Preparing, reason := ManualDrain), fates.checkpoint);
      case ActivationStoppedEvent(reason, fates) =>
        CheckpointShape(c, s.store.(mem := s.store.mem.(authorization := None)),
          s.store.mem.checkpoint.(phase := Paused, reason := reason), fates.checkpoint);
      case DriveEndEvent(failure, revoked, fates) => DriveEndKeeps(c, s, failure, revoked, fates);
      case CatchUpEvent(revision, fates) =>
        if revision >= s.store.mem.checkpoint.revision {
          CheckpointShape(c, s.store, s.store.mem.checkpoint.(revision := revision), fates.checkpoint);
        }
      case _ =>
    }
    DriveEndWorker(c, s, e);
    if t.worker == s.worker {
      AttentionBacked(c, s, t);
    }
  }

  lemma DriveEndWorker(c: Campaign, s: System, e: Event)
    requires !StageEvent(e)
    ensures Act(c, s, e).worker == s.worker
  {
  }

  lemma AttentionBacked(c: Campaign, s: System, t: System)
    requires Backed(s) && Grows(s.store.files, t.store.files) && t.worker == s.worker
    requires t.store.files.runs == s.store.files.runs && t.store.files.reviews == s.store.files.reviews
    requires t.store.files.orphans == s.store.files.orphans
    requires forall p :: SavedAt(t.store.files, p) ==> SavedAt(s.store.files, p)
    ensures Backed(t)
  {
    QuietBacked(c, s, t);
  }

  lemma OpenBacked(c: Campaign, s: System, entries: set<nat>, blind: set<nat>, fate: Fate)
    requires Inv(c, s) && Backed(s) && (!s.up ==> s.worker.Idle?)
    ensures Backed(Open(c, s, entries, blind, fate))
  {
    if !s.up {
      ReconciledBacked(c, s, entries, blind);
      ReconciledBacked(c, s, s.store.files.examined, blind);
      hide Backed, Inv, Reconciled;
      var t := Open(c, s, entries, blind, fate);
      if t.store.files == Reconciled(s.store.files, entries, blind) {
        SameBacked(WithStore(s, s.store.(files := Reconciled(s.store.files, entries, blind))), t);
      } else {
        SameBacked(WithStore(s, s.store.(files := Reconciled(s.store.files, s.store.files.examined, blind))), t);
      }
    }
  }

  lemma ReconciledBacked(c: Campaign, s: System, entries: set<nat>, blind: set<nat>)
    requires Inv(c, s) && Backed(s) && s.worker.Idle?
    ensures Backed(WithStore(s, s.store.(files := Reconciled(s.store.files, entries, blind))))
  {
    ReconciledKeeps(c, s, entries, blind);
    QuietBacked(c, s, WithStore(s, s.store.(files := Reconciled(s.store.files, entries, blind))));
  }

  lemma CrashBacked(c: Campaign, s: System, orphan: Option<nat>)
    requires Backed(s) && Benign(s, CrashEvent(orphan))
    ensures Backed(Step(c, s, CrashEvent(orphan)))
  {
    var t := Step(c, s, CrashEvent(orphan));
    hide Grows, RecoverDecision;
    assert Grows(s.store.files, t.store.files) by { CrashGrows(c, s, orphan); }
    forall p | SavedAt(s.store.files, p) ensures RecoverDecision(t.store.files, p) == Saved {
      RecoverStable(s.store.files, t.store.files, p);
    }
  }

  lemma CrashGrows(c: Campaign, s: System, orphan: Option<nat>)
    ensures Grows(s.store.files, Step(c, s, CrashEvent(orphan)).store.files)
  {
  }

  lemma RollbackBacked(c: Campaign, s: System, run: Id, row: Row, statusClean: bool)
    requires Backed(s) && Benign(s, ManualRollbackEvent(run, row, statusClean))
    ensures Backed(Step(c, s, ManualRollbackEvent(run, row, statusClean)))
  {
    SavedRowOutcome(s);
    hide Backed, RecoverDecision, SavedAt, RowOutcome;
    if run in s.store.files.runs {
      var value := s.store.files.runs[run].(row := row, statusClean := statusClean);
      RewrittenBacked(c, s, run, value, s.worker);
      SameBacked(RunRewritten(s, run, value, s.worker), Step(c, s, ManualRollbackEvent(run, row, statusClean)));
    } else {
      SameBacked(s, Step(c, s, ManualRollbackEvent(run, row, statusClean)));
    }
  }

  lemma SavedRowOutcome(s: System)
    requires Backed(s)
    ensures forall p | SavedAt(s.store.files, p) ::
              p in s.store.files.reviews && s.store.files.reviews[p] in s.store.files.runs
              && RowOutcome(s.store.files.runs[s.store.files.reviews[p]]) == Saved
  {
    assert forall p | SavedAt(s.store.files, p) :: RecoverDecision(s.store.files, p) == Saved;
  }

  ghost predicate Standing(c: Campaign, s: System) {
    Inv(c, s) && Backed(s) && (!s.up ==> s.worker.Idle?)
  }

  lemma StepBacked(c: Campaign, s: System, e: Event)
    requires Standing(c, s) && Benign(s, e)
    ensures Standing(c, Step(c, s, e))
  {
    hide Inv, Backed, Grows, Begin, Analyse, ScreenRow, ReadPhoto, Admit, Review, LinkRun, Apply, Finish, Open,
      ShowStatus;
    StepKeeps(c, s, e);
    StillUp(c, s, e);
    match e
    case ManualRollbackEvent(run, row, statusClean) => RollbackBacked(c, s, run, row, statusClean);
    case CrashEvent(orphan) => CrashBacked(c, s, orphan);
    case StatusEvent => ShownBacked(c, s);
    case OpenEvent(entries, blind, fate) => OpenBacked(c, s, entries, blind, fate);
    case BeginEvent(position, fates) => BeginBacked(c, s, position, fates);
    case AnalyseEvent(load, fates) => AnalyseBacked(c, s, load, fates);
    case ScreenEvent(verdict, fates) => ScreenAndReadBacked(c, s, verdict, Denied, fates);
    case ReadEvent(read, fates) => ScreenAndReadBacked(c, s, BelowThreshold, read, fates);
    case AdmitEvent(fates) => AdmitBacked(c, s, fates);
    case ReviewEvent(review, fates) => ReviewBacked(c, s, review, fates);
    case LinkEvent(fates) => LinkBacked(c, s, fates);
    case ApplyEvent(result, row, statusClean, fates) => ApplyBacked(c, s, result, row, statusClean, fates);
    case FinishEvent(fates) => FinishBacked(c, s, fates);
    case _ => ControlBacked(c, s, e);
  }

  lemma ShownBacked(c: Campaign, s: System)
    requires Backed(s) && (!s.up ==> s.worker.Idle?)
    ensures Backed(ShowStatus(c, s))
  {
    hide StatusReadable, RecoverDecision;
    SameBacked(s, ShowStatus(c, s));
  }

  lemma StillUp(c: Campaign, s: System, e: Event)
    requires !s.up ==> s.worker.Idle?
    ensures !Step(c, s, e).up ==> Step(c, s, e).worker.Idle?
  {
    hide FailClosed, Settle, Release, RecordAnalysis, MarkExamined, Authorize, Pause, CheckpointState, GateLeft;
    hide Reconciled, RunProvenance, RecoverDecision, Loadable;
    ActUp(c, s, e);
  }

  /** A run whose every step the world takes benignly. */
  ghost predicate BenignRun(c: Campaign, s: System, events: seq<Event>)
    decreases |events|
  {
    events == [] || (Benign(s, events[0]) && BenignRun(c, Step(c, s, events[0]), events[1..]))
  }

  lemma {:induction false} BenignRunStands(c: Campaign, s: System, events: seq<Event>)
    requires Standing(c, s) && BenignRun(c, s, events)
    ensures Standing(c, After(c, s, events))
    decreases |events|
  {
    hide Standing, Step, Benign;
    if events != [] {
      StepBacked(c, s, events[0]);
      BenignRunStands(c, Step(c, s, events[0]), events[1..]);
    }
  }

  /** After any benign history, torn writes and crashes included, every save on disk is proven, and `load`
      refuses nothing but an exhausted revision. Whether a helper gets as far as `load` is another
      matter: it reads the status first. */
  lemma AlwaysLoadable(c: Campaign, events: seq<Event>)
    requires BenignRun(c, Created(c), events)
    ensures var s := After(c, Created(c), events);
            && EvidenceSound(s.store.files) && s.store.saved.Some?
            && (Loadable(c, s.store) <==> s.store.saved.value.revision < MAX_COUNTER)
  {
    CreatedIsSafe(c);
    BenignRunStands(c, Created(c), events);
    RunKeeps(c, Created(c), events);
  }

  // ------------------------------------------------------------ what a manual rollback can spoil

  /** What a verified rollback, or none, leaves in a row that was applied. */
  predicate RowStillSaved(row: Row) {
    && (row.rollback == RollbackNotRun || RolledBack(row)) && CaptionFinal(row)
    && row.apply == ApplyVerified && row.applyReceipt
  }

  /** A saved position was applied through this run. */
  ghost predicate RunOfSave(files: Files, run: Id) {
    exists p :: SavedAt(files, p) && p in files.reviews && files.reviews[p] == run
  }

  /** A rollback by hand leaves the campaign loadable exactly when it does not touch the run of a
      saved position, or leaves that run with a clean status and a verified rollback, or none, of a
      verified apply. */
  lemma RollbackExactlyHarmless(c: Campaign, s: System, run: Id, row: Row, statusClean: bool)
    requires Standing(c, s) && run in s.store.files.runs
    ensures Loadable(c, Step(c, s, ManualRollbackEvent(run, row, statusClean)).store)
            <==> Loadable(c, s.store) && (RunOfSave(s.store.files, run) ==> statusClean && RowStillSaved(row))
  {
    var files, after := s.store.files, Step(c, s, ManualRollbackEvent(run, row, statusClean)).store.files;
    var value := files.runs[run].(row := row, statusClean := statusClean);
    assert after == files.(runs := files.runs[run := value]);
    SavedRowOutcome(s);
    forall p | SavedAt(files, p)
      ensures RecoverDecision(after, p) == Saved <==> files.reviews[p] != run || (statusClean && RowStillSaved(row))
    {
      RollbackJudged(files, after, run, row, statusClean, p);
    }
  }

  lemma RollbackJudged(files: Files, after: Files, run: Id, row: Row, statusClean: bool, position: nat)
    requires run in files.runs
    requires after == files.(runs := files.runs[run := files.runs[run].(row := row, statusClean := statusClean)])
    requires RecoverDecision(files, position) == Saved
    ensures position in files.reviews
    ensures RecoverDecision(after, position) == Saved
            <==> files.reviews[position] != run || (statusClean && RowStillSaved(row))
  {
    assert forall id :: AuthorizationSound(files, id) == AuthorizationSound(after, id);
  }
}
