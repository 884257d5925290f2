/** Exactness over whole runs, reopening after any crash, and what keeps a campaign directory from
    being reopened or its counters from being exact. */
module CampaignRecovery {
  import opened Wrappers
  import opened CampaignEvidence
  import opened CampaignStore
  import opened CampaignRuns
  import opened CampaignMutations
  import opened CampaignSafety
  import opened CampaignAdmission
  import opened CampaignCounters

  // -------------------------------------------------- the revision never goes back

  /** Whatever a stage ends in, it does not lower the revision. */
  lemma EndsKeepRevision(c: Campaign, fates: Fates)
    ensures forall u: System, result: (Store, Reply), andThen ::
              GateLeft(c, u, result, andThen, fates).store.mem.checkpoint.revision >= result.0.mem.checkpoint.revision
    ensures forall store: Store ::
              FailClosed(c, store, Storage, fates.last).mem.checkpoint.revision >= store.mem.checkpoint.revision
    ensures forall store: Store, p, value ::
              Settle(c, store, p, value, fates).0.mem.checkpoint.revision >= store.mem.checkpoint.revision
    ensures forall store: Store, p ::
              Release(c, store, p, fates).0.mem.checkpoint.revision >= store.mem.checkpoint.revision
  {
    hide FailClosed, Settle, Release, GateLeft;
    forall u: System, result: (Store, Reply), andThen
      ensures GateLeft(c, u, result, andThen, fates).store.mem.checkpoint.revision >= result.0.mem.checkpoint.revision
    {
      GateLeftRevision(c, u, result, andThen, fates);
    }
    forall store: Store
      ensures FailClosed(c, store, Storage, fates.last).mem.checkpoint.revision >= store.mem.checkpoint.revision
    {
      FailClosedShape(c, store, Storage, fates.last);
    }
    forall store: Store, p, value
      ensures Settle(c, store, p, value, fates).0.mem.checkpoint.revision >= store.mem.checkpoint.revision
    {
      SettleIsQuiet(c, store, p, value, fates);
    }
    forall store: Store, p
      ensures Release(c, store, p, fates).0.mem.checkpoint.revision >= store.mem.checkpoint.revision
    {
      ReleaseIsQuiet(c, store, p, fates);
    }
  }

  lemma EarlyStageRevision(c: Campaign, s: System, e: Event)
    requires e.BeginEvent? || e.AnalyseEvent? || e.ScreenEvent? || e.ReadEvent?
    ensures Act(c, s, e).store.mem.checkpoint.revision >= s.store.mem.checkpoint.revision
  {
    hide FailClosed, Settle, Release, RecordAnalysis, GateLeft, RunProvenance, RecoverDecision, RowOutcome, ReadSettlement;
    EndsKeepRevision(c, e.fates);
    if e.AnalyseEvent? && s.worker.Analysing? {
      AnalysisIsQuiet(c, s.store, s.worker.position, e.load, e.fates);
    }
  }

  lemma StageRevision(c: Campaign, s: System, e: Event)
    requires StageEvent(e)
    ensures Act(c, s, e).store.mem.checkpoint.revision >= s.store.mem.checkpoint.revision
  {
    hide FailClosed, Settle, Release, RecordAnalysis, GateLeft, RunProvenance, RecoverDecision, RowOutcome, ReadSettlement;
    hide AuthorizationSound, Begin, Analyse, ScreenRow, ReadPhoto;
    if e.BeginEvent? || e.AnalyseEvent? || e.ScreenEvent? || e.ReadEvent? {
      EarlyStageRevision(c, s, e);
    } else {
      EndsKeepRevision(c, e.fates);
    }
  }

  lemma ControlRevision(c: Campaign, s: System, e: Event)
    requires !StageEvent(e)
    ensures Act(c, s, e).store.mem.checkpoint.revision >= s.store.mem.checkpoint.revision
  {
    hide FailClosed, Settle, Release, RecordAnalysis, MarkExamined, Authorize, Pause, CheckpointState;
    match e
    case AuthorizeEvent(request, fates) => AuthorizeIsQuiet(c, s.store, request, fates);
    case PauseEvent(request, fates) => PauseIsQuiet(c, s.store, request, fates);
    case FailEvent(reason, fates) => FailClosedShape(c, s.store, reason, fates.closing);
    case ExamineEvent(position, fates) => ExamineIsQuiet(c, s.store, position, fates);
    case SourceEvent(position, load, fates) => AnalysisIsQuiet(c, s.store, position, load, fates);
    case AbandonEvent(position, fates) => SettleIsQuiet(c, s.store, position, Settlement(Attention, RunFailed), fates);
    case ReleaseEvent(position, fates) => ReleaseIsQuiet(c, s.store, position, fates);
    case ManualDrainEvent(fates) =>
      CheckpointShape(c, s.store, s.store.mem.checkpoint.(phase := Preparing, reason := ManualDrain), fates.checkpoint);
    case ActivationStoppedEvent(reason, fates) =>
      CheckpointShape(c, s.store.(mem := s.store.mem.(authorization := None)),
        s.store.mem.checkpoint.(phase := Paused, reason := reason), fates.checkpoint);
    case DriveEndEvent(failure, revoked, fates) =>
      var closed := s.store.(mem := s.store.mem.(authorization := None));
      forall changed: Checkpoint | changed.revision == s.store.mem.checkpoint.revision
        ensures Announced(c, WithStore(s, closed), changed, fates).store.mem.checkpoint.revision >= changed.revision
      {
        CheckpointShape(c, closed, changed, fates.checkpoint);
        FailClosedShape(c, CheckpointState(c, closed, changed, fates.checkpoint).0, Storage, fates.closing);
      }
    case CatchUpEvent(revision, fates) =>
      if revision >= s.store.mem.checkpoint.revision {
        CheckpointShape(c, s.store, s.store.mem.checkpoint.(revision := revision), fates.checkpoint);
      }
    case _ =>
  }

  lemma RevisionGrows(c: Campaign, s: System, e: Event)
    ensures !e.OpenEvent? && !e.StatusEvent? ==>
              Step(c, s, e).store.mem.checkpoint.revision >= s.store.mem.checkpoint.revision
    ensures !s.up && (Step(c, s, e).up || (e.StatusEvent? && StatusReadable(c, s.store))) ==>
              && OpeningCheckpoint(c, s.store).Some?
              && Step(c, s, e).store.mem.checkpoint.revision == OpeningCheckpoint(c, s.store).value.revision + 1
  {
    hide Act, Reconciled;
    if e.OpenEvent? || e.StatusEvent? {
    } else if StageEvent(e) {
      ActUp(c, s, e);
      StageRevision(c, s, e);
    } else {
      ActUp(c, s, e);
      ControlRevision(c, s, e);
    }
  }

  lemma {:induction false} RevisionGrowsOver(c: Campaign, s: System, events: seq<Event>)
    requires s.up && forall e :: e in events ==> FaultFree(e)
    ensures After(c, s, events).store.mem.checkpoint.revision >= s.store.mem.checkpoint.revision
    decreases |events|
  {
    hide Step;
    if events != [] {
      assert events[0] in events;
      StaysUp(c, s, events[0]);
      RevisionGrowsOver(c, Step(c, s, events[0]), events[1..]);
    }
  }

  // ----------------------------------------------------------- exact over whole runs

  lemma ActUp(c: Campaign, s: System, e: Event)
    ensures Act(c, s, e).up == s.up && Act(c, s, e).shown == s.shown
  {
  }

  lemma StaysUp(c: Campaign, s: System, e: Event)
    requires s.up && FaultFree(e)
    ensures Step(c, s, e).up && (e.StatusEvent? ==> Step(c, s, e) == s)
    ensures !e.StatusEvent? ==> Step(c, s, e).store.mem.checkpoint.revision >= s.store.mem.checkpoint.revision
  {
    hide Act;
    ActUp(c, s, e);
    RevisionGrows(c, s, e);
  }

  lemma ExactStep(c: Campaign, s: System, e: Event)
    requires ExactUp(c, s) && Inv(c, s) && FaultFree(e) && Headroom(Step(c, s, e).store)
    ensures ExactUp(c, Step(c, s, e)) && Inv(c, Step(c, s, e))
  {
    StepKeeps(c, s, e);
    ActUp(c, s, e);
    hide Act, Bound;
    if e.StatusEvent? {
    } else if e.ManualRollbackEvent? {
      ExactSameCounts(c, s.store, Step(c, s, e).store.files);
    } else if StageEvent(e) {
      ExactStage(c, s, e);
    } else {
      ExactControl(c, s, e);
    }
  }

  lemma {:induction false} ExactRun(c: Campaign, s: System, events: seq<Event>)
    requires ExactUp(c, s) && Inv(c, s) && forall e :: e in events ==> FaultFree(e)
    requires Headroom(After(c, s, events).store)
    ensures ExactUp(c, After(c, s, events)) && Inv(c, After(c, s, events))
    decreases |events|
  {
    hide Step, Exact, Bound, Inv;
    if events != [] {
      var t := Step(c, s, events[0]);
      assert events[0] in events;
      StaysUp(c, s, events[0]);
      forall e | e in events[1..] ensures FaultFree(e) { assert e in events; }
      RevisionGrowsOver(c, t, events[1..]);
      ExactStep(c, s, events[0]);
      ExactRun(c, t, events[1..]);
    }
  }

  /** A reopening that completes yields counters equal to the evidence, whatever the checkpoint
      on disk said before. What its receipts show, a position keeps exactly when they could be read
      or show no more than that it needs attention. */
  lemma ReopenedIsExact(c: Campaign, s: System, blind: set<nat>)
    requires Inv(c, s) && !s.up && Loadable(c, s.store)
    ensures var t := Step(c, s, OpenEvent(s.store.files.examined, blind, Done));
            && ExactUp(c, t) && Inv(c, t) && Closed(t)
            && Undecided(t.store.files) == {}
            && forall p :: p in s.store.files.decisions && p !in s.store.files.outcomes ==>
                 && t.store.files.outcomes[p]
                    == (if p in blind then Settlement(Attention, Uncertain) else RecoveredSettlement(s.store.files, p))
                 && (t.store.files.outcomes[p] == RecoveredSettlement(s.store.files, p)
                     <==> p !in blind || RecoverDecision(s.store.files, p) == Attention)
  {
    hide Step, Exact, Reloaded, RecoverDecision, Loadable, Grows, WorkerBound, AppliedOnce, AuthorizationKnown;
    StepKeeps(c, s, OpenEvent(s.store.files.examined, blind, Done));
    OpeningReloads(c, s, blind);
    ReloadedIsExact(c, s.store, blind);
    forall p | p in Undecided(s.store.files) { ReloadedSettles(c, s.store, blind, p); }
  }

  lemma OpeningReloads(c: Campaign, s: System, blind: set<nat>)
    requires !s.up && Loadable(c, s.store)
    ensures var t := Step(c, s, OpenEvent(s.store.files.examined, blind, Done));
            t.up && t.store == Reloaded(c, s.store, blind) && Closed(t)
    ensures Reloaded(c, s.store, blind).files == Reconciled(s.store.files, s.store.files.examined, blind)
  {
    hide Reconciled, Loadable, RebuiltCheckpoint;
  }

  lemma ReloadedIsExact(c: Campaign, s: Store, blind: set<nat>)
    requires Bound(c, s.files) && Loadable(c, s)
    ensures Exact(c, Reloaded(c, s, blind)) && Undecided(Reloaded(c, s, blind).files) == {}
  {
    var t := Reloaded(c, s, blind);
    hide RecoverDecision, ReadSettlement;
    forall o: Outcome ensures t.mem.checkpoint.Count(o) == |SettledAs(t.files.outcomes, o)| {
      match o case Saved => case NoChange => case Attention =>
    }
  }

  lemma ReloadedSettles(c: Campaign, s: Store, blind: set<nat>, position: nat)
    requires Loadable(c, s) && position in Undecided(s.files)
    ensures position in Reloaded(c, s, blind).files.outcomes
    ensures Reloaded(c, s, blind).files.outcomes[position]
            == if position in blind then Settlement(Attention, Uncertain) else RecoveredSettlement(s.files, position)
  {
    hide RecoverDecision;
  }

  /** From any state any history of crashes can leave behind: reopen, then run without a failed
      write. Every snapshot shown is one the app accepts and counts the evidence on disk. */
  lemma ShownSnapshotsAreExact(c: Campaign, history: seq<Event>, blind: set<nat>, later: seq<Event>)
    requires c.total <= MAX_COUNTER
    requires forall e :: e in later ==> FaultFree(e)
    ensures var down := After(c, Created(c), history);
            var shown := After(c, Step(c, down, OpenEvent(down.store.files.examined, blind, Done)), later).store;
            !down.up && Loadable(c, down.store) && Headroom(shown) ==>
              Exact(c, shown) && SnapshotValid(c, shown.mem.checkpoint)
  {
    var down := After(c, Created(c), history);
    CreatedIsSafe(c);
    RunKeeps(c, Created(c), history);
    hide Step, Inv, Loadable;
    var open := Step(c, down, OpenEvent(down.store.files.examined, blind, Done));
    if !down.up && Loadable(c, down.store) && Headroom(After(c, open, later).store) {
      ReopenedIsExact(c, down, blind);
      ExactRun(c, open, later);
      ExactIsValid(c, After(c, open, later).store);
    }
  }

  /** The same for a campaign that was never closed. */
  lemma FreshCampaignIsExact(c: Campaign, events: seq<Event>)
    requires c.total <= MAX_COUNTER
    requires forall e :: e in events ==> FaultFree(e)
    requires Headroom(After(c, Created(c), events).store)
    ensures SnapshotValid(c, After(c, Created(c), events).store.mem.checkpoint)
  {
    CreatedIsSafe(c);
    var s := Created(c);
    assert forall o: Outcome :: SettledAs(s.store.files.outcomes, o) == {};
    assert ExactUp(c, s);
    ExactRun(c, s, events);
    ExactIsValid(c, After(c, s, events).store);
  }

  // --------------------------------------------------------------- what can be reopened

  /** A reopening ends with the helper up exactly when the evidence is sound, a checkpoint can be
      started from, and every write goes through. */
  lemma ReopensExactlyWhenLoadable(c: Campaign, s: System, entries: set<nat>, blind: set<nat>, fate: Fate)
    requires !s.up
    ensures Step(c, s, OpenEvent(entries, blind, fate)).up <==> Loadable(c, s.store) && fate == Done
  {
  }

  lemma ReconcilingKeepsReceipts(files: Files, entries: set<nat>, blind: set<nat>, position: nat)
    ensures RecoverDecision(Reconciled(files, entries, blind), position) == RecoverDecision(files, position)
  {
    var after := Reconciled(files, entries, blind);
    assert forall id :: AuthorizationSound(files, id) == AuthorizationSound(after, id);
  }

  /** An interrupted reopening loses nothing a later one needs: the campaign stays loadable. The later
      one settles everything alike exactly when the interrupted one could read the receipts of
      every position it settled, or they show no more than that it needs attention. */
  lemma InterruptedReopeningIsHarmless(c: Campaign, s: System, entries: set<nat>, blind: set<nat>)
    requires Inv(c, s) && !s.up && Loadable(c, s.store)
    ensures Loadable(c, Step(c, s, OpenEvent(entries, blind, Lost)).store)
    ensures var files := s.store.files;
            var later := Step(c, s, OpenEvent(entries, blind, Lost)).store.files;
            Reconciled(later, later.examined, {}) == Reconciled(files, files.examined, {})
            <==> forall p | p in Undecided(files) * entries * blind :: RecoverDecision(files, p) == Attention
  {
    var files := s.store.files;
    var partial := Reconciled(files, entries, blind);
    assert Step(c, s, OpenEvent(entries, blind, Lost)).store.files == partial;
    forall p ensures RecoverDecision(partial, p) == RecoverDecision(files, p) {
      ReconcilingKeepsReceipts(files, entries, blind, p);
    }
    forall p | p in partial.outcomes && partial.outcomes[p].outcome == Saved
      ensures RecoverDecision(partial, p) == Saved
    {
    }
    hide RecoverDecision, Step, Inv, Reconciled;
    ReconciledTwice(files, entries, blind);
  }

  lemma ReconciledTwice(files: Files, entries: set<nat>, blind: set<nat>)
    requires forall p :: RecoverDecision(Reconciled(files, entries, blind), p) == RecoverDecision(files, p)
    ensures var partial := Reconciled(files, entries, blind);
            && partial.(outcomes := files.outcomes) == files
            && (Reconciled(partial, partial.examined, {}) == Reconciled(files, files.examined, {})
                <==> forall p | p in Undecided(files) * entries * blind :: RecoverDecision(files, p) == Attention)
  {
    hide RecoverDecision;
    var partial := Reconciled(files, entries, blind);
    var full, later := Reconciled(files, files.examined, {}), Reconciled(partial, partial.examined, {});
    assert full.outcomes.Keys == later.outcomes.Keys;
    forall p | p in full.outcomes
      ensures later.outcomes[p] == full.outcomes[p]
              <==> !(p in Undecided(files) * entries * blind) || RecoverDecision(files, p) == Attention
    {
    }
    if forall p | p in Undecided(files) * entries * blind :: RecoverDecision(files, p) == Attention {
      assert full.outcomes == later.outcomes;
    } else {
      var p :| p in Undecided(files) * entries * blind && RecoverDecision(files, p) != Attention;
      assert p in full.outcomes;
    }
  }

  /** A save that cannot be read while the campaign is reopened is settled as needing attention, and
      no later reopening takes that back, although its receipts still prove it. */
  lemma UnreadSaveStaysLost(c: Campaign, s: System, blind: set<nat>, position: nat, later: seq<Event>)
    requires Inv(c, s) && !s.up && Loadable(c, s.store)
    requires position in Undecided(s.store.files) && RecoverDecision(s.store.files, position) == Saved
    ensures var t := Step(c, s, OpenEvent(s.store.files.examined, blind, Done));
            && t.up && RecoverDecision(t.store.files, position) == Saved
            && var end := After(c, t, later).store.files;
               position in end.outcomes
               && (end.outcomes[position].outcome == Saved <==> position !in blind)
  {
    hide Step, RecoverDecision, RecoveredSettlement, Inv, Reconciled, Reloaded, Loadable, Undecided;
    var t := Step(c, s, OpenEvent(s.store.files.examined, blind, Done));
    StepKeeps(c, s, OpenEvent(s.store.files.examined, blind, Done));
    OpeningReloads(c, s, blind);
    ReloadedSettles(c, s.store, blind, position);
    ReconcilingKeepsReceipts(s.store.files, s.store.files.examined, blind, position);
    ReadBack(s.store.files, position);
    RunKeeps(c, t, later);
  }

  lemma ReadBack(files: Files, position: nat)
    ensures RecoveredSettlement(files, position).outcome == RecoverDecision(files, position)
  {
  }

  /** A crash that leaves a temporary file in a position directory keeps the campaign from being
      reopened exactly when the position's admission record was not published yet. */
  lemma CrashBlocksExactlyUnexamined(c: Campaign, s: System, position: nat)
    ensures Loadable(c, Step(c, s, CrashEvent(Some(position))).store)
            <==> Loadable(c, s.store) && position in s.store.files.examined
  {
    hide RecoverDecision;
    var files, after := s.store.files, Step(c, s, CrashEvent(Some(position))).store.files;
    assert after == files.(orphans := files.orphans + {position});
    forall p ensures RecoverDecision(after, p) == RecoverDecision(files, p) { OrphanProvesNothing(files, after, p); }
    assert position in after.orphans && files.orphans <= after.orphans;
  }

  lemma OrphanProvesNothing(files: Files, after: Files, position: nat)
    requires after == files.(orphans := after.orphans)
    ensures RecoverDecision(after, position) == RecoverDecision(files, position)
  {
    assert forall id :: AuthorizationSound(files, id) == AuthorizationSound(after, id);
  }

  /** So a helper that dies while it examines its first photo leaves a campaign that no later run opens. */
  lemma OrphanBlocksReopening(c: Campaign, start: Control, later: seq<Event>)
    requires ControlFieldsMatch(c, start) && start.command == StartCampaign
    ensures var s := After(c, Created(c), [AuthorizeEvent(start, ALL_DONE), CrashEvent(Some(0))]);
            Inv(c, s) && !After(c, s, later).up
    ensures Loadable(c, After(c, Created(c), [AuthorizeEvent(start, ALL_DONE), CrashEvent(None)]).store)
  {
    CreatedIsSafe(c);
    var s := Step(c, Created(c), AuthorizeEvent(start, ALL_DONE));
    LagStart(c, start);
    var t := Step(c, s, CrashEvent(Some(0)));
    assert 0 in t.store.files.orphans && 0 !in t.store.files.examined && !t.up;
    assert s.store.files.orphans == {};
    assert Loadable(c, Step(c, s, CrashEvent(None)).store);
    hide Step, Inv;
    AfterPair(c, Created(c), AuthorizeEvent(start, ALL_DONE), CrashEvent(Some(0)));
    AfterPair(c, Created(c), AuthorizeEvent(start, ALL_DONE), CrashEvent(None));
    RunKeeps(c, Created(c), [AuthorizeEvent(start, ALL_DONE), CrashEvent(Some(0))]);
    BlockedForGood(c, t, 0, later);
  }

  lemma {:induction false} BlockedForGood(c: Campaign, s: System, position: nat, events: seq<Event>)
    requires !s.up && position in s.store.files.orphans && position !in s.store.files.examined
    ensures !After(c, s, events).up
    decreases |events|
  {
    hide Step;
    if events != [] {
      StaysBlocked(c, s, position, events[0]);
      BlockedForGood(c, Step(c, s, events[0]), position, events[1..]);
    }
  }

  lemma StaysBlocked(c: Campaign, s: System, position: nat, e: Event)
    requires !s.up && position in s.store.files.orphans && position !in s.store.files.examined
    ensures var t := Step(c, s, e);
            !t.up && position in t.store.files.orphans && position !in t.store.files.examined
  {
    hide Pause, FailClosed, CheckpointState, Reconciled, Reloaded, RecoverDecision;
    if e.PauseEvent? {
      PauseIsQuiet(c, s.store, e.request, e.fates);
    } else if e.FailEvent? {
      FailClosedShape(c, s.store, e.reason, e.fates.closing);
    } else if e.CatchUpEvent? && e.revision >= s.store.mem.checkpoint.revision {
      CheckpointShape(c, s.store, s.store.mem.checkpoint.(revision := e.revision), e.fates.checkpoint);
    } else if e.OpenEvent? {
      ReconciledSame(s.store.files, e.entries, e.blind);
    }
  }

  lemma ReconciledSame(files: Files, entries: set<nat>, blind: set<nat>)
    ensures Reconciled(files, entries, blind).orphans == files.orphans
    ensures Reconciled(files, entries, blind).examined == files.examined
  {
  }

  /** The counters do lag once an examination was torn at its directory sync: the running helper never
      counts it, and an analysis then overtakes it, in memory and on disk. */
  lemma TornWriteMakesCountersLag(c: Campaign, start: Control, resume: Control, source: Source)
    requires c.total > 0 && c.photoCount > 0
    requires ControlFieldsMatch(c, start) && ControlFieldsMatch(c, resume)
    requires start.command == StartCampaign && resume.command == ResumeCampaign && start.decision != resume.decision
    ensures var torn := ALL_DONE.(evidence := Torn);
            var s := After(c, Created(c), [AuthorizeEvent(start, ALL_DONE), ExamineEvent(0, torn),
                       AuthorizeEvent(resume, ALL_DONE), ExamineEvent(0, ALL_DONE), SourceEvent(0, Loaded(source), ALL_DONE)]);
            && s.up && s.store.mem.checkpoint.analyzed == 1 && s.store.mem.checkpoint.examined == 0
            && |s.store.files.examined| == 1 && !SnapshotValid(c, s.store.mem.checkpoint)
            && s.store.saved == Some(s.store.mem.checkpoint) && s.store.mem.checkpoint.reason == NoReason
            && s.store.mem.checkpoint.revision == 5 && EvidenceSound(s.store.files)
  {
    var torn := ALL_DONE.(evidence := Torn);
    var e1, e2, e3 := AuthorizeEvent(start, ALL_DONE), ExamineEvent(0, torn), AuthorizeEvent(resume, ALL_DONE);
    var e4, e5 := ExamineEvent(0, ALL_DONE), SourceEvent(0, Loaded(source), ALL_DONE);
    LagStart(c, start);
    LagResume(c, Step(c, Step(c, Created(c), e1), e2), resume);
    LagAnalyse(c, Step(c, Step(c, Step(c, Created(c), e1), e2), e3), source);
    hide Step;
    AfterFive(c, Created(c), e1, e2, e3, e4, e5);
  }

  /** The running helper after `revision` checkpoints, with `examined` on disk and counters at zero. */
  predicate Lagging(s: System, revision: nat, examined: set<nat>, used: set<Id>) {
    && s.up && s.store.files.examined == examined && s.store.files.analyses == map[] && s.store.files.outcomes == map[]
    && s.store.files.controls.Keys == used && s.store.files.authorizations.Keys == used
    && s.store.mem.inFlight == {} && s.store.mem.checkpoint.revision == revision && s.store.files.orphans == {}
    && s.store.mem.checkpoint.examined == 0 && s.store.mem.checkpoint.analyzed == 0
  }

  lemma LagStart(c: Campaign, start: Control)
    requires ControlFieldsMatch(c, start) && start.command == StartCampaign
    ensures Lagging(Step(c, Created(c), AuthorizeEvent(start, ALL_DONE)), 1, {}, {start.decision})
  {
  }

  lemma LagResume(c: Campaign, s: System, resume: Control)
    requires ControlFieldsMatch(c, resume) && resume.command == ResumeCampaign
    requires Lagging(s, 2, {0}, s.store.files.controls.Keys) && resume.decision !in s.store.files.controls
    ensures Lagging(Step(c, s, AuthorizeEvent(resume, ALL_DONE)), 3, {0}, s.store.files.controls.Keys + {resume.decision})
    ensures Step(c, s, AuthorizeEvent(resume, ALL_DONE)).store.mem.checkpoint.reason == NoReason
  {
  }

  lemma LagAnalyse(c: Campaign, s: System, source: Source)
    requires c.total > 0 && c.photoCount > 0 && exists used :: Lagging(s, 3, {0}, used)
    ensures var t := Step(c, Step(c, s, ExamineEvent(0, ALL_DONE)), SourceEvent(0, Loaded(source), ALL_DONE));
            && t.up && t.store.files.examined == {0}
            && t.store.mem.checkpoint.analyzed == 1 && t.store.mem.checkpoint.examined == 0
            && t.store.saved == Some(t.store.mem.checkpoint) && t.store.mem.checkpoint.reason == s.store.mem.checkpoint.reason
            && t.store.mem.checkpoint.revision == 5 && EvidenceSound(t.store.files)
  {
    var t := Step(c, s, ExamineEvent(0, ALL_DONE));
    assert t.up && t.store.files.examined == {0} && t.store.files.analyses == map[];
    assert t.store.mem.checkpoint.revision == 4;
    assert t.store.mem.checkpoint.examined == 0 && t.store.mem.checkpoint.analyzed == 0;
  }

  lemma AfterFive(c: Campaign, s: System, e1: Event, e2: Event, e3: Event, e4: Event, e5: Event)
    ensures After(c, s, [e1, e2, e3, e4, e5]) == Step(c, Step(c, Step(c, Step(c, Step(c, s, e1), e2), e3), e4), e5)
  {
    hide Step;
    AfterPair(c, s, e1, e2);
    AfterConcat(c, s, [e1, e2], [e3, e4, e5]);
    var t := Step(c, Step(c, s, e1), e2);
    AfterPair(c, t, e3, e4);
    AfterConcat(c, t, [e3, e4], [e5]);
    assert [e1, e2] + [e3, e4, e5] == [e1, e2, e3, e4, e5] && [e3, e4] + [e5] == [e3, e4, e5];
    assert [e5][1..] == [];
  }

  lemma AfterPair(c: Campaign, s: System, e1: Event, e2: Event)
    ensures After(c, s, [e1, e2]) == Step(c, Step(c, s, e1), e2)
  {
    hide Step;
    assert [e1, e2][1..] == [e2] && [e2][1..] == [];
    assert After(c, Step(c, s, e1), [e2]) == After(c, Step(c, Step(c, s, e1), e2), []);
  }
}
