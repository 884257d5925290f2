/** What positions are settled as: a decided one by the row its review names and by nothing else, an undecided
    one by the stage that turned it away. */
module CampaignVerdicts {
  import opened Wrappers
  import opened CampaignEvidence
  import opened CampaignStore
  import opened CampaignRuns
  import opened CampaignMutations
  import opened CampaignSafety
  import opened CampaignAdmission

  /** The review of a position names a run whose link leads back to a decision, its authorization under the
      activation it was recorded with, and a review of this very run. */
  predicate Traced(files: Files, position: nat) {
    && position in files.reviews && files.reviews[position] in files.runs
    && var link := files.runs[files.reviews[position]].link;
       && link.Some?
       && link.value.position in files.decisions && files.decisions[link.value.position] == link.value.admission
       && link.value.position in files.reviews && files.reviews[link.value.position] == files.reviews[position]
       && var id := link.value.admission.authorization;
          && id in files.authorizations && id in files.controls
          && files.controls[id].command == files.authorizations[id]
          && (files.authorizations[id] == StartCampaign || files.authorizations[id] == ResumeCampaign)
  }

  lemma TracedIsProven(files: Files, position: nat)
    ensures Traced(files, position)
            <==> && position in files.reviews && files.reviews[position] in files.runs
                 && RunProvenance(files, files.reviews[position]) == Proven
  {
  }

  /** The step that settles a decided position makes it a save, no change, or attention exactly by the row
      of its reviewed run, as far as that is traced and read and the position was not given up. */
  lemma SettledByItsRow(c: Campaign, s: System, e: Event, position: nat)
    requires Inv(c, s) && position in s.store.files.decisions && position !in s.store.files.outcomes
    requires position in Step(c, s, e).store.files.outcomes
    ensures var files := s.store.files;
            var asked := Traced(files, position) && !GivenUp(s, e, position) && !Blinded(e, position);
            var outcome := Step(c, s, e).store.files.outcomes[position].outcome;
            if !asked then outcome == Attention
            else
              var run := files.runs[files.reviews[position]];
              var row := run.row;
              var undone := (row.rollback == VerifiedRemoved || row.rollback == AlreadyAbsent) && row.rollbackReceipt;
              var sound := && run.statusClean && (row.rollback == RollbackNotRun || undone)
                           && (|| row.approvedCaption == None
                               || (row.caption == CaptionVerified && row.appliedCaption == row.approvedCaption)
                               || (row.caption == CaptionPreserved && row.appliedCaption == None)
                               || (undone && row.caption == CaptionRemoved && row.appliedCaption == row.approvedCaption));
              && (outcome == Saved <==> sound && row.apply == ApplyVerified && row.applyReceipt)
              && (outcome == NoChange <==> sound && row.apply == ApplyNoop)
              && (outcome == Attention
                  <==> !sound || (row.apply != ApplyNoop && !(row.apply == ApplyVerified && row.applyReceipt)))
    ensures var value := Step(c, s, e).store.files.outcomes[position];
            !GivenUp(s, e, position) ==> value.why == if value.outcome == Attention then Uncertain else Unexplained
  {
    hide Step, Inv, GivenUp, Blinded, RunProvenance, RowOutcome, Traced;
    DecidedSettledFromReceipts(c, s, e);
    TracedIsProven(s.store.files, position);
    if Traced(s.store.files, position) {
      RowOutcomeSpelledOut(s.store.files.runs[s.store.files.reviews[position]]);
    }
  }

  // ------------------------------------------------------------- positions never decided

  /** The verdict of the stage that turns an undecided position away. */
  function TurnedAway(s: System, e: Event, position: nat): Option<Settlement> {
    match e
    case AbandonEvent(p, _) => if p == position then Some(Settlement(Attention, RunFailed)) else None
    case AnalyseEvent(load, _) =>
      if s.worker == Analysing(position) && load == WrongIdentity then Some(Settlement(Attention, Invalid)) else None
    case ScreenEvent(verdict, _) =>
      if !s.worker.Screening? || s.worker.position != position || verdict == Confident then None
      else Some(Settlement(Attention, if verdict == BelowThreshold then LowConfidence else Invalid))
    case ReadEvent(read, _) =>
      if !s.worker.Reading? || s.worker.position != position || read.Selection? then None
      else if read == NothingNew then Some(Settlement(NoChange, Unexplained))
      else Some(Settlement(Attention, if read == OtherPhoto then Invalid else RunFailed))
    case _ => None
  }

  ghost predicate OnlyTurnedAway(s: System, e: Event, t: System) {
    forall p :: p !in s.store.files.decisions && p !in s.store.files.outcomes && p in t.store.files.outcomes ==>
      TurnedAway(s, e, p) == Some(t.store.files.outcomes[p])
  }

  lemma EndsLeaveOutcomes(c: Campaign, fates: Fates)
    ensures forall u: System, p, value, andThen ::
              var t := GateLeft(c, u, Settle(c, u.store, p, value, fates), andThen, fates);
              t.store.files.outcomes == u.store.files.outcomes
              || t.store.files.outcomes == u.store.files.outcomes[p := value]
    ensures forall u: System, p ::
              GateLeft(c, u, Release(c, u.store, p, fates), None, fates).store.files.outcomes == u.store.files.outcomes
    ensures forall store: Store, reason :: FailClosed(c, store, reason, fates.last).files == store.files
  {
    hide FailClosed, Settle, Release, GateLeft, Keeps;
    forall u: System, p, value, andThen
      ensures var t := GateLeft(c, u, Settle(c, u.store, p, value, fates), andThen, fates);
              t.store.files.outcomes == u.store.files.outcomes
              || t.store.files.outcomes == u.store.files.outcomes[p := value]
    {
      GateSettleKeeps(c, u, p, value, andThen, fates);
    }
    forall u: System, p
      ensures GateLeft(c, u, Release(c, u.store, p, fates), None, fates).store.files.outcomes == u.store.files.outcomes
    {
      GateReleaseKeeps(c, u, p, fates);
    }
    forall store: Store, reason ensures FailClosed(c, store, reason, fates.last).files == store.files {
      FailClosedShape(c, store, reason, fates.last);
    }
  }

  lemma SameTurnsIf(s: System, e: Event, t: System)
    ensures t.store.files.outcomes == s.store.files.outcomes ==> OnlyTurnedAway(s, e, t)
  {
  }

  lemma SettlingIf(s: System, e: Event, t: System, position: nat, value: Settlement)
    requires position in s.store.files.decisions || TurnedAway(s, e, position) == Some(value)
    ensures t.store.files.outcomes == s.store.files.outcomes[position := value] ==> OnlyTurnedAway(s, e, t)
  {
  }

  lemma EarlyTurnsAway(c: Campaign, s: System, e: Event)
    requires e.BeginEvent? || e.AnalyseEvent? || e.ScreenEvent? || e.ReadEvent?
    ensures OnlyTurnedAway(s, e, Act(c, s, e))
  {
    hide FailClosed, Settle, Release, RecordAnalysis, GateLeft, RecoverDecision, OnlyTurnedAway;
    EndsLeaveOutcomes(c, e.fates);
    var t := Act(c, s, e);
    SameTurnsIf(s, e, t);
    if e.AnalyseEvent? && s.worker.Analysing? {
      AnalysisIsQuiet(c, s.store, s.worker.position, e.load, e.fates);
      BadManifestExactly(c, s.store, s.worker.position, e.load, e.fates);
      if e.load == WrongIdentity { SettlingIf(s, e, t, s.worker.position, Settlement(Attention, Invalid)); }
    } else if e.BeginEvent? {
      if e.position in s.store.files.decisions {
        SettlingIf(s, e, t, e.position, ReadSettlement(s.store.files, e.position, e.fates.receipts));
      }
    } else if !s.worker.Idle? && TurnedAway(s, e, s.worker.position).Some? {
      SettlingIf(s, e, t, s.worker.position, TurnedAway(s, e, s.worker.position).value);
    }
  }

  lemma BadManifestExactly(c: Campaign, s: Store, position: nat, load: SourceLoad, fates: Fates)
    ensures RecordAnalysis(c, s, position, load, fates).1 == BadManifest ==> load == WrongIdentity
  {
    hide FailClosed;
  }

  lemma MiddleTurnsNobodyAway(c: Campaign, s: System, e: Event)
    requires Inv(c, s) && (e.AdmitEvent? || e.ReviewEvent? || e.LinkEvent?)
    ensures forall p :: p !in s.store.files.decisions && p !in s.store.files.outcomes ==>
              p !in Act(c, s, e).store.files.outcomes
  {
    hide FailClosed, Settle, Release, GateLeft, RunProvenance, RowOutcome, AuthorizationSound, Bound, AppliedOnce;
    hide Begin, Analyse, ScreenRow, ReadPhoto, Apply, Finish;
    EndsLeaveOutcomes(c, e.fates);
    assert s.worker.Admitted? ==> s.worker.position in s.store.files.decisions;
  }

  lemma LateTurnsNobodyAway(c: Campaign, s: System, e: Event)
    requires Inv(c, s) && (e.ApplyEvent? || e.FinishEvent?)
    ensures forall p :: p !in s.store.files.decisions && p !in s.store.files.outcomes ==>
              p !in Act(c, s, e).store.files.outcomes
  {
    hide FailClosed, Settle, Release, GateLeft, RunProvenance, RowOutcome, AuthorizationSound, Bound, AppliedOnce;
    hide Begin, Analyse, ScreenRow, ReadPhoto, Admit, Review, LinkRun;
    EndsLeaveOutcomes(c, e.fates);
    assert s.worker.Linked? || s.worker.Applied? ==> s.worker.position in s.store.files.decisions;
  }

  lemma ControlsTurnAway(c: Campaign, s: System, e: Event)
    requires !StageEvent(e)
    ensures OnlyTurnedAway(s, e, Act(c, s, e))
  {
    hide FailClosed, Settle, Release, RecordAnalysis, MarkExamined, Authorize, Pause, DriveEnd, Extends, OnlyTurnedAway;
    SameTurnsIf(s, e, Act(c, s, e));
    match e
    case AuthorizeEvent(request, fates) => AuthorizeIsQuiet(c, s.store, request, fates);
    case PauseEvent(request, fates) => PauseIsQuiet(c, s.store, request, fates);
    case FailEvent(reason, fates) => FailClosedShape(c, s.store, reason, fates.closing);
    case ExamineEvent(position, fates) => ExamineIsQuiet(c, s.store, position, fates);
    case SourceEvent(position, load, fates) => AnalysisIsQuiet(c, s.store, position, load, fates);
    case AbandonEvent(position, fates) =>
      SettleIsQuiet(c, s.store, position, Settlement(Attention, RunFailed), fates);
      SettlingIf(s, e, Act(c, s, e), position, Settlement(Attention, RunFailed));
    case ReleaseEvent(position, fates) => ReleaseIsQuiet(c, s.store, position, fates);
    case DriveEndEvent(failure, revoked, fates) => DriveEndKeeps(c, s, failure, revoked, fates);
    case _ =>
  }

  /** A position is settled before any decision about it in these ways only: it is abandoned, its manifest is
      not its own, the screening or the reading of the photo turns it away. It is never a save, and no
      change exactly when the photo already had everything. */
  lemma UndecidedSettledExactly(c: Campaign, s: System, e: Event, position: nat)
    requires Inv(c, s) && position !in s.store.files.decisions && position !in s.store.files.outcomes
    requires position in Step(c, s, e).store.files.outcomes
    ensures var value := Step(c, s, e).store.files.outcomes[position];
            && TurnedAway(s, e, position) == Some(value)
            && value.outcome != Saved
            && (value.outcome == NoChange
                <==> e.ReadEvent? && e.read == NothingNew && s.worker.Reading? && s.worker.position == position)
  {
    hide Act, Open, ShowStatus, Inv, OnlyTurnedAway, RecoverDecision;
    ShownFiles(c, s);
    var t := Step(c, s, e);
    SameTurnsIf(s, e, t);
    match e
    case OpenEvent(entries, blind, fate) => OpenTurnsNobodyAway(c, s, entries, blind, fate);
    case ManualRollbackEvent(_, _, _) => TurnedHere(s, e, t, position);
    case CrashEvent(_) => TurnedHere(s, e, t, position);
    case StatusEvent => TurnedHere(s, e, t, position);
    case _ =>
      if !StageEvent(e) { ControlsTurnAway(c, s, e); TurnedHere(s, e, t, position); }
      else if e.BeginEvent? || e.AnalyseEvent? || e.ScreenEvent? || e.ReadEvent? {
        EarlyTurnsAway(c, s, e);
        TurnedHere(s, e, t, position);
      } else if e.ApplyEvent? || e.FinishEvent? {
        LateTurnsNobodyAway(c, s, e);
      } else {
        MiddleTurnsNobodyAway(c, s, e);
      }
  }

  lemma TurnedHere(s: System, e: Event, t: System, position: nat)
    requires OnlyTurnedAway(s, e, t) && position in t.store.files.outcomes
    requires position !in s.store.files.decisions && position !in s.store.files.outcomes
    ensures TurnedAway(s, e, position) == Some(t.store.files.outcomes[position])
  {
  }

  lemma OpenTurnsNobodyAway(c: Campaign, s: System, entries: set<nat>, blind: set<nat>, fate: Fate)
    ensures forall p :: p !in s.store.files.decisions && p !in s.store.files.outcomes ==>
              p !in Open(c, s, entries, blind, fate).store.files.outcomes
  {
    hide JudgedSettlement, EvidenceSound, RebuiltCheckpoint;
  }

  // ------------------------------------------------------------------ nothing is passed over

  /** A step that owes an open position its verdict: it turns an undecided one away, gives a decided one up,
      meets one decided before, or comes back from its apply. */
  predicate Due(s: System, e: Event, position: nat) {
    if position !in s.store.files.decisions then TurnedAway(s, e, position).Some?
    else || (e.BeginEvent? && e.position == position && s.worker.Idle?)
         || (GivenUp(s, e, position) && !e.FinishEvent? && (e.ApplyEvent? ==> s.worker.run in s.store.files.runs))
         || (e.FinishEvent? && s.worker.Applied? && s.worker.position == position && Traced(s.store.files, position))
  }

  lemma SettlePuts(c: Campaign, s: System, position: nat, value: Settlement, andThen: Option<Reason>)
    requires position < c.total && position in s.store.files.examined && position !in s.store.files.outcomes
    ensures var t := GateLeft(c, s, Settle(c, s.store, position, value, ALL_DONE), andThen, ALL_DONE);
            t.store.files == s.store.files.(outcomes := s.store.files.outcomes[position := value])
    ensures Settle(c, s.store, position, value, ALL_DONE).0.files.outcomes == s.store.files.outcomes[position := value]
  {
    hide FailClosed, SettledMemory, SettledCheckpoint;
    forall store: Store, reason, fate ensures FailClosed(c, store, reason, fate).files == store.files {
      FailClosedShape(c, store, reason, fate);
    }
  }

  /** With confirmed writes that step settles it. */
  lemma DueIsSettled(c: Campaign, s: System, e: Event, position: nat)
    requires Inv(c, s) && s.up && (StageEvent(e) || e.AbandonEvent?) && e.fates == ALL_DONE && Due(s, e, position)
    requires position < c.total && position in s.store.files.examined && position !in s.store.files.outcomes
    ensures position in Step(c, s, e).store.files.outcomes
  {
    hide FailClosed, Settle, GateLeft, Release, RecordAnalysis, RunProvenance, RowOutcome, RecoverDecision, Inv, Traced;
    forall u: System, value, andThen | u.store.files.outcomes == s.store.files.outcomes
                                       && u.store.files.examined == s.store.files.examined
      ensures var t := GateLeft(c, u, Settle(c, u.store, position, value, ALL_DONE), andThen, ALL_DONE);
              position in t.store.files.outcomes
    {
      SettlePuts(c, u, position, value, andThen);
    }
    if e.AbandonEvent? { SettlePuts(c, s, position, Settlement(Attention, RunFailed), None); }
    if e.AnalyseEvent? { WrongManifestStays(c, s.store, position); }
    if e.FinishEvent? { AppliedIsReviewed(c, s, position); }
  }

  lemma WrongManifestStays(c: Campaign, s: Store, position: nat)
    requires position < c.total && position in s.files.examined
    ensures RecordAnalysis(c, s, position, WrongIdentity, ALL_DONE) == (s, BadManifest)
  {
    hide FailClosed;
  }

  lemma AppliedIsReviewed(c: Campaign, s: System, position: nat)
    requires Inv(c, s) && s.worker.Applied? && s.worker.position == position && Traced(s.store.files, position)
    ensures s.worker.run in s.store.files.runs && RunProvenance(s.store.files, s.worker.run) == Proven
  {
    assert LinkBound(s.store.files, s.worker.position, s.worker.admission, s.worker.run);
    TracedIsProven(s.store.files, position);
  }
}
