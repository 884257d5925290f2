/** What the checkpoint announces after each step that goes through, which errors close admission, and where
    each call takes a position and the one worker. */
module CampaignAnnouncements {
  import opened Wrappers
  import opened CampaignEvidence
  import opened CampaignStore
  import opened CampaignRuns
  import opened CampaignMutations
  import opened CampaignSafety
  import opened CampaignAdmission

  /** The app is shown this phase and reason, the same as on disk. */
  predicate Announces(s: Store, phase: Phase, reason: Reason) {
    s.saved == Some(s.mem.checkpoint) && s.mem.checkpoint.phase == phase && s.mem.checkpoint.reason == reason
  }

  /** A pause is shown as pausing while photos are in flight and as paused otherwise; so is a failure, with
      its own reason. An activation shows a running campaign, and admission opens under its identifier. */
  lemma ControlsAnnounce(c: Campaign, s: Store, request: Control, reason: Reason)
    requires s.mem.checkpoint.revision < MAX_COUNTER
    ensures Authorize(c, s, request, ALL_DONE).1 == Accepted ==>
              var t := Authorize(c, s, request, ALL_DONE).0;
              && Announces(t, CampaignEvidence.Running, NoReason)
              && t.mem.authorization == Some(request.decision) && t.mem.failure == None
    ensures Pause(c, s, request, ALL_DONE).1 == Accepted ==>
              var t := Pause(c, s, request, ALL_DONE).0;
              && Announces(t, if s.mem.inFlight == {} then CampaignEvidence.Paused else Pausing, UserPause)
              && t.mem.authorization == None && t.mem.failure == s.mem.failure
    ensures var t := FailClosed(c, s, reason, Done);
            && Announces(t, if s.mem.inFlight == {} then CampaignEvidence.Paused else Pausing, reason)
            && t.mem.authorization == None && t.mem.failure == Some(reason)
  {
    AuthorizeAnnounces(c, s, request);
    PauseAnnounces(c, s, request);
  }

  lemma AuthorizeAnnounces(c: Campaign, s: Store, request: Control)
    ensures Authorize(c, s, request, ALL_DONE).1 == Accepted ==>
              var t := Authorize(c, s, request, ALL_DONE).0;
              && Announces(t, CampaignEvidence.Running, NoReason)
              && t.mem.authorization == Some(request.decision) && t.mem.failure == None
  {
    hide FailClosed;
  }

  lemma PauseAnnounces(c: Campaign, s: Store, request: Control)
    ensures Pause(c, s, request, ALL_DONE).1 == Accepted ==>
              var t := Pause(c, s, request, ALL_DONE).0;
              && Announces(t, if s.mem.inFlight == {} then CampaignEvidence.Paused else Pausing, UserPause)
              && t.mem.authorization == None && t.mem.failure == s.mem.failure
  {
    hide FailClosed;
  }

  /** A settlement that goes through shows: the end, exactly when it leaves nothing and nothing has failed;
      the failure, while one is remembered; a pause come to rest, when the last photo leaves the flight. */
  lemma SettlementAnnounces(c: Campaign, s: Store, position: nat, value: Settlement)
    requires position !in s.files.outcomes && Settle(c, s, position, value, ALL_DONE).1 == Accepted
    ensures var t := Settle(c, s, position, value, ALL_DONE).0;
            var (before, flight) := (s.mem.checkpoint, s.mem.inFlight - {position});
            && t.mem.inFlight == flight && t.mem.failure == s.mem.failure
            && t.files.outcomes == s.files.outcomes[position := value]
            && (match s.mem.failure
                case Some(reason) =>
                  Announces(t, if flight == {} then CampaignEvidence.Paused else Pausing, reason)
                case None =>
                  if before.remaining == 1 && flight == {} then Announces(t, Completed, NoReason)
                  else if before.phase == Pausing && flight == {} then Announces(t, CampaignEvidence.Paused, before.reason)
                  else Announces(t, before.phase, before.reason))
            && (t.mem.authorization == None
                <==> s.mem.authorization == None || (s.mem.failure == None && before.remaining == 1 && flight == {}))
            && t.mem.checkpoint.saved == before.saved + (if value.outcome == Saved then 1 else 0)
            && t.mem.checkpoint.noChange == before.noChange + (if value.outcome == NoChange then 1 else 0)
            && t.mem.checkpoint.attention
               == before.attention + (if value.outcome == CampaignEvidence.Attention then 1 else 0)
            && t.mem.checkpoint.examined == before.examined && t.mem.checkpoint.analyzed == before.analyzed
  {
    hide FailClosed;
  }

  /** A photo released comes back to a rest in the same way, and counts as nothing. */
  lemma ReleaseAnnounces(c: Campaign, s: Store, position: nat)
    requires s.mem.checkpoint.revision < MAX_COUNTER
    ensures var t := Release(c, s, position, ALL_DONE).0;
            var (before, flight) := (s.mem.checkpoint, s.mem.inFlight - {position});
            && t.files == s.files && t.mem.inFlight == flight && t.mem.authorization == s.mem.authorization
            && Announces(t, if before.phase == Pausing && flight == {} then CampaignEvidence.Paused else before.phase,
                         before.reason)
            && t.mem.checkpoint.Settled() == before.Settled()
  {
    hide FailClosed;
  }

  /** How a drive ends: with its own failure, with the end of the campaign, or with a pause that keeps a
      failure announced before it. Admission is closed in each case. */
  lemma DriveEndAnnounces(c: Campaign, s: System, failure: Option<Reason>, revoked: bool)
    requires s.store.mem.checkpoint.revision < MAX_COUNTER
    ensures var t := DriveEnd(c, s, failure, revoked, ALL_DONE);
            var (mem, reason) := (s.store.mem, s.store.mem.checkpoint.reason);
            if failure.Some? then Announces(t.store, CampaignEvidence.Paused, failure.value) && Closed(t)
            else if mem.checkpoint.remaining == 0 then Announces(t.store, Completed, NoReason) && Closed(t)
            else if revoked || mem.authorization == None
            then && Closed(t)
                 && Announces(t.store, CampaignEvidence.Paused,
                              if reason == Permission || reason == Storage then reason else UserPause)
            else t == s
  {
    hide FailClosed;
  }

  /** Errors of Photos' permissions or of storage close admission in the stage that meets them, whatever
      becomes of its writes. */
  lemma ErrorsCloseAdmission(c: Campaign, s: System, e: Event)
    requires s.up
    requires || (e.ScreenEvent? && e.verdict == Unready(true) && s.worker.Screening?)
             || (e.ReadEvent? && e.read == Denied && s.worker.Reading?)
             || (e.ReviewEvent? && (e.review == ReviewStorage || e.review == ReviewEscaped) && s.worker.Admitted?)
             || (e.ApplyEvent? && e.result == ApplyStorage && s.worker.Linked? && s.worker.run in s.store.files.runs)
             || (e.FinishEvent? && s.worker.Applied? && s.worker.codes != NoCodes && s.worker.run in s.store.files.runs)
    ensures Closed(Step(c, s, e)) && Step(c, s, e).worker == Idle
  {
    hide Settle, FailClosed, RunProvenance, RowOutcome;
    forall store: Store, reason ensures FailClosed(c, store, reason, e.fates.last).mem.authorization == None {
      FailClosedShape(c, store, reason, e.fates.last);
    }
  }

  // ------------------------------------------------------------------ one position, one gate

  /** An examination, an analysis and a control are taken in once, under these conditions and no others. */
  lemma PositionsTakenExactly(c: Campaign, s: Store, position: nat, source: Source)
    requires s.mem.checkpoint.revision < MAX_COUNTER
    ensures var (t, reply) := MarkExamined(c, s, position, ALL_DONE);
            if position >= c.total then t == s && reply == Refused
            else if position in s.mem.inFlight then t == s && reply == Accepted
            else if |s.mem.inFlight| >= c.photoCount || position in s.files.outcomes then t == s && reply == Refused
            else && reply == Accepted && t.files == s.files.(examined := s.files.examined + {position})
                 && t.mem.inFlight == s.mem.inFlight + {position}
                 && t.mem.checkpoint.examined == s.mem.checkpoint.examined + (if position in s.files.examined then 0 else 1)
                 && t.saved == Some(t.mem.checkpoint)
    ensures var (t, reply) := RecordAnalysis(c, s, position, Loaded(source), ALL_DONE);
            position < c.total && position in s.files.examined ==>
              if position in s.files.analyses && s.files.analyses[position] == source then t == s && reply == Accepted
              else if position in s.files.analyses then reply == Failed && t.mem.authorization == None && t.files == s.files
              else && reply == Accepted && t.files == s.files.(analyses := s.files.analyses[position := source])
                   && t.mem.checkpoint.analyzed == s.mem.checkpoint.analyzed + 1 && t.saved == Some(t.mem.checkpoint)
  {
    hide FailClosed;
    FailClosedShape(c, s, Storage, Done);
    if position in s.files.examined { assert s.files.examined + {position} == s.files.examined; }
  }

  /** A control counts when it names this campaign, and a start also its settings; its identifier is taken in once,
      answered as a replay for the same control and refused to any other. */
  lemma ControlsTakenExactly(c: Campaign, s: Store, request: Control)
    ensures var (t, reply) := RecordControl(c, s, request, ALL_DONE);
            var ours := request.campaign == c.id
                        && request.settings == (if request.command == StartCampaign then Some(c.settings) else None);
            if !ours then t == s && reply == Refused
            else if request.decision !in s.files.controls
            then reply == Accepted && t == s.(files := s.files.(controls := s.files.controls[request.decision := request]))
            else t == s && reply == if s.files.controls[request.decision] == request then Replayed else Refused
  {
  }

  /** Where the one worker goes when every write is confirmed: from stage to stage with the position it began with,
      and out of the gate wherever one turns it away. */
  lemma StagesInOrder(c: Campaign, s: System, e: Event)
    requires s.up && StageEvent(e) && e.fates == ALL_DONE && s.store.mem.checkpoint.revision < MAX_COUNTER
    ensures var files := s.store.files;
            var next := Step(c, s, e).worker;
            match e
            case BeginEvent(p, _) =>
              next == if s.worker != Idle then s.worker
                      else if p < c.total && p !in files.outcomes && p !in files.decisions then Analysing(p) else Idle
            case ScreenEvent(verdict, _) =>
              s.worker.Screening? ==>
                next == if verdict == Confident && s.store.mem.authorization != None
                        then Reading(s.worker.position, s.worker.source) else Idle
            case ReadEvent(read, _) =>
              s.worker.Reading? ==>
                next == if read.Selection? then Admitting(s.worker.position, s.worker.source, read.selection) else Idle
            case AdmitEvent(_) =>
              s.worker.Admitting? ==>
                var id := s.store.mem.authorization;
                next == if && id != None && id.value in files.authorizations && id.value in files.controls
                           && files.controls[id.value].command == files.authorizations[id.value]
                           && files.authorizations[id.value] != PauseCampaign && s.worker.position !in files.decisions
                        then Admitted(s.worker.position, Admission(id.value, s.worker.source, s.worker.selection)) else Idle
            case ReviewEvent(review, _) =>
              s.worker.Admitted? ==>
                next == if review.ReviewedInto? && s.worker.position !in files.reviews
                        then Reviewed(s.worker.position, s.worker.admission, review.run) else Idle
            case ApplyEvent(result, _, _, _) =>
              s.worker.Linked? && s.worker.run in files.runs ==>
                next == if result.ApplyReturned?
                        then Applied(s.worker.position, s.worker.admission, s.worker.run, result.exitClean, result.codes)
                        else Idle
            case FinishEvent(_) => s.worker.Applied? && s.worker.run in files.runs ==> next == Idle
            case AnalyseEvent(load, _) =>
              s.worker.Analysing? ==>
                var p := s.worker.position;
                next == if load.Loaded? && p < c.total && p in files.examined
                           && (p in files.analyses ==> files.analyses[p] == load.source)
                        then Screening(p, load.source) else Idle
            case LinkEvent(_) =>
              s.worker.Reviewed? ==>
                var (p, run, id) := (s.worker.position, s.worker.run, s.worker.admission.authorization);
                next == if && run in files.runs && files.runs[run].link == None
                           && p in files.decisions && files.decisions[p] == s.worker.admission
                           && p in files.reviews && files.reviews[p] == run
                           && id in files.authorizations && id in files.controls
                           && files.controls[id].command == files.authorizations[id]
                           && files.authorizations[id] != PauseCampaign
                        then Linked(p, s.worker.admission, run) else Idle
  {
    hide FailClosed, Settle, Release, RecordAnalysis, LinkRun, Analyse, RunProvenance, RecoverDecision, RowOutcome;
    if e.AnalyseEvent? && s.worker.Analysing? { AnalysedOn(c, s, e.load); }
    if e.LinkEvent? && s.worker.Reviewed? { LinkedOn(c, s); }
  }

  lemma AnalysedOn(c: Campaign, s: System, load: SourceLoad)
    requires s.worker.Analysing? && s.store.mem.checkpoint.revision < MAX_COUNTER
    ensures var (p, files) := (s.worker.position, s.store.files);
            Analyse(c, s, load, ALL_DONE).worker
            == if load.Loaded? && p < c.total && p in files.examined
                  && (p in files.analyses ==> files.analyses[p] == load.source)
               then Screening(p, load.source) else Idle
  {
    hide FailClosed, Settle;
  }

  lemma LinkedOn(c: Campaign, s: System)
    requires s.worker.Reviewed?
    ensures var files := s.store.files;
            var (p, run, id) := (s.worker.position, s.worker.run, s.worker.admission.authorization);
            LinkRun(c, s, ALL_DONE).worker
            == if && run in files.runs && files.runs[run].link == None
                  && p in files.decisions && files.decisions[p] == s.worker.admission
                  && p in files.reviews && files.reviews[p] == run
                  && id in files.authorizations && id in files.controls
                  && files.controls[id].command == files.authorizations[id]
                  && files.authorizations[id] != PauseCampaign
               then Linked(p, s.worker.admission, run) else Idle
  {
    hide FailClosed;
  }
}
