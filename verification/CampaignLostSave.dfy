/** The shortest history in which a verified save is forgotten: activated, examined, decided, reviewed,
    linked and applied, then a crash, and a reopening that cannot read the run. */
module CampaignLostSave {
  import opened Wrappers
  import opened CampaignEvidence
  import opened CampaignStore
  import opened CampaignRuns
  import opened CampaignSafety
  import opened CampaignRecovery

  const NOTHING_DONE := Row(ApplyNotRun, false, RollbackNotRun, false, None, None, NotRequested)
  const SAVED_ROW := NOTHING_DONE.(apply := ApplyVerified, applyReceipt := true)

  /** A running helper with one activation and, at position 0, the evidence so far. */
  predicate Working(s: System, id: Id, worker: Worker, examined: set<nat>, revision: nat) {
    && s.up && s.worker == worker
    && s.store.mem.authorization == Some(id) && AuthorizationSound(s.store.files, id)
    && s.store.saved.Some? && s.store.saved.value.revision == revision && s.store.mem.checkpoint.revision == revision
    && s.store.files.examined == examined && s.store.files.outcomes == map[] && s.store.files.orphans == {}
    && s.store.mem.inFlight == examined
  }

  predicate Empty(files: Files) {
    files.analyses == map[] && files.decisions == map[] && files.reviews == map[] && files.runs == map[]
  }

  predicate Decided(files: Files, admission: Admission) {
    files.decisions == map[0 := admission]
  }

  lemma Activated(c: Campaign, start: Control)
    requires ControlFieldsMatch(c, start) && start.command == StartCampaign
    ensures var s := Step(c, Created(c), AuthorizeEvent(start, ALL_DONE));
            Working(s, start.decision, Idle, {}, 1) && Empty(s.store.files)
  {
  }

  lemma Examined(c: Campaign, s: System, id: Id)
    requires c.total > 0 && c.photoCount > 0 && Working(s, id, Idle, {}, 1) && Empty(s.store.files)
    ensures var t := Step(c, s, ExamineEvent(0, ALL_DONE));
            Working(t, id, Idle, {0}, 2) && Empty(t.store.files)
  {
  }

  lemma Analysed(c: Campaign, s: System, id: Id, source: Source)
    requires c.total > 0 && Working(s, id, Idle, {0}, 2) && Empty(s.store.files)
    ensures var t := Step(c, Step(c, s, BeginEvent(0, ALL_DONE)), AnalyseEvent(Loaded(source), ALL_DONE));
            && Working(t, id, Screening(0, source), {0}, 3)
            && t.store.files.decisions == map[] && t.store.files.reviews == map[] && t.store.files.runs == map[]
  {
    var t := Step(c, s, BeginEvent(0, ALL_DONE));
    assert Working(t, id, Analysing(0), {0}, 2) && t.store == s.store;
  }

  lemma Admitting(c: Campaign, s: System, id: Id, source: Source, selection: Digest)
    requires Working(s, id, Screening(0, source), {0}, 3)
    requires s.store.files.decisions == map[] && s.store.files.reviews == map[] && s.store.files.runs == map[]
    ensures var t := Step(c, Step(c, Step(c, s, ScreenEvent(Confident, ALL_DONE)),
                     ReadEvent(Selection(selection), ALL_DONE)), AdmitEvent(ALL_DONE));
            && Working(t, id, Admitted(0, Admission(id, source, selection)), {0}, 3)
            && Decided(t.store.files, Admission(id, source, selection))
            && t.store.files.reviews == map[] && t.store.files.runs == map[]
  {
    var t := Step(c, s, ScreenEvent(Confident, ALL_DONE));
    assert t == s.(worker := Reading(0, source));
    var u := Step(c, t, ReadEvent(Selection(selection), ALL_DONE));
    assert u == s.(worker := CampaignRuns.Admitting(0, source, selection));
  }

  lemma LinkedUp(c: Campaign, s: System, id: Id, admission: Admission, run: Id)
    requires Working(s, id, Admitted(0, admission), {0}, 3) && admission.authorization == id
    requires Decided(s.store.files, admission) && s.store.files.reviews == map[] && s.store.files.runs == map[]
    ensures var t := Step(c, Step(c, s, ReviewEvent(ReviewedInto(run, Run(None, true, NOTHING_DONE)), ALL_DONE)), LinkEvent(ALL_DONE));
            && Working(t, id, Linked(0, admission, run), {0}, 3) && Decided(t.store.files, admission)
            && t.store.files.reviews == map[0 := run]
            && t.store.files.runs == map[run := Run(Some(Link(0, admission)), true, NOTHING_DONE)]
  {
    var t := Step(c, s, ReviewEvent(ReviewedInto(run, Run(None, true, NOTHING_DONE)), ALL_DONE));
    assert Working(t, id, Reviewed(0, admission, run), {0}, 3) && Decided(t.store.files, admission);
    assert t.store.files.reviews == map[0 := run] && t.store.files.runs == map[run := Run(None, true, NOTHING_DONE)];
  }

  lemma AppliedThenCrashed(c: Campaign, s: System, id: Id, admission: Admission, run: Id)
    requires Working(s, id, Linked(0, admission, run), {0}, 3) && admission.authorization == id
    requires Decided(s.store.files, admission) && s.store.files.reviews == map[0 := run]
    requires s.store.files.runs == map[run := Run(Some(Link(0, admission)), true, NOTHING_DONE)]
    ensures var t := Step(c, Step(c, s, ApplyEvent(ApplyReturned(true, NoCodes), SAVED_ROW, true, ALL_DONE)), CrashEvent(None));
            && !t.up && Loadable(c, t.store) && 0 in Undecided(t.store.files) && RecoverDecision(t.store.files, 0) == Saved
  {
    var t := Step(c, s, ApplyEvent(ApplyReturned(true, NoCodes), SAVED_ROW, true, ALL_DONE));
    assert Working(t, id, Applied(0, admission, run, true, NoCodes), {0}, 3) && Decided(t.store.files, admission);
    assert t.store.files.runs == map[run := Run(Some(Link(0, admission)), true, SAVED_ROW)];
    assert t.store.files.reviews == map[0 := run];
    var files := Step(c, t, CrashEvent(None)).store.files;
    assert files == t.store.files && 0 in files.decisions && 0 in files.examined && 0 !in files.outcomes;
    assert RunProvenance(files, run) == Proven;
  }

  function History(start: Control, source: Source, selection: Digest, run: Id): seq<Event> {
    [AuthorizeEvent(start, ALL_DONE), ExamineEvent(0, ALL_DONE)]
    + [BeginEvent(0, ALL_DONE), AnalyseEvent(Loaded(source), ALL_DONE)]
    + [ScreenEvent(Confident, ALL_DONE), ReadEvent(Selection(selection), ALL_DONE)]
    + [AdmitEvent(ALL_DONE), ReviewEvent(ReviewedInto(run, Run(None, true, NOTHING_DONE)), ALL_DONE)]
    + [LinkEvent(ALL_DONE), ApplyEvent(ApplyReturned(true, NoCodes), SAVED_ROW, true, ALL_DONE)]
    + [CrashEvent(None)]
  }

  /** The state after it: down, loadable, and the receipts prove a save not yet settled. */
  lemma HistoryEndsInSave(c: Campaign, start: Control, source: Source, selection: Digest, run: Id)
    requires c.total > 0 && c.photoCount > 0 && ControlFieldsMatch(c, start) && start.command == StartCampaign
    ensures var s := After(c, Created(c), History(start, source, selection, run));
            && Inv(c, s) && !s.up && Loadable(c, s.store)
            && 0 in Undecided(s.store.files) && RecoverDecision(s.store.files, 0) == Saved
  {
    hide Step, Working, Empty, Decided, Inv, Loadable, RecoverDecision, Undecided, ControlFieldsMatch;
    var admission := Admission(start.decision, source, selection);
    var s0 := Created(c);
    var s2 := Two(c, s0, AuthorizeEvent(start, ALL_DONE), ExamineEvent(0, ALL_DONE));
    Activated(c, start);
    Examined(c, Step(c, s0, AuthorizeEvent(start, ALL_DONE)), start.decision);
    var s4 := Two(c, s2, BeginEvent(0, ALL_DONE), AnalyseEvent(Loaded(source), ALL_DONE));
    Analysed(c, s2, start.decision, source);
    var s6 := Two(c, s4, ScreenEvent(Confident, ALL_DONE), ReadEvent(Selection(selection), ALL_DONE));
    Admitting(c, s4, start.decision, source, selection);
    var s8 := Two(c, s6, AdmitEvent(ALL_DONE), ReviewEvent(ReviewedInto(run, Run(None, true, NOTHING_DONE)), ALL_DONE));
    LinkedUp(c, Step(c, s6, AdmitEvent(ALL_DONE)), start.decision, admission, run);
    var s10 := Two(c, s8, LinkEvent(ALL_DONE), ApplyEvent(ApplyReturned(true, NoCodes), SAVED_ROW, true, ALL_DONE));
    AppliedThenCrashed(c, Step(c, s8, LinkEvent(ALL_DONE)), start.decision, admission, run);
    var s11 := Step(c, s10, CrashEvent(None));
    Joined(c, s0, start, source, selection, run);
    CreatedIsSafe(c);
    RunKeeps(c, Created(c), History(start, source, selection, run));
  }

  function Two(c: Campaign, s: System, first: Event, second: Event): System {
    Step(c, Step(c, s, first), second)
  }

  lemma Joined(c: Campaign, s: System, start: Control, source: Source, selection: Digest, run: Id)
    ensures var s2 := Two(c, s, AuthorizeEvent(start, ALL_DONE), ExamineEvent(0, ALL_DONE));
            var s4 := Two(c, s2, BeginEvent(0, ALL_DONE), AnalyseEvent(Loaded(source), ALL_DONE));
            var s6 := Two(c, s4, ScreenEvent(Confident, ALL_DONE), ReadEvent(Selection(selection), ALL_DONE));
            var s8 := Two(c, s6, AdmitEvent(ALL_DONE), ReviewEvent(ReviewedInto(run, Run(None, true, NOTHING_DONE)), ALL_DONE));
            var s10 := Two(c, s8, LinkEvent(ALL_DONE), ApplyEvent(ApplyReturned(true, NoCodes), SAVED_ROW, true, ALL_DONE));
            After(c, s, History(start, source, selection, run)) == After(c, s10, [CrashEvent(None)])
  {
    hide Step;
    var s2 := Two(c, s, AuthorizeEvent(start, ALL_DONE), ExamineEvent(0, ALL_DONE));
    var s4 := Two(c, s2, BeginEvent(0, ALL_DONE), AnalyseEvent(Loaded(source), ALL_DONE));
    var s6 := Two(c, s4, ScreenEvent(Confident, ALL_DONE), ReadEvent(Selection(selection), ALL_DONE));
    var s8 := Two(c, s6, AdmitEvent(ALL_DONE), ReviewEvent(ReviewedInto(run, Run(None, true, NOTHING_DONE)), ALL_DONE));
    var p1 := [AuthorizeEvent(start, ALL_DONE), ExamineEvent(0, ALL_DONE)];
    var p2 := [BeginEvent(0, ALL_DONE), AnalyseEvent(Loaded(source), ALL_DONE)];
    var p3 := [ScreenEvent(Confident, ALL_DONE), ReadEvent(Selection(selection), ALL_DONE)];
    var p4 := [AdmitEvent(ALL_DONE), ReviewEvent(ReviewedInto(run, Run(None, true, NOTHING_DONE)), ALL_DONE)];
    var p5 := [LinkEvent(ALL_DONE), ApplyEvent(ApplyReturned(true, NoCodes), SAVED_ROW, true, ALL_DONE)];
    AfterPair(c, s, p1[0], p1[1]);
    AfterPair(c, s2, p2[0], p2[1]);
    AfterPair(c, s4, p3[0], p3[1]);
    AfterPair(c, s6, p4[0], p4[1]);
    AfterPair(c, s8, p5[0], p5[1]);
    AfterConcat(c, s, p1, p2);
    AfterConcat(c, s, p1 + p2, p3);
    AfterConcat(c, s, p1 + p2 + p3, p4);
    AfterConcat(c, s, p1 + p2 + p3 + p4, p5);
    AfterConcat(c, s, p1 + p2 + p3 + p4 + p5, [CrashEvent(None)]);
  }

  /** So the promise fails on a real history: reopened while its run cannot be read, the verified save
      is counted as needing attention ever after; reopened while it can, it is counted as a save. */
  lemma VerifiedSaveForgotten(c: Campaign, start: Control, source: Source, selection: Digest, run: Id,
                              blind: set<nat>, later: seq<Event>)
    requires c.total > 0 && c.photoCount > 0 && ControlFieldsMatch(c, start) && start.command == StartCampaign
    ensures var s := After(c, Created(c), History(start, source, selection, run));
            var end := After(c, Step(c, s, OpenEvent(s.store.files.examined, blind, Done)), later).store.files;
            0 in end.outcomes && (end.outcomes[0].outcome == Saved <==> 0 !in blind)
  {
    hide Step, Inv, Loadable, RecoverDecision, Undecided, ControlFieldsMatch, History;
    HistoryEndsInSave(c, start, source, selection, run);
    UnreadSaveStaysLost(c, After(c, Created(c), History(start, source, selection, run)), blind, 0, later);
  }
}
