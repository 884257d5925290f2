/** The checkpoints a new helper cannot read. It shows a campaign from its checkpoint before it may load
    it, so these keep a campaign closed whose evidence is sound. */
module CampaignStatus {
  import opened Wrappers
  import opened CampaignEvidence
  import opened CampaignStore
  import opened CampaignRuns
  import opened CampaignMutations
  import opened CampaignSafety
  import opened CampaignCounters
  import opened CampaignRecovery
  import opened CampaignBacking
  import opened CampaignLag

  /** After any benign history a new helper reads the status and then loads the campaign exactly when the
      checkpoint on disk can be shown. */
  lemma BenignReopensExactly(c: Campaign, events: seq<Event>)
    requires BenignRun(c, Created(c), events)
    ensures var s := After(c, Created(c), events).store;
            s.saved.Some? && (StatusReadable(c, s) && Loadable(c, s) <==> Showable(s.saved.value))
  {
    hide StatusReadable, EvidenceSound, BenignRun;
    AlwaysLoadable(c, events);
    StatusReadableExactly(c, events);
  }

  // ------------------------------------------------------------------- two such checkpoints

  /** A campaign that is down, whose evidence a load would accept and whose status cannot be read. */
  predicate Stranded(c: Campaign, s: System) {
    !s.up && !s.shown && s.store.saved.Some? && Loadable(c, s.store) && !StatusReadable(c, s.store)
  }

  /** Steps the world takes benignly wherever they stand. */
  predicate PlainEvent(e: Event) {
    !e.ReviewEvent? && !e.ManualRollbackEvent? && (e.CrashEvent? ==> e.orphan.None?)
  }

  lemma {:induction false} PlainRunIsBenign(c: Campaign, s: System, events: seq<Event>)
    requires forall e :: e in events ==> PlainEvent(e)
    ensures BenignRun(c, s, events)
    decreases |events|
  {
    hide Step;
    if events != [] {
      assert PlainEvent(events[0]);
      forall e | e in events[1..] ensures PlainEvent(e) { assert e in events; }
      PlainRunIsBenign(c, Step(c, s, events[0]), events[1..]);
    }
  }

  /** A started campaign is paused and resumed, and the helper dies while it drains manual work. */
  function DrainingHistory(start: Control, pause: Control): seq<Event> {
    [AuthorizeEvent(start, ALL_DONE), PauseEvent(pause, ALL_DONE), ManualDrainEvent(ALL_DONE)]
  }

  lemma DrainingCrashStrands(c: Campaign, start: Control, pause: Control)
    requires ControlFieldsMatch(c, start) && ControlFieldsMatch(c, pause)
    requires start.command == StartCampaign && pause.command == PauseCampaign && start.decision != pause.decision
    ensures var events := DrainingHistory(start, pause) + [CrashEvent(None)];
            && BenignRun(c, Created(c), events)
            && Stranded(c, After(c, Created(c), events))
            && After(c, Created(c), events).store.saved.value.reason == ManualDrain
  {
    var events := DrainingHistory(start, pause) + [CrashEvent(None)];
    PlainRunIsBenign(c, Created(c), events);
    var e1, e2, e3 := AuthorizeEvent(start, ALL_DONE), PauseEvent(pause, ALL_DONE), ManualDrainEvent(ALL_DONE);
    var started := Step(c, Created(c), e1);
    LagStart(c, start);
    DrainAnnounced(c, started, pause);
    hide Step, BenignRun;
    AfterPair(c, Created(c), e1, e2);
    AfterPair(c, Step(c, started, e2), e3, CrashEvent(None));
    AfterConcat(c, Created(c), [e1, e2], [e3, CrashEvent(None)]);
    assert [e1, e2] + [e3, CrashEvent(None)] == events;
  }

  lemma DrainAnnounced(c: Campaign, s: System, pause: Control)
    requires ControlFieldsMatch(c, pause) && pause.command == PauseCampaign && pause.decision !in s.store.files.controls
    requires Lagging(s, 1, {}, s.store.files.controls.Keys)
    ensures var drained := Step(c, Step(c, s, PauseEvent(pause, ALL_DONE)), ManualDrainEvent(ALL_DONE));
            var t := Step(c, drained, CrashEvent(None));
            Stranded(c, t) && t.store.saved.value.reason == ManualDrain
  {
    var paused := Step(c, s, PauseEvent(pause, ALL_DONE));
    assert paused.up && paused.store.files.outcomes == map[] && paused.store.files.orphans == {};
    assert paused.store.mem.checkpoint.revision == 2;
    var drained := Step(c, paused, ManualDrainEvent(ALL_DONE));
    assert drained.store.saved == Some(drained.store.mem.checkpoint) && drained.store.files == paused.store.files;
    assert drained.store.mem.checkpoint.reason == ManualDrain && drained.store.mem.checkpoint.revision == 3;
  }

  /** An examination is torn, the campaign resumed, and the photo analysed; then the helper quits. */
  function LaggingHistory(start: Control, resume: Control, source: Source): seq<Event> {
    [AuthorizeEvent(start, ALL_DONE), ExamineEvent(0, ALL_DONE.(evidence := Torn)), AuthorizeEvent(resume, ALL_DONE),
     ExamineEvent(0, ALL_DONE), SourceEvent(0, Loaded(source), ALL_DONE)]
  }

  lemma LaggingCountersStrand(c: Campaign, start: Control, resume: Control, source: Source)
    requires c.total > 0 && c.photoCount > 0
    requires ControlFieldsMatch(c, start) && ControlFieldsMatch(c, resume)
    requires start.command == StartCampaign && resume.command == ResumeCampaign && start.decision != resume.decision
    ensures var events := LaggingHistory(start, resume, source) + [CrashEvent(None)];
            && BenignRun(c, Created(c), events)
            && Stranded(c, After(c, Created(c), events))
            && After(c, Created(c), events).store.saved.value.reason == NoReason
  {
    var history := LaggingHistory(start, resume, source);
    PlainRunIsBenign(c, Created(c), history + [CrashEvent(None)]);
    TornWriteMakesCountersLag(c, start, resume, source);
    var s := After(c, Created(c), history);
    CrashStrands(c, s);
    hide Step, BenignRun, LaggingHistory;
    AfterConcat(c, Created(c), history, [CrashEvent(None)]);
    assert [CrashEvent(None)][1..] == [];
    assert After(c, s, [CrashEvent(None)]) == After(c, Step(c, s, CrashEvent(None)), []);
  }

  lemma CrashStrands(c: Campaign, s: System)
    requires s.store.saved.Some? && s.store.saved.value.analyzed > s.store.saved.value.examined
    requires s.store.saved.value.revision < MAX_COUNTER && EvidenceSound(s.store.files)
    ensures Stranded(c, Step(c, s, CrashEvent(None)))
    ensures Step(c, s, CrashEvent(None)).store == s.store
  {
  }
}
