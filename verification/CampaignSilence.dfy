/** Two lives of a helper, neither of them exotic, after which no helper answers anything again. */
module CampaignSilence {
  import opened Wrappers
  import opened CampaignEvidence
  import opened CampaignStore
  import opened CampaignSafety
  import opened CampaignRecovery
  import opened CampaignStatus
  import opened CampaignHelper
  import CampaignRuns
  import Intake

  const ALL_READ := Reading({}, {}, Done)

  function Request(request: Control): Event { Asked(request, None, false, Intake.GOOD_DISK, ALL_READ) }

  function Works(steps: seq<CampaignRuns.Event>): seq<Event> {
    if steps == [] then [] else [Worked(steps[0])] + Works(steps[1..])
  }

  /** The helper has this one campaign loaded, accepted last under `last`. */
  predicate Drives(h: Helper, c: Campaign, controls: map<Id, Control>, last: Control, system: CampaignRuns.System) {
    && h.sites == map[c.id := Site(c, system)] && system.up
    && h.desk == Intake.Desk(Some(last), controls, true, Some(c.id), h.desk.open)
    && last.campaign == c.id && Intake.Activates(last)
    && last.decision in controls && controls[last.decision] == last && Intake.Keyed(h.desk)
  }

  lemma FirstLife(c: Campaign, start: Control)
    requires start.command == StartCampaign && start.campaign == c.id
    ensures Drives(After(FIRST, [Request(start), Created(c)]), c, map[start.decision := start], start,
                   CampaignRuns.Created(c))
  {
    var h := Step(FIRST, Request(start));
    assert h.desk == Intake.Desk(Some(start), map[start.decision := start], true, Some(c.id), true) && h.sites == map[];
    hide Ask;
    AfterTwo(FIRST, Request(start), Created(c));
  }

  lemma AfterTwo(h: Helper, e1: Event, e2: Event)
    ensures After(h, [e1, e2]) == Step(Step(h, e1), e2)
  {
    hide Step;
    assert [e1, e2][1..] == [e2] && [e2][1..] == [];
    assert After(Step(h, e1), [e2]) == After(Step(Step(h, e1), e2), []);
  }

  lemma {:induction false} Onward(h: Helper, first: seq<Event>, rest: seq<Event>)
    ensures After(h, first + rest) == After(After(h, first), rest)
    decreases |first|
  {
    hide Step;
    if first == [] {
      assert first + rest == rest;
    } else {
      assert (first + rest)[1..] == first[1..] + rest;
      Onward(Step(h, first[0]), first[1..], rest);
    }
  }

  /** A fresh pause or resume of the campaign driven is taken in without touching it. */
  lemma TakesIn(h: Helper, c: Campaign, controls: map<Id, Control>, last: Control, system: CampaignRuns.System,
                request: Control)
    requires Drives(h, c, controls, last, system) && request.decision !in controls
    requires request.campaign == c.id && request.command != StartCampaign
    ensures Drives(Step(h, Request(request)), c, controls[request.decision := request],
                   if Intake.Activates(request) then request else last, system)
  {
    var open := CampaignRuns.OpenEvent({}, {}, Done);
    assert CampaignRuns.Step(c, system, open) == system;
    hide CampaignRuns.Step, StatusReadable;
    assert Recover(h, Intake.GOOD_DISK) == (h, true);
    assert Readied(h, request, Intake.GOOD_DISK, ALL_READ).sites == h.sites;
  }

  lemma {:induction false} WorksOn(h: Helper, c: Campaign, controls: map<Id, Control>, last: Control,
                                   system: CampaignRuns.System, steps: seq<CampaignRuns.Event>)
    requires Drives(h, c, controls, last, system) && forall e :: e in steps ==> OwnStep(e)
    ensures Drives(After(h, Works(steps)), c, controls, last, CampaignRuns.After(c, system, steps))
    decreases |steps|
  {
    if steps != [] {
      var next := CampaignRuns.Step(c, system, steps[0]);
      assert OwnStep(steps[0]);
      OwnStepStaysUp(c, system, steps[0]);
      hide CampaignRuns.Step;
      assert Drives(Step(h, Worked(steps[0])), c, controls, last, next);
      assert Works(steps)[1..] == Works(steps[1..]);
      forall e | e in steps[1..] ensures OwnStep(e) { assert e in steps; }
      hide Step, Drives, OwnStep;
      WorksOn(Step(h, Worked(steps[0])), c, controls, last, next, steps[1..]);
    }
  }

  lemma OwnStepStaysUp(c: Campaign, s: CampaignRuns.System, e: CampaignRuns.Event)
    requires s.up && OwnStep(e)
    ensures CampaignRuns.Step(c, s, e).up
  {
    hide CampaignRuns.Act;
    ActUp(c, s, e);
  }

  /** The helper dies, and what it leaves on disk cannot be shown. */
  lemma DiesSilent(h: Helper, c: Campaign, controls: map<Id, Control>, last: Control, system: CampaignRuns.System)
    requires Drives(h, c, controls, last, system)
    requires Stranded(c, CampaignRuns.Step(c, system, CampaignRuns.CrashEvent(None)))
    ensures var t := Step(h, Died(None));
            && Silent(t) && Intake.Consistent(t.desk)
            && c.id in t.sites && t.sites[c.id].campaign == c && Loadable(c, t.sites[c.id].system.store)
  {
    hide CampaignRuns.Step, StatusReadable, Loadable;
  }

  /** A new campaign is started, and work follows. */
  function Opening(c: Campaign, start: Control, steps: seq<CampaignRuns.Event>): seq<Event> {
    [Request(start), Created(c)] + Works(steps)
  }

  /** A control is taken in, and work follows. */
  function Chapter(request: Control, steps: seq<CampaignRuns.Event>): seq<Event> {
    [Request(request)] + Works(steps)
  }

  lemma OpeningDrives(c: Campaign, start: Control, steps: seq<CampaignRuns.Event>)
    requires start.command == StartCampaign && start.campaign == c.id && forall e :: e in steps ==> OwnStep(e)
    ensures Drives(After(FIRST, Opening(c, start, steps)), c, map[start.decision := start], start,
                   CampaignRuns.After(c, CampaignRuns.Created(c), steps))
  {
    hide Drives, Step, Works, OwnStep, Request;
    FirstLife(c, start);
    Onward(FIRST, [Request(start), Created(c)], Works(steps));
    WorksOn(After(FIRST, [Request(start), Created(c)]), c, map[start.decision := start], start,
            CampaignRuns.Created(c), steps);
  }

  lemma ChapterDrives(h: Helper, c: Campaign, controls: map<Id, Control>, last: Control, system: CampaignRuns.System,
                      request: Control, steps: seq<CampaignRuns.Event>)
    requires Drives(h, c, controls, last, system) && request.decision !in controls
    requires request.campaign == c.id && request.command != StartCampaign && forall e :: e in steps ==> OwnStep(e)
    ensures Drives(After(h, Chapter(request, steps)), c, controls[request.decision := request],
                   if Intake.Activates(request) then request else last, CampaignRuns.After(c, system, steps))
  {
    hide Drives, Step, Works, OwnStep, Request;
    TakesIn(h, c, controls, last, system, request);
    Onward(h, [Request(request)], Works(steps));
    assert After(h, [Request(request)]) == After(Step(h, Request(request)), []);
    WorksOn(Step(h, Request(request)), c, controls[request.decision := request],
            if Intake.Activates(request) then request else last, system, steps);
  }

  /** Once the helper died silent, nothing is ever answered again. */
  lemma SilentAfter(h: Helper, c: Campaign, controls: map<Id, Control>, last: Control, system: CampaignRuns.System,
                    later: seq<Event>, request: Control, pending: Option<Id>, busy: bool,
                    disk: Intake.Disk, reading: Reading)
    requires Drives(h, c, controls, last, system)
    requires Stranded(c, CampaignRuns.Step(c, system, CampaignRuns.CrashEvent(None)))
    ensures var t := After(h, [Died(None)]);
            && !t.desk.loaded && Intake.Consistent(t.desk)
            && c.id in t.sites && t.sites[c.id].campaign == c && Loadable(c, t.sites[c.id].system.store)
            && Ask(After(t, later), request, pending, busy, disk, reading).1 == Intake.Unrecovered
  {
    hide Drives, Stranded, Silent, Step, Ask, Loadable, Intake.Consistent, CampaignRuns.Step;
    DiesSilent(h, c, controls, last, system);
    assert After(h, [Died(None)]) == After(Step(h, Died(None)), []);
    SilentIsDown(Step(h, Died(None)));
    SilentForGood(Step(h, Died(None)), later);
    SilentAnswer(After(Step(h, Died(None)), later), request, pending, busy, disk, reading);
  }

  /** A campaign is started, paused and resumed, and the helper dies while the resume drains manual work. */
  function DrainingLife(c: Campaign, start: Control, pause: Control, resume: Control): seq<Event> {
    Opening(c, start, [CampaignRuns.AuthorizeEvent(start, ALL_DONE)])
    + (Chapter(pause, [CampaignRuns.PauseEvent(pause, ALL_DONE)])
    + (Chapter(resume, [CampaignRuns.ManualDrainEvent(ALL_DONE)]) + [Died(None)]))
  }

  /** That is enough for the desk never to answer again, although its controls agree and a load would
      accept the campaign. */
  lemma DrainingCrashSilences(c: Campaign, start: Control, pause: Control, resume: Control, later: seq<Event>,
                              request: Control, pending: Option<Id>, busy: bool, disk: Intake.Disk, reading: Reading)
    requires ControlFieldsMatch(c, start) && ControlFieldsMatch(c, pause) && ControlFieldsMatch(c, resume)
    requires start.command == StartCampaign && pause.command == PauseCampaign && resume.command == ResumeCampaign
    requires start.decision != pause.decision && start.decision != resume.decision && pause.decision != resume.decision
    ensures var h := After(FIRST, DrainingLife(c, start, pause, resume));
            && !h.desk.loaded && Intake.Consistent(h.desk)
            && c.id in h.sites && h.sites[c.id].campaign == c && Loadable(c, h.sites[c.id].system.store)
            && Ask(After(h, later), request, pending, busy, disk, reading).1 == Intake.Unrecovered
  {
    hide Drives, Step, Ask, After, Opening, Chapter, Loadable, Stranded, Intake.Consistent;
    hide CampaignRuns.Step, CampaignRuns.After;
    var s1, s2 := [CampaignRuns.AuthorizeEvent(start, ALL_DONE)], [CampaignRuns.PauseEvent(pause, ALL_DONE)];
    var s3 := [CampaignRuns.ManualDrainEvent(ALL_DONE)];
    var h1 := After(FIRST, Opening(c, start, s1));
    var h2 := After(h1, Chapter(pause, s2));
    var h3 := After(h2, Chapter(resume, s3));
    var y0 := CampaignRuns.Created(c);
    var y1 := CampaignRuns.After(c, y0, s1);
    var y2 := CampaignRuns.After(c, y1, s2);
    var k1 := map[start.decision := start];
    OpeningDrives(c, start, s1);
    ChapterDrives(h1, c, k1, start, y1, pause, s2);
    ChapterDrives(h2, c, k1[pause.decision := pause], start, y2, resume, s3);
    Onward(FIRST, Opening(c, start, s1), Chapter(pause, s2) + (Chapter(resume, s3) + [Died(None)]));
    Onward(h1, Chapter(pause, s2), Chapter(resume, s3) + [Died(None)]);
    Onward(h2, Chapter(resume, s3), [Died(None)]);
    AfterConcat(c, y0, s1, s2);
    AfterConcat(c, y0, s1 + s2, s3);
    assert s1 + s2 + s3 == DrainingHistory(start, pause);
    DrainingCrashStrands(c, start, pause);
    AfterCrash(c, y0, s1 + s2 + s3);
    SilentAfter(h3, c, k1[pause.decision := pause][resume.decision := resume], resume, CampaignRuns.After(c, y2, s3),
                later, request, pending, busy, disk, reading);
  }

  lemma AfterCrash(c: Campaign, s: CampaignRuns.System, events: seq<CampaignRuns.Event>)
    ensures CampaignRuns.After(c, s, events + [CampaignRuns.CrashEvent(None)])
            == CampaignRuns.Step(c, CampaignRuns.After(c, s, events), CampaignRuns.CrashEvent(None))
  {
    hide CampaignRuns.Step;
    var crash := [CampaignRuns.CrashEvent(None)];
    AfterConcat(c, s, events, crash);
    var t := CampaignRuns.After(c, s, events);
    assert CampaignRuns.After(c, t, crash) == CampaignRuns.After(c, CampaignRuns.Step(c, t, crash[0]), []);
  }

  /** An examination is torn at its directory sync, the campaign resumed and the photo analysed; then the
      helper quits. */
  function LaggingLife(c: Campaign, start: Control, resume: Control, source: Source): seq<Event> {
    Opening(c, start, LaggingHistory(start, resume, source)[..2])
    + (Chapter(resume, LaggingHistory(start, resume, source)[2..]) + [Died(None)])
  }

  /** That is enough as well: the checkpoint it leaves counts an analysis ahead of the examinations. */
  lemma LaggingCountersSilence(c: Campaign, start: Control, resume: Control, source: Source, later: seq<Event>,
                               request: Control, pending: Option<Id>, busy: bool, disk: Intake.Disk, reading: Reading)
    requires c.total > 0 && c.photoCount > 0
    requires ControlFieldsMatch(c, start) && ControlFieldsMatch(c, resume)
    requires start.command == StartCampaign && resume.command == ResumeCampaign && start.decision != resume.decision
    ensures var h := After(FIRST, LaggingLife(c, start, resume, source));
            && !h.desk.loaded && Intake.Consistent(h.desk)
            && c.id in h.sites && h.sites[c.id].campaign == c && Loadable(c, h.sites[c.id].system.store)
            && Ask(After(h, later), request, pending, busy, disk, reading).1 == Intake.Unrecovered
  {
    hide Drives, Step, Ask, After, Opening, Chapter, Loadable, Stranded, Intake.Consistent;
    hide CampaignRuns.Step, CampaignRuns.After;
    var history := LaggingHistory(start, resume, source);
    var s1, s2 := history[..2], history[2..];
    var h1 := After(FIRST, Opening(c, start, s1));
    var h2 := After(h1, Chapter(resume, s2));
    var y0 := CampaignRuns.Created(c);
    var y1 := CampaignRuns.After(c, y0, s1);
    var k1 := map[start.decision := start];
    OpeningDrives(c, start, s1);
    ChapterDrives(h1, c, k1, start, y1, resume, s2);
    Onward(FIRST, Opening(c, start, s1), Chapter(resume, s2) + [Died(None)]);
    Onward(h1, Chapter(resume, s2), [Died(None)]);
    AfterConcat(c, y0, s1, s2);
    assert s1 + s2 == history;
    LaggingCountersStrand(c, start, resume, source);
    AfterCrash(c, y0, history);
    SilentAfter(h2, c, k1[resume.decision := resume], resume, CampaignRuns.After(c, y1, s2),
                later, request, pending, busy, disk, reading);
  }
}
