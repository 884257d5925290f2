/** The helper over all its lives: the desk that takes controls in, and the campaigns it shows, loads and
    drives. A campaign is loaded only behind its status, and its status read only behind the desk. */
module CampaignHelper {
  import opened Wrappers
  import opened CampaignEvidence
  import opened CampaignStore
  import opened CampaignRecovery
  import opened CampaignLag
  import CampaignRuns
  import Intake

  /** A campaign directory, and what the helper has of it. */
  datatype Site = Site(campaign: Campaign, system: CampaignRuns.System)

  datatype Helper = Helper(desk: Intake.Desk, sites: map<Id, Site>)

  /** What a load meets: see `OpenEvent`. */
  datatype Reading = Reading(entries: set<nat>, blind: set<nat>, fate: Fate)

  datatype Event =
    | Asked(request: Control, pending: Option<Id>, busy: bool, disk: Intake.Disk, reading: Reading)
    | StatusAsked(disk: Intake.Disk)
    | Created(campaign: Campaign)
    | Worked(step: CampaignRuns.Event)
    | RolledBack(id: Id, run: Id, row: Row, statusClean: bool)
    | Died(orphan: Option<nat>)

  /** The campaign a recovery shows, or has shown. */
  function Current(d: Intake.Desk): Option<Id> {
    if d.loaded then d.current
    else if d.activation.Some? then Some(d.activation.value.campaign)
    else None
  }

  function Moved(h: Helper, id: Option<Id>, e: CampaignRuns.Event): Helper {
    if id.None? || id.value !in h.sites then h
    else
      var site := h.sites[id.value];
      h.(sites := h.sites[id.value := site.(system := CampaignRuns.Step(site.campaign, site.system, e))])
  }

  /** A campaign without a directory yet is shown from its preparation instead. */
  predicate Readable(h: Helper) {
    var id := Current(h.desk);
    id.Some? && id.value in h.sites ==> StatusReadable(h.sites[id.value].campaign, h.sites[id.value].system.store)
  }

  function Answers(h: Helper, disk: Intake.Disk): Intake.Disk { disk.(rest := disk.rest && Readable(h)) }

  /** `_recover`: the desk first, then the status of the campaign it names. */
  function Recover(h: Helper, disk: Intake.Disk): (Helper, bool) {
    var (desk, ok) := Intake.Recover(h.desk, Answers(h, disk));
    var shown := h.(desk := desk);
    (if ok && !h.desk.loaded then Moved(shown, desk.current, CampaignRuns.StatusEvent) else shown, ok)
  }

  function LoadOf(reading: Reading): CampaignRuns.Event {
    CampaignRuns.OpenEvent(reading.entries, reading.blind, reading.fate)
  }

  /** A resume of the campaign shown loads it, before it is taken in. */
  function Readied(h: Helper, request: Control, disk: Intake.Disk, reading: Reading): Helper {
    var (shown, ok) := Recover(h, disk);
    if ok && request.command == ResumeCampaign && shown.desk.current == Some(request.campaign)
    then Moved(shown, shown.desk.current, LoadOf(reading))
    else shown
  }

  function DeskAnswers(h: Helper, request: Control, disk: Intake.Disk, reading: Reading): Intake.Disk {
    var ready := Readied(h, request, disk, reading);
    Answers(h, disk).(
      reconciled := request.campaign in ready.sites ==> ready.sites[request.campaign].system.up,
      begun := disk.begun && request.campaign !in h.sites)
  }

  /** A start that is taken in and finds no directory of its campaign drops the campaign shown so far. */
  function Ask(h: Helper, request: Control, pending: Option<Id>, busy: bool, disk: Intake.Disk, reading: Reading)
    : (Helper, Intake.Answer)
  {
    var answers := DeskAnswers(h, request, disk, reading);
    var (desk, answer) := Intake.Ask(h.desk, request, pending, busy, answers);
    var ready := Readied(h, request, disk, reading);
    var left := if answer == Intake.Fresh && request.command == StartCampaign && answers.begun
                then Moved(ready, ready.desk.current, CampaignRuns.CrashEvent(None)) else ready;
    (left.(desk := desk), answer)
  }

  /** The steps of a helper's own threads, as opposed to those that open it, end it or pass it by. */
  predicate OwnStep(e: CampaignRuns.Event) {
    !e.OpenEvent? && !e.StatusEvent? && !e.CrashEvent? && !e.ManualRollbackEvent?
  }

  function Step(h: Helper, e: Event): Helper {
    match e
    case Asked(request, pending, busy, disk, reading) => Ask(h, request, pending, busy, disk, reading).0
    case StatusAsked(disk) => Recover(h, disk).0
    case Created(campaign) =>
      if h.desk.loaded && h.desk.current == Some(campaign.id) && campaign.id !in h.sites
      then h.(sites := h.sites[campaign.id := Site(campaign, CampaignRuns.Created(campaign))]) else h
    case Worked(step) => if h.desk.loaded && OwnStep(step) then Moved(h, h.desk.current, step) else h
    case RolledBack(id, run, row, statusClean) =>
      Moved(h, Some(id), CampaignRuns.ManualRollbackEvent(run, row, statusClean))
    case Died(orphan) =>
      var dead := if h.desk.loaded then Moved(h, h.desk.current, CampaignRuns.CrashEvent(orphan)) else h;
      dead.(desk := Intake.Step(h.desk, Intake.Crashed))
  }

  function After(h: Helper, events: seq<Event>): Helper
    decreases |events|
  {
    if events == [] then h else After(Step(h, events[0]), events[1..])
  }

  const FIRST := Helper(Intake.EMPTY, map[])

  // --------------------------------------------------------------- what every run keeps

  /** Controls are indexed under their own identifiers, the counters of every campaign lag at most,
      and only the campaign on the desk is shown or loaded. */
  ghost predicate Sound(h: Helper) {
    && Intake.Keyed(h.desk)
    && (forall id :: id in h.sites ==> SiteSound(h.desk, id, h.sites[id]))
  }

  ghost predicate SiteSound(d: Intake.Desk, id: Id, site: Site) {
    && site.campaign.id == id && StoreBehind(site.campaign, site.system.store)
    && ((d.loaded && d.current == Some(id)) || (!site.system.up && !site.system.shown))
  }

  lemma MovedShape(h: Helper, id: Option<Id>, e: CampaignRuns.Event)
    ensures Moved(h, id, e).desk == h.desk && Moved(h, id, e).sites.Keys == h.sites.Keys
  {
  }

  lemma MovedSound(h: Helper, id: Option<Id>, e: CampaignRuns.Event)
    requires Sound(h)
    requires (h.desk.loaded && h.desk.current == id) || e.ManualRollbackEvent? || e.CrashEvent?
    ensures Sound(Moved(h, id, e))
  {
    hide StoreBehind, CampaignRuns.Step, Intake.Keyed;
    if id.Some? && id.value in h.sites {
      var site := h.sites[id.value];
      StepBehind(site.campaign, site.system, e);
      StaysDown(site.campaign, site.system, e);
    }
  }

  lemma StaysDown(c: Campaign, s: CampaignRuns.System, e: CampaignRuns.Event)
    ensures var t := CampaignRuns.Step(c, s, e);
            && (e.ManualRollbackEvent? ==> t.up == s.up && t.shown == s.shown)
            && (e.CrashEvent? ==> !t.up && !t.shown)
  {
  }

  lemma RecoverMoves(d: Intake.Desk, disk: Intake.Disk)
    ensures var (t, ok) := Intake.Recover(d, disk);
            && t.loaded == ok && t.activation == d.activation
            && t.current == (if ok then Current(d) else d.current) && (d.loaded ==> t == d)
  {
  }

  /** A request leaves on the desk the campaign its recovery showed, or the one it starts. */
  lemma AskMoves(d: Intake.Desk, request: Control, pending: Option<Id>, busy: bool, disk: Intake.Disk)
    ensures var (t, answer) := Intake.Ask(d, request, pending, busy, disk);
            var (shown, ok) := Intake.Recover(d, disk);
            && t.loaded == ok
            && t.current == (if answer == Intake.Fresh && request.command == StartCampaign && disk.begun
                             then Some(request.campaign) else shown.current)
  {
  }

  lemma RecoverSound(h: Helper, disk: Intake.Disk)
    requires Sound(h)
    ensures var (t, ok) := Recover(h, disk);
            && Sound(t) && t.desk == Intake.Recover(h.desk, Answers(h, disk)).0
            && t.desk.loaded == ok && t.sites.Keys == h.sites.Keys
  {
    var (desk, ok) := Intake.Recover(h.desk, Answers(h, disk));
    RecoverMoves(h.desk, Answers(h, disk));
    Intake.RecoverKeyed(h.desk, Answers(h, disk));
    hide Intake.Recover, Intake.Keyed, StoreBehind, CampaignRuns.Step, Readable, Current;
    forall id | id in h.sites ensures SiteSound(desk, id, h.sites[id]) {
      assert SiteSound(h.desk, id, h.sites[id]);
    }
    assert Sound(h.(desk := desk));
    if ok && !h.desk.loaded { MovedSound(h.(desk := desk), desk.current, CampaignRuns.StatusEvent); }
  }

  lemma ReadiedSound(h: Helper, request: Control, disk: Intake.Disk, reading: Reading)
    requires Sound(h)
    ensures Sound(Readied(h, request, disk, reading))
    ensures Readied(h, request, disk, reading).desk == Intake.Recover(h.desk, Answers(h, disk)).0
  {
    hide *;
    RecoverSound(h, disk);
    ReadiedFrom(h, request, disk, reading);
    var shown := Recover(h, disk).0;
    var open := LoadOf(reading);
    MovedShape(shown, shown.desk.current, open);
    if shown.desk.loaded { MovedSound(shown, shown.desk.current, open); }
  }

  lemma ReadiedFrom(h: Helper, request: Control, disk: Intake.Disk, reading: Reading)
    ensures var (shown, ok) := Recover(h, disk);
            Readied(h, request, disk, reading)
            == if ok && request.command == ResumeCampaign && shown.desk.current == Some(request.campaign)
               then Moved(shown, shown.desk.current, LoadOf(reading))
               else shown
  {
  }

  lemma AskSound(h: Helper, request: Control, pending: Option<Id>, busy: bool, disk: Intake.Disk, reading: Reading)
    requires Sound(h)
    ensures Sound(Ask(h, request, pending, busy, disk, reading).0)
  {
    hide Sound, Readied, Answers, Moved, Intake.Recover, Intake.Ask, Intake.Keyed;
    var answers := DeskAnswers(h, request, disk, reading);
    var ready := Readied(h, request, disk, reading);
    ReadiedSound(h, request, disk, reading);
    SoundKeyed(h);
    AskMoves(h.desk, request, pending, busy, answers);
    Intake.AskKeyed(h.desk, request, pending, busy, answers);
    SameRecovery(h.desk, Answers(h, disk), answers);
    RecoverMoves(h.desk, answers);
    var (desk, answer) := Intake.Ask(h.desk, request, pending, busy, answers);
    if answer == Intake.Fresh && request.command == StartCampaign && answers.begun {
      DroppedSound(ready, desk);
    } else {
      KeptSound(ready, desk);
    }
  }

  lemma SoundKeyed(h: Helper)
    requires Sound(h)
    ensures Intake.Keyed(h.desk)
  {
  }

  lemma SameRecovery(d: Intake.Desk, before: Intake.Disk, after: Intake.Disk)
    requires after == before.(reconciled := after.reconciled, begun := after.begun)
    ensures Intake.Recover(d, after) == Intake.Recover(d, before)
  {
  }

  lemma KeptSound(h: Helper, desk: Intake.Desk)
    requires Sound(h) && Intake.Keyed(desk) && desk.loaded == h.desk.loaded && desk.current == h.desk.current
    ensures Sound(h.(desk := desk))
  {
    hide Intake.Keyed, StoreBehind;
    forall id | id in h.sites ensures SiteSound(desk, id, h.sites[id]) {
      assert SiteSound(h.desk, id, h.sites[id]);
    }
  }

  /** The campaign on the desk is dropped; whatever is on it next, no other is shown. */
  lemma DroppedSound(h: Helper, desk: Intake.Desk)
    requires Sound(h) && Intake.Keyed(desk)
    ensures Sound(Moved(h, h.desk.current, CampaignRuns.CrashEvent(None)).(desk := desk))
  {
    hide Intake.Keyed, StoreBehind, CampaignRuns.Step;
    var t := Moved(h, h.desk.current, CampaignRuns.CrashEvent(None));
    MovedSound(h, h.desk.current, CampaignRuns.CrashEvent(None));
    forall id | id in t.sites ensures SiteSound(desk, id, t.sites[id]) {
      assert SiteSound(t.desk, id, t.sites[id]);
      StaysDown(h.sites[id].campaign, h.sites[id].system, CampaignRuns.CrashEvent(None));
    }
  }

  lemma StepSound(h: Helper, e: Event)
    requires Sound(h)
    ensures Sound(Step(h, e))
  {
    hide Sound, Moved, Recover, Ask, Intake.Keyed, Intake.Step;
    SoundKeyed(h);
    match e
    case Asked(request, pending, busy, disk, reading) => AskSound(h, request, pending, busy, disk, reading);
    case StatusAsked(disk) => RecoverSound(h, disk);
    case Created(campaign) => if campaign.id !in h.sites { NewSiteSound(h, campaign); }
    case Worked(step) => if h.desk.loaded { MovedSound(h, h.desk.current, step); }
    case RolledBack(id, run, row, statusClean) =>
      MovedSound(h, Some(id), CampaignRuns.ManualRollbackEvent(run, row, statusClean));
    case Died(orphan) => DeathSound(h, orphan);
  }

  lemma NewSiteSound(h: Helper, c: Campaign)
    requires Sound(h)
    ensures h.desk.loaded && h.desk.current == Some(c.id) ==>
              Sound(h.(sites := h.sites[c.id := Site(c, CampaignRuns.Created(c))]))
  {
    CreatedBehind(c);
    hide StoreBehind, Intake.Keyed, CampaignRuns.Created;
  }

  lemma DeathSound(h: Helper, orphan: Option<nat>)
    requires Sound(h)
    ensures Sound(Step(h, Died(orphan)))
  {
    var dead := if h.desk.loaded then Moved(h, h.desk.current, CampaignRuns.CrashEvent(orphan)) else h;
    var desk := Intake.Step(h.desk, Intake.Crashed);
    assert Intake.Keyed(desk);
    hide StoreBehind, CampaignRuns.Step, Intake.Keyed;
    if h.desk.loaded { MovedSound(h, h.desk.current, CampaignRuns.CrashEvent(orphan)); }
    forall id | id in dead.sites ensures SiteSound(desk, id, dead.sites[id]) {
      assert SiteSound(dead.desk, id, dead.sites[id]);
      StaysDown(h.sites[id].campaign, h.sites[id].system, CampaignRuns.CrashEvent(orphan));
    }
  }

  lemma {:induction false} RunSound(h: Helper, events: seq<Event>)
    requires Sound(h)
    ensures Sound(After(h, events))
    decreases |events|
  {
    hide Sound, Step;
    if events != [] {
      StepSound(h, events[0]);
      RunSound(Step(h, events[0]), events[1..]);
    }
  }

  // ------------------------------------------------------------ what a new helper gets to

  /** The campaign a new helper finds accepted has a directory, and its checkpoint can be shown. */
  predicate ShowableOnDisk(h: Helper) {
    var id := Current(h.desk);
    id.Some? && id.value in h.sites && h.sites[id.value].system.store.saved.Some? ==>
      Showable(h.sites[id.value].system.store.saved.value)
  }

  lemma ReadableIsShowable(h: Helper)
    requires Sound(h)
    ensures Readable(h) <==> ShowableOnDisk(h)
  {
    var id := Current(h.desk);
    hide Intake.Keyed, StoreBehind, StatusReadable, Current;
    if id.Some? && id.value in h.sites {
      var site := h.sites[id.value];
      assert SiteSound(h.desk, id.value, site);
      ReadableExactly(site.campaign, site.system.store);
      BehindSaved(site.campaign, site.system.store);
    }
  }

  lemma BehindSaved(c: Campaign, s: Store)
    requires StoreBehind(c, s)
    ensures s.saved.Some?
  {
  }

  lemma FirstSound()
    ensures Sound(FIRST)
  {
  }

  /** After every run of lives, a new helper whose disk answers gets through its recovery, and so can show
      and take in anything at all, exactly when the desk is consistent and the checkpoint of the
      accepted campaign can be shown. */
  lemma AnswersExactly(events: seq<Event>, disk: Intake.Disk)
    requires !After(FIRST, events).desk.loaded && disk.recovered == Done && disk.rest
    ensures var h := After(FIRST, events);
            Recover(h, disk).1 <==> Intake.Consistent(h.desk) && ShowableOnDisk(h)
  {
    hide *;
    FirstSound();
    RunSound(FIRST, events);
    var h := After(FIRST, events);
    SoundKeyed(h);
    ReadableIsShowable(h);
    RecoversExactly(h, disk);
  }

  lemma RecoversExactly(h: Helper, disk: Intake.Disk)
    requires !h.desk.loaded && Intake.Keyed(h.desk) && disk.recovered == Done && disk.rest
    ensures Recover(h, disk).1 <==> Intake.Consistent(h.desk) && Readable(h)
  {
    hide StatusReadable, CampaignRuns.Step;
  }

  lemma ShownThenLoaded(c: Campaign, s: CampaignRuns.System, entries: set<nat>, blind: set<nat>)
    requires !s.up && StatusReadable(c, s.store)
    ensures var t := CampaignRuns.Step(c, s, CampaignRuns.StatusEvent);
            CampaignRuns.Step(c, t, CampaignRuns.OpenEvent(entries, blind, Done)).up <==> Loadable(c, s.store)
  {
    var t := CampaignRuns.Step(c, s, CampaignRuns.StatusEvent);
    assert !t.up && t.store.files == s.store.files && OpeningCheckpoint(c, t.store) == OpeningCheckpoint(c, s.store);
    ReopensExactlyWhenLoadable(c, t, entries, blind, Done);
    hide CampaignRuns.Step, EvidenceSound;
  }

  /** What a resume makes of the campaign a recovery shows. */
  lemma ResumeLoads(h: Helper, request: Control, disk: Intake.Disk, reading: Reading)
    requires !h.desk.loaded && Intake.Resumes(h.desk, request) && request.campaign in h.sites
    ensures var site := h.sites[request.campaign];
            var t := Readied(h, request, disk, reading);
            && request.campaign in t.sites
            && t.sites[request.campaign].system
               == if !Recover(h, disk).1 then site.system
                  else
                    var shown := CampaignRuns.Step(site.campaign, site.system, CampaignRuns.StatusEvent);
                    CampaignRuns.Step(site.campaign, shown, LoadOf(reading))
  {
    hide CampaignRuns.Step, Intake.Recover, Readable;
    RecoverMoves(h.desk, Answers(h, disk));
  }

  /** A resume starts nothing, and is answered unless its recovery or its load did not get through. */
  lemma ResumeAnswered(h: Helper, request: Control, pending: Option<Id>, busy: bool,
                       disk: Intake.Disk, reading: Reading)
    requires !h.desk.loaded && Intake.Resumes(h.desk, request)
    ensures var (t, answer) := Ask(h, request, pending, busy, disk, reading);
            && t.sites == Readied(h, request, disk, reading).sites
            && (answer == Intake.Unrecovered
                <==> !Recover(h, disk).1 || !DeskAnswers(h, request, disk, reading).reconciled)
  {
    hide Readied, Answers, Readable, Moved;
    SameRecovery(h.desk, Answers(h, disk), DeskAnswers(h, request, disk, reading));
  }

  /** Over all its lives: asked to resume the accepted campaign, a new helper whose disk answers has it
      loaded afterwards, and answers at all, exactly when the desk is consistent, the checkpoint can be
      shown, and the evidence is sound. */
  lemma ReopensExactly(events: seq<Event>, request: Control, pending: Option<Id>, busy: bool,
                       disk: Intake.Disk, reading: Reading)
    requires !After(FIRST, events).desk.loaded && Intake.Resumes(After(FIRST, events).desk, request)
    requires request.campaign in After(FIRST, events).sites
    requires disk.recovered == Done && disk.rest && reading.fate == Done
    ensures var h := After(FIRST, events);
            var store := h.sites[request.campaign].system.store;
            var (t, answer) := Ask(h, request, pending, busy, disk, reading);
            && request.campaign in t.sites && store.saved.Some?
            && (t.sites[request.campaign].system.up
                <==> Intake.Consistent(h.desk) && Showable(store.saved.value) && EvidenceSound(store.files))
            && (t.sites[request.campaign].system.up <==> answer != Intake.Unrecovered)
  {
    hide *;
    FirstSound();
    RunSound(FIRST, events);
    AnswersExactly(events, disk);
    var h := After(FIRST, events);
    ResumeLoads(h, request, disk, reading);
    ResumeAnswered(h, request, pending, busy, disk, reading);
    SiteOnDesk(h, request);
    LoadsExactly(h, request, disk, reading);
  }

  lemma SiteOnDesk(h: Helper, request: Control)
    requires Sound(h) && !h.desk.loaded && Intake.Resumes(h.desk, request) && request.campaign in h.sites
    ensures var site := h.sites[request.campaign];
            && !site.system.up && site.system.store.saved.Some? && StoreBehind(site.campaign, site.system.store)
            && (ShowableOnDisk(h) <==> Showable(site.system.store.saved.value))
  {
    assert SiteSound(h.desk, request.campaign, h.sites[request.campaign]);
    BehindSaved(h.sites[request.campaign].campaign, h.sites[request.campaign].system.store);
    hide StoreBehind, Showable;
  }

  lemma LoadsExactly(h: Helper, request: Control, disk: Intake.Disk, reading: Reading)
    requires !h.desk.loaded && Intake.Resumes(h.desk, request) && request.campaign in h.sites && reading.fate == Done
    requires var site := h.sites[request.campaign];
             !site.system.up && site.system.store.saved.Some? && StoreBehind(site.campaign, site.system.store)
    requires Recover(h, disk).1 ==> Showable(h.sites[request.campaign].system.store.saved.value)
    ensures var t := Readied(h, request, disk, reading);
            && request.campaign in t.sites
            && (t.sites[request.campaign].system.up
                <==> Recover(h, disk).1 && EvidenceSound(h.sites[request.campaign].system.store.files))
            && (DeskAnswers(h, request, disk, reading).reconciled <==> t.sites[request.campaign].system.up)
  {
    var site := h.sites[request.campaign];
    hide CampaignRuns.Step, Recover, Readied, StoreBehind, EvidenceSound, StatusReadable;
    ResumeLoads(h, request, disk, reading);
    if Recover(h, disk).1 {
      ReadableExactly(site.campaign, site.system.store);
      ShownThenLoaded(site.campaign, site.system, reading.entries, reading.blind);
    }
  }

  // -------------------------------------------------------------------- now, or never

  /** The accepted activation is no activation, or is indexed as another control. */
  predicate Conflicting(d: Intake.Desk) {
    && d.activation.Some?
    && (|| !Intake.Activates(d.activation.value)
        || (d.activation.value.decision in d.intakes && d.intakes[d.activation.value.decision] != d.activation.value))
  }

  /** A new helper that gets through no recovery. */
  predicate Silent(h: Helper) {
    !h.desk.loaded && (Conflicting(h.desk) || !Readable(h))
  }

  lemma SilentExactly(h: Helper, disk: Intake.Disk)
    requires !h.desk.loaded
    ensures !Recover(h, Intake.GOOD_DISK).1 <==> Silent(h)
    ensures Silent(h) ==> !Recover(h, disk).1 && Silent(Recover(h, disk).0)
  {
    hide StatusReadable, CampaignRuns.Step;
  }

  lemma SilentAnswer(h: Helper, request: Control, pending: Option<Id>, busy: bool, disk: Intake.Disk, reading: Reading)
    requires Silent(h)
    ensures var (t, answer) := Ask(h, request, pending, busy, disk, reading);
            answer == Intake.Unrecovered && t == Recover(h, disk).0
  {
    SilentExactly(h, disk);
    SameRecovery(h.desk, Answers(h, disk), DeskAnswers(h, request, disk, reading));
    hide DeskAnswers, Answers, Silent, Intake.Recover;
  }

  lemma SilentStays(h: Helper, e: Event)
    requires Silent(h)
    ensures Silent(Step(h, e))
  {
    match e
    case Asked(request, pending, busy, disk, reading) =>
      SilentAnswer(h, request, pending, busy, disk, reading);
      SilentExactly(h, disk);
      hide Silent, Ask, Recover;
    case StatusAsked(disk) =>
      SilentExactly(h, disk);
      hide Silent, Recover;
    case Created(campaign) =>
    case Worked(step) =>
    case RolledBack(id, run, row, statusClean) => SilentThroughRollback(h, id, run, row, statusClean);
    case Died(orphan) =>
  }

  lemma SilentThroughRollback(h: Helper, id: Id, run: Id, row: Row, statusClean: bool)
    requires Silent(h)
    ensures Silent(Step(h, RolledBack(id, run, row, statusClean)))
  {
  }

  lemma {:induction false} SilentForGood(h: Helper, events: seq<Event>)
    requires Silent(h)
    ensures Silent(After(h, events))
    decreases |events|
  {
    hide Silent, Step;
    if events != [] {
      SilentStays(h, events[0]);
      SilentForGood(Step(h, events[0]), events[1..]);
    }
  }

  /** A new helper either answers as soon as its disk does, or neither it nor any later one ever answers
      anything again: no request, no status, and so no start of another campaign. */
  lemma AnswersNowOrNever(h: Helper, events: seq<Event>, request: Control, pending: Option<Id>, busy: bool,
                          disk: Intake.Disk, reading: Reading)
    requires !h.desk.loaded
    ensures || Recover(h, Intake.GOOD_DISK).1
            || (var end := After(h, events);
                Ask(end, request, pending, busy, disk, reading).1 == Intake.Unrecovered && !Recover(end, disk).1)
  {
    hide *;
    SilentExactly(h, disk);
    if Silent(h) {
      SilentForGood(h, events);
      SilentIsDown(After(h, events));
      SilentExactly(After(h, events), disk);
      SilentAnswer(After(h, events), request, pending, busy, disk, reading);
    }
  }

  lemma SilentIsDown(h: Helper)
    requires Silent(h)
    ensures !h.desk.loaded
  {
  }
}
