/** Durable acceptance of autonomy controls: activation.json is the single publication that accepts
    an activation, intakes/ the immutable index of every control. Either publication can fail before
    or after it becomes visible, and the helper can die between them. */
module Intake {
  import opened Wrappers
  import opened CampaignEvidence

  /** The two files, whether this helper has recovered them, the campaign it shows, and whether the
      generation it handed out is still unrevoked. */
  datatype Desk = Desk(
    activation: Option<Control>, intakes: map<Id, Control>, loaded: bool, current: Option<Id>, open: bool)

  /** `previous`, `accepted` and `index` answer the publications of one intake, `recovered` the one
      of a recovery; `rest` says that a recovery can read the campaign it found accepted, `reconciled`
      that a resume could load it, and `begun` that a fresh start found its roots right. */
  datatype Disk = Disk(
    recovered: Fate, rest: bool, reconciled: bool, previous: Fate, accepted: Fate, index: Fate, begun: bool)

  const GOOD_DISK := Disk(Done, true, true, Done, Done, Done, true)

  datatype Answer = Fresh | Replay | Reused | Failed | Unrecovered | NotCurrent | Busy

  predicate Activates(request: Control) { request.command != PauseCampaign }

  /** `_recover`: indexes the accepted activation a crash left unindexed. */
  function Recover(d: Desk, disk: Disk): (r: (Desk, bool)) {
    if d.loaded then (d, true)
    else match d.activation
      case None => (Shown(d, None, true), true)
      case Some(control) =>
        if !Activates(control) then (d, false)
        else if control.decision in d.intakes then
          if d.intakes[control.decision] != control then (d, false)
          else (Shown(d, Some(control.campaign), disk.rest), disk.rest)
        else
          var (intakes, ok) := Publish(d.intakes, control.decision, control, disk.recovered);
          (Shown(d.(intakes := intakes), Some(control.campaign), ok && disk.rest), ok && disk.rest)
  }

  /** A recovery that goes through shows the campaign of the accepted activation. */
  function Shown(d: Desk, campaign: Option<Id>, ok: bool): Desk {
    if ok then d.(loaded := true, current := campaign) else d
  }

  /** Indexing of the activation that is about to be superseded. */
  function IndexPrevious(d: Desk, disk: Disk): (r: (Desk, bool)) {
    if d.activation.None? || d.activation.value.decision in d.intakes then (d, true)
    else
      var (intakes, ok) := Publish(d.intakes, d.activation.value.decision, d.activation.value, disk.previous);
      (d.(intakes := intakes), ok)
  }

  function Index(d: Desk, request: Control, disk: Disk): (Desk, Answer) {
    var (intakes, ok) := Publish(d.intakes, request.decision, request, disk.index);
    (d.(intakes := intakes), if ok then Fresh else Failed)
  }

  /** `_intake`. */
  function TakeIn(d: Desk, request: Control, disk: Disk): (Desk, Answer) {
    if request.decision in d.intakes then
      (d, if d.intakes[request.decision] != request then Reused else Replay)
    else if !Activates(request) then Index(d, request, disk)
    else
      var (indexed, ok) := IndexPrevious(d, disk);
      if !ok then (indexed, Failed)
      else if d.activation.Some? && d.activation.value.decision == request.decision then
        (indexed, if d.activation.value != request then Reused else Replay)
      else match disk.accepted
        case Lost => (indexed, Failed)
        case Torn => (indexed.(activation := Some(request)), Failed)
        case Done => Index(indexed.(activation := Some(request)), request, disk)
  }

  /** A start may name a new campaign; everything else has to name the one shown, or, for a pause,
      the one whose activation the server still has pending. */
  predicate Addressed(d: Desk, request: Control, pending: Option<Id>) {
    || request.command == StartCampaign
    || d.current == Some(request.campaign)
    || (request.command == PauseCampaign && pending == Some(request.campaign))
  }

  /** A control reaching the dispatcher: a fresh pause or a storage failure revokes the generation,
      a fresh activation hands out a new one, everything else leaves it alone. */
  function Ask(d: Desk, request: Control, pending: Option<Id>, busy: bool, disk: Disk): (Desk, Answer) {
    var (recovered, ok) := Recover(d, disk);
    if !ok then (recovered, Unrecovered)
    else if !Addressed(recovered, request, pending) then (recovered, NotCurrent)
    else if request.command == ResumeCampaign && !disk.reconciled then (recovered, Unrecovered)
    else if busy && Activates(request) && request.decision !in recovered.intakes then (recovered, Busy)
    else
      var (taken, answer) := TakeIn(recovered, request, disk);
      match answer
      case Fresh =>
        var current := if request.command == StartCampaign && disk.begun then Some(request.campaign) else taken.current;
        (taken.(open := Activates(request), current := current), Fresh)
      case Failed => (taken.(open := false), Failed)
      case _ => (taken, answer)
  }

  datatype Event = Asked(request: Control, pending: Option<Id>, busy: bool, disk: Disk) | Crashed

  function Step(d: Desk, e: Event): Desk {
    match e
    case Asked(request, pending, busy, disk) => Ask(d, request, pending, busy, disk).0
    case Crashed => d.(loaded := false, current := None, open := false)
  }

  function After(d: Desk, events: seq<Event>): Desk
    decreases |events|
  {
    if events == [] then d else After(Step(d, events[0]), events[1..])
  }

  const EMPTY := Desk(None, map[], false, None, false)

  // ------------------------------------------------------------ fresh at most once

  predicate AnswersFresh(d: Desk, e: Event, id: Id) {
    e.Asked? && e.request.decision == id && Ask(d, e.request, e.pending, e.busy, e.disk).1 == Fresh
  }

  function TimesFresh(d: Desk, events: seq<Event>, id: Id): nat
    decreases |events|
  {
    if events == [] then 0
    else (if AnswersFresh(d, events[0], id) then 1 else 0) + TimesFresh(Step(d, events[0]), events[1..], id)
  }

  /** Each publication only ever adds to the index. */
  predicate Grows(before: map<Id, Control>, after: map<Id, Control>) {
    forall id :: id in before ==> id in after && after[id] == before[id]
  }

  lemma RecoverGrows(d: Desk, disk: Disk)
    ensures Grows(d.intakes, Recover(d, disk).0.intakes)
    ensures Recover(d, disk).0.activation == d.activation
  {
  }

  lemma TakeInGrows(d: Desk, request: Control, disk: Disk)
    ensures Grows(d.intakes, TakeIn(d, request, disk).0.intakes)
    ensures TakeIn(d, request, disk).1 == Fresh ==>
              && request.decision !in d.intakes
              && request.decision in TakeIn(d, request, disk).0.intakes
              && TakeIn(d, request, disk).0.intakes[request.decision] == request
  {
  }

  lemma IndexOnlyGrows(d: Desk, e: Event, id: Id)
    ensures id in d.intakes ==> id in Step(d, e).intakes && Step(d, e).intakes[id] == d.intakes[id]
    ensures AnswersFresh(d, e, id) ==> id !in d.intakes && id in Step(d, e).intakes
    ensures AnswersFresh(d, e, id) ==> Step(d, e).intakes[id] == e.request
  {
    hide Recover, TakeIn;
    if e.Asked? {
      RecoverGrows(d, e.disk);
      TakeInGrows(Recover(d, e.disk).0, e.request, e.disk);
    }
  }

  /** Across crashes, failed writes and conflicting requests a decision is fresh at most once. */
  lemma {:induction false} FreshAtMostOnce(d: Desk, events: seq<Event>, id: Id)
    ensures TimesFresh(d, events, id) <= if id in d.intakes then 0 else 1
    decreases |events|
  {
    if events != [] {
      hide Step, AnswersFresh;
      IndexOnlyGrows(d, events[0], id);
      FreshAtMostOnce(Step(d, events[0]), events[1..], id);
    }
  }

  // --------------------------------------------------- what is accepted is never lost

  /** An indexed activation is indexed as itself. */
  predicate Consistent(d: Desk) {
    && (d.activation.Some? ==> Activates(d.activation.value))
    && (d.activation.Some? && d.activation.value.decision in d.intakes ==>
          d.intakes[d.activation.value.decision] == d.activation.value)
    && Keyed(d)
  }

  /** Controls are indexed under their own identifiers. */
  predicate Keyed(d: Desk) {
    forall id :: id in d.intakes ==> d.intakes[id].decision == id
  }

  /** The control is on disk, as the accepted activation or in the index. */
  predicate Known(d: Desk, control: Control) {
    || d.activation == Some(control)
    || (control.decision in d.intakes && d.intakes[control.decision] == control)
  }

  /** A pause, of a campaign it may address, taking the decision identifier of an accepted activation
      not yet indexed. */
  predicate Usurps(d: Desk, e: Event) {
    && e.Asked? && d.loaded && !Activates(e.request) && e.disk.index != Lost
    && Addressed(d, e.request, e.pending)
    && d.activation.Some? && d.activation.value.decision == e.request.decision
    && e.request.decision !in d.intakes
  }

  lemma RecoverKeepsConsistency(d: Desk, disk: Disk)
    requires Consistent(d)
    ensures Consistent(Recover(d, disk).0)
    ensures Recover(d, disk).1 && !d.loaded && d.activation.Some? ==>
              d.activation.value.decision in Recover(d, disk).0.intakes
  {
  }

  lemma PauseConsistency(d: Desk, request: Control, disk: Disk)
    requires Consistent(d) && !Activates(request)
    ensures Consistent(TakeIn(d, request, disk).0)
            <==> !(&& disk.index != Lost && request.decision !in d.intakes
                   && d.activation.Some? && d.activation.value.decision == request.decision)
  {
  }

  lemma ActivationConsistency(d: Desk, request: Control, disk: Disk)
    requires Consistent(d) && Activates(request)
    ensures Consistent(TakeIn(d, request, disk).0)
  {
    var indexed := IndexPrevious(d, disk).0;
    assert Consistent(indexed);
    hide IndexPrevious;
  }

  lemma OpenIsImmaterial(d: Desk, open: bool, loaded: bool, current: Option<Id>)
    ensures Consistent(d.(open := open, loaded := loaded, current := current)) == Consistent(d)
  {
  }

  lemma RecoverKeyed(d: Desk, disk: Disk)
    requires Keyed(d)
    ensures Keyed(Recover(d, disk).0)
  {
  }

  lemma AskKeyed(d: Desk, request: Control, pending: Option<Id>, busy: bool, disk: Disk)
    requires Keyed(d)
    ensures Keyed(Ask(d, request, pending, busy, disk).0)
  {
    hide Recover, TakeIn, Addressed;
    RecoverKeyed(d, disk);
    TakeInKeyed(Recover(d, disk).0, request, disk);
  }

  lemma TakeInKeyed(d: Desk, request: Control, disk: Disk)
    requires Keyed(d)
    ensures Keyed(TakeIn(d, request, disk).0)
  {
    assert Keyed(IndexPrevious(d, disk).0);
    hide IndexPrevious;
  }

  /** The one request that breaks the index is the usurping pause; nothing else can. */
  lemma ConsistentUnlessUsurped(d: Desk, e: Event)
    requires Consistent(d)
    ensures Consistent(Step(d, e)) <==> !Usurps(d, e)
  {
    hide Consistent, TakeIn;
    if e.Asked? {
      RecoverKeepsConsistency(d, e.disk);
      var recovered := Recover(d, e.disk).0;
      var taken := TakeIn(recovered, e.request, e.disk).0;
      forall open, current {
        OpenIsImmaterial(taken, open, taken.loaded, current);
      }
      if Activates(e.request) {
        ActivationConsistency(recovered, e.request, e.disk);
      } else {
        PauseConsistency(recovered, e.request, e.disk);
      }
    } else {
      OpenIsImmaterial(d, false, false, None);
    }
  }

  lemma KnownStays(d: Desk, e: Event, control: Control)
    requires Consistent(d) && Known(d, control)
    ensures Known(Step(d, e), control)
  {
    if e.Asked? {
      var recovered := Recover(d, e.disk).0;
      RecoverKeepsConsistency(d, e.disk);
      RecoverGrows(d, e.disk);
      assert Known(recovered, control);
      hide Recover;
      KnownThroughIntake(recovered, e.request, e.disk, control);
    }
  }

  lemma KnownThroughIntake(d: Desk, request: Control, disk: Disk, control: Control)
    requires Consistent(d) && Known(d, control)
    ensures Known(TakeIn(d, request, disk).0, control)
  {
  }

  predicate NeverUsurped(d: Desk, events: seq<Event>)
    decreases |events|
  {
    events != [] ==> !Usurps(d, events[0]) && NeverUsurped(Step(d, events[0]), events[1..])
  }

  /** Once visible on disk, a control survives every run, and is answered as what it is: replays
      are never fresh, and its identifier is refused to any other control. */
  lemma {:induction false} AcceptedForGood(d: Desk, events: seq<Event>, control: Control)
    requires Consistent(d) && NeverUsurped(d, events)
    ensures Consistent(After(d, events))
    ensures Known(d, control) ==> Known(After(d, events), control)
    decreases |events|
  {
    if events != [] {
      hide Step, Consistent, Known, Usurps;
      ConsistentUnlessUsurped(d, events[0]);
      if Known(d, control) {
        KnownStays(d, events[0], control);
      }
      AcceptedForGood(Step(d, events[0]), events[1..], control);
    }
  }

  /** A known identifier is answered as a replay of its control, and refused to every other one; only
      the usurping pause gets through with it. */
  lemma KnownIsReplayed(d: Desk, control: Control, request: Control, pending: Option<Id>, busy: bool, disk: Disk)
    requires Consistent(d) && Known(d, control) && request.decision == control.decision
    ensures var answer := Ask(d, request, pending, busy, disk).1;
            && (answer == Fresh <==> Usurps(d, Asked(request, pending, busy, disk)) && disk.index == Done)
            && (answer in {Replay, Reused} ==> answer == if request == control then Replay else Reused)
    ensures disk == GOOD_DISK && !busy && Addressed(Recover(d, disk).0, request, pending)
            && !Usurps(d, Asked(request, pending, busy, disk)) ==>
              Ask(d, request, pending, busy, disk).1 == if request == control then Replay else Reused
  {
    var recovered := Recover(d, disk).0;
    assert Consistent(recovered) && Known(recovered, control);
  }

  /** An acceptance is published before it is answered: whatever is fresh is on disk, and an
      activation is on disk as soon as its publication went through, whatever became of the rest. */
  lemma FreshIsKnown(d: Desk, request: Control, pending: Option<Id>, busy: bool, disk: Disk)
    requires Consistent(d)
    ensures var (after, answer) := Ask(d, request, pending, busy, disk);
            && (answer == Fresh ==> Known(after, request))
            && (Activates(request) && after.activation != d.activation ==> Known(after, request))
            && (Activates(request) && answer == Fresh ==> after.activation == Some(request) && after.open)
  {
    RecoverGrows(d, disk);
    TakenIsKnown(Recover(d, disk).0, request, disk);
    hide Recover, TakeIn;
  }

  lemma TakenIsKnown(d: Desk, request: Control, disk: Disk)
    ensures var (after, answer) := TakeIn(d, request, disk);
            && (answer == Fresh ==> Known(after, request) && (Activates(request) ==> after.activation == Some(request)))
            && (Activates(request) && after.activation != d.activation ==> Known(after, request))
  {
  }

  // -------------------------------------------------------------- revocation

  /** A replayed or conflicting control never disturbs the current generation; a fresh pause or a
      storage failure always closes it. */
  lemma ReplaysLeaveTheGenerationAlone(d: Desk, request: Control, pending: Option<Id>, busy: bool, disk: Disk)
    ensures var (after, answer) := Ask(d, request, pending, busy, disk);
            && (answer in {Replay, Reused, Unrecovered, NotCurrent, Busy} ==> after.open == d.open)
            && (answer == Failed || (answer == Fresh && !Activates(request)) ==> !after.open)
  {
  }

  /** A pause that was once accepted can never again close a generation handed out later, unless the
      disk fails. */
  lemma {:induction false} OldPauseIsHarmless(d: Desk, pause: Control, pending: Option<Id>, disk: Disk,
                                              events: seq<Event>, owner: Option<Id>, again: Disk)
    requires !Activates(pause) && Ask(d, pause, pending, false, disk).1 == Fresh
    ensures var later := After(Ask(d, pause, pending, false, disk).0, events);
            && Ask(later, pause, owner, false, again).1 in {Replay, Unrecovered, NotCurrent}
            && Ask(later, pause, owner, false, again).0.open == later.open
  {
    var first := Asked(pause, pending, false, disk);
    IndexOnlyGrows(d, first, pause.decision);
    IndexKept(Step(d, first), events, pause.decision);
    var later := After(Step(d, first), events);
    IndexOnlyGrows(later, Asked(pause, owner, false, again), pause.decision);
    StaysIndexed(later, again, pause.decision);
  }

  lemma StaysIndexed(d: Desk, disk: Disk, id: Id)
    requires id in d.intakes
    ensures id in Recover(d, disk).0.intakes && Recover(d, disk).0.intakes[id] == d.intakes[id]
  {
  }

  lemma {:induction false} IndexKept(d: Desk, events: seq<Event>, id: Id)
    requires id in d.intakes
    ensures id in After(d, events).intakes && After(d, events).intakes[id] == d.intakes[id]
    decreases |events|
  {
    if events != [] {
      hide Step, AnswersFresh;
      IndexOnlyGrows(d, events[0], id);
      IndexKept(Step(d, events[0]), events[1..], id);
    }
  }

  // ------------------------------------------------------- the exception, exhibited

  /** A resume of the campaign a recovery shows. */
  predicate Resumes(d: Desk, request: Control) {
    request.command == ResumeCampaign && d.activation.Some? && d.activation.value.campaign == request.campaign
  }

  /** After a restart the desk answers exactly when it is consistent, the accepted campaign can be read,
      and, for a resume of that campaign, also loaded. */
  lemma RecoversExactlyWhenConsistent(d: Desk, request: Control, pending: Option<Id>, busy: bool, disk: Disk)
    requires !d.loaded && disk.recovered == Done
    requires Keyed(d)
    ensures Ask(d, request, pending, busy, disk).1 != Unrecovered
            <==> && Consistent(d) && (d.activation.Some? ==> disk.rest)
                 && (Resumes(d, request) ==> disk.reconciled)
  {
  }

  /** An inconsistent desk never answers again, whatever is asked. */
  lemma {:induction false} InconsistentForGood(d: Desk, events: seq<Event>)
    requires !d.loaded && d.activation.Some? && d.activation.value.decision in d.intakes
    requires d.intakes[d.activation.value.decision] != d.activation.value
    ensures var end := After(d, events);
            !end.loaded && end.activation == d.activation && end.intakes == d.intakes
    ensures forall request, pending, busy, disk :: Ask(After(d, events), request, pending, busy, disk).1 == Unrecovered
    decreases |events|
  {
    if events != [] {
      InconsistentForGood(Step(d, events[0]), events[1..]);
    }
  }

  /** A campaign is started, then resumed with an index write that fails, then paused under the
      identifier of that resume: the pause is accepted as fresh, and no later helper can recover the
      desk. Neither command needs the other still to be pending. */
  lemma UsurpedActivationStrandsTheDesk(campaign: Id, first: Id, second: Id, settings: Settings, events: seq<Event>)
    requires first != second
    ensures var resume := Control(ResumeCampaign, campaign, second, None);
            var pause := Control(PauseCampaign, campaign, second, None);
            var started := Ask(EMPTY, Control(StartCampaign, campaign, first, Some(settings)), None, false, GOOD_DISK).0;
            var (resumed, lost) := Ask(started, resume, None, false, GOOD_DISK.(index := Lost));
            var (usurped, taken) := Ask(resumed, pause, None, false, GOOD_DISK);
            && lost == Failed && resumed.activation == Some(resume)
            && taken == Fresh && Usurps(resumed, Asked(pause, None, false, GOOD_DISK))
            && (forall request, pending, busy, disk ::
                  Ask(After(Step(usurped, Crashed), events), request, pending, busy, disk).1 == Unrecovered)
  {
    var start := Control(StartCampaign, campaign, first, Some(settings));
    var resume := Control(ResumeCampaign, campaign, second, None);
    var pause := Control(PauseCampaign, campaign, second, None);
    var started := Ask(EMPTY, start, None, false, GOOD_DISK).0;
    assert started == Desk(Some(start), map[first := start], true, Some(campaign), true);
    var resumed := Ask(started, resume, None, false, GOOD_DISK.(index := Lost)).0;
    assert resumed == Desk(Some(resume), map[first := start], true, Some(campaign), false);
    var usurped := Ask(resumed, pause, None, false, GOOD_DISK).0;
    assert usurped.activation == Some(resume) && usurped.intakes == map[first := start, second := pause];
    InconsistentForGood(Step(usurped, Crashed), events);
  }

  /** The first helper starts like every later one, with nothing on disk. */
  lemma FirstHelperStarts()
    ensures Step(EMPTY, Crashed) == EMPTY && EMPTY.activation == None && EMPTY.intakes == map[]
  {
  }

  /** What a recovery finds and leaves, whatever fails: an activation is accepted once the index has it, and
      what a failed recovery wrote stays. */
  lemma RecoveryExactly(d: Desk, disk: Disk)
    requires !d.loaded
    ensures var (t, ok) := Recover(d, disk);
            match d.activation
            case None => ok && t == d.(loaded := true, current := None)
            case Some(accepted) =>
              var indexed := accepted.decision in d.intakes;
              && (ok <==> accepted.command != PauseCampaign && disk.rest
                          && if indexed then d.intakes[accepted.decision] == accepted else disk.recovered == Done)
              && t.activation == d.activation && t.open == d.open
              && (t.loaded <==> ok) && t.current == (if ok then Some(accepted.campaign) else d.current)
              && t.intakes == if accepted.command != PauseCampaign && !indexed && disk.recovered != Lost
                              then d.intakes[accepted.decision := accepted] else d.intakes
  {
  }

  /** What the intake of an unindexed control leaves, whatever fails. An activation passes three publications:
      the index entry its predecessor lacks, its own record, its own index entry. */
  lemma IntakeExactly(d: Desk, request: Control, disk: Disk)
    requires request.decision !in d.intakes
    ensures var (t, answer) := TakeIn(d, request, disk);
            var lacking := d.activation != None && d.activation.value.decision !in d.intakes;
            var before := if lacking && disk.previous != Lost
                          then d.intakes[d.activation.value.decision := d.activation.value] else d.intakes;
            if request.command == PauseCampaign
            then && t == d.(intakes := if disk.index == Lost then d.intakes else d.intakes[request.decision := request])
                 && answer == if disk.index == Done then Fresh else Failed
            else if lacking && disk.previous != Done then t == d.(intakes := before) && answer == Failed
            else if d.activation != None && d.activation.value.decision == request.decision
            then t == d.(intakes := before) && answer == if d.activation == Some(request) then Replay else Reused
            else && t.activation == (if disk.accepted == Lost then d.activation else Some(request))
                 && t.intakes == (if disk.accepted == Done && disk.index != Lost
                                  then before[request.decision := request] else before)
                 && answer == (if disk.accepted == Done && disk.index == Done then Fresh else Failed)
                 && t.loaded == d.loaded && t.current == d.current && t.open == d.open
  {
  }

  /** What a desk that has recovered, with a disk that answers, makes of a request: it has to be a start, or name
      the campaign shown, or for a pause the one pending; a known identifier is a replay or a reuse; a new
      activation has to find nothing running; and what is new is on disk afterwards. */
  lemma AnsweredExactly(d: Desk, request: Control, pending: Option<Id>, busy: bool)
    requires Consistent(d) && d.loaded
    ensures var (after, answer) := Ask(d, request, pending, busy, GOOD_DISK);
            var here := || request.command == StartCampaign || d.current == Some(request.campaign)
                        || (request.command == PauseCampaign && pending == Some(request.campaign));
            var indexed := request.decision in d.intakes;
            var unindexed := !indexed && request.command != PauseCampaign
                             && d.activation.Some? && d.activation.value.decision == request.decision;
            if !here then answer == NotCurrent && after == d
            else if busy && request.command != PauseCampaign && !indexed then answer == Busy && after == d
            else if indexed then after == d && answer == if d.intakes[request.decision] == request then Replay else Reused
            else if unindexed then answer == (if d.activation == Some(request) then Replay else Reused)
                                   && after == d.(intakes := d.intakes[request.decision := d.activation.value])
            else && answer == Fresh && after.loaded
                 && request.decision in after.intakes && after.intakes[request.decision] == request
                 && (request.command == PauseCampaign ==>
                       after == d.(intakes := d.intakes[request.decision := request], open := false))
                 && (request.command != PauseCampaign ==>
                       && after.activation == Some(request) && after.open
                       && (d.activation.Some? ==> d.activation.value.decision in after.intakes)
                       && after.current == if request.command == StartCampaign then Some(request.campaign) else d.current)
  {
  }

  // ------------------------------------------------------------------ the dispatcher

  class Dispatcher {
    var activation: Option<Control>
    var intakes: map<Id, Control>
    var loaded: bool
    var current: Option<Id>
    var open: bool

    constructor (activation: Option<Control>, intakes: map<Id, Control>)
      ensures View() == Desk(activation, intakes, false, None, false)
    {
      this.activation := activation;
      this.intakes := intakes;
      loaded := false;
      current := None;
      open := false;
    }

    function View(): Desk
      reads this
    {
      Desk(activation, intakes, loaded, current, open)
    }

    method RecoverDesk(disk: Disk) returns (ok: bool)
      modifies this
      ensures (View(), ok) == Recover(old(View()), disk)
    {
      if loaded {
        return true;
      }
      if activation.Some? {
        var control := activation.value;
        if !Activates(control) {
          return false;
        }
        if control.decision in intakes {
          if intakes[control.decision] != control {
            return false;
          }
        } else {
          intakes, ok := PublishIntake(control, disk.recovered);
          if !ok {
            return false;
          }
        }
      }
      ok := activation.None? || disk.rest;
      if ok {
        loaded := true;
        current := if activation.Some? then Some(activation.value.campaign) else None;
      }
    }

    method PublishIntake(control: Control, fate: Fate) returns (published: map<Id, Control>, ok: bool)
      ensures (published, ok) == Publish(intakes, control.decision, control, fate)
    {
      if control.decision in intakes || fate == Lost {
        return intakes, false;
      }
      published, ok := intakes[control.decision := control], fate == Done;
    }

    method TakeInControl(request: Control, disk: Disk) returns (answer: Answer)
      modifies this
      ensures (View(), answer) == TakeIn(old(View()), request, disk)
    {
      if request.decision in intakes {
        return if intakes[request.decision] != request then Reused else Replay;
      }
      var ok;
      if Activates(request) {
        if activation.Some? {
          var previous := activation.value;
          if previous.decision !in intakes {
            intakes, ok := PublishIntake(previous, disk.previous);
            if !ok {
              return Failed;
            }
          }
          if previous.decision == request.decision {
            return if previous != request then Reused else Replay;
          }
        }
        if disk.accepted != Lost {
          activation := Some(request);
        }
        if disk.accepted != Done {
          return Failed;
        }
      }
      intakes, ok := PublishIntake(request, disk.index);
      answer := if ok then Fresh else Failed;
    }

    method Admit(request: Control, pending: Option<Id>, busy: bool, disk: Disk) returns (answer: Answer)
      modifies this
      ensures (View(), answer) == Ask(old(View()), request, pending, busy, disk)
    {
      var ok := RecoverDesk(disk);
      if !ok {
        return Unrecovered;
      }
      if !Addressed(View(), request, pending) {
        return NotCurrent;
      }
      if request.command == ResumeCampaign && !disk.reconciled {
        return Unrecovered;
      }
      if busy && Activates(request) && request.decision !in intakes {
        return Busy;
      }
      answer := TakeInControl(request, disk);
      if answer == Fresh {
        open := Activates(request);
        if request.command == StartCampaign && disk.begun {
          current := Some(request.campaign);
        }
      } else if answer == Failed {
        open := false;
      }
    }
  }
}
