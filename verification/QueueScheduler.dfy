/** `_schedule_available`, `_analysis_finished`, `wait` and the ends of `persist`: who may run a
    scheduling pass, how many analyses may be outstanding, what becomes of a card deferred for a write,
    and when the coordinator is idle. Each event is one stretch under a lock; any thread may ask for a
    pass at any time. */
module QueueScheduler {

  /** Where the one scheduling pass stands: about to pick, or with so many picked cards to prepare, the
      first of which may have been refused the Photos lane. */
  datatype Pass = NoPass | Picking | Working(left: nat, refused: bool)

  /** `operations`, `requested` and `futures` are the coordinator's own counters, `writes` the lane's
      registered ones. `callbacks` are analysis callbacks about to ask for a pass and `finishing` those
      that have asked; `filling` are verified writes about to fill, `refills` those about to ask.
      `waiting` and `preparing` count current cards in those states. `limit` is the largest
      concurrency so far; `owed` says that a request came in mid-pass and no pick followed it yet. */
  datatype Scheduler = Scheduler(
    running: bool, concurrency: nat, waiting: nat, preparing: nat, futures: nat,
    operations: nat, requested: bool, callbacks: nat, finishing: nat,
    writes: nat, filling: nat, refills: nat, pass: Pass, limit: nat, owed: bool)

  /** What becomes of one picked card that is not put back: failed, or submitted. A card discarded
      meanwhile is submitted too, but is no longer counted as preparing. */
  datatype Prepared = FailedToPrepare | Submitted | SubmittedStale

  datatype Event =
    | Request                       // a command thread calls _schedule_available
    | Pick | ReadRefused | Restore | Prepare(result: Prepared) | LeaveStale | EndPass | AbortPass
    | Finish(ok: bool) | CallbackRequests | CompletionDone
    | Register | EndWrite(verified: bool) | FillsUp(added: nat) | FillRaises | RefillRequests
    | SetRunning(on: bool) | SetConcurrency(workers: nat)
    | CardArrives | CardLeaves | PreparingLeaves

  function Capacity(s: Scheduler): nat {
    if s.concurrency > s.futures + s.preparing then s.concurrency - s.futures - s.preparing else 0
  }

  function Min(a: nat, b: nat): nat { if a < b then a else b }
  function Max(a: nat, b: nat): nat { if a < b then b else a }
  function Less(a: nat): nat { if a > 0 then a - 1 else 0 }

  function RequestStep(s: Scheduler): Scheduler {
    if !s.running then s
    else if s.operations != 0 then s.(requested := true, owed := true)
    else s.(operations := s.operations + 1, pass := Picking)
  }

  /** The lock stretch that starts each round; a session that stopped ends the pass here. */
  function PickStep(s: Scheduler): Scheduler {
    if s.pass != Picking then s
    else if !s.running then Released(s)
    else
      var taken := Min(Capacity(s), s.waiting);
      s.(waiting := s.waiting - taken, preparing := s.preparing + taken, pass := Working(taken, false), owed := false)
  }

  function Released(s: Scheduler): Scheduler {
    s.(operations := Less(s.operations), pass := NoPass)
  }

  predicate AtCard(s: Scheduler, refused: bool) {
    s.pass.Working? && s.pass.left > 0 && s.pass.refused == refused
  }

  /** The lane refuses a read exactly while a write is registered; the card then goes back to the queue,
      whatever has become of the write by that time. */
  function ReadRefusedStep(s: Scheduler): Scheduler {
    if AtCard(s, false) && s.writes > 0 then s.(pass := Working(s.pass.left, true)) else s
  }

  function RestoreStep(s: Scheduler): Scheduler {
    if !AtCard(s, true) then s
    else s.(pass := Working(s.pass.left - 1, false), preparing := Less(s.preparing), waiting := s.waiting + 1)
  }

  function PrepareStep(s: Scheduler, result: Prepared): Scheduler {
    if !AtCard(s, false) && !(AtCard(s, true) && result == FailedToPrepare) then s
    else
      var s1 := s.(pass := Working(s.pass.left - 1, false));
      match result
      case FailedToPrepare => s1.(preparing := Less(s.preparing))
      case Submitted => s1.(preparing := Less(s.preparing), futures := s.futures + 1)
      case SubmittedStale => s1.(futures := s.futures + 1)
  }

  /** A card discarded or rescanned since it was picked is neither put back nor failed. */
  function LeaveStaleStep(s: Scheduler): Scheduler {
    if s.pass.Working? && s.pass.left > 0 then s.(pass := Working(s.pass.left - 1, false)) else s
  }

  function EndPassStep(s: Scheduler): Scheduler {
    if s.pass != Working(0, false) then s
    else if s.requested then s.(requested := false, pass := Picking)
    else Released(s)
  }

  /** An analysis comes back. When recording it raises, its callback asks for nothing. */
  function FinishStep(s: Scheduler, ok: bool): Scheduler {
    if s.futures == 0 then s
    else s.(futures := s.futures - 1, callbacks := s.callbacks + if ok then 1 else 0)
  }

  function CallbackStep(s: Scheduler): Scheduler {
    if s.callbacks == 0 then s else RequestStep(s.(callbacks := s.callbacks - 1, finishing := s.finishing + 1))
  }

  /** The end of a registered write. Only a verified one goes on to fill the slots and ask for a pass. */
  function EndWriteStep(s: Scheduler, verified: bool): Scheduler {
    if s.writes == 0 then s
    else s.(writes := s.writes - 1, filling := s.filling + if verified then 1 else 0)
  }

  function FillsUpStep(s: Scheduler, added: nat): Scheduler {
    if s.filling == 0 then s
    else s.(filling := s.filling - 1, refills := s.refills + 1, waiting := s.waiting + added)
  }

  function RefillStep(s: Scheduler): Scheduler {
    if s.refills == 0 then s else RequestStep(s.(refills := s.refills - 1))
  }

  function Step(s: Scheduler, e: Event): Scheduler {
    match e
    case Request => RequestStep(s)
    case Pick => PickStep(s)
    case ReadRefused => ReadRefusedStep(s)
    case Restore => RestoreStep(s)
    case Prepare(result) => PrepareStep(s, result)
    case LeaveStale => LeaveStaleStep(s)
    case EndPass => EndPassStep(s)
    case AbortPass => if s.pass.NoPass? then s else Released(s)
    case Finish(ok) => FinishStep(s, ok)
    case CallbackRequests => CallbackStep(s)
    case CompletionDone => s.(finishing := Less(s.finishing))
    case Register => s.(writes := s.writes + 1)
    case EndWrite(verified) => EndWriteStep(s, verified)
    case FillsUp(added) => FillsUpStep(s, added)
    case FillRaises => s.(filling := Less(s.filling))
    case RefillRequests => RefillStep(s)
    case SetRunning(on) => s.(running := on)
    case SetConcurrency(workers) => s.(concurrency := workers, limit := Max(s.limit, workers))
    case CardArrives => s.(waiting := s.waiting + 1)
    case CardLeaves => s.(waiting := Less(s.waiting))
    case PreparingLeaves => s.(preparing := Less(s.preparing))
  }

  function After(s: Scheduler, events: seq<Event>): Scheduler
    decreases |events|
  {
    if events == [] then s else After(Step(s, events[0]), events[1..])
  }

  function Fresh(concurrency: nat): Scheduler {
    Scheduler(false, concurrency, 0, 0, 0, 0, false, 0, 0, 0, 0, 0, NoPass, concurrency, false)
  }

  function Left(p: Pass): nat { if p.Working? then p.left else 0 }

  predicate Inv(s: Scheduler) {
    && (s.operations == 0 <==> s.pass == NoPass) && s.operations <= 1
    && s.futures + Left(s.pass) <= s.limit && s.concurrency <= s.limit
    && (s.owed && s.pass.Working? ==> s.requested)
    && (s.pass.Working? && s.pass.refused ==> s.pass.left > 0)
  }

  lemma StepKeeps(s: Scheduler, e: Event)
    requires Inv(s)
    ensures Inv(Step(s, e))
    ensures !e.SetConcurrency? ==> Step(s, e).limit == s.limit && Step(s, e).concurrency == s.concurrency
    ensures s.running && (s.pass == NoPass ==> !s.owed) && !e.AbortPass? && e != SetRunning(false) ==>
              Step(s, e).running && (Step(s, e).pass == NoPass ==> !Step(s, e).owed)
  {
  }

  lemma {:induction false} RunKeeps(s: Scheduler, events: seq<Event>)
    requires Inv(s)
    ensures Inv(After(s, events))
    decreases |events|
  {
    if events != [] {
      StepKeeps(s, events[0]);
      RunKeeps(Step(s, events[0]), events[1..]);
    }
  }

  /** One pass at a time, and never more outstanding analyses than the largest concurrency asked for. */
  lemma OnePassBoundedFutures(concurrency: nat, events: seq<Event>)
    ensures var s := After(Fresh(concurrency), events);
            s.operations <= 1 && (s.operations == 1 <==> s.pass != NoPass) && s.futures + Left(s.pass) <= s.limit
  {
    RunKeeps(Fresh(concurrency), events);
  }

  lemma {:induction false} LimitUnchanged(s: Scheduler, events: seq<Event>)
    requires Inv(s) && s.limit == s.concurrency && forall i :: 0 <= i < |events| ==> !events[i].SetConcurrency?
    ensures After(s, events).limit == After(s, events).concurrency == s.concurrency
    decreases |events|
  {
    hide Step;
    if events != [] {
      StepKeeps(s, events[0]);
      LimitUnchanged(Step(s, events[0]), events[1..]);
    }
  }

  /** Under an unchanged concurrency the executor never holds more analyses than it has workers. */
  lemma FuturesWithinConcurrency(concurrency: nat, events: seq<Event>)
    requires forall i :: 0 <= i < |events| ==> !events[i].SetConcurrency?
    ensures After(Fresh(concurrency), events).futures <= concurrency
  {
    OnePassBoundedFutures(concurrency, events);
    LimitUnchanged(Fresh(concurrency), events);
  }

  /** A look at the queue takes as many waiting cards as there are workers neither analysing nor being
      prepared for; what was asked for before it is answered by it. */
  lemma PickSpelledOut(s: Scheduler)
    requires s.running && s.pass == Picking
    ensures var t := PickStep(s);
            var idle := s.concurrency as int - s.futures - s.preparing;
            var taken := if idle <= 0 then 0 else if s.waiting < idle then s.waiting else idle;
            && t.pass == Working(taken, false) && t.waiting == s.waiting - taken && t.preparing == s.preparing + taken
            && t.futures == s.futures && !t.owed
  {
  }

  /** How the picked cards leave the pass: refused only while a write is registered, and then back to the
      waiting ones or failed; otherwise to an analysis or failed. Each takes one turn. */
  lemma CardsLeaveExactly(s: Scheduler, result: Prepared)
    requires s.pass.Working? && s.pass.left > 0 && s.preparing > 0
    ensures var next := Working(s.pass.left - 1, false);
            && Step(s, ReadRefused)
               == (if s.pass.refused || s.writes == 0 then s else s.(pass := Working(s.pass.left, true)))
            && Step(s, Restore) == (if !s.pass.refused then s
                                    else s.(pass := next, preparing := s.preparing - 1, waiting := s.waiting + 1))
            && Step(s, LeaveStale) == s.(pass := next) && Step(s, EndPass) == s
            && Step(s, Prepare(result))
               == if s.pass.refused && result != FailedToPrepare then s
                  else s.(pass := next, preparing := s.preparing - (if result == SubmittedStale then 0 else 1),
                          futures := s.futures + (if result == FailedToPrepare then 0 else 1))
  {
  }

  /** What a request, the end of a pass and its failure do: one pass at a time, and one more for the
      requests made during it. */
  lemma PassesFollowRequests(s: Scheduler)
    requires Inv(s)
    ensures var t := Step(s, Request);
            if !s.running then t == s
            else if s.pass == NoPass then t == s.(operations := 1, pass := Picking)
            else t == s.(requested := true, owed := true)
    ensures s.pass == Working(0, false) ==>
              Step(s, EndPass) == if s.requested then s.(requested := false, pass := Picking)
                                  else s.(operations := 0, pass := NoPass)
    ensures Step(s, AbortPass) == s.(operations := 0, pass := NoPass)
    ensures s.pass == Picking && !s.running ==> Step(s, Pick) == s.(operations := 0, pass := NoPass)
  {
  }

  /** Whoever comes back asks for a pass after its own work: an analysis that was recorded, and a write
      that was verified and whose slots were filled. */
  lemma ReturnsAskExactly(s: Scheduler, ok: bool, added: nat)
    ensures s.futures > 0 ==>
              Step(s, Finish(ok)) == s.(futures := s.futures - 1, callbacks := if ok then s.callbacks + 1 else s.callbacks)
    ensures s.callbacks > 0 ==>
              Step(s, CallbackRequests) == Step(s.(callbacks := s.callbacks - 1, finishing := s.finishing + 1), Request)
    ensures s.finishing > 0 ==> Step(s, CompletionDone) == s.(finishing := s.finishing - 1)
    ensures s.writes > 0 ==>
              Step(s, EndWrite(ok)) == s.(writes := s.writes - 1, filling := if ok then s.filling + 1 else s.filling)
    ensures s.filling > 0 ==>
              && Step(s, FillsUp(added))
                 == s.(filling := s.filling - 1, refills := s.refills + 1, waiting := s.waiting + added)
              && Step(s, FillRaises) == s.(filling := s.filling - 1)
    ensures s.refills > 0 ==> Step(s, RefillRequests) == Step(s.(refills := s.refills - 1), Request)
  {
  }

  // ------------------------------------------------------------ requests are not lost

  /** A pass cannot end normally while a request that came in during it is unanswered: the end of the
      pass starts a fresh one, and that one picks unless the session has stopped. */
  lemma RequestsAreAnswered(s: Scheduler)
    requires Inv(s) && s.pass == Working(0, false)
    ensures EndPassStep(s).pass == NoPass ==> !s.owed
    ensures s.owed ==> EndPassStep(s).pass == Picking
    ensures s.owed && s.running ==> !PickStep(EndPassStep(s)).owed
  {
  }

  predicate NoAbort(events: seq<Event>) {
    forall i :: 0 <= i < |events| ==> !events[i].AbortPass? && events[i] != SetRunning(false)
  }

  /** Over a whole run without an exception or a stop: once no pass is alive, no request is owed. */
  lemma {:induction false} IdleOwesNothing(s: Scheduler, events: seq<Event>)
    requires Inv(s) && s.running && (s.pass == NoPass ==> !s.owed) && NoAbort(events)
    ensures var end := After(s, events);
            Inv(end) && end.running && (end.pass == NoPass ==> !end.owed)
    decreases |events|
  {
    hide Step;
    if events != [] {
      StepKeeps(s, events[0]);
      IdleOwesNothing(Step(s, events[0]), events[1..]);
    }
  }

  /** How many looks at the queue a run takes. */
  function Looks(s: Scheduler, events: seq<Event>): nat
    decreases |events|
  {
    if events == [] then 0
    else (if events[0] == Pick && s.pass == Picking && s.running then 1 else 0) + Looks(Step(s, events[0]), events[1..])
  }

  lemma RequestStands(s: Scheduler, e: Event)
    requires s.running && !e.AbortPass? && e != SetRunning(false) && (s.pass == Picking || (s.pass.Working? && s.requested))
    ensures var t := Step(s, e);
            t.running && ((e == Pick && s.pass == Picking) || t.pass == Picking || (t.pass.Working? && t.requested))
  {
  }

  lemma {:induction false} PassLooks(s: Scheduler, events: seq<Event>)
    requires s.running && NoAbort(events) && (s.pass == Picking || (s.pass.Working? && s.requested))
    requires After(s, events).pass == NoPass
    ensures Looks(s, events) > 0
    decreases |events|
  {
    hide Step;
    if events != [] && !(events[0] == Pick && s.pass == Picking) {
      RequestStands(s, events[0]);
      PassLooks(Step(s, events[0]), events[1..]);
    }
  }

  /** So whoever asks in a running session, during a pass or not, has the queue looked at afterwards: no
      run without an exception or a stop ends its passes before. */
  lemma RequestGetsALook(s: Scheduler, events: seq<Event>)
    requires Inv(s) && s.running && NoAbort(events)
    requires After(Step(s, Request), events).pass == NoPass
    ensures Looks(Step(s, Request), events) > 0
  {
    PassLooks(Step(s, Request), events);
  }

  // ------------------------------------------------------------------------- wait

  /** The condition `wait` returns on. */
  predicate WaitReturns(s: Scheduler) { s.futures == 0 && s.callbacks + s.finishing == 0 && s.operations == 0 }

  /** What the threads of commands do, the ends of their writes included. */
  predicate FromOutside(e: Event) {
    || e.Request? || e.SetRunning? || e.SetConcurrency? || e.CardArrives? || e.CardLeaves? || e.PreparingLeaves?
    || e.Register? || e.EndWrite? || e.FillsUp? || e.FillRaises? || e.RefillRequests?
  }

  /** `wait` returns exactly when nothing of the coordinator's own is alive: no analysis, no callback,
      no pass. From there nothing moves unless a command does. */
  lemma WaitIsExact(s: Scheduler, e: Event)
    requires Inv(s)
    ensures WaitReturns(s) <==> s.futures == 0 && s.callbacks == 0 && s.finishing == 0 && s.pass == NoPass
    ensures WaitReturns(s) && !FromOutside(e) ==> Step(s, e) == s
  {
  }

  // --------------------------------------------------- what follows a deferred card

  /** What goes on without a new command and without an exception: the pass, the analyses with their
      callbacks, and the verified writes that still have to fill and ask. */
  predicate Own(e: Event) {
    || e.Pick? || e.ReadRefused? || e.Restore? || e.Prepare? || e.LeaveStale? || e.EndPass?
    || (e.Finish? && e.ok) || e.CallbackRequests? || e.CompletionDone? || e.FillsUp? || e.RefillRequests?
  }

  predicate OwnRun(events: seq<Event>) { forall i :: 0 <= i < |events| ==> Own(events[i]) }

  /** Nothing of that is left. */
  predicate Over(s: Scheduler) {
    s.pass == NoPass && s.futures == 0 && s.callbacks == 0 && s.finishing == 0 && s.filling == 0 && s.refills == 0
  }

  lemma OverIsExact(s: Scheduler)
    requires Inv(s)
    ensures Over(s) <==> forall e | Own(e) :: Step(s, e) == s
  {
    if !Over(s) {
      var e := if s.pass == Picking then Pick else if s.pass == Working(0, false) then EndPass
               else if s.pass.Working? then Prepare(FailedToPrepare)
               else if s.futures > 0 then Finish(true) else if s.callbacks > 0 then CallbackRequests
               else if s.finishing > 0 then CompletionDone else if s.filling > 0 then FillsUp(0) else RefillRequests;
      assert Own(e) && Step(s, e) != s;
    }
  }

  /** How many cards the picks of a run take. */
  function Picks(s: Scheduler, events: seq<Event>): nat
    decreases |events|
  {
    if events == [] then 0
    else (if events[0] == Pick && s.pass == Picking && s.running then Min(Capacity(s), s.waiting) else 0)
         + Picks(Step(s, events[0]), events[1..])
  }

  /** Somebody is still going to look at the queue. */
  predicate LookToCome(s: Scheduler) {
    || s.futures + s.callbacks + s.filling + s.refills > 0
    || s.pass == Picking || (s.pass == Working(0, false) && s.requested)
  }

  /** A card waits with room for it, no write is registered, and no picked card is unresolved. */
  predicate CardWaits(s: Scheduler) {
    && Inv(s) && s.running && s.writes == 0 && s.waiting > 0 && Capacity(s) > 0
    && (s.pass.Working? ==> s.pass.left == 0)
  }

  lemma WaitsOn(s: Scheduler, e: Event)
    requires CardWaits(s) && Own(e) && !(e == Pick && s.pass == Picking)
    ensures CardWaits(Step(s, e)) && (LookToCome(Step(s, e)) <==> LookToCome(s))
    ensures Step(s, e) != s ==> StepsToLook(Step(s, e)) < StepsToLook(s)
  {
    hide Step;
    if e.CallbackRequests? && s.callbacks > 0 {
      WaitsThroughRequest(s, s.(callbacks := s.callbacks - 1, finishing := s.finishing + 1));
    } else if e.RefillRequests? && s.refills > 0 {
      WaitsThroughRequest(s, s.(refills := s.refills - 1));
    }
    StepsAs(s, e);
  }

  /** What the own events of a coordinator without unresolved cards do. */
  lemma StepsAs(s: Scheduler, e: Event)
    requires CardWaits(s) && Own(e) && !(e == Pick && s.pass == Picking)
    ensures e.CallbackRequests? ==>
              Step(s, e) == if s.callbacks == 0 then s
                            else RequestStep(s.(callbacks := s.callbacks - 1, finishing := s.finishing + 1))
    ensures e.RefillRequests? ==>
              Step(s, e) == if s.refills == 0 then s else RequestStep(s.(refills := s.refills - 1))
    ensures !e.CallbackRequests? && !e.RefillRequests? ==>
              && CardWaits(Step(s, e)) && (LookToCome(Step(s, e)) <==> LookToCome(s))
              && (Step(s, e) != s ==> StepsToLook(Step(s, e)) < StepsToLook(s))
  {
    hide RequestStep;
  }

  lemma WaitsThroughRequest(s: Scheduler, asking: Scheduler)
    requires CardWaits(s)
    requires || (s.callbacks > 0 && asking == s.(callbacks := s.callbacks - 1, finishing := s.finishing + 1))
             || (s.refills > 0 && asking == s.(refills := s.refills - 1))
    ensures CardWaits(RequestStep(asking)) && LookToCome(RequestStep(asking))
    ensures StepsToLook(RequestStep(asking)) < StepsToLook(s)
  {
  }

  /** How many steps there can be before the next pick. */
  function StepsToLook(s: Scheduler): nat {
    3 * s.futures + 2 * s.callbacks + s.finishing + 2 * s.filling + s.refills + if s.pass.Working? then 1 else 0
  }

  lemma {:induction false} LookPicks(s: Scheduler, events: seq<Event>)
    requires CardWaits(s) && LookToCome(s) && OwnRun(events) && Over(After(s, events))
    ensures Picks(s, events) > 0
    decreases |events|
  {
    if events != [] && !(events[0] == Pick && s.pass == Picking) {
      WaitsOn(s, events[0]);
      LookPicks(Step(s, events[0]), events[1..]);
    }
  }

  /** It does not go on forever without that pick: a run in which every step does something takes the
      card before it is longer than the steps that were left. */
  lemma {:induction false} LookComesSoon(s: Scheduler, events: seq<Event>)
    requires CardWaits(s) && OwnRun(events) && Busy(s, events) && |events| > StepsToLook(s)
    ensures Picks(s, events) > 0
    decreases |events|
  {
    if !(events[0] == Pick && s.pass == Picking) {
      WaitsOn(s, events[0]);
      LookComesSoon(Step(s, events[0]), events[1..]);
    }
  }

  predicate Busy(s: Scheduler, events: seq<Event>)
    decreases |events|
  {
    events != [] ==> Step(s, events[0]) != s && Busy(Step(s, events[0]), events[1..])
  }

  /** When nobody is going to look, the pass and the finished callbacks end and the card stays. */
  function Ending(s: Scheduler): seq<Event>
    decreases s.finishing
  {
    if s.finishing > 0 then [CompletionDone] + Ending(s.(finishing := s.finishing - 1))
    else if s.pass.Working? then [EndPass]
    else []
  }

  lemma {:induction false} StrandedRun(s: Scheduler)
    requires CardWaits(s) && !LookToCome(s)
    ensures OwnRun(Ending(s)) && Over(After(s, Ending(s))) && Picks(s, Ending(s)) == 0
    decreases s.finishing
  {
    if s.finishing > 0 {
      var next := s.(finishing := s.finishing - 1);
      StrandedRun(next);
      assert Ending(s)[0] == CompletionDone && Ending(s)[1..] == Ending(next);
    } else if s.pass.Working? {
      assert Ending(s) == [EndPass] && [EndPass][1..] == [];
    }
  }

  /** Once no write is registered any more, a waiting card is picked up without a new command if and
      only if somebody is still going to look: a verified write that has not asked yet, an analysis
      or its callback, a request noted by the pass, or that pass itself. An uncertain end is none of them. */
  lemma PickedUpExactlyWhenLookToCome(s: Scheduler)
    requires CardWaits(s)
    ensures (forall events | OwnRun(events) && Over(After(s, events)) :: Picks(s, events) > 0) <==> LookToCome(s)
  {
    if LookToCome(s) {
      forall events | OwnRun(events) && Over(After(s, events)) ensures Picks(s, events) > 0 {
        LookPicks(s, events);
      }
    } else {
      StrandedRun(s);
    }
  }

  /** What the end of the last write decides: after a verified one the card is always picked up, after
      an uncertain one exactly when somebody was going to look anyway. */
  lemma LastWriteDecides(s: Scheduler, verified: bool)
    requires s.writes == 1 && CardWaits(s.(writes := 0))
    ensures CardWaits(Step(s, EndWrite(verified)))
    ensures LookToCome(Step(s, EndWrite(verified))) <==> verified || LookToCome(s)
  {
  }

  /** The history of a stranded card: a pass that ran into a registered write puts it back and ends, and
      the write ends uncertain. */
  function Stranding(): seq<Event> {
    [SetRunning(true), CardArrives, Register, Request, Pick, ReadRefused, Restore, EndPass, EndWrite(false)]
  }

  /** Where a run stands whose one card waits or is about to be picked, with so many writes registered. */
  function Standing(concurrency: nat, pass: Pass, waiting: nat, preparing: nat, writes: nat): Scheduler {
    Scheduler(true, concurrency, waiting, preparing, 0, if pass == NoPass then 0 else 1, false, 0, 0,
              writes, 0, 0, pass, concurrency, false)
  }

  lemma DeferredCardCanBeStranded(concurrency: nat)
    requires concurrency > 0
    ensures var s := After(Fresh(concurrency), Stranding());
            CardWaits(s) && WaitReturns(s) && Over(s) && !LookToCome(s)
  {
    hide Step;
    var events := Stranding();
    Deferring(concurrency);
    FourAtOnce(Fresh(concurrency), events);
    FourAtOnce(Standing(concurrency, Picking, 1, 0, 1), events[4..]);
    assert events[4..][4..] == [EndWrite(false)];
    Unfold(Standing(concurrency, NoPass, 1, 0, 1), [EndWrite(false)]);
    assert [EndWrite(false)][1..] == [];
  }

  lemma Deferring(concurrency: nat)
    requires concurrency > 0
    ensures Four(Fresh(concurrency), Stranding()) == Standing(concurrency, Picking, 1, 0, 1)
    ensures Four(Standing(concurrency, Picking, 1, 0, 1), Stranding()[4..]) == Standing(concurrency, NoPass, 1, 0, 1)
    ensures Step(Standing(concurrency, NoPass, 1, 0, 1), EndWrite(false)) == Standing(concurrency, NoPass, 1, 0, 0)
  {
  }

  /** A verified write beside it does not help when its pass ran before the other one ended. */
  function StrandingBesideASave(): seq<Event> {
    [SetRunning(true), CardArrives, Register, Register] + [EndWrite(true), FillsUp(0), RefillRequests, Pick]
    + [ReadRefused, Restore, EndPass, EndWrite(false)]
  }

  lemma VerifiedWriteBesideItIsNotEnough(concurrency: nat)
    requires concurrency > 0
    ensures EndWrite(true) in StrandingBesideASave()
    ensures var s := After(Fresh(concurrency), StrandingBesideASave());
            CardWaits(s) && WaitReturns(s) && Over(s) && !LookToCome(s)
  {
    hide Step;
    var events := StrandingBesideASave();
    assert events[4] == EndWrite(true);
    DeferringTwice(concurrency);
    FourAtOnce(Fresh(concurrency), events);
    FourAtOnce(Standing(concurrency, NoPass, 1, 0, 2), events[4..]);
    FourAtOnce(Standing(concurrency, Working(1, false), 0, 1, 1), events[8..]);
    assert events[4..][4..] == events[8..] && events[8..][4..] == [];
  }

  lemma DeferringTwice(concurrency: nat)
    requires concurrency > 0
    ensures Four(Fresh(concurrency), StrandingBesideASave()) == Standing(concurrency, NoPass, 1, 0, 2)
    ensures Four(Standing(concurrency, NoPass, 1, 0, 2), StrandingBesideASave()[4..])
            == Standing(concurrency, Working(1, false), 0, 1, 1)
    ensures Four(Standing(concurrency, Working(1, false), 0, 1, 1), StrandingBesideASave()[8..])
            == Standing(concurrency, NoPass, 1, 0, 0)
  {
  }

  function Four(s: Scheduler, events: seq<Event>): Scheduler
    requires |events| >= 4
  {
    Step(Step(Step(Step(s, events[0]), events[1]), events[2]), events[3])
  }

  lemma FourAtOnce(s: Scheduler, events: seq<Event>)
    requires |events| >= 4
    ensures After(s, events) == After(Four(s, events), events[4..])
  {
    hide Step;
    Unfold(s, events);
    var s1 := Step(s, events[0]);
    Unfold(s1, events[1..]);
    var s2 := Step(s1, events[1]);
    Unfold(s2, events[2..]);
    Unfold(Step(s2, events[2]), events[3..]);
    assert events[1..][1..] == events[2..] && events[2..][1..] == events[3..] && events[3..][1..] == events[4..];
  }

  lemma Unfold(s: Scheduler, events: seq<Event>)
    requires events != []
    ensures After(s, events) == After(Step(s, events[0]), events[1..])
  {
  }
}
