/** Ownership of the helper: manual and queue work on one side, an autonomous campaign on the other.
    Each event is one stretch under the server's state lock, or one observation a draining thread makes. */
module Handoff {
  import opened Wrappers

  type Id = string
  type Thread = nat
  type Generation = nat

  /** How far an activation's drain has come. */
  datatype Stage = Joining | ThreadsGone | Drained

  /** One activation command inside the runtime. `slot` says that it acquired the owner slot; without
      it, its generation is one the server does not know. */
  datatype Task = Task(campaign: Id, generation: Generation, slot: bool, accepted: set<Thread>, stage: Stage)

  datatype Driver = Driver(generation: Generation, slot: bool)

  /** `manual` are the manual and queue command threads alive, `busy` says that some queue coordinator
      still has an analysis, a write or a pass under way. */
  datatype Hub = Hub(
    owner: Option<Id>, generation: Option<Generation>, next: Generation, revoked: set<Generation>, closing: bool,
    manual: set<Thread>, busy: bool, tasks: map<Thread, Task>, driver: Option<Driver>)

  datatype Event =
    | Manual(thread: Thread)                  // a manual or queue command arrives
    | ManualEnds(thread: Thread)
    | CoordinatorStirs(thread: Thread)        // a command thread gives a coordinator work
    | CoordinatorSettles
    | Activate(thread: Thread, campaign: Id)
    | JoinAccepted(thread: Thread)
    | WaitCoordinators(thread: Thread)
    | StartDriver(thread: Thread)
    | GiveUp(thread: Thread)                  // the activation ends without a dispatcher
    | DriverEnds
    | Pause(latest: Option<Generation>)       // a fresh pause; `latest` is the runtime's own generation
    | Close

  function ManualStep(h: Hub, t: Thread): Hub {
    if h.owner.Some? || h.closing || t in h.tasks then h else h.(manual := h.manual + {t})
  }

  /** The owner slot goes to an activation that finds it free; one for the owning campaign runs
      without it. */
  function ActivateStep(h: Hub, t: Thread, campaign: Id): Hub {
    if h.closing || t in h.tasks || t in h.manual then h
    else if h.owner.None? then
      h.(owner := Some(campaign), generation := Some(h.next), next := h.next + 1,
         tasks := h.tasks[t := Task(campaign, h.next, true, h.manual, Joining)])
    else if h.owner.value != campaign then h
    else h.(next := h.next + 1, tasks := h.tasks[t := Task(campaign, h.next, false, {}, Joining)])
  }

  /** `released`: only the generation that holds the slot clears it. */
  function Released(h: Hub, generation: Generation, slot: bool): Hub {
    if slot && h.generation == Some(generation) then h.(owner := None, generation := None) else h
  }

  /** The dispatcher thread starts under the runtime lock, where its generation is looked at last. */
  predicate MayStart(h: Hub, t: Thread) {
    t in h.tasks && h.tasks[t].stage == Drained && h.tasks[t].generation !in h.revoked && h.driver.None?
  }

  function Step(h: Hub, e: Event): Hub {
    match e
    case Manual(t) => ManualStep(h, t)
    case ManualEnds(t) => h.(manual := h.manual - {t})
    case CoordinatorStirs(t) => if t in h.manual then h.(busy := true) else h
    case CoordinatorSettles => h.(busy := false)
    case Activate(t, campaign) => ActivateStep(h, t, campaign)
    case JoinAccepted(t) =>
      if t in h.tasks && h.tasks[t].stage == Joining && h.tasks[t].accepted !! h.manual
      then h.(tasks := h.tasks[t := h.tasks[t].(stage := ThreadsGone)]) else h
    case WaitCoordinators(t) =>
      if t in h.tasks && h.tasks[t].stage == ThreadsGone && !h.busy
      then h.(tasks := h.tasks[t := h.tasks[t].(stage := Drained)]) else h
    case StartDriver(t) =>
      if MayStart(h, t)
      then h.(driver := Some(Driver(h.tasks[t].generation, h.tasks[t].slot)), tasks := h.tasks - {t}) else h
    case GiveUp(t) =>
      if t in h.tasks then Released(h.(tasks := h.tasks - {t}), h.tasks[t].generation, h.tasks[t].slot) else h
    case DriverEnds =>
      if h.driver.None? then h
      else Released(h.(driver := None), h.driver.value.generation, h.driver.value.slot)
    case Pause(latest) =>
      h.(revoked := h.revoked + (if h.generation.Some? then {h.generation.value} else {})
                    + (if latest.Some? then {latest.value} else {}))
    case Close => h.(closing := true)
  }

  function After(h: Hub, events: seq<Event>): Hub
    decreases |events|
  {
    if events == [] then h else After(Step(h, events[0]), events[1..])
  }

  const FREE := Hub(None, None, 0, {}, false, {}, false, map[], None)

  // ---------------------------------------------------------------------- the invariant

  /** The manual side as an activation that holds the slot may rely on it. */
  predicate QuietFor(h: Hub, accepted: set<Thread>, stage: Stage) {
    match stage
    case Joining => h.manual <= accepted
    case ThreadsGone => h.manual == {}
    case Drained => h.manual == {} && !h.busy
  }

  predicate TaskInv(h: Hub, task: Task) {
    && task.generation < h.next
    && (task.slot ==> h.generation == Some(task.generation) && QuietFor(h, task.accepted, task.stage))
    && (!task.slot ==> h.generation != Some(task.generation))
  }

  predicate DriverInv(h: Hub, d: Driver) {
    && d.generation < h.next
    && (d.slot ==> h.generation == Some(d.generation) && QuietFor(h, {}, Drained))
    && (!d.slot ==> h.generation != Some(d.generation))
  }

  ghost predicate Inv(h: Hub) {
    && (h.owner.Some? <==> h.generation.Some?)
    && (h.generation.Some? ==> h.generation.value < h.next)
    && h.manual !! h.tasks.Keys
    && (forall t :: t in h.tasks ==> TaskInv(h, h.tasks[t]))
    && (h.driver.Some? ==> DriverInv(h, h.driver.value))
    // one holder of the slot, and one activation per generation
    && (forall s, t :: s in h.tasks && t in h.tasks && h.tasks[s].generation == h.tasks[t].generation ==> s == t)
    && (forall t :: t in h.tasks && h.driver.Some? ==> h.tasks[t].generation != h.driver.value.generation)
  }

  lemma ManualKeeps(h: Hub, t: Thread)
    requires Inv(h)
    ensures Inv(ManualStep(h, t)) && (h.owner.Some? ==> ManualStep(h, t) == h)
  {
    var h1 := ManualStep(h, t);
    forall u | u in h1.tasks ensures TaskInv(h1, h1.tasks[u]) {
      assert TaskInv(h, h.tasks[u]);
    }
  }

  lemma ActivateKeeps(h: Hub, t: Thread, campaign: Id)
    requires Inv(h)
    ensures Inv(ActivateStep(h, t, campaign))
  {
    var h1 := ActivateStep(h, t, campaign);
    forall u | u in h1.tasks ensures TaskInv(h1, h1.tasks[u]) {
      if u in h.tasks {
        assert TaskInv(h, h.tasks[u]);
      }
    }
    forall r, s | r in h1.tasks && s in h1.tasks && h1.tasks[r].generation == h1.tasks[s].generation ensures r == s {
      if r in h.tasks {
        assert TaskInv(h, h.tasks[r]);
      }
      if s in h.tasks {
        assert TaskInv(h, h.tasks[s]);
      }
    }
  }

  /** Steps that leave owner, generations and activations alone and only calm the manual side. */
  lemma CalmKeeps(h: Hub, h1: Hub)
    requires Inv(h)
    requires h1 == h.(manual := h1.manual, busy := h1.busy, revoked := h1.revoked, closing := h1.closing)
    requires h1.manual <= h.manual && (h1.busy ==> h.busy || h.manual != {})
    ensures Inv(h1)
  {
    forall u | u in h1.tasks ensures TaskInv(h1, h1.tasks[u]) {
      assert TaskInv(h, h.tasks[u]);
    }
  }

  lemma JoinKeeps(h: Hub, t: Thread)
    requires Inv(h)
    ensures Inv(Step(h, JoinAccepted(t)))
  {
    if t in h.tasks && h.tasks[t].stage == Joining && h.tasks[t].accepted !! h.manual {
      assert TaskInv(h, h.tasks[t]);
      if h.tasks[t].slot {
        assert h.manual == {};
      } else {
      }
    }
  }

  lemma WaitKeeps(h: Hub, t: Thread)
    requires Inv(h)
    ensures Inv(Step(h, WaitCoordinators(t)))
  {
    if t in h.tasks && h.tasks[t].stage == ThreadsGone && !h.busy {
      assert TaskInv(h, h.tasks[t]);
      if h.tasks[t].slot {
      } else {
      }
    }
  }

  lemma StartKeeps(h: Hub, t: Thread)
    requires Inv(h)
    ensures Inv(Step(h, StartDriver(t)))
  {
    if MayStart(h, t) {
      var h1 := Step(h, StartDriver(t));
      assert TaskInv(h, h.tasks[t]);
      forall u | u in h1.tasks ensures TaskInv(h1, h1.tasks[u]) && h1.tasks[u].generation != h.tasks[t].generation {
        assert TaskInv(h, h.tasks[u]);
      }
    }
  }

  lemma GiveUpKeeps(h: Hub, t: Thread)
    requires Inv(h)
    ensures Inv(Step(h, GiveUp(t)))
  {
    if t in h.tasks {
      var h1 := h.(tasks := h.tasks - {t});
      forall u | u in h1.tasks ensures TaskInv(h1, h1.tasks[u]) {
        assert TaskInv(h, h.tasks[u]);
      }
    }
  }

  lemma DriverEndsKeeps(h: Hub)
    requires Inv(h)
    ensures Inv(Step(h, DriverEnds))
  {
    if h.driver.Some? {
      var h1 := h.(driver := None);
      forall u | u in h1.tasks ensures TaskInv(h1, h1.tasks[u]) {
        assert TaskInv(h, h.tasks[u]);
      }
    }
  }

  lemma StepKeeps(h: Hub, e: Event)
    requires Inv(h)
    ensures Inv(Step(h, e))
  {
    hide Inv;
    match e
    case Manual(t) => ManualKeeps(h, t);
    case Activate(t, campaign) => ActivateKeeps(h, t, campaign);
    case JoinAccepted(t) => JoinKeeps(h, t);
    case WaitCoordinators(t) => WaitKeeps(h, t);
    case StartDriver(t) => StartKeeps(h, t);
    case GiveUp(t) => GiveUpKeeps(h, t);
    case DriverEnds => DriverEndsKeeps(h);
    case CoordinatorStirs(t) => CalmKeeps(h, Step(h, e));
    case _ => CalmKeeps(h, Step(h, e));
  }

  lemma {:induction false} RunKeeps(h: Hub, events: seq<Event>)
    requires Inv(h)
    ensures Inv(After(h, events))
    decreases |events|
  {
    hide Inv, Step;
    if events != [] {
      StepKeeps(h, events[0]);
      RunKeeps(Step(h, events[0]), events[1..]);
    }
  }

  // ----------------------------------------------------------------------- exclusivity

  /** While a dispatcher that acquired the slot runs, it owns the helper: no manual or queue thread is
      alive, no coordinator is at work, and none can come. */
  lemma HandoffIsExclusive(events: seq<Event>)
    ensures var h := After(FREE, events);
            h.driver.Some? && h.driver.value.slot ==>
              && h.generation == Some(h.driver.value.generation) && h.owner.Some?
              && h.manual == {} && !h.busy
              && forall t :: ManualStep(h, t) == h
  {
    RunKeeps(FREE, events);
  }

  /** From the moment the slot is taken until its own generation releases it, no manual or queue
      command is admitted, and the owner does not change. */
  predicate Releases(h: Hub, e: Event, g: Generation) {
    || (e.GiveUp? && e.thread in h.tasks && h.tasks[e.thread].generation == g)
    || (e.DriverEnds? && h.driver.Some? && h.driver.value.generation == g)
  }

  predicate NotReleased(h: Hub, events: seq<Event>, g: Generation)
    decreases |events|
  {
    events != [] ==> !Releases(h, events[0], g) && NotReleased(Step(h, events[0]), events[1..], g)
  }

  lemma SlotHeld(h: Hub, e: Event, g: Generation)
    requires Inv(h) && h.generation == Some(g) && !Releases(h, e, g)
    ensures Step(h, e).generation == Some(g) && Step(h, e).owner == h.owner && Step(h, e).manual <= h.manual
  {
  }

  lemma {:induction false} OwnershipUntilRelease(h: Hub, events: seq<Event>, g: Generation)
    requires Inv(h) && h.generation == Some(g) && NotReleased(h, events, g)
    ensures var end := After(h, events);
            end.generation == Some(g) && end.owner == h.owner && end.manual <= h.manual
    decreases |events|
  {
    hide Inv, Step, Releases;
    if events != [] {
      SlotHeld(h, events[0], g);
      StepKeeps(h, events[0]);
      OwnershipUntilRelease(Step(h, events[0]), events[1..], g);
    }
  }

  /** An older activation's release never clears a newer owner. */
  lemma OldReleaseIsHarmless(h: Hub, e: Event, g: Generation)
    requires Inv(h) && h.generation == Some(g) && (e.GiveUp? || e.DriverEnds?) && !Releases(h, e, g)
    ensures Step(h, e).owner == h.owner && Step(h, e).generation == h.generation
  {
  }

  // -------------------------------------------------------------------- the dispatcher

  /** A dispatcher with the slot starts only when everything accepted before it is gone, the
      coordinators are idle, and its generation has not been revoked. */
  lemma StartIsSafe(h: Hub, e: Event)
    requires Inv(h) && h.driver.None? && Step(h, e).driver.Some?
    ensures e.StartDriver? && e.thread in h.tasks
    ensures var task := h.tasks[e.thread];
            && task.generation !in h.revoked && task.stage == Drained
            && (task.slot ==> task.accepted !! h.manual && h.manual == {} && !h.busy)
  {
    assert TaskInv(h, h.tasks[e.thread]);
  }

  /** Revocation before the start is final: that generation never drives. */
  lemma {:induction false} RevokedNeverStarts(h: Hub, events: seq<Event>, g: Generation)
    requires g in h.revoked && (h.driver.Some? ==> h.driver.value.generation != g)
    ensures var end := After(h, events);
            g in end.revoked && (end.driver.Some? ==> end.driver.value.generation != g)
    decreases |events|
  {
    if events != [] {
      RevokedNeverStarts(Step(h, events[0]), events[1..], g);
    }
  }

  /** A pause reaches whoever owns the helper, and the latest generation the runtime handed out: unless it
      drives already, neither ever will. */
  lemma PauseStopsActivations(h: Hub, latest: Option<Generation>, events: seq<Event>, g: Generation)
    requires h.generation == Some(g) || latest == Some(g)
    requires h.driver.Some? ==> h.driver.value.generation != g
    ensures var end := After(Step(h, Pause(latest)), events);
            end.driver.Some? ==> end.driver.value.generation != g
    ensures Step(h, Pause(latest)).owner == h.owner && Step(h, Pause(latest)).tasks == h.tasks
            && Step(h, Pause(latest)).manual == h.manual && Step(h, Pause(latest)).driver == h.driver
  {
    RevokedNeverStarts(Step(h, Pause(latest)), events, g);
  }

  /** After a shutdown no command is admitted any more. */
  lemma {:induction false} ClosedAdmitsNothing(h: Hub, events: seq<Event>)
    requires h.closing
    ensures var end := After(h, events);
            end.closing && end.manual <= h.manual && end.tasks.Keys <= h.tasks.Keys && end.next == h.next
    decreases |events|
  {
    if events != [] {
      assert Step(h, events[0]).tasks.Keys <= h.tasks.Keys;
      ClosedAdmitsNothing(Step(h, events[0]), events[1..]);
    }
  }

  /** What the server answers a command: manual work is taken in while nobody owns the helper; an activation takes
      the slot then, with everything running before it to wait for, or joins one of its own campaign. */
  lemma CommandsAnsweredExactly(h: Hub, t: Thread, campaign: Id)
    requires t !in h.manual && t !in h.tasks
    ensures t in Step(h, Manual(t)).manual <==> h.owner == None && !h.closing
    ensures var h1 := Step(h, Activate(t, campaign));
            && (t in h1.tasks <==> !h.closing && (h.owner == None || h.owner == Some(campaign)))
            && (t in h1.tasks ==>
                  && h1.owner == Some(campaign) && h1.next == h.next + 1
                  && h1.tasks[t] == Task(campaign, h.next, h.owner == None, if h.owner == None then h.manual else {}, Joining)
                  && h1.generation == if h.owner == None then Some(h.next) else h.generation)
            && (t !in h1.tasks ==> h1 == h)
  {
  }

  /** When a coordinator is at work: from the moment a running command gives it some until it settles. */
  lemma CoordinatorsBusyExactly(h: Hub, t: Thread)
    ensures Step(h, CoordinatorStirs(t)) == h.(busy := h.busy || t in h.manual)
    ensures Step(h, CoordinatorSettles) == h.(busy := false)
    ensures Step(h, ManualEnds(t)) == h.(manual := h.manual - {t})
  {
    if t in h.manual && h.busy { assert h.(busy := true) == h; }
  }

  /** How an activation gets on: past the threads it waits for once they are gone, past the coordinators once they
      are idle, and to a dispatcher then, unless revoked or beside another one. */
  lemma ActivationProgressesExactly(h: Hub, t: Thread)
    requires t in h.tasks
    ensures var (task, h1) := (h.tasks[t], Step(h, JoinAccepted(t)));
            t in h1.tasks && h1.tasks[t].stage
              == if task.stage == Joining && (forall u :: u in task.accepted ==> u !in h.manual) then ThreadsGone else task.stage
    ensures var (task, h1) := (h.tasks[t], Step(h, WaitCoordinators(t)));
            t in h1.tasks && h1.tasks[t].stage == if task.stage == ThreadsGone && !h.busy then Drained else task.stage
    ensures var (task, h1) := (h.tasks[t], Step(h, StartDriver(t)));
            if task.stage == Drained && task.generation !in h.revoked && h.driver == None
            then h1.driver == Some(Driver(task.generation, task.slot)) && t !in h1.tasks
            else h1 == h
  {
    assert h.tasks[t].accepted !! h.manual <==> forall u :: u in h.tasks[t].accepted ==> u !in h.manual;
  }

  // -------------------------------------------------- the exception, and its exact condition

  /** A dispatcher is protected by the slot exactly when its activation acquired it. */
  lemma ProtectedExactlyWithSlot(events: seq<Event>)
    ensures var h := After(FREE, events);
            h.driver.Some? ==> (h.generation == Some(h.driver.value.generation) <==> h.driver.value.slot)
  {
    RunKeeps(FREE, events);
  }

  lemma SecondActivationWaits(campaign: Id)
    ensures var second := Task(campaign, 1, false, {}, Joining);
            After(FREE, [Activate(1, campaign), Activate(2, campaign), GiveUp(1)])
            == Hub(None, None, 2, {}, false, {}, false, map[2 := second], None)
  {
    var events := [Activate(1, campaign), Activate(2, campaign), GiveUp(1)];
    var first, second := Task(campaign, 0, true, {}, Joining), Task(campaign, 1, false, {}, Joining);
    var h1 := Step(FREE, events[0]);
    assert h1 == Hub(Some(campaign), Some(0), 1, {}, false, {}, false, map[1 := first], None);
    var h2 := Step(h1, events[1]);
    assert h2 == Hub(Some(campaign), Some(0), 2, {}, false, {}, false, map[1 := first, 2 := second], None);
    assert map[1 := first, 2 := second] - {1} == map[2 := second];
    Unfold(FREE, events);
    Unfold(h1, events[1..]);
    Unfold(h2, events[2..]);
    assert events[3..] == [];
  }

  lemma SlotlessStarts(campaign: Id)
    ensures var waiting := Hub(None, None, 2, {}, false, {}, false, map[2 := Task(campaign, 1, false, {}, Joining)], None);
            After(waiting, [JoinAccepted(2), WaitCoordinators(2), StartDriver(2), Manual(3)])
            == Hub(None, None, 2, {}, false, {3}, false, map[], Some(Driver(1, false)))
  {
    var events := [JoinAccepted(2), WaitCoordinators(2), StartDriver(2), Manual(3)];
    var second := Task(campaign, 1, false, {}, Joining);
    var h0 := Hub(None, None, 2, {}, false, {}, false, map[2 := second], None);
    var h1 := Step(h0, events[0]);
    assert h1 == h0.(tasks := map[2 := second.(stage := ThreadsGone)]);
    var h2 := Step(h1, events[1]);
    assert h2 == h0.(tasks := map[2 := second.(stage := Drained)]);
    var h3 := Step(h2, events[2]);
    assert map[2 := second.(stage := Drained)] - {2} == map[];
    Unfold(h0, events);
    Unfold(h1, events[1..]);
    Unfold(h2, events[2..]);
    Unfold(h3, events[3..]);
    assert events[4..] == [];
  }

  /** A second activation of the owning campaign runs without the slot. When the first gives it up,
      the second may still start its dispatcher, and manual work is admitted beside it. */
  lemma SecondActivationIsUnprotected(campaign: Id)
    ensures var h := After(After(FREE, [Activate(1, campaign), Activate(2, campaign), GiveUp(1)]),
                           [JoinAccepted(2), WaitCoordinators(2), StartDriver(2), Manual(3)]);
            h.driver == Some(Driver(1, false)) && h.owner.None? && 3 in h.manual
  {
    hide After, Step;
    SecondActivationWaits(campaign);
    SlotlessStarts(campaign);
  }

  lemma Unfold(h: Hub, events: seq<Event>)
    requires events != []
    ensures After(h, events) == After(Step(h, events[0]), events[1..])
  {
  }

  // ------------------------------------------------------------------------- the server

  /** The server's side of the ownership protocol. */
  class WorkerServer {
    var owner: Option<Id>
    var generation: Option<Generation>
    var next: Generation
    var revoked: set<Generation>
    var closing: bool
    var threads: set<Thread>

    constructor ()
      ensures owner.None? && generation.None? && next == 0 && revoked == {} && !closing && threads == {}
    {
      owner, generation, next, revoked, closing, threads := None, None, 0, {}, false, {};
    }

    /** What the server knows of the hub; the rest belongs to the runtimes. */
    ghost function Inside(h: Hub): Hub
      reads this
    {
      h.(owner := owner, generation := generation, next := next, revoked := revoked, closing := closing, manual := threads)
    }

    /** `start` and `_start_queue_command`, as far as ownership decides. */
    method AdmitManual(ghost h: Hub, t: Thread) returns (admitted: bool)
      requires Inside(h) == h && t !in h.tasks
      modifies this`threads
      ensures Inside(h) == ManualStep(h, t) && admitted == (owner.None? && !closing)
    {
      if owner.Some? || closing {
        return false;
      }
      threads := threads + {t};
      admitted := true;
    }

    /** `_start_autonomy_command` for an activation: its task, or nothing when it is refused. */
    method AdmitActivation(ghost h: Hub, t: Thread, campaign: Id) returns (task: Option<Task>)
      requires Inside(h) == h && t !in h.tasks && t !in h.manual
      modifies this
      ensures var h1 := ActivateStep(h, t, campaign);
              && Inside(h1) == h1
              && (task.None? ==> h1 == h) && (task.Some? ==> t in h1.tasks && h1.tasks[t] == task.value)
    {
      if closing {
        return None;
      }
      if owner.None? {
        task := Some(Task(campaign, next, true, threads, Joining));
        owner, generation, next := Some(campaign), Some(next), next + 1;
      } else if owner.value != campaign {
        task := None;
      } else {
        task := Some(Task(campaign, next, false, {}, Joining));
        next := next + 1;
      }
    }

    /** `released`. */
    method Release(ghost h: Hub, g: Generation, slot: bool)
      requires Inside(h) == h
      modifies this`owner, this`generation
      ensures Inside(h) == Released(h, g, slot)
    {
      if slot && generation == Some(g) {
        owner, generation := None, None;
      }
    }
  }
}
