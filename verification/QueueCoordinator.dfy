/** The review queue's coordinator as a protocol: each event is one stretch under the state lock, so
    any interleaving of its threads, and any crash between two stretches, is a run of events. */
module QueueCoordinator {
  import opened Wrappers
  import opened QueueSession
  import opened QueueCards

  /** `ledger` is the session in memory, `disk` session.json. Of the persist calls that recorded a
      decision, `submitted` wait for the one write worker, `running` are inside their operation and
      `aborted` came back without starting it. `preparing` and `futures` are the scheduler's cards
      and the analyses in flight. `runs` counts, over all time, the Photos operations started. */
  datatype Machine = Machine(
    up: bool, ledger: Ledger, disk: Ledger, manifests: set<CardKey>, candidates: set<CardKey>,
    submitted: multiset<CardKey>, aborted: multiset<CardKey>, running: multiset<CardKey>,
    preparing: multiset<CardKey>, futures: multiset<CardKey>, runs: multiset<CardKey>)

  /** What an analysis comes back with: nothing, or a source run and whether it failed. */
  datatype Analysis = Raised | Analyzed(source: Id, failed: bool)

  datatype Event =
    | PersistEvent(decision: Decision, fate: Fate)
    | RefuseSavingEvent(key: CardKey)
    | StartSavingEvent(key: CardKey, fate: Fate)
    | FinishSavingEvent(key: CardKey, verified: bool, reviewed: Option<Id>, manifest: bool, fate: Fate)
    | DiscardEvent(decision: Decision, fate: Fate)
    | RescanEvent(decision: Decision, fate: Fate)
    | PickEvent(key: CardKey, kept: bool, fate: Fate)
    | RestoreEvent(key: CardKey, fate: Fate, failing: Fate)
    | FailEvent(key: CardKey, fate: Fate)
    | SubmitEvent(key: CardKey, fate: Fate)
    | DropEvent(key: CardKey)
    | AnalysisEvent(key: CardKey, result: Analysis, validating: Fate, fate: Fate)
    | AddEvent(id: Id, fate: Fate)
    | ControlEvent(expected: int, state: SessionState, fate: Fate)
    | ConfigEvent(expected: int, config: Config, fate: Fate)
    | RewriteEvent(fate: Fate)
    | CrashEvent
    | RecoverEvent(broken: set<CardKey>, manifests: set<CardKey>, candidates: set<CardKey>)

  /** `write_session`. */
  function Saved(m: Machine, fate: Fate): Machine {
    if fate == Lost then m else m.(disk := m.ledger)
  }

  /** A checkpoint of one card and the write that follows it when it does not raise. */
  function MovedFiles(ledger: Ledger, disk: Ledger, k: CardKey, state: ItemState, source: Option<Id>,
                      reviewed: Option<Id>, fate: Fate): (r: (Ledger, Ledger, bool))
  {
    var (after, reply) := Checkpoint(ledger, k.0, k.1, state, source, reviewed);
    if reply != Accepted then (after, disk, false) else (after, if fate == Lost then disk else after, fate == Done)
  }

  function Moved(m: Machine, k: CardKey, state: ItemState, source: Option<Id>, reviewed: Option<Id>, fate: Fate)
    : (r: (Machine, bool))
  {
    var (ledger, disk, ok) := MovedFiles(m.ledger, m.disk, k, state, source, reviewed, fate);
    (m.(ledger := ledger, disk := disk), ok)
  }

  /** First stretch of `persist`: only a fresh, recorded and written decision is submitted. */
  function PersistStep(m: Machine, d: Decision, fate: Fate): Machine {
    var (after, reply) := Record(m.ledger, d);
    var m1 := m.(ledger := after);
    var k := (d.itemId, d.revision);
    if d.action != Persist then m
    else if reply != Accepted then m1
    else if Replayed(m.ledger, d) then Saved(m1, fate)
    else if k !in m.manifests then m1
    else if fate == Done then Saved(m1, fate).(submitted := m.submitted + multiset{k})
    else Saved(m1, fate)
  }

  /** The write executor takes no more work: the call goes on without its operation. */
  function RefuseSavingStep(m: Machine, k: CardKey): Machine {
    if k !in m.submitted then m else m.(submitted := m.submitted - multiset{k}, aborted := m.aborted + multiset{k})
  }

  /** `_run_persist_operation` up to its operation, on the one write worker inside the lane. */
  function StartSavingStep(m: Machine, k: CardKey, fate: Fate): Machine {
    if k !in m.submitted || m.running != multiset{} then m
    else
      var (m1, ok) := Moved(m.(submitted := m.submitted - multiset{k}), k, Saving, None, None, fate);
      if ok then m1.(running := m.running + multiset{k}, runs := m.runs + multiset{k})
      else m1.(aborted := m.aborted + multiset{k})
  }

  /** Last stretch of `persist`; an operation that never started counts as not verified. */
  function FinishSavingStep(m: Machine, k: CardKey, verified: bool, reviewed: Option<Id>, manifest: bool, fate: Fate)
    : Machine
  {
    var manifests := if manifest then m.manifests + {k} else m.manifests;
    if k in m.running then
      Moved(m.(running := m.running - multiset{k}, manifests := manifests), k,
            if verified then Verified else Uncertain, None, reviewed, fate).0
    else if k in m.aborted then
      Moved(m.(aborted := m.aborted - multiset{k}), k, Uncertain, None, None, fate).0
    else m
  }

  function DiscardStep(m: Machine, d: Decision, fate: Fate): Machine {
    var (after, reply) := Record(m.ledger, d);
    if d.action != Discard then m
    else if reply != Accepted then m.(ledger := after)
    else Saved(m.(ledger := after), fate)
  }

  function RescanStep(m: Machine, d: Decision, fate: Fate): Machine {
    var (after, reply) := Record(m.ledger, d);
    var m1 := m.(ledger := after);
    if d.action != Rescan then m
    else if reply != Accepted then m1
    else if Replayed(m.ledger, d) then Saved(m1, fate)
    else if (d.itemId, d.revision) !in m.candidates then m1
    else Saved(m1.(candidates := m.candidates + {Target(d)}), fate)
  }

  /** The scheduler takes a waiting card; `kept` is false when its pass dies before preparing it. */
  function PickStep(m: Machine, k: CardKey, kept: bool, fate: Fate): Machine {
    if StateAt(m.ledger.items, k) !in {Some(Discovered), Some(Queued)} || k !in m.candidates then m
    else
      var (m1, ok) := Moved(m, k, Preparing, None, None, fate);
      if ok && kept then m1.(preparing := m.preparing + multiset{k}) else m1
  }

  /** A card deferred for a write goes back to the queue; when that raises, it fails. Nothing picks the
      card between the two, for the pass that would is this one. */
  function RestoreStep(m: Machine, k: CardKey, fate: Fate, failing: Fate): Machine {
    var m1 := m.(preparing := m.preparing - multiset{k});
    if k !in m.preparing then m
    else if !IsCurrent(m.ledger, k) || StateAt(m.ledger.items, k) != Some(Preparing) then m1
    else
      var (m2, ok) := Moved(m1, k, Queued, None, None, fate);
      if ok then m2 else Moved(m2, k, QueueSession.Failed, None, None, failing).0
  }

  predicate Settled(s: Ledger, k: CardKey) {
    !IsCurrent(s, k) || StateAt(s.items, k) in {Some(Verified), Some(Discarded)}
  }

  function FailStep(m: Machine, k: CardKey, fate: Fate): Machine {
    var m1 := m.(preparing := m.preparing - multiset{k});
    if k !in m.preparing then m
    else if Settled(m.ledger, k) then m1
    else Moved(m1, k, QueueSession.Failed, None, None, fate).0
  }

  /** A prepared card goes to the executor even when it was discarded meanwhile. */
  function SubmitStep(m: Machine, k: CardKey, fate: Fate): Machine {
    var m1 := m.(preparing := m.preparing - multiset{k});
    if k !in m.preparing then m
    else if Settled(m.ledger, k) then m1.(futures := m.futures + multiset{k})
    else
      var (m2, ok) := Moved(m1, k, Analyzing, None, None, fate);
      if ok then m2.(futures := m.futures + multiset{k}) else m2
  }

  /** `_analysis_finished`. */
  function AnalysisStep(m: Machine, k: CardKey, result: Analysis, validating: Fate, fate: Fate): Machine {
    var m1 := m.(futures := m.futures - multiset{k});
    if k !in m.futures then m
    else if Settled(m.ledger, k) then m1
    else match result
      case Raised => Moved(m1, k, QueueSession.Failed, None, None, fate).0
      case Analyzed(source, failed) =>
        var (m2, ok) := Moved(m1, k, Validating, None, None, validating);
        if !ok then m2
        else Moved(m2.(manifests := m.manifests + {k}), k,
                   if failed then QueueSession.Failed else Ready, Some(source), None, fate).0
  }

  /** One card admitted by a fill. */
  function AddStep(m: Machine, id: Id, fate: Fate): Machine {
    var (after, reply) := Enqueue(m.ledger, id, None, Discovered);
    var m1 := m.(ledger := after);
    if reply != Accepted then m1 else Saved(m1.(candidates := m.candidates + {(id, 1)}), fate)
  }

  function ControlStep(m: Machine, result: (Ledger, Reply), fate: Fate): Machine {
    var m1 := m.(ledger := result.0);
    if result.1 != Accepted then m1 else Saved(m1, fate)
  }

  /** Nothing survives but the file. */
  function CrashStep(m: Machine): Machine {
    Machine(false, m.disk, m.disk, {}, {}, multiset{}, multiset{}, multiset{}, multiset{}, multiset{}, m.runs)
  }

  /** `_resume_inactive` and the recovery loop of `_start`. */
  function RecoverStep(m: Machine, broken: set<CardKey>, manifests: set<CardKey>, candidates: set<CardKey>): Machine {
    if m.up || m.disk.state == Stopped then m
    else
      var (resumed, reply) := SetState(m.disk, m.disk.revision, Running);
      if reply != Accepted then m
      else match RecoverFrom(resumed, 0, broken)
        case None => m
        case Some(ledger) => m.(up := true, ledger := ledger, manifests := manifests, candidates := candidates)
  }

  function Step(model: string -> bool, m: Machine, e: Event): Machine {
    match e
    case CrashEvent => CrashStep(m)
    case RecoverEvent(broken, manifests, candidates) => RecoverStep(m, broken, manifests, candidates)
    case _ => if m.up then Act(model, m, e) else m
  }

  function Act(model: string -> bool, m: Machine, e: Event): Machine {
    match e
    case PersistEvent(d, fate) => PersistStep(m, d, fate)
    case RefuseSavingEvent(k) => RefuseSavingStep(m, k)
    case StartSavingEvent(k, fate) => StartSavingStep(m, k, fate)
    case FinishSavingEvent(k, verified, reviewed, manifest, fate) =>
      FinishSavingStep(m, k, verified, reviewed, manifest, fate)
    case DiscardEvent(d, fate) => DiscardStep(m, d, fate)
    case RescanEvent(d, fate) => RescanStep(m, d, fate)
    case PickEvent(k, kept, fate) => PickStep(m, k, kept, fate)
    case RestoreEvent(k, fate, failing) => RestoreStep(m, k, fate, failing)
    case FailEvent(k, fate) => FailStep(m, k, fate)
    case SubmitEvent(k, fate) => SubmitStep(m, k, fate)
    case DropEvent(k) => m.(preparing := m.preparing - multiset{k})
    case AnalysisEvent(k, result, validating, fate) => AnalysisStep(m, k, result, validating, fate)
    case AddEvent(id, fate) => AddStep(m, id, fate)
    case ControlEvent(expected, state, fate) => ControlStep(m, SetState(m.ledger, expected, state), fate)
    case ConfigEvent(expected, config, fate) => ControlStep(m, UpdateConfig(model, m.ledger, expected, config), fate)
    case RewriteEvent(fate) => Saved(m, fate)
    case _ => m
  }

  function After(model: string -> bool, m: Machine, events: seq<Event>): Machine
    decreases |events|
  {
    if events == [] then m else After(model, Step(model, m, events[0]), events[1..])
  }

  function Created(s: Ledger): Machine {
    Machine(true, s, s, {}, {}, multiset{}, multiset{}, multiset{}, multiset{}, multiset{}, multiset{})
  }
}
