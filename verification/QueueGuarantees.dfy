/** What the coordinator promises about Photos writes and about cards, on every run. */
module QueueGuarantees {
  import opened Wrappers
  import opened QueueSession
  import opened QueueCards
  import opened QueueCoordinator
  import opened QueueSafety

  /** Each revision of a card has its Photos operation started at most once: over every interleaving,
      replay, failed write, crash and restart. */
  lemma PersistedAtMostOnce(model: string -> bool, s: Ledger, events: seq<QueueCoordinator.Event>, k: CardKey)
    requires Valid(model, s) && s.items == [] && s.decisions == []
    ensures QueueCoordinator.After(model, Created(s), events).runs[k] <= 1
  {
    hide Valid, Created;
    CreatedHolds(model, s);
    RunKeeps(model, Created(s), events);
    var m := QueueCoordinator.After(model, Created(s), events);
    AtMostOnce(model, m, k);
  }

  lemma AtMostOnce(model: string -> bool, m: Machine, k: CardKey)
    requires Inv(model, m)
    ensures m.runs[k] <= 1
    ensures StateAt(m.ledger.items, k) == Some(Verified) || StateAt(m.disk.items, k) == Some(Verified) ==> m.runs[k] == 1
  {
    hide Valid, CrashStep, StateAt, Persists;
    assert CardInv(CardOf(m, k));
  }

  // --------------------------------------------------------- behind the written decision

  lemma MovedRuns(m: Machine, k: CardKey, state: ItemState, source: Option<Id>, reviewed: Option<Id>, fate: Fate)
    ensures Moved(m, k, state, source, reviewed, fate).0.runs == m.runs
  {
    hide Checkpoint;
  }

  lemma CardEventRuns(m: Machine, k: CardKey, fate: Fate)
    ensures PickStep(m, k, true, fate).runs == m.runs && PickStep(m, k, false, fate).runs == m.runs
    ensures FailStep(m, k, fate).runs == m.runs && forall failing :: RestoreStep(m, k, fate, failing).runs == m.runs
    ensures SubmitStep(m, k, fate).runs == m.runs
  {
    hide Moved, IsCurrent, StateAt, Settled;
    var m1 := m.(preparing := m.preparing - multiset{k});
    MovedRuns(m, k, Preparing, None, None, fate);
    MovedRuns(m1, k, Queued, None, None, fate);
    forall failing { MovedRuns(Moved(m1, k, Queued, None, None, fate).0, k, QueueSession.Failed, None, None, failing); }
    MovedRuns(m1, k, QueueSession.Failed, None, None, fate);
    MovedRuns(m1, k, Analyzing, None, None, fate);
  }

  lemma FinishRuns(m: Machine, k: CardKey, verified: bool, reviewed: Option<Id>, manifest: bool, fate: Fate)
    ensures FinishSavingStep(m, k, verified, reviewed, manifest, fate).runs == m.runs
  {
    hide Moved;
    var manifests := if manifest then m.manifests + {k} else m.manifests;
    MovedRuns(m.(running := m.running - multiset{k}, manifests := manifests), k,
              if verified then Verified else Uncertain, None, reviewed, fate);
    MovedRuns(m.(aborted := m.aborted - multiset{k}), k, Uncertain, None, None, fate);
  }

  lemma AnalysisRuns(m: Machine, k: CardKey, result: Analysis, validating: Fate, fate: Fate)
    ensures AnalysisStep(m, k, result, validating, fate).runs == m.runs
  {
    hide Moved, Settled;
    var m1 := m.(futures := m.futures - multiset{k});
    MovedRuns(m1, k, QueueSession.Failed, None, None, fate);
    MovedRuns(m1, k, Validating, None, None, validating);
    if result.Analyzed? {
      MovedRuns(Moved(m1, k, Validating, None, None, validating).0.(manifests := m.manifests + {k}), k,
                if result.failed then QueueSession.Failed else Ready, Some(result.source), None, fate);
    }
  }

  lemma LedgerEventRuns(model: string -> bool, m: Machine, e: QueueCoordinator.Event)
    requires e.PersistEvent? || e.DiscardEvent? || e.RescanEvent? || e.AddEvent? || e.ControlEvent? || e.ConfigEvent?
          || e.RewriteEvent? || e.DropEvent? || e.RefuseSavingEvent?
    ensures Act(model, m, e).runs == m.runs
  {
    hide Record, Enqueue, SetState, UpdateConfig, Replayed;
  }

  lemma OnlyStartingRuns(model: string -> bool, m: Machine, e: QueueCoordinator.Event)
    requires !e.StartSavingEvent?
    ensures Step(model, m, e).runs == m.runs
  {
    hide PickStep, RestoreStep, FailStep, SubmitStep, FinishSavingStep, AnalysisStep, RecoverStep,
      PersistStep, DiscardStep, RescanStep, AddStep, ControlStep, Saved;
    match e
    case PickEvent(k, _, fate) => CardEventRuns(m, k, fate);
    case RestoreEvent(k, fate, failing) => CardEventRuns(m, k, fate);
    case FailEvent(k, fate) => CardEventRuns(m, k, fate);
    case SubmitEvent(k, fate) => CardEventRuns(m, k, fate);
    case FinishSavingEvent(k, verified, reviewed, manifest, fate) => FinishRuns(m, k, verified, reviewed, manifest, fate);
    case AnalysisEvent(k, result, validating, fate) => AnalysisRuns(m, k, result, validating, fate);
    case RecoverEvent(broken, manifests, candidates) => RecoverLeavesJobs(m, broken, manifests, candidates);
    case CrashEvent =>
    case _ => LedgerEventRuns(model, m, e);
  }

  /** When an operation starts, the file already showed the card as queued for saving behind its own
      persist decision, and shows it as saving by the time the operation runs. */
  lemma OperationBehindWrittenDecision(model: string -> bool, m: Machine, e: QueueCoordinator.Event, k: CardKey)
    requires Inv(model, m)
    ensures Step(model, m, e).runs[k] > m.runs[k] ==>
              && e.StartSavingEvent? && e.key == k
              && StateAt(m.disk.items, k) == Some(SaveQueued) && Persists(m.disk.decisions, k) == 1
              && StateAt(Step(model, m, e).disk.items, k) == Some(Saving)
  {
    hide Valid, SideOf, Moved, CrashStep, RecoverStep, IsCurrent;
    if !e.StartSavingEvent? {
      OnlyStartingRuns(model, m, e);
    } else if Step(model, m, e).runs[k] > m.runs[k] {
      assert CardInv(CardOf(m, e.key));
      SideParts(m.disk, k);
      var m0 := m.(submitted := m.submitted - multiset{e.key});
      MovedShape(m0, e.key, Saving, None, None, e.fate);
      MovedCard(model, m0, e.key, Saving, None, None, e.fate, e.key);
      SideParts(Step(model, m, e).disk, e.key);
    }
  }

  lemma SideParts(s: Ledger, k: CardKey)
    ensures SideOf(s, k).state == StateAt(s.items, k) && SideOf(s, k).persists == Persists(s.decisions, k)
  {
  }

  // ------------------------------------------------------------ never written again

  /** Once its decision is on file and not waiting for the worker, a card's operation count is final. */
  lemma CountFinal(model: string -> bool, m: Machine, e: QueueCoordinator.Event, k: CardKey)
    requires Inv(model, m) && Persists(m.disk.decisions, k) > 0 && m.submitted[k] == 0
    ensures var m1 := Step(model, m, e);
            Persists(m1.disk.decisions, k) > 0 && m1.submitted[k] == 0 && m1.runs[k] == m.runs[k]
  {
    hide Valid, SideOf, Act, RecoverFrom, CardInv;
    SideParts(m.disk, k);
    if m.up && !e.CrashEvent? && !e.RecoverEvent? {
      ActKeeps(model, m, e, k);
      SideParts(Act(model, m, e).disk, k);
    }
  }

  lemma {:induction false} NeverPersistedAgain(model: string -> bool, m: Machine, events: seq<QueueCoordinator.Event>, k: CardKey)
    requires Inv(model, m) && Persists(m.disk.decisions, k) > 0 && m.submitted[k] == 0
    ensures QueueCoordinator.After(model, m, events).runs[k] == m.runs[k]
    decreases |events|
  {
    hide Inv, Step, Persists;
    if events != [] {
      CountFinal(model, m, events[0], k);
      StepKeeps(model, m, events[0]);
      NeverPersistedAgain(model, Step(model, m, events[0]), events[1..], k);
    }
  }

  /** A write that a crash interrupted, wherever it stood, is uncertain after recovery, and no later
      run starts its operation again. */
  lemma InterruptedWriteIsUncertain(model: string -> bool, m: Machine, broken: set<CardKey>, manifests: set<CardKey>,
                                    candidates: set<CardKey>, k: CardKey, events: seq<QueueCoordinator.Event>)
    requires Inv(model, m) && (k in m.submitted || k in m.running)
    ensures var m1 := RecoverStep(CrashStep(m), broken, manifests, candidates);
            && (m1.up ==> StateAt(m1.ledger.items, k) == Some(Uncertain))
            && QueueCoordinator.After(model, m1, events).runs[k] == m.runs[k]
  {
    hide Valid, SideOf, RecoverStep, Step;
    var down := CrashStep(m);
    var m1 := RecoverStep(down, broken, manifests, candidates);
    assert CardInv(CardOf(m, k));
    CrashKeeps(model, m);
    assert CardInv(CardOf(down, k));
    RecoveredCard(model, down, broken, manifests, candidates, k);
    RecoverKeeps(model, down, broken, manifests, candidates);
    SideParts(m.disk, k);
    SideParts(m1.ledger, k);
    RecoverLeavesJobs(down, broken, manifests, candidates);
    NeverPersistedAgain(model, m1, events, k);
  }

  lemma RecoverLeavesJobs(m: Machine, broken: set<CardKey>, manifests: set<CardKey>, candidates: set<CardKey>)
    ensures var m1 := RecoverStep(m, broken, manifests, candidates);
            m1.disk == m.disk && m1.submitted == m.submitted && m1.runs == m.runs
  {
    hide RecoverFrom, SetState;
  }

  // ----------------------------------------------------------------- settled for good

  predicate SettledAt(s: Ledger, k: CardKey) {
    StateAt(s.items, k).Some? && Terminal(StateAt(s.items, k).value)
  }

  /** While the coordinator lives, nothing moves a verified or discarded card, nor a superseded one. */
  lemma TerminalStays(model: string -> bool, m: Machine, e: QueueCoordinator.Event, k: CardKey)
    requires Inv(model, m) && m.up && !e.CrashEvent?
    requires SettledAt(m.ledger, k)
          || (StateAt(m.ledger.items, k).Some? && StateAt(m.ledger.items, Next(k)).Some?)
    ensures StateAt(Step(model, m, e).ledger.items, k) == StateAt(m.ledger.items, k)
  {
    hide Valid, Act, CardInv, StateAt, Persists;
    if !e.RecoverEvent? {
      ActKeeps(model, m, e, k);
    }
  }

  lemma TerminalStaysOnDiskStep(model: string -> bool, m: Machine, e: QueueCoordinator.Event, k: CardKey)
    requires Inv(model, m) && SettledAt(m.disk, k)
    ensures StateAt(Step(model, m, e).disk.items, k) == StateAt(m.disk.items, k)
  {
    hide Valid, Act, CardInv, StateAt, Persists, RecoverFrom, SetState;
    if m.up && !e.RecoverEvent? && !e.CrashEvent? {
      ActKeeps(model, m, e, k);
    }
  }

  /** On file a settled card is settled across every run, crashes included, and so it is in memory. */
  lemma {:induction false} TerminalStaysOnDisk(model: string -> bool, m: Machine, events: seq<QueueCoordinator.Event>, k: CardKey)
    requires Inv(model, m) && SettledAt(m.disk, k)
    ensures var m1 := QueueCoordinator.After(model, m, events);
            && StateAt(m1.disk.items, k) == StateAt(m.disk.items, k)
            && StateAt(m1.ledger.items, k) == StateAt(m.disk.items, k)
    decreases |events|
  {
    hide Inv, Step, StateAt;
    if events == [] {
      SettledInMemory(model, m, k);
    } else {
      TerminalStaysOnDiskStep(model, m, events[0], k);
      StepKeeps(model, m, events[0]);
      TerminalStaysOnDisk(model, Step(model, m, events[0]), events[1..], k);
    }
  }

  lemma SettledInMemory(model: string -> bool, m: Machine, k: CardKey)
    requires Inv(model, m) && SettledAt(m.disk, k)
    ensures StateAt(m.ledger.items, k) == StateAt(m.disk.items, k)
  {
    hide Valid, StateAt, Persists;
    assert CardInv(CardOf(m, k));
  }

  /** A result that comes back late moves no card but its own, and that one only while it is still
      being analyzed. */
  lemma LateResultsAreHarmless(model: string -> bool, m: Machine, k: CardKey, result: Analysis, validating: Fate,
                               fate: Fate, x: CardKey)
    requires Inv(model, m) && m.up
    ensures var m1 := AnalysisStep(m, k, result, validating, fate);
            StateAt(m1.ledger.items, x) != StateAt(m.ledger.items, x) ==>
              x == k && StateAt(m.ledger.items, k) == Some(Analyzing)
  {
    hide Valid, CardInv, SideOf, Moved, IsCurrent, StateAt, JobsOf;
    if k in m.futures {
      InFlight(model, m, k);
      if !Settled(m.ledger, k) && x != k {
        var m0 := m.(futures := m.futures - multiset{k});
        var first := if result.Raised? then QueueSession.Failed else Validating;
        var fate0 := if result.Raised? then fate else validating;
        StateMoved(model, m0, k, first, None, fate0, x);
        if result.Analyzed? {
          var m2 := Moved(m0, k, Validating, None, None, validating).0.(manifests := m.manifests + {k});
          StateMoved(model, m2, k, if result.failed then QueueSession.Failed else Ready, Some(result.source), fate, x);
        }
      }
    }
  }

  lemma InFlight(model: string -> bool, m: Machine, k: CardKey)
    requires Inv(model, m) && k in m.futures
    ensures StateAt(m.ledger.items, k) in {Some(Analyzing), Some(Discarded)}
  {
    hide Valid, StateAt, Persists;
    assert CardInv(CardOf(m, k));
  }

  lemma StateMoved(model: string -> bool, m: Machine, k: CardKey, state: ItemState, source: Option<Id>, fate: Fate, x: CardKey)
    requires BothValid(model, m) && x != k
    ensures var m1 := Moved(m, k, state, source, None, fate).0;
            BothValid(model, m1) && StateAt(m1.ledger.items, x) == StateAt(m.ledger.items, x)
  {
    hide Valid, SideOf, Moved, IsCurrent, StateAt, JobsOf;
    MovedCard(model, m, k, state, source, None, fate, x);
    SideParts(m.ledger, x);
    SideParts(Moved(m, k, state, source, None, fate).0.ledger, x);
  }

  // ----------------------------------------------- the guard is the coordinator's alone

  /** The ledger by itself protects no terminal card: a checkpoint of a current card is accepted for
      any target state, unless the session revision has run out. */
  lemma LedgerAloneResurrects(model: string -> bool, s: Ledger, k: CardKey, state: ItemState)
    requires Valid(model, s) && IsCurrent(s, k) && StateAt(s.items, k) == Some(Verified) && state != Verified
    ensures var (after, reply) := Checkpoint(s, k.0, k.1, state, None, None);
            StateAt(after.items, k) == Some(state) && (reply == Accepted <==> s.revision < MAX_INT)
  {
    ValidHasItems(model, s);
    CurrentIndexCorrect(s.items, k.0);
    var at := CurrentIndex(s.items, k.0).value;
    StateAtIndex(s.items, at);
    StateAtRewritten(s.items, at, Rewritten(s.items[at], state, None, None), k);
    assert ValidItem(s.items[at]);
    hide CurrentIndex, StateAt, IsUuid, ValidItems, Distinct, ValidConfig, ValidDecisions;
  }
}
