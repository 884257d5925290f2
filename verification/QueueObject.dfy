/** `QueueCoordinator` as an object over its session: each method is one stretch under the state lock
    and does to the object what its event does to the machine. */
module QueueObject {
  import opened Wrappers
  import opened QueueSession
  import opened QueueLedger
  import opened QueueCards
  import opened QueueCoordinator
  import opened QueueSafety

  class CoordinatorObject {
    const session: SessionObject
    var disk: Ledger
    var manifests: set<CardKey>
    var candidates: set<CardKey>
    /** The write worker's queue, its aborted and running calls, the scheduler's cards, the futures. */
    var submitted: multiset<CardKey>
    var aborted: multiset<CardKey>
    var running: multiset<CardKey>
    var preparing: multiset<CardKey>
    var futures: multiset<CardKey>
    ghost var runs: multiset<CardKey>

    constructor (session: SessionObject, manifests: set<CardKey>, candidates: set<CardKey>)
      ensures this.session == session
      ensures View() == Created(session.View()).(manifests := manifests, candidates := candidates)
    {
      this.session := session;
      disk := session.View();
      this.manifests := manifests;
      this.candidates := candidates;
      submitted, aborted, running, preparing, futures := multiset{}, multiset{}, multiset{}, multiset{}, multiset{};
      runs := multiset{};
    }

    ghost function View(): Machine
      reads this, session
    {
      Machine(true, session.View(), disk, manifests, candidates, submitted, aborted, running, preparing, futures, runs)
    }

    /** `write_session`; false when it raised. */
    method WriteSession(fate: Fate) returns (ok: bool)
      modifies this`disk
      ensures View() == Saved(old(View()), fate) && ok == (fate == Done)
    {
      if fate != Lost {
        disk := session.View();
      }
      ok := fate == Done;
    }

    /** A card checkpoint and its write; false when either raised. */
    method MoveCard(model: string -> bool, k: CardKey, state: ItemState, source: Option<Id>, reviewed: Option<Id>, fate: Fate)
      returns (ok: bool)
      requires Valid(model, session.View())
      modifies this`disk, session
      ensures Valid(model, session.View())
      ensures var m1 := Moved(old(View()), k, state, source, reviewed, fate).0;
              session.View() == m1.ledger && disk == m1.disk
      ensures ok == Moved(old(View()), k, state, source, reviewed, fate).1
    {
      hide Valid, Checkpoint;
      var reply := session.CheckpointItem(model, k.0, k.1, state, source, reviewed);
      if reply != Accepted {
        return false;
      }
      ok := WriteSession(fate);
    }

    /** Whether the decision identifier is on the ledger. */
    method IsReplay(d: Decision) returns (replay: bool)
      ensures replay == Replayed(session.View(), d)
    {
      DecisionNamedCorrect(session.decisions, d.decisionId);
      replay := exists i :: 0 <= i < |session.decisions| && session.decisions[i].decisionId == d.decisionId;
    }

    method PersistCard(model: string -> bool, d: Decision, fate: Fate)
      requires Valid(model, session.View()) && d.action == Persist
      modifies this`disk, this`submitted, session
      ensures Valid(model, session.View())
      ensures View() == PersistStep(old(View()), d, fate)
    {
      hide Valid, Record, Replayed;
      var replay := IsReplay(d);
      var reply := session.RecordDecision(model, d);
      if reply != Accepted {
        return;
      }
      if replay {
        var _ := WriteSession(fate);
        return;
      }
      if (d.itemId, d.revision) !in manifests {
        return;
      }
      var written := WriteSession(fate);
      if written {
        submitted := submitted + multiset{(d.itemId, d.revision)};
      }
    }

    /** The executor refuses the call that was about to be submitted. */
    method RefuseSaving(k: CardKey)
      requires k in submitted
      modifies this`submitted, this`aborted
      ensures View() == RefuseSavingStep(old(View()), k)
    {
      submitted, aborted := submitted - multiset{k}, aborted + multiset{k};
    }

    method StartSaving(model: string -> bool, k: CardKey, fate: Fate)
      requires Valid(model, session.View())
      requires k in submitted && running == multiset{}
      modifies this, session
      ensures Valid(model, session.View())
      ensures View() == StartSavingStep(old(View()), k, fate)
    {
      hide Valid, Moved, StartSavingStep;
      StartShape(View(), k, fate);
      submitted := submitted - multiset{k};
      var ok := MoveCard(model, k, Saving, None, None, fate);
      if ok {
        running, runs := running + multiset{k}, runs + multiset{k};
      } else {
        aborted := aborted + multiset{k};
      }
    }

    method FinishSaving(model: string -> bool, k: CardKey, verified: bool, reviewed: Option<Id>, manifest: bool, fate: Fate)
      requires Valid(model, session.View()) && (k in running || k in aborted)
      modifies this, session
      ensures Valid(model, session.View())
      ensures View() == FinishSavingStep(old(View()), k, verified, reviewed, manifest, fate)
    {
      hide Valid, Moved, FinishSavingStep;
      FinishShape(View(), k, verified, reviewed, manifest, fate);
      if k in running {
        running := running - multiset{k};
        if manifest {
          manifests := manifests + {k};
        }
        var _ := MoveCard(model, k, if verified then Verified else Uncertain, None, reviewed, fate);
      } else {
        aborted := aborted - multiset{k};
        var _ := MoveCard(model, k, Uncertain, None, None, fate);
      }
    }

    method DiscardCard(model: string -> bool, d: Decision, fate: Fate)
      requires Valid(model, session.View()) && d.action == Discard
      modifies this`disk, session
      ensures Valid(model, session.View())
      ensures View() == DiscardStep(old(View()), d, fate)
    {
      hide Valid, Record;
      var reply := session.RecordDecision(model, d);
      if reply == Accepted {
        var _ := WriteSession(fate);
      }
    }

    method RescanCard(model: string -> bool, d: Decision, fate: Fate)
      requires Valid(model, session.View()) && d.action == Rescan
      modifies this`disk, this`candidates, session
      ensures Valid(model, session.View())
      ensures View() == RescanStep(old(View()), d, fate)
    {
      hide Valid, Record, Replayed;
      var replay := IsReplay(d);
      var reply := session.RecordDecision(model, d);
      if reply != Accepted {
        return;
      }
      if !replay {
        if (d.itemId, d.revision) !in candidates {
          return;
        }
        candidates := candidates + {Target(d)};
      }
      var _ := WriteSession(fate);
    }

    /** Whether a late outcome has to leave the card alone. */
    method IsSettled(k: CardKey) returns (settled: bool)
      requires Distinct(session.items)
      ensures settled == Settled(session.View(), k)
    {
      var at := session.CurrentItem(k.0);
      if at.None? || session.items[at.value].revision != k.1 {
        return true;
      }
      CurrentIndexCorrect(session.items, k.0);
      StateAtIndex(session.items, at.value);
      settled := Terminal(session.items[at.value].state);
    }

    /** Whether the card is still where its preparation left it. */
    method IsPreparing(k: CardKey) returns (preparing: bool)
      requires Distinct(session.items)
      ensures preparing <==> IsCurrent(session.View(), k) && StateAt(session.items, k) == Some(Preparing)
    {
      var at := session.CurrentItem(k.0);
      if at.None? || session.items[at.value].revision != k.1 {
        return false;
      }
      CurrentIndexCorrect(session.items, k.0);
      StateAtIndex(session.items, at.value);
      preparing := session.items[at.value].state == Preparing;
    }

    /** Back to the queue when a write has the lane, or failed when that raises. */
    method RestoreCard(model: string -> bool, k: CardKey, fate: Fate, failing: Fate)
      requires Valid(model, session.View()) && k in preparing
      modifies this, session
      ensures Valid(model, session.View())
      ensures View() == RestoreStep(old(View()), k, fate, failing)
    {
      hide Valid, MovedFiles, IsCurrent, RestoreStep;
      RestoreShape(View(), k, fate, failing);
      ValidHasItems(model, session.View());
      preparing := preparing - multiset{k};
      var waits := IsPreparing(k);
      if waits {
        var ok := MoveCard(model, k, Queued, None, None, fate);
        if !ok {
          var _ := MoveCard(model, k, QueueSession.Failed, None, None, failing);
        }
      }
    }

    method SubmitAnalysis(model: string -> bool, k: CardKey, fate: Fate)
      requires Valid(model, session.View()) && k in preparing
      modifies this, session
      ensures Valid(model, session.View())
      ensures View() == SubmitStep(old(View()), k, fate)
    {
      hide Valid, MovedFiles, Settled;
      ValidHasItems(model, session.View());
      preparing := preparing - multiset{k};
      var settled := IsSettled(k);
      if settled {
        futures := futures + multiset{k};
        return;
      }
      var ok := MoveCard(model, k, Analyzing, None, None, fate);
      if ok {
        futures := futures + multiset{k};
      }
    }

    method FailPreparation(model: string -> bool, k: CardKey, fate: Fate)
      requires Valid(model, session.View()) && k in preparing
      modifies this, session
      ensures Valid(model, session.View())
      ensures View() == FailStep(old(View()), k, fate)
    {
      hide Valid, MovedFiles, Settled;
      ValidHasItems(model, session.View());
      preparing := preparing - multiset{k};
      var settled := IsSettled(k);
      if !settled {
        var _ := MoveCard(model, k, QueueSession.Failed, None, None, fate);
      }
    }

    method AnalysisFinished(model: string -> bool, k: CardKey, result: Analysis, validating: Fate, fate: Fate)
      requires Valid(model, session.View()) && k in futures
      modifies this, session
      ensures Valid(model, session.View())
      ensures View() == AnalysisStep(old(View()), k, result, validating, fate)
    {
      hide Valid, MovedFiles, Settled, AnalysisStep;
      AnalysisShape(View(), k, result, validating, fate);
      ValidHasItems(model, session.View());
      futures := futures - multiset{k};
      var settled := IsSettled(k);
      if settled {
        return;
      }
      if result.Raised? {
        var _ := MoveCard(model, k, QueueSession.Failed, None, None, fate);
        return;
      }
      var ok := MoveCard(model, k, Validating, None, None, validating);
      if ok {
        manifests := manifests + {k};
        var _ := MoveCard(model, k, if result.failed then QueueSession.Failed else Ready, Some(result.source), None, fate);
      }
    }
  }

  /** The recovery loop of `_start`, over a restored session before its coordinator exists. */
  method RecoverSession(model: string -> bool, session: SessionObject, broken: set<CardKey>) returns (ok: bool)
    requires Valid(model, session.View())
    modifies session
    ensures Valid(model, session.View())
    ensures ok <==> RecoverFrom(old(session.View()), 0, broken).Some?
    ensures ok ==> session.View() == RecoverFrom(old(session.View()), 0, broken).value
  {
    hide Valid, Checkpoint, CurrentIndex;
    var i := 0;
    while i < |session.items|
      invariant 0 <= i <= |session.items|
      invariant Valid(model, session.View())
      invariant RecoverFrom(session.View(), i, broken) == RecoverFrom(old(session.View()), 0, broken)
      decreases |session.items| - i
    {
      var item := session.items[i];
      var current := session.CurrentItem(item.itemId);
      if current == Some(i) {
        CheckpointCount(session.View(), item.itemId, item.revision, RecoveredState(item.state, Key(item) in broken));
        var reply := session.CheckpointItem(model, item.itemId, item.revision,
                                            RecoveredState(item.state, Key(item) in broken), None, None);
        if reply != Accepted {
          return false;
        }
      }
      i := i + 1;
    }
    ok := true;
  }

  /** What a step leaves behind, field by field: the ledgers, and the bookkeeping around them. */
  lemma StartShape(m: Machine, k: CardKey, fate: Fate)
    requires k in m.submitted && m.running == multiset{}
    ensures var (m1, ok) := Moved(m.(submitted := m.submitted - multiset{k}), k, Saving, None, None, fate);
            StartSavingStep(m, k, fate)
            == Machine(m.up, m1.ledger, m1.disk, m.manifests, m.candidates, m.submitted - multiset{k},
                       if ok then m.aborted else m.aborted + multiset{k},
                       if ok then m.running + multiset{k} else m.running,
                       m.preparing, m.futures, if ok then m.runs + multiset{k} else m.runs)
  {
    hide Moved;
    MovedShape(m.(submitted := m.submitted - multiset{k}), k, Saving, None, None, fate);
  }

  lemma RestoreShape(m: Machine, k: CardKey, fate: Fate, failing: Fate)
    requires k in m.preparing
    ensures var (l1, d1, ok) := MovedFiles(m.ledger, m.disk, k, Queued, None, None, fate);
            var (l2, d2, _) := MovedFiles(l1, d1, k, QueueSession.Failed, None, None, failing);
            var waits := IsCurrent(m.ledger, k) && StateAt(m.ledger.items, k) == Some(Preparing);
            RestoreStep(m, k, fate, failing)
            == Machine(m.up, if !waits then m.ledger else if ok then l1 else l2,
                       if !waits then m.disk else if ok then d1 else d2, m.manifests, m.candidates,
                       m.submitted, m.aborted, m.running, m.preparing - multiset{k}, m.futures, m.runs)
  {
    hide MovedFiles, IsCurrent, StateAt;
  }

  lemma FinishShape(m: Machine, k: CardKey, verified: bool, reviewed: Option<Id>, manifest: bool, fate: Fate)
    requires k in m.running || k in m.aborted
    ensures var manifests := if manifest then m.manifests + {k} else m.manifests;
            var m0 := if k in m.running then m.(running := m.running - multiset{k}, manifests := manifests)
                      else m.(aborted := m.aborted - multiset{k});
            var m1 := if k in m.running
                      then Moved(m0, k, if verified then Verified else Uncertain, None, reviewed, fate).0
                      else Moved(m0, k, Uncertain, None, None, fate).0;
            FinishSavingStep(m, k, verified, reviewed, manifest, fate)
            == Machine(m.up, m1.ledger, m1.disk, m0.manifests, m.candidates, m.submitted, m0.aborted, m0.running,
                       m.preparing, m.futures, m.runs)
  {
    hide Moved;
    var manifests := if manifest then m.manifests + {k} else m.manifests;
    if k in m.running {
      MovedShape(m.(running := m.running - multiset{k}, manifests := manifests), k,
                 if verified then Verified else Uncertain, None, reviewed, fate);
    } else {
      MovedShape(m.(aborted := m.aborted - multiset{k}), k, Uncertain, None, None, fate);
    }
  }

  lemma AnalysisShape(m: Machine, k: CardKey, result: Analysis, validating: Fate, fate: Fate)
    requires k in m.futures
    ensures var first := if result.Raised? then QueueSession.Failed else Validating;
            var last := if result.Raised? || result.failed then QueueSession.Failed else Ready;
            var source := if result.Raised? then None else Some(result.source);
            var (l1, d1, ok) := MovedFiles(m.ledger, m.disk, k, first, None, None, if result.Raised? then fate else validating);
            var (l2, d2, _) := MovedFiles(l1, d1, k, last, source, None, fate);
            var done, again := Settled(m.ledger, k), result.Analyzed? && ok;
            AnalysisStep(m, k, result, validating, fate)
            == Machine(m.up, if done then m.ledger else if again then l2 else l1,
                       if done then m.disk else if again then d2 else d1,
                       if !done && again then m.manifests + {k} else m.manifests, m.candidates,
                       m.submitted, m.aborted, m.running, m.preparing, m.futures - multiset{k}, m.runs)
  {
    hide MovedFiles, Settled;
  }

  lemma CheckpointCount(s: Ledger, id: Id, revision: int, state: ItemState)
    ensures |Checkpoint(s, id, revision, state, None, None).0.items| == |s.items|
  {
    hide IsUuid;
  }
}
