/** Every move a card can make while a coordinator lives: which step makes it, from which state, and where to. */
module QueueMoves {
  import opened Wrappers
  import opened QueueSession
  import opened QueueCards
  import opened QueueCoordinator
  import opened QueueSafety

  /** A checkpoint of the newest revision of a card moves it, whatever becomes of the write. */
  lemma MovedExactly(model: string -> bool, m: Machine, k: CardKey, state: ItemState, source: Option<Id>,
                     reviewed: Option<Id>, fate: Fate, x: CardKey)
    requires BothValid(model, m)
    ensures var (m1, ok) := Moved(m, k, state, source, reviewed, fate);
            && BothValid(model, m1) && m1 == m.(ledger := m1.ledger, disk := m1.disk)
            && StateAt(m1.ledger.items, x)
               == (if x == k && IsCurrent(m.ledger, k) && OptionalUuid(source) && OptionalUuid(reviewed) then Some(state)
                   else StateAt(m.ledger.items, x))
            && (IsCurrent(m.ledger, k) && OptionalUuid(source) && OptionalUuid(reviewed) ==>
                  IsCurrent(m1.ledger, k)
                  && (m.ledger.revision < MAX_INT && StateAt(m.ledger.items, k) != Some(state) ==> ok == (fate == Done))
                  && (m.ledger.revision >= MAX_INT && StateAt(m.ledger.items, k) != Some(state) ==> !ok)
                  && (StateAt(m.ledger.items, k) != Some(state) ==>
                        m1.disk == if m.ledger.revision < MAX_INT && fate != Lost then m1.ledger else m.disk))
  {
    MovedCard(model, m, k, state, source, reviewed, fate, x);
    MovedShape(m, k, state, source, reviewed, fate);
    CheckpointAt(model, m.ledger, k, state, source, reviewed, x);
    hide Moved, Checkpoint, Valid, IsCurrent, StateAt, Checkpointed;
  }

  lemma CheckpointAt(model: string -> bool, s: Ledger, k: CardKey, state: ItemState, source: Option<Id>,
                     reviewed: Option<Id>, x: CardKey)
    requires Valid(model, s)
    ensures var (after, reply) := Checkpoint(s, k.0, k.1, state, source, reviewed);
            && StateAt(after.items, x)
               == (if x == k && IsCurrent(s, k) && OptionalUuid(source) && OptionalUuid(reviewed) then Some(state)
                   else StateAt(s.items, x))
            && (IsCurrent(s, k) && OptionalUuid(source) && OptionalUuid(reviewed) ==>
                  IsCurrent(after, k)
                  && (StateAt(s.items, k) != Some(state) ==> (reply == Accepted <==> s.revision < MAX_INT)))
  {
    ValidHasItems(model, s);
    CurrentIndexCorrect(s.items, k.0);
    var at := CurrentIndex(s.items, k.0);
    if at.Some? && s.items[at.value].revision == k.1 {
      assert ValidItem(s.items[at.value]);
      var item := Rewritten(s.items[at.value], state, source, reviewed);
      StateAtIndex(s.items, at.value);
      StateAtRewritten(s.items, at.value, item, x);
      CurrentIndexByKeys(s.items, at.value, item, k.0);
      assert s.items == s.items[at.value := s.items[at.value]];
      hide CurrentIndex, NewestAt, Distinct, StateAt, IsUuid, ValidItems, Valid;
    }
  }

  /** What the invariant of a card says of its state. */
  lemma CardStands(model: string -> bool, m: Machine, k: CardKey)
    requires Inv(model, m)
    ensures var state := StateAt(m.ledger.items, k);
            && (k in m.submitted ==> state == Some(SaveQueued))
            && (k in m.running || k in m.aborted ==> state == Some(SaveQueued) || state == Some(Saving))
            && (k in m.preparing ==> state == Some(Preparing) || state == Some(Discarded))
            && (k in m.futures ==> state == Some(Analyzing) || state == Some(Discarded))
            && (state.Some? && state.value !in {Ready, QueueSession.Failed, Uncertain} ==> IsCurrent(m.ledger, k))
            && (IsCurrent(m.ledger, k) ==> state.Some?)
  {
    assert CardInv(CardOf(m, k));
    CurrentCard(model, m, k);
    hide Valid, IsCurrent, StateAt, Persists;
  }

  lemma SavingMoves(model: string -> bool, m: Machine, k: CardKey, fate: Fate, x: CardKey)
    requires Inv(model, m) && m.up
    ensures StateAt(StartSavingStep(m, k, fate).ledger.items, x)
            == if x == k && k in m.submitted && m.running == multiset{} then Some(Saving) else StateAt(m.ledger.items, x)
  {
    CardStands(model, m, k);
    hide Moved, IsCurrent, StateAt, CardInv, CardOf, Valid;
    MovedExactly(model, m.(submitted := m.submitted - multiset{k}), k, Saving, None, None, fate, x);
  }

  lemma SavedMoves(model: string -> bool, m: Machine, k: CardKey, verified: bool, reviewed: Option<Id>, manifest: bool,
                   fate: Fate, x: CardKey)
    requires Inv(model, m) && m.up
    ensures StateAt(FinishSavingStep(m, k, verified, reviewed, manifest, fate).ledger.items, x)
            == if x == k && k in m.running && (reviewed.Some? ==> IsUuid(reviewed.value))
               then Some(if verified then Verified else Uncertain)
               else if x == k && k !in m.running && k in m.aborted then Some(Uncertain)
               else StateAt(m.ledger.items, x)
  {
    CardStands(model, m, k);
    hide Moved, IsCurrent, StateAt, CardInv, CardOf, Valid, IsUuid;
    var manifests := if manifest then m.manifests + {k} else m.manifests;
    MovedExactly(model, m.(running := m.running - multiset{k}, manifests := manifests), k,
                 if verified then Verified else Uncertain, None, reviewed, fate, x);
    MovedExactly(model, m.(aborted := m.aborted - multiset{k}), k, Uncertain, None, None, fate, x);
  }

  lemma PickedMoves(model: string -> bool, m: Machine, k: CardKey, kept: bool, fate: Fate, x: CardKey)
    requires Inv(model, m) && m.up
    ensures var before := StateAt(m.ledger.items, x);
            StateAt(PickStep(m, k, kept, fate).ledger.items, x)
            == if x == k && k in m.candidates && (before == Some(Discovered) || before == Some(Queued)) then Some(Preparing)
               else before
  {
    CardStands(model, m, k);
    hide Moved, IsCurrent, StateAt, CardInv, CardOf, Valid;
    MovedExactly(model, m, k, Preparing, None, None, fate, x);
  }

  lemma RestoredMoves(model: string -> bool, m: Machine, k: CardKey, fate: Fate, failing: Fate, x: CardKey)
    requires Inv(model, m) && m.up
    ensures var before := StateAt(m.ledger.items, x);
            StateAt(RestoreStep(m, k, fate, failing).ledger.items, x)
            == if x == k && k in m.preparing && before == Some(Preparing)
               then Some(if fate == Done && m.ledger.revision < MAX_INT then Queued else QueueSession.Failed)
               else before
  {
    CardStands(model, m, k);
    hide Moved, IsCurrent, StateAt, CardInv, CardOf, Valid;
    var m1 := m.(preparing := m.preparing - multiset{k});
    MovedExactly(model, m1, k, Queued, None, None, fate, x);
    var m2 := Moved(m1, k, Queued, None, None, fate).0;
    MovedExactly(model, m2, k, QueueSession.Failed, None, None, failing, x);
  }

  lemma PreparedMoves(model: string -> bool, m: Machine, k: CardKey, fate: Fate, x: CardKey)
    requires Inv(model, m) && m.up
    ensures var before := StateAt(m.ledger.items, x);
            var here := x == k && k in m.preparing && before == Some(Preparing);
            && StateAt(FailStep(m, k, fate).ledger.items, x) == (if here then Some(QueueSession.Failed) else before)
            && StateAt(SubmitStep(m, k, fate).ledger.items, x) == (if here then Some(Analyzing) else before)
  {
    CardStands(model, m, k);
    hide Moved, IsCurrent, StateAt, CardInv, CardOf, Valid;
    var m1 := m.(preparing := m.preparing - multiset{k});
    MovedExactly(model, m1, k, QueueSession.Failed, None, None, fate, x);
    MovedExactly(model, m1, k, Analyzing, None, None, fate, x);
  }

  lemma AnalysedMoves(model: string -> bool, m: Machine, k: CardKey, result: Analysis, validating: Fate, fate: Fate,
                      x: CardKey)
    requires Inv(model, m) && m.up
    ensures var before := StateAt(m.ledger.items, x);
            StateAt(AnalysisStep(m, k, result, validating, fate).ledger.items, x)
            == if !(x == k && k in m.futures && before == Some(Analyzing)) then before
               else if result == Raised then Some(QueueSession.Failed)
               else if validating != Done || m.ledger.revision >= MAX_INT || !IsUuid(result.source) then Some(Validating)
               else Some(if result.failed then QueueSession.Failed else Ready)
  {
    CardStands(model, m, k);
    hide Moved, IsCurrent, StateAt, CardInv, CardOf, Valid, IsUuid;
    var m1 := m.(futures := m.futures - multiset{k});
    MovedExactly(model, m1, k, QueueSession.Failed, None, None, fate, x);
    if result.Analyzed? {
      MovedExactly(model, m1, k, Validating, None, None, validating, x);
      var m2 := Moved(m1, k, Validating, None, None, validating).0.(manifests := m.manifests + {k});
      MovedExactly(model, m2, k, if result.failed then QueueSession.Failed else Ready, Some(result.source), None, fate, x);
    }
  }

  lemma AddedMoves(model: string -> bool, m: Machine, id: Id, fate: Fate, x: CardKey)
    requires Inv(model, m) && m.up
    ensures var taken := IsUuid(id) && CurrentIndex(m.ledger.items, id).None?
                         && |Active(m.ledger.items)| < m.ledger.config.photoCount;
            StateAt(AddStep(m, id, fate).ledger.items, x)
            == if x == (id, 1) && taken then Some(Discovered) else StateAt(m.ledger.items, x)
  {
    hide IsUuid, CurrentIndex, Active, Inv, Valid;
    var items := m.ledger.items + [Item(id, 1, Discovered, None, None)];
    assert items[..|items| - 1] == m.ledger.items;
  }

  /** What a decision moves: the card it names, or the next revision of it. */
  lemma RecordedMoves(model: string -> bool, s: Ledger, d: Decision, x: CardKey)
    requires Valid(model, s)
    ensures var k := (d.itemId, d.revision);
            var (before, named) := (StateAt(s.items, x), StateAt(s.items, k));
            var open := ValidDecision(d) && DecisionNamed(s.decisions, d.decisionId).None? && IsCurrent(s, k) && named.Some?;
            StateAt(Record(s, d).0.items, x)
            == match d.action
               case Persist =>
                 if open && x == k && (named == Some(Ready) || named == Some(Edited)) then Some(SaveQueued) else before
               case Discard =>
                 if open && x == k && named != Some(SaveQueued) && named != Some(Saving) && named != Some(Verified)
                    && named != Some(Discarded) then Some(Discarded) else before
               case Rescan =>
                 if open && x == (d.itemId, d.revision + 1) && d.revision < MAX_INT
                    && (named == Some(Ready) || named == Some(QueueSession.Failed) || named == Some(Uncertain))
                 then Some(Queued) else before
  {
    hide CurrentIndex, NewestAt, Distinct, StateAt, ValidDecision, ValidItems, Valid, Decided, DecisionNamed;
    ValidHasItems(model, s);
    CurrentIndexCorrect(s.items, d.itemId);
    var at := CurrentIndex(s.items, d.itemId);
    if at.Some? && s.items[at.value].revision == d.revision {
      StateAtIndex(s.items, at.value);
      DecidedMoves(s, at.value, d, x);
    }
  }

  /** A well-formed decision under a new identifier about the newest revision of a card. */
  predicate Undecided(s: Ledger, d: Decision) {
    && ValidDecision(d) && (forall e | e in s.decisions :: e.decisionId != d.decisionId)
    && IsCurrent(s, (d.itemId, d.revision))
  }

  lemma {:induction false} NamedIn(decisions: seq<Decision>, id: Id)
    ensures DecisionNamed(decisions, id).None? <==> forall e | e in decisions :: e.decisionId != id
    decreases |decisions|
  {
    if decisions != [] {
      NamedIn(decisions[1..], id);
      assert decisions == [decisions[0]] + decisions[1..];
    }
  }

  lemma DecisionRecorded(m: Machine, d: Decision, fate: Fate)
    ensures var recorded := Record(m.ledger, d).0.items;
            && PersistStep(m, d, fate).ledger.items == (if d.action == Persist then recorded else m.ledger.items)
            && DiscardStep(m, d, fate).ledger.items == (if d.action == Discard then recorded else m.ledger.items)
            && RescanStep(m, d, fate).ledger.items == (if d.action == Rescan then recorded else m.ledger.items)
  {
    hide Record, DecisionNamed;
  }

  lemma DecisionMoves(model: string -> bool, m: Machine, d: Decision, fate: Fate, x: CardKey)
    requires Inv(model, m) && m.up
    ensures var (before, named) := (StateAt(m.ledger.items, x), StateAt(m.ledger.items, (d.itemId, d.revision)));
            var open := Undecided(m.ledger, d);
            && StateAt(PersistStep(m, d, fate).ledger.items, x)
               == (if x == (d.itemId, d.revision) && d.action == Persist && open
                      && (before == Some(Ready) || before == Some(Edited)) then Some(SaveQueued) else before)
            && StateAt(DiscardStep(m, d, fate).ledger.items, x)
               == (if x == (d.itemId, d.revision) && d.action == Discard && open
                      && before.Some? && before != Some(SaveQueued) && before != Some(Saving)
                      && before != Some(Verified) then Some(Discarded) else before)
            && StateAt(RescanStep(m, d, fate).ledger.items, x)
               == (if x == (d.itemId, d.revision + 1) && d.action == Rescan && open && d.revision < MAX_INT
                      && (named == Some(Ready) || named == Some(QueueSession.Failed) || named == Some(Uncertain))
                   then Some(Queued) else before)
  {
    LedgerValid(model, m);
    RecordedMoves(model, m.ledger, d, x);
    NamedIn(m.ledger.decisions, d.decisionId);
    CardStands(model, m, (d.itemId, d.revision));
    DecisionRecorded(m, d, fate);
    hide Record, StateAt, Inv, ValidDecision, DecisionNamed, Valid, IsCurrent, CardInv;
    hide PersistStep, DiscardStep, RescanStep;
  }

  /** The whole table: where a card stands after a step of the running coordinator, from where it stood
      before. Whatever is not in it leaves the card alone. */
  lemma StepMovesExactly(model: string -> bool, m: Machine, e: Event, x: CardKey)
    requires Inv(model, m) && m.up && !e.CrashEvent? && !e.RecoverEvent?
    ensures var (before, after) := (StateAt(m.ledger.items, x), StateAt(Step(model, m, e).ledger.items, x));
            match e
            case PersistEvent(d, _) =>
              after == if x == (d.itemId, d.revision) && d.action == Persist && Undecided(m.ledger, d)
                          && (before == Some(Ready) || before == Some(Edited)) then Some(SaveQueued) else before
            case DiscardEvent(d, _) =>
              after == if x == (d.itemId, d.revision) && d.action == Discard && Undecided(m.ledger, d)
                          && before.Some? && before != Some(SaveQueued) && before != Some(Saving)
                          && before != Some(Verified) then Some(Discarded) else before
            case RescanEvent(d, _) =>
              var named := StateAt(m.ledger.items, (d.itemId, d.revision));
              after == if x == (d.itemId, d.revision + 1) && d.action == Rescan && Undecided(m.ledger, d)
                          && d.revision < 0x7fff_ffff
                          && (named == Some(Ready) || named == Some(QueueSession.Failed) || named == Some(Uncertain))
                       then Some(Queued) else before
            case StartSavingEvent(k, _) =>
              after == if x == k && k in m.submitted && m.running == multiset{} then Some(Saving) else before
            case FinishSavingEvent(k, verified, reviewed, _, _) =>
              after == if x == k && k in m.running && (reviewed.Some? ==> IsUuid(reviewed.value))
                       then Some(if verified then Verified else Uncertain)
                       else if x == k && k !in m.running && k in m.aborted then Some(Uncertain)
                       else before
            case PickEvent(k, _, _) =>
              after == if x == k && k in m.candidates && (before == Some(Discovered) || before == Some(Queued))
                       then Some(Preparing) else before
            case RestoreEvent(k, fate, _) =>
              after == if x == k && k in m.preparing && before == Some(Preparing)
                       then Some(if fate == Done && m.ledger.revision < MAX_INT then Queued else QueueSession.Failed)
                       else before
            case FailEvent(k, _) =>
              after == if x == k && k in m.preparing && before == Some(Preparing) then Some(QueueSession.Failed) else before
            case SubmitEvent(k, _) =>
              after == if x == k && k in m.preparing && before == Some(Preparing) then Some(Analyzing) else before
            case AnalysisEvent(k, result, validating, _) =>
              after == if !(x == k && k in m.futures && before == Some(Analyzing)) then before
                       else if result == Raised then Some(QueueSession.Failed)
                       else if validating != Done || m.ledger.revision >= MAX_INT || !IsUuid(result.source) then Some(Validating)
                       else Some(if result.failed then QueueSession.Failed else Ready)
            case AddEvent(id, _) =>
              after == if x == (id, 1) && IsUuid(id) && CurrentIndex(m.ledger.items, id).None?
                          && |Active(m.ledger.items)| < m.ledger.config.photoCount
                       then Some(Discovered) else before
            case _ => after == before
  {
    hide Inv, Record, StateAt, IsCurrent, IsUuid, CurrentIndex, Active, Undecided, Moved;
    hide PersistStep, DiscardStep, RescanStep, StartSavingStep, FinishSavingStep, PickStep, RestoreStep, FailStep, SubmitStep;
    hide AnalysisStep, AddStep, RefuseSavingStep, ControlStep, SetState, UpdateConfig, Saved, CrashStep, RecoverStep;
    match e
    case PersistEvent(d, fate) => DecisionMoves(model, m, d, fate, x);
    case DiscardEvent(d, fate) => DecisionMoves(model, m, d, fate, x);
    case RescanEvent(d, fate) => DecisionMoves(model, m, d, fate, x);
    case StartSavingEvent(k, fate) => SavingMoves(model, m, k, fate, x);
    case FinishSavingEvent(k, verified, reviewed, manifest, fate) =>
      SavedMoves(model, m, k, verified, reviewed, manifest, fate, x);
    case PickEvent(k, kept, fate) => PickedMoves(model, m, k, kept, fate, x);
    case RestoreEvent(k, fate, failing) => RestoredMoves(model, m, k, fate, failing, x);
    case FailEvent(k, fate) => PreparedMoves(model, m, k, fate, x);
    case SubmitEvent(k, fate) => PreparedMoves(model, m, k, fate, x);
    case AnalysisEvent(k, result, validating, fate) => AnalysedMoves(model, m, k, result, validating, fate, x);
    case AddEvent(id, fate) => AddedMoves(model, m, id, fate, x);
    case _ => OthersMoveNothing(model, m, e);
  }

  lemma LedgerValid(model: string -> bool, m: Machine)
    requires Inv(model, m)
    ensures Valid(model, m.ledger)
  {
  }

  lemma OthersMoveNothing(model: string -> bool, m: Machine, e: Event)
    requires m.up && (e.RefuseSavingEvent? || e.DropEvent? || e.ControlEvent? || e.ConfigEvent? || e.RewriteEvent?)
    ensures Step(model, m, e).ledger.items == m.ledger.items
  {
  }

  // ------------------------------------------------------------------ the jobs beside the cards

  /** Only a new decision about a card with a manifest is submitted, and only once it is on disk. */
  lemma SubmittedExactly(m: Machine, d: Decision, fate: Fate)
    ensures var n := PersistStep(m, d, fate);
            var k := (d.itemId, d.revision);
            var taken := d.action == Persist && Record(m.ledger, d).1 == Accepted;
            var known := DecisionNamed(m.ledger.decisions, d.decisionId).Some?;
            && n == m.(ledger := n.ledger, disk := n.disk, submitted := n.submitted)
            && n.ledger == (if d.action == Persist then Record(m.ledger, d).0 else m.ledger)
            && n.disk == (if taken && (known || k in m.manifests) && fate != Lost then n.ledger else m.disk)
            && n.submitted == (if taken && !known && k in m.manifests && fate == Done
                               then m.submitted + multiset{k} else m.submitted)
    ensures forall k: CardKey ::
              RefuseSavingStep(m, k)
              == if k in m.submitted then m.(submitted := m.submitted - multiset{k}, aborted := m.aborted + multiset{k})
                 else m
  {
    hide Record, DecisionNamed;
  }

  /** A submitted save starts when no other runs, and only once it is on disk as saving; otherwise it is given up. */
  lemma StartedExactly(model: string -> bool, m: Machine, k: CardKey, fate: Fate)
    requires Inv(model, m) && m.up
    ensures var n := StartSavingStep(m, k, fate);
            if k !in m.submitted || m.running != multiset{} then n == m
            else
              var room := m.ledger.revision < 0x7fff_ffff;
              && n.submitted == m.submitted - multiset{k}
              && n == (if room && fate == Done
                       then m.(ledger := n.ledger, disk := n.disk, submitted := n.submitted,
                               running := m.running + multiset{k}, runs := m.runs + multiset{k})
                       else m.(ledger := n.ledger, disk := n.disk, submitted := n.submitted,
                               aborted := m.aborted + multiset{k}))
              && n.disk == if room && fate != Lost then n.ledger else m.disk
  {
    hide Inv, Moved, StateAt, IsCurrent, BothValid, CardInv;
    if k in m.submitted {
      var m1 := m.(submitted := m.submitted - multiset{k});
      WaitingStands(model, m, k);
      SameLedgersValid(model, m, m1);
      MovedExactly(model, m1, k, Saving, None, None, fate, k);
    }
  }

  lemma WaitingStands(model: string -> bool, m: Machine, k: CardKey)
    requires Inv(model, m) && m.up && k in m.submitted
    ensures IsCurrent(m.ledger, k) && StateAt(m.ledger.items, k) == Some(SaveQueued) && BothValid(model, m)
  {
    CardStands(model, m, k);
    hide StateAt, IsCurrent, CardInv;
  }

  /** A save that ran leaves its manifest with the card, one given up leaves nothing. */
  lemma FinishedExactly(model: string -> bool, m: Machine, k: CardKey, verified: bool, reviewed: Option<Id>,
                        manifest: bool, fate: Fate)
    requires Inv(model, m) && m.up
    ensures var n := FinishSavingStep(m, k, verified, reviewed, manifest, fate);
            var room := m.ledger.revision < 0x7fff_ffff;
            if k !in m.running && k !in m.aborted then n == m
            else
              var ran := k in m.running;
              && n == m.(ledger := n.ledger, disk := n.disk,
                         running := if ran then m.running - multiset{k} else m.running,
                         aborted := if ran then m.aborted else m.aborted - multiset{k},
                         manifests := if ran && manifest then m.manifests + {k} else m.manifests)
              && (OptionalUuid(reviewed) || !ran ==> n.disk == if room && fate != Lost then n.ledger else m.disk)
  {
    CardStands(model, m, k);
    BothLedgersValid(model, m);
    hide Inv, Moved, StateAt, IsCurrent, IsUuid;
    if k in m.running {
      var manifests := if manifest then m.manifests + {k} else m.manifests;
      MovedExactly(model, m.(running := m.running - multiset{k}, manifests := manifests), k,
                   if verified then Verified else Uncertain, None, reviewed, fate, k);
    } else if k in m.aborted {
      MovedExactly(model, m.(aborted := m.aborted - multiset{k}), k, Uncertain, None, None, fate, k);
    }
  }

  lemma BothLedgersValid(model: string -> bool, m: Machine)
    requires Inv(model, m) && m.up
    ensures BothValid(model, m)
  {
  }

  /** A picked card is prepared once it is on disk as preparing and its pass goes on. */
  lemma PickedExactly(model: string -> bool, m: Machine, k: CardKey, kept: bool, fate: Fate)
    requires Inv(model, m) && m.up
    ensures var n := PickStep(m, k, kept, fate);
            var room := m.ledger.revision < 0x7fff_ffff;
            var here := k in m.candidates && StateAt(m.ledger.items, k) in {Some(Discovered), Some(Queued)};
            && n == m.(ledger := n.ledger, disk := n.disk, preparing := n.preparing)
            && n.preparing == (if here && kept && room && fate == Done then m.preparing + multiset{k} else m.preparing)
            && n.disk == (if here && room && fate != Lost then n.ledger else m.disk)
  {
    CardStands(model, m, k);
    BothLedgersValid(model, m);
    hide Inv, Moved, StateAt, IsCurrent;
    MovedExactly(model, m, k, Preparing, None, None, fate, k);
  }

  /** A card that is put back or fails leaves the pass. */
  lemma LeavesExactly(m: Machine, k: CardKey, fate: Fate, failing: Fate)
    ensures var n := RestoreStep(m, k, fate, failing);
            n == m.(ledger := n.ledger, disk := n.disk, preparing := m.preparing - multiset{k})
    ensures var n := FailStep(m, k, fate);
            n == m.(ledger := n.ledger, disk := n.disk, preparing := m.preparing - multiset{k})
  {
    hide Moved, StateAt, IsCurrent;
    var m1 := m.(preparing := m.preparing - multiset{k});
    assert k !in m.preparing ==> m1 == m;
    MovedShape(m1, k, Queued, None, None, fate);
    MovedShape(Moved(m1, k, Queued, None, None, fate).0, k, QueueSession.Failed, None, None, failing);
    MovedShape(m1, k, QueueSession.Failed, None, None, fate);
  }

  /** A prepared card is analysed once it is on disk as analyzing, or when it was discarded meanwhile. */
  lemma PreparedExactly(model: string -> bool, m: Machine, k: CardKey, fate: Fate)
    requires Inv(model, m) && m.up
    ensures var n := SubmitStep(m, k, fate);
            && n == m.(ledger := n.ledger, disk := n.disk, preparing := m.preparing - multiset{k}, futures := n.futures)
            && n.futures == if k in m.preparing && (StateAt(m.ledger.items, k) == Some(Discarded)
                                                    || (m.ledger.revision < 0x7fff_ffff && fate == Done))
                            then m.futures + multiset{k} else m.futures
  {
    hide Inv, Moved, StateAt, IsCurrent, Settled, BothValid, CardInv;
    var m1 := m.(preparing := m.preparing - multiset{k});
    if k !in m.preparing {
      assert m1 == m;
    } else {
      PreparedStands(model, m, k);
      BothLedgersValid(model, m);
      assert BothValid(model, m1) by { SameLedgersValid(model, m, m1); }
      MovedExactly(model, m1, k, Analyzing, None, None, fate, k);
    }
  }

  lemma SameLedgersValid(model: string -> bool, m: Machine, m1: Machine)
    requires BothValid(model, m) && m1.ledger == m.ledger && m1.disk == m.disk && m1.up == m.up
    ensures BothValid(model, m1)
  {
  }

  lemma PreparedStands(model: string -> bool, m: Machine, k: CardKey)
    requires Inv(model, m) && k in m.preparing
    ensures Settled(m.ledger, k) <==> StateAt(m.ledger.items, k) == Some(Discarded)
    ensures !Settled(m.ledger, k) ==> IsCurrent(m.ledger, k) && StateAt(m.ledger.items, k) != Some(Analyzing)
    ensures BothValid(model, m) || !m.up
  {
    CardStands(model, m, k);
    hide StateAt, IsCurrent, CardInv;
  }

  /** An analysis that comes back leaves its manifest with the card once that is on disk as validating. */
  lemma AnalysisLeaves(model: string -> bool, m: Machine, k: CardKey, result: Analysis, validating: Fate, fate: Fate)
    requires Inv(model, m) && m.up
    ensures var n := AnalysisStep(m, k, result, validating, fate);
            && n == m.(ledger := n.ledger, disk := n.disk, futures := m.futures - multiset{k}, manifests := n.manifests)
            && n.manifests == if k in m.futures && StateAt(m.ledger.items, k) == Some(Analyzing) && result.Analyzed?
                                 && m.ledger.revision < 0x7fff_ffff && validating == Done
                              then m.manifests + {k} else m.manifests
  {
    hide Inv, Moved, StateAt, IsCurrent, IsUuid, Settled, BothValid, CardInv;
    if k in m.futures {
      AnalysisStands(model, m, k);
      BothLedgersValid(model, m);
      var m1 := m.(futures := m.futures - multiset{k});
      SameLedgersValid(model, m, m1);
      MovedShape(m1, k, QueueSession.Failed, None, None, fate);
      if result.Analyzed? {
        MovedExactly(model, m1, k, Validating, None, None, validating, k);
        var m2 := Moved(m1, k, Validating, None, None, validating).0.(manifests := m.manifests + {k});
        MovedShape(m2, k, if result.failed then QueueSession.Failed else Ready, Some(result.source), None, fate);
      }
    } else {
      assert m.(futures := m.futures - multiset{k}) == m;
    }
  }

  lemma AnalysisStands(model: string -> bool, m: Machine, k: CardKey)
    requires Inv(model, m) && k in m.futures
    ensures Settled(m.ledger, k) <==> StateAt(m.ledger.items, k) == Some(Discarded)
    ensures !Settled(m.ledger, k) ==> IsCurrent(m.ledger, k) && StateAt(m.ledger.items, k) == Some(Analyzing)
  {
    CardStands(model, m, k);
    hide StateAt, IsCurrent, CardInv;
  }

  /** What the remaining commands do beside the ledger: they write it when it was changed or replayed, and a new card
      or revision has its photo at hand. */
  lemma CommandsMoveExactly(model: string -> bool, m: Machine, e: Event)
    requires m.up
    requires e.DiscardEvent? || e.RescanEvent? || e.AddEvent? || e.ControlEvent? || e.ConfigEvent? || e.RewriteEvent?
    ensures var n := Step(model, m, e);
            && n == m.(ledger := n.ledger, disk := n.disk, candidates := n.candidates)
            && (n.disk == m.disk || (n.disk == n.ledger && e.fate != Lost))
            && match e
               case DiscardEvent(d, fate) =>
                 && n.candidates == m.candidates
                 && n.ledger == (if d.action == Discard then Record(m.ledger, d).0 else m.ledger)
                 && (d.action == Discard && Record(m.ledger, d).1 == Accepted && fate != Lost ==> n.disk == n.ledger)
               case RescanEvent(d, fate) =>
                 var taken := d.action == Rescan && Record(m.ledger, d).1 == Accepted;
                 var known := DecisionNamed(m.ledger.decisions, d.decisionId).Some?;
                 && n.ledger == (if d.action == Rescan then Record(m.ledger, d).0 else m.ledger)
                 && n.candidates == (if taken && !known && (d.itemId, d.revision) in m.candidates
                                     then m.candidates + {(d.itemId, d.revision + 1)} else m.candidates)
                 && (taken && (known || (d.itemId, d.revision) in m.candidates) && fate != Lost ==> n.disk == n.ledger)
               case AddEvent(id, fate) =>
                 var (ledger, reply) := Enqueue(m.ledger, id, None, Discovered);
                 && n.ledger == ledger
                 && n.candidates == (if reply == Accepted then m.candidates + {(id, 1)} else m.candidates)
                 && (reply == Accepted && fate != Lost ==> n.disk == n.ledger)
               case ControlEvent(expected, state, fate) =>
                 var (ledger, reply) := SetState(m.ledger, expected, state);
                 && n.candidates == m.candidates && n.ledger == ledger
                 && (reply == Accepted && fate != Lost ==> n.disk == ledger)
               case ConfigEvent(expected, config, fate) =>
                 var (ledger, reply) := UpdateConfig(model, m.ledger, expected, config);
                 && n.candidates == m.candidates && n.ledger == ledger
                 && (reply == Accepted && fate != Lost ==> n.disk == ledger)
               case _ => n.candidates == m.candidates && n.ledger == m.ledger && (e.fate != Lost ==> n.disk == m.ledger)
  {
    hide Record, Enqueue, SetState, UpdateConfig, DecisionNamed;
  }

  /** A session just created runs; what a crash leaves, and what a recovery makes of it: the session of the file,
      running again, with every newest card where recovery puts it. Where it does not go through it leaves
      everything as it is. */
  lemma RestartsExactly(model: string -> bool, m: Machine, broken: set<CardKey>, manifests: set<CardKey>,
                        candidates: set<CardKey>)
    requires Valid(model, m.disk)
    ensures var n := Step(model, m, CrashEvent);
            && !n.up && n.ledger == m.disk && n.disk == m.disk && n.runs == m.runs
            && n.submitted + n.aborted + n.running + n.preparing + n.futures == multiset{}
            && n.manifests == {} && n.candidates == {}
    ensures Created(m.disk).up && Created(m.disk).ledger == Created(m.disk).disk == m.disk
    ensures var n := Step(model, m, RecoverEvent(broken, manifests, candidates));
            var moves := if m.disk.state == Running then 0 else 1;
            if m.up || m.disk.state == Stopped || m.disk.revision + moves > 0x7fff_ffff then n == m
            else
              var resumed := m.disk.(state := Running, revision := m.disk.revision + moves);
              match RecoverFrom(resumed, 0, broken)
              case None => n == m
              case Some(ledger) => n == m.(up := true, ledger := ledger, manifests := manifests, candidates := candidates)
  {
    hide RecoverFrom;
    assert 0 <= m.disk.revision <= MAX_INT;
    assert m.disk.state == Running ==> m.disk.(state := Running, revision := m.disk.revision + 0) == m.disk;
  }
}
