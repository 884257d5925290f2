/** The ledger seen card by card: the state of one revision, and how often it was decided to persist
    it. Every ledger operation moves at most one card. */
module QueueCards {
  import opened Wrappers
  import opened QueueSession

  type CardKey = (Id, int)

  function StateAt(items: seq<Item>, k: CardKey): Option<ItemState> {
    if items == [] then None
    else
      var n := |items| - 1;
      if Key(items[n]) == k then Some(items[n].state) else StateAt(items[..n], k)
  }

  function Persists(decisions: seq<Decision>, k: CardKey): nat {
    if decisions == [] then 0
    else
      var n := |decisions| - 1;
      Persists(decisions[..n], k)
      + if decisions[n].action == Persist && (decisions[n].itemId, decisions[n].revision) == k then 1 else 0
  }

  lemma {:induction false} StateAtKey(items: seq<Item>, k: CardKey)
    ensures StateAt(items, k).Some? <==> k in Keys(items)
    decreases |items|
  {
    if items != [] {
      var n := |items| - 1;
      var front := items[..n];
      assert items == front + [items[n]];
      KeysAppended(front, items[n]);
      StateAtKey(front, k);
    }
  }

  lemma {:induction false} StateAtIndex(items: seq<Item>, i: nat)
    requires Distinct(items) && i < |items|
    ensures StateAt(items, Key(items[i])) == Some(items[i].state)
    decreases |items|
  {
    var n := |items| - 1;
    if i < n {
      assert Key(items[i]) != Key(items[n]);
      assert items[..n][i] == items[i];
      StateAtIndex(items[..n], i);
    }
  }

  lemma {:induction false} StateAtRewritten(items: seq<Item>, at: nat, item: Item, k: CardKey)
    requires Distinct(items) && at < |items| && Key(item) == Key(items[at])
    ensures StateAt(items[at := item], k) == if k == Key(item) then Some(item.state) else StateAt(items, k)
    decreases |items|
  {
    var n := |items| - 1;
    if at == n {
      assert items[at := item][..n] == items[..n];
    } else {
      assert Key(items[at]) != Key(items[n]);
      assert items[at := item][..n] == items[..n][at := item];
      StateAtRewritten(items[..n], at, item, k);
    }
  }

  /** The card is there and its revision is the newest. */
  predicate IsCurrent(s: Ledger, k: CardKey) {
    CurrentIndex(s.items, k.0).Some? && s.items[CurrentIndex(s.items, k.0).value].revision == k.1
  }

  lemma CurrentExists(s: Ledger, k: CardKey)
    requires IsCurrent(s, k)
    ensures StateAt(s.items, k).Some?
  {
    CurrentIndexCorrect(s.items, k.0);
    StateAtKey(s.items, k);
    var at := CurrentIndex(s.items, k.0).value;
    assert Key(s.items[at]) in Keys(s.items);
  }

  /** As far as `x` can tell, card `k` moved to `state` and nothing else changed. */
  predicate Moves(before: Ledger, after: Ledger, k: CardKey, state: ItemState, x: CardKey) {
    && after.decisions == before.decisions
    && StateAt(after.items, x) == if x == k then Some(state) else StateAt(before.items, x)
  }

  predicate SameCards(before: Ledger, after: Ledger) {
    after.decisions == before.decisions && after.items == before.items
  }

  lemma CheckpointMoves(s: Ledger, k: CardKey, state: ItemState, source: Option<Id>, reviewed: Option<Id>, x: CardKey)
    requires Distinct(s.items)
    ensures var (after, reply) := Checkpoint(s, k.0, k.1, state, source, reviewed);
            && (SameCards(s, after) || (IsCurrent(s, k) && Moves(s, after, k, state, x)))
            && (reply == Accepted ==> IsCurrent(s, k) && Moves(s, after, k, state, x))
  {
    hide IsUuid;
    var at := CurrentIndex(s.items, k.0);
    CurrentIndexCorrect(s.items, k.0);
    if at.Some? && s.items[at.value].revision == k.1 {
      var item := Rewritten(s.items[at.value], state, source, reviewed);
      hide CurrentIndex, NewestAt, Distinct;
      StateAtIndex(s.items, at.value);
      StateAtRewritten(s.items, at.value, item, x);
    }
  }

  lemma EnqueueMoves(s: Ledger, id: Id, state: ItemState, x: CardKey)
    requires ValidItems(s.items)
    ensures var (after, reply) := Enqueue(s, id, None, state);
            && (SameCards(s, after) || (Newcomer(s, (id, 1)) && Moves(s, after, (id, 1), state, x)))
            && (reply == Accepted ==> Newcomer(s, (id, 1)) && Moves(s, after, (id, 1), state, x))
  {
    CurrentIndexCorrect(s.items, id);
    StateAtKey(s.items, (id, 1));
    StateAtKey(s.items, (id, 0));
    StateAtKey(s.items, (id, 2));
    hide IsUuid, Active, CurrentIndex;
  }

  /** A card that is not there yet, and neither is the next revision. */
  predicate Newcomer(s: Ledger, k: CardKey) {
    && StateAt(s.items, k).None? && StateAt(s.items, (k.0, k.1 + 1)).None?
    && (k.1 == 1 ==> StateAt(s.items, (k.0, 0)).None?)
  }

  /** The card a decision moves, and where to: persisting and discarding move the card itself, a
      rescan adds its next revision. */
  function Target(d: Decision): CardKey {
    if d.action == Rescan then (d.itemId, d.revision + 1) else (d.itemId, d.revision)
  }

  function TargetState(d: Decision): ItemState {
    match d.action
    case Persist => SaveQueued
    case Discard => Discarded
    case Rescan => Queued
  }

  /** What a decision does to the cards when it is neither replayed nor refused. */
  predicate Decides(before: Ledger, after: Ledger, d: Decision, x: CardKey) {
    var k := (d.itemId, d.revision);
    && IsCurrent(before, k) && StateAt(before.items, k).Some? && Allows(d.action, StateAt(before.items, k).value)
    && (d.action == Rescan ==> Newcomer(before, Target(d)))
    && after.decisions == before.decisions + [d]
    && StateAt(after.items, x) == if x == Target(d) then Some(TargetState(d)) else StateAt(before.items, x)
  }

  lemma DecidedMoves(s: Ledger, at: nat, d: Decision, x: CardKey)
    requires ValidItems(s.items) && NewestAt(s.items, at) && Key(s.items[at]) == (d.itemId, d.revision)
    ensures StateAt(Decided(s.items, at, d.action), x)
            == if x == Target(d) then Some(TargetState(d)) else StateAt(s.items, x)
  {
    assert Distinct(s.items);
    hide ValidItems, NewestAt, Distinct;
    match d.action
    case Persist => StateAtRewritten(s.items, at, s.items[at].(state := SaveQueued), x);
    case Discard => StateAtRewritten(s.items, at, s.items[at].(state := Discarded), x);
    case Rescan =>
  }

  /** Nothing lies above the newest revision. */
  lemma NewestHasNoNext(s: Ledger, at: nat)
    requires ValidItems(s.items) && NewestAt(s.items, at)
    ensures Newcomer(s, (s.items[at].itemId, s.items[at].revision + 1))
  {
    assert ValidItem(s.items[at]);
    hide IsUuid, StateAt, ValidItems, NewestAt, Keys;
    var id, revision := s.items[at].itemId, s.items[at].revision;
    StateAtKey(s.items, (id, revision + 1));
    StateAtKey(s.items, (id, revision + 2));
  }

  predicate Replayed(s: Ledger, d: Decision) { DecisionNamed(s.decisions, d.decisionId).Some? }

  lemma RecordMoves(s: Ledger, d: Decision, x: CardKey)
    requires ValidItems(s.items)
    ensures var (after, reply) := Record(s, d);
            && (SameCards(s, after) || (!Replayed(s, d) && Decides(s, after, d, x)))
            && (reply == Accepted ==> if Replayed(s, d) then after == s else Decides(s, after, d, x))
  {
    hide IsUuid, Allows;
    var at := CurrentIndex(s.items, d.itemId);
    CurrentIndexCorrect(s.items, d.itemId);
    if at.Some? && s.items[at.value].revision == d.revision {
      DecidedMoves(s, at.value, d, x);
      NewestHasNoNext(s, at.value);
      assert Distinct(s.items);
      StateAtIndex(s.items, at.value);
      hide ValidItems, NewestAt, Distinct, CurrentIndex, Decided, StateAt, DecisionNamed, ValidDecision, Newcomer;
    }
  }

  // -------------------------------------------------------------------- recovery

  /** What recovery makes of a current card; `broken` says that its source run is gone or failed. */
  function RecoveredState(state: ItemState, broken: bool): ItemState {
    match state
    case SaveQueued => Uncertain
    case Saving => Uncertain
    case Discovered => Queued
    case Queued => Queued
    case Preparing => Queued
    case Analyzing => Queued
    case Validating => Queued
    case Ready => if broken then QueueSession.Failed else Ready
    case Edited => if broken then QueueSession.Failed else Edited
    case _ => state
  }

  /** The recovery loop over the newest revisions, from card `i` on. */
  function RecoverFrom(s: Ledger, i: nat, broken: set<CardKey>): Option<Ledger>
    decreases |s.items| - i
  {
    if i >= |s.items| then Some(s)
    else
      var item := s.items[i];
      if CurrentIndex(s.items, item.itemId) != Some(i) then RecoverFrom(s, i + 1, broken)
      else
        var (after, reply) := Checkpoint(s, item.itemId, item.revision,
                                         RecoveredState(item.state, Key(item) in broken), None, None);
        if reply != Accepted || |after.items| != |s.items| then None else RecoverFrom(after, i + 1, broken)
  }

  lemma {:induction false} CurrentIndexByKeys(items: seq<Item>, at: nat, item: Item, id: Id)
    requires at < |items| && Key(item) == Key(items[at])
    ensures CurrentIndex(items[at := item], id) == CurrentIndex(items, id)
    decreases |items|
  {
    var n := |items| - 1;
    if at == n {
      assert items[at := item][..n] == items[..n];
    } else {
      assert items[at := item][..n] == items[..n][at := item];
      CurrentIndexByKeys(items[..n], at, item, id);
    }
  }

  /** A card is current exactly when it has no next revision. */
  lemma CurrentIffNotSuperseded(s: Ledger, k: CardKey)
    requires ValidItems(s.items)
    ensures IsCurrent(s, k) <==> StateAt(s.items, k).Some? && StateAt(s.items, (k.0, k.1 + 1)).None?
  {
    CurrentIndexCorrect(s.items, k.0);
    StateAtKey(s.items, k);
    StateAtKey(s.items, (k.0, k.1 + 1));
    var at := CurrentIndex(s.items, k.0);
    if at.Some? {
      hide CurrentIndex, StateAt;
      if StateAt(s.items, k).Some? && StateAt(s.items, (k.0, k.1 + 1)).None? && s.items[at.value].revision != k.1 {
        GapBelow(s.items, k, s.items[at.value].revision);
      }
    }
  }

  /** Below a revision there is every smaller one. */
  lemma {:induction false} GapBelow(items: seq<Item>, k: CardKey, newest: int)
    requires ValidItems(items) && (k.0, newest) in Keys(items) && k in Keys(items)
    requires k.1 < newest
    ensures (k.0, k.1 + 1) in Keys(items)
    decreases newest - k.1
  {
    var i :| 0 <= i < |items| && Key(items[i]) == k;
    assert ValidItem(items[i]);
    if newest > k.1 + 1 {
      assert (k.0, newest - 1) in Keys(items);
      GapBelow(items, k, newest - 1);
    }
  }

  function IndexOfCurrent(s: Ledger, k: CardKey): nat
    requires IsCurrent(s, k)
  {
    CurrentIndex(s.items, k.0).value
  }

  lemma CheckpointAtIndex(s: Ledger, i: nat, state: ItemState)
    requires Distinct(s.items) && i < |s.items| && CurrentIndex(s.items, s.items[i].itemId) == Some(i)
    ensures var after := Checkpoint(s, s.items[i].itemId, s.items[i].revision, state, None, None).0;
            Checkpoint(s, s.items[i].itemId, s.items[i].revision, state, None, None).1 == Accepted ==>
              after.items == s.items[i := s.items[i].(state := state)] && after.decisions == s.decisions
  {
    assert s.items[i].(state := state) == Rewritten(s.items[i], state, None, None);
    assert s.items == s.items[i := s.items[i]];
  }

  function RecoveredAt(s: Ledger, i: nat, broken: set<CardKey>, x: CardKey): Option<ItemState> {
    match StateAt(s.items, x)
    case None => None
    case Some(state) =>
      if IsCurrent(s, x) && CurrentIndex(s.items, x.0).value >= i then Some(RecoveredState(state, x in broken))
      else Some(state)
  }

  /** Recovering card `i` first leaves the others to be recovered as before. */
  lemma RecoveryStep(s: Ledger, i: nat, broken: set<CardKey>, x: CardKey)
    requires Distinct(s.items) && i < |s.items| && CurrentIndex(s.items, s.items[i].itemId) == Some(i)
    ensures var state := RecoveredState(s.items[i].state, Key(s.items[i]) in broken);
            var after := s.(items := s.items[i := s.items[i].(state := state)]);
            RecoveredAt(after, i + 1, broken, x) == RecoveredAt(s, i, broken, x)
  {
    var item := s.items[i].(state := RecoveredState(s.items[i].state, Key(s.items[i]) in broken));
    StateAtRewritten(s.items, i, item, x);
    StateAtIndex(s.items, i);
    CurrentIndexByKeys(s.items, i, item, x.0);
    CurrentIndexCorrect(s.items, x.0);
    hide CurrentIndex, StateAt, Distinct, NewestAt, RecoveredState;
  }

  lemma RecoverySkips(s: Ledger, i: nat, broken: set<CardKey>, x: CardKey)
    requires i < |s.items| && CurrentIndex(s.items, s.items[i].itemId) != Some(i)
    ensures RecoveredAt(s, i + 1, broken, x) == RecoveredAt(s, i, broken, x)
  {
    CurrentIndexCorrect(s.items, x.0);
    hide StateAt, NewestAt, RecoveredState;
  }

  /** A finished recovery gives every current card its recovered state, and leaves history alone. */
  lemma {:induction false} RecoveredExactly(model: string -> bool, s: Ledger, i: nat, broken: set<CardKey>, x: CardKey)
    requires Valid(model, s) && RecoverFrom(s, i, broken).Some?
    ensures var after := RecoverFrom(s, i, broken).value;
            && Valid(model, after) && after.decisions == s.decisions
            && StateAt(after.items, x) == RecoveredAt(s, i, broken, x)
    decreases |s.items| - i
  {
    assert Distinct(s.items);
    hide Valid, RecoveredAt, Checkpoint, CurrentIndex, StateAt, RecoveredState, Distinct;
    if i < |s.items| {
      var item := s.items[i];
      if CurrentIndex(s.items, item.itemId) != Some(i) {
        RecoverySkips(s, i, broken, x);
        RecoveredExactly(model, s, i + 1, broken, x);
      } else {
        var state := RecoveredState(item.state, Key(item) in broken);
        var after := Checkpoint(s, item.itemId, item.revision, state, None, None).0;
        CheckpointValid(model, s, item.itemId, item.revision, state, None, None);
        CheckpointAtIndex(s, i, state);
        RecoveryStep(s, i, broken, x);
        RecoveredExactly(model, after, i + 1, broken, x);
      }
    }
  }

  /** Recovery rewrites nothing of an item but its state. */
  lemma {:induction false} RecoveryKeepsItems(s: Ledger, i: nat, broken: set<CardKey>)
    requires Distinct(s.items) && RecoverFrom(s, i, broken).Some?
    ensures var after := RecoverFrom(s, i, broken).value;
            && |after.items| == |s.items|
            && forall j :: 0 <= j < |s.items| ==> after.items[j] == s.items[j].(state := after.items[j].state)
    decreases |s.items| - i
  {
    hide Checkpoint, CurrentIndex, RecoveredState;
    if i < |s.items| {
      var item := s.items[i];
      if CurrentIndex(s.items, item.itemId) != Some(i) {
        RecoveryKeepsItems(s, i + 1, broken);
      } else {
        var state := RecoveredState(item.state, Key(item) in broken);
        CheckpointAtIndex(s, i, state);
        RecoveryKeepsItems(Checkpoint(s, item.itemId, item.revision, state, None, None).0, i + 1, broken);
      }
    }
  }

  /** A finished recovery, spelled out item by item: superseded revisions stay as they are; of the newest
      ones, whatever was on its way to an analysis is queued again, a finished analysis stays unless its
      source run is gone or failed, an interrupted save is uncertain, and the rest stays. */
  lemma RecoveredSpelledOut(model: string -> bool, s: Ledger, broken: set<CardKey>, i: nat)
    requires Valid(model, s) && RecoverFrom(s, 0, broken).Some? && i < |s.items|
    ensures var item := s.items[i];
            var after := RecoverFrom(s, 0, broken).value;
            && after.decisions == s.decisions && |after.items| == |s.items|
            && after.items[i].(state := item.state) == item
            && after.items[i].state
               == if exists j :: 0 <= j < |s.items| && s.items[j].itemId == item.itemId && s.items[j].revision > item.revision
                  then item.state
                  else if item.state in {Discovered, Queued, Preparing, Analyzing, Validating} then Queued
                  else if item.state in {SaveQueued, Saving} then Uncertain
                  else if item.state in {Ready, Edited} && (item.itemId, item.revision) in broken then QueueSession.Failed
                  else item.state
  {
    hide RecoverFrom, RecoveredState, RecoveredAt, StateAt, CurrentIndex, Distinct, Valid, IsCurrent;
    var item := s.items[i];
    ItemsDistinct(model, s);
    RecoveryKeepsItems(s, 0, broken);
    RecoveredExactly(model, s, 0, broken, Key(item));
    var after := RecoverFrom(s, 0, broken).value;
    ItemsDistinct(model, after);
    StateAtIndex(after.items, i);
    RecoveredWhereCurrent(s, i, broken);
    RecoveredStateSpelledOut(item.state, Key(item) in broken);
  }

  lemma ItemsDistinct(model: string -> bool, s: Ledger)
    requires Valid(model, s)
    ensures Distinct(s.items)
  {
  }

  lemma RecoveredStateSpelledOut(state: ItemState, broken: bool)
    ensures RecoveredState(state, broken)
            == if state in {Discovered, Queued, Preparing, Analyzing, Validating} then Queued
               else if state in {SaveQueued, Saving} then Uncertain
               else if state in {Ready, Edited} && broken then QueueSession.Failed
               else state
  {
  }

  lemma RecoveredWhereCurrent(s: Ledger, i: nat, broken: set<CardKey>)
    requires Distinct(s.items) && i < |s.items|
    ensures RecoveredAt(s, 0, broken, Key(s.items[i]))
            == if exists j :: 0 <= j < |s.items| && s.items[j].itemId == s.items[i].itemId
                              && s.items[j].revision > s.items[i].revision
               then Some(s.items[i].state)
               else Some(RecoveredState(s.items[i].state, Key(s.items[i]) in broken))
  {
    hide StateAt, CurrentIndex, Distinct, RecoveredState;
    StateAtIndex(s.items, i);
    CurrentIndexCorrect(s.items, s.items[i].itemId);
  }

  // ------------------------------------------------------ when a recovery goes through

  /** A recovery has to move item `i`. */
  predicate Recovers(s: Ledger, i: nat, broken: set<CardKey>)
    requires i < |s.items|
  {
    && CurrentIndex(s.items, s.items[i].itemId) == Some(i)
    && RecoveredState(s.items[i].state, Key(s.items[i]) in broken) != s.items[i].state
  }

  /** The ledger with item `i` moved. */
  function Recovering(s: Ledger, i: nat, broken: set<CardKey>): Ledger
    requires i < |s.items|
  {
    s.(items := s.items[i := s.items[i].(state := RecoveredState(s.items[i].state, Key(s.items[i]) in broken))],
       revision := s.revision + 1)
  }

  /** What is left to move from item `i` on. */
  function Changing(s: Ledger, i: nat, broken: set<CardKey>): set<nat> {
    set j | i <= j < |s.items| && Recovers(s, j, broken)
  }

  lemma RecoveredCheckpoint(s: Ledger, i: nat, state: ItemState)
    requires ValidItems(s.items) && i < |s.items| && CurrentIndex(s.items, s.items[i].itemId) == Some(i)
    ensures var (after, reply) := Checkpoint(s, s.items[i].itemId, s.items[i].revision, state, None, None);
            if state == s.items[i].state then after == s && reply == Accepted
            else && (reply == Accepted <==> s.revision < MAX_INT)
                 && (reply == Accepted ==>
                       after == s.(items := s.items[i := s.items[i].(state := state)], revision := s.revision + 1))
  {
    assert ValidItem(s.items[i]);
    assert s.items[i].(state := state) == Rewritten(s.items[i], state, None, None);
    hide CurrentIndex, IsUuid;
  }

  lemma ChangingOn(s: Ledger, i: nat, broken: set<CardKey>)
    requires i < |s.items|
    ensures Changing(Recovering(s, i, broken), i + 1, broken) == Changing(s, i + 1, broken)
  {
    var item := s.items[i].(state := RecoveredState(s.items[i].state, Key(s.items[i]) in broken));
    forall id ensures CurrentIndex(s.items[i := item], id) == CurrentIndex(s.items, id) {
      CurrentIndexByKeys(s.items, i, item, id);
    }
    hide CurrentIndex, RecoveredState;
  }

  lemma ChangingFrom(s: Ledger, i: nat, broken: set<CardKey>)
    ensures forall j :: j in Changing(s, i, broken) ==> i <= j
    ensures i >= |s.items| ==> Changing(s, i, broken) == {} && RecoverFrom(s, i, broken) == Some(s)
    ensures i < |s.items| ==>
              Changing(s, i, broken) == Changing(s, i + 1, broken) + if Recovers(s, i, broken) then {i} else {}
  {
    hide CurrentIndex, RecoveredState;
  }

  lemma RecoverOne(model: string -> bool, s: Ledger, i: nat, broken: set<CardKey>)
    requires Valid(model, s) && i < |s.items|
    ensures RecoverFrom(s, i, broken)
            == if !Recovers(s, i, broken) then RecoverFrom(s, i + 1, broken)
               else if s.revision < MAX_INT then RecoverFrom(Recovering(s, i, broken), i + 1, broken) else None
    ensures Recovers(s, i, broken) && s.revision < MAX_INT ==> Valid(model, Recovering(s, i, broken))
  {
    var item := s.items[i];
    var state := RecoveredState(item.state, Key(item) in broken);
    ItemsValid(model, s);
    RecoversSpelledOut(s, i, broken);
    hide Valid, Checkpoint, CurrentIndex, RecoveredState, ValidItems, Recovers, Recovering;
    if CurrentIndex(s.items, item.itemId) == Some(i) {
      RecoveredCheckpoint(s, i, state);
      CheckpointValid(model, s, item.itemId, item.revision, state, None, None);
    }
  }

  lemma RecoversSpelledOut(s: Ledger, i: nat, broken: set<CardKey>)
    requires i < |s.items|
    ensures var state := RecoveredState(s.items[i].state, Key(s.items[i]) in broken);
            && (Recovers(s, i, broken)
                <==> CurrentIndex(s.items, s.items[i].itemId) == Some(i) && state != s.items[i].state)
            && Recovering(s, i, broken)
               == s.(items := s.items[i := s.items[i].(state := state)], revision := s.revision + 1)
  {
  }

  lemma RecoveringGrows(s: Ledger, i: nat, broken: set<CardKey>)
    requires i < |s.items|
    ensures |Recovering(s, i, broken).items| == |s.items| && Recovering(s, i, broken).revision == s.revision + 1
  {
  }

  lemma {:induction false} RecoveryCounts(model: string -> bool, s: Ledger, i: nat, broken: set<CardKey>)
    requires Valid(model, s)
    ensures var moved := |Changing(s, i, broken)|;
            && (RecoverFrom(s, i, broken).Some? <==> moved == 0 || s.revision + moved <= MAX_INT)
            && (RecoverFrom(s, i, broken).Some? ==> RecoverFrom(s, i, broken).value.revision == s.revision + moved)
    decreases |s.items| - i
  {
    hide *;
    ItemsValid(model, s);
    ChangingFrom(s, i, broken);
    if i < |s.items| {
      RecoveringGrows(s, i, broken);
      RecoverOne(model, s, i, broken);
      ChangingFrom(s, i + 1, broken);
      if !Recovers(s, i, broken) {
        assert Changing(s, i, broken) == Changing(s, i + 1, broken);
        RecoveryCounts(model, s, i + 1, broken);
      } else {
        ChangingOn(s, i, broken);
        assert |Changing(s, i, broken)| == |Changing(s, i + 1, broken)| + 1;
        if s.revision < MAX_INT { RecoveryCounts(model, Recovering(s, i, broken), i + 1, broken); }
      }
    }
  }

  lemma ItemsValid(model: string -> bool, s: Ledger)
    requires Valid(model, s)
    ensures ValidItems(s.items) && s.revision <= MAX_INT
  {
  }

  /** The states a recovery moves a card out of. */
  predicate MovesOn(state: ItemState, broken: bool) {
    || state in {Discovered, Preparing, Analyzing, Validating, SaveQueued, Saving}
    || (state in {Ready, Edited} && broken)
  }

  /** A recovery moves each newest card once, and goes through exactly when the ledger has a revision left for
      every card it moves. */
  lemma RecoversExactlyWithRoom(model: string -> bool, s: Ledger, broken: set<CardKey>)
    requires Valid(model, s)
    ensures var moved := |set i | 0 <= i < |s.items| && NewestAt(s.items, i)
                                  && MovesOn(s.items[i].state, (s.items[i].itemId, s.items[i].revision) in broken)|;
            && (RecoverFrom(s, 0, broken).Some? <==> s.revision + moved <= 0x7fff_ffff)
            && (RecoverFrom(s, 0, broken).Some? ==> RecoverFrom(s, 0, broken).value.revision == s.revision + moved)
  {
    RecoveryCounts(model, s, 0, broken);
    ItemsValid(model, s);
    hide RecoverFrom, Valid, ValidItems, NewestAt, MovesOn, RecoveredState, CurrentIndex;
    forall i | 0 <= i < |s.items|
      ensures CurrentIndex(s.items, s.items[i].itemId) == Some(i) <==> NewestAt(s.items, i)
      ensures RecoveredState(s.items[i].state, Key(s.items[i]) in broken) != s.items[i].state
              <==> MovesOn(s.items[i].state, Key(s.items[i]) in broken)
    {
      CurrentIndexNewest(model, s, i);
      RecoveryMoves(s.items[i].state, Key(s.items[i]) in broken);
    }
    assert Changing(s, 0, broken)
           == set i | 0 <= i < |s.items| && NewestAt(s.items, i)
                      && MovesOn(s.items[i].state, (s.items[i].itemId, s.items[i].revision) in broken);
  }

  lemma RecoveryMoves(state: ItemState, broken: bool)
    ensures RecoveredState(state, broken) != state <==> MovesOn(state, broken)
  {
  }

  lemma CurrentIndexNewest(model: string -> bool, s: Ledger, i: nat)
    requires Valid(model, s) && i < |s.items|
    ensures CurrentIndex(s.items, s.items[i].itemId) == Some(i) <==> NewestAt(s.items, i)
  {
    CurrentIndexCorrect(s.items, s.items[i].itemId);
    ItemsDistinct(model, s);
    hide CurrentIndex, Valid;
    var at := CurrentIndex(s.items, s.items[i].itemId).value;
    assert at != i ==> Key(s.items[at]) != Key(s.items[i]);
  }
}
