/** `QueueSession` as the object the coordinator mutates, and its JSON form. */
module QueueLedger {
  import opened Wrappers
  import opened QueueSession

  class SessionObject {
    const sessionId: Id
    var config: Config
    var revision: int
    var items: seq<Item>
    var decisions: seq<Decision>
    var state: SessionState

    constructor (s: Ledger)
      ensures View() == s
    {
      sessionId := s.sessionId;
      config := s.config;
      revision := s.revision;
      items := s.items;
      decisions := s.decisions;
      state := s.state;
    }

    function View(): Ledger
      reads this
    {
      Ledger(sessionId, config, revision, items, decisions, state)
    }

    /** `validate`: the loops over cards and decisions. */
    method Validate(model: string -> bool) returns (ok: bool)
      ensures ok == Valid(model, View())
    {
      hide IsUuid, ValidConfig, ValidItem, ValidDecision, Keys;
      if !IsUuid(sessionId) || !ValidConfig(model, config) || !(0 <= revision <= MAX_INT) {
        return false;
      }
      var keys: set<(Id, int)> := {};
      KeysStart(items);
      var i := 0;
      while i < |items|
        invariant 0 <= i <= |items| && keys == Keys(items[..i])
        invariant forall j :: 0 <= j < i ==> ValidItem(items[j])
        invariant Distinct(items[..i])
      {
        NextKey(items, i);
        if !ValidItem(items[i]) {
          return false;
        }
        if Key(items[i]) in keys {
          return false;
        }
        keys := keys + {Key(items[i])};
        i := i + 1;
      }
      assert items[..i] == items;
      if exists k :: k in keys && k.1 > 1 && (k.0, k.1 - 1) !in keys {
        return false;
      }
      var ids: set<Id> := {};
      i := 0;
      while i < |decisions|
        invariant 0 <= i <= |decisions|
        invariant ids == set j | 0 <= j < i :: decisions[j].decisionId
        invariant forall j :: 0 <= j < i ==> ValidDecision(decisions[j])
        invariant forall j :: 0 <= j < i ==> (decisions[j].itemId, decisions[j].revision) in keys
        invariant forall j, k :: 0 <= j < k < i ==> decisions[j].decisionId != decisions[k].decisionId
      {
        var decision := decisions[i];
        if !ValidDecision(decision) || decision.decisionId in ids || (decision.itemId, decision.revision) !in keys {
          return false;
        }
        ids := ids + {decision.decisionId};
        i := i + 1;
      }
      ok := true;
    }

    method AdvanceRevision() returns (reply: Reply)
      modifies this`revision
      ensures (View(), reply) == Advanced(old(View()))
    {
      if revision >= MAX_INT {
        return Invalid;
      }
      revision := revision + 1;
      reply := Accepted;
    }

    /** `current_item`, as an index. */
    method CurrentItem(id: Id) returns (at: Option<nat>)
      ensures at == CurrentIndex(items, id)
    {
      at := None;
      var i := 0;
      while i < |items|
        invariant 0 <= i <= |items| && at == CurrentIndex(items[..i], id)
      {
        assert items[..i + 1][..i] == items[..i];
        if items[i].itemId == id && (at.None? || items[i].revision > items[at.value].revision) {
          at := Some(i);
        }
        i := i + 1;
      }
      assert items[..i] == items;
    }

    /** The newest revision of every card, one entry per card. */
    method Latest() returns (latest: map<Id, nat>)
      ensures forall id :: id in latest ==> NewestAt(items, latest[id]) && items[latest[id]].itemId == id
      ensures forall i :: 0 <= i < |items| ==> items[i].itemId in latest
    {
      latest := map[];
      var i := 0;
      while i < |items|
        invariant 0 <= i <= |items|
        invariant forall id :: id in latest ==> latest[id] < i && items[latest[id]].itemId == id
        invariant forall j :: 0 <= j < i ==>
                    items[j].itemId in latest && items[j].revision <= items[latest[items[j].itemId]].revision
      {
        var item := items[i];
        if item.itemId !in latest || items[latest[item.itemId]].revision < item.revision {
          latest := latest[item.itemId := i];
        }
        i := i + 1;
      }
    }

    method ActiveCount() returns (count: nat)
      requires Distinct(items)
      ensures count == |Active(items)|
    {
      var latest := Latest();
      var active := set id | id in latest && !Terminal(items[latest[id]].state);
      ActiveByLatest(items, latest);
      count := |active|;
    }

    method EnqueueItem(model: string -> bool, id: Id, source: Option<Id>, cardState: ItemState) returns (reply: Reply)
      requires Valid(model, View())
      modifies this
      ensures (View(), reply) == Enqueue(old(View()), id, source, cardState)
      ensures Valid(model, View())
    {
      EnqueueValid(model, View(), id, source, cardState);
      hide IsUuid, Active, CurrentIndex, ValidConfig, ValidItem, ValidDecisions, Contiguous;
      CurrentIndexCorrect(items, id);
      if !IsUuid(id) || exists i :: 0 <= i < |items| && items[i].itemId == id {
        return Invalid;
      }
      var active := ActiveCount();
      if active >= config.photoCount || !OptionalUuid(source) {
        return Invalid;
      }
      items := items + [Item(id, 1, cardState, source, None)];
      reply := AdvanceRevision();
    }

    method SetSessionState(model: string -> bool, expected: int, target: SessionState) returns (reply: Reply)
      requires Valid(model, View())
      modifies this
      ensures (View(), reply) == SetState(old(View()), expected, target)
      ensures Valid(model, View())
    {
      ControlsValid(model, View(), expected, target, config);
      hide Valid;
      if !(0 <= expected <= MAX_INT) {
        return Invalid;
      }
      if expected != revision {
        return Stale;
      }
      if state == target {
        return Accepted;
      }
      state := target;
      reply := AdvanceRevision();
    }

    method Configure(model: string -> bool, expected: int, target: Config) returns (reply: Reply)
      requires Valid(model, View())
      modifies this
      ensures (View(), reply) == UpdateConfig(model, old(View()), expected, target)
      ensures Valid(model, View())
    {
      ControlsValid(model, View(), expected, state, target);
      hide Valid;
      if !(0 <= expected <= MAX_INT) {
        return Invalid;
      }
      if expected != revision {
        return Stale;
      }
      if !ValidConfig(model, target) {
        return Invalid;
      }
      if config == target {
        return Accepted;
      }
      config := target;
      reply := AdvanceRevision();
    }

    method CheckpointItem(model: string -> bool, id: Id, itemRevision: int, target: ItemState,
                          source: Option<Id>, reviewed: Option<Id>) returns (reply: Reply)
      requires Valid(model, View())
      modifies this
      ensures (View(), reply) == Checkpoint(old(View()), id, itemRevision, target, source, reviewed)
      ensures Valid(model, View())
    {
      CheckpointValid(model, View(), id, itemRevision, target, source, reviewed);
      hide Valid, IsUuid, CurrentIndex;
      if !IsUuid(id) {
        return Invalid;
      }
      var at := CurrentItem(id);
      if at.None? {
        return Invalid;
      }
      var current := items[at.value];
      if current.revision != itemRevision {
        return Stale;
      }
      if !OptionalUuid(source) || !OptionalUuid(reviewed) {
        return Invalid;
      }
      var changed := current.state != target;
      var item := current.(state := target);
      if source.Some? && item.source != source {
        item, changed := item.(source := source), true;
      }
      if reviewed.Some? && item.reviewed != reviewed {
        item, changed := item.(reviewed := reviewed), true;
      }
      if !changed {
        return Accepted;
      }
      items := items[at.value := item];
      reply := AdvanceRevision();
    }

    method RecordDecision(model: string -> bool, proposed: Decision) returns (reply: Reply)
      requires Valid(model, View())
      modifies this
      ensures (View(), reply) == Record(old(View()), proposed)
      ensures Valid(model, View())
    {
      RecordValid(model, View(), proposed);
      hide Valid, IsUuid, CurrentIndex, Allows;
      if !ValidDecision(proposed) {
        return Invalid;
      }
      var i := 0;
      while i < |decisions|
        invariant 0 <= i <= |decisions|
        invariant DecisionNamed(decisions, proposed.decisionId) == DecisionNamed(decisions[i..], proposed.decisionId)
      {
        if decisions[i].decisionId == proposed.decisionId {
          return if decisions[i] == proposed then Accepted else Conflict;
        }
        i := i + 1;
      }
      var at := CurrentItem(proposed.itemId);
      if at.None? {
        return Invalid;
      }
      var current := items[at.value];
      if current.revision != proposed.revision {
        return Stale;
      }
      if !Allows(proposed.action, current.state) {
        return Invalid;
      }
      CurrentIndexCorrect(items, proposed.itemId);
      match proposed.action {
        case Persist => items := items[at.value := current.(state := SaveQueued)];
        case Discard => items := items[at.value := current.(state := Discarded)];
        case Rescan =>
          if proposed.revision + 1 > MAX_INT {
            return Invalid;
          }
          items := items + [Item(proposed.itemId, proposed.revision + 1, Queued, None, None)];
      }
      decisions := decisions + [proposed];
      reply := AdvanceRevision();
    }
  }

  /** With one newest revision per card, counting cards counts active identifiers. */
  lemma ActiveByLatest(items: seq<Item>, latest: map<Id, nat>)
    requires Distinct(items)
    requires forall id :: id in latest ==> latest[id] < |items|
    requires forall id :: id in latest ==> NewestAt(items, latest[id]) && items[latest[id]].itemId == id
    requires forall i :: 0 <= i < |items| ==> items[i].itemId in latest
    ensures (set id | id in latest && !Terminal(items[latest[id]].state)) == Active(items)
  {
    hide Terminal;
    var active := set id | id in latest && !Terminal(items[latest[id]].state);
    forall id | id in Active(items) ensures id in active {
      var i :| 0 <= i < |items| && NewestAt(items, i) && !Terminal(items[i].state) && items[i].itemId == id;
      var j := latest[id];
      assert items[i].revision == items[j].revision;
      assert Key(items[i]) == Key(items[j]);
    }
  }

  lemma KeysStart(items: seq<Item>)
    ensures Keys(items[..0]) == {} && Distinct(items[..0])
  {
  }

  /** Reading one more card into the key set. */
  lemma NextKey(items: seq<Item>, i: nat)
    requires i < |items| && Distinct(items[..i])
    ensures Keys(items[..i + 1]) == Keys(items[..i]) + {Key(items[i])}
    ensures Distinct(items[..i + 1]) <==> Key(items[i]) !in Keys(items[..i])
    ensures Key(items[i]) in Keys(items[..i]) ==> !Distinct(items)
  {
    var front, all := items[..i], items[..i + 1];
    assert all == front + [items[i]];
    KeysAppended(front, items[i]);
    if Key(items[i]) in Keys(front) {
      var j :| 0 <= j < i && Key(front[j]) == Key(items[i]);
      assert Key(all[j]) == Key(all[i]) && Key(items[j]) == Key(items[i]);
    } else {
      forall j, k | 0 <= j < k < |all| ensures Key(all[j]) != Key(all[k]) {
        assert Key(front[j]) in Keys(front);
      }
    }
  }
}
