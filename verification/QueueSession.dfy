/** The continuous queue's ledger: cards with revisions, decisions with identifiers, one session
    revision. Operations that raise may already have changed the ledger; that is kept. */
module QueueSession {
  import opened Wrappers

  const MAX_INT: int := 0x7fff_ffff

  // ---------------------------------------------------------------- vocabulary

  type Id = string

  datatype ItemState = Discovered | Queued | Preparing | Analyzing | Validating | Ready | Edited
                     | SaveQueued | Saving | Verified | Discarded | Failed | Uncertain
  datatype SessionState = Running | Paused | Stopped | Attention
  datatype Action = Persist | Discard | Rescan
  datatype Policy = Single | Adaptive

  datatype Config = Config(
    photoCount: int, concurrency: int, autoAnalyze: bool, includeCaption: bool, appleMaps: bool,
    randomSelection: bool, policy: Policy, model: Option<string>, fastModel: string, detailedModel: string)

  datatype Item = Item(itemId: Id, revision: int, state: ItemState, source: Option<Id>, reviewed: Option<Id>)

  datatype Decision = Decision(decisionId: Id, itemId: Id, revision: int, action: Action)

  datatype Ledger = Ledger(
    sessionId: Id, config: Config, revision: int, items: seq<Item>, decisions: seq<Decision>, state: SessionState)

  /** Why an operation raised. */
  datatype Reply = Accepted | Invalid | Conflict | Stale

  predicate Terminal(state: ItemState) { state in {Verified, Discarded} }

  /** The canonical lower-case form of a UUID. */
  predicate IsUuid(s: string) {
    && |s| == 36
    && forall i :: 0 <= i < 36 ==>
         if i in {8, 13, 18, 23} then s[i] == '-' else s[i] in "0123456789abcdef"
  }

  predicate OptionalUuid(s: Option<string>) { s.Some? ==> IsUuid(s.value) }

  // -------------------------------------------------------------------- validity

  /** `model` tells the model names the adapters accept. */
  predicate ValidConfig(model: string -> bool, c: Config) {
    && 1 <= c.photoCount <= 50 && 1 <= c.concurrency <= 4
    && model(c.fastModel) && model(c.detailedModel) && (c.model.Some? ==> model(c.model.value))
    && (c.policy == Single ==> c.model.Some?)
  }

  predicate ValidItem(item: Item) {
    IsUuid(item.itemId) && 1 <= item.revision <= MAX_INT && OptionalUuid(item.source) && OptionalUuid(item.reviewed)
  }

  predicate ValidDecision(d: Decision) {
    IsUuid(d.decisionId) && IsUuid(d.itemId) && 1 <= d.revision <= MAX_INT
  }

  function Key(item: Item): (Id, int) { (item.itemId, item.revision) }

  function Keys(items: seq<Item>): set<(Id, int)> {
    set i | 0 <= i < |items| :: Key(items[i])
  }

  predicate Distinct(items: seq<Item>) {
    forall i, j :: 0 <= i < j < |items| ==> Key(items[i]) != Key(items[j])
  }

  /** The revisions of a card are 1, 2, … without a gap. */
  predicate Contiguous(keys: set<(Id, int)>) {
    forall k :: k in keys && k.1 > 1 ==> (k.0, k.1 - 1) in keys
  }

  predicate ValidItems(items: seq<Item>) {
    (forall i :: 0 <= i < |items| ==> ValidItem(items[i])) && Distinct(items) && Contiguous(Keys(items))
  }

  predicate ValidDecisions(items: seq<Item>, decisions: seq<Decision>) {
    && (forall i :: 0 <= i < |decisions| ==> ValidDecision(decisions[i]))
    && (forall i, j :: 0 <= i < j < |decisions| ==> decisions[i].decisionId != decisions[j].decisionId)
    && (forall i :: 0 <= i < |decisions| ==> (decisions[i].itemId, decisions[i].revision) in Keys(items))
  }

  /** `validate`. */
  predicate Valid(model: string -> bool, s: Ledger) {
    && IsUuid(s.sessionId) && ValidConfig(model, s.config) && 0 <= s.revision <= MAX_INT
    && ValidItems(s.items) && ValidDecisions(s.items, s.decisions)
  }

  // ------------------------------------------------------------------ current cards

  /** The newest revision of a card. */
  function CurrentIndex(items: seq<Item>, id: Id): Option<nat>
    ensures CurrentIndex(items, id).Some? ==> CurrentIndex(items, id).value < |items|
  {
    if items == [] then None
    else
      var n := |items| - 1;
      var best := CurrentIndex(items[..n], id);
      if items[n].itemId == id && (best.None? || items[n].revision > items[best.value].revision)
      then Some(n) else best
  }

  predicate NewestAt(items: seq<Item>, i: nat) {
    && i < |items|
    && forall j :: 0 <= j < |items| && items[j].itemId == items[i].itemId ==> items[j].revision <= items[i].revision
  }

  lemma {:induction false} CurrentIndexCorrect(items: seq<Item>, id: Id)
    ensures var at := CurrentIndex(items, id);
            && (at.None? <==> forall j :: 0 <= j < |items| ==> items[j].itemId != id)
            && (at.Some? ==> NewestAt(items, at.value) && items[at.value].itemId == id)
    decreases |items|
  {
    if items != [] {
      var n := |items| - 1;
      var front := items[..n];
      CurrentIndexCorrect(front, id);
      forall j | 0 <= j < n ensures items[j] == front[j] {}
    }
  }

  /** The cards whose newest revision still counts against the photo limit. */
  function Active(items: seq<Item>): set<Id> {
    set i | 0 <= i < |items| && NewestAt(items, i) && !Terminal(items[i].state) :: items[i].itemId
  }

  // -------------------------------------------------------------------- operations

  function Advanced(s: Ledger): (Ledger, Reply) {
    if s.revision >= MAX_INT then (s, Invalid) else (s.(revision := s.revision + 1), Accepted)
  }

  function Enqueue(s: Ledger, id: Id, source: Option<Id>, state: ItemState): (Ledger, Reply) {
    if !IsUuid(id) || CurrentIndex(s.items, id).Some? || |Active(s.items)| >= s.config.photoCount
       || !OptionalUuid(source)
    then (s, Invalid)
    else Advanced(s.(items := s.items + [Item(id, 1, state, source, None)]))
  }

  function SetState(s: Ledger, expected: int, state: SessionState): (Ledger, Reply) {
    if !(0 <= expected <= MAX_INT) then (s, Invalid)
    else if expected != s.revision then (s, Stale)
    else if s.state == state then (s, Accepted)
    else Advanced(s.(state := state))
  }

  function UpdateConfig(model: string -> bool, s: Ledger, expected: int, config: Config): (Ledger, Reply) {
    if !(0 <= expected <= MAX_INT) then (s, Invalid)
    else if expected != s.revision then (s, Stale)
    else if !ValidConfig(model, config) then (s, Invalid)
    else if s.config == config then (s, Accepted)
    else Advanced(s.(config := config))
  }

  function Rewritten(item: Item, state: ItemState, source: Option<Id>, reviewed: Option<Id>): Item {
    item.(state := state, source := if source.Some? then source else item.source,
          reviewed := if reviewed.Some? then reviewed else item.reviewed)
  }

  function Checkpoint(s: Ledger, id: Id, revision: int, state: ItemState, source: Option<Id>, reviewed: Option<Id>)
    : (Ledger, Reply)
  {
    if !IsUuid(id) || CurrentIndex(s.items, id).None? then (s, Invalid)
    else
      var at := CurrentIndex(s.items, id).value;
      if s.items[at].revision != revision then (s, Stale)
      else if !OptionalUuid(source) || !OptionalUuid(reviewed) then (s, Invalid)
      else
        var item := Rewritten(s.items[at], state, source, reviewed);
        if item == s.items[at] then (s, Accepted) else Advanced(s.(items := s.items[at := item]))
  }

  predicate Allows(action: Action, state: ItemState) {
    match action
    case Persist => state in {Ready, Edited}
    case Rescan => state in {Ready, Failed, Uncertain}
    case Discard => state !in {SaveQueued, Saving, Verified, Discarded}
  }

  function DecisionNamed(decisions: seq<Decision>, id: Id): Option<Decision> {
    if decisions == [] then None
    else if decisions[0].decisionId == id then Some(decisions[0])
    else DecisionNamed(decisions[1..], id)
  }

  /** What a fresh decision does to the cards. */
  function Decided(items: seq<Item>, at: nat, action: Action): seq<Item>
    requires at < |items|
  {
    match action
    case Persist => items[at := items[at].(state := SaveQueued)]
    case Discard => items[at := items[at].(state := Discarded)]
    case Rescan => items + [Item(items[at].itemId, items[at].revision + 1, Queued, None, None)]
  }

  function Record(s: Ledger, d: Decision): (Ledger, Reply) {
    if !ValidDecision(d) then (s, Invalid)
    else match DecisionNamed(s.decisions, d.decisionId)
      case Some(existing) => (s, if existing == d then Accepted else Conflict)
      case None =>
        match CurrentIndex(s.items, d.itemId)
        case None => (s, Invalid)
        case Some(at) =>
          if s.items[at].revision != d.revision then (s, Stale)
          else if !Allows(d.action, s.items[at].state) then (s, Invalid)
          else if d.action == Rescan && d.revision + 1 > MAX_INT then (s, Invalid)
          else Advanced(s.(items := Decided(s.items, at, d.action), decisions := s.decisions + [d]))
  }

  datatype Op =
    | EnqueueOp(id: Id, source: Option<Id>, state: ItemState)
    | SetStateOp(expected: int, session: SessionState)
    | UpdateConfigOp(expected: int, config: Config)
    | CheckpointOp(id: Id, revision: int, state: ItemState, source: Option<Id>, reviewed: Option<Id>)
    | RecordOp(decision: Decision)

  function Apply(model: string -> bool, s: Ledger, op: Op): (Ledger, Reply) {
    match op
    case EnqueueOp(id, source, state) => Enqueue(s, id, source, state)
    case SetStateOp(expected, session) => SetState(s, expected, session)
    case UpdateConfigOp(expected, config) => UpdateConfig(model, s, expected, config)
    case CheckpointOp(id, revision, state, source, reviewed) => Checkpoint(s, id, revision, state, source, reviewed)
    case RecordOp(decision) => Record(s, decision)
  }

  function After(model: string -> bool, s: Ledger, ops: seq<Op>): Ledger
    decreases |ops|
  {
    if ops == [] then s else After(model, Apply(model, s, ops[0]).0, ops[1..])
  }

  // ------------------------------------------------------- the invariant on every run

  lemma KeysAppended(items: seq<Item>, item: Item)
    ensures Keys(items + [item]) == Keys(items) + {Key(item)}
  {
    var all := items + [item];
    assert forall i :: 0 <= i < |items| ==> all[i] == items[i];
    assert all[|items|] == item;
    forall k | k in Keys(items) ensures k in Keys(all) {
      var i :| 0 <= i < |items| && Key(items[i]) == k;
      assert Key(all[i]) == k;
    }
  }

  lemma KeysRewritten(items: seq<Item>, at: nat, item: Item)
    requires at < |items| && Key(item) == Key(items[at])
    ensures Keys(items[at := item]) == Keys(items)
  {
    var changed := items[at := item];
    assert forall i :: 0 <= i < |items| ==> Key(changed[i]) == Key(items[i]);
    forall k ensures k in Keys(changed) <==> k in Keys(items) {
      if k in Keys(changed) {
        var i :| 0 <= i < |changed| && Key(changed[i]) == k;
        assert Key(items[i]) == k;
      }
      if k in Keys(items) {
        var i :| 0 <= i < |items| && Key(items[i]) == k;
        assert Key(changed[i]) == k;
      }
    }
  }

  lemma AppendKeepsItems(items: seq<Item>, item: Item)
    requires ValidItems(items) && ValidItem(item) && Key(item) !in Keys(items)
    requires item.revision > 1 ==> (item.itemId, item.revision - 1) in Keys(items)
    ensures ValidItems(items + [item])
  {
    hide IsUuid;
    KeysAppended(items, item);
    var all := items + [item];
    forall i, j | 0 <= i < j < |all| ensures Key(all[i]) != Key(all[j]) {
      if j == |items| {
        assert Key(items[i]) in Keys(items);
      }
    }
  }

  lemma RewriteKeepsItems(items: seq<Item>, at: nat, item: Item)
    requires ValidItems(items) && at < |items| && ValidItem(item) && Key(item) == Key(items[at])
    ensures ValidItems(items[at := item])
  {
    hide IsUuid;
    KeysRewritten(items, at, item);
  }

  lemma DecisionsKept(items: seq<Item>, after: seq<Item>, decisions: seq<Decision>)
    requires ValidDecisions(items, decisions) && Keys(items) <= Keys(after)
    ensures ValidDecisions(after, decisions)
  {
    hide IsUuid, Keys;
  }

  /** The newest revision is the only one a card can be extended from. */
  lemma NextRevisionFresh(items: seq<Item>, at: nat)
    requires NewestAt(items, at)
    ensures (items[at].itemId, items[at].revision + 1) !in Keys(items)
    ensures Key(items[at]) in Keys(items)
  {
  }

  lemma {:induction false} DecisionNamedCorrect(decisions: seq<Decision>, id: Id)
    ensures var d := DecisionNamed(decisions, id);
            && (d.None? <==> forall i :: 0 <= i < |decisions| ==> decisions[i].decisionId != id)
            && (d.Some? ==> d.value in decisions && d.value.decisionId == id)
    decreases |decisions|
  {
    if decisions != [] && decisions[0].decisionId != id {
      DecisionNamedCorrect(decisions[1..], id);
      forall i | 0 <= i < |decisions| && decisions[i].decisionId == id ensures i > 0 && decisions[1..][i - 1] == decisions[i] {}
    }
  }

  lemma EnqueueValid(model: string -> bool, s: Ledger, id: Id, source: Option<Id>, state: ItemState)
    requires Valid(model, s)
    ensures Valid(model, Enqueue(s, id, source, state).0)
  {
    CurrentIndexCorrect(s.items, id);
    var item := Item(id, 1, state, source, None);
    if IsUuid(id) && CurrentIndex(s.items, id).None? && OptionalUuid(source) {
      assert Key(item) !in Keys(s.items);
      hide IsUuid, ValidItems, ValidDecisions, Active, CurrentIndex, Keys, ValidConfig;
      AppendKeepsItems(s.items, item);
      KeysAppended(s.items, item);
      DecisionsKept(s.items, s.items + [item], s.decisions);
    }
  }

  lemma CheckpointValid(model: string -> bool, s: Ledger, id: Id, revision: int, state: ItemState,
                        source: Option<Id>, reviewed: Option<Id>)
    requires Valid(model, s)
    ensures Valid(model, Checkpoint(s, id, revision, state, source, reviewed).0)
  {
    var at := CurrentIndex(s.items, id);
    if at.Some? && OptionalUuid(source) && OptionalUuid(reviewed) {
      var item := Rewritten(s.items[at.value], state, source, reviewed);
      assert ValidItem(item);
      hide IsUuid, ValidItems, ValidDecisions, CurrentIndex, Keys, ValidConfig, ValidItem;
      RewriteKeepsItems(s.items, at.value, item);
      KeysRewritten(s.items, at.value, item);
      DecisionsKept(s.items, s.items[at.value := item], s.decisions);
    }
  }

  lemma DecidedValid(items: seq<Item>, at: nat, action: Action)
    requires ValidItems(items) && NewestAt(items, at) && (action == Rescan ==> items[at].revision < MAX_INT)
    ensures ValidItems(Decided(items, at, action)) && Keys(items) <= Keys(Decided(items, at, action))
  {
    NextRevisionFresh(items, at);
    assert ValidItem(items[at]);
    hide IsUuid, ValidItems, Keys, NewestAt;
    match action
    case Persist =>
      RewriteKeepsItems(items, at, items[at].(state := SaveQueued));
      KeysRewritten(items, at, items[at].(state := SaveQueued));
    case Discard =>
      RewriteKeepsItems(items, at, items[at].(state := Discarded));
      KeysRewritten(items, at, items[at].(state := Discarded));
    case Rescan =>
      var item := Item(items[at].itemId, items[at].revision + 1, Queued, None, None);
      AppendKeepsItems(items, item);
      KeysAppended(items, item);
  }

  lemma DecisionAppended(items: seq<Item>, decisions: seq<Decision>, d: Decision)
    requires ValidDecisions(items, decisions) && ValidDecision(d) && (d.itemId, d.revision) in Keys(items)
    requires forall i :: 0 <= i < |decisions| ==> decisions[i].decisionId != d.decisionId
    ensures ValidDecisions(items, decisions + [d])
  {
    hide IsUuid, Keys;
  }

  lemma RecordValid(model: string -> bool, s: Ledger, d: Decision)
    requires Valid(model, s)
    ensures Valid(model, Record(s, d).0)
  {
    CurrentIndexCorrect(s.items, d.itemId);
    DecisionNamedCorrect(s.decisions, d.decisionId);
    var at := CurrentIndex(s.items, d.itemId);
    if at.Some? && DecisionNamed(s.decisions, d.decisionId).None? && s.items[at.value].revision == d.revision
       && ValidDecision(d) && (d.action == Rescan ==> d.revision + 1 <= MAX_INT) {
      var items := Decided(s.items, at.value, d.action);
      NextRevisionFresh(s.items, at.value);
      hide IsUuid, ValidItems, ValidDecisions, CurrentIndex, Keys, ValidConfig, DecisionNamed, Decided, ValidDecision, NewestAt;
      DecidedValid(s.items, at.value, d.action);
      DecisionsKept(s.items, items, s.decisions);
      DecisionAppended(items, s.decisions, d);
    }
  }

  lemma ControlsValid(model: string -> bool, s: Ledger, expected: int, state: SessionState, config: Config)
    requires Valid(model, s)
    ensures Valid(model, SetState(s, expected, state).0) && Valid(model, UpdateConfig(model, s, expected, config).0)
  {
    hide IsUuid, ValidItems, ValidDecisions;
  }

  /** Every operation, raising or not, leaves a ledger that validates. */
  lemma ApplyValid(model: string -> bool, s: Ledger, op: Op)
    requires Valid(model, s)
    ensures Valid(model, Apply(model, s, op).0)
  {
    hide Valid, Enqueue, Checkpoint, Record, SetState, UpdateConfig;
    match op
    case EnqueueOp(id, source, state) => EnqueueValid(model, s, id, source, state);
    case SetStateOp(expected, session) => ControlsValid(model, s, expected, session, s.config);
    case UpdateConfigOp(expected, config) => ControlsValid(model, s, expected, s.state, config);
    case CheckpointOp(id, revision, state, source, reviewed) =>
      CheckpointValid(model, s, id, revision, state, source, reviewed);
    case RecordOp(decision) => RecordValid(model, s, decision);
  }

  /** What no operation ever takes back: decisions, cards, the history of a card, the revision. */
  ghost predicate Extends(before: Ledger, after: Ledger) {
    && before.decisions <= after.decisions
    && |before.items| <= |after.items|
    && (forall i :: 0 <= i < |before.items| ==> Key(after.items[i]) == Key(before.items[i]))
    && (forall i :: 0 <= i < |before.items| && !NewestAt(before.items, i) ==> after.items[i] == before.items[i])
    && before.revision <= after.revision
    && before.sessionId == after.sessionId
  }

  lemma ApplyExtends(model: string -> bool, s: Ledger, op: Op)
    ensures Extends(s, Apply(model, s, op).0)
  {
    hide IsUuid, Active, ValidConfig, NewestAt, CurrentIndex, DecisionNamed, Allows;
    match op
    case CheckpointOp(id, _, _, _, _) => CurrentIndexCorrect(s.items, id);
    case RecordOp(d) => CurrentIndexCorrect(s.items, d.itemId);
    case _ =>
  }

  lemma SupersededStays(before: Ledger, after: Ledger, i: nat)
    requires Extends(before, after) && i < |before.items| && !NewestAt(before.items, i)
    ensures !NewestAt(after.items, i)
  {
    var j :| 0 <= j < |before.items| && before.items[j].itemId == before.items[i].itemId
             && before.items[j].revision > before.items[i].revision;
    assert Key(after.items[j]) == Key(before.items[j]) && Key(after.items[i]) == Key(before.items[i]);
  }

  lemma ExtendsTransitive(a: Ledger, b: Ledger, c: Ledger)
    requires Extends(a, b) && Extends(b, c)
    ensures Extends(a, c)
  {
    hide NewestAt;
    forall i | 0 <= i < |a.items| && !NewestAt(a.items, i) ensures c.items[i] == a.items[i] {
      SupersededStays(a, b, i);
    }
  }

  /** On every run the ledger validates, its revision never falls, decisions and cards are only
      added, and a superseded revision is frozen for good. */
  lemma {:induction false} RunsStayValid(model: string -> bool, s: Ledger, ops: seq<Op>)
    requires Valid(model, s)
    ensures Valid(model, After(model, s, ops)) && Extends(s, After(model, s, ops))
    decreases |ops|
  {
    hide Valid, Extends, Apply;
    if ops == [] {
      ExtendsReflexive(s);
    } else {
      var next := Apply(model, s, ops[0]).0;
      ApplyValid(model, s, ops[0]);
      ApplyExtends(model, s, ops[0]);
      RunsStayValid(model, next, ops[1..]);
      ExtendsTransitive(s, next, After(model, next, ops[1..]));
    }
  }

  lemma ExtendsReflexive(s: Ledger)
    ensures Extends(s, s)
  {
  }

  // ---------------------------------------------------------------- idempotency

  /** A recorded decision stays recorded: on every later ledger its replay changes nothing, and its
      identifier is refused to any other command. */
  lemma RecordedForGood(model: string -> bool, s: Ledger, d: Decision, ops: seq<Op>, other: Decision)
    requires Valid(model, s) && d in s.decisions && ValidDecision(other) && other.decisionId == d.decisionId
    ensures var later := After(model, s, ops);
            Record(later, other) == (later, if other == d then Accepted else Conflict)
  {
    RunsStayValid(model, s, ops);
    var later := After(model, s, ops);
    assert d in later.decisions;
    hide IsUuid, ValidItems, ValidConfig, Keys;
    DecisionNamedCorrect(later.decisions, d.decisionId);
    var found := DecisionNamed(later.decisions, d.decisionId).value;
    var i :| 0 <= i < |later.decisions| && later.decisions[i] == d;
    var j :| 0 <= j < |later.decisions| && later.decisions[j] == found;
    assert i == j;
  }

  /** A decision that was accepted for the first time is on the ledger afterwards; refused ones
      leave no trace. */
  lemma RecordLeavesATrace(s: Ledger, d: Decision)
    ensures var (after, reply) := Record(s, d);
            && (reply == Accepted ==> d in after.decisions)
            && (reply in {Conflict, Stale} ==> after == s)
            && (reply == Invalid ==> after == s || after.revision == s.revision == MAX_INT || s.revision > MAX_INT)
  {
    hide IsUuid;
    DecisionNamedCorrect(s.decisions, d.decisionId);
  }

  // ------------------------------------------------------------- the photo limit

  lemma ActiveAfterAppend(items: seq<Item>, item: Item)
    requires forall j :: 0 <= j < |items| ==> items[j].itemId != item.itemId
    ensures Active(items + [item]) <= Active(items) + {item.itemId}
    ensures !Terminal(item.state) ==> |Active(items + [item])| == |Active(items)| + 1
  {
    var all := items + [item];
    if !Terminal(item.state) {
      ActiveNewcomer(items, item);
    }
    forall id | id in Active(all) && id != item.itemId ensures id in Active(items) {
      var i :| 0 <= i < |all| && NewestAt(all, i) && !Terminal(all[i].state) && all[i].itemId == id;
      forall j | 0 <= j < |items| && items[j].itemId == items[i].itemId ensures items[j].revision <= items[i].revision {
        assert all[j] == items[j];
      }
      assert NewestAt(items, i);
    }
  }

  lemma ActiveNewcomer(items: seq<Item>, item: Item)
    requires forall j :: 0 <= j < |items| ==> items[j].itemId != item.itemId
    requires !Terminal(item.state)
    ensures |Active(items + [item])| == |Active(items)| + 1
  {
    var all := items + [item];
    assert all[|items|] == item && NewestAt(all, |items|);
    forall i | 0 <= i < |items| ensures all[i] == items[i] && (NewestAt(all, i) <==> NewestAt(items, i)) {
      if NewestAt(all, i) {
        forall j | 0 <= j < |items| && items[j].itemId == items[i].itemId ensures items[j].revision <= items[i].revision {
          assert all[j] == items[j];
        }
      }
    }
    assert item.itemId !in Active(items);
    assert Active(all) == Active(items) + {item.itemId};
  }

  /** An enqueue that changes the ledger leaves at most `photo_count` cards active. */
  lemma EnqueueWithinLimit(s: Ledger, id: Id, source: Option<Id>, state: ItemState)
    ensures var after := Enqueue(s, id, source, state).0;
            after == s || |Active(after.items)| <= s.config.photoCount
  {
    var after := Enqueue(s, id, source, state).0;
    if after != s {
      CurrentIndexCorrect(s.items, id);
      var item := Item(id, 1, state, source, None);
      hide CurrentIndex, Active;
      ActiveAfterAppend(s.items, item);
      CardinalityMonotone(Active(s.items + [item]), Active(s.items) + {id});
    }
  }
}
