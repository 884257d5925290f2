/** The ledger's operations spelled out: exactly when each is accepted, and what it then changes. */
module QueueRules {
  import opened Wrappers
  import opened QueueSession

  /** A canonical lower-case UUID, place by place. */
  lemma UuidSpelledOut(s: string)
    ensures IsUuid(s)
            <==> && |s| == 36 && s[8] == '-' && s[13] == '-' && s[18] == '-' && s[23] == '-'
                 && forall i | 0 <= i < 36 && i != 8 && i != 13 && i != 18 && i != 23 ::
                      '0' <= s[i] <= '9' || 'a' <= s[i] <= 'f'
  {
    var digits := "0123456789abcdef";
    assert forall c :: c in digits <==> '0' <= c <= '9' || 'a' <= c <= 'f';
  }

  /** Which item is the newest revision of a card. */
  lemma CurrentSpelledOut(items: seq<Item>, id: Id, i: nat)
    requires Distinct(items) && i < |items| && items[i].itemId == id
    requires forall j :: 0 <= j < |items| && items[j].itemId == id ==> items[j].revision <= items[i].revision
    ensures CurrentIndex(items, id) == Some(i)
  {
    CurrentIndexCorrect(items, id);
    hide CurrentIndex;
    var at := CurrentIndex(items, id).value;
    assert Key(items[at]) == Key(items[i]);
  }

  /** The cards that count against the limit. */
  function Unfinished(items: seq<Item>): set<Id> {
    set i | 0 <= i < |items| && items[i].state != Verified && items[i].state != Discarded
            && (forall j | 0 <= j < |items| && items[j].itemId == items[i].itemId :: items[j].revision <= items[i].revision)
            :: items[i].itemId
  }

  /** A photo is taken in when its identifier is new and fewer than photo_count cards are unfinished. */
  lemma EnqueueSpelledOut(s: Ledger, id: Id, source: Option<Id>, state: ItemState)
    ensures var (after, reply) := Enqueue(s, id, source, state);
            var taken := IsUuid(id) && (source.Some? ==> IsUuid(source.value))
                         && (forall j :: 0 <= j < |s.items| ==> s.items[j].itemId != id)
                         && |Unfinished(s.items)| < s.config.photoCount;
            && (reply == Accepted <==> taken && s.revision < 0x7fff_ffff)
            && (reply != Accepted ==> reply == Invalid)
            && after == s.(items := if taken then s.items + [Item(id, 1, state, source, None)] else s.items,
                           revision := if reply == Accepted then s.revision + 1 else s.revision)
  {
    CurrentIndexCorrect(s.items, id);
    assert Active(s.items) == Unfinished(s.items);
    hide CurrentIndex, IsUuid, Active, Unfinished;
  }

  /** A decision is new, or repeats a recorded one word for word, or is a conflict. A new one is accepted
      when it names the newest revision of its card in a state its action applies to: saving what is
      ready or edited, rescanning what is ready, failed or uncertain, discarding whatever is not being
      saved and not settled. */
  lemma RecordSpelledOut(s: Ledger, d: Decision, i: nat)
    requires ValidItems(s.items) && ValidDecisions(s.items, s.decisions) && ValidDecision(d)
    requires i < |s.items| && s.items[i].itemId == d.itemId
    requires forall j :: 0 <= j < |s.items| && s.items[j].itemId == d.itemId ==> s.items[j].revision <= s.items[i].revision
    ensures var (after, reply) := Record(s, d);
            if exists k :: 0 <= k < |s.decisions| && s.decisions[k].decisionId == d.decisionId
            then after == s && reply == if d in s.decisions then Accepted else Conflict
            else
              var state := s.items[i].state;
              var allowed := match d.action
                case Persist => state == Ready || state == Edited
                case Rescan =>
                  (state == Ready || state == QueueSession.Failed || state == Uncertain) && d.revision < 0x7fff_ffff
                case Discard => state != SaveQueued && state != Saving && state != Verified && state != Discarded;
              if s.items[i].revision != d.revision then after == s && reply == Stale
              else if !allowed then after == s && reply == Invalid
              else
                && after.decisions == s.decisions + [d] && after.config == s.config && after.state == s.state
                && reply == (if s.revision < 0x7fff_ffff then Accepted else Invalid)
                && after.revision == (if s.revision < 0x7fff_ffff then s.revision + 1 else s.revision)
                && after.items == match d.action
                     case Persist => s.items[i := s.items[i].(state := SaveQueued)]
                     case Rescan => s.items + [Item(d.itemId, d.revision + 1, Queued, None, None)]
                     case Discard => s.items[i := s.items[i].(state := Discarded)]
  {
    NamedSpelledOut(s.decisions, d);
    assert Distinct(s.items);
    CurrentSpelledOut(s.items, d.itemId, i);
    hide CurrentIndex, IsUuid, ValidItems, ValidDecision, ValidDecisions, DecisionNamed, Distinct, Record;
    if DecisionNamed(s.decisions, d.decisionId).None? {
      RecordNew(s, d, i);
    } else {
      RecordKnown(s, d);
    }
  }

  lemma RecordKnown(s: Ledger, d: Decision)
    requires ValidDecision(d) && DecisionNamed(s.decisions, d.decisionId).Some?
    ensures Record(s, d) == (s, if DecisionNamed(s.decisions, d.decisionId) == Some(d) then Accepted else Conflict)
  {
    hide CurrentIndex, Decided, Allows, ValidDecision;
  }

  lemma RecordNew(s: Ledger, d: Decision, i: nat)
    requires ValidDecision(d) && DecisionNamed(s.decisions, d.decisionId).None?
    requires i < |s.items| && CurrentIndex(s.items, d.itemId) == Some(i) && s.items[i].itemId == d.itemId
    ensures var (after, reply) := Record(s, d);
            var state := s.items[i].state;
            var allowed := match d.action
              case Persist => state == Ready || state == Edited
              case Rescan =>
                (state == Ready || state == QueueSession.Failed || state == Uncertain) && d.revision < 0x7fff_ffff
              case Discard => state != SaveQueued && state != Saving && state != Verified && state != Discarded;
            if s.items[i].revision != d.revision then after == s && reply == Stale
            else if !allowed then after == s && reply == Invalid
            else
              && after.decisions == s.decisions + [d] && after.config == s.config && after.state == s.state
              && reply == (if s.revision < 0x7fff_ffff then Accepted else Invalid)
              && after.revision == (if s.revision < 0x7fff_ffff then s.revision + 1 else s.revision)
              && after.items == match d.action
                   case Persist => s.items[i := s.items[i].(state := SaveQueued)]
                   case Rescan => s.items + [Item(d.itemId, d.revision + 1, Queued, None, None)]
                   case Discard => s.items[i := s.items[i].(state := Discarded)]
  {
    hide CurrentIndex, ValidDecision, DecisionNamed;
  }

  lemma {:induction false} NamedSpelledOut(decisions: seq<Decision>, d: Decision)
    requires forall i, j :: 0 <= i < j < |decisions| ==> decisions[i].decisionId != decisions[j].decisionId
    ensures DecisionNamed(decisions, d.decisionId).Some?
            <==> exists k :: 0 <= k < |decisions| && decisions[k].decisionId == d.decisionId
    ensures DecisionNamed(decisions, d.decisionId) == Some(d) <==> d in decisions
    decreases |decisions|
  {
    if decisions != [] {
      NamedSpelledOut(decisions[1..], d);
    }
  }

  /** A decision about a card that is not there is refused. */
  lemma RecordUnknown(s: Ledger, d: Decision)
    requires forall j :: 0 <= j < |s.items| ==> s.items[j].itemId != d.itemId
    requires forall k :: 0 <= k < |s.decisions| ==> s.decisions[k].decisionId != d.decisionId
    ensures Record(s, d) == (s, Invalid)
  {
    CurrentIndexCorrect(s.items, d.itemId);
    UnnamedIsNone(s.decisions, d.decisionId);
  }

  lemma {:induction false} UnnamedIsNone(decisions: seq<Decision>, id: Id)
    requires forall k :: 0 <= k < |decisions| ==> decisions[k].decisionId != id
    ensures DecisionNamed(decisions, id).None?
    decreases |decisions|
  {
    if decisions != [] {
      UnnamedIsNone(decisions[1..], id);
    }
  }

  /** A checkpoint rewrites the newest revision of its card, and nothing but its state and the runs it
      names; one that changes nothing does not advance the session. */
  lemma CheckpointSpelledOut(s: Ledger, revision: int, state: ItemState, source: Option<Id>, reviewed: Option<Id>, i: nat)
    requires Distinct(s.items) && i < |s.items| && IsUuid(s.items[i].itemId)
    requires forall j :: 0 <= j < |s.items| && s.items[j].itemId == s.items[i].itemId ==>
               s.items[j].revision <= s.items[i].revision
    ensures var (after, reply) := Checkpoint(s, s.items[i].itemId, revision, state, source, reviewed);
            var found := s.items[i];
            var item := Item(found.itemId, found.revision, state, if source.Some? then source else found.source,
                             if reviewed.Some? then reviewed else found.reviewed);
            if revision != found.revision then after == s && reply == Stale
            else if (source.Some? && !IsUuid(source.value)) || (reviewed.Some? && !IsUuid(reviewed.value))
            then after == s && reply == Invalid
            else if item == found then after == s && reply == Accepted
            else && after == s.(items := s.items[i := item], revision := after.revision)
                 && reply == (if s.revision < 0x7fff_ffff then Accepted else Invalid)
                 && after.revision == (if s.revision < 0x7fff_ffff then s.revision + 1 else s.revision)
  {
    CurrentSpelledOut(s.items, s.items[i].itemId, i);
    hide CurrentIndex, IsUuid, Distinct;
  }

  /** A control or a configuration applies to the revision it expects; one that changes nothing does not
      advance the session. */
  lemma ControlSpelledOut(model: string -> bool, s: Ledger, expected: int, state: SessionState, config: Config)
    ensures var (after, reply) := SetState(s, expected, state);
            if expected < 0 || expected > 0x7fff_ffff then after == s && reply == Invalid
            else if expected != s.revision then after == s && reply == Stale
            else if s.state == state then after == s && reply == Accepted
            else && reply == (if s.revision < 0x7fff_ffff then Accepted else Invalid)
                 && after == s.(state := state, revision := if reply == Accepted then s.revision + 1 else s.revision)
    ensures var (after, reply) := UpdateConfig(model, s, expected, config);
            if expected < 0 || expected > 0x7fff_ffff then after == s && reply == Invalid
            else if expected != s.revision then after == s && reply == Stale
            else if config.photoCount < 1 || config.photoCount > 50 || config.concurrency < 1 || config.concurrency > 4
                    || !model(config.fastModel) || !model(config.detailedModel)
                    || (config.model.Some? && !model(config.model.value)) || (config.policy == Single && config.model.None?)
            then after == s && reply == Invalid
            else if s.config == config then after == s && reply == Accepted
            else && reply == (if s.revision < 0x7fff_ffff then Accepted else Invalid)
                 && after == s.(config := config, revision := if reply == Accepted then s.revision + 1 else s.revision)
  {
  }

  /** A ledger that validates: identifiers are canonical and numbers in range, no revision of a card stands twice and
      none is missing below another, no decision identifier is used twice, and each decision names a revision
      that is there. */
  lemma LedgerSpelledOut(model: string -> bool, s: Ledger)
    ensures Valid(model, s)
            <==> && IsUuid(s.sessionId) && ValidConfig(model, s.config) && 0 <= s.revision <= 0x7fff_ffff
                 && (forall item | item in s.items ::
                       && IsUuid(item.itemId) && 1 <= item.revision <= 0x7fff_ffff
                       && (item.source == None || IsUuid(item.source.value))
                       && (item.reviewed == None || IsUuid(item.reviewed.value)))
                 && (forall i, j | 0 <= i < j < |s.items| ::
                       s.items[i].itemId != s.items[j].itemId || s.items[i].revision != s.items[j].revision)
                 && (forall i | 0 <= i < |s.items| :: s.items[i].revision > 1 ==>
                       At(s.items, s.items[i].itemId, s.items[i].revision - 1))
                 && (forall d | d in s.decisions ::
                       && IsUuid(d.decisionId) && IsUuid(d.itemId) && 1 <= d.revision <= 0x7fff_ffff
                       && At(s.items, d.itemId, d.revision))
                 && (forall i, j | 0 <= i < j < |s.decisions| :: s.decisions[i].decisionId != s.decisions[j].decisionId)
  {
    hide IsUuid, ValidConfig;
    ItemsSpelledOut(s.items);
    DecisionsSpelledOut(s.items, s.decisions);
    hide ValidItems, ValidDecisions, At;
  }

  /** A card has this revision. */
  predicate At(items: seq<Item>, id: Id, revision: int) {
    exists j :: 0 <= j < |items| && items[j].itemId == id && items[j].revision == revision
  }

  lemma AtIsKeyed(items: seq<Item>, id: Id, revision: int)
    ensures At(items, id, revision) <==> (id, revision) in Keys(items)
  {
    if (id, revision) in Keys(items) {
      var i :| 0 <= i < |items| && Key(items[i]) == (id, revision);
      assert items[i].itemId == id;
    }
    if At(items, id, revision) {
      var j :| 0 <= j < |items| && items[j].itemId == id && items[j].revision == revision;
      assert Key(items[j]) == (id, revision);
    }
  }

  lemma ItemsSpelledOut(items: seq<Item>)
    ensures ValidItems(items)
            <==> && (forall item | item in items ::
                       && IsUuid(item.itemId) && 1 <= item.revision <= 0x7fff_ffff
                       && (item.source == None || IsUuid(item.source.value))
                       && (item.reviewed == None || IsUuid(item.reviewed.value)))
                 && (forall i, j | 0 <= i < j < |items| ::
                       items[i].itemId != items[j].itemId || items[i].revision != items[j].revision)
                 && (forall i | 0 <= i < |items| :: items[i].revision > 1 ==>
                       At(items, items[i].itemId, items[i].revision - 1))
  {
    hide IsUuid, At, Keys, Distinct, Contiguous;
    NoneTwice(items);
    NoneMissing(items);
    assert (forall i :: 0 <= i < |items| ==> ValidItem(items[i])) <==> forall item | item in items :: ValidItem(item);
  }

  lemma NoneTwice(items: seq<Item>)
    ensures Distinct(items)
            <==> forall i, j | 0 <= i < j < |items| ::
                   items[i].itemId != items[j].itemId || items[i].revision != items[j].revision
  {
  }

  lemma NoneMissing(items: seq<Item>)
    ensures Contiguous(Keys(items))
            <==> forall i | 0 <= i < |items| :: items[i].revision > 1 ==>
                   At(items, items[i].itemId, items[i].revision - 1)
  {
    hide At, Keys;
    forall id, revision ensures At(items, id, revision) <==> (id, revision) in Keys(items) {
      AtIsKeyed(items, id, revision);
    }
    KeysAreHeld(items);
  }

  lemma KeysAreHeld(items: seq<Item>)
    ensures forall k | k in Keys(items) :: exists i :: 0 <= i < |items| && Key(items[i]) == k
    ensures forall i | 0 <= i < |items| :: Key(items[i]) in Keys(items)
  {
  }

  lemma DecisionsSpelledOut(items: seq<Item>, decisions: seq<Decision>)
    ensures ValidDecisions(items, decisions)
            <==> && (forall d | d in decisions ::
                       && IsUuid(d.decisionId) && IsUuid(d.itemId) && 1 <= d.revision <= 0x7fff_ffff
                       && At(items, d.itemId, d.revision))
                 && (forall i, j | 0 <= i < j < |decisions| :: decisions[i].decisionId != decisions[j].decisionId)
  {
    hide IsUuid, At, Keys;
    forall d | d in decisions ensures At(items, d.itemId, d.revision) <==> (d.itemId, d.revision) in Keys(items) {
      AtIsKeyed(items, d.itemId, d.revision);
    }
  }
}
