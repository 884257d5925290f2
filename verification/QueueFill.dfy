/** `_fill_slots`: a batch of deferred candidates is topped up with discovered ones and admitted card
    by card, under the fill lock, with the state lock given up in between. */
module QueueFill {
  import opened Wrappers
  import opened QueueSession
  import opened QueueLedger
  import opened QueueCards

  function Least(a: nat, b: nat): nat { if a < b then a else b }

  /** The ledger in memory and on file, the deferred candidates, and the candidate of each card. */
  datatype Slots<C> = Slots(ledger: Ledger, disk: Ledger, deferred: seq<C>, cards: map<CardKey, C>)

  /** One candidate becomes a card and the ledger is written; false when either raised. An enqueue that
      raises has appended its item already, but the candidate is not kept for it. */
  function AdmitStep<C>(t: Slots<C>, id: Id, candidate: C, fate: Fate): (Slots<C>, bool) {
    var (ledger, reply) := Enqueue(t.ledger, id, None, Discovered);
    if reply != Accepted then (t.(ledger := ledger), false)
    else
      (Slots(ledger, if fate == Lost then t.disk else ledger, t.deferred, t.cards[(id, 1) := candidate]), fate == Done)
  }

  /** The admission loop from `index` on; `batch` candidates at the front were deferred. */
  function CommitFrom<C>(t: Slots<C>, batch: nat, candidates: seq<C>, ids: seq<Id>, fates: nat -> Fate, index: nat)
    : (Slots<C>, bool)
    requires batch <= |t.deferred| && batch <= |candidates| == |ids| && index <= |candidates|
    decreases |candidates| - index
  {
    if index == |candidates| then (t.(deferred := t.deferred[Least(index, batch)..]), true)
    else if |Active(t.ledger.items)| >= t.ledger.config.photoCount then
      var rest := candidates[if index < batch then batch else index..];
      (t.(deferred := (t.deferred + rest)[Least(index, batch)..]), true)
    else
      var (next, ok) := AdmitStep(t, ids[index], candidates[index], fates(index));
      if ok then CommitFrom(next, batch, candidates, ids, fates, index + 1) else (next, false)
  }

  /** The second hold of the state lock. */
  function CommitStep<C>(t: Slots<C>, batch: nat, discovered: seq<C>, ids: seq<Id>, fates: nat -> Fate): (Slots<C>, bool)
    requires batch <= |t.deferred| && |ids| == batch + |discovered|
  {
    if t.ledger.state != Running then (t.(deferred := t.deferred + discovered), true)
    else CommitFrom(t, batch, t.deferred[..batch] + discovered, ids, fates, 0)
  }

  predicate FreshIds(items: seq<Item>, ids: seq<Id>) {
    && (forall i :: 0 <= i < |ids| ==> IsUuid(ids[i]) && CurrentIndex(items, ids[i]).None?)
    && (forall i, j :: 0 <= i < j < |ids| ==> ids[i] != ids[j])
  }

  class Filler<C(==)> {
    const session: SessionObject
    var disk: Ledger
    var deferred: seq<C>
    var cards: map<CardKey, C>

    constructor (session: SessionObject)
      ensures this.session == session && View() == Slots(session.View(), session.View(), [], map[])
    {
      this.session := session;
      disk := session.View();
      deferred := [];
      cards := map[];
    }

    ghost function View(): Slots<C>
      reads this, session
    {
      Slots(session.View(), disk, deferred, cards)
    }

    /** First hold of the state lock: how many cards are missing, and the deferred ones for them. */
    method Snapshot(model: string -> bool) returns (missing: nat, batch: nat)
      requires Valid(model, session.View())
      ensures var (s, active) := (session.View(), |Active(session.View().items)|);
              missing == if s.state == Running && active < s.config.photoCount then s.config.photoCount - active else 0
      ensures batch == if missing < |deferred| then missing else |deferred|
    {
      if session.state != Running {
        return 0, 0;
      }
      var active := session.ActiveCount();
      missing := if session.config.photoCount > active then session.config.photoCount - active else 0;
      batch := Least(missing, |deferred|);
    }

    method AdmitOne(model: string -> bool, id: Id, candidate: C, fate: Fate) returns (ok: bool)
      requires Valid(model, session.View())
      modifies this`disk, this`cards, session
      ensures Valid(model, session.View())
      ensures (View(), ok) == AdmitStep(old(View()), id, candidate, fate)
    {
      hide Valid, Enqueue;
      var reply := session.EnqueueItem(model, id, None, Discovered);
      if reply != Accepted {
        return false;
      }
      cards := cards[(id, 1) := candidate];
      if fate != Lost {
        disk := session.View();
      }
      ok := fate == Done;
    }

    /** Second hold of the state lock: false when the commit raised. */
    method Commit(model: string -> bool, batch: nat, discovered: seq<C>, ids: seq<Id>, fates: nat -> Fate) returns (ok: bool)
      requires Valid(model, session.View()) && batch <= |deferred| && |ids| == batch + |discovered|
      modifies this`disk, this`deferred, this`cards, session
      ensures Valid(model, session.View())
      ensures (View(), ok) == CommitStep(old(View()), batch, discovered, ids, fates)
    {
      hide Valid, Active, AdmitStep;
      if session.state != Running {
        deferred := deferred + discovered;
        return true;
      }
      var candidates := deferred[..batch] + discovered;
      var consumed, index := 0, 0;
      while index < |candidates|
        invariant 0 <= index <= |candidates| && consumed == Least(index, batch)
        invariant Valid(model, session.View()) && deferred == old(deferred)
        invariant CommitFrom(old(View()), batch, candidates, ids, fates, 0)
                  == CommitFrom(View(), batch, candidates, ids, fates, index)
      {
        ValidDistinct(model, session.View());
        var active := session.ActiveCount();
        if active >= session.config.photoCount {
          deferred := deferred + candidates[if index < batch then batch else index..];
          deferred := deferred[consumed..];
          return true;
        }
        ghost var before := View();
        var written := AdmitOne(model, ids[index], candidates[index], fates(index));
        if !written {
          return false;
        }
        if index < batch {
          consumed := consumed + 1;
        }
        index := index + 1;
      }
      deferred := deferred[consumed..];
      ok := true;
    }
  }

  lemma ValidDistinct(model: string -> bool, s: Ledger)
    requires Valid(model, s)
    ensures Distinct(s.items)
  {
  }

  // ------------------------------------------------------------------ where a commit ends

  /** What the session still has room for. */
  function Room(s: Ledger): nat {
    if s.state == Running && s.config.photoCount > |Active(s.items)| then s.config.photoCount - |Active(s.items)| else 0
  }

  /** How many more cards the revision counter admits. */
  function Headroom(s: Ledger): nat {
    if s.revision < MAX_INT then MAX_INT - s.revision else 0
  }

  /** A commit returns after admitting so many candidates, or raises at one: in the enqueue, or in
      the write after it. */
  datatype Ending = Returned(count: nat) | RefusedAt(index: nat) | UnwrittenAt(index: nat)

  function EndingFrom(room: nat, headroom: nat, count: nat, fates: nat -> Fate, index: nat): Ending
    decreases count - index
  {
    if index >= count || index >= room then Returned(index)
    else if index >= headroom then RefusedAt(index)
    else if fates(index) != Done then UnwrittenAt(index)
    else EndingFrom(room, headroom, count, fates, index + 1)
  }

  /** How a commit ends, from what is known before it: room, revision, and what the writes will do. */
  function EndingOf<C>(t: Slots<C>, batch: nat, discovered: seq<C>, fates: nat -> Fate): Ending {
    EndingFrom(Room(t.ledger), Headroom(t.ledger), batch + |discovered|, fates, 0)
  }

  /** How many candidates a commit keeps for a card of theirs. */
  function Kept(e: Ending): nat {
    match e
    case Returned(count) => count
    case RefusedAt(index) => index
    case UnwrittenAt(index) => index + 1
  }

  /** How many cards a commit adds to the ledger. */
  function Added(e: Ending): nat { Kept(e) + if e.RefusedAt? then 1 else 0 }

  lemma EndingBounds(room: nat, headroom: nat, count: nat, fates: nat -> Fate, index: nat)
    requires index <= count
    ensures var e := EndingFrom(room, headroom, count, fates, index);
            index <= Kept(e) <= count && (e.RefusedAt? ==> e.index < count)
            && (index <= room ==> Added(e) <= room) && (e.Returned? && e.count < count ==> e.count >= room)
    decreases count - index
  {
  }

  /** What stays deferred after the first `cut` candidates of a batch became cards. */
  function Leftover<C>(deferred: seq<C>, batch: nat, discovered: seq<C>, cut: nat): seq<C>
    requires batch <= |deferred| && cut <= batch + |discovered|
  {
    deferred[Least(cut, batch)..] + discovered[cut - Least(cut, batch)..]
  }

  /** The candidate kept for each card, under its first revision. */
  function Enlist<C>(cards: map<CardKey, C>, ids: seq<Id>, candidates: seq<C>): map<CardKey, C>
    requires |ids| <= |candidates|
  {
    if ids == [] then cards
    else
      var n := |ids| - 1;
      Enlist(cards, ids[..n], candidates)[(ids[n], 1) := candidates[n]]
  }

  /** New cards, all of them active, and a revision. */
  predicate LedgerGrown(before: Ledger, after: Ledger, ids: seq<Id>) {
    && after == before.(items := before.items + NewCards(ids), revision := after.revision)
    && |Active(after.items)| == |Active(before.items)| + |ids|
  }

  /** The slots after `index` admissions that went through. */
  ghost predicate AdmittedSoFar<C>(t: Slots<C>, now: Slots<C>, candidates: seq<C>, ids: seq<Id>, index: nat)
    requires index <= |ids| == |candidates|
  {
    && LedgerGrown(t.ledger, now.ledger, ids[..index])
    && now.ledger.revision == t.ledger.revision + index && now.deferred == t.deferred
    && now.cards == Enlist(t.cards, ids[..index], candidates)
  }

  /** The cards an admission appends. */
  function NewCards(ids: seq<Id>): seq<Item> {
    seq(|ids|, i requires 0 <= i < |ids| => Item(ids[i], 1, Discovered, None, None))
  }

  lemma AdmittedOne<C>(t: Slots<C>, now: Slots<C>, candidates: seq<C>, ids: seq<Id>, fate: Fate, index: nat)
    requires index < |ids| == |candidates| && AdmittedSoFar(t, now, candidates, ids, index)
    requires FreshIds(t.ledger.items, ids) && t.ledger.state == Running && index < Room(t.ledger)
    ensures var (next, ok) := AdmitStep(now, ids[index], candidates[index], fate);
            && (index >= Headroom(t.ledger) ==> !ok && next.cards == now.cards && next.deferred == t.deferred
                                                && LedgerGrown(t.ledger, next.ledger, ids[..index + 1]))
            && (index < Headroom(t.ledger) ==> AdmittedSoFar(t, next, candidates, ids, index + 1) && ok == (fate == Done))
  {
    hide FreshIds, Enlist, NewCards, Active, IsUuid, CurrentIndex;
    StillFresh(t.ledger.items, ids, index);
    var item := Item(ids[index], 1, Discovered, None, None);
    NewCardsSnoc(t.ledger.items, ids, index);
    EnlistSnoc(t.cards, ids, index, candidates);
    CurrentIndexCorrect(now.ledger.items, ids[index]);
    ActiveAfterAppend(now.ledger.items, item);
  }

  /** A commit does exactly what its ending says. */
  lemma {:induction false} CommitEnds<C>(t: Slots<C>, now: Slots<C>, batch: nat, discovered: seq<C>, ids: seq<Id>,
                                         fates: nat -> Fate, index: nat)
    requires batch <= |t.deferred| && index <= |ids| == batch + |discovered| && t.ledger.state == Running
    requires FreshIds(t.ledger.items, ids)
    requires AdmittedSoFar(t, now, t.deferred[..batch] + discovered, ids, index)
    ensures var candidates := t.deferred[..batch] + discovered;
            var (end, ok) := CommitFrom(now, batch, candidates, ids, fates, index);
            var e := EndingFrom(Room(t.ledger), Headroom(t.ledger), |candidates|, fates, index);
            && Kept(e) <= |ids| && ok == e.Returned?
            && end.cards == Enlist(t.cards, ids[..Kept(e)], candidates)
            && end.deferred == (if ok then Leftover(t.deferred, batch, discovered, Kept(e)) else t.deferred)
            && Added(e) <= |ids| && LedgerGrown(t.ledger, end.ledger, ids[..Added(e)])
    decreases |ids| - index
  {
    hide Enlist, NewCards, FreshIds, Leftover, AdmitStep, Active, Headroom;
    var candidates := t.deferred[..batch] + discovered;
    if index == |candidates| {
      LeftoverAll(t.deferred, batch, discovered);
    } else if index >= Room(t.ledger) {
      LeftoverAt(t.deferred, batch, discovered, candidates, index);
    } else {
      AdmittedOne(t, now, candidates, ids, fates(index), index);
      var (next, ok) := AdmitStep(now, ids[index], candidates[index], fates(index));
      if index < Headroom(t.ledger) {
        if ok {
          CommitEnds(t, next, batch, discovered, ids, fates, index + 1);
        }
      }
    }
  }

  lemma CommitEndsAs<C>(t: Slots<C>, batch: nat, discovered: seq<C>, ids: seq<Id>, fates: nat -> Fate)
    requires batch <= |t.deferred| && |ids| == batch + |discovered| && FreshIds(t.ledger.items, ids)
    ensures var candidates := t.deferred[..batch] + discovered;
            var (end, ok) := CommitStep(t, batch, discovered, ids, fates);
            var e := EndingOf(t, batch, discovered, fates);
            && Kept(e) <= |ids| && ok == e.Returned?
            && end.cards == Enlist(t.cards, ids[..Kept(e)], candidates)
            && end.deferred == (if ok then Leftover(t.deferred, batch, discovered, Kept(e)) else t.deferred)
            && Added(e) <= |ids| && LedgerGrown(t.ledger, end.ledger, ids[..Added(e)])
  {
    hide Enlist, NewCards, FreshIds, Leftover, CommitFrom, Active, Headroom;
    var candidates := t.deferred[..batch] + discovered;
    assert ids[..0] == [];
    EnlistNone(t.cards, candidates);
    LeftoverNone(t.deferred, batch, discovered);
    NewCardsNone(t.ledger.items);
    if t.ledger.state == Running {
      CommitEnds(t, t, batch, discovered, ids, fates, 0);
    }
  }

  /** A commit that adds a card keeps within the photo count, and one that returns with candidates left
      over has filled it. */
  lemma CommitFillsUp<C>(t: Slots<C>, batch: nat, discovered: seq<C>, ids: seq<Id>, fates: nat -> Fate)
    requires batch <= |t.deferred| && |ids| == batch + |discovered| && FreshIds(t.ledger.items, ids)
    ensures var (end, ok) := CommitStep(t, batch, discovered, ids, fates);
            var e := EndingOf(t, batch, discovered, fates);
            && (Added(e) > 0 ==> |Active(end.ledger.items)| <= t.ledger.config.photoCount)
            && (ok && t.ledger.state == Running && Kept(e) < |ids| ==> |Active(end.ledger.items)| >= t.ledger.config.photoCount)
  {
    hide FreshIds, CommitStep, EndingFrom, NewCards, Enlist, Leftover, Active, Headroom;
    CommitEndsAs(t, batch, discovered, ids, fates);
    EndingBounds(Room(t.ledger), Headroom(t.ledger), |ids|, fates, 0);
  }

  predicate Confirmed(fates: nat -> Fate, index: nat) { fates(index) == Done }

  /** The revision admits these candidates, and their writes are confirmed. */
  predicate GoThrough(headroom: int, fates: nat -> Fate, first: nat, count: nat) {
    forall j: nat :: first <= j < count ==> Confirmed(fates, j) && j < headroom
  }

  /** The first candidate at which a commit raises, if it comes before the room is used up. */
  lemma {:induction false} EndingSpelledOut(room: nat, headroom: nat, count: nat, fates: nat -> Fate, index: nat)
    requires index <= count && index <= room
    ensures match EndingFrom(room, headroom, count, fates, index)
            case Returned(k) => k == (if count < room then count else room) && GoThrough(headroom, fates, index, k)
            case RefusedAt(k) => index <= k < count && k < room && k >= headroom && GoThrough(headroom, fates, index, k)
            case UnwrittenAt(k) =>
              index <= k < count && k < room && k < headroom && !Confirmed(fates, k) && GoThrough(headroom, fates, index, k)
    decreases count - index
  {
    if index < count && index < room && index < headroom && Confirmed(fates, index) {
      EndingSpelledOut(room, headroom, count, fates, index + 1);
    }
  }

  /** The cards of a commit: the k-th identifier carries the k-th candidate, the deferred ones first. */
  lemma {:induction false} EnlistSpelledOut<C>(cards: map<CardKey, C>, ids: seq<Id>, candidates: seq<C>, x: CardKey)
    requires |ids| <= |candidates| && forall i, j :: 0 <= i < j < |ids| ==> ids[i] != ids[j]
    ensures (forall k :: 0 <= k < |ids| ==> (ids[k], 1) != x) ==>
              (x in Enlist(cards, ids, candidates) <==> x in cards)
              && (x in cards ==> Enlist(cards, ids, candidates)[x] == cards[x])
    ensures forall k :: 0 <= k < |ids| && (ids[k], 1) == x ==>
              x in Enlist(cards, ids, candidates) && Enlist(cards, ids, candidates)[x] == candidates[k]
    decreases |ids|
  {
    if ids != [] {
      EnlistSpelledOut(cards, ids[..|ids| - 1], candidates, x);
    }
  }

  /** A whole commit, spelled out. In a running session it takes candidates, the deferred ones first, while fewer
      than photo_count cards are unfinished. If the revision admits them all and every write is confirmed,
      each becomes a discovered card of its own and whatever was not taken stays deferred in order;
      otherwise it raises at the first that is not, adding that card as well. */
  lemma CommitSpelledOut<C>(t: Slots<C>, batch: nat, discovered: seq<C>, ids: seq<Id>, fates: nat -> Fate)
    requires batch <= |t.deferred| && |ids| == batch + |discovered| && FreshIds(t.ledger.items, ids)
    ensures var (end, ok) := CommitStep(t, batch, discovered, ids, fates);
            var taken := Takes(t.ledger, |ids|);
            && ok == GoThrough(0x7fff_ffff - t.ledger.revision, fates, 0, taken)
            && |t.ledger.items| <= |end.ledger.items| <= |t.ledger.items| + taken
            && (forall i :: 0 <= i < |t.ledger.items| ==> end.ledger.items[i] == t.ledger.items[i])
            && (forall k :: |t.ledger.items| <= k < |end.ledger.items| ==>
                  end.ledger.items[k] == Item(ids[k - |t.ledger.items|], 1, Discovered, None, None))
            && (ok ==> |end.ledger.items| == |t.ledger.items| + taken
                       && end.deferred == if taken < batch then t.deferred[taken..] + discovered
                                          else t.deferred[batch..] + discovered[taken - batch..])
            && (!ok ==> end.deferred == t.deferred
                        && var raised := |end.ledger.items| - |t.ledger.items| - 1;
                           && 0 <= raised < taken && GoThrough(0x7fff_ffff - t.ledger.revision, fates, 0, raised)
                           && (t.ledger.revision + raised >= 0x7fff_ffff || !Confirmed(fates, raised)))
    ensures var end := CommitStep(t, batch, discovered, ids, fates).0;
            forall k :: 0 <= k < |end.ledger.items| - |t.ledger.items| && t.ledger.revision + k < 0x7fff_ffff ==>
              (ids[k], 1) in end.cards
              && end.cards[(ids[k], 1)] == if k < batch then t.deferred[k] else discovered[k - batch]
  {
    hide CommitStep, EndingFrom, Enlist, Active, FreshIds;
    CommitEndsAs(t, batch, discovered, ids, fates);
    EndingSpelledOut(Room(t.ledger), Headroom(t.ledger), |ids|, fates, 0);
    var e := EndingOf(t, batch, discovered, fates);
    if !e.Returned? { StopsAt(Headroom(t.ledger), fates, e.index, Takes(t.ledger, |ids|)); }
    DifferentIds(t.ledger.items, ids);
    var candidates := t.deferred[..batch] + discovered;
    forall k | 0 <= k < Kept(e)
      ensures var end := CommitStep(t, batch, discovered, ids, fates).0;
              (ids[k], 1) in end.cards && end.cards[(ids[k], 1)] == candidates[k]
    {
      EnlistSpelledOut(t.cards, ids[..Kept(e)], candidates, (ids[k], 1));
    }
    forall k: nat ensures GoThrough(0x7fff_ffff - t.ledger.revision, fates, 0, k) <==> GoThrough(Headroom(t.ledger), fates, 0, k) {
      HeadroomSpelledOut(t.ledger, fates, k);
    }
  }

  /** How many of so many candidates a session takes. */
  function Takes(s: Ledger, count: nat): nat {
    if s.state != Running || |Active(s.items)| >= s.config.photoCount then 0
    else if |Active(s.items)| + count <= s.config.photoCount then count
    else s.config.photoCount - |Active(s.items)|
  }

  lemma HeadroomSpelledOut(s: Ledger, fates: nat -> Fate, count: nat)
    ensures GoThrough(0x7fff_ffff - s.revision, fates, 0, count) <==> GoThrough(Headroom(s), fates, 0, count)
  {
    hide GoThrough;
    var (room, left) := (0x7fff_ffff - s.revision, Headroom(s));
    if GoThrough(room, fates, 0, count) { GoThroughLonger(room, left, fates, count); }
    if GoThrough(left, fates, 0, count) { GoThroughLonger(left, room, fates, count); }
  }

  lemma GoThroughLonger(room: int, longer: int, fates: nat -> Fate, count: nat)
    requires room <= longer || room <= 0
    requires GoThrough(room, fates, 0, count)
    ensures GoThrough(longer, fates, 0, count)
  {
    hide Confirmed;
    if count > 0 { assert Confirmed(fates, 0) && 0 < room; }
    forall j: nat | j < count ensures Confirmed(fates, j) && j < longer {
      assert Confirmed(fates, j) && j < room;
    }
    assert GoThrough(longer, fates, 0, count);
  }

  lemma StopsAt(headroom: int, fates: nat -> Fate, index: nat, count: nat)
    requires index < count && (index >= headroom || !Confirmed(fates, index))
    ensures !GoThrough(headroom, fates, 0, count)
  {
    if Confirmed(fates, index) {
    }
  }

  lemma DifferentIds(items: seq<Item>, ids: seq<Id>)
    requires FreshIds(items, ids)
    ensures forall i, j :: 0 <= i < j < |ids| ==> ids[i] != ids[j]
  {
  }

  lemma EnlistNone<C>(cards: map<CardKey, C>, candidates: seq<C>)
    ensures Enlist(cards, [], candidates) == cards
  {
  }

  lemma EnlistSnoc<C>(cards: map<CardKey, C>, ids: seq<Id>, index: nat, candidates: seq<C>)
    requires index < |ids| <= |candidates|
    ensures Enlist(cards, ids[..index + 1], candidates)
            == Enlist(cards, ids[..index], candidates)[(ids[index], 1) := candidates[index]]
  {
    assert ids[..index + 1][..index] == ids[..index];
  }

  lemma NewCardsNone(items: seq<Item>)
    ensures items + NewCards([]) == items
  {
  }

  lemma NewCardsSnoc(items: seq<Item>, ids: seq<Id>, index: nat)
    requires index < |ids|
    ensures (items + NewCards(ids[..index])) + [Item(ids[index], 1, Discovered, None, None)]
            == items + NewCards(ids[..index + 1])
  {
  }

  lemma StillFresh(items: seq<Item>, ids: seq<Id>, index: nat)
    requires FreshIds(items, ids) && index < |ids|
    ensures IsUuid(ids[index]) && CurrentIndex(items + NewCards(ids[..index]), ids[index]).None?
  {
    hide IsUuid;
    var all := items + NewCards(ids[..index]);
    CurrentIndexCorrect(items, ids[index]);
    CurrentIndexCorrect(all, ids[index]);
    forall j | 0 <= j < |all| ensures all[j].itemId != ids[index] {
      if j < |items| {
        assert all[j] == items[j];
      } else {
        assert all[j].itemId == ids[j - |items|];
      }
    }
  }

  lemma LeftoverNone<C>(deferred: seq<C>, batch: nat, discovered: seq<C>)
    requires batch <= |deferred|
    ensures Leftover(deferred, batch, discovered, 0) == deferred + discovered
  {
  }

  lemma LeftoverAll<C>(deferred: seq<C>, batch: nat, discovered: seq<C>)
    requires batch <= |deferred|
    ensures Leftover(deferred, batch, discovered, batch + |discovered|) == deferred[batch..]
  {
  }

  lemma LeftoverAt<C>(deferred: seq<C>, batch: nat, discovered: seq<C>, candidates: seq<C>, index: nat)
    requires batch <= |deferred| && candidates == deferred[..batch] + discovered && index <= |candidates|
    ensures (deferred + candidates[if index < batch then batch else index..])[Least(index, batch)..]
            == Leftover(deferred, batch, discovered, index)
  {
    assert candidates[batch..] == discovered;
  }

  /** Each kept candidate is the candidate of its card, and of no other new card. */
  lemma {:induction false} EnlistedOnce<C>(cards: map<CardKey, C>, ids: seq<Id>, candidates: seq<C>, k: CardKey)
    requires |ids| <= |candidates| && forall i, j :: 0 <= i < j < |ids| ==> ids[i] != ids[j]
    ensures forall i :: 0 <= i < |ids| && k == (ids[i], 1) ==>
              k in Enlist(cards, ids, candidates) && Enlist(cards, ids, candidates)[k] == candidates[i]
    ensures (forall i :: 0 <= i < |ids| ==> k != (ids[i], 1)) ==>
              (k in Enlist(cards, ids, candidates) <==> k in cards)
              && (k in cards ==> Enlist(cards, ids, candidates)[k] == cards[k])
    decreases |ids|
  {
    if ids != [] {
      EnlistedOnce(cards, ids[..|ids| - 1], candidates, k);
    }
  }

  // ------------------------------------------------------------ where a candidate is

  /** The cards a candidate is kept for, later revisions aside. */
  function CardsOf<C(==)>(cards: map<CardKey, C>, c: C): set<CardKey> {
    set k | k in cards && k.1 == 1 && cards[k] == c
  }

  /** How often a candidate is somewhere: as the candidate of a card, or still deferred. */
  function Places<C(==)>(t: Slots<C>, c: C): nat {
    |CardsOf(t.cards, c)| + multiset(t.deferred)[c]
  }

  lemma {:induction false} EnlistedPlaces<C>(cards: map<CardKey, C>, ids: seq<Id>, candidates: seq<C>, c: C)
    requires |ids| <= |candidates|
    requires forall i, j :: 0 <= i < j < |ids| ==> ids[i] != ids[j]
    requires forall i :: 0 <= i < |ids| ==> (ids[i], 1) !in cards
    ensures |CardsOf(Enlist(cards, ids, candidates), c)| == |CardsOf(cards, c)| + multiset(candidates[..|ids|])[c]
    decreases |ids|
  {
    if ids == [] {
      assert candidates[..0] == [];
    } else {
      var n := |ids| - 1;
      EnlistedPlaces(cards, ids[..n], candidates, c);
      assert ids[..n][..n] == ids[..n];
      EnlistedOnce(cards, ids[..n], candidates, (ids[n], 1));
      var before := Enlist(cards, ids[..n], candidates);
      assert Enlist(cards, ids, candidates) == before[(ids[n], 1) := candidates[n]];
      assert (ids[n], 1) !in before;
      assert candidates[..n + 1] == candidates[..n] + [candidates[n]];
      hide CardsOf, Enlist;
      CardAdded(before, (ids[n], 1), candidates[n], c);
    }
  }

  lemma CardAdded<C>(cards: map<CardKey, C>, k: CardKey, candidate: C, c: C)
    requires k !in cards && k.1 == 1
    ensures |CardsOf(cards[k := candidate], c)| == |CardsOf(cards, c)| + if candidate == c then 1 else 0
  {
    var after := cards[k := candidate];
    assert CardsOf(after, c) == CardsOf(cards, c) + if candidate == c then {k} else {};
  }

  /** A fill takes the deferred candidates of its snapshot, new identifiers, and nothing else. */
  ghost predicate FillReady<C>(t: Slots<C>, batch: nat, discovered: seq<C>, ids: seq<Id>) {
    && batch <= |t.deferred| && |ids| == batch + |discovered| && FreshIds(t.ledger.items, ids)
    && (forall i :: 0 <= i < |ids| ==> (ids[i], 1) !in t.cards)
  }

  /** The change a commit makes to where one candidate is. */
  lemma CommitPlaces<C>(t: Slots<C>, batch: nat, discovered: seq<C>, ids: seq<Id>, fates: nat -> Fate, c: C)
    requires FillReady(t, batch, discovered, ids)
    ensures var e := EndingOf(t, batch, discovered, fates);
            && Kept(e) <= |ids|
            && Places(CommitStep(t, batch, discovered, ids, fates).0, c)
               == Places(t, c) + if e.Returned? then multiset(discovered)[c]
                                 else multiset((t.deferred[..batch] + discovered)[..Kept(e)])[c]
  {
    var e := EndingOf(t, batch, discovered, fates);
    CommitEndsAs(t, batch, discovered, ids, fates);
    var candidates := t.deferred[..batch] + discovered;
    hide Room, Headroom, CommitStep, Enlist, FreshIds;
    EnlistedPlaces(t.cards, ids[..Kept(e)], candidates, c);
    if e.Returned? {
      CandidatesConserved(t.deferred, batch, discovered, Kept(e));
      assert (multiset(candidates[..Kept(e)]) + multiset(Leftover(t.deferred, batch, discovered, Kept(e))))[c]
             == (multiset(t.deferred) + multiset(discovered))[c];
    }
  }

  lemma CandidatesConserved<C>(deferred: seq<C>, batch: nat, discovered: seq<C>, cut: nat)
    requires batch <= |deferred| && cut <= batch + |discovered|
    ensures multiset((deferred[..batch] + discovered)[..cut]) + multiset(Leftover(deferred, batch, discovered, cut))
            == multiset(deferred) + multiset(discovered)
  {
    var candidates, taken := deferred[..batch] + discovered, Least(cut, batch);
    assert candidates[..cut] == deferred[..taken] + discovered[..cut - taken];
    assert deferred == deferred[..taken] + deferred[taken..];
    assert discovered == discovered[..cut - taken] + discovered[cut - taken..];
  }

  // --------------------------------------------------------------- one commit

  /** A commit that raises keeps every candidate where it belongs only if it got nowhere with nothing
      newly discovered, or if all it had was newly discovered and only the last write failed. */
  predicate Spares(e: Ending, batch: nat, discovered: nat) {
    match e
    case Returned(_) => true
    case RefusedAt(index) => index == 0 && discovered == 0
    case UnwrittenAt(index) => batch == 0 && index + 1 == discovered
  }

  /** What was discovered is now somewhere once more, and nothing else moved in or out. */
  ghost predicate Conserved<C(!new)>(t: Slots<C>, end: Slots<C>, discovered: seq<C>) {
    forall c :: Places(end, c) == Places(t, c) + multiset(discovered)[c]
  }

  /** No candidate is deferred or discovered twice. */
  ghost predicate Distinguished<C(!new)>(deferred: seq<C>, discovered: seq<C>) {
    forall c :: multiset(deferred)[c] + multiset(discovered)[c] <= 1
  }

  lemma CommitConservesExactly<C(!new)>(t: Slots<C>, batch: nat, discovered: seq<C>, ids: seq<Id>, fates: nat -> Fate)
    requires FillReady(t, batch, discovered, ids) && Distinguished(t.deferred, discovered)
    ensures Conserved(t, CommitStep(t, batch, discovered, ids, fates).0, discovered)
            <==> Spares(EndingOf(t, batch, discovered, fates), batch, |discovered|)
  {
    hide EndingFrom, CommitStep, Places, FreshIds, Room, Headroom, Spares;
    var e, end := EndingOf(t, batch, discovered, fates), CommitStep(t, batch, discovered, ids, fates).0;
    EndingBounds(Room(t.ledger), Headroom(t.ledger), batch + |discovered|, fates, 0);
    if e.Returned? {
      forall c ensures Places(end, c) == Places(t, c) + multiset(discovered)[c] {
        CommitPlaces(t, batch, discovered, ids, fates, c);
      }
      ReturnedSpares(e, batch, |discovered|);
    } else {
      forall c ensures Places(end, c) == Places(t, c) + multiset((t.deferred[..batch] + discovered)[..Kept(e)])[c] {
        CommitPlaces(t, batch, discovered, ids, fates, c);
      }
      if Spares(e, batch, |discovered|) {
        SparedKept(t.deferred, batch, discovered, e);
      } else {
        var c := Misplaced(t.deferred, batch, discovered, e);
        assert Places(end, c) != Places(t, c) + multiset(discovered)[c];
      }
    }
  }

  lemma ReturnedSpares(e: Ending, batch: nat, discovered: nat)
    ensures e.Returned? ==> Spares(e, batch, discovered)
  {
  }

  lemma SparedKept<C>(deferred: seq<C>, batch: nat, discovered: seq<C>, e: Ending)
    requires batch <= |deferred| && Kept(e) <= batch + |discovered| && !e.Returned? && Spares(e, batch, |discovered|)
    ensures (deferred[..batch] + discovered)[..Kept(e)] == discovered
  {
  }

  /** A candidate that is lost, or kept twice, by a commit that raises at the wrong place: the first
      deferred one if it became a card, else the first discovered one that did not. */
  lemma Misplaced<C(!new)>(deferred: seq<C>, batch: nat, discovered: seq<C>, e: Ending) returns (c: C)
    requires batch <= |deferred| && Kept(e) <= batch + |discovered| && !e.Returned?
    requires e.RefusedAt? ==> e.index < batch + |discovered|
    requires !Spares(e, batch, |discovered|) && Distinguished(deferred, discovered)
    ensures if batch > 0 && Kept(e) > 0 then c == deferred[0]
            else Kept(e) - Least(Kept(e), batch) < |discovered| && c == discovered[Kept(e) - Least(Kept(e), batch)]
    ensures multiset((deferred[..batch] + discovered)[..Kept(e)])[c] != multiset(discovered)[c]
  {
    var kept := (deferred[..batch] + discovered)[..Kept(e)];
    if batch > 0 && Kept(e) > 0 {
      c := deferred[0];
      assert kept[0] == c && c in multiset(kept) && c in multiset(deferred);
    } else {
      var n := Kept(e) - Least(Kept(e), batch);
      c := discovered[n];
      assert kept == discovered[..n];
      assert discovered == discovered[..n] + [c] + discovered[n + 1..];
    }
  }

  /** The two failing inputs. With the revision counter exhausted a discovered candidate is nowhere
      afterwards, although its card is in the ledger; and a deferred candidate whose card could not be
      written is both a card and still deferred. */
  lemma CandidateLostOrRepeated<C(!new)>(t: Slots<C>, candidate: C, id: Id, fates: nat -> Fate)
    requires Room(t.ledger) > 0 && FreshIds(t.ledger.items, [id]) && (id, 1) !in t.cards
    requires fates(0) != Done && CardsOf(t.cards, candidate) == {} && t.deferred == []
    ensures t.ledger.revision == MAX_INT ==>
              var end := CommitStep(t, 0, [candidate], [id], fates).0;
              Places(end, candidate) == 0 && |end.ledger.items| == |t.ledger.items| + 1
    ensures t.ledger.revision < MAX_INT ==>
              Places(CommitStep(t.(deferred := [candidate]), 1, [], [id], fates).0, candidate) == 2
  {
    var late := t.(deferred := [candidate]);
    CommitPlaces(t, 0, [candidate], [id], fates, candidate);
    CommitEndsAs(t, 0, [candidate], [id], fates);
    CommitPlaces(late, 1, [], [id], fates, candidate);
    assert [candidate][..1] + [] == [candidate] && [candidate][..0] == [];
  }

  // ------------------------------------------------------------------ every run

  /** One fill: the session as other threads left it by the time of the commit, the deferred candidates
      taken, what was discovered, the identifiers, and what the writes will do. */
  datatype Fill<C> = Fill(ledger: Ledger, batch: nat, discovered: seq<C>, ids: seq<Id>, fates: nat -> Fate)

  function Filled<C>(t: Slots<C>, f: Fill<C>): Slots<C>
    requires f.batch <= |t.deferred| && |f.ids| == f.batch + |f.discovered|
  {
    CommitStep(t.(ledger := f.ledger), f.batch, f.discovered, f.ids, f.fates).0
  }

  ghost predicate Possible<C>(t: Slots<C>, fills: seq<Fill<C>>)
    decreases |fills|
  {
    fills != [] ==>
      && FillReady(t.(ledger := fills[0].ledger), fills[0].batch, fills[0].discovered, fills[0].ids)
      && Possible(Filled(t, fills[0]), fills[1..])
  }

  ghost function After<C>(t: Slots<C>, fills: seq<Fill<C>>): Slots<C>
    requires Possible(t, fills)
    decreases |fills|
  {
    if fills == [] then t else After(Filled(t, fills[0]), fills[1..])
  }

  function Found<C>(fills: seq<Fill<C>>): multiset<C> {
    if fills == [] then multiset{} else multiset(fills[0].discovered) + Found(fills[1..])
  }

  predicate FillSpares<C>(f: Fill<C>) {
    Spares(EndingFrom(Room(f.ledger), Headroom(f.ledger), f.batch + |f.discovered|, f.fates, 0), f.batch, |f.discovered|)
  }

  /** No candidate is discovered twice, or discovered while it is deferred. */
  ghost predicate FoundOnce<C(!new)>(t: Slots<C>, fills: seq<Fill<C>>) {
    forall c :: multiset(t.deferred)[c] + Found(fills)[c] <= 1
  }

  lemma FoundOnceStep<C(!new)>(t: Slots<C>, fills: seq<Fill<C>>)
    requires fills != [] && Possible(t, fills) && FoundOnce(t, fills)
    ensures Distinguished(t.deferred, fills[0].discovered) && FoundOnce(Filled(t, fills[0]), fills[1..])
  {
    var f, next := fills[0], Filled(t, fills[0]);
    hide Filled, FillReady, Possible;
    forall c ensures multiset(next.deferred)[c] <= multiset(t.deferred)[c] + multiset(f.discovered)[c] {
      DeferredStep(t, f, c);
    }
  }

  lemma DeferredStep<C>(t: Slots<C>, f: Fill<C>, c: C)
    requires FillReady(t.(ledger := f.ledger), f.batch, f.discovered, f.ids)
    ensures multiset(Filled(t, f).deferred)[c] <= multiset(t.deferred)[c] + multiset(f.discovered)[c]
  {
    var e, next := EndingOf(t.(ledger := f.ledger), f.batch, f.discovered, f.fates), Filled(t, f);
    CommitEndsAs(t.(ledger := f.ledger), f.batch, f.discovered, f.ids, f.fates);
    hide Room, Headroom, EndingFrom, Filled, FillReady;
    if e.Returned? {
      CandidatesConserved(t.deferred, f.batch, f.discovered, Kept(e));
      assert (multiset((t.deferred[..f.batch] + f.discovered)[..Kept(e)]) + multiset(next.deferred))[c]
             == (multiset(t.deferred) + multiset(f.discovered))[c];
    }
  }

  /** A candidate that is not discovered any more never gets fewer places, and no more once it is not
      deferred either. */
  lemma {:induction false} PlacesStay<C(!new)>(t: Slots<C>, fills: seq<Fill<C>>, c: C)
    requires Possible(t, fills) && Found(fills)[c] == 0
    ensures Places(After(t, fills), c) >= Places(t, c)
    ensures multiset(t.deferred)[c] == 0 ==> Places(After(t, fills), c) == Places(t, c)
    decreases |fills|
  {
    hide FreshIds, Filled, CommitStep, EndingFrom, Places;
    if fills != [] {
      var f := fills[0];
      PlacesStep(t, f, c);
      assert (multiset(f.discovered) + Found(fills[1..]))[c] == 0;
      PlacesStay(Filled(t, f), fills[1..], c);
    }
  }

  lemma PlacesStep<C>(t: Slots<C>, f: Fill<C>, c: C)
    requires FillReady(t.(ledger := f.ledger), f.batch, f.discovered, f.ids) && multiset(f.discovered)[c] == 0
    ensures Places(Filled(t, f), c) >= Places(t, c)
    ensures multiset(t.deferred)[c] == 0 ==>
              Places(Filled(t, f), c) == Places(t, c) && multiset(Filled(t, f).deferred)[c] == 0
  {
    CommitPlaces(t.(ledger := f.ledger), f.batch, f.discovered, f.ids, f.fates, c);
    DeferredStep(t, f, c);
    if multiset(t.deferred)[c] == 0 {
      assert c !in t.deferred && c !in f.discovered;
      assert c !in t.deferred[..f.batch] + f.discovered;
    }
  }

  /** Over any run of fills, pauses, resumes and failures between them, what was discovered is kept for
      one card or deferred, once, if and only if every fill that raised was a sparing one. */
  lemma {:induction false} EveryRunConservesExactly<C(!new)>(t: Slots<C>, fills: seq<Fill<C>>)
    requires Possible(t, fills) && FoundOnce(t, fills)
    ensures (forall c :: Places(After(t, fills), c) == Places(t, c) + Found(fills)[c])
            <==> forall i :: 0 <= i < |fills| ==> FillSpares(fills[i])
    decreases |fills|
  {
    hide FreshIds, Filled, CommitStep, EndingFrom, Places, Found, Spares;
    FoundNone(fills);
    if fills != [] {
      var f, next, rest := fills[0], Filled(t, fills[0]), fills[1..];
      FoundOnceStep(t, fills);
      FilledExactly(t, f);
      EveryRunConservesExactly(next, rest);
      if FillSpares(f) {
        forall c ensures Places(After(t, fills), c) == Places(t, c) + Found(fills)[c]
                         <==> Places(After(next, rest), c) == Places(next, c) + Found(rest)[c] {
          assert Places(next, c) == Places(t, c) + multiset(f.discovered)[c];
        }
        assert forall i :: 0 <= i < |rest| ==> rest[i] == fills[i + 1];
      } else {
        var c :| Places(next, c) != Places(t, c) + multiset(f.discovered)[c];
        SpoiltForGood(t, fills, c);
      }
    }
  }

  lemma FoundNone<C>(fills: seq<Fill<C>>)
    ensures fills == [] ==> Found(fills) == multiset{}
    ensures fills != [] ==> forall c :: Found(fills)[c] == multiset(fills[0].discovered)[c] + Found(fills[1..])[c]
  {
  }

  lemma FilledExactly<C(!new)>(t: Slots<C>, f: Fill<C>)
    requires FillReady(t.(ledger := f.ledger), f.batch, f.discovered, f.ids) && Distinguished(t.deferred, f.discovered)
    ensures (forall c :: Places(Filled(t, f), c) == Places(t, c) + multiset(f.discovered)[c]) <==> FillSpares(f)
  {
    var start := t.(ledger := f.ledger);
    CommitConservesExactly(start, f.batch, f.discovered, f.ids, f.fates);
    forall c ensures Places(start, c) == Places(t, c) { }
  }

  /** What one fill spoils, no later one mends. */
  lemma SpoiltForGood<C(!new)>(t: Slots<C>, fills: seq<Fill<C>>, c: C)
    requires fills != [] && Possible(t, fills) && FoundOnce(t, fills)
    requires Places(Filled(t, fills[0]), c) != Places(t, c) + multiset(fills[0].discovered)[c]
    ensures Places(After(t, fills), c) != Places(t, c) + Found(fills)[c]
  {
    hide FreshIds, Filled, Found, Places, CommitStep;
    FoundNone(fills);
    assert multiset(t.deferred)[c] + Found(fills)[c] <= 1;
    SpoiltHadIt(t, fills[0], c);
    PlacesStay(Filled(t, fills[0]), fills[1..], c);
  }

  /** Only a candidate deferred or discovered just then is misplaced, and one discovered is lost. */
  lemma SpoiltHadIt<C>(t: Slots<C>, f: Fill<C>, c: C)
    requires FillReady(t.(ledger := f.ledger), f.batch, f.discovered, f.ids)
    requires Places(Filled(t, f), c) != Places(t, c) + multiset(f.discovered)[c]
    requires multiset(t.deferred)[c] + multiset(f.discovered)[c] <= 1
    ensures multiset(t.deferred)[c] + multiset(f.discovered)[c] == 1
    ensures if multiset(f.discovered)[c] == 1
            then Places(Filled(t, f), c) == Places(t, c) && multiset(Filled(t, f).deferred)[c] == 0
            else Places(Filled(t, f), c) > Places(t, c)
  {
    var e := EndingOf(t.(ledger := f.ledger), f.batch, f.discovered, f.fates);
    CommitPlaces(t.(ledger := f.ledger), f.batch, f.discovered, f.ids, f.fates, c);
    CommitEndsAs(t.(ledger := f.ledger), f.batch, f.discovered, f.ids, f.fates);
    hide EndingFrom, CommitStep, FillReady, Places, Leftover, Enlist, Room, Headroom;
    KeptWereThere(t.deferred, f.batch, f.discovered, Kept(e), c);
  }

  lemma KeptWereThere<C>(deferred: seq<C>, batch: nat, discovered: seq<C>, cut: nat, c: C)
    requires batch <= |deferred| && cut <= batch + |discovered|
    ensures multiset((deferred[..batch] + discovered)[..cut])[c] <= multiset(deferred)[c] + multiset(discovered)[c]
  {
    CandidatesConserved(deferred, batch, discovered, cut);
    assert (multiset((deferred[..batch] + discovered)[..cut]) + multiset(Leftover(deferred, batch, discovered, cut)))[c]
           == (multiset(deferred) + multiset(discovered))[c];
  }
}
