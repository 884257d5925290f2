/** Safety of the coordinator over every run, stated card by card: one Photos operation per revision,
    behind a decision already on disk; settled cards stay settled; late results touch nothing else. */
module QueueSafety {
  import opened Wrappers
  import opened QueueSession
  import opened QueueCards
  import opened QueueCoordinator

  /** One revision of one card, as memory or the file shows it. */
  datatype Side = Side(state: Option<ItemState>, superseded: bool, persists: nat)

  /** The persist calls, scheduler cards and analyses under way for it, and the operations started. */
  datatype Jobs = Jobs(submitted: nat, aborted: nat, running: nat, preparing: nat, futures: nat, runs: nat)

  datatype Card = Card(mem: Side, disk: Side, jobs: Jobs)

  function Next(k: CardKey): CardKey { (k.0, k.1 + 1) }

  function SideOf(s: Ledger, x: CardKey): Side {
    Side(StateAt(s.items, x), StateAt(s.items, Next(x)).Some?, Persists(s.decisions, x))
  }

  function JobsOf(m: Machine, x: CardKey): Jobs {
    Jobs(m.submitted[x], m.aborted[x], m.running[x], m.preparing[x], m.futures[x], m.runs[x])
  }

  function CardOf(m: Machine, x: CardKey): Card {
    Card(SideOf(m.ledger, x), SideOf(m.disk, x), JobsOf(m, x))
  }

  /** The states a card decided to persist can be in, ever after. */
  predicate Committed(state: ItemState) { state in {SaveQueued, Saving, Verified, Uncertain, Discarded} }

  predicate SideInv(s: Side, runs: nat) {
    && s.persists <= 1
    && (s.persists > 0 ==> s.state.Some? && Committed(s.state.value))
    && (s.state == Some(Verified) ==> runs > 0)
    && (s.superseded && s.state.Some? ==> s.state.value in {Ready, QueueSession.Failed, Uncertain})
  }

  /** The file is never ahead of memory, and what is settled on it is settled in memory. */
  predicate DiskInv(mem: Side, disk: Side) {
    && disk.persists <= mem.persists
    && (disk.state.Some? ==> mem.state.Some?) && (disk.superseded ==> mem.superseded)
    && (disk.state.Some? && Terminal(disk.state.value) ==> mem.state == disk.state)
  }

  predicate JobsInv(c: Card) {
    var j, mem := c.jobs, c.mem.state;
    // a persist call in progress
    && j.submitted + j.aborted + j.running <= 1
    && (j.submitted + j.aborted + j.running > 0 ==> mem in {Some(SaveQueued), Some(Saving)} && c.mem.persists > 0)
    && (j.submitted > 0 ==> mem == Some(SaveQueued) && c.disk.state == Some(SaveQueued) && c.disk.persists > 0)
    && (j.running > 0 ==> j.runs > 0)
    // the operations started
    && j.submitted + j.runs <= 1
    && (j.runs > 0 ==> c.disk.persists > 0)
    // the scheduler's cards
    && j.preparing + j.futures <= 1
    && (j.preparing > 0 ==> mem in {Some(Preparing), Some(Discarded)})
    && (j.futures > 0 ==> mem in {Some(Analyzing), Some(Discarded)})
  }

  predicate CardInv(c: Card) {
    SideInv(c.mem, c.jobs.runs) && SideInv(c.disk, c.jobs.runs) && DiskInv(c.mem, c.disk) && JobsInv(c)
  }

  /** What no event of a running coordinator takes back from a card. */
  predicate Progress(c: Card, c1: Card) {
    && (c.mem.state.Some? && Terminal(c.mem.state.value) ==> c1.mem.state == c.mem.state)
    && (c.mem.state.Some? && c.mem.superseded ==> c1.mem.state == c.mem.state && c1.mem.superseded)
    && c.mem.persists <= c1.mem.persists && c.disk.persists <= c1.disk.persists
    && (c.disk.state.Some? && Terminal(c.disk.state.value) ==> c1.disk.state == c.disk.state)
    && (c.disk.persists > 0 && c.jobs.submitted == 0 ==> c1.jobs.submitted == 0 && c1.jobs.runs == c.jobs.runs)
  }

  predicate Evolves(c: Card, c1: Card) { CardInv(c1) && Progress(c, c1) }

  lemma EvolvesTransitive(a: Card, b: Card, c: Card)
    requires Evolves(a, b) && Evolves(b, c)
    ensures Evolves(a, c)
  {
    hide CardInv;
  }

  ghost predicate Inv(model: string -> bool, m: Machine) {
    && Valid(model, m.ledger) && Valid(model, m.disk)
    && (!m.up ==> m == CrashStep(m))
    && forall x :: CardInv(CardOf(m, x))
  }

  predicate BothValid(model: string -> bool, m: Machine) {
    Valid(model, m.ledger) && Valid(model, m.disk) && m.up
  }

  // ------------------------------------------------------ ledger steps, card by card

  lemma ValidHasItems(model: string -> bool, s: Ledger)
    requires Valid(model, s)
    ensures ValidItems(s.items) && Distinct(s.items)
  {
  }

  /** The file takes over what memory holds. */
  function OnDisk(c: Card): Card { c.(disk := c.mem) }

  /** What another card's event does to a card: at most its file catches up. */
  predicate Bystander(c: Card, c1: Card) { c1 == c || c1 == OnDisk(c) }

  lemma BystanderKeeps(c: Card, c1: Card)
    requires CardInv(c) && Bystander(c, c1)
    ensures Evolves(c, c1)
  {
  }

  lemma SavedCard(m: Machine, fate: Fate, x: CardKey)
    ensures CardOf(Saved(m, fate), x) == if fate == Lost then CardOf(m, x) else OnDisk(CardOf(m, x))
    ensures Bystander(CardOf(m, x), CardOf(Saved(m, fate), x))
  {
    hide SideOf;
  }

  function Shift(s: Side, here: bool, state: ItemState): Side {
    if here then s.(state := Some(state)) else s
  }

  lemma CheckpointSide(model: string -> bool, s: Ledger, k: CardKey, state: ItemState, source: Option<Id>,
                       reviewed: Option<Id>, x: CardKey)
    requires Valid(model, s)
    ensures var (after, reply) := Checkpoint(s, k.0, k.1, state, source, reviewed);
            && Valid(model, after)
            && (SideOf(after, x) == SideOf(s, x) || (IsCurrent(s, k) && SideOf(after, x) == Shift(SideOf(s, x), x == k, state)))
            && (reply == Accepted ==> IsCurrent(s, k) && SideOf(after, x) == Shift(SideOf(s, x), x == k, state))
  {
    hide Valid, Checkpoint, IsCurrent, StateAt, Persists, ValidItems, Distinct;
    ValidHasItems(model, s);
    CheckpointValid(model, s, k.0, k.1, state, source, reviewed);
    CheckpointMoves(s, k, state, source, reviewed, x);
    CheckpointMoves(s, k, state, source, reviewed, Next(x));
    if IsCurrent(s, k) {
      CurrentExists(s, k);
    }
  }

  /** A card checkpoint in three outcomes: refused, raised after the change, or written. */
  predicate Checkpointed(c: Card, c1: Card, ok: bool, current: bool, here: bool, state: ItemState) {
    var moved := c.(mem := Shift(c.mem, here, state));
    && (c1 == c || (current && (c1 == moved || c1 == OnDisk(moved))))
    && (ok ==> current && c1 == OnDisk(moved))
  }

  lemma MovedShape(m: Machine, k: CardKey, state: ItemState, source: Option<Id>, reviewed: Option<Id>, fate: Fate)
    ensures var (m1, ok) := Moved(m, k, state, source, reviewed, fate);
            var (after, reply) := Checkpoint(m.ledger, k.0, k.1, state, source, reviewed);
            && m1 == m.(ledger := after, disk := if reply == Accepted && fate != Lost then after else m.disk)
            && ok == (reply == Accepted && fate == Done)
  {
    hide Checkpoint;
  }

  lemma SameJobs(m: Machine, ledger: Ledger, disk: Ledger, x: CardKey)
    ensures CardOf(m.(ledger := ledger, disk := disk), x) == Card(SideOf(ledger, x), SideOf(disk, x), JobsOf(m, x))
  {
    hide SideOf;
  }

  lemma MovedCard(model: string -> bool, m: Machine, k: CardKey, state: ItemState, source: Option<Id>,
                  reviewed: Option<Id>, fate: Fate, x: CardKey)
    requires BothValid(model, m)
    ensures var (m1, ok) := Moved(m, k, state, source, reviewed, fate);
            && BothValid(model, m1)
            && m1 == m.(ledger := m1.ledger, disk := m1.disk)
            && Checkpointed(CardOf(m, x), CardOf(m1, x), ok, IsCurrent(m.ledger, k), x == k, state)
  {
    CheckpointSide(model, m.ledger, k, state, source, reviewed, x);
    MovedShape(m, k, state, source, reviewed, fate);
    hide Valid, Checkpoint, IsCurrent, SideOf, JobsOf, Moved;
    var m1 := Moved(m, k, state, source, reviewed, fate).0;
    SameJobs(m, m1.ledger, m1.disk, x);
  }

  lemma CurrentCard(model: string -> bool, m: Machine, k: CardKey)
    requires Valid(model, m.ledger)
    ensures IsCurrent(m.ledger, k) <==> CardOf(m, k).mem.state.Some? && !CardOf(m, k).mem.superseded
  {
    ValidHasItems(model, m.ledger);
    CurrentIffNotSuperseded(m.ledger, k);
  }

  /** The same for a decision that is neither refused nor replayed: one card moved or added. */
  function DecidedSide(s: Side, d: Decision, x: CardKey): Side {
    var k := (d.itemId, d.revision);
    match d.action
    case Persist => if x == k then s.(state := Some(SaveQueued), persists := s.persists + 1) else s
    case Discard => Shift(s, x == k, Discarded)
    case Rescan => if x == k then s.(superseded := true) else Shift(s, x == Target(d), Queued)
  }

  predicate Decidable(s: Ledger, d: Decision) {
    var k := (d.itemId, d.revision);
    !Replayed(s, d) && IsCurrent(s, k) && StateAt(s.items, k).Some? && Allows(d.action, StateAt(s.items, k).value)
  }

  /** The step from one card's states to its two sides. */
  lemma DecidesSide(s: Ledger, after: Ledger, d: Decision, x: CardKey)
    requires Decides(s, after, d, x) && Decides(s, after, d, Next(x))
    ensures SideOf(after, x) == DecidedSide(SideOf(s, x), d, x)
    ensures d.action == Rescan && x == Target(d) ==> SideOf(s, x).state.None? && !SideOf(s, x).superseded
  {
    if IsCurrent(s, (d.itemId, d.revision)) {
      CurrentExists(s, (d.itemId, d.revision));
    }
    hide IsCurrent, StateAt, Persists, Allows;
  }

  /** Refused or replayed decisions change no card; the others change one. */
  predicate Recorded(s: Ledger, after: Ledger, reply: Reply, d: Decision, x: CardKey) {
    var side, side1 := SideOf(s, x), SideOf(after, x);
    var moved := Decidable(s, d) && side1 == DecidedSide(side, d, x)
                 && (d.action == Rescan && x == Target(d) ==> side.state.None? && !side.superseded);
    && (side1 == side || moved)
    && (reply == Accepted ==> if Replayed(s, d) then side1 == side else moved)
  }

  lemma RecordedSide(model: string -> bool, s: Ledger, d: Decision, x: CardKey)
    requires Valid(model, s)
    ensures var (after, reply) := Record(s, d);
            Valid(model, after) && Recorded(s, after, reply, d, x)
  {
    ValidHasItems(model, s);
    RecordValid(model, s, d);
    RecordMoves(s, d, x);
    RecordMoves(s, d, Next(x));
    var after := Record(s, d).0;
    if Decides(s, after, d, x) && Decides(s, after, d, Next(x)) {
      DecidesSide(s, after, d, x);
    }
    hide Valid, Record, IsCurrent, StateAt, Allows, Replayed, ValidItems, Distinct, SideOf, DecidedSide, SameCards, Newcomer;
  }

  // ------------------------------------------------------------- decisions, one card

  /** A decision reaches the ledger; the file may follow. */
  predicate DecidedCard(c: Card, c1: Card, d: Decision, x: CardKey) {
    var moved := c.(mem := DecidedSide(c.mem, d, x));
    c1 == moved || c1 == OnDisk(moved)
  }

  lemma DecisionKeeps(c: Card, kc: Card, c1: Card, d: Decision, x: CardKey)
    requires CardInv(c) && CardInv(kc) && (x == (d.itemId, d.revision) ==> c == kc)
    requires kc.mem.state.Some? && !kc.mem.superseded && Allows(d.action, kc.mem.state.value)
    requires d.action == Rescan && x == Target(d) ==> c.mem.state.None? && !c.mem.superseded
    requires DecidedCard(c, c1, d, x)
    ensures Evolves(c, c1)
  {
    if x != (d.itemId, d.revision) && x != Target(d) {
      BystanderKeeps(c, c1);
    }
  }

  /** A fresh persist on disk: the card had no operation before, so one may be submitted. */
  lemma SubmissionKeeps(c: Card, c1: Card, d: Decision)
    requires CardInv(c) && d.action == Persist
    requires c.mem.state.Some? && !c.mem.superseded && Allows(Persist, c.mem.state.value)
    requires var moved := c.(mem := DecidedSide(c.mem, d, (d.itemId, d.revision)));
             c1 == OnDisk(moved).(jobs := c.jobs.(submitted := c.jobs.submitted + 1))
    ensures Evolves(c, c1)
  {
  }

  lemma SubmittedJobs(m: Machine, k: CardKey, x: CardKey)
    ensures JobsOf(m.(submitted := m.submitted + multiset{k}), x)
            == if x == k then JobsOf(m, x).(submitted := JobsOf(m, x).submitted + 1) else JobsOf(m, x)
  {
  }

  lemma DecidableCard(model: string -> bool, m: Machine, d: Decision)
    requires Valid(model, m.ledger) && Decidable(m.ledger, d)
    ensures var kc := CardOf(m, (d.itemId, d.revision));
            kc.mem.state.Some? && !kc.mem.superseded && Allows(d.action, kc.mem.state.value)
  {
    CurrentCard(model, m, (d.itemId, d.revision));
    hide Valid, IsCurrent, StateAt, Persists, Allows;
  }

  /** What the stretches of the three decisions share: record, then perhaps write. */
  lemma RecordedKeeps(model: string -> bool, m: Machine, d: Decision, written: bool, x: CardKey)
    requires BothValid(model, m) && CardInv(CardOf(m, x)) && CardInv(CardOf(m, (d.itemId, d.revision)))
    ensures var after := Record(m.ledger, d).0;
            var m1 := m.(ledger := after, disk := if written then after else m.disk);
            BothValid(model, m1) && Evolves(CardOf(m, x), CardOf(m1, x))
  {
    var after := Record(m.ledger, d).0;
    RecordedSide(model, m.ledger, d, x);
    SameJobs(m, after, if written then after else m.disk, x);
    var c, c1 := CardOf(m, x), CardOf(m.(ledger := after, disk := if written then after else m.disk), x);
    if Decidable(m.ledger, d) {
      DecidableCard(model, m, d);
    }
    hide Valid, Record, SideOf, JobsOf, CardInv, Progress, Replayed, Allows, DecidedSide, Decidable;
    if c1.mem == c.mem {
      BystanderKeeps(c, c1);
    } else {
      DecisionKeeps(c, CardOf(m, (d.itemId, d.revision)), c1, d, x);
    }
  }

  /** The written, fresh decision that is handed to the write worker. */
  lemma SubmittedKeeps(model: string -> bool, m: Machine, d: Decision, x: CardKey)
    requires BothValid(model, m) && CardInv(CardOf(m, x)) && d.action == Persist
    requires Record(m.ledger, d).1 == Accepted && !Replayed(m.ledger, d)
    ensures var after, k := Record(m.ledger, d).0, (d.itemId, d.revision);
            var m1 := m.(ledger := after, disk := after, submitted := m.submitted + multiset{k});
            x == k ==> Evolves(CardOf(m, x), CardOf(m1, x))
  {
    hide Valid, Record, SideOf, JobsOf, CardInv, Progress, Replayed, Allows, Decidable, DecidedSide, CardOf;
    var after, k := Record(m.ledger, d).0, (d.itemId, d.revision);
    var m1 := m.(ledger := after, disk := after);
    RecordedSide(model, m.ledger, d, x);
    SameJobs(m, after, after, x);
    SubmittedJobs(m1, k, x);
    JobsAfter(m1, m1.(submitted := m1.submitted + multiset{k}), x);
    CardJobs(m, x);
    CardJobs(m1, x);
    MemSide(m, x);
    DecidableCard(model, m, d);
    if x == k {
      SubmissionKeeps(CardOf(m, x), CardOf(m1.(submitted := m1.submitted + multiset{k}), x), d);
    }
  }

  lemma MemSide(m: Machine, x: CardKey)
    ensures CardOf(m, x).mem == SideOf(m.ledger, x)
  {
    hide SideOf;
  }

  lemma PersistKeeps(model: string -> bool, m: Machine, d: Decision, fate: Fate, x: CardKey)
    requires BothValid(model, m) && CardInv(CardOf(m, x)) && CardInv(CardOf(m, (d.itemId, d.revision)))
    ensures var m1 := PersistStep(m, d, fate);
            BothValid(model, m1) && Evolves(CardOf(m, x), CardOf(m1, x))
  {
    hide Valid, Record, CardOf, CardInv, Progress, Replayed, SideOf;
    BystanderKeeps(CardOf(m, x), CardOf(m, x));
    var k := (d.itemId, d.revision);
    var (after, reply) := Record(m.ledger, d);
    RecordedKeeps(model, m, d, false, x);
    RecordedKeeps(model, m, d, true, x);
    var m1, m2 := m.(ledger := after, disk := after), PersistStep(m, d, fate);
    if m2 == m1.(submitted := m1.submitted + multiset{k}) && d.action == Persist && reply == Accepted
       && !Replayed(m.ledger, d) {
      SubmittedKeeps(model, m, d, x);
      if x != k {
        SubmittedJobs(m1, k, x);
        JobsAfter(m1, m2, x);
        CardJobs(m1, x);
      }
    }
  }

  lemma DiscardKeeps(model: string -> bool, m: Machine, d: Decision, fate: Fate, x: CardKey)
    requires BothValid(model, m) && CardInv(CardOf(m, x)) && CardInv(CardOf(m, (d.itemId, d.revision)))
    ensures var m1 := DiscardStep(m, d, fate);
            BothValid(model, m1) && Evolves(CardOf(m, x), CardOf(m1, x))
  {
    hide Valid, Record, CardOf, CardInv, Progress;
    BystanderKeeps(CardOf(m, x), CardOf(m, x));
    RecordedKeeps(model, m, d, false, x);
    RecordedKeeps(model, m, d, true, x);
  }

  lemma RescanKeeps(model: string -> bool, m: Machine, d: Decision, fate: Fate, x: CardKey)
    requires BothValid(model, m) && CardInv(CardOf(m, x)) && CardInv(CardOf(m, (d.itemId, d.revision)))
    ensures var m1 := RescanStep(m, d, fate);
            BothValid(model, m1) && Evolves(CardOf(m, x), CardOf(m1, x))
  {
    hide Valid, Record, CardOf, CardInv, Progress, Replayed;
    BystanderKeeps(CardOf(m, x), CardOf(m, x));
    RecordedKeeps(model, m, d, false, x);
    RecordedKeeps(model, m, d, true, x);
    CandidatesImmaterial(m.(ledger := Record(m.ledger, d).0), m.candidates + {Target(d)}, fate, x);
  }

  /** Candidates and manifests are no part of a card. */
  lemma CandidatesImmaterial(m: Machine, candidates: set<CardKey>, fate: Fate, x: CardKey)
    ensures CardOf(Saved(m.(candidates := candidates), fate), x) == CardOf(Saved(m, fate), x)
  {
    hide SideOf;
  }

  // ---------------------------------------------------------- card checkpoints, one card

  /** An event on another card: its checkpoint, whatever happens to that card's own jobs. */
  lemma ElsewhereKeeps(model: string -> bool, m: Machine, m0: Machine, k: CardKey, state: ItemState,
                       source: Option<Id>, reviewed: Option<Id>, fate: Fate, x: CardKey)
    requires BothValid(model, m) && x != k && CardInv(CardOf(m, x))
    requires m0.up && m0.ledger == m.ledger && m0.disk == m.disk && JobsOf(m0, x) == JobsOf(m, x)
    ensures var m1 := Moved(m0, k, state, source, reviewed, fate).0;
            BothValid(model, m1) && m1 == m0.(ledger := m1.ledger, disk := m1.disk)
            && Evolves(CardOf(m, x), CardOf(m1, x)) && Bystander(CardOf(m, x), CardOf(m1, x))
  {
    hide Valid, Moved, IsCurrent, SideOf, JobsOf, CardInv, Progress;
    MovedCard(model, m0, k, state, source, reviewed, fate, x);
    BystanderKeeps(CardOf(m, x), CardOf(Moved(m0, k, state, source, reviewed, fate).0, x));
  }

  /** Only the card's jobs changed since its checkpoint. */
  lemma JobsAfter(m: Machine, n: Machine, x: CardKey)
    requires n.ledger == m.ledger && n.disk == m.disk
    ensures CardOf(n, x) == CardOf(m, x).(jobs := JobsOf(n, x))
  {
    hide SideOf, JobsOf;
  }

  lemma StartedCard(c: Card, c1: Card, ok: bool, current: bool)
    requires CardInv(c) && c.jobs.submitted > 0
    requires Checkpointed(c.(jobs := c.jobs.(submitted := c.jobs.submitted - 1)), c1, ok, current, true, Saving)
    ensures Evolves(c, c1.(jobs := if ok then c1.jobs.(running := c1.jobs.running + 1, runs := c1.jobs.runs + 1)
                                else c1.jobs.(aborted := c1.jobs.aborted + 1)))
  {
  }

  /** For a card the event is not about, it is enough that its jobs are left alone. */
  lemma MovedElsewhere(model: string -> bool, m: Machine, m0: Machine, m2: Machine, k: CardKey, state: ItemState,
                       source: Option<Id>, reviewed: Option<Id>, fate: Fate, x: CardKey)
    requires BothValid(model, m) && x != k && CardInv(CardOf(m, x))
    requires m0.ledger == m.ledger && m0.disk == m.disk && m0.up && JobsOf(m0, x) == JobsOf(m, x)
    requires var m1 := Moved(m0, k, state, source, reviewed, fate).0;
             m2.ledger == m1.ledger && m2.disk == m1.disk && m2.up && JobsOf(m2, x) == JobsOf(m, x)
    ensures BothValid(model, m2) && Evolves(CardOf(m, x), CardOf(m2, x))
  {
    hide Valid, Moved, SideOf, JobsOf, CardInv, Progress, CardOf;
    ElsewhereKeeps(model, m, m0, k, state, source, reviewed, fate, x);
    var m1 := Moved(m0, k, state, source, reviewed, fate).0;
    JobsAfter(m1, m2, x);
    CardJobs(m, x);
    CardJobs(m1, x);
  }

  lemma CardJobs(m: Machine, x: CardKey)
    ensures CardOf(m, x).jobs == JobsOf(m, x)
  {
    hide SideOf, JobsOf;
  }

  lemma StartSavingHere(model: string -> bool, m: Machine, k: CardKey, fate: Fate)
    requires BothValid(model, m) && CardInv(CardOf(m, k))
    requires k in m.submitted && m.running == multiset{}
    ensures var m1 := StartSavingStep(m, k, fate);
            BothValid(model, m1) && Evolves(CardOf(m, k), CardOf(m1, k))
  {
    hide Valid, Moved, IsCurrent, SideOf, CardInv, Progress, CardOf;
    var m0 := m.(submitted := m.submitted - multiset{k});
    var (m1, ok) := Moved(m0, k, Saving, None, None, fate);
    var m2 := StartSavingStep(m, k, fate);
    MovedCard(model, m0, k, Saving, None, None, fate, k);
    JobsAfter(m, m0, k);
    JobsAfter(m1, m2, k);
    CardJobs(m, k);
    CardJobs(m1, k);
    StartedCard(CardOf(m, k), CardOf(m1, k), ok, IsCurrent(m.ledger, k));
  }

  lemma StartSavingKeeps(model: string -> bool, m: Machine, k: CardKey, fate: Fate, x: CardKey)
    requires BothValid(model, m) && CardInv(CardOf(m, x))
    ensures var m1 := StartSavingStep(m, k, fate);
            BothValid(model, m1) && Evolves(CardOf(m, x), CardOf(m1, x))
  {
    hide Valid, Moved, CardInv, Progress, CardOf;
    BystanderKeeps(CardOf(m, x), CardOf(m, x));
    if k in m.submitted && m.running == multiset{} {
      if x == k {
        StartSavingHere(model, m, k, fate);
      } else {
        var m0 := m.(submitted := m.submitted - multiset{k});
        MovedShape(m0, k, Saving, None, None, fate);
        MovedElsewhere(model, m, m0, StartSavingStep(m, k, fate), k, Saving, None, None, fate, x);
      }
    }
  }

  /** One counter of a card's jobs goes down by one. */
  function Less(j: Jobs, submitted: nat, aborted: nat, running: nat, preparing: nat, futures: nat): Jobs
    requires submitted <= j.submitted && aborted <= j.aborted && running <= j.running
    requires preparing <= j.preparing && futures <= j.futures
  {
    Jobs(j.submitted - submitted, j.aborted - aborted, j.running - running, j.preparing - preparing,
         j.futures - futures, j.runs)
  }

  lemma FinishedCard(c: Card, c1: Card, verified: bool, ok: bool, current: bool)
    requires CardInv(c)
    requires || (c.jobs.running > 0
                 && Checkpointed(c.(jobs := Less(c.jobs, 0, 0, 1, 0, 0)), c1, ok, current, true,
                                 if verified then Verified else Uncertain))
             || (c.jobs.aborted > 0
                 && Checkpointed(c.(jobs := Less(c.jobs, 0, 1, 0, 0, 0)), c1, ok, current, true, Uncertain))
    ensures Evolves(c, c1)
  {
  }

  lemma FinishSavingHere(model: string -> bool, m: Machine, k: CardKey, verified: bool, reviewed: Option<Id>,
                         manifest: bool, fate: Fate)
    requires BothValid(model, m) && CardInv(CardOf(m, k))
    requires k in m.running || k in m.aborted
    ensures var m1 := FinishSavingStep(m, k, verified, reviewed, manifest, fate);
            BothValid(model, m1) && Evolves(CardOf(m, k), CardOf(m1, k))
  {
    hide Valid, Moved, IsCurrent, SideOf, CardInv, Progress, CardOf;
    var manifests := if manifest then m.manifests + {k} else m.manifests;
    var running := k in m.running;
    var m0 := if running then m.(running := m.running - multiset{k}, manifests := manifests)
              else m.(aborted := m.aborted - multiset{k});
    var state := if running && verified then Verified else Uncertain;
    var reviewed' := if running then reviewed else None;
    var (m1, ok) := Moved(m0, k, state, None, reviewed', fate);
    MovedCard(model, m0, k, state, None, reviewed', fate, k);
    JobsAfter(m, m0, k);
    CardJobs(m, k);
    FinishedCard(CardOf(m, k), CardOf(m1, k), verified, ok, IsCurrent(m.ledger, k));
  }

  lemma FinishSavingKeeps(model: string -> bool, m: Machine, k: CardKey, verified: bool, reviewed: Option<Id>,
                          manifest: bool, fate: Fate, x: CardKey)
    requires BothValid(model, m) && CardInv(CardOf(m, x))
    ensures var m1 := FinishSavingStep(m, k, verified, reviewed, manifest, fate);
            BothValid(model, m1) && Evolves(CardOf(m, x), CardOf(m1, x))
  {
    hide Valid, Moved, CardInv, Progress, CardOf;
    BystanderKeeps(CardOf(m, x), CardOf(m, x));
    var manifests := if manifest then m.manifests + {k} else m.manifests;
    if k in m.running || k in m.aborted {
      if x == k {
        FinishSavingHere(model, m, k, verified, reviewed, manifest, fate);
      } else if k in m.running {
        var m0, state := m.(running := m.running - multiset{k}, manifests := manifests), if verified then Verified else Uncertain;
        MovedShape(m0, k, state, None, reviewed, fate);
        MovedElsewhere(model, m, m0, Moved(m0, k, state, None, reviewed, fate).0, k, state, None, reviewed, fate, x);
      } else {
        var m0 := m.(aborted := m.aborted - multiset{k});
        MovedShape(m0, k, Uncertain, None, None, fate);
        MovedElsewhere(model, m, m0, Moved(m0, k, Uncertain, None, None, fate).0, k, Uncertain, None, None, fate, x);
      }
    }
  }

  lemma PickedCard(c: Card, c1: Card, ok: bool, current: bool)
    requires CardInv(c) && c.mem.state in {Some(Discovered), Some(Queued)}
    requires Checkpointed(c, c1, ok, current, true, Preparing)
    ensures Evolves(c, c1) && (ok ==> Evolves(c, c1.(jobs := c1.jobs.(preparing := c1.jobs.preparing + 1))))
  {
  }

  lemma PickHere(model: string -> bool, m: Machine, k: CardKey, kept: bool, fate: Fate)
    requires BothValid(model, m) && CardInv(CardOf(m, k))
    requires StateAt(m.ledger.items, k) in {Some(Discovered), Some(Queued)} && k in m.candidates
    ensures var m1 := PickStep(m, k, kept, fate);
            BothValid(model, m1) && Evolves(CardOf(m, k), CardOf(m1, k))
  {
    hide Valid, Moved, IsCurrent, SideOf, CardInv, Progress, CardOf, StateAt;
    var (m1, ok) := Moved(m, k, Preparing, None, None, fate);
    var m2 := PickStep(m, k, kept, fate);
    MovedCard(model, m, k, Preparing, None, None, fate, k);
    JobsAfter(m1, m2, k);
    CardJobs(m1, k);
    CardState(m, k);
    PickedCard(CardOf(m, k), CardOf(m1, k), ok, IsCurrent(m.ledger, k));
  }

  lemma CardState(m: Machine, k: CardKey)
    ensures CardOf(m, k).mem.state == StateAt(m.ledger.items, k)
  {
    hide StateAt, Persists;
  }

  lemma PickKeeps(model: string -> bool, m: Machine, k: CardKey, kept: bool, fate: Fate, x: CardKey)
    requires BothValid(model, m) && CardInv(CardOf(m, x))
    ensures var m1 := PickStep(m, k, kept, fate);
            BothValid(model, m1) && Evolves(CardOf(m, x), CardOf(m1, x))
  {
    hide Valid, Moved, CardInv, Progress, CardOf, StateAt;
    BystanderKeeps(CardOf(m, x), CardOf(m, x));
    if StateAt(m.ledger.items, k) in {Some(Discovered), Some(Queued)} && k in m.candidates {
      if x == k {
        PickHere(model, m, k, kept, fate);
      } else {
        MovedShape(m, k, Preparing, None, None, fate);
        MovedElsewhere(model, m, m, PickStep(m, k, kept, fate), k, Preparing, None, None, fate, x);
      }
    }
  }

  lemma SettledCard(model: string -> bool, m: Machine, k: CardKey)
    requires Valid(model, m.ledger)
    ensures var s := CardOf(m, k).mem;
            Settled(m.ledger, k) <==> s.state.None? || s.superseded || s.state in {Some(Verified), Some(Discarded)}
  {
    CurrentCard(model, m, k);
    hide Valid, IsCurrent, StateAt, Persists;
  }

  /** A preparing card goes back to the queue, fails, or goes on to its analysis. */
  lemma PreparedCard(c: Card, c1: Card, state: ItemState, ok: bool, current: bool)
    requires CardInv(c) && c.jobs.preparing > 0 && c.mem.state != Some(Discarded)
    requires state in {Queued, QueueSession.Failed, Analyzing}
    requires Checkpointed(c.(jobs := Less(c.jobs, 0, 0, 0, 1, 0)), c1, ok, current, true, state)
    ensures Evolves(c, c1)
    ensures ok && state == Analyzing ==> Evolves(c, c1.(jobs := c1.jobs.(futures := c1.jobs.futures + 1)))
  {
  }

  lemma DroppedCard(c: Card)
    requires CardInv(c) && c.jobs.preparing > 0
    ensures Evolves(c, c.(jobs := Less(c.jobs, 0, 0, 0, 1, 0)))
    ensures (c.mem.state.None? || c.mem.superseded || c.mem.state in {Some(Verified), Some(Discarded)}) ==>
              Evolves(c, c.(jobs := Less(c.jobs, 0, 0, 0, 1, 0).(futures := c.jobs.futures + 1)))
  {
  }

  /** Leaving the scheduler's hands without a checkpoint. */
  lemma LeavesKeeps(model: string -> bool, m: Machine, k: CardKey, toFuture: bool, x: CardKey)
    requires BothValid(model, m) && CardInv(CardOf(m, x)) && k in m.preparing
    requires toFuture ==> Settled(m.ledger, k)
    ensures var m1 := m.(preparing := m.preparing - multiset{k},
                         futures := if toFuture then m.futures + multiset{k} else m.futures);
            BothValid(model, m1) && Evolves(CardOf(m, x), CardOf(m1, x))
  {
    hide Valid, IsCurrent, SideOf, CardInv, Progress, CardOf, Settled;
    var m1 := m.(preparing := m.preparing - multiset{k},
                 futures := if toFuture then m.futures + multiset{k} else m.futures);
    JobsAfter(m, m1, x);
    CardJobs(m, x);
    if x == k {
      SettledCard(model, m, k);
      DroppedCard(CardOf(m, k));
    } else {
      BystanderKeeps(CardOf(m, x), CardOf(m1, x));
    }
  }

  lemma PreparedHere(model: string -> bool, m: Machine, k: CardKey, state: ItemState, fate: Fate)
    requires BothValid(model, m) && CardInv(CardOf(m, k)) && k in m.preparing
    requires StateAt(m.ledger.items, k) != Some(Discarded) && state in {Queued, QueueSession.Failed, Analyzing}
    ensures var (m1, ok) := Moved(m.(preparing := m.preparing - multiset{k}), k, state, None, None, fate);
            && BothValid(model, m1) && Evolves(CardOf(m, k), CardOf(m1, k))
            && (ok && state == Analyzing ==> Evolves(CardOf(m, k), CardOf(m1.(futures := m.futures + multiset{k}), k)))
  {
    hide Valid, Moved, IsCurrent, SideOf, CardInv, Progress, CardOf, StateAt;
    var m0 := m.(preparing := m.preparing - multiset{k});
    var (m1, ok) := Moved(m0, k, state, None, None, fate);
    MovedCard(model, m0, k, state, None, None, fate, k);
    JobsAfter(m, m0, k);
    JobsAfter(m1, m1.(futures := m.futures + multiset{k}), k);
    CardJobs(m, k);
    CardJobs(m1, k);
    CardState(m, k);
    PreparedCard(CardOf(m, k), CardOf(m1, k), state, ok, IsCurrent(m.ledger, k));
  }

  /** The three ways a card leaves preparation with a checkpoint. */
  lemma PreparedKeeps(model: string -> bool, m: Machine, k: CardKey, state: ItemState, fate: Fate, x: CardKey)
    requires BothValid(model, m) && CardInv(CardOf(m, x)) && k in m.preparing
    requires StateAt(m.ledger.items, k) != Some(Discarded) && state in {Queued, QueueSession.Failed, Analyzing}
    ensures var (m1, ok) := Moved(m.(preparing := m.preparing - multiset{k}), k, state, None, None, fate);
            && BothValid(model, m1) && Evolves(CardOf(m, x), CardOf(m1, x))
            && (ok && state == Analyzing ==> Evolves(CardOf(m, x), CardOf(m1.(futures := m.futures + multiset{k}), x)))
  {
    hide Valid, Moved, CardInv, Progress, CardOf, StateAt;
    if x == k {
      PreparedHere(model, m, k, state, fate);
    } else {
      var m0 := m.(preparing := m.preparing - multiset{k});
      var m1 := Moved(m0, k, state, None, None, fate).0;
      MovedShape(m0, k, state, None, None, fate);
      MovedElsewhere(model, m, m0, m1, k, state, None, None, fate, x);
      MovedElsewhere(model, m, m0, m1.(futures := m.futures + multiset{k}), k, state, None, None, fate, x);
    }
  }

  lemma RestoreKeeps(model: string -> bool, m: Machine, k: CardKey, fate: Fate, failing: Fate, x: CardKey)
    requires BothValid(model, m) && CardInv(CardOf(m, x))
    ensures var m1 := RestoreStep(m, k, fate, failing);
            BothValid(model, m1) && Evolves(CardOf(m, x), CardOf(m1, x))
  {
    hide Valid, Moved, CardInv, Progress, CardOf, StateAt, IsCurrent;
    BystanderKeeps(CardOf(m, x), CardOf(m, x));
    if k in m.preparing {
      if !IsCurrent(m.ledger, k) || StateAt(m.ledger.items, k) != Some(Preparing) {
        LeavesKeeps(model, m, k, false, x);
      } else {
        PreparedKeeps(model, m, k, Queued, fate, x);
        var (m2, ok) := Moved(m.(preparing := m.preparing - multiset{k}), k, Queued, None, None, fate);
        if !ok {
          UnrestoredKeeps(model, m, k, fate, failing, x);
        }
      }
    }
  }

  lemma UnrestoredCard(c: Card, c1: Card, c2: Card, ok1: bool, ok2: bool, current1: bool, current2: bool)
    requires CardInv(c) && c.jobs.preparing > 0 && c.mem.state == Some(Preparing)
    requires Checkpointed(c.(jobs := Less(c.jobs, 0, 0, 0, 1, 0)), c1, ok1, current1, true, Queued)
    requires Checkpointed(c1, c2, ok2, current2, true, QueueSession.Failed)
    ensures Evolves(c, c2)
  {
  }

  /** A card that could not be put back fails. */
  lemma UnrestoredKeeps(model: string -> bool, m: Machine, k: CardKey, fate: Fate, failing: Fate, x: CardKey)
    requires BothValid(model, m) && CardInv(CardOf(m, x)) && k in m.preparing
    requires StateAt(m.ledger.items, k) == Some(Preparing)
    ensures var m1 := Moved(m.(preparing := m.preparing - multiset{k}), k, Queued, None, None, fate).0;
            var m2 := Moved(m1, k, QueueSession.Failed, None, None, failing).0;
            BothValid(model, m2) && Evolves(CardOf(m, x), CardOf(m2, x))
  {
    hide Valid, Moved, IsCurrent, SideOf, CardInv, Progress, CardOf, StateAt;
    var m0 := m.(preparing := m.preparing - multiset{k});
    var (m1, ok1) := Moved(m0, k, Queued, None, None, fate);
    var (m2, ok2) := Moved(m1, k, QueueSession.Failed, None, None, failing);
    MovedCard(model, m0, k, Queued, None, None, fate, x);
    MovedCard(model, m1, k, QueueSession.Failed, None, None, failing, x);
    if x == k {
      JobsAfter(m, m0, k);
      CardJobs(m, k);
      CardState(m, k);
      UnrestoredCard(CardOf(m, k), CardOf(m1, k), CardOf(m2, k), ok1, ok2, IsCurrent(m0.ledger, k), IsCurrent(m1.ledger, k));
    } else {
      MovedElsewhere(model, m, m0, m1, k, Queued, None, None, fate, x);
      MovedElsewhere(model, m1, m1, m2, k, QueueSession.Failed, None, None, failing, x);
      EvolvesTransitive(CardOf(m, x), CardOf(m1, x), CardOf(m2, x));
    }
  }

  lemma RefusedCard(c: Card)
    requires CardInv(c) && c.jobs.submitted > 0
    ensures Evolves(c, c.(jobs := Less(c.jobs, 1, 0, 0, 0, 0).(aborted := c.jobs.aborted + 1)))
  {
  }

  lemma RefuseSavingKeeps(model: string -> bool, m: Machine, k: CardKey, x: CardKey)
    requires BothValid(model, m) && CardInv(CardOf(m, x))
    ensures var m1 := RefuseSavingStep(m, k);
            BothValid(model, m1) && Evolves(CardOf(m, x), CardOf(m1, x))
  {
    hide Valid, SideOf, CardInv, Progress, CardOf;
    BystanderKeeps(CardOf(m, x), CardOf(m, x));
    var m1 := RefuseSavingStep(m, k);
    JobsAfter(m, m1, x);
    CardJobs(m, x);
    if k in m.submitted && x == k {
      RefusedCard(CardOf(m, k));
    }
  }

  lemma FailKeeps(model: string -> bool, m: Machine, k: CardKey, fate: Fate, x: CardKey)
    requires BothValid(model, m) && CardInv(CardOf(m, x))
    ensures var m1 := FailStep(m, k, fate);
            BothValid(model, m1) && Evolves(CardOf(m, x), CardOf(m1, x))
  {
    hide Valid, Moved, CardInv, Progress, CardOf, StateAt, IsCurrent;
    BystanderKeeps(CardOf(m, x), CardOf(m, x));
    if k in m.preparing {
      if Settled(m.ledger, k) {
        LeavesKeeps(model, m, k, false, x);
      } else {
        PreparedKeeps(model, m, k, QueueSession.Failed, fate, x);
      }
    }
  }

  lemma SubmitKeeps(model: string -> bool, m: Machine, k: CardKey, fate: Fate, x: CardKey)
    requires BothValid(model, m) && CardInv(CardOf(m, x))
    ensures var m1 := SubmitStep(m, k, fate);
            BothValid(model, m1) && Evolves(CardOf(m, x), CardOf(m1, x))
  {
    hide Valid, Moved, CardInv, Progress, CardOf, StateAt, IsCurrent;
    BystanderKeeps(CardOf(m, x), CardOf(m, x));
    if k in m.preparing {
      if Settled(m.ledger, k) {
        LeavesKeeps(model, m, k, true, x);
      } else {
        MovedShape(m.(preparing := m.preparing - multiset{k}), k, Analyzing, None, None, fate);
        PreparedKeeps(model, m, k, Analyzing, fate, x);
      }
    }
  }

  /** An analysis reports on a card nothing else holds. */
  lemma ReportedCard(c: Card, c1: Card, state: ItemState, ok: bool, current: bool)
    requires CardInv(c) && c.jobs.futures > 0 && c.mem.state != Some(Discarded)
    requires state in {QueueSession.Failed, Validating}
    requires Checkpointed(c.(jobs := Less(c.jobs, 0, 0, 0, 0, 1)), c1, ok, current, true, state)
    ensures Evolves(c, c1) && (ok ==> Idle(c1.jobs) && c1.mem.state == Some(state) && c1.mem.persists == 0)
  {
  }

  predicate Idle(j: Jobs) { j.submitted + j.aborted + j.running + j.preparing + j.futures == 0 }

  lemma ConcludedCard(c: Card, c1: Card, state: ItemState, ok: bool, current: bool)
    requires CardInv(c) && Idle(c.jobs) && c.mem.state == Some(Validating) && state in {Ready, QueueSession.Failed}
    requires Checkpointed(c, c1, ok, current, true, state)
    ensures Evolves(c, c1)
  {
  }

  lemma FirstReport(model: string -> bool, m: Machine, k: CardKey, state: ItemState, fate: Fate, x: CardKey)
    requires BothValid(model, m) && CardInv(CardOf(m, x)) && k in m.futures
    requires StateAt(m.ledger.items, k) != Some(Discarded) && state in {QueueSession.Failed, Validating}
    ensures var (m1, ok) := Moved(m.(futures := m.futures - multiset{k}), k, state, None, None, fate);
            && BothValid(model, m1) && Evolves(CardOf(m, x), CardOf(m1, x))
            && (ok && x == k ==> Idle(CardOf(m1, k).jobs) && CardOf(m1, k).mem.state == Some(state))
  {
    hide Valid, Moved, IsCurrent, SideOf, CardInv, Progress, CardOf, StateAt;
    var m0 := m.(futures := m.futures - multiset{k});
    var (m1, ok) := Moved(m0, k, state, None, None, fate);
    MovedShape(m0, k, state, None, None, fate);
    if x == k {
      MovedCard(model, m0, k, state, None, None, fate, k);
      JobsAfter(m, m0, k);
      CardJobs(m, k);
      CardState(m, k);
      ReportedCard(CardOf(m, k), CardOf(m1, k), state, ok, IsCurrent(m.ledger, k));
    } else {
      MovedElsewhere(model, m, m0, m1, k, state, None, None, fate, x);
    }
  }

  lemma SecondReport(model: string -> bool, m: Machine, k: CardKey, state: ItemState, source: Id, fate: Fate, x: CardKey)
    requires BothValid(model, m) && CardInv(CardOf(m, x)) && state in {Ready, QueueSession.Failed}
    requires x == k ==> Idle(CardOf(m, k).jobs) && CardOf(m, k).mem.state == Some(Validating)
    ensures var m1 := Moved(m, k, state, Some(source), None, fate).0;
            BothValid(model, m1) && Evolves(CardOf(m, x), CardOf(m1, x))
  {
    hide Valid, Moved, IsCurrent, SideOf, CardInv, Progress, CardOf;
    var (m1, ok) := Moved(m, k, state, Some(source), None, fate);
    MovedShape(m, k, state, Some(source), None, fate);
    if x == k {
      MovedCard(model, m, k, state, Some(source), None, fate, k);
      ConcludedCard(CardOf(m, k), CardOf(m1, k), state, ok, IsCurrent(m.ledger, k));
    } else {
      MovedElsewhere(model, m, m, m1, k, state, Some(source), None, fate, x);
    }
  }

  lemma LateReport(model: string -> bool, m: Machine, k: CardKey, x: CardKey)
    requires BothValid(model, m) && CardInv(CardOf(m, x)) && k in m.futures
    ensures Evolves(CardOf(m, x), CardOf(m.(futures := m.futures - multiset{k}), x))
  {
    JobsAfter(m, m.(futures := m.futures - multiset{k}), x);
    hide SideOf;
  }

  lemma ManifestsImmaterial(m: Machine, manifests: set<CardKey>, x: CardKey)
    ensures CardOf(m.(manifests := manifests), x) == CardOf(m, x)
  {
    hide SideOf;
  }

  lemma AnalysisKeeps(model: string -> bool, m: Machine, k: CardKey, result: Analysis, validating: Fate, fate: Fate, x: CardKey)
    requires BothValid(model, m) && CardInv(CardOf(m, x))
    ensures var m1 := AnalysisStep(m, k, result, validating, fate);
            BothValid(model, m1) && Evolves(CardOf(m, x), CardOf(m1, x))
  {
    hide Valid, Moved, CardInv, Progress, CardOf, StateAt, IsCurrent;
    BystanderKeeps(CardOf(m, x), CardOf(m, x));
    if k in m.futures {
      if Settled(m.ledger, k) {
        LateReport(model, m, k, x);
      } else if result.Raised? {
        FirstReport(model, m, k, QueueSession.Failed, fate, x);
      } else {
        var (m2, ok) := Moved(m.(futures := m.futures - multiset{k}), k, Validating, None, None, validating);
        FirstReport(model, m, k, Validating, validating, x);
        if ok {
          var m3 := m2.(manifests := m.manifests + {k});
          ManifestsImmaterial(m2, m.manifests + {k}, x);
          ManifestsImmaterial(m2, m.manifests + {k}, k);
          var state := if result.failed then QueueSession.Failed else Ready;
          SecondReport(model, m3, k, state, result.source, fate, x);
          EvolvesTransitive(CardOf(m, x), CardOf(m2, x), CardOf(Moved(m3, k, state, Some(result.source), None, fate).0, x));
        }
      }
    }
  }

  // ------------------------------------------------------------ the remaining events

  lemma AddedSide(model: string -> bool, s: Ledger, id: Id, x: CardKey)
    requires Valid(model, s)
    ensures var after := Enqueue(s, id, None, Discovered).0;
            var side, side1 := SideOf(s, x), SideOf(after, x);
            && Valid(model, after)
            && (side1 == side
                || (x == (id, 1) && side.state.None? && !side.superseded && side1 == side.(state := Some(Discovered)))
                || (Next(x) == (id, 1) && side.state.None? && side1 == side.(superseded := true)))
  {
    ValidHasItems(model, s);
    EnqueueValid(model, s, id, None, Discovered);
    EnqueueMoves(s, id, Discovered, x);
    EnqueueMoves(s, id, Discovered, Next(x));
    hide Valid, Enqueue, StateAt, Persists, ValidItems, Distinct;
  }

  lemma AddedCard(c: Card, side: Side, written: bool)
    requires CardInv(c)
    requires || side == c.mem
             || (c.mem.state.None? && !c.mem.superseded && side == c.mem.(state := Some(Discovered)))
             || (c.mem.state.None? && side == c.mem.(superseded := true))
    ensures Evolves(c, Card(side, if written then side else c.disk, c.jobs))
  {
  }

  lemma AddKeeps(model: string -> bool, m: Machine, id: Id, fate: Fate, x: CardKey)
    requires BothValid(model, m) && CardInv(CardOf(m, x))
    ensures var m1 := AddStep(m, id, fate);
            BothValid(model, m1) && Evolves(CardOf(m, x), CardOf(m1, x))
  {
    hide Valid, Enqueue, SideOf, CardInv, Progress, JobsOf;
    var after := Enqueue(m.ledger, id, None, Discovered).0;
    var m1 := m.(ledger := after);
    AddedSide(model, m.ledger, id, x);
    SameJobs(m, after, m.disk, x);
    SameJobs(m, after, after, x);
    CandidatesImmaterial(m1, m.candidates + {(id, 1)}, fate, x);
    AddedCard(CardOf(m, x), SideOf(after, x), true);
    AddedCard(CardOf(m, x), SideOf(after, x), false);
  }

  lemma ControlKeeps(model: string -> bool, m: Machine, after: Ledger, reply: Reply, fate: Fate, x: CardKey)
    requires BothValid(model, m) && CardInv(CardOf(m, x))
    requires Valid(model, after) && after.items == m.ledger.items && after.decisions == m.ledger.decisions
    ensures var m1 := ControlStep(m, (after, reply), fate);
            BothValid(model, m1) && Evolves(CardOf(m, x), CardOf(m1, x))
  {
    hide Valid, CardInv, Progress, JobsOf, StateAt, Persists;
    var m1 := ControlStep(m, (after, reply), fate);
    SameJobs(m, m1.ledger, m1.disk, x);
    BystanderKeeps(CardOf(m, x), CardOf(m1, x));
  }

  lemma RewriteKeeps(model: string -> bool, m: Machine, fate: Fate, x: CardKey)
    requires BothValid(model, m) && CardInv(CardOf(m, x))
    ensures BothValid(model, Saved(m, fate)) && Evolves(CardOf(m, x), CardOf(Saved(m, fate), x))
  {
    hide Valid, CardInv, Progress, CardOf;
    SavedCard(m, fate, x);
    BystanderKeeps(CardOf(m, x), CardOf(Saved(m, fate), x));
  }

  // ------------------------------------------------------------- crash and recovery

  lemma CrashedCard(m: Machine, x: CardKey)
    requires CardInv(CardOf(m, x))
    ensures CardInv(CardOf(CrashStep(m), x))
  {
    hide StateAt, Persists;
  }

  lemma CrashKeeps(model: string -> bool, m: Machine)
    requires Inv(model, m)
    ensures Inv(model, CrashStep(m))
  {
    hide Valid, CardOf, CardInv, Progress;
    forall x ensures CardInv(CardOf(CrashStep(m), x)) {
      CrashedCard(m, x);
    }
  }

  /** What recovery reads a card as. */
  function RecoveredSide(s: Side, broken: bool): Side {
    if s.state.Some? && !s.superseded then s.(state := Some(RecoveredState(s.state.value, broken))) else s
  }

  lemma RecoveredLedgerSide(model: string -> bool, s: Ledger, broken: set<CardKey>, x: CardKey)
    requires Valid(model, s) && RecoverFrom(s, 0, broken).Some?
    ensures Valid(model, RecoverFrom(s, 0, broken).value)
    ensures SideOf(RecoverFrom(s, 0, broken).value, x) == RecoveredSide(SideOf(s, x), x in broken)
  {
    RecoveredExactly(model, s, 0, broken, x);
    RecoveredExactly(model, s, 0, broken, Next(x));
    ValidHasItems(model, s);
    CurrentIffNotSuperseded(s, x);
    hide Valid, StateAt, Persists, RecoverFrom, ValidItems, Distinct, RecoveredState, CurrentIndex;
  }

  /** Recovery keeps history and settled cards, and turns an interrupted write into an uncertain one. */
  lemma RecoveredCard(model: string -> bool, m: Machine, broken: set<CardKey>, manifests: set<CardKey>,
                      candidates: set<CardKey>, x: CardKey)
    requires Valid(model, m.ledger) && Valid(model, m.disk) && m == CrashStep(m)
    ensures var m1 := RecoverStep(m, broken, manifests, candidates);
            && Valid(model, m1.ledger) && m1.disk == m.disk && (!m1.up ==> m1 == m)
            && (m1.up ==> CardOf(m1, x) == CardOf(m, x).(mem := RecoveredSide(CardOf(m, x).mem, x in broken)))
  {
    hide Valid, SideOf, RecoverFrom, JobsOf, RecoveredSide;
    var (resumed, reply) := SetState(m.disk, m.disk.revision, Running);
    ResumedValid(model, m.disk);
    SideOfItems(m.disk, resumed, x);
    if RecoverFrom(resumed, 0, broken).Some? {
      RecoveredLedgerSide(model, resumed, broken, x);
      var ledger := RecoverFrom(resumed, 0, broken).value;
      RecoveredJobs(m, ledger, manifests, candidates, x);
    }
  }

  lemma ResumedValid(model: string -> bool, s: Ledger)
    requires Valid(model, s)
    ensures Valid(model, SetState(s, s.revision, Running).0)
    ensures SetState(s, s.revision, Running).0.items == s.items
    ensures SetState(s, s.revision, Running).0.decisions == s.decisions
  {
    ControlsValid(model, s, s.revision, Running, s.config);
    hide Valid;
  }

  lemma SideOfItems(s: Ledger, t: Ledger, x: CardKey)
    requires s.items == t.items && s.decisions == t.decisions
    ensures SideOf(s, x) == SideOf(t, x)
  {
  }

  lemma RecoveredJobs(m: Machine, ledger: Ledger, manifests: set<CardKey>, candidates: set<CardKey>, x: CardKey)
    ensures var m1 := m.(up := true, ledger := ledger, manifests := manifests, candidates := candidates);
            CardOf(m1, x) == CardOf(m, x).(mem := SideOf(ledger, x))
  {
    hide SideOf;
  }

  lemma RecoveredCardKept(c: Card, broken: bool)
    requires CardInv(c) && c.disk == c.mem && Idle(c.jobs)
    ensures CardInv(c.(mem := RecoveredSide(c.mem, broken)))
  {
  }

  lemma StoppedIsIdle(m: Machine, x: CardKey)
    requires m == CrashStep(m)
    ensures Idle(CardOf(m, x).jobs) && CardOf(m, x).disk == CardOf(m, x).mem
  {
    hide StateAt, Persists;
  }

  lemma RecoverKeeps(model: string -> bool, m: Machine, broken: set<CardKey>, manifests: set<CardKey>,
                     candidates: set<CardKey>)
    requires Inv(model, m)
    ensures Inv(model, RecoverStep(m, broken, manifests, candidates))
  {
    hide Valid, CardOf, CardInv, Progress, CrashStep;
    if !m.up {
      var m1 := RecoverStep(m, broken, manifests, candidates);
      RecoveredCard(model, m, broken, manifests, candidates, ("", 0));
      forall x ensures CardInv(CardOf(m1, x)) {
        RecoveredCard(model, m, broken, manifests, candidates, x);
        StoppedIsIdle(m, x);
        RecoveredCardKept(CardOf(m, x), x in broken);
      }
    }
  }

  // ------------------------------------------------------------------ every run

  lemma ActKeeps(model: string -> bool, m: Machine, e: Event, x: CardKey)
    requires Inv(model, m) && m.up
    ensures BothValid(model, Act(model, m, e)) && Evolves(CardOf(m, x), CardOf(Act(model, m, e), x))
  {
    hide Valid, CardOf, CardInv, Progress, PersistStep, RefuseSavingStep, StartSavingStep, FinishSavingStep, DiscardStep, RescanStep, PickStep,
      RestoreStep, FailStep, SubmitStep, AnalysisStep, AddStep, ControlStep, Saved;
    BystanderKeeps(CardOf(m, x), CardOf(m, x));
    assert CardInv(CardOf(m, x));
    match e
    case PersistEvent(d, fate) => PersistKeeps(model, m, d, fate, x);
    case RefuseSavingEvent(k) => RefuseSavingKeeps(model, m, k, x);
    case StartSavingEvent(k, fate) => StartSavingKeeps(model, m, k, fate, x);
    case FinishSavingEvent(k, verified, reviewed, manifest, fate) =>
      FinishSavingKeeps(model, m, k, verified, reviewed, manifest, fate, x);
    case DiscardEvent(d, fate) => DiscardKeeps(model, m, d, fate, x);
    case RescanEvent(d, fate) => RescanKeeps(model, m, d, fate, x);
    case PickEvent(k, kept, fate) => PickKeeps(model, m, k, kept, fate, x);
    case RestoreEvent(k, fate, failing) => RestoreKeeps(model, m, k, fate, failing, x);
    case FailEvent(k, fate) => FailKeeps(model, m, k, fate, x);
    case SubmitEvent(k, fate) => SubmitKeeps(model, m, k, fate, x);
    case DropEvent(k) => DropKeeps(model, m, k, x);
    case AnalysisEvent(k, result, validating, fate) => AnalysisKeeps(model, m, k, result, validating, fate, x);
    case AddEvent(id, fate) => AddKeeps(model, m, id, fate, x);
    case ControlEvent(expected, state, fate) =>
      ControlledLedger(model, m.ledger, expected, state, m.ledger.config);
      var (after, reply) := SetState(m.ledger, expected, state);
      ControlKeeps(model, m, after, reply, fate, x);
    case ConfigEvent(expected, config, fate) =>
      ControlledLedger(model, m.ledger, expected, m.ledger.state, config);
      var (after, reply) := UpdateConfig(model, m.ledger, expected, config);
      ControlKeeps(model, m, after, reply, fate, x);
    case RewriteEvent(fate) => RewriteKeeps(model, m, fate, x);
    case _ =>
  }

  lemma ControlledLedger(model: string -> bool, s: Ledger, expected: int, state: SessionState, config: Config)
    requires Valid(model, s)
    ensures Valid(model, SetState(s, expected, state).0) && Valid(model, UpdateConfig(model, s, expected, config).0)
    ensures SetState(s, expected, state).0.items == s.items && SetState(s, expected, state).0.decisions == s.decisions
    ensures UpdateConfig(model, s, expected, config).0.items == s.items
    ensures UpdateConfig(model, s, expected, config).0.decisions == s.decisions
  {
    ControlsValid(model, s, expected, state, config);
    hide Valid, ValidConfig;
  }

  lemma DropKeeps(model: string -> bool, m: Machine, k: CardKey, x: CardKey)
    requires BothValid(model, m) && CardInv(CardOf(m, x))
    ensures var m1 := m.(preparing := m.preparing - multiset{k});
            BothValid(model, m1) && Evolves(CardOf(m, x), CardOf(m1, x))
  {
    hide Valid, CardInv, Progress, CardOf;
    if k in m.preparing {
      LeavesKeeps(model, m, k, false, x);
    } else {
      assert m.preparing - multiset{k} == m.preparing;
      BystanderKeeps(CardOf(m, x), CardOf(m, x));
    }
  }

  lemma StepKeeps(model: string -> bool, m: Machine, e: Event)
    requires Inv(model, m)
    ensures Inv(model, Step(model, m, e))
  {
    hide Valid, CardOf, CardInv, Progress, Act, RecoverStep;
    if e.CrashEvent? {
      CrashKeeps(model, m);
    } else if e.RecoverEvent? {
      RecoverKeeps(model, m, e.broken, e.manifests, e.candidates);
    } else if m.up {
      forall x ensures CardInv(CardOf(Act(model, m, e), x)) {
        ActKeeps(model, m, e, x);
      }
      ActKeeps(model, m, e, ("", 0));
    }
  }

  lemma {:induction false} RunKeeps(model: string -> bool, m: Machine, events: seq<Event>)
    requires Inv(model, m)
    ensures Inv(model, QueueCoordinator.After(model, m, events))
    decreases |events|
  {
    hide Inv, Step;
    if events != [] {
      StepKeeps(model, m, events[0]);
      RunKeeps(model, Step(model, m, events[0]), events[1..]);
    }
  }

  /** A new session, empty and valid, is where every run starts. */
  lemma CreatedHolds(model: string -> bool, s: Ledger)
    requires Valid(model, s) && s.items == [] && s.decisions == []
    ensures Inv(model, Created(s))
  {
    hide Valid;
  }
}
