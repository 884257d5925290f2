/** One campaign's store: every public mutation as a function on (disk, memory), and the class
    whose methods perform it. Each function takes the operating system's answers as `Fates`. */
module CampaignStore {
  import opened Wrappers
  import opened CampaignEvidence

  /** campaign.json together with the snapshot totals: fixed for the life of the campaign. */
  datatype Campaign = Campaign(id: Id, settings: Settings, total: nat, photoCount: nat)

  datatype Memory = Memory(
    checkpoint: Checkpoint, inFlight: set<nat>, authorization: Option<Id>, failure: Option<Reason>)

  /** `saved` is checkpoint.json, `mem` what the running helper believes. */
  datatype Store = Store(files: Files, saved: Option<Checkpoint>, mem: Memory)

  /** `Refused` is a validation error: it leaves admission alone. `Failed` is a storage error:
      every public mutation turns it into `FailClosed`. `BadManifest` is neither. */
  datatype Reply = Accepted | Replayed | Refused | Failed | BadManifest

  function InitialCheckpoint(c: Campaign): Checkpoint {
    Checkpoint(0, Paused, NoReason, 0, 0, 0, 0, 0, c.total, 0)
  }

  // ------------------------------------------------------- checkpoint publication

  /** The stamp every checkpoint publication puts on the changed record. */
  function Stamped(c: Campaign, inFlight: set<nat>, changed: Checkpoint): Checkpoint {
    changed.(revision := changed.revision + 1,
             remaining := c.total - changed.Settled(),
             inFlight := |inFlight|)
  }

  function CheckpointState(c: Campaign, s: Store, changed: Checkpoint, fate: Fate): (r: (Store, Reply)) {
    if changed.revision >= MAX_COUNTER then (s, Refused)
    else
      var value := Stamped(c, s.mem.inFlight, changed);
      match fate
      case Lost => (s, Failed)
      case Torn => (s.(saved := Some(value)), Failed)
      case Done => (s.(saved := Some(value), mem := s.mem.(checkpoint := value)), Accepted)
  }

  function DrainPhase(inFlight: set<nat>): Phase {
    if inFlight != {} then Pausing else Paused
  }

  /** Closes admission first; the checkpoint that records it may fail. */
  function FailClosed(c: Campaign, s: Store, reason: Reason, fate: Fate): Store {
    var closed := s.(mem := s.mem.(authorization := None, failure := Some(reason)));
    var (next, reply) := CheckpointState(c, closed,
      closed.mem.checkpoint.(phase := DrainPhase(closed.mem.inFlight), reason := reason), fate);
    if reply == Accepted then next
    else next.(mem := next.mem.(
      failure := Some(Storage),
      checkpoint := next.mem.checkpoint.(phase := Paused, reason := Storage)))
  }

  /** The boundary of a public mutation: a storage failure revokes admission. */
  function Guarded(c: Campaign, result: (Store, Reply), fate: Fate): (Store, Reply) {
    if result.1 == Failed then (FailClosed(c, result.0, Storage, fate), Failed) else result
  }

  // ------------------------------------------------------------------- controls

  predicate ControlFieldsMatch(c: Campaign, request: Control) {
    && request.campaign == c.id
    && (request.command == StartCampaign <==> request.settings.Some?)
    && (request.settings.Some? ==> request.settings.value == c.settings)
  }

  function RecordControl(c: Campaign, s: Store, request: Control, fates: Fates): (Store, Reply) {
    if !ControlFieldsMatch(c, request) then (s, Refused)
    else if request.decision in s.files.controls then
      if !fates.readable then (s, Failed)
      else if s.files.controls[request.decision] != request then (s, Refused)
      else (s, Replayed)
    else
      var (controls, ok) := Publish(s.files.controls, request.decision, request, fates.control);
      (s.(files := s.files.(controls := controls)), if ok then Accepted else Failed)
  }

  function AuthorizeBody(c: Campaign, s: Store, request: Control, fates: Fates): (Store, Reply) {
    if request.command == PauseCampaign then (s, Refused)
    else
      var (s1, control) := RecordControl(c, s, request, fates);
      if control != Accepted then (s1, control)
      else
        var (authorizations, ok) :=
          Publish(s1.files.authorizations, request.decision, request.command, fates.evidence);
        var s2 := s1.(files := s1.files.(authorizations := authorizations));
        if !ok then (s2, Failed)
        else
          var (s3, reply) := CheckpointState(c, s2,
            s2.mem.checkpoint.(phase := Running, reason := NoReason), fates.checkpoint);
          if reply != Accepted then (s3, reply)
          else (s3.(mem := s3.mem.(failure := None, authorization := Some(request.decision))), Accepted)
  }

  function Authorize(c: Campaign, s: Store, request: Control, fates: Fates): (Store, Reply) {
    Guarded(c, AuthorizeBody(c, s, request, fates), fates.closing)
  }

  function PauseBody(c: Campaign, s: Store, request: Control, fates: Fates): (Store, Reply) {
    if request.command != PauseCampaign then (s, Refused)
    else
      var closed := s.(mem := s.mem.(authorization := None));
      var (s1, control) := RecordControl(c, closed, request, fates);
      if control == Refused || control == Failed then (s1, control)
      else CheckpointState(c, s1,
             s1.mem.checkpoint.(phase := DrainPhase(s1.mem.inFlight), reason := UserPause), fates.checkpoint)
  }

  function Pause(c: Campaign, s: Store, request: Control, fates: Fates): (Store, Reply) {
    Guarded(c, PauseBody(c, s, request, fates), fates.closing)
  }

  // ------------------------------------------------------------------ positions

  function MarkExaminedBody(c: Campaign, s: Store, position: nat, fates: Fates): (Store, Reply) {
    if position >= c.total then (s, Refused)
    else if position in s.mem.inFlight then (s, Accepted)
    else if |s.mem.inFlight| >= c.photoCount then (s, Refused)
    else if position in s.files.outcomes then (s, Refused)
    else if !fates.readable then (s, Failed)
    else
      var isNew := position !in s.files.examined;
      var files := if isNew && fates.evidence != Lost
                  then s.files.(examined := s.files.examined + {position}) else s.files;
      if isNew && fates.evidence != Done then (s.(files := files), Failed)
      else
        var mem := s.mem.(inFlight := s.mem.inFlight + {position});
        CheckpointState(c, Store(files, s.saved, mem),
          mem.checkpoint.(examined := mem.checkpoint.examined + if isNew then 1 else 0), fates.checkpoint)
  }

  function MarkExamined(c: Campaign, s: Store, position: nat, fates: Fates): (Store, Reply) {
    Guarded(c, MarkExaminedBody(c, s, position, fates), fates.closing)
  }

  /** The last settlement of a campaign nothing has failed in closes admission for good. */
  predicate LastSettlement(mem: Memory, position: nat) {
    mem.failure.None? && mem.checkpoint.remaining - 1 == 0 && mem.inFlight - {position} == {}
  }

  function SettledMemory(mem: Memory, position: nat): Memory {
    mem.(inFlight := mem.inFlight - {position},
         authorization := if LastSettlement(mem, position) then None else mem.authorization)
  }

  function SettledCheckpoint(mem: Memory, position: nat, outcome: Outcome): Checkpoint {
    var counted := mem.checkpoint.Bump(outcome);
    var inFlight := mem.inFlight - {position};
    if mem.failure.Some? then counted.(phase := DrainPhase(inFlight), reason := mem.failure.value)
    else if LastSettlement(mem, position) then counted.(phase := Completed, reason := NoReason)
    else if counted.phase == Pausing && inFlight == {} then counted.(phase := Paused)
    else counted
  }

  function SettleBody(c: Campaign, s: Store, position: nat, value: Settlement, fates: Fates): (Store, Reply) {
    if position >= c.total then (s, Refused)
    else if !fates.readable || position !in s.files.examined then (s, Failed)
    else if position in s.files.outcomes then
      (s, if s.files.outcomes[position] == value then Accepted else Refused)
    else
      var (outcomes, ok) := Publish(s.files.outcomes, position, value, fates.evidence);
      var files := s.files.(outcomes := outcomes);
      if !ok then (s.(files := files), Failed)
      else CheckpointState(c, Store(files, s.saved, SettledMemory(s.mem, position)),
                           SettledCheckpoint(s.mem, position, value.outcome), fates.checkpoint)
  }

  function Settle(c: Campaign, s: Store, position: nat, value: Settlement, fates: Fates): (Store, Reply) {
    Guarded(c, SettleBody(c, s, position, value, fates), fates.closing)
  }

  function ReleaseBody(c: Campaign, s: Store, position: nat, fates: Fates): (Store, Reply) {
    var mem := s.mem.(inFlight := s.mem.inFlight - {position});
    var changed := if mem.checkpoint.phase == Pausing && mem.inFlight == {}
                   then mem.checkpoint.(phase := Paused) else mem.checkpoint;
    CheckpointState(c, s.(mem := mem), changed, fates.checkpoint)
  }

  function Release(c: Campaign, s: Store, position: nat, fates: Fates): (Store, Reply) {
    Guarded(c, ReleaseBody(c, s, position, fates), fates.closing)
  }

  /** What loading the one-photo source manifest yields. */
  datatype SourceLoad = OutsideRuns | Unavailable | WrongIdentity | Loaded(source: Source)

  function RecordAnalysisBody(c: Campaign, s: Store, position: nat, load: SourceLoad, fates: Fates): (Store, Reply) {
    if position >= c.total then (s, Refused)
    else if !fates.readable || position !in s.files.examined then (s, Failed)
    else match load
      case OutsideRuns => (s, Refused)
      case Unavailable => (s, Failed)
      case WrongIdentity => (s, BadManifest)
      case Loaded(source) =>
        if position in s.files.analyses then
          (s, if s.files.analyses[position] == source then Accepted else Failed)
        else
          var (analyses, ok) := Publish(s.files.analyses, position, source, fates.evidence);
          var s1 := s.(files := s.files.(analyses := analyses));
          if !ok then (s1, Failed)
          else CheckpointState(c, s1,
                 s1.mem.checkpoint.(analyzed := s1.mem.checkpoint.analyzed + 1), fates.checkpoint)
  }

  function RecordAnalysis(c: Campaign, s: Store, position: nat, load: SourceLoad, fates: Fates): (Store, Reply) {
    Guarded(c, RecordAnalysisBody(c, s, position, load, fates), fates.closing)
  }

  // -------------------------------------------------------------------- reopening

  /** Positions whose admission was published but whose outcome was not. */
  function Undecided(files: Files): set<nat> {
    set p | p in files.decisions && p in files.examined && p !in files.outcomes
  }

  /** How a reopening settles a position, when the runs of those in `blind` cannot be read. */
  function JudgedSettlement(files: Files, position: nat, blind: set<nat>): Settlement {
    ReadSettlement(files, position, if position in blind then RunUnreadable else ReceiptsRead)
  }

  /** Settles, from receipts alone, the admitted positions among `entries`. */
  function Reconciled(files: Files, entries: set<nat>, blind: set<nat>): Files {
    files.(outcomes := map p | p in files.outcomes.Keys + (Undecided(files) * entries) ::
      if p in files.outcomes then files.outcomes[p] else JudgedSettlement(files, p, blind))
  }

  function RebuiltCheckpoint(c: Campaign, files: Files, revision: nat): Checkpoint {
    var saved := |SettledAs(files.outcomes, Saved)|;
    var noChange := |SettledAs(files.outcomes, NoChange)|;
    var attention := |SettledAs(files.outcomes, Attention)|;
    Checkpoint(revision, Paused, Recovered, |files.examined|, |files.analyses.Keys|,
               saved, noChange, attention, c.total - saved - noChange - attention, 0)
  }

  /** The evidence `load` insists on: every position directory shows its admission, and every
      settled save is still backed by its receipts. */
  predicate EvidenceSound(files: Files) {
    && files.orphans <= files.examined
    && forall p :: p in files.outcomes && files.outcomes[p].outcome == Saved ==> RecoverDecision(files, p) == Saved
  }

  predicate Pristine(files: Files) {
    files.controls == map[] && files.authorizations == map[] && files.examined == {} && files.orphans == {}
  }

  /** The checkpoint a reopening starts from, if the campaign can be opened at all. */
  function OpeningCheckpoint(c: Campaign, s: Store): Option<Checkpoint> {
    if s.saved.Some? then s.saved
    else if Pristine(s.files) then Some(InitialCheckpoint(c))
    else None
  }

  predicate Loadable(c: Campaign, s: Store) {
    && OpeningCheckpoint(c, s).Some?
    && OpeningCheckpoint(c, s).value.revision < MAX_COUNTER
    && EvidenceSound(s.files)
  }

  /** A completed `load`: everything in memory comes from the evidence, nothing from the
      counters of the stale checkpoint. */
  function Reloaded(c: Campaign, s: Store, blind: set<nat>): Store
    requires Loadable(c, s)
  {
    var settled := Reconciled(s.files, s.files.examined, blind);
    var checkpoint := RebuiltCheckpoint(c, settled, OpeningCheckpoint(c, s).value.revision + 1);
    Store(settled, Some(checkpoint), Memory(checkpoint, {}, None, None))
  }

  /** `load_status` reads the checkpoint without replaying positions. */
  predicate StatusReadable(c: Campaign, s: Store) {
    match OpeningCheckpoint(c, s)
    case None => false
    case Some(checkpoint) =>
      && checkpoint.reason in {NoReason, Recovered, UserPause, Storage, Permission}
      && checkpoint.analyzed <= checkpoint.examined
      && checkpoint.Settled() + checkpoint.remaining == c.total
      && checkpoint.remaining >= 0
      && checkpoint.revision < MAX_COUNTER
  }

  /** What it shows: the checkpoint on disk as paused and recovered, with nothing in flight or authorized. */
  function ShownStore(c: Campaign, s: Store): Store
    requires StatusReadable(c, s)
  {
    var checkpoint := OpeningCheckpoint(c, s).value;
    var shown := checkpoint.(revision := checkpoint.revision + 1, phase := Paused, reason := Recovered);
    Store(s.files, Some(checkpoint), Memory(shown, {}, None, None))
  }
}
