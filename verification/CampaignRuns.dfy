/** Every interleaving of a campaign: the dispatcher's calls, the stages of the single apply
    gate, failed writes, crashes and reopenings. The theorems hold of every such run. */
module CampaignRuns {
  import opened Wrappers
  import opened CampaignEvidence
  import opened CampaignStore

  // --------------------------------------------------------------- the apply gate

  /** Where the one worker inside `_process` stands. Between two stages any other thread may act. */
  datatype Worker =
    | Idle
    | Analysing(position: nat)
    | Screening(position: nat, source: Source)
    | Reading(position: nat, source: Source)
    | Admitting(position: nat, source: Source, selection: Digest)
    | Admitted(position: nat, admission: Admission)
    | Reviewed(position: nat, admission: Admission, run: Id)
    | Linked(position: nat, admission: Admission, run: Id)
    | Applied(position: nat, admission: Admission, run: Id, exitClean: bool, codes: ResultCodes)

  /** What the error codes of an apply ask the store to do. */
  datatype ResultCodes = NoCodes | PermissionCodes | StorageCodes

  /** How the scanned row of the source manifest is judged. */
  datatype Screen = Unready(permission: bool) | BelowThreshold | Confident

  /** What reading the photo before admission shows. */
  datatype PhotoRead = Denied | Unreadable | OtherPhoto | NothingNew | Selection(selection: Digest)

  datatype ReviewResult = ReviewRaised | ReviewStorage | ReviewEscaped | ReviewedInto(run: Id, manifest: Run)

  /** What `apply_runner` does to the run and to its caller. */
  datatype ApplyResult = ApplyRaised | ApplyStorage | ApplyReturned(exitClean: bool, codes: ResultCodes)

  // ------------------------------------------------------------------ the system

  /** `up` says that a helper has loaded the store, `shown` that it has only read its status so far.
      `applied` counts, over all time, the calls of `apply_runner` for each position. */
  datatype System = System(store: Store, up: bool, shown: bool, worker: Worker, applied: multiset<nat>)

  datatype Event =
    // store mutations by the dispatcher and the control thread
    | AuthorizeEvent(request: Control, fates: Fates)
    | PauseEvent(request: Control, fates: Fates)
    | RevokeEvent
    | FailEvent(reason: Reason, fates: Fates)
    | ExamineEvent(position: nat, fates: Fates)
    | SourceEvent(position: nat, load: SourceLoad, fates: Fates)
    | AbandonEvent(position: nat, fates: Fates)
    | ReleaseEvent(position: nat, fates: Fates)
    | ManualDrainEvent(fates: Fates)
    | ActivationStoppedEvent(reason: Reason, fates: Fates)
    | DriveEndEvent(failure: Option<Reason>, revoked: bool, fates: Fates)
    | CatchUpEvent(revision: nat, fates: Fates)
    // stages of the gate
    | BeginEvent(position: nat, fates: Fates)
    | AnalyseEvent(load: SourceLoad, fates: Fates)
    | ScreenEvent(verdict: Screen, fates: Fates)
    | ReadEvent(read: PhotoRead, fates: Fates)
    | AdmitEvent(fates: Fates)
    | ReviewEvent(review: ReviewResult, fates: Fates)
    | LinkEvent(fates: Fates)
    | ApplyEvent(result: ApplyResult, row: Row, statusClean: bool, fates: Fates)
    | FinishEvent(fates: Fates)
    // the world outside
    | ManualRollbackEvent(run: Id, row: Row, statusClean: bool)
    | CrashEvent(orphan: Option<nat>)
    | StatusEvent
    | OpenEvent(entries: set<nat>, blind: set<nat>, fate: Fate)

  /** The steps of the worker inside `_process`, as opposed to those of the other threads. */
  predicate StageEvent(e: Event) {
    e.BeginEvent? || e.AnalyseEvent? || e.ScreenEvent? || e.ReadEvent? || e.AdmitEvent?
    || e.ReviewEvent? || e.LinkEvent? || e.ApplyEvent? || e.FinishEvent?
  }

  function WithStore(s: System, store: Store): System { s.(store := store) }

  /** `process` turns every campaign error into `fail_closed` and leaves the gate. */
  function GateFailed(c: Campaign, s: System, fates: Fates): System {
    s.(store := FailClosed(c, s.store, Storage, fates.last), worker := Idle)
  }

  /** Leaves the gate after a store mutation; once it went through, `then` may still close admission. */
  function GateLeft(c: Campaign, s: System, result: (Store, Reply), andThen: Option<Reason>, fates: Fates): System {
    var left := s.(store := result.0, worker := Idle);
    if result.1 != Accepted then GateFailed(c, left, fates)
    else match andThen
      case None => left
      case Some(reason) => left.(store := FailClosed(c, left.store, reason, fates.last))
  }

  function GateSettled(c: Campaign, s: System, position: nat, value: Settlement, fates: Fates): System {
    GateLeft(c, s, Settle(c, s.store, position, value, fates), None, fates)
  }

  function GateReleased(c: Campaign, s: System, position: nat, fates: Fates): System {
    GateLeft(c, s, Release(c, s.store, position, fates), None, fates)
  }

  function Begin(c: Campaign, s: System, position: nat, fates: Fates): System {
    if !s.worker.Idle? then s
    else if position >= c.total then GateFailed(c, s, fates)
    else if position in s.store.files.outcomes then
      // a settled save is re-read through its receipts; anything else is returned as it stands
      if !fates.readable
         || (s.store.files.outcomes[position].outcome == Saved
             && (fates.receipts != ReceiptsRead || RecoverDecision(s.store.files, position) != Saved))
      then GateFailed(c, s, fates) else s
    else if position in s.store.files.decisions then
      if fates.receipts == ReviewUnreadable && position in s.store.files.reviews then GateFailed(c, s, fates)
      else GateSettled(c, s, position, ReadSettlement(s.store.files, position, fates.receipts), fates)
    else s.(worker := Analysing(position))
  }

  function Analyse(c: Campaign, s: System, load: SourceLoad, fates: Fates): System {
    if !s.worker.Analysing? then s
    else
      var position := s.worker.position;
      var (store, reply) := RecordAnalysis(c, s.store, position, load, fates);
      var s1 := WithStore(s, store);
      match reply
      case BadManifest => GateSettled(c, s1, position, Settlement(Attention, Invalid), fates)
      case Accepted =>
        if load.Loaded? then s1.(worker := Screening(position, load.source)) else GateFailed(c, s1, fates)
      case _ => GateFailed(c, s1, fates)
  }

  function ScreenRow(c: Campaign, s: System, verdict: Screen, fates: Fates): System {
    if !s.worker.Screening? then s
    else
      var position := s.worker.position;
      match verdict
      case Unready(permission) =>
        GateLeft(c, s, Settle(c, s.store, position, Settlement(Attention, Invalid), fates),
                 if permission then Some(Permission) else None, fates)
      case BelowThreshold => GateSettled(c, s, position, Settlement(Attention, LowConfidence), fates)
      case Confident =>
        if s.store.mem.authorization.None? then GateReleased(c, s, position, fates)
        else s.(worker := Reading(position, s.worker.source))
  }

  function ReadPhoto(c: Campaign, s: System, read: PhotoRead, fates: Fates): System {
    if !s.worker.Reading? then s
    else
      var position := s.worker.position;
      match read
      case Denied =>
        GateLeft(c, s, Settle(c, s.store, position, Settlement(Attention, RunFailed), fates), Some(Permission), fates)
      case Unreadable => GateSettled(c, s, position, Settlement(Attention, RunFailed), fates)
      case OtherPhoto => GateSettled(c, s, position, Settlement(Attention, Invalid), fates)
      case NothingNew => GateSettled(c, s, position, Settlement(NoChange, Unexplained), fates)
      case Selection(selection) => s.(worker := Admitting(position, s.worker.source, selection))
  }

  /** The pause linearization point: the authorization is read and the decision published
      under one hold of the store lock. */
  function Admit(c: Campaign, s: System, fates: Fates): System {
    if !s.worker.Admitting? then s
    else
      var position := s.worker.position;
      match s.store.mem.authorization
      case None => GateReleased(c, s, position, fates)
      case Some(id) =>
        if !fates.readable || !AuthorizationSound(s.store.files, id) then GateFailed(c, s, fates)
        else
          var admission := Admission(id, s.worker.source, s.worker.selection);
          var (decisions, ok) := Publish(s.store.files.decisions, position, admission, fates.evidence);
          var s1 := WithStore(s, s.store.(files := s.store.files.(decisions := decisions)));
          if ok then s1.(worker := Admitted(position, admission)) else GateFailed(c, s1, fates)
  }

  function Review(c: Campaign, s: System, review: ReviewResult, fates: Fates): System {
    if !s.worker.Admitted? then s
    else
      var position := s.worker.position;
      match review
      case ReviewRaised => GateSettled(c, s, position, Settlement(Attention, Uncertain), fates)
      case ReviewStorage => GateFailed(c, s, fates)
      case ReviewEscaped => GateFailed(c, s, fates)
      case ReviewedInto(run, manifest) =>
        // a run directory the review creates has no link yet
        var runs := if run in s.store.files.runs then s.store.files.runs
                    else s.store.files.runs[run := manifest.(link := None)];
        var (reviews, ok) := Publish(s.store.files.reviews, position, run, fates.evidence);
        var s1 := WithStore(s, s.store.(files := s.store.files.(reviews := reviews, runs := runs)));
        if ok then s1.(worker := Reviewed(position, s.worker.admission, run)) else GateFailed(c, s1, fates)
  }

  /** Publishes the run's link and checks the whole chain before anything may be applied. */
  function LinkRun(c: Campaign, s: System, fates: Fates): System {
    if !s.worker.Reviewed? then s
    else
      var run := s.worker.run;
      if run !in s.store.files.runs || s.store.files.runs[run].link.Some? || fates.evidence == Lost
      then GateFailed(c, s, fates)
      else
        var linked := s.store.files.runs[run].(link := Some(Link(s.worker.position, s.worker.admission)));
        var s1 := WithStore(s, s.store.(files := s.store.files.(runs := s.store.files.runs[run := linked])));
        if fates.evidence == Done && fates.readable && RunProvenance(s1.store.files, run) == Proven
        then s1.(worker := Linked(s.worker.position, s.worker.admission, run))
        else GateFailed(c, s1, fates)
  }

  /** `apply_runner`: the only step that touches Photos. It rewrites the run's row as it likes. */
  function Apply(c: Campaign, s: System, result: ApplyResult, row: Row, statusClean: bool, fates: Fates): System {
    if !s.worker.Linked? || s.worker.run !in s.store.files.runs then s
    else
      var position, run := s.worker.position, s.worker.run;
      var written := s.store.files.runs[run].(statusClean := statusClean, row := row);
      var s1 := s.(store := s.store.(files := s.store.files.(runs := s.store.files.runs[run := written])),
                   applied := s.applied + multiset{position});
      match result
      case ApplyRaised => GateSettled(c, s1, position, Settlement(Attention, Uncertain), fates)
      case ApplyStorage => GateFailed(c, s1, fates)
      case ApplyReturned(exitClean, codes) =>
        s1.(worker := Applied(position, s.worker.admission, run, exitClean, codes))
  }

  /** `_receipt_outcome` on the applied run; a broken link is a storage error, and so is linked
      evidence that cannot be read. */
  function Finish(c: Campaign, s: System, fates: Fates): System {
    if !s.worker.Applied? || s.worker.run !in s.store.files.runs then s
    else
      var position, run := s.worker.position, s.worker.run;
      var provenance := RunProvenance(s.store.files, run);
      if provenance == Broken || (provenance == Proven && fates.receipts != ReceiptsRead) then GateFailed(c, s, fates)
      else
        var proven := if provenance == Proven then RowOutcome(s.store.files.runs[run]) else Attention;
        var outcome := if s.worker.exitClean then proven else Attention;
        var value := Settlement(outcome, if outcome == Attention then Uncertain else Unexplained);
        var closing := match s.worker.codes
          case NoCodes => None
          case PermissionCodes => Some(Permission)
          case StorageCodes => Some(Storage);
        GateLeft(c, s, Settle(c, s.store, position, value, fates), closing, fates)
  }

  // ----------------------------------------------------------- the dispatcher's ends

  /** A checkpoint the dispatcher publishes itself; its failure ends in `_failed("storage")`. */
  function Announced(c: Campaign, s: System, changed: Checkpoint, fates: Fates): System {
    var (store, reply) := CheckpointState(c, s.store, changed, fates.checkpoint);
    WithStore(s, if reply == Accepted then store else FailClosed(c, store, Storage, fates.closing))
  }

  /** What `_drive` leaves behind once its futures are done. */
  function DriveEnd(c: Campaign, s: System, failure: Option<Reason>, revoked: bool, fates: Fates): System {
    var mem := s.store.mem;
    var closed := WithStore(s, s.store.(mem := mem.(authorization := None)));
    if failure.Some? then
      Announced(c, closed, mem.checkpoint.(phase := Paused, reason := failure.value), fates)
    else if mem.checkpoint.remaining == 0 then
      Announced(c, closed, mem.checkpoint.(phase := Completed, reason := NoReason), fates)
    else if revoked || mem.authorization.None? then
      Announced(c, closed, mem.checkpoint.(phase := Paused,
        reason := if mem.checkpoint.reason in {Permission, Storage} then mem.checkpoint.reason else UserPause), fates)
    else s
  }

  /** Reopening: `entries` are the directories whose admitted position was settled before the end,
      `blind` those whose run could not be read when it was. A file `load` insists on reading and
      cannot, such as a review or the receipts of a settled save, interrupts it like a lost write. */
  function Open(c: Campaign, s: System, entries: set<nat>, blind: set<nat>, fate: Fate): System {
    if s.up then s
    else if !Loadable(c, s.store) || fate == Lost then
      s.(store := s.store.(files := Reconciled(s.store.files, entries, blind)))
    else
      var loaded := Reloaded(c, s.store, blind);
      if fate == Done then s.(store := loaded, up := true, shown := false, worker := Idle)
      else s.(store := loaded.(mem := s.store.mem), worker := Idle)
  }

  /** `load_status`: a helper shows the last checkpoint as paused, without loading the campaign. */
  function ShowStatus(c: Campaign, s: System): System {
    if s.up || !StatusReadable(c, s.store) then s
    else s.(store := ShownStore(c, s.store), shown := true, worker := Idle)
  }

  /** What a helper does to a campaign it only shows: it takes a pause, closes it, catches its revision up. */
  predicate OfShown(e: Event) { e.PauseEvent? || e.RevokeEvent? || e.FailEvent? || e.CatchUpEvent? }

  // -------------------------------------------------------------------------- steps

  /** A step of the running helper. */
  function Act(c: Campaign, s: System, e: Event): System {
    match e
    case AuthorizeEvent(request, fates) => WithStore(s, Authorize(c, s.store, request, fates).0)
    case PauseEvent(request, fates) => WithStore(s, Pause(c, s.store, request, fates).0)
    case RevokeEvent => WithStore(s, s.store.(mem := s.store.mem.(authorization := None)))
    case FailEvent(reason, fates) =>
      if reason in {Permission, Storage} then WithStore(s, FailClosed(c, s.store, reason, fates.closing)) else s
    case ExamineEvent(position, fates) => WithStore(s, MarkExamined(c, s.store, position, fates).0)
    case SourceEvent(position, load, fates) => WithStore(s, RecordAnalysis(c, s.store, position, load, fates).0)
    case AbandonEvent(position, fates) =>
      WithStore(s, Settle(c, s.store, position, Settlement(Attention, RunFailed), fates).0)
    case ReleaseEvent(position, fates) => WithStore(s, Release(c, s.store, position, fates).0)
    case ManualDrainEvent(fates) =>
      WithStore(s, CheckpointState(c, s.store,
        s.store.mem.checkpoint.(phase := Preparing, reason := ManualDrain), fates.checkpoint).0)
    case ActivationStoppedEvent(reason, fates) =>
      if reason !in {NoReason, UserPause} then s
      else
        var closed := s.store.(mem := s.store.mem.(authorization := None));
        WithStore(s, CheckpointState(c, closed,
          closed.mem.checkpoint.(phase := Paused, reason := reason), fates.checkpoint).0)
    case DriveEndEvent(failure, revoked, fates) =>
      if failure in {None, Some(Permission), Some(Storage)} then DriveEnd(c, s, failure, revoked, fates) else s
    case CatchUpEvent(revision, fates) =>
      // the store adopts the revision its preparation already showed
      if revision < s.store.mem.checkpoint.revision then s
      else WithStore(s, CheckpointState(c, s.store, s.store.mem.checkpoint.(revision := revision), fates.checkpoint).0)
    case BeginEvent(position, fates) => Begin(c, s, position, fates)
    case AnalyseEvent(load, fates) => Analyse(c, s, load, fates)
    case ScreenEvent(verdict, fates) => ScreenRow(c, s, verdict, fates)
    case ReadEvent(read, fates) => ReadPhoto(c, s, read, fates)
    case AdmitEvent(fates) => Admit(c, s, fates)
    case ReviewEvent(review, fates) => Review(c, s, review, fates)
    case LinkEvent(fates) => LinkRun(c, s, fates)
    case ApplyEvent(result, row, statusClean, fates) => Apply(c, s, result, row, statusClean, fates)
    case FinishEvent(fates) => Finish(c, s, fates)
    case _ => s
  }

  function Step(c: Campaign, s: System, e: Event): System {
    match e
    case ManualRollbackEvent(run, row, statusClean) =>
      // the user rolls an applied run back by hand, with a verified receipt or not
      if run !in s.store.files.runs then s
      else WithStore(s, s.store.(files := s.store.files.(
             runs := s.store.files.runs[run := s.store.files.runs[run].(row := row, statusClean := statusClean)])))
    case CrashEvent(orphan) =>
      var files := match orphan
        case None => s.store.files
        case Some(p) => s.store.files.(orphans := s.store.files.orphans + {p});
      s.(store := s.store.(files := files), up := false, shown := false, worker := Idle)
    case StatusEvent => ShowStatus(c, s)
    case OpenEvent(entries, blind, fate) => Open(c, s, entries, blind, fate)
    case _ => if s.up || (s.shown && OfShown(e)) then Act(c, s, e) else s
  }

  function After(c: Campaign, s: System, events: seq<Event>): System
    decreases |events|
  {
    if events == [] then s else After(c, Step(c, s, events[0]), events[1..])
  }

  /** A campaign just created: the catalogue and its first checkpoint are on disk. */
  function Created(c: Campaign): System {
    var checkpoint := InitialCheckpoint(c);
    System(Store(Files(map[], map[], {}, map[], map[], map[], map[], map[], {}), Some(checkpoint),
                 Memory(checkpoint, {}, None, None)),
           true, false, Idle, multiset{})
  }
}
