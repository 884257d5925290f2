/** The durable vocabulary of an autonomous campaign: the artifacts found on disk, what a
    write can do to them, and how the evidence of one photo is read back as an outcome.
    A private file is an atomic entry of a map; immutable artifacts are keyed by the
    position or decision identifier that names them. */
module CampaignEvidence {
  import opened Wrappers

  const MAX_COUNTER: nat := 0x7fff_ffff

  type Id = string
  type Digest = string

  // ---------------------------------------------------------------- controls

  datatype Command = StartCampaign | ResumeCampaign | PauseCampaign

  /** What an activation that starts a campaign has to repeat: roots, settings file and cap. */
  datatype Settings = Settings(runsRoot: string, settingsPath: string, limit: Option<nat>)

  datatype Control = Control(command: Command, campaign: Id, decision: Id, settings: Option<Settings>)

  // --------------------------------------------------------------- positions

  datatype Outcome = Saved | NoChange | Attention
  datatype Why = Unexplained | RunFailed | Uncertain | LowConfidence | Invalid
  datatype Settlement = Settlement(outcome: Outcome, why: Why)

  /** analysis.json: the one-photo scan a position was analysed into. */
  datatype Source = Source(runName: string, runId: string, digest: Digest)

  /** decision.json: the admission of one apply, naming the authorization it ran under. */
  datatype Admission = Admission(authorization: Id, source: Source, selection: Digest)

  // -------------------------------------------------------------- run evidence

  datatype ApplyState = ApplyNotRun | Writing | ApplyVerified | ApplyNoop | ApplyFailed | ApplyUncertain | ApplyCancelled
  datatype RollbackState = RollbackNotRun | Removing | VerifiedRemoved | AlreadyAbsent | CasingConflict
                         | RollbackFailed | RollbackUncertain | RollbackCancelled
  datatype CaptionState = NotRequested | CaptionProposed | CaptionVerified | CaptionPreserved
                        | CaptionFailed | CaptionUncertain | CaptionRemoved

  /** The single reviewed row of a run, with whether its receipts check out. */
  datatype Row = Row(
    apply: ApplyState, applyReceipt: bool,
    rollback: RollbackState, rollbackReceipt: bool,
    approvedCaption: Option<string>, appliedCaption: Option<string>, caption: CaptionState)

  /** autonomy.json: a run's claim to stem from the admission of a position. */
  datatype Link = Link(position: nat, admission: Admission)

  /** A reviewed run directory. `statusClean` says that its status exits with 0 or 1 and no error code. */
  datatype Run = Run(link: Option<Link>, statusClean: bool, row: Row)

  // ------------------------------------------------------------------- disk

  datatype Phase = Preparing | Running | Pausing | Paused | Completed
  datatype Reason = NoReason | Recovered | UserPause | Storage | Permission | ManualDrain

  /** checkpoint.json: the only replaceable artifact of a campaign. */
  datatype Checkpoint = Checkpoint(
    revision: nat, phase: Phase, reason: Reason,
    examined: nat, analyzed: nat, saved: nat, noChange: nat, attention: nat,
    remaining: int, inFlight: nat)
  {
    function Settled(): nat { saved + noChange + attention }

    function Count(outcome: Outcome): nat {
      match outcome
      case Saved => saved
      case NoChange => noChange
      case Attention => attention
    }

    function Bump(outcome: Outcome): Checkpoint {
      match outcome
      case Saved => this.(saved := saved + 1)
      case NoChange => this.(noChange := noChange + 1)
      case Attention => this.(attention := attention + 1)
    }
  }

  /** Every immutable artifact of a campaign, by the name it is published under. */
  datatype Files = Files(
    controls: map<Id, Control>,
    authorizations: map<Id, Command>,
    examined: set<nat>,
    analyses: map<nat, Source>,
    decisions: map<nat, Admission>,
    reviews: map<nat, Id>,
    outcomes: map<nat, Settlement>,
    runs: map<Id, Run>,
    orphans: set<nat>)               // position directories left holding only a temporary file

  /** How far reading the receipts of a decided position gets: everything, all but the run, or not
      even the review that names the run. */
  datatype ReceiptRead = ReceiptsRead | RunUnreadable | ReviewUnreadable

  /** The answers of the operating system to the calls of one operation, in order. */
  datatype Fates = Fates(
    readable: bool, receipts: ReceiptRead, control: Fate, evidence: Fate, checkpoint: Fate, closing: Fate, last: Fate)

  const ALL_DONE := Fates(true, ReceiptsRead, Done, Done, Done, Done, Done)

  /** Publication of an immutable artifact: an existing name is never overwritten. */
  function Publish<K, V>(files: map<K, V>, key: K, value: V, fate: Fate): (r: (map<K, V>, bool))
  {
    if key in files || fate == Lost then (files, false)
    else (files[key := value], fate == Done)
  }

  // --------------------------------------------------------- reading receipts

  datatype Provenance = Unlinked | Broken | Proven

  /** An authorization counts only together with the activation control it was recorded under. */
  predicate AuthorizationSound(files: Files, id: Id) {
    && id in files.authorizations && id in files.controls
    && files.controls[id].command == files.authorizations[id]
    && files.authorizations[id] != PauseCampaign
  }

  /** The binding a run's link must have to the admission, authorization and review on files. */
  function RunProvenance(files: Files, run: Id): Provenance
    requires run in files.runs
  {
    match files.runs[run].link
    case None => Unlinked
    case Some(link) =>
      if && link.position in files.decisions
         && files.decisions[link.position] == link.admission
         && AuthorizationSound(files, link.admission.authorization)
         && link.position in files.reviews
         && files.reviews[link.position] == run
      then Proven else Broken
  }

  /** A verified rollback keeps the history of a save. */
  predicate RolledBack(row: Row) {
    row.rollback in {VerifiedRemoved, AlreadyAbsent} && row.rollbackReceipt
  }

  predicate CaptionFinal(row: Row) {
    row.approvedCaption.Some? ==>
      || (row.caption == CaptionVerified && row.appliedCaption == row.approvedCaption)
      || (row.caption == CaptionPreserved && row.appliedCaption.None?)
      || (RolledBack(row) && row.caption == CaptionRemoved && row.appliedCaption == row.approvedCaption)
  }

  /** The outcome the receipts of a linked run prove. */
  function RowOutcome(run: Run): Outcome {
    if !run.statusClean then Attention
    else if run.row.rollback != RollbackNotRun && !RolledBack(run.row) then Attention
    else if !CaptionFinal(run.row) then Attention
    else if run.row.apply == ApplyVerified && run.row.applyReceipt then Saved
    else if run.row.apply == ApplyNoop then NoChange
    else Attention
  }

  /** What a run proves, with its row spelled out: nothing unless its status is clean, it was not rolled back
      or with a receipt, and its caption came to the end that was approved; then a save by a verified
      apply with its receipt, no change by an apply that found nothing to do. */
  lemma RowOutcomeSpelledOut(run: Run)
    ensures var row := run.row;
            var undone := (row.rollback == VerifiedRemoved || row.rollback == AlreadyAbsent) && row.rollbackReceipt;
            var sound := && run.statusClean && (row.rollback == RollbackNotRun || undone)
                         && (|| row.approvedCaption == None
                             || (row.caption == CaptionVerified && row.appliedCaption == row.approvedCaption)
                             || (row.caption == CaptionPreserved && row.appliedCaption == None)
                             || (undone && row.caption == CaptionRemoved && row.appliedCaption == row.approvedCaption));
            && (RowOutcome(run) == Saved <==> sound && row.apply == ApplyVerified && row.applyReceipt)
            && (RowOutcome(run) == NoChange <==> sound && row.apply == ApplyNoop)
            && (RowOutcome(run) == Attention
                <==> !sound || (row.apply != ApplyNoop && !(row.apply == ApplyVerified && row.applyReceipt)))
  {
  }

  /** What the receipts of a decided position prove. */
  function RecoverDecision(files: Files, position: nat): Outcome {
    if position !in files.reviews || files.reviews[position] !in files.runs then Attention
    else
      var run := files.reviews[position];
      if RunProvenance(files, run) == Proven then RowOutcome(files.runs[run]) else Attention
  }

  function RecoveredSettlement(files: Files, position: nat): Settlement {
    var outcome := RecoverDecision(files, position);
    Settlement(outcome, if outcome == Attention then Uncertain else Unexplained)
  }

  /** `_recover_decision`: a run that cannot be read is settled like one that proves nothing. A
      review that cannot be read is an error of the caller's. */
  function ReadSettlement(files: Files, position: nat, read: ReceiptRead): Settlement {
    if read == ReceiptsRead then RecoveredSettlement(files, position) else Settlement(Attention, Uncertain)
  }

  /** A save stays a save under a verified rollback of its keywords and caption. */
  lemma VerifiedRollbackKeepsSave(before: Run, after: Run)
    requires RowOutcome(before) == Saved && after.statusClean
    requires RolledBack(after.row)
    requires after.row.apply == before.row.apply && after.row.applyReceipt == before.row.applyReceipt
    requires after.row.approvedCaption == before.row.approvedCaption
    requires after.row.appliedCaption == before.row.appliedCaption
    requires after.row.caption == before.row.caption
          || (before.row.caption == CaptionVerified && after.row.caption == CaptionRemoved)
    ensures RowOutcome(after) == Saved
  {
  }

  // ------------------------------------------------------------- cardinalities

  function SettledAs(outcomes: map<nat, Settlement>, outcome: Outcome): set<nat> {
    set p | p in outcomes && outcomes[p].outcome == outcome
  }

  /** Settling one more position moves exactly one of the three counts. */
  lemma SettleMovesOneCount(outcomes: map<nat, Settlement>, position: nat, value: Settlement)
    requires position !in outcomes
    ensures forall o :: |SettledAs(outcomes[position := value], o)|
                        == |SettledAs(outcomes, o)| + (if o == value.outcome then 1 else 0)
  {
    forall o
      ensures |SettledAs(outcomes[position := value], o)|
              == |SettledAs(outcomes, o)| + (if o == value.outcome then 1 else 0)
    {
      var added := if o == value.outcome then {position} else {};
      assert SettledAs(outcomes[position := value], o) == SettledAs(outcomes, o) + added;
    }
  }

  /** Every settled position is counted once. */
  lemma SettledPartition(outcomes: map<nat, Settlement>)
    ensures |SettledAs(outcomes, Saved)| + |SettledAs(outcomes, NoChange)| + |SettledAs(outcomes, Attention)|
            == |outcomes.Keys|
  {
    var s, n, a := SettledAs(outcomes, Saved), SettledAs(outcomes, NoChange), SettledAs(outcomes, Attention);
    assert outcomes.Keys == s + n + a;
    assert s !! n && (s + n) !! a;
  }

  lemma {:induction false} CardinalityBelow(positions: set<nat>, total: nat)
    requires forall p :: p in positions ==> p < total
    ensures |positions| <= total
    decreases total
  {
    if total == 0 {
      assert positions == {};
    } else {
      CardinalityBelow(positions - {total - 1}, total - 1);
    }
  }
}
