/** `CampaignStore` and `AutomaticApplyGate` as the objects they are: fields updated step by step
    under the store lock. Each method does to the object what its function does to the value. */
module CampaignObject {
  import opened Wrappers
  import opened CampaignEvidence
  import opened CampaignStore
  import Runs = CampaignRuns
  import Mutations = CampaignMutations

  class StoreObject {
    const campaign: Campaign
    var files: Files
    var saved: Option<Checkpoint>
    var checkpoint: Checkpoint
    var inFlight: set<nat>
    var authorization: Option<Id>
    var failure: Option<Reason>

    constructor (campaign: Campaign, files: Files, saved: Option<Checkpoint>)
      ensures this.campaign == campaign
      ensures View() == Store(files, saved, Memory(InitialCheckpoint(campaign), {}, None, None))
    {
      this.campaign := campaign;
      this.files := files;
      this.saved := saved;
      checkpoint := InitialCheckpoint(campaign);
      inFlight := {};
      authorization := None;
      failure := None;
    }

    function View(): Store
      reads this
    {
      Store(files, saved, Memory(checkpoint, inFlight, authorization, failure))
    }

    method PublishCheckpoint(changed: Checkpoint, fate: Fate) returns (reply: Reply)
      modifies this
      ensures (View(), reply) == CheckpointState(campaign, old(View()), changed, fate)
    {
      if changed.revision >= MAX_COUNTER {
        return Refused;
      }
      var value := Stamped(campaign, inFlight, changed);
      if fate == Lost {
        return Failed;
      }
      saved := Some(value);
      if fate == Torn {
        return Failed;
      }
      checkpoint := value;
      reply := Accepted;
    }

    method CloseOnFailure(reason: Reason, fate: Fate)
      modifies this
      ensures View() == FailClosed(campaign, old(View()), reason, fate)
    {
      authorization := None;
      failure := Some(reason);
      var reply := PublishCheckpoint(checkpoint.(phase := DrainPhase(inFlight), reason := reason), fate);
      if reply != Accepted {
        failure := Some(Storage);
        checkpoint := checkpoint.(phase := Paused, reason := Storage);
      }
    }

    method Control(request: Control, fates: Fates) returns (reply: Reply)
      modifies this
      ensures (View(), reply) == RecordControl(campaign, old(View()), request, fates)
    {
      if !ControlFieldsMatch(campaign, request) {
        return Refused;
      }
      if request.decision in files.controls {
        if !fates.readable {
          return Failed;
        }
        return if files.controls[request.decision] != request then Refused else Replayed;
      }
      var (controls, ok) := Publish(files.controls, request.decision, request, fates.control);
      files := files.(controls := controls);
      reply := if ok then Accepted else Failed;
    }

    method AuthorizeUnguarded(request: Control, fates: Fates) returns (reply: Reply)
      modifies this
      ensures (View(), reply) == AuthorizeBody(campaign, old(View()), request, fates)
    {
      if request.command == PauseCampaign {
        return Refused;
      }
      reply := Control(request, fates);
      if reply != Accepted {
        return;
      }
      var (authorizations, ok) := Publish(files.authorizations, request.decision, request.command, fates.evidence);
      files := files.(authorizations := authorizations);
      if !ok {
        return Failed;
      }
      reply := PublishCheckpoint(checkpoint.(phase := Running, reason := NoReason), fates.checkpoint);
      if reply == Accepted {
        failure := None;
        authorization := Some(request.decision);
      }
    }

    method Activate(request: Control, fates: Fates) returns (reply: Reply)
      modifies this
      ensures (View(), reply) == Authorize(campaign, old(View()), request, fates)
    {
      reply := AuthorizeUnguarded(request, fates);
      if reply == Failed {
        CloseOnFailure(Storage, fates.closing);
      }
    }

    method PauseUnguarded(request: Control, fates: Fates) returns (reply: Reply)
      modifies this
      ensures (View(), reply) == PauseBody(campaign, old(View()), request, fates)
    {
      if request.command != PauseCampaign {
        return Refused;
      }
      authorization := None;
      reply := Control(request, fates);
      if reply == Refused || reply == Failed {
        return;
      }
      reply := PublishCheckpoint(checkpoint.(phase := DrainPhase(inFlight), reason := UserPause), fates.checkpoint);
    }

    method PauseAdmission(request: Control, fates: Fates) returns (reply: Reply)
      modifies this
      ensures (View(), reply) == Pause(campaign, old(View()), request, fates)
    {
      reply := PauseUnguarded(request, fates);
      if reply == Failed {
        CloseOnFailure(Storage, fates.closing);
      }
    }

    method ExamineUnguarded(position: nat, fates: Fates) returns (reply: Reply)
      modifies this
      ensures (View(), reply) == MarkExaminedBody(campaign, old(View()), position, fates)
    {
      if position >= campaign.total {
        return Refused;
      }
      if position in inFlight {
        return Accepted;
      }
      if |inFlight| >= campaign.photoCount || position in files.outcomes {
        return Refused;
      }
      if !fates.readable {
        return Failed;
      }
      var isNew := position !in files.examined;
      if isNew {
        if fates.evidence != Lost {
          files := files.(examined := files.examined + {position});
        }
        if fates.evidence != Done {
          return Failed;
        }
      }
      inFlight := inFlight + {position};
      reply := PublishCheckpoint(checkpoint.(examined := checkpoint.examined + if isNew then 1 else 0), fates.checkpoint);
    }

    method Examine(position: nat, fates: Fates) returns (reply: Reply)
      modifies this
      ensures (View(), reply) == MarkExamined(campaign, old(View()), position, fates)
    {
      reply := ExamineUnguarded(position, fates);
      if reply == Failed {
        CloseOnFailure(Storage, fates.closing);
      }
    }

    method SettleUnguarded(position: nat, value: Settlement, fates: Fates) returns (reply: Reply)
      modifies this
      ensures (View(), reply) == SettleBody(campaign, old(View()), position, value, fates)
    {
      if position >= campaign.total {
        return Refused;
      }
      if !fates.readable || position !in files.examined {
        return Failed;
      }
      if position in files.outcomes {
        return if files.outcomes[position] == value then Accepted else Refused;
      }
      var (outcomes, ok) := Publish(files.outcomes, position, value, fates.evidence);
      files := files.(outcomes := outcomes);
      if !ok {
        return Failed;
      }
      inFlight := inFlight - {position};
      var changes := checkpoint.Bump(value.outcome);
      var remaining := checkpoint.remaining - 1;
      if failure.Some? {
        changes := changes.(phase := DrainPhase(inFlight), reason := failure.value);
      } else if remaining == 0 && inFlight == {} {
        changes := changes.(phase := Completed, reason := NoReason);
        authorization := None;
      } else if checkpoint.phase == Pausing && inFlight == {} {
        changes := changes.(phase := Paused);
      }
      reply := PublishCheckpoint(changes, fates.checkpoint);
    }

    method SettlePosition(position: nat, value: Settlement, fates: Fates) returns (reply: Reply)
      modifies this
      ensures (View(), reply) == Settle(campaign, old(View()), position, value, fates)
    {
      reply := SettleUnguarded(position, value, fates);
      if reply == Failed {
        CloseOnFailure(Storage, fates.closing);
      }
    }

    method ReleasePosition(position: nat, fates: Fates) returns (reply: Reply)
      modifies this
      ensures (View(), reply) == Release(campaign, old(View()), position, fates)
    {
      inFlight := inFlight - {position};
      var changes := checkpoint;
      if checkpoint.phase == Pausing && inFlight == {} {
        changes := changes.(phase := Paused);
      }
      reply := PublishCheckpoint(changes, fates.checkpoint);
      if reply == Failed {
        CloseOnFailure(Storage, fates.closing);
      }
    }

    method AnalyseUnguarded(position: nat, load: SourceLoad, fates: Fates) returns (reply: Reply)
      modifies this
      ensures (View(), reply) == RecordAnalysisBody(campaign, old(View()), position, load, fates)
    {
      if position >= campaign.total {
        return Refused;
      }
      if !fates.readable || position !in files.examined {
        return Failed;
      }
      match load {
        case OutsideRuns => return Refused;
        case Unavailable => return Failed;
        case WrongIdentity => return BadManifest;
        case Loaded(source) =>
          if position in files.analyses {
            return if files.analyses[position] == source then Accepted else Failed;
          }
          var (analyses, ok) := Publish(files.analyses, position, source, fates.evidence);
          files := files.(analyses := analyses);
          if !ok {
            return Failed;
          }
          reply := PublishCheckpoint(checkpoint.(analyzed := checkpoint.analyzed + 1), fates.checkpoint);
      }
    }

    method RecordSource(position: nat, load: SourceLoad, fates: Fates) returns (reply: Reply)
      modifies this
      ensures (View(), reply) == RecordAnalysis(campaign, old(View()), position, load, fates)
    {
      reply := AnalyseUnguarded(position, load, fates);
      if reply == Failed {
        CloseOnFailure(Storage, fates.closing);
      }
    }

    /** One directory of `load`: counts it and settles its admitted position from the receipts. `read`
        answers the reading that settles it, `checked` the reading that backs a settled save. */
    method VisitEntry(ghost before: Files, ghost seen: set<nat>, ghost blind: set<nat>, position: nat,
                      read: ReceiptRead, checked: ReceiptRead, fate: Fate, counted: Checkpoint)
      returns (ok: bool, next: Checkpoint)
      requires Mutations.Bound(campaign, before) && position !in seen
      requires position in blind <==> read == RunUnreadable
      requires files == Reconciled(before, seen, blind)
      requires counted == TallyOf(campaign, before, files.outcomes, seen, counted.revision)
      modifies `files
      ensures ok ==> files == Reconciled(before, seen + {position}, blind)
      ensures ok ==> next == TallyOf(campaign, before, files.outcomes, seen + {position}, counted.revision)
      ensures ok ==> EntrySound(before, position)
      ensures !ok ==> files == Reconciled(before, seen, blind) || files == Reconciled(before, seen + {position}, blind)
      ensures EvidenceSound(before) && fate == Done && read != ReviewUnreadable && checked == ReceiptsRead ==> ok
    {
      hide Reconciled, RecoverDecision, JudgedSettlement, Mutations.Bound, TallyOf, EntrySound, EvidenceSound;
      ReconciledShape(before, seen, blind);
      ReceiptsUnmoved(before, seen, blind, position);
      SoundEntry(before, position);
      next := counted;
      if position !in files.examined {
        UnexaminedEntry(campaign, before, seen, blind, position, counted.revision);
        return position !in files.orphans, next;
      }
      next := next.(examined := next.examined + 1);
      if position in files.analyses {
        next := next.(analyzed := next.analyzed + 1);
      }
      if position !in files.outcomes && position in files.decisions {
        if position in files.reviews && read == ReviewUnreadable {
          return false, next;
        }
        var settlement := ReadSettlement(files, position, read);
        ReadAlike(files, position, read, blind);
        ReconcileOne(before, seen, blind, position);
        ReconciledShape(before, seen + {position}, blind);
        if fate != Lost {
          files := files.(outcomes := files.outcomes[position := settlement]);
        }
        if fate != Done {
          return false, next;
        }
      } else {
        ReconcileNone(before, seen, blind, position);
      }
      ReconciledShape(before, seen + {position}, blind);
      ReceiptsUnmoved(before, seen + {position}, blind, position);
      EntryJudged(before, seen + {position}, blind, position);
      TallyEntry(campaign, before, seen, blind, position, counted.revision);
      if position in files.outcomes {
        if files.outcomes[position].outcome == Saved
           && (checked != ReceiptsRead || RecoverDecision(files, position) != Saved) {
          return false, next;
        }
        next := next.Bump(files.outcomes[position].outcome);
      }
      ok := true;
    }

    /** `load_status`: the checkpoint is checked by itself, no position is replayed. */
    method ReadStatus() returns (readable: bool)
      modifies this
      ensures readable == StatusReadable(campaign, old(View()))
      ensures View() == if readable then ShownStore(campaign, old(View())) else old(View())
    {
      if saved.None? && !Pristine(files) {
        return false;
      }
      var read := if saved.Some? then saved.value else InitialCheckpoint(campaign);
      if read.reason == ManualDrain || read.analyzed > read.examined || read.remaining < 0 {
        return false;
      }
      if read.Settled() + read.remaining != campaign.total || read.revision >= MAX_COUNTER {
        return false;
      }
      saved := Some(read);
      checkpoint := read.(revision := read.revision + 1, phase := Paused, reason := Recovered);
      inFlight, authorization, failure := {}, None, None;
      readable := true;
    }

    /** `load`: replays the position directories, in whatever order the directory lists them, counts
        them one by one and settles the admitted ones. `receipts` and `checks` answer the readings of
        receipts, `fate` each outcome it writes. */
    method Reload(entries: seq<nat>, receipts: nat -> ReceiptRead, checks: nat -> ReceiptRead, fate: nat -> Fate, last: Fate)
      returns (loaded: bool)
      requires Mutations.Bound(campaign, files)
      requires forall i, j :: 0 <= i < j < |entries| ==> entries[i] != entries[j]
      requires forall p :: p in files.examined + files.orphans ==> p in entries
      modifies this
      ensures loaded ==> Loadable(campaign, old(View())) && View() == Reloaded(campaign, old(View()), Blind(entries, receipts))
      ensures (forall p :: fate(p) == Done && receipts(p) != ReviewUnreadable && checks(p) == ReceiptsRead) ==>
                Loadable(campaign, old(View())) && last == Done ==> loaded
      ensures exists done :: files == Reconciled(old(files), done, Blind(entries, receipts))
    {
      hide Reconciled, RecoverDecision, JudgedSettlement, Mutations.Bound, TallyOf, EntrySound, EvidenceSound, RebuiltCheckpoint;
      ghost var before, blind := View(), Blind(entries, receipts);
      ReconciledNothing(campaign, before.files, blind, 0);
      if saved.None? && !Pristine(files) {
        return false;
      }
      var opening := if saved.Some? then saved.value else InitialCheckpoint(campaign);
      if opening.revision >= MAX_COUNTER {
        return false;
      }
      ReconciledNothing(campaign, before.files, blind, opening.revision + 1);
      var counted := InitialCheckpoint(campaign).(revision := opening.revision + 1, reason := Recovered);
      ghost var seen: set<nat> := {};
      var i := 0;
      while i < |entries|
        invariant 0 <= i <= |entries|
        invariant seen == set j | 0 <= j < i :: entries[j]
        invariant files == Reconciled(before.files, seen, blind) && saved == before.saved
        invariant forall p :: p in seen ==> EntrySound(before.files, p)
        invariant counted.revision == opening.revision + 1
        invariant counted == TallyOf(campaign, before.files, files.outcomes, seen, counted.revision)
      {
        assert entries[i] !in seen;
        ghost var next := seen + {entries[i]};
        assert next == set j | 0 <= j < i + 1 :: entries[j];
        var ok;
        TallyRevision(campaign, before.files, next, counted.revision);
        ok, counted := VisitEntry(before.files, seen, blind, entries[i], receipts(entries[i]), checks(entries[i]),
                                  fate(entries[i]), counted);
        if !ok {
          return false;
        }
        TallyRevision(campaign, before.files, next, opening.revision + 1);
        seen := next;
        i := i + 1;
      }
      counted := counted.(remaining := campaign.total - counted.Settled());
      OutcomesExamined(campaign, before.files);
      AllSound(before.files, seen);
      AllTallied(campaign, before.files, seen, blind, opening.revision + 1);
      if last == Lost {
        return false;
      }
      saved := Some(counted);
      checkpoint := counted;
      inFlight, authorization, failure := {}, None, None;
      loaded := last == Done;
    }
  }

  // ------------------------------------------------------------ the replay, entry by entry

  /** The listed positions whose run cannot be read when they are settled. */
  function Blind(entries: seq<nat>, receipts: nat -> ReceiptRead): set<nat> {
    set p | p in entries && receipts(p) == RunUnreadable
  }

  /** A position that has no review needs no reading. */
  lemma ReadAlike(files: Files, position: nat, read: ReceiptRead, blind: set<nat>)
    requires position in blind <==> read == RunUnreadable
    requires read == ReviewUnreadable ==> position !in files.reviews
    ensures ReadSettlement(files, position, read) == JudgedSettlement(files, position, blind)
  {
  }

  /** What `load` insists on at one directory. */
  predicate EntrySound(files: Files, position: nat) {
    && (position in files.orphans ==> position in files.examined)
    && (position in files.outcomes && files.outcomes[position].outcome == Saved ==>
          RecoverDecision(files, position) == Saved)
  }

  lemma SoundEntry(files: Files, position: nat)
    ensures EvidenceSound(files) ==> EntrySound(files, position)
    ensures position !in files.outcomes && position !in files.orphans ==> EntrySound(files, position)
    ensures position !in files.examined && EntrySound(files, position) ==> position !in files.orphans
  {
    hide RecoverDecision;
  }

  lemma AllSound(files: Files, seen: set<nat>)
    requires forall p :: p in seen ==> EntrySound(files, p)
    requires forall p :: p in files.examined + files.orphans ==> p in seen
    requires forall p :: p in files.outcomes ==> p in files.examined
    ensures EvidenceSound(files)
  {
    hide RecoverDecision;
    forall p | p in files.orphans ensures p in files.examined {
      assert EntrySound(files, p);
    }
    forall p | p in files.outcomes && files.outcomes[p].outcome == Saved ensures RecoverDecision(files, p) == Saved {
      assert EntrySound(files, p);
    }
  }

  lemma EntryJudged(files: Files, seen: set<nat>, blind: set<nat>, position: nat)
    requires position in files.examined && position in seen
    ensures var after := Reconciled(files, seen, blind).outcomes;
            EntrySound(files, position)
            <==> (position in after && after[position].outcome == Saved ==> RecoverDecision(files, position) == Saved)
  {
    hide RunProvenance, RowOutcome;
  }

  /** How many of the visited positions belong to `positions`. */
  function Visited(seen: set<nat>, positions: set<nat>): nat {
    |seen * positions|
  }

  /** The counters after visiting `seen`. */
  function TallyOf(c: Campaign, files: Files, outcomes: map<nat, Settlement>, seen: set<nat>, revision: nat): Checkpoint {
    Checkpoint(revision, Paused, Recovered, Visited(seen, files.examined), Visited(seen, files.analyses.Keys),
               Visited(seen, SettledAs(outcomes, Saved)), Visited(seen, SettledAs(outcomes, NoChange)),
               Visited(seen, SettledAs(outcomes, Attention)), c.total, 0)
  }

  lemma VisitedNone(positions: set<nat>)
    ensures Visited({}, positions) == 0
  {
    assert {} * positions == {};
  }

  lemma VisitedOneMore(seen: set<nat>, positions: set<nat>, position: nat)
    requires position !in seen
    ensures Visited(seen + {position}, positions) == Visited(seen, positions) + if position in positions then 1 else 0
  {
    var added := if position in positions then {position} else {};
    assert (seen + {position}) * positions == seen * positions + added;
  }

  lemma VisitedAll(seen: set<nat>, positions: set<nat>)
    requires positions <= seen
    ensures Visited(seen, positions) == |positions|
  {
    assert seen * positions == positions;
  }

  lemma VisitedAlike(seen: set<nat>, one: set<nat>, other: set<nat>)
    requires forall p | p in seen :: p in one <==> p in other
    ensures Visited(seen, one) == Visited(seen, other)
  {
    assert seen * one == seen * other;
  }

  lemma TallyRevision(c: Campaign, files: Files, seen: set<nat>, revision: nat)
    ensures forall outcomes :: TallyOf(c, files, outcomes, seen, revision).revision == revision
  {
  }

  lemma ReconciledShape(files: Files, seen: set<nat>, blind: set<nat>)
    ensures Reconciled(files, seen, blind) == files.(outcomes := Reconciled(files, seen, blind).outcomes)
    ensures Reconciled(files, seen, blind).outcomes.Keys == files.outcomes.Keys + (Undecided(files) * seen)
  {
    hide JudgedSettlement;
  }

  lemma ReconciledNothing(c: Campaign, files: Files, blind: set<nat>, revision: nat)
    ensures Reconciled(files, {}, blind) == files
    ensures InitialCheckpoint(c).(revision := revision, reason := Recovered)
            == TallyOf(c, files, files.outcomes, {}, revision)
  {
    hide JudgedSettlement, SettledAs, Undecided, Visited;
    assert Reconciled(files, {}, blind).outcomes == files.outcomes;
    forall positions ensures Visited({}, positions) == 0 { VisitedNone(positions); }
  }

  lemma ReceiptsUnmoved(files: Files, seen: set<nat>, blind: set<nat>, position: nat)
    ensures RecoverDecision(Reconciled(files, seen, blind), position) == RecoverDecision(files, position)
    ensures JudgedSettlement(Reconciled(files, seen, blind), position, blind) == JudgedSettlement(files, position, blind)
  {
    hide RowOutcome, Reconciled;
    ReconciledShape(files, seen, blind);
    var after := Reconciled(files, seen, blind);
    if position in files.reviews && files.reviews[position] in files.runs {
      assert RunProvenance(after, files.reviews[position]) == RunProvenance(files, files.reviews[position]);
    }
  }

  lemma ReconcileOne(files: Files, seen: set<nat>, blind: set<nat>, position: nat)
    requires position !in seen
    ensures position in Undecided(files) ==>
              Reconciled(files, seen, blind).outcomes[position := JudgedSettlement(files, position, blind)]
              == Reconciled(files, seen + {position}, blind).outcomes
    ensures position in Undecided(files) <==>
              (position in files.decisions && position in files.examined && position !in Reconciled(files, seen, blind).outcomes)
  {
    hide JudgedSettlement;
    if position in Undecided(files) {
      assert Undecided(files) * (seen + {position}) == Undecided(files) * seen + {position};
    }
  }

  lemma ReconcileNone(files: Files, seen: set<nat>, blind: set<nat>, position: nat)
    requires position !in seen
    ensures position !in Undecided(files) ==> Reconciled(files, seen, blind) == Reconciled(files, seen + {position}, blind)
    ensures position in Undecided(files) <==>
              (position in files.decisions && position in files.examined && position !in Reconciled(files, seen, blind).outcomes)
  {
    hide JudgedSettlement;
    if position !in Undecided(files) {
      assert Undecided(files) * (seen + {position}) == Undecided(files) * seen;
    }
  }

  /** A directory without evidence of an examination counts for nothing. */
  lemma UnexaminedEntry(c: Campaign, files: Files, seen: set<nat>, blind: set<nat>, position: nat, revision: nat)
    requires Mutations.Bound(c, files) && position !in seen && position !in files.examined
    ensures Reconciled(files, seen + {position}, blind) == Reconciled(files, seen, blind)
    ensures TallyOf(c, files, Reconciled(files, seen, blind).outcomes, seen + {position}, revision)
            == TallyOf(c, files, Reconciled(files, seen, blind).outcomes, seen, revision)
    ensures position !in files.outcomes
  {
    hide JudgedSettlement, Reconciled, AuthorizationSound, Visited;
    ReconcileNone(files, seen, blind, position);
    ReconciledShape(files, seen, blind);
    var outcomes := Reconciled(files, seen, blind).outcomes;
    assert position !in outcomes;
    forall positions | position !in positions ensures Visited(seen + {position}, positions) == Visited(seen, positions) {
      VisitedOneMore(seen, positions, position);
    }
  }

  /** Settling the entry being visited does not move what was visited before. */
  lemma SettledAlike(files: Files, seen: set<nat>, blind: set<nat>, position: nat, o: Outcome)
    requires position !in seen
    ensures var after := Reconciled(files, seen + {position}, blind).outcomes;
            Visited(seen + {position}, SettledAs(after, o))
            == Visited(seen, SettledAs(Reconciled(files, seen, blind).outcomes, o))
               + if position in after && after[position].outcome == o then 1 else 0
  {
    hide JudgedSettlement, Undecided, Visited;
    var before, after := Reconciled(files, seen, blind).outcomes, Reconciled(files, seen + {position}, blind).outcomes;
    forall p | p in seen ensures p in SettledAs(before, o) <==> p in SettledAs(after, o) {
    }
    VisitedAlike(seen, SettledAs(before, o), SettledAs(after, o));
    VisitedOneMore(seen, SettledAs(after, o), position);
  }

  lemma TallyEntry(c: Campaign, files: Files, seen: set<nat>, blind: set<nat>, position: nat, revision: nat)
    requires position !in seen && position in files.examined
    ensures var outcomes := Reconciled(files, seen + {position}, blind).outcomes;
            var before := TallyOf(c, files, Reconciled(files, seen, blind).outcomes, seen, revision);
            var counted := before.(
              examined := before.examined + 1,
              analyzed := before.analyzed + if position in files.analyses then 1 else 0);
            TallyOf(c, files, outcomes, seen + {position}, revision)
            == if position in outcomes then counted.Bump(outcomes[position].outcome) else counted
  {
    hide Reconciled, Visited, SettledAs;
    VisitedOneMore(seen, files.examined, position);
    VisitedOneMore(seen, files.analyses.Keys, position);
    SettledAlike(files, seen, blind, position, Saved);
    SettledAlike(files, seen, blind, position, NoChange);
    SettledAlike(files, seen, blind, position, Attention);
  }

  /** Once every directory is visited, the tally is the rebuilt checkpoint. */
  lemma AllTallied(c: Campaign, files: Files, seen: set<nat>, blind: set<nat>, revision: nat)
    requires Mutations.Bound(c, files)
    requires forall p :: p in files.examined ==> p in seen
    ensures Reconciled(files, seen, blind) == Reconciled(files, files.examined, blind)
    ensures var after := Reconciled(files, files.examined, blind);
            var tally := TallyOf(c, files, after.outcomes, seen, revision);
            tally.(remaining := c.total - tally.Settled()) == RebuiltCheckpoint(c, after, revision)
  {
    hide JudgedSettlement, Reconciled, AuthorizationSound, Visited;
    UndecidedExamined(files, seen);
    SameSettled(files, seen, files.examined, blind);
    ReconciledShape(files, files.examined, blind);
    var outcomes := Reconciled(files, files.examined, blind).outcomes;
    VisitedAll(seen, files.examined);
    VisitedAll(seen, files.analyses.Keys);
    forall o ensures Visited(seen, SettledAs(outcomes, o)) == |SettledAs(outcomes, o)| {
      VisitedAll(seen, SettledAs(outcomes, o));
    }
  }

  lemma UndecidedExamined(files: Files, seen: set<nat>)
    requires forall p :: p in files.examined ==> p in seen
    ensures Undecided(files) * seen == Undecided(files) * files.examined == Undecided(files)
  {
  }

  lemma SameSettled(files: Files, one: set<nat>, other: set<nat>, blind: set<nat>)
    requires Undecided(files) * one == Undecided(files) * other
    ensures Reconciled(files, one, blind) == Reconciled(files, other, blind)
  {
    hide JudgedSettlement;
  }

  lemma OutcomesExamined(c: Campaign, files: Files)
    requires Mutations.Bound(c, files)
    ensures forall p :: p in files.outcomes ==> p in files.examined
  {
  }
}
