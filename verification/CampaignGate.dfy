/** `AutomaticApplyGate` as an object over its store: `Process` runs one position through the
    stages. Undisturbed it is exactly the run of its nine events, so every theorem about runs
    covers it; other threads may act between any two stages. */
module CampaignGate {
  import opened Wrappers
  import opened CampaignEvidence
  import opened CampaignStore
  import opened CampaignObject
  import opened Runs = CampaignRuns
  import Safety = CampaignSafety

  /** Everything outside the campaign that one call of `process` hears back, stage by stage. */
  datatype Answers = Answers(
    load: SourceLoad, verdict: Screen, read: PhotoRead, review: ReviewResult,
    result: ApplyResult, row: Row, statusClean: bool, fates: seq<Fates>)
  {
    function At(stage: nat): Fates {
      if stage < |fates| then fates[stage] else ALL_DONE
    }
  }

  function DecideEvents(position: nat, a: Answers): seq<Event> {
    [BeginEvent(position, a.At(0)), AnalyseEvent(a.load, a.At(1)), ScreenEvent(a.verdict, a.At(2)),
     ReadEvent(a.read, a.At(3)), AdmitEvent(a.At(4))]
  }

  function CarryOutEvents(a: Answers): seq<Event> {
    [ReviewEvent(a.review, a.At(5)), LinkEvent(a.At(6)),
     ApplyEvent(a.result, a.row, a.statusClean, a.At(7)), FinishEvent(a.At(8))]
  }

  class GateObject {
    const store: StoreObject
    /** The local variables of `process`, as far as it has come. */
    var worker: Worker
    /** The calls of `apply_runner` so far. */
    ghost var applied: multiset<nat>

    constructor (store: StoreObject)
      ensures this.store == store && worker == Idle && applied == multiset{}
    {
      this.store := store;
      worker := Idle;
      applied := multiset{};
    }

    ghost function Current(): System
      reads this, store
    {
      System(store.View(), true, false, worker, applied)
    }

    method Fail(fates: Fates)
      modifies this`worker, store
      ensures Current() == GateFailed(store.campaign, old(Current()), fates)
    {
      store.CloseOnFailure(Storage, fates.last);
      worker := Idle;
    }

    method Leave(reply: Reply, andThen: Option<Reason>, fates: Fates)
      modifies this`worker, store
      ensures Current() == GateLeft(store.campaign, old(Current()), (old(store.View()), reply), andThen, fates)
    {
      worker := Idle;
      if reply != Accepted {
        store.CloseOnFailure(Storage, fates.last);
      } else if andThen.Some? {
        store.CloseOnFailure(andThen.value, fates.last);
      }
    }

    method SettleAndLeave(position: nat, value: Settlement, andThen: Option<Reason>, fates: Fates)
      modifies this`worker, store
      ensures Current() == GateLeft(store.campaign, old(Current()),
                                    Settle(store.campaign, old(store.View()), position, value, fates), andThen, fates)
    {
      hide Settle, FailClosed;
      var reply := store.SettlePosition(position, value, fates);
      Leave(reply, andThen, fates);
    }

    method ReleaseAndLeave(position: nat, fates: Fates)
      modifies this`worker, store
      ensures Current() == GateReleased(store.campaign, old(Current()), position, fates)
    {
      hide Release, FailClosed;
      var reply := store.ReleasePosition(position, fates);
      Leave(reply, None, fates);
    }

    // --------------------------------------------------------------- the stages

    method BeginStage(position: nat, fates: Fates)
      modifies this`worker, store
      ensures Current() == Begin(store.campaign, old(Current()), position, fates)
      ensures old(worker.Idle?) ==> worker.Idle? || worker.Analysing?
    {
      hide Settle, FailClosed, RecoverDecision;
      if !worker.Idle? {
        return;
      }
      if position >= store.campaign.total {
        Fail(fates);
      } else if position in store.files.outcomes {
        if !fates.readable
           || (store.files.outcomes[position].outcome == Saved
               && (fates.receipts != ReceiptsRead || RecoverDecision(store.files, position) != Saved)) {
          Fail(fates);
        }
      } else if position in store.files.decisions {
        if fates.receipts == ReviewUnreadable && position in store.files.reviews {
          Fail(fates);
        } else {
          SettleAndLeave(position, ReadSettlement(store.files, position, fates.receipts), None, fates);
        }
      } else {
        worker := Analysing(position);
      }
    }

    method AnalyseStage(load: SourceLoad, fates: Fates)
      modifies this`worker, store
      ensures Current() == Analyse(store.campaign, old(Current()), load, fates)
      ensures old(worker.Idle? || worker.Analysing?) ==> worker.Idle? || worker.Screening?
    {
      hide Settle, FailClosed, RecordAnalysis;
      if !worker.Analysing? {
        return;
      }
      var reply := store.RecordSource(worker.position, load, fates);
      if reply == BadManifest {
        SettleAndLeave(worker.position, Settlement(Attention, Invalid), None, fates);
      } else if reply == Accepted && load.Loaded? {
        worker := Screening(worker.position, load.source);
      } else {
        Fail(fates);
      }
    }

    method ScreenStage(verdict: Screen, fates: Fates)
      modifies this`worker, store
      ensures Current() == ScreenRow(store.campaign, old(Current()), verdict, fates)
      ensures old(worker.Idle? || worker.Screening?) ==> worker.Idle? || worker.Reading?
    {
      hide Settle, FailClosed, Release;
      if !worker.Screening? {
        return;
      }
      match verdict {
        case Unready(permission) =>
          SettleAndLeave(worker.position, Settlement(Attention, Invalid),
                         if permission then Some(Permission) else None, fates);
        case BelowThreshold =>
          SettleAndLeave(worker.position, Settlement(Attention, LowConfidence), None, fates);
        case Confident =>
          if store.authorization.None? {
            ReleaseAndLeave(worker.position, fates);
          } else {
            worker := Reading(worker.position, worker.source);
          }
      }
    }

    method ReadStage(read: PhotoRead, fates: Fates)
      modifies this`worker, store
      ensures Current() == ReadPhoto(store.campaign, old(Current()), read, fates)
      ensures old(worker.Idle? || worker.Reading?) ==> worker.Idle? || worker.Admitting?
    {
      hide Settle, FailClosed;
      if !worker.Reading? {
        return;
      }
      match read {
        case Denied => SettleAndLeave(worker.position, Settlement(Attention, RunFailed), Some(Permission), fates);
        case Unreadable => SettleAndLeave(worker.position, Settlement(Attention, RunFailed), None, fates);
        case OtherPhoto => SettleAndLeave(worker.position, Settlement(Attention, Invalid), None, fates);
        case NothingNew => SettleAndLeave(worker.position, Settlement(NoChange, Unexplained), None, fates);
        case Selection(selection) => worker := Admitting(worker.position, worker.source, selection);
      }
    }

    method AdmitStage(fates: Fates)
      modifies this`worker, store
      ensures Current() == Admit(store.campaign, old(Current()), fates)
      ensures old(worker.Idle? || worker.Admitting?) ==> worker.Idle? || worker.Admitted?
    {
      hide FailClosed, Release, AuthorizationSound;
      if !worker.Admitting? {
        return;
      }
      if store.authorization.None? {
        ReleaseAndLeave(worker.position, fates);
        return;
      }
      var id := store.authorization.value;
      if !fates.readable || !AuthorizationSound(store.files, id) {
        Fail(fates);
        return;
      }
      var admission := Admission(id, worker.source, worker.selection);
      var (decisions, ok) := Publish(store.files.decisions, worker.position, admission, fates.evidence);
      store.files := store.files.(decisions := decisions);
      if ok {
        worker := Admitted(worker.position, admission);
      } else {
        Fail(fates);
      }
    }

    method ReviewStage(review: ReviewResult, fates: Fates)
      modifies this`worker, store
      ensures Current() == Review(store.campaign, old(Current()), review, fates)
      ensures old(worker.Idle? || worker.Admitted?) ==> worker.Idle? || worker.Reviewed?
    {
      hide Settle, FailClosed;
      if !worker.Admitted? {
        return;
      }
      match review {
        case ReviewRaised => SettleAndLeave(worker.position, Settlement(Attention, Uncertain), None, fates);
        case ReviewStorage => Fail(fates);
        case ReviewEscaped => Fail(fates);
        case ReviewedInto(run, manifest) =>
          var runs := if run in store.files.runs then store.files.runs
                      else store.files.runs[run := manifest.(link := None)];
          var (reviews, ok) := Publish(store.files.reviews, worker.position, run, fates.evidence);
          store.files := store.files.(reviews := reviews, runs := runs);
          if ok {
            worker := Reviewed(worker.position, worker.admission, run);
          } else {
            Fail(fates);
          }
      }
    }

    method LinkStage(fates: Fates)
      modifies this`worker, store
      ensures Current() == LinkRun(store.campaign, old(Current()), fates)
      ensures old(worker.Idle? || worker.Reviewed?) ==> worker.Idle? || (worker.Linked? && worker.run in store.files.runs)
    {
      hide FailClosed, RunProvenance;
      if !worker.Reviewed? {
        return;
      }
      var run := worker.run;
      if run !in store.files.runs || store.files.runs[run].link.Some? || fates.evidence == Lost {
        Fail(fates);
        return;
      }
      var linked := store.files.runs[run].(link := Some(Link(worker.position, worker.admission)));
      store.files := store.files.(runs := store.files.runs[run := linked]);
      if fates.evidence == Done && fates.readable && RunProvenance(store.files, run) == Proven {
        worker := Linked(worker.position, worker.admission, run);
      } else {
        Fail(fates);
      }
    }

    method ApplyStage(result: ApplyResult, row: Row, statusClean: bool, fates: Fates)
      modifies this, store
      ensures Current() == Apply(store.campaign, old(Current()), result, row, statusClean, fates)
      ensures old(worker.Idle? || (worker.Linked? && worker.run in store.files.runs)) ==> worker.Idle? || (worker.Applied? && worker.run in store.files.runs)
    {
      hide Settle, FailClosed;
      if !worker.Linked? || worker.run !in store.files.runs {
        return;
      }
      var written := store.files.runs[worker.run].(statusClean := statusClean, row := row);
      store.files := store.files.(runs := store.files.runs[worker.run := written]);
      applied := applied + multiset{worker.position};
      match result {
        case ApplyRaised => SettleAndLeave(worker.position, Settlement(Attention, Uncertain), None, fates);
        case ApplyStorage => Fail(fates);
        case ApplyReturned(exitClean, codes) =>
          worker := Applied(worker.position, worker.admission, worker.run, exitClean, codes);
      }
    }

    method FinishStage(fates: Fates)
      modifies this`worker, store
      ensures Current() == Finish(store.campaign, old(Current()), fates)
      ensures old(worker.Idle? || (worker.Applied? && worker.run in store.files.runs)) ==> worker.Idle?
    {
      hide Settle, FailClosed, RunProvenance, RowOutcome;
      if !worker.Applied? || worker.run !in store.files.runs {
        return;
      }
      var provenance := RunProvenance(store.files, worker.run);
      if provenance == Broken || (provenance == Proven && fates.receipts != ReceiptsRead) {
        Fail(fates);
        return;
      }
      var proven := if provenance == Proven then RowOutcome(store.files.runs[worker.run]) else Attention;
      var outcome := if worker.exitClean then proven else Attention;
      var closing := match worker.codes
        case NoCodes => None
        case PermissionCodes => Some(Permission)
        case StorageCodes => Some(Storage);
      SettleAndLeave(worker.position,
                     Settlement(outcome, if outcome == Attention then Uncertain else Unexplained), closing, fates);
    }

    /** Up to the admission: everything here can still be paused. */
    method Decide(position: nat, a: Answers)
      requires worker == Idle
      modifies this, store
      ensures Current() == After(store.campaign, old(Current()), DecideEvents(position, a))
      ensures worker.Idle? || worker.Admitted?
    {
      hide Begin, Analyse, ScreenRow, ReadPhoto, Admit, After, Step;
      ghost var c, start, events := store.campaign, Current(), DecideEvents(position, a);
      BeginStage(position, a.At(0));
      Advance(c, start, start, Current(), events, 0);
      ghost var s1 := Current();
      AnalyseStage(a.load, a.At(1));
      Advance(c, start, s1, Current(), events, 1);
      ghost var s2 := Current();
      ScreenStage(a.verdict, a.At(2));
      Advance(c, start, s2, Current(), events, 2);
      ghost var s3 := Current();
      ReadStage(a.read, a.At(3));
      Advance(c, start, s3, Current(), events, 3);
      ghost var s4 := Current();
      AdmitStage(a.At(4));
      Advance(c, start, s4, Current(), events, 4);
      Finished(c, start, Current(), events);
    }

    /** After the admission: the accepted operation finishes whatever becomes of the toggle. */
    method CarryOut(a: Answers)
      requires worker.Idle? || worker.Admitted?
      modifies this, store
      ensures Current() == After(store.campaign, old(Current()), CarryOutEvents(a))
      ensures worker == Idle
    {
      hide Review, LinkRun, Apply, Finish, After, Step;
      ghost var c, start, events := store.campaign, Current(), CarryOutEvents(a);
      ReviewStage(a.review, a.At(5));
      Advance(c, start, start, Current(), events, 0);
      ghost var s6 := Current();
      LinkStage(a.At(6));
      Advance(c, start, s6, Current(), events, 1);
      ghost var s7 := Current();
      ApplyStage(a.result, a.row, a.statusClean, a.At(7));
      Advance(c, start, s7, Current(), events, 2);
      ghost var s8 := Current();
      FinishStage(a.At(8));
      Advance(c, start, s8, Current(), events, 3);
      Finished(c, start, Current(), events);
    }

    /** `process`: it always leaves the gate, and what it did is the run of its nine events. */
    method Process(position: nat, a: Answers)
      requires worker == Idle
      modifies this, store
      ensures Current() == After(store.campaign, old(Current()), DecideEvents(position, a) + CarryOutEvents(a))
      ensures worker == Idle
    {
      ghost var start := Current();
      Decide(position, a);
      CarryOut(a);
      Safety.AfterConcat(store.campaign, start, DecideEvents(position, a), CarryOutEvents(a));
    }
  }

  /** What a stage of the gate does, as a step of the helper. */
  function StageOf(c: Campaign, s: System, e: Event): System
    requires StageEvent(e)
  {
    match e
    case BeginEvent(position, fates) => Begin(c, s, position, fates)
    case AnalyseEvent(load, fates) => Analyse(c, s, load, fates)
    case ScreenEvent(verdict, fates) => ScreenRow(c, s, verdict, fates)
    case ReadEvent(read, fates) => ReadPhoto(c, s, read, fates)
    case AdmitEvent(fates) => Admit(c, s, fates)
    case ReviewEvent(review, fates) => Review(c, s, review, fates)
    case LinkEvent(fates) => LinkRun(c, s, fates)
    case ApplyEvent(result, row, statusClean, fates) => Apply(c, s, result, row, statusClean, fates)
    case FinishEvent(fates) => Finish(c, s, fates)
  }

  lemma Advance(c: Campaign, start: System, before: System, after: System, events: seq<Event>, i: nat)
    requires i < |events| && StageEvent(events[i]) && before.up
    requires i == 0 ==> before == start
    requires After(c, start, events) == After(c, before, events[i..]) || i == 0
    requires after == StageOf(c, before, events[i])
    ensures After(c, start, events) == After(c, after, events[i + 1..])
  {
    hide Begin, Analyse, ScreenRow, ReadPhoto, Admit, Review, LinkRun, Apply, Finish;
    if i == 0 {
      assert events[0..] == events;
    }
    assert events[i..][0] == events[i] && events[i..][1..] == events[i + 1..];
    assert Step(c, before, events[i]) == after;
  }

  lemma Finished(c: Campaign, start: System, end: System, events: seq<Event>)
    requires After(c, start, events) == After(c, end, events[|events|..])
    ensures After(c, start, events) == end
  {
  }
}
