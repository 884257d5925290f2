/** What the mutations of one store keep: immutable evidence only grows, its bindings hold, and
    nothing but an accepted authorization opens admission. */
module CampaignMutations {
  import opened Wrappers
  import opened CampaignEvidence
  import opened CampaignStore

  // =================================================== evidence only ever grows

  ghost predicate SubMap<K(!new), V(!new)>(small: map<K, V>, large: map<K, V>) {
    forall k :: k in small ==> k in large && large[k] == small[k]
  }

  predicate LinkKept(before: Run, after: Run) {
    before.link.Some? ==> after.link == before.link
  }

  /** Nothing immutable is altered or lost. */
  ghost predicate Grows(before: Files, after: Files) {
    && SubMap(before.controls, after.controls)
    && SubMap(before.authorizations, after.authorizations)
    && before.examined <= after.examined
    && SubMap(before.analyses, after.analyses)
    && SubMap(before.decisions, after.decisions)
    && SubMap(before.reviews, after.reviews)
    && SubMap(before.outcomes, after.outcomes)
    && (forall r | r in before.runs :: r in after.runs && LinkKept(before.runs[r], after.runs[r]))
  }

  /** The bindings between artifacts that make a directory a campaign. */
  ghost predicate Bound(c: Campaign, files: Files) {
    && (forall p :: p in files.examined ==> p < c.total)
    && files.analyses.Keys <= files.examined
    && files.decisions.Keys <= files.analyses.Keys
    && files.reviews.Keys <= files.decisions.Keys
    && files.outcomes.Keys <= files.examined
    && (forall id :: id in files.authorizations ==> AuthorizationSound(files, id))
    && (forall p :: p in files.decisions ==> files.decisions[p].authorization in files.authorizations)
  }

  ghost predicate Extends(c: Campaign, before: Files, after: Files) {
    Grows(before, after) && (Bound(c, before) ==> Bound(c, after))
  }

  function Authorized(files: Files, request: Control, authorized: bool): Files {
    files.(controls := files.controls[request.decision := request],
           authorizations := if authorized then files.authorizations[request.decision := request.command]
                             else files.authorizations)
  }

  lemma ControlExtends(c: Campaign, files: Files, request: Control, authorized: bool)
    requires request.decision !in files.controls
    requires authorized ==> request.decision !in files.authorizations && request.command != PauseCampaign
    ensures Extends(c, files, Authorized(files, request, authorized))
  {
    var after := Authorized(files, request, authorized);
    forall id | Bound(c, files) && id in after.authorizations ensures AuthorizationSound(after, id) {
      if id != request.decision { assert AuthorizationSound(files, id); }
    }
  }

  lemma AnalysisExtends(c: Campaign, files: Files, position: nat, source: Source)
    requires position !in files.analyses && position in files.examined
    ensures Extends(c, files, files.(analyses := files.analyses[position := source]))
  {
    var after := files.(analyses := files.analyses[position := source]);
    assert forall id :: AuthorizationSound(files, id) == AuthorizationSound(after, id);
  }

  lemma SettleExtends(c: Campaign, files: Files, position: nat, value: Settlement)
    requires position !in files.outcomes && position in files.examined
    ensures Extends(c, files, files.(outcomes := files.outcomes[position := value]))
  {
    var after := files.(outcomes := files.outcomes[position := value]);
    assert forall id :: AuthorizationSound(files, id) == AuthorizationSound(after, id);
  }

  lemma ExamineExtends(c: Campaign, files: Files, position: nat)
    requires position < c.total
    ensures Extends(c, files, files.(examined := files.examined + {position}))
  {
    var after := files.(examined := files.examined + {position});
    assert forall id :: AuthorizationSound(files, id) == AuthorizationSound(after, id);
  }

  // ------------------------------------------- what each store mutation may change

  ghost predicate KeepsClosed(s: Store, t: Store) {
    t.mem.authorization in {None, s.mem.authorization}
  }

  /** A published checkpoint is replaced, never removed. */
  predicate SavedKept(s: Store, t: Store) {
    s.saved.Some? ==> t.saved.Some?
  }

  /** A mutation that leaves decisions, reviews and runs as they were. */
  ghost predicate Quiet(c: Campaign, s: Store, t: Store) {
    && Extends(c, s.files, t.files)
    && t.files.decisions == s.files.decisions
    && t.files.reviews == s.files.reviews
    && t.files.runs == s.files.runs
    && t.files.orphans == s.files.orphans
    && SavedKept(s, t)
    && t.mem.checkpoint.revision >= s.mem.checkpoint.revision
  }

  lemma QuietSame(c: Campaign, s: Store, t: Store)
    requires s.files == t.files && SavedKept(s, t) && t.mem.checkpoint.revision >= s.mem.checkpoint.revision
    ensures Quiet(c, s, t)
  {
  }

  lemma CheckpointShape(c: Campaign, s: Store, changed: Checkpoint, fate: Fate)
    requires changed.revision >= s.mem.checkpoint.revision
    ensures var t := CheckpointState(c, s, changed, fate).0;
            && s.files == t.files && SavedKept(s, t)
            && t.mem.(checkpoint := s.mem.checkpoint) == s.mem
            && t.mem.checkpoint.revision >= s.mem.checkpoint.revision
  {
  }

  lemma FailClosedShape(c: Campaign, s: Store, reason: Reason, fate: Fate)
    ensures var t := FailClosed(c, s, reason, fate);
            && s.files == t.files && SavedKept(s, t)
            && t.mem.authorization == None
            && t.mem.inFlight == s.mem.inFlight
            && t.mem.checkpoint.revision >= s.mem.checkpoint.revision
  {
  }

  /** `Guarded` adds at most a closed checkpoint to what the operation itself did. */
  lemma GuardShape(c: Campaign, result: (Store, Reply), fate: Fate)
    ensures var (t, reply) := Guarded(c, result, fate);
            && reply == result.1 && result.0.files == t.files && SavedKept(result.0, t)
            && t.mem.authorization in {None, result.0.mem.authorization}
            && t.mem.checkpoint.revision >= result.0.mem.checkpoint.revision
            && (reply != Failed ==> t == result.0)
  {
    FailClosedShape(c, result.0, Storage, fate);
  }

  lemma AuthorizeShape(c: Campaign, s: Store, request: Control, fates: Fates)
    ensures var (t, reply) := AuthorizeBody(c, s, request, fates);
            && t.mem.checkpoint.revision >= s.mem.checkpoint.revision && SavedKept(s, t)
            && (reply != Accepted ==> t.mem.authorization == s.mem.authorization)
            && (reply == Accepted ==> t.mem.authorization == Some(request.decision))
            && (reply in {Replayed, Refused} && request.decision in s.files.controls ==> t == s)
            && (|| (s.files == t.files && reply != Accepted)
                || (&& request.decision !in s.files.controls && request.command != PauseCampaign
                    && t.files == Authorized(s.files, request, false) && reply != Accepted)
                || (&& request.decision !in s.files.controls && request.command != PauseCampaign
                    && request.decision !in s.files.authorizations
                    && t.files == Authorized(s.files, request, true)))
  {
  }

  lemma AuthorizeIsQuiet(c: Campaign, s: Store, request: Control, fates: Fates)
    ensures var (t, reply) := Authorize(c, s, request, fates);
            && s.files.authorizations.Keys <= t.files.authorizations.Keys
            && Quiet(c, s, t) && t.files.outcomes == s.files.outcomes
            && (!KeepsClosed(s, t) ==> reply == Accepted)
            && (reply in {Replayed, Refused} && request.decision in s.files.controls ==> t == s)
            && (reply == Accepted ==>
                  && request.decision !in s.files.controls && request.decision in t.files.authorizations
                  && t.mem.authorization == Some(request.decision))
  {
    AuthorizeShape(c, s, request, fates);
    GuardShape(c, AuthorizeBody(c, s, request, fates), fates.closing);
    var t := Authorize(c, s, request, fates).0;
    if s.files == t.files { QuietSame(c, s, t); }
    else if t.files == Authorized(s.files, request, false) { ControlExtends(c, s.files, request, false); }
    else { ControlExtends(c, s.files, request, true); }
  }

  lemma PauseShape(c: Campaign, s: Store, request: Control, fates: Fates)
    ensures var t := PauseBody(c, s, request, fates).0;
            && (|| s.files == t.files
                || (request.decision !in s.files.controls && t.files == Authorized(s.files, request, false)))
            && KeepsClosed(s, t) && t.mem.checkpoint.revision >= s.mem.checkpoint.revision && SavedKept(s, t)
            && (request.command == PauseCampaign ==> t.mem.authorization == None)
  {
  }

  lemma PauseIsQuiet(c: Campaign, s: Store, request: Control, fates: Fates)
    ensures var t := Pause(c, s, request, fates).0;
            && Quiet(c, s, t) && t.files.outcomes == s.files.outcomes && KeepsClosed(s, t)
            && t.files.examined == s.files.examined
            && (request.command == PauseCampaign ==> t.mem.authorization == None)
  {
    var t := Pause(c, s, request, fates).0;
    PauseShape(c, s, request, fates);
    GuardShape(c, PauseBody(c, s, request, fates), fates.closing);
    if s.files == t.files { QuietSame(c, s, t); }
    else { ControlExtends(c, s.files, request, false); }
  }

  lemma ExamineShape(c: Campaign, s: Store, position: nat, fates: Fates)
    ensures var t := MarkExaminedBody(c, s, position, fates).0;
            && (|| s.files == t.files
                || (position < c.total && t.files == s.files.(examined := s.files.examined + {position})))
            && t.mem.authorization == s.mem.authorization && t.mem.checkpoint.revision >= s.mem.checkpoint.revision && SavedKept(s, t)
  {
  }

  lemma ExamineIsQuiet(c: Campaign, s: Store, position: nat, fates: Fates)
    ensures var t := MarkExamined(c, s, position, fates).0;
            Quiet(c, s, t) && KeepsClosed(s, t) && t.files.outcomes == s.files.outcomes
  {
    var t := MarkExamined(c, s, position, fates).0;
    ExamineShape(c, s, position, fates);
    GuardShape(c, MarkExaminedBody(c, s, position, fates), fates.closing);
    if s.files == t.files { QuietSame(c, s, t); }
    else { ExamineExtends(c, s.files, position); }
  }

  lemma SettleShape(c: Campaign, s: Store, position: nat, value: Settlement, fates: Fates)
    ensures var t := SettleBody(c, s, position, value, fates).0;
            && (|| s.files == t.files
                || (&& position !in s.files.outcomes && position in s.files.examined
                    && t.files == s.files.(outcomes := s.files.outcomes[position := value])))
            && KeepsClosed(s, t) && t.mem.checkpoint.revision >= s.mem.checkpoint.revision && SavedKept(s, t)
  {
  }

  lemma SettleIsQuiet(c: Campaign, s: Store, position: nat, value: Settlement, fates: Fates)
    ensures var t := Settle(c, s, position, value, fates).0;
            && Quiet(c, s, t) && KeepsClosed(s, t)
            && (t.files.outcomes == s.files.outcomes
                || (position !in s.files.outcomes && t.files.outcomes == s.files.outcomes[position := value]))
  {
    var t := Settle(c, s, position, value, fates).0;
    SettleShape(c, s, position, value, fates);
    GuardShape(c, SettleBody(c, s, position, value, fates), fates.closing);
    if s.files == t.files { QuietSame(c, s, t); }
    else { SettleExtends(c, s.files, position, value); }
  }

  lemma ReleaseIsQuiet(c: Campaign, s: Store, position: nat, fates: Fates)
    ensures var t := Release(c, s, position, fates).0;
            Quiet(c, s, t) && KeepsClosed(s, t) && t.files.outcomes == s.files.outcomes
  {
    GuardShape(c, ReleaseBody(c, s, position, fates), fates.closing);
    QuietSame(c, s, Release(c, s, position, fates).0);
  }

  lemma AnalysisShape(c: Campaign, s: Store, position: nat, load: SourceLoad, fates: Fates)
    ensures var (t, reply) := RecordAnalysisBody(c, s, position, load, fates);
            && (|| s.files == t.files
                || (&& position !in s.files.analyses && position in s.files.examined && load.Loaded?
                    && t.files == s.files.(analyses := s.files.analyses[position := load.source])))
            && t.mem.authorization == s.mem.authorization && t.mem.checkpoint.revision >= s.mem.checkpoint.revision && SavedKept(s, t)
            && (reply == Accepted && load.Loaded? ==>
                  position in t.files.analyses && t.files.analyses[position] == load.source)
  {
  }

  lemma AnalysisIsQuiet(c: Campaign, s: Store, position: nat, load: SourceLoad, fates: Fates)
    ensures var (t, reply) := RecordAnalysis(c, s, position, load, fates);
            && Quiet(c, s, t) && KeepsClosed(s, t) && t.files.outcomes == s.files.outcomes
            && (reply == Accepted && load.Loaded? ==>
                  position in t.files.analyses && t.files.analyses[position] == load.source)
  {
    var t := RecordAnalysis(c, s, position, load, fates).0;
    AnalysisShape(c, s, position, load, fates);
    GuardShape(c, RecordAnalysisBody(c, s, position, load, fates), fates.closing);
    if s.files == t.files { QuietSame(c, s, t); }
    else { AnalysisExtends(c, s.files, position, load.source); }
  }
}
