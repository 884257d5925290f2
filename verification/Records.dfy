/** `PhotoRecord`: normalization and validation at construction, its manifest row, and the part of the
    row that later progress must not change. */
module Records {
  import opened Wrappers
  import Keywords

  datatype ScanState = Ready | NoopScan | AnalysisFailed
  datatype ApplyState = NotRun | Writing | Verified | NoopApply | Failed | Uncertain | Cancelled
  datatype RollbackState = RollbackNotRun | Removing | VerifiedRemoved | AlreadyAbsent | CasingConflict
                         | RollbackFailed | RollbackUncertain | RollbackCancelled
  datatype CaptionState = NotRequested | CaptionProposed | CaptionVerified | CaptionPreserved
                        | CaptionFailed | CaptionUncertain | CaptionRemoved
  datatype Stage = MetadataStage | ExportStage | AnalysisStage | CleanupStage | WorkspaceStage | ApplyStage | RollbackStage
  datatype Reason = SinglePolicy | NoLocation | LocationContext
  datatype Origin = FromModel | Manual
  datatype Error = Error(stage: Stage, code: string)

  /** A validated technical trace, kept as the value it serializes to. */
  type Trace = string
  type Date = int

  /** What the record's rules call out to: the keyword vocabulary, the caption policy, the error
      catalogue, UUID syntax, and ISO dates with their inverse. */
  datatype Rules = Rules(
    vocabulary: Keywords.Vocabulary, caption: string -> bool, catalogue: Error -> bool,
    uuid: string -> bool, iso: Date -> string, parse: string -> Option<Date>)

  /** What the scan fixed: everything but the progress of apply, rollback and caption. */
  datatype Scan = Scan(
    uuid: Option<string>, localId: string, title: string, date: Date,
    existing: seq<string>, proposed: seq<string>,
    containsPeople: Option<bool>, containsText: Option<bool>, confidence: Option<real>,
    modelUsed: Option<string>, modelReason: Option<Reason>, scanState: ScanState,
    proposedCaption: Option<string>, trace: Option<Trace>)

  datatype Progress = Progress(
    apply: ApplyState, applied: seq<string>, rollback: RollbackState, rolledBack: seq<string>,
    appliedCaption: Option<string>, caption: CaptionState,
    mutationDigest: Option<string>, rollbackDigest: Option<string>)

  datatype Review = Review(
    modelProposed: Option<seq<string>>, approved: Option<seq<string>>, origins: Option<map<string, Origin>>,
    modelCaption: Option<string>, approvedCaption: Option<string>, captionOrigin: Option<Origin>)

  datatype Record = Record(scan: Scan, progress: Progress, review: Review, errors: seq<Error>)

  // ------------------------------------------------------------------ construction

  function NfcAll(r: Rules, keywords: seq<string>): seq<string> {
    seq(|keywords|, i requires 0 <= i < |keywords| => r.vocabulary.nfc(keywords[i]))
  }

  function NfcOption(r: Rules, keywords: Option<seq<string>>): Option<seq<string>> {
    match keywords case None => None case Some(k) => Some(NfcAll(r, k))
  }

  /** The keyword review is present as soon as one of its fields is. */
  predicate Reviewed(v: Review) { v.modelProposed.Some? || v.approved.Some? || v.origins.Some? }

  predicate CaptionReviewed(v: Review) { v.modelCaption.Some? || v.approvedCaption.Some? || v.captionOrigin.Some? }

  /** `__post_init__`, as far as it rewrites fields. */
  function Normalized(r: Rules, p: Record): Record {
    var existing := NfcAll(r, p.scan.existing);
    Record(
      p.scan.(existing := existing,
              proposed := Keywords.Proposed(r.vocabulary, existing, NfcAll(r, p.scan.proposed), 8)),
      p.progress.(applied := NfcAll(r, p.progress.applied), rolledBack := NfcAll(r, p.progress.rolledBack)),
      p.review.(modelProposed := NfcOption(r, p.review.modelProposed), approved := NfcOption(r, p.review.approved)),
      p.errors)
  }

  predicate HexDigest(d: string) {
    |d| == 64 && forall i :: 0 <= i < |d| ==> d[i] in "0123456789abcdefABCDEF"
  }

  predicate CaptionText(r: Rules, c: Option<string>) { c.Some? ==> |c.value| <= 240 && r.caption(c.value) }

  predicate HasError(p: Record, stages: set<Stage>) {
    exists i :: 0 <= i < |p.errors| && p.errors[i].stage in stages
  }

  predicate ScanOk(r: Rules, s: Scan) {
    && (s.uuid.Some? ==> s.uuid.value != "" && r.uuid(s.uuid.value))
    && s.localId != ""
    && (s.confidence.Some? ==> 0.0 <= s.confidence.value <= 1.0)
    && (s.modelUsed.Some? ==> s.modelUsed.value != "")
    && (s.modelUsed.Some? <==> s.modelReason.Some?)
    && CaptionText(r, s.proposedCaption)
    && (s.proposedCaption.Some? ==> s.scanState in {Ready, NoopScan})
    && (s.scanState == Ready ==> s.uuid.Some? && s.proposed != [])
    && (s.scanState != Ready ==> s.proposed == [])
    && (s.uuid.None? ==> s.scanState == AnalysisFailed)
  }

  predicate ErrorsOk(r: Rules, p: Record) {
    && |p.errors| <= 16 && (forall i :: 0 <= i < |p.errors| ==> r.catalogue(p.errors[i]))
    && (HasError(p, {ApplyStage}) ==> p.progress.apply in {Writing, Uncertain, Failed, Cancelled})
    && (HasError(p, {RollbackStage}) ==>
          p.progress.rollback in {Removing, RollbackUncertain, RollbackFailed, RollbackCancelled, CasingConflict})
    && (p.progress.apply in {Failed, Cancelled} ==> HasError(p, {ApplyStage}))
    && (p.scan.scanState == AnalysisFailed ==> HasError(p, {MetadataStage, ExportStage, AnalysisStage}))
  }

  predicate ReviewOk(r: Rules, p: Record) {
    var v := p.review;
    && (Reviewed(v) ==>
          && v.modelProposed.Some? && v.approved.Some? && v.origins.Some?
          && v.origins.value.Keys == (set k | k in v.approved.value)
          && v.approved.value == p.scan.proposed)
    && (CaptionReviewed(v) ==>
          && CaptionText(r, v.modelCaption)
          && if v.approvedCaption.None? then v.captionOrigin.None? && p.scan.proposedCaption.None?
             else v.captionOrigin.Some? && p.scan.proposedCaption == v.approvedCaption)
  }

  /** A caption that is there and not empty. */
  predicate Given(c: Option<string>) { c.Some? && c.value != "" }

  predicate CaptionOk(r: Rules, p: Record) {
    var proposed, applied, state := p.scan.proposedCaption, p.progress.appliedCaption, p.progress.caption;
    && CaptionText(r, applied)
    && (proposed.Some? ==> state != NotRequested)
    && (applied.Some? ==> applied == proposed)
    && (state in {CaptionProposed, CaptionPreserved} ==> Given(proposed))
    && (state == CaptionPreserved ==> applied.None?)
    && (state in {CaptionVerified, CaptionRemoved} ==> Given(applied))
    && (applied.Some? ==> state in {CaptionVerified, CaptionPreserved, CaptionRemoved, CaptionUncertain})
    && (state == CaptionUncertain ==> applied.Some?)
  }

  /** Each keyword at most as often as in the other list. */
  predicate Within(some: seq<string>, all: seq<string>) {
    forall k :: k in some ==> multiset(some)[k] <= multiset(all)[k]
  }

  predicate ProgressOk(p: Record) {
    var g := p.progress;
    && (g.mutationDigest.Some? ==> HexDigest(g.mutationDigest.value))
    && (g.rollbackDigest.Some? ==> HexDigest(g.rollbackDigest.value))
    && (p.scan.scanState != Ready && g.apply !in {NotRun, NoopApply} ==>
          Given(p.scan.proposedCaption) && p.scan.proposed == [])
    && Within(g.applied, p.scan.proposed) && Within(g.rolledBack, g.applied)
    && (if g.apply == Verified then
          && (g.applied != [] || Given(g.appliedCaption))
          && (p.scan.proposedCaption.Some? ==>
                || g.caption in {CaptionVerified, CaptionPreserved, CaptionRemoved}
                || (g.rollback != RollbackNotRun && g.caption == CaptionUncertain))
        else if g.appliedCaption.Some? && !(g.apply == Uncertain
               && (g.caption == CaptionUncertain || (g.caption == CaptionVerified && g.mutationDigest.Some?)))
        then false
        else g.applied == [] || g.apply == Uncertain)
    && (g.apply != Verified ==> g.rolledBack == [])
    && (g.rollback == RollbackNotRun ==> g.rolledBack == [] && g.rollbackDigest.None?)
    && (g.caption == CaptionRemoved ==> g.rollback != RollbackNotRun)
    && (g.rollback != RollbackNotRun ==> g.apply == Verified)
  }

  predicate Checked(r: Rules, p: Record) {
    ScanOk(r, p.scan) && ErrorsOk(r, p) && ReviewOk(r, p) && CaptionOk(r, p) && ProgressOk(p)
  }

  /** The constructor: normalize, then validate or raise. */
  function Construct(r: Rules, p: Record): Option<Record> {
    var n := Normalized(r, p);
    if Checked(r, n) then Some(n) else None
  }

  /** The record as an object: construction rewrites its fields in place before judging them. */
  class PhotoRecord {
    var scan: Scan
    var progress: Progress
    var review: Review
    var errors: seq<Error>

    constructor (p: Record)
      ensures View() == p
    {
      scan, progress, review, errors := p.scan, p.progress, p.review, p.errors;
    }

    function View(): Record
      reads this
    {
      Record(scan, progress, review, errors)
    }

    method NormalizeKeywords(r: Rules, keywords: seq<string>) returns (normalized: seq<string>)
      ensures normalized == NfcAll(r, keywords)
    {
      normalized := [];
      var i := 0;
      while i < |keywords|
        invariant 0 <= i <= |keywords| && normalized == NfcAll(r, keywords)[..i]
      {
        normalized := normalized + [r.vocabulary.nfc(keywords[i])];
        i := i + 1;
      }
    }

    /** `__post_init__`: false where it raises. */
    method Initialize(r: Rules) returns (valid: bool)
      modifies this
      ensures View() == Normalized(r, old(View()))
      ensures valid <==> Construct(r, old(View())) == Some(View())
    {
      var existing := NormalizeKeywords(r, scan.existing);
      var candidates := NormalizeKeywords(r, scan.proposed);
      var proposals := Keywords.ProposeKeywords(r.vocabulary, existing, candidates, 8);
      scan := scan.(existing := existing, proposed := proposals.value);
      var applied := NormalizeKeywords(r, progress.applied);
      var rolledBack := NormalizeKeywords(r, progress.rolledBack);
      progress := progress.(applied := applied, rolledBack := rolledBack);
      if review.modelProposed.Some? {
        var model := NormalizeKeywords(r, review.modelProposed.value);
        review := review.(modelProposed := Some(model));
      }
      if review.approved.Some? {
        var approved := NormalizeKeywords(r, review.approved.value);
        review := review.(approved := Some(approved));
      }
      valid := Checked(r, View());
    }
  }

  /** What the vocabulary and the date format are relied on for. */
  ghost predicate Coherent(r: Rules) {
    && Keywords.TablesClosed(r.vocabulary)
    && (forall s :: r.vocabulary.nfc(r.vocabulary.nfc(s)) == r.vocabulary.nfc(s))
    && (forall c :: Keywords.Proposal(r.vocabulary, c).Some? ==>
          r.vocabulary.nfc(Keywords.Proposal(r.vocabulary, c).value) == Keywords.Proposal(r.vocabulary, c).value)
    && (forall d :: r.parse(r.iso(d)) == Some(d))
  }

  lemma NfcFixed(r: Rules, keywords: seq<string>)
    requires Coherent(r)
    ensures NfcAll(r, NfcAll(r, keywords)) == NfcAll(r, keywords)
  {
  }

  lemma ProposedFixed(r: Rules, existing: seq<string>, candidates: seq<string>)
    requires Coherent(r)
    ensures var proposed := Keywords.Proposed(r.vocabulary, existing, candidates, 8);
            NfcAll(r, proposed) == proposed && Keywords.Proposed(r.vocabulary, existing, proposed, 8) == proposed
  {
    var v := r.vocabulary;
    var proposed := Keywords.Proposed(v, existing, candidates, 8);
    Keywords.ProposalsAreFixed(v, existing, candidates, 8);
    Keywords.ProposalsAreNew(v, existing, candidates, 8);
    forall i | 0 <= i < |proposed| ensures v.nfc(proposed[i]) == proposed[i] {
      assert proposed[i] in proposed;
      var c :| c in candidates && Keywords.Proposal(v, c) == Some(proposed[i]);
    }
    assert NfcAll(r, proposed) == proposed;
  }

  /** Construction is idempotent: a constructed record constructs as itself. */
  lemma NormalizedFixed(r: Rules, p: Record)
    requires Coherent(r)
    ensures Normalized(r, Normalized(r, p)) == Normalized(r, p)
  {
    var existing := NfcAll(r, p.scan.existing);
    NfcFixed(r, p.scan.existing);
    ProposedFixed(r, existing, NfcAll(r, p.scan.proposed));
    NfcFixed(r, p.progress.applied);
    NfcFixed(r, p.progress.rolledBack);
    if p.review.modelProposed.Some? {
      NfcFixed(r, p.review.modelProposed.value);
    }
    if p.review.approved.Some? {
      NfcFixed(r, p.review.approved.value);
    }
    hide NfcAll, Keywords.Proposed;
  }

  // ---------------------------------------------------------------------- the row

  /** A key of a row: missing, null, or present. */
  datatype Field<T> = Missing | Null | Present(value: T)

  function Read<T>(f: Field<T>): Option<T> { if f.Present? then Some(f.value) else None }

  function Write<T>(o: Option<T>): Field<T> { match o case None => Null case Some(v) => Present(v) }

  /** A manifest row, as the keys a record writes and a reader accepts. `timezone` is date_timezone. */
  datatype Row = Row(
    uuid: Field<string>, localId: string, title: string, date: string, timezone: Field<string>,
    existing: seq<string>, proposed: seq<string>,
    containsPeople: Field<bool>, containsText: Field<bool>, confidence: Field<real>, scanState: ScanState,
    apply: ApplyState, applied: seq<string>, rollback: RollbackState, rolledBack: seq<string>, errors: seq<Error>,
    modelUsed: Field<string>, modelReason: Field<Reason>,
    proposedCaption: Field<string>, appliedCaption: Field<string>, caption: Field<CaptionState>,
    mutationDigest: Field<string>, rollbackDigest: Field<string>, trace: Field<Trace>,
    modelProposed: Field<seq<string>>, approved: Field<seq<string>>, origins: Field<map<string, Origin>>,
    modelCaption: Field<string>, approvedCaption: Field<string>, captionOrigin: Field<Origin>)

  /** The caption keys are written as soon as there is anything to say about a caption. */
  predicate CaptionWritten(p: Record) {
    p.scan.proposedCaption.Some? || p.progress.appliedCaption.Some? || p.progress.caption != NotRequested
  }

  function When<T>(written: bool, f: Field<T>): Field<T> { if written then f else Missing }

  /** `to_dict`; a review row needs its keyword review. */
  function ToDict(r: Rules, p: Record, routing: bool, review: bool): Option<Row> {
    var s, g, v, captions := p.scan, p.progress, p.review, CaptionWritten(p);
    if review && (v.modelProposed.None? || v.approved.None? || v.origins.None?) then None
    else Some(Row(
      Write(s.uuid), s.localId, s.title, r.iso(s.date), Null, s.existing, s.proposed,
      Write(s.containsPeople), Write(s.containsText), Write(s.confidence), s.scanState,
      g.apply, g.applied, g.rollback, g.rolledBack, p.errors,
      When(routing, Write(s.modelUsed)), When(routing, Write(s.modelReason)),
      When(captions, Write(s.proposedCaption)), When(captions, Write(g.appliedCaption)),
      When(captions, Present(g.caption)),
      When(g.mutationDigest.Some?, Write(g.mutationDigest)), When(g.rollbackDigest.Some?, Write(g.rollbackDigest)),
      When(s.trace.Some?, Write(s.trace)),
      When(review, Write(v.modelProposed)), When(review, Write(v.approved)), When(review, Write(v.origins)),
      When(review, Write(v.modelCaption)), When(review, Write(v.approvedCaption)), When(review, Write(v.captionOrigin))))
  }

  /** The keys a reader insists on, and those it accepts, under the two schema flags. */
  predicate KeysMatch(d: Row, routing: bool, review: bool) {
    && !d.uuid.Missing? && !d.containsPeople.Missing? && !d.containsText.Missing? && !d.confidence.Missing?
    && !d.timezone.Missing?
    && (if routing then !d.modelUsed.Missing? && !d.modelReason.Missing? else d.modelUsed.Missing? && d.modelReason.Missing?)
    && (if review
        then !d.modelProposed.Missing? && !d.approved.Missing? && !d.origins.Missing?
             && !d.modelCaption.Missing? && !d.approvedCaption.Missing? && !d.captionOrigin.Missing?
        else d.modelProposed.Missing? && d.approved.Missing? && d.origins.Missing?
             && d.modelCaption.Missing? && d.approvedCaption.Missing? && d.captionOrigin.Missing?)
  }

  /** The record a row's values make, before construction. */
  function Assembled(r: Rules, d: Row, date: Date): Record {
    Record(
      Scan(Read(d.uuid), d.localId, d.title, date, NfcAll(r, d.existing), NfcAll(r, d.proposed),
           Read(d.containsPeople), Read(d.containsText), Read(d.confidence), Read(d.modelUsed), Read(d.modelReason),
           d.scanState, Read(d.proposedCaption), Read(d.trace)),
      Progress(d.apply, NfcAll(r, d.applied), d.rollback, NfcAll(r, d.rolledBack), Read(d.appliedCaption),
               if d.caption.Present? then d.caption.value else NotRequested,
               Read(d.mutationDigest), Read(d.rollbackDigest)),
      Review(NfcOption(r, Read(d.modelProposed)), NfcOption(r, Read(d.approved)), Read(d.origins),
             Read(d.modelCaption), Read(d.approvedCaption), Read(d.captionOrigin)),
      d.errors)
  }

  /** `from_dict`. A null keyword list, caption state or trace is no value of its type. */
  function FromDict(r: Rules, d: Row, routing: bool, review: bool): Option<Record> {
    if !KeysMatch(d, routing, review) || d.timezone != Null || r.parse(d.date).None? then None
    else if d.caption.Null? || d.trace.Null? || (review && (d.modelProposed.Null? || d.approved.Null?)) then None
    else Construct(r, Assembled(r, d, r.parse(d.date).value))
  }

  /** The flags a record can be written under without losing anything. */
  predicate FlagsFit(p: Record, routing: bool, review: bool) {
    && (!routing ==> p.scan.modelUsed.None? && p.scan.modelReason.None?)
    && (review ==> Reviewed(p.review))
    && (!review ==> p.review == Review(None, None, None, None, None, None))
  }

  lemma WrittenKeys(r: Rules, p: Record, routing: bool, review: bool)
    requires Coherent(r) && ToDict(r, p, routing, review).Some?
    ensures var d := ToDict(r, p, routing, review).value;
            && r.parse(d.date) == Some(p.scan.date) && KeysMatch(d, routing, review) && d.timezone == Null
            && !d.caption.Null? && !d.trace.Null? && (review ==> !d.modelProposed.Null? && !d.approved.Null?)
  {
    assert r.parse(r.iso(p.scan.date)) == Some(p.scan.date);
    hide NfcAll, Coherent;
  }

  lemma WrittenScan(r: Rules, p: Record, routing: bool, review: bool)
    requires ToDict(r, p, routing, review).Some?
    ensures var s := p.scan;
            Assembled(r, ToDict(r, p, routing, review).value, s.date).scan
            == s.(existing := NfcAll(r, s.existing), proposed := NfcAll(r, s.proposed),
                  modelUsed := if routing then s.modelUsed else None,
                  modelReason := if routing then s.modelReason else None)
  {
    hide NfcAll;
  }

  lemma WrittenProgress(r: Rules, p: Record, routing: bool, review: bool)
    requires ToDict(r, p, routing, review).Some?
    ensures var g := p.progress;
            Assembled(r, ToDict(r, p, routing, review).value, p.scan.date).progress
            == g.(applied := NfcAll(r, g.applied), rolledBack := NfcAll(r, g.rolledBack))
  {
    hide NfcAll;
  }

  lemma WrittenReview(r: Rules, p: Record, routing: bool, review: bool)
    requires ToDict(r, p, routing, review).Some?
    ensures var v := p.review;
            Assembled(r, ToDict(r, p, routing, review).value, p.scan.date).review
            == if review then v.(modelProposed := NfcOption(r, v.modelProposed), approved := NfcOption(r, v.approved))
               else Review(None, None, None, None, None, None)
    ensures Assembled(r, ToDict(r, p, routing, review).value, p.scan.date).errors == p.errors
  {
    hide NfcAll;
  }

  lemma NormalizedParts(r: Rules, p: Record)
    requires Coherent(r) && Normalized(r, p) == p
    ensures NfcAll(r, p.scan.existing) == p.scan.existing && NfcAll(r, p.scan.proposed) == p.scan.proposed
    ensures NfcAll(r, p.progress.applied) == p.progress.applied
    ensures NfcAll(r, p.progress.rolledBack) == p.progress.rolledBack
    ensures NfcOption(r, p.review.modelProposed) == p.review.modelProposed
    ensures NfcOption(r, p.review.approved) == p.review.approved
  {
    ProposedFixed(r, NfcAll(r, p.scan.existing), NfcAll(r, p.scan.proposed));
    hide NfcAll, Keywords.Proposed;
  }

  /** A constructed record is read back from its row as itself, exactly under the flags that fit it. */
  lemma RowsRoundTrip(r: Rules, raw: Record, p: Record, routing: bool, review: bool)
    requires Coherent(r) && Construct(r, raw) == Some(p)
    ensures (ToDict(r, p, routing, review).Some?
             && FromDict(r, ToDict(r, p, routing, review).value, routing, review) == Some(p))
            <==> FlagsFit(p, routing, review)
  {
    hide Checked, NfcAll, Assembled, ToDict, Keywords.Proposed, Coherent, Normalized;
    NormalizedFixed(r, raw);
    ReviewComplete(r, p);
    NormalizedParts(r, p);
    WrittenExactly(r, p, routing, review);
    if ToDict(r, p, routing, review).Some? {
      WrittenKeys(r, p, routing, review);
      WrittenScan(r, p, routing, review);
      WrittenProgress(r, p, routing, review);
      WrittenReview(r, p, routing, review);
      var d := ToDict(r, p, routing, review).value;
      var back := Assembled(r, d, p.scan.date);
      if FlagsFit(p, routing, review) {
      } else {
        NormalizedKeeps(r, back);
      }
    }
  }

  lemma ReviewComplete(r: Rules, p: Record)
    requires Checked(r, p)
    ensures Reviewed(p.review) ==> p.review.modelProposed.Some? && p.review.approved.Some? && p.review.origins.Some?
  {
    hide ScanOk, ErrorsOk, CaptionOk, ProgressOk;
  }

  lemma WrittenExactly(r: Rules, p: Record, routing: bool, review: bool)
    ensures ToDict(r, p, routing, review).None?
            <==> review && (p.review.modelProposed.None? || p.review.approved.None? || p.review.origins.None?)
  {
  }

  /** Normalization leaves routing alone and never invents or drops a review field. */
  lemma NormalizedKeeps(r: Rules, p: Record)
    ensures var n := Normalized(r, p);
            && n.scan.modelUsed == p.scan.modelUsed && n.scan.modelReason == p.scan.modelReason
            && (Reviewed(n.review) <==> Reviewed(p.review))
            && (p.review == Review(None, None, None, None, None, None) ==> n.review == p.review)
  {
  }

  // ------------------------------------------------------------- the immutable part

  function ScanErrors(errors: seq<Error>): seq<Error> {
    if errors == [] then []
    else if errors[0].stage in {ApplyStage, RollbackStage} then ScanErrors(errors[1..])
    else [errors[0]] + ScanErrors(errors[1..])
  }

  /** `immutable_dict`: the row without its progress keys, and without apply and rollback errors. */
  datatype ImmutableRow = ImmutableRow(
    scan: Scan, date: string, modelUsed: Field<string>, modelReason: Field<Reason>,
    proposedCaption: Field<string>, errors: seq<Error>, review: Option<Review>)

  function Immutable(r: Rules, p: Record, routing: bool, review: bool): Option<ImmutableRow> {
    match ToDict(r, p, routing, review)
    case None => None
    case Some(d) =>
      Some(ImmutableRow(
        p.scan.(modelUsed := None, modelReason := None, proposedCaption := None), d.date, d.modelUsed, d.modelReason,
        d.proposedCaption, ScanErrors(p.errors), if review then Some(p.review) else None))
  }

  /** Two records that differ at most in the progress of apply, rollback and caption. */
  predicate SameScan(a: Record, b: Record) {
    a.scan == b.scan && a.review == b.review && ScanErrors(a.errors) == ScanErrors(b.errors)
  }

  /** Without a proposed caption the only caption progress a valid record can show is a failure. */
  lemma NoCaptionNoProgress(r: Rules, p: Record)
    requires Checked(r, p) && p.scan.proposedCaption.None?
    ensures p.progress.appliedCaption.None? && p.progress.caption in {NotRequested, CaptionFailed}
  {
    hide ScanOk, ErrorsOk, ReviewOk, ProgressOk;
  }

  /** Progress never changes the immutable part of a valid record, except where a caption failed that
      was never proposed: such a row carries a null caption key, and one that has not failed does not. */
  lemma ProgressLeavesScanAlone(r: Rules, a: Record, b: Record, routing: bool, review: bool)
    requires Checked(r, a) && Checked(r, b) && SameScan(a, b)
    requires ToDict(r, a, routing, review).Some?
    ensures Immutable(r, a, routing, review) == Immutable(r, b, routing, review)
            <==> (a.scan.proposedCaption.Some?
                  || (a.progress.caption == CaptionFailed <==> b.progress.caption == CaptionFailed))
  {
    if a.scan.proposedCaption.None? {
      NoCaptionNoProgress(r, a);
      NoCaptionNoProgress(r, b);
    }
    hide Checked;
  }

  function ImmutableRows(r: Rules, photos: seq<Record>, routing: bool, review: bool): seq<Option<ImmutableRow>> {
    seq(|photos|, i requires 0 <= i < |photos| => Immutable(r, photos[i], routing, review))
  }

  /** A caption failed unproposed in both rows or in neither. */
  predicate SameFailure(a: Record, b: Record) {
    a.scan.proposedCaption.Some? || (a.progress.caption == CaptionFailed <==> b.progress.caption == CaptionFailed)
  }

  /** The scan digest, over the immutable parts of all photos, survives the progress of a manifest in
      which a caption fails unproposed in no photo where it had not; and, when digests do not collide,
      in no other. */
  lemma DigestSurvivesProgress(r: Rules, digest: seq<Option<ImmutableRow>> -> string, before: seq<Record>,
                               after: seq<Record>, routing: bool, review: bool)
    requires |before| == |after|
    requires forall i | 0 <= i < |before| ::
               && Checked(r, before[i]) && Checked(r, after[i]) && SameScan(before[i], after[i])
               && ToDict(r, before[i], routing, review).Some?
    ensures (forall i :: 0 <= i < |before| ==> SameFailure(before[i], after[i])) ==>
              digest(ImmutableRows(r, before, routing, review)) == digest(ImmutableRows(r, after, routing, review))
    ensures (forall x, y :: digest(x) == digest(y) ==> x == y) ==>
              digest(ImmutableRows(r, before, routing, review)) == digest(ImmutableRows(r, after, routing, review)) ==>
                forall i :: 0 <= i < |before| ==> SameFailure(before[i], after[i])
  {
    hide Checked, SameScan, ToDict, Immutable;
    var one, other := ImmutableRows(r, before, routing, review), ImmutableRows(r, after, routing, review);
    forall i | 0 <= i < |before| ensures one[i] == other[i] <==> SameFailure(before[i], after[i]) {
      ProgressLeavesScanAlone(r, before[i], after[i], routing, review);
    }
    if forall i :: 0 <= i < |before| ==> SameFailure(before[i], after[i]) {
      assert one == other;
    } else {
      var i :| 0 <= i < |before| && !SameFailure(before[i], after[i]);
      assert one[i] != other[i];
    }
  }
}
