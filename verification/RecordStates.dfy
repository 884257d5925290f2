/** Which photo records are constructible, state by state: the one constructor judges all fields together, here
    each scan, caption, apply and rollback state says by itself what it goes with. */
module RecordStates {
  import opened Wrappers
  import opened Records
  import Keywords

  // ------------------------------------------------------------------- the scan

  /** A ready photo has a UUID and proposals, a photo without proposals has a UUID, one that could not be
      analysed has neither proposals nor a caption. */
  lemma ScanByState(r: Rules, s: Scan)
    ensures ScanOk(r, s)
            <==> && s.localId != "" && (s.uuid == None || (s.uuid.value != "" && r.uuid(s.uuid.value)))
                 && (s.confidence == None || (0.0 <= s.confidence.value && s.confidence.value <= 1.0))
                 && (if s.modelUsed == None then s.modelReason == None else s.modelUsed.value != "" && s.modelReason != None)
                 && (s.proposedCaption == None || (|s.proposedCaption.value| < 241 && r.caption(s.proposedCaption.value)))
                 && match s.scanState
                    case Ready => s.uuid != None && s.proposed != []
                    case NoopScan => s.uuid != None && s.proposed == []
                    case AnalysisFailed => s.proposed == [] && s.proposedCaption == None
  {
  }

  // ---------------------------------------------------------------- the caption

  /** What each caption state goes with. */
  lemma CaptionByState(r: Rules, p: Record)
    ensures var (proposed, applied) := (p.scan.proposedCaption, p.progress.appliedCaption);
            CaptionOk(r, p)
            <==> && (applied == None || (|applied.value| < 241 && r.caption(applied.value)))
                 && match p.progress.caption
                    case NotRequested => proposed == None && applied == None
                    case CaptionProposed => proposed != None && proposed != Some("") && applied == None
                    case CaptionPreserved => proposed != None && proposed != Some("") && applied == None
                    case CaptionFailed => applied == None
                    case CaptionUncertain => applied != None && applied == proposed
                    case CaptionVerified => applied != None && applied != Some("") && applied == proposed
                    case CaptionRemoved => applied != None && applied != Some("") && applied == proposed
  {
  }

  // ------------------------------------------------------------------ the errors

  predicate ErrorAt(p: Record, stage: Stage) { exists i :: 0 <= i < |p.errors| && p.errors[i].stage == stage }

  /** Errors of a stage need a state that admits them; a failed or cancelled apply needs one. */
  lemma ErrorsByState(r: Rules, p: Record)
    ensures ErrorsOk(r, p)
            <==> && |p.errors| < 17 && (forall e | e in p.errors :: r.catalogue(e))
                 && (match p.progress.apply
                     case NotRun => !ErrorAt(p, ApplyStage)
                     case NoopApply => !ErrorAt(p, ApplyStage)
                     case Verified => !ErrorAt(p, ApplyStage)
                     case Writing => true
                     case Uncertain => true
                     case Failed => ErrorAt(p, ApplyStage)
                     case Cancelled => ErrorAt(p, ApplyStage))
                 && (match p.progress.rollback
                     case RollbackNotRun => !ErrorAt(p, RollbackStage)
                     case VerifiedRemoved => !ErrorAt(p, RollbackStage)
                     case AlreadyAbsent => !ErrorAt(p, RollbackStage)
                     case _ => true)
                 && (p.scan.scanState == AnalysisFailed ==>
                       ErrorAt(p, MetadataStage) || ErrorAt(p, ExportStage) || ErrorAt(p, AnalysisStage))
  {
    StagesSpelledOut(p);
    assert (forall i :: 0 <= i < |p.errors| ==> r.catalogue(p.errors[i])) <==> forall e | e in p.errors :: r.catalogue(e);
    hide HasError, ErrorAt;
  }

  lemma StagesSpelledOut(p: Record)
    ensures HasError(p, {ApplyStage}) <==> ErrorAt(p, ApplyStage)
    ensures HasError(p, {RollbackStage}) <==> ErrorAt(p, RollbackStage)
    ensures HasError(p, {MetadataStage, ExportStage, AnalysisStage})
            <==> ErrorAt(p, MetadataStage) || ErrorAt(p, ExportStage) || ErrorAt(p, AnalysisStage)
  {
  }

  // ---------------------------------------------------------------- the progress

  /** One list is contained in another with its repetitions. */
  predicate Contained(some: seq<string>, all: seq<string>) {
    multiset(some) <= multiset(all)
  }

  predicate Hexadecimal(d: Option<string>) {
    d == None || (|d.value| == 64 && forall c | c in d.value :: '0' <= c <= '9' || 'a' <= c <= 'f' || 'A' <= c <= 'F')
  }

  /** Only a verified apply can be rolled back, or have been: nothing of it shows in any other state. */
  predicate NeverRolledBack(g: Progress) {
    && g.rollback == RollbackNotRun && g.rolledBack == [] && g.rollbackDigest == None && g.caption != CaptionRemoved
  }

  /** What each apply state goes with. */
  lemma ProgressByState(p: Record)
    requires p.scan.scanState == Ready || p.scan.proposed == []
    ensures var g := p.progress;
            var mutable := p.scan.scanState == Ready
                           || (p.scan.proposedCaption != None && p.scan.proposedCaption != Some(""));
            ProgressOk(p)
            <==> && Hexadecimal(g.mutationDigest) && Hexadecimal(g.rollbackDigest) && Contained(g.applied, p.scan.proposed)
                 && match g.apply
                    case NotRun => NeverRolledBack(g) && g.applied == [] && g.appliedCaption == None
                    case NoopApply => NeverRolledBack(g) && g.applied == [] && g.appliedCaption == None
                    case Writing => NeverRolledBack(g) && mutable && g.applied == [] && g.appliedCaption == None
                    case Failed => NeverRolledBack(g) && mutable && g.applied == [] && g.appliedCaption == None
                    case Cancelled => NeverRolledBack(g) && mutable && g.applied == [] && g.appliedCaption == None
                    case Uncertain =>
                      && NeverRolledBack(g) && mutable
                      && (g.appliedCaption == None || g.caption == CaptionUncertain
                          || (g.caption == CaptionVerified && g.mutationDigest != None))
                    case Verified =>
                      && mutable && (g.applied != [] || (g.appliedCaption != None && g.appliedCaption != Some("")))
                      && (if g.rollback == RollbackNotRun
                          then && NeverRolledBack(g)
                               && (p.scan.proposedCaption == None
                                   || g.caption == CaptionVerified || g.caption == CaptionPreserved)
                          else && Contained(g.rolledBack, g.applied)
                               && (p.scan.proposedCaption == None
                                   || g.caption == CaptionVerified || g.caption == CaptionPreserved
                                   || g.caption == CaptionRemoved || g.caption == CaptionUncertain))
  {
    WithinSpelledOut(p.progress.applied, p.scan.proposed);
    WithinSpelledOut(p.progress.rolledBack, p.progress.applied);
    HexSpelledOut(p.progress.mutationDigest);
    HexSpelledOut(p.progress.rollbackDigest);
    hide Within, Contained, HexDigest, Hexadecimal;
    NothingContained(p.progress.applied);
    NothingContained(p.scan.proposed);
  }

  lemma WithinSpelledOut(some: seq<string>, all: seq<string>)
    ensures Within(some, all) <==> Contained(some, all)
  {
    if Within(some, all) {
      forall k ensures multiset(some)[k] <= multiset(all)[k] {
        if k !in some { assert k !in multiset(some); }
      }
    }
    if Contained(some, all) {
      forall k | k in some ensures multiset(some)[k] <= multiset(all)[k] {
      }
    }
  }

  lemma NothingContained(all: seq<string>)
    ensures Contained([], all)
  {
  }

  lemma HexSpelledOut(d: Option<string>)
    ensures (d.Some? ==> HexDigest(d.value)) <==> Hexadecimal(d)
  {
    var digits := "0123456789abcdefABCDEF";
    assert forall c :: c in digits <==> '0' <= c <= '9' || 'a' <= c <= 'f' || 'A' <= c <= 'F';
    if d.Some? && HexDigest(d.value) {
      forall c | c in d.value ensures c in digits {
        var i :| 0 <= i < |d.value| && d.value[i] == c;
      }
    }
    if d.Some? && Hexadecimal(d) {
      forall i | 0 <= i < |d.value| ensures d.value[i] in digits {
        assert d.value[i] in d.value;
      }
    }
  }

  // ------------------------------------------------------------------ the review

  /** A keyword review is absent or complete, covers the approved keywords with an origin each, and approves
      what is to be applied; a caption review says the same of the caption, or rejects it. */
  lemma ReviewByPresence(r: Rules, p: Record)
    ensures var v := p.review;
            ReviewOk(r, p)
            <==> && (|| (v.modelProposed == None && v.approved == None && v.origins == None)
                     || (&& v.modelProposed != None && v.approved == Some(p.scan.proposed) && v.origins != None
                         && forall k :: k in v.origins.value <==> k in p.scan.proposed))
                 && (v.modelCaption == None || (|v.modelCaption.value| < 241 && r.caption(v.modelCaption.value)))
                 && (|| (v.modelCaption == None && v.approvedCaption == None && v.captionOrigin == None)
                     || (if v.approvedCaption == None then v.captionOrigin == None && p.scan.proposedCaption == None
                         else v.captionOrigin != None && p.scan.proposedCaption == v.approvedCaption))
  {
    var v := p.review;
    if v.approved.Some? && v.origins.Some? {
      assert v.origins.value.Keys == (set k | k in v.approved.value)
             <==> forall k :: k in v.origins.value <==> k in v.approved.value;
    }
  }

  // -------------------------------------------------------------- the normalization

  /** What construction rewrites: every keyword list entry by entry, the proposals from the existing ones. */
  lemma NormalizedSpelledOut(r: Rules, p: Record)
    ensures var n := Normalized(r, p);
            && n.errors == p.errors
            && Respelled(r, p.scan.existing, n.scan.existing)
            && Respelled(r, p.progress.applied, n.progress.applied)
            && Respelled(r, p.progress.rolledBack, n.progress.rolledBack)
            && (p.review.modelProposed == None <==> n.review.modelProposed == None)
            && (p.review.approved == None <==> n.review.approved == None)
            && (p.review.modelProposed != None ==> Respelled(r, p.review.modelProposed.value, n.review.modelProposed.value))
            && (p.review.approved != None ==> Respelled(r, p.review.approved.value, n.review.approved.value))
            && n.scan == p.scan.(existing := n.scan.existing, proposed := n.scan.proposed)
            && n.progress == p.progress.(applied := n.progress.applied, rolledBack := n.progress.rolledBack)
            && n.review == p.review.(modelProposed := n.review.modelProposed, approved := n.review.approved)
            && exists candidates :: Respelled(r, p.scan.proposed, candidates)
                 && n.scan.proposed == Keywords.Proposed(r.vocabulary, n.scan.existing, candidates, 8)
  {
    assert Respelled(r, p.scan.proposed, NfcAll(r, p.scan.proposed));
  }

  predicate Respelled(r: Rules, before: seq<string>, after: seq<string>) {
    |after| == |before| && forall i :: 0 <= i < |before| ==> after[i] == r.vocabulary.nfc(before[i])
  }

  // ------------------------------------------------------------ what the digest covers

  /** The errors of the scan are all but those of apply and rollback, each as often as it was. */
  lemma {:induction false} ScanErrorsSpelledOut(errors: seq<Error>, e: Error)
    ensures multiset(ScanErrors(errors))[e]
            == if e.stage == ApplyStage || e.stage == RollbackStage then 0 else multiset(errors)[e]
    decreases |errors|
  {
    if errors != [] {
      assert errors == [errors[0]] + errors[1..];
      ScanErrorsSpelledOut(errors[1..], e);
    }
  }

  /** Two records have one immutable row exactly when they agree in everything the scan found, in the errors of
      the scan, in the routing of the model and the review where they are written, and, without a proposed
      caption, in whether there is anything else to say about one. */
  lemma ImmutableCoversScan(r: Rules, a: Record, b: Record, routing: bool, review: bool)
    requires Immutable(r, a, routing, review).Some? && Immutable(r, b, routing, review).Some?
    ensures Immutable(r, a, routing, review) == Immutable(r, b, routing, review)
            <==> && a.scan.uuid == b.scan.uuid && a.scan.localId == b.scan.localId && a.scan.title == b.scan.title
                 && a.scan.date == b.scan.date && a.scan.existing == b.scan.existing && a.scan.proposed == b.scan.proposed
                 && a.scan.containsPeople == b.scan.containsPeople && a.scan.containsText == b.scan.containsText
                 && a.scan.confidence == b.scan.confidence && a.scan.scanState == b.scan.scanState
                 && a.scan.trace == b.scan.trace && ScanErrors(a.errors) == ScanErrors(b.errors)
                 && a.scan.proposedCaption == b.scan.proposedCaption
                 && (a.scan.proposedCaption == None ==>
                       (a.progress.appliedCaption != None || a.progress.caption != NotRequested
                        <==> b.progress.appliedCaption != None || b.progress.caption != NotRequested))
                 && (routing ==> a.scan.modelUsed == b.scan.modelUsed && a.scan.modelReason == b.scan.modelReason)
                 && (review ==> a.review == b.review)
  {
  }

  // ------------------------------------------------------------- what a reader refuses

  /** A row is read exactly when no required key is missing, its date is naive and can be parsed, the keys of
      the routing and of the review are all there or all absent, as the schema says, and the values
      make a record. */
  lemma RowsReadExactly(r: Rules, d: Row, routing: bool, review: bool)
    ensures var keys := && d.uuid != Missing && d.containsPeople != Missing && d.containsText != Missing
                        && d.confidence != Missing && d.timezone == Null && r.parse(d.date) != None
                        && d.caption != Null && d.trace != Null
                        && (routing <==> d.modelUsed != Missing) && (routing <==> d.modelReason != Missing)
                        && (review <==> d.modelProposed != Missing) && (review <==> d.approved != Missing)
                        && (review <==> d.origins != Missing) && (review <==> d.modelCaption != Missing)
                        && (review <==> d.approvedCaption != Missing) && (review <==> d.captionOrigin != Missing)
                        && d.modelProposed != Null && d.approved != Null;
            FromDict(r, d, routing, review)
            == if keys then Construct(r, Assembled(r, d, r.parse(d.date).value)) else None
  {
    hide Construct, Assembled;
  }
}
