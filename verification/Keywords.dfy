/** Keyword proposals: normalization, the equivalence table, the controlled vocabulary and the limit.
    Unicode normalization, case folding and the visible-text policy are parameters. */
module Keywords {
  import opened Wrappers

  const MAX_PROPOSALS: nat := 8

  /** `key` is canonical_keyword_key, `storage` normalize_keyword_storage, `nfc` the normalization of
      existing keywords, `safe` the visible-text policy. */
  datatype Vocabulary = Vocabulary(
    key: string -> string, storage: string -> string, nfc: string -> string, safe: string -> bool,
    equivalents: map<string, string>, allowed: map<string, string>)

  /** The stored spelling of a candidate, after the equivalence table. */
  function Mapped(v: Vocabulary, candidate: string): string {
    var stored := v.storage(candidate);
    if v.key(stored) in v.equivalents then v.equivalents[v.key(stored)] else stored
  }

  /** The spelling it is proposed under. */
  function Shown(v: Vocabulary, mapped: string): string {
    if v.key(mapped) in v.allowed then v.allowed[v.key(mapped)] else mapped
  }

  /** What a single candidate would be proposed as. */
  function Proposal(v: Vocabulary, candidate: string): Option<string> {
    var mapped := Mapped(v, candidate);
    if mapped != "" && v.safe(mapped) then Some(Shown(v, mapped)) else None
  }

  function ExistingKeys(v: Vocabulary, existing: seq<string>): set<string> {
    set i | 0 <= i < |existing| :: v.key(v.nfc(existing[i]))
  }

  function Collect(v: Vocabulary, seen: set<string>, candidates: seq<string>, limit: nat): seq<string>
    decreases |candidates|
  {
    if limit == 0 || candidates == [] then []
    else
      var key := v.key(Mapped(v, candidates[0]));
      if Proposal(v, candidates[0]).Some? && key !in seen
      then [Proposal(v, candidates[0]).value] + Collect(v, seen + {key}, candidates[1..], limit - 1)
      else Collect(v, seen, candidates[1..], limit)
  }

  function Limit(maximum: nat): nat { if maximum < MAX_PROPOSALS then maximum else MAX_PROPOSALS }

  function Proposed(v: Vocabulary, existing: seq<string>, candidates: seq<string>, maximum: nat): seq<string> {
    Collect(v, ExistingKeys(v, existing), candidates, Limit(maximum))
  }

  /** `proposed_keywords`; a negative maximum is refused. */
  method ProposeKeywords(v: Vocabulary, existing: seq<string>, candidates: seq<string>, maximum: int)
    returns (proposals: Option<seq<string>>)
    ensures proposals == if maximum < 0 then None else Some(Proposed(v, existing, candidates, maximum))
  {
    hide Ahead, ExistingKeys, Limit, Mapped, Proposal, Proposed;
    if maximum < 0 {
      return None;
    }
    var seen := ExistingKeys(v, existing);
    var listed: seq<string> := [];
    var limit := Limit(maximum);
    AheadStarts(v, existing, candidates, maximum);
    AheadEnds(v, listed, seen, candidates, 0, limit);
    if limit == 0 {
      return Some([]);
    }
    var i := 0;
    while i < |candidates|
      invariant 0 <= i <= |candidates| && |listed| < limit
      invariant Ahead(v, listed, seen, candidates, i, limit) == Proposed(v, existing, candidates, maximum)
    {
      var stored := v.storage(candidates[i]);
      if v.key(stored) in v.equivalents {
        stored := v.equivalents[v.key(stored)];
      }
      var key := v.key(stored);
      CandidateParts(v, candidates[i]);
      AheadOne(v, listed, seen, candidates, i, limit);
      i := i + 1;
      if stored != "" && v.safe(stored) && key !in seen {
        listed := listed + [if key in v.allowed then v.allowed[key] else stored];
        seen := seen + {key};
        if |listed| == limit {
          break;
        }
      }
    }
    AheadEnds(v, listed, seen, candidates, i, limit);
    proposals := Some(listed);
  }

  /** What the loop will return, from any point of it on. */
  function Ahead(v: Vocabulary, listed: seq<string>, seen: set<string>, candidates: seq<string>, i: nat, limit: nat)
    : seq<string>
    requires i <= |candidates| && |listed| <= limit
  {
    listed + Collect(v, seen, candidates[i..], limit - |listed|)
  }

  lemma AheadStarts(v: Vocabulary, existing: seq<string>, candidates: seq<string>, maximum: nat)
    ensures Ahead(v, [], ExistingKeys(v, existing), candidates, 0, Limit(maximum))
            == Proposed(v, existing, candidates, maximum)
  {
    hide Collect, ExistingKeys, Limit;
    assert candidates[0..] == candidates;
  }

  lemma AheadOne(v: Vocabulary, listed: seq<string>, seen: set<string>, candidates: seq<string>, i: nat, limit: nat)
    requires i < |candidates| && |listed| < limit
    ensures var key := v.key(Mapped(v, candidates[i]));
            Ahead(v, listed, seen, candidates, i, limit)
            == if Proposal(v, candidates[i]).Some? && key !in seen
               then Ahead(v, listed + [Proposal(v, candidates[i]).value], seen + {key}, candidates, i + 1, limit)
               else Ahead(v, listed, seen, candidates, i + 1, limit)
  {
    hide Collect, Mapped, Proposal;
    CollectOne(v, seen, candidates, i, limit - |listed|);
  }

  lemma AheadEnds(v: Vocabulary, listed: seq<string>, seen: set<string>, candidates: seq<string>, i: nat, limit: nat)
    requires i <= |candidates| && |listed| <= limit
    ensures |listed| == limit || i == |candidates| ==> Ahead(v, listed, seen, candidates, i, limit) == listed
  {
  }

  /** What the loop computes for one candidate. */
  lemma CandidateParts(v: Vocabulary, candidate: string)
    ensures var stored := v.storage(candidate);
            var mapped := if v.key(stored) in v.equivalents then v.equivalents[v.key(stored)] else stored;
            && Mapped(v, candidate) == mapped
            && Proposal(v, candidate)
               == if mapped != "" && v.safe(mapped)
                  then Some(if v.key(mapped) in v.allowed then v.allowed[v.key(mapped)] else mapped) else None
  {
  }

  lemma CollectOne(v: Vocabulary, seen: set<string>, candidates: seq<string>, i: nat, limit: nat)
    requires i < |candidates| && limit > 0
    ensures var key := v.key(Mapped(v, candidates[i]));
            Collect(v, seen, candidates[i..], limit)
            == if Proposal(v, candidates[i]).Some? && key !in seen
               then [Proposal(v, candidates[i]).value] + Collect(v, seen + {key}, candidates[i + 1..], limit - 1)
               else Collect(v, seen, candidates[i + 1..], limit)
  {
    hide Mapped, Shown;
    assert candidates[i..][0] == candidates[i] && candidates[i..][1..] == candidates[i + 1..];
  }

  // ---------------------------------------------------------------- what is proposed

  /** A controlled term is filed under its own key. */
  ghost predicate Filed(v: Vocabulary) {
    forall k :: k in v.allowed ==> v.key(v.allowed[k]) == k
  }

  lemma ShownKey(v: Vocabulary, mapped: string)
    requires Filed(v)
    ensures v.key(Shown(v, mapped)) == v.key(mapped)
  {
  }

  /** The proposals come from candidates in their order: each is the first with its key that is worth
      proposing and new, and whatever else is worth proposing and new has its key among them, unless
      there are already as many as allowed. */
  lemma {:induction false} CollectedInOrder(v: Vocabulary, seen: set<string>, candidates: seq<string>, limit: nat)
    returns (at: seq<nat>)
    ensures var r := Collect(v, seen, candidates, limit);
            && |at| == |r| <= limit
            && (forall k :: 0 <= k < |at| ==> at[k] < |candidates| && Proposal(v, candidates[at[k]]) == Some(r[k]))
            && (forall k, l :: 0 <= k < l < |at| ==> at[k] < at[l])
            && (forall k :: 0 <= k < |at| ==> v.key(Mapped(v, candidates[at[k]])) !in seen)
            && (forall k, l :: 0 <= k < l < |at| ==>
                  v.key(Mapped(v, candidates[at[k]])) != v.key(Mapped(v, candidates[at[l]])))
            && (|at| < limit ==> forall c | 0 <= c < |candidates| :: Covered(v, seen, candidates, at, c))
    decreases |candidates|
  {
    hide Mapped, Proposal, Covered;
    at := [];
    if limit > 0 && candidates != [] {
      var key := v.key(Mapped(v, candidates[0]));
      if Proposal(v, candidates[0]).Some? && key !in seen {
        var rest := CollectedInOrder(v, seen + {key}, candidates[1..], limit - 1);
        at := [0] + Shifted(rest);
        forall c | 0 <= c < |candidates| && |at| < limit ensures Covered(v, seen, candidates, at, c) {
          CoveredTaken(v, seen, candidates, rest, c);
        }
      } else {
        var rest := CollectedInOrder(v, seen, candidates[1..], limit);
        at := Shifted(rest);
        forall c | 0 <= c < |candidates| && |at| < limit ensures Covered(v, seen, candidates, at, c) {
          CoveredSkipped(v, seen, candidates, rest, c);
        }
      }
    }
  }

  function Shifted(at: seq<nat>): (r: seq<nat>)
    ensures |r| == |at| && forall k :: 0 <= k < |at| ==> r[k] == at[k] + 1
  {
    seq(|at|, k requires 0 <= k < |at| => at[k] + 1)
  }

  /** A candidate that is proposed, already known, or not worth proposing. */
  predicate Covered(v: Vocabulary, seen: set<string>, candidates: seq<string>, at: seq<nat>, c: nat)
    requires c < |candidates| && forall k :: 0 <= k < |at| ==> at[k] < |candidates|
  {
    || Proposal(v, candidates[c]).None? || v.key(Mapped(v, candidates[c])) in seen
    || exists k :: 0 <= k < |at| && at[k] <= c && v.key(Mapped(v, candidates[at[k]])) == v.key(Mapped(v, candidates[c]))
  }

  lemma CoveredTaken(v: Vocabulary, seen: set<string>, candidates: seq<string>, rest: seq<nat>, c: nat)
    requires c < |candidates| && forall k :: 0 <= k < |rest| ==> rest[k] < |candidates| - 1
    requires c > 0 ==> Covered(v, seen + {v.key(Mapped(v, candidates[0]))}, candidates[1..], rest, c - 1)
    ensures Covered(v, seen, candidates, [0] + Shifted(rest), c)
  {
    hide Mapped, Proposal;
    var at := [0] + Shifted(rest);
    assert at[0] == 0;
    if k :| c > 0 && 0 <= k < |rest| && rest[k] <= c - 1
            && v.key(Mapped(v, candidates[1..][rest[k]])) == v.key(Mapped(v, candidates[1..][c - 1])) {
      assert at[k + 1] == rest[k] + 1;
    }
  }

  lemma CoveredSkipped(v: Vocabulary, seen: set<string>, candidates: seq<string>, rest: seq<nat>, c: nat)
    requires c < |candidates| && forall k :: 0 <= k < |rest| ==> rest[k] < |candidates| - 1
    requires if c > 0 then Covered(v, seen, candidates[1..], rest, c - 1)
             else Proposal(v, candidates[0]).None? || v.key(Mapped(v, candidates[0])) in seen
    ensures Covered(v, seen, candidates, Shifted(rest), c)
  {
    hide Mapped, Proposal;
    if k :| c > 0 && 0 <= k < |rest| && rest[k] <= c - 1
            && v.key(Mapped(v, candidates[1..][rest[k]])) == v.key(Mapped(v, candidates[1..][c - 1])) {
      assert Shifted(rest)[k] == rest[k] + 1;
    }
  }

  /** Spelled out for a call: which candidates are proposed, in their order and at most eight of them. */
  lemma ProposedInOrder(v: Vocabulary, existing: seq<string>, candidates: seq<string>, maximum: nat) returns (at: seq<nat>)
    ensures var r := Proposed(v, existing, candidates, maximum);
            && |at| == |r| <= (if maximum < 8 then maximum else 8)
            && (forall k :: 0 <= k < |at| ==> at[k] < |candidates| && Proposal(v, candidates[at[k]]) == Some(r[k]))
            && (forall k, l :: 0 <= k < l < |at| ==> at[k] < at[l])
            && (forall k, i :: 0 <= k < |at| && 0 <= i < |existing| ==>
                  v.key(Mapped(v, candidates[at[k]])) != v.key(v.nfc(existing[i])))
            && (forall k, l :: 0 <= k < l < |at| ==>
                  v.key(Mapped(v, candidates[at[k]])) != v.key(Mapped(v, candidates[at[l]])))
            && (|r| < (if maximum < 8 then maximum else 8) ==>
                  forall c | 0 <= c < |candidates| ::
                    || Proposal(v, candidates[c]).None?
                    || (exists i :: 0 <= i < |existing| && v.key(Mapped(v, candidates[c])) == v.key(v.nfc(existing[i])))
                    || exists k :: 0 <= k < |at| && at[k] <= c
                                   && v.key(Mapped(v, candidates[at[k]])) == v.key(Mapped(v, candidates[c])))
  {
    hide Mapped, Proposal, Collect;
    at := CollectedInOrder(v, ExistingKeys(v, existing), candidates, Limit(maximum));
    forall c | 0 <= c < |candidates| && |at| < Limit(maximum)
      ensures || Proposal(v, candidates[c]).None?
              || (exists i :: 0 <= i < |existing| && v.key(Mapped(v, candidates[c])) == v.key(v.nfc(existing[i])))
              || exists k :: 0 <= k < |at| && at[k] <= c
                             && v.key(Mapped(v, candidates[at[k]])) == v.key(Mapped(v, candidates[c]))
    {
      assert Covered(v, ExistingKeys(v, existing), candidates, at, c);
    }
  }

  /** Proposals are few, come from candidates, and are new to the photo and different from each other;
      and every candidate that is safe and new is proposed under its key while there is room. */
  lemma ProposalsAreNew(v: Vocabulary, existing: seq<string>, candidates: seq<string>, maximum: nat)
    requires Filed(v)
    ensures var r := Proposed(v, existing, candidates, maximum);
            && |r| <= maximum && |r| <= 8
            && (forall k, i :: 0 <= k < |r| && 0 <= i < |existing| ==> v.key(r[k]) != v.key(v.nfc(existing[i])))
            && (forall k, l :: 0 <= k < l < |r| ==> v.key(r[k]) != v.key(r[l]))
            && (forall p | p in r :: exists c :: c in candidates && Proposal(v, c) == Some(p))
    ensures var r := Proposed(v, existing, candidates, maximum);
            forall c | 0 <= c < |candidates| ::
              var stored := v.storage(candidates[c]);
              var mapped := if v.key(stored) in v.equivalents then v.equivalents[v.key(stored)] else stored;
              && mapped != "" && v.safe(mapped)
              && (forall i :: 0 <= i < |existing| ==> v.key(mapped) != v.key(v.nfc(existing[i]))) ==>
                (exists k :: 0 <= k < |r| && v.key(r[k]) == v.key(mapped)) || |r| == (if maximum < 8 then maximum else 8)
  {
    hide Collect, Proposed, Proposal, Mapped;
    var at := ProposedInOrder(v, existing, candidates, maximum);
    var r := Proposed(v, existing, candidates, maximum);
    forall k | 0 <= k < |r| ensures v.key(r[k]) == v.key(Mapped(v, candidates[at[k]])) {
      ProposalKey(v, candidates[at[k]]);
    }
    forall p | p in r ensures exists c :: c in candidates && Proposal(v, c) == Some(p) {
      var k :| 0 <= k < |r| && r[k] == p;
      assert candidates[at[k]] in candidates;
    }
    forall c | 0 <= c < |candidates|
      ensures var stored := v.storage(candidates[c]);
              var mapped := if v.key(stored) in v.equivalents then v.equivalents[v.key(stored)] else stored;
              mapped == Mapped(v, candidates[c]) && (Proposal(v, candidates[c]).Some? <==> mapped != "" && v.safe(mapped))
    {
      CandidateParts(v, candidates[c]);
    }
  }

  lemma ProposalKey(v: Vocabulary, candidate: string)
    requires Filed(v)
    ensures Proposal(v, candidate).Some? ==> v.key(Proposal(v, candidate).value) == v.key(Mapped(v, candidate))
  {
    ShownKey(v, Mapped(v, candidate));
  }

  // -------------------------------------------------------------------- idempotence

  /** What a candidate is proposed as is proposed as itself. */
  ghost predicate SettlesAtOnce(v: Vocabulary) {
    forall c :: Proposal(v, c).Some? ==> Proposal(v, Proposal(v, c).value) == Proposal(v, c)
  }

  ghost predicate Idempotent(v: Vocabulary) {
    forall existing, candidates, maximum ::
      Proposed(v, existing, Proposed(v, existing, candidates, maximum), maximum) == Proposed(v, existing, candidates, maximum)
  }

  lemma {:induction false} CollectTwice(v: Vocabulary, seen: set<string>, candidates: seq<string>, limit: nat)
    requires Filed(v) && SettlesAtOnce(v)
    ensures Collect(v, seen, Collect(v, seen, candidates, limit), limit) == Collect(v, seen, candidates, limit)
    decreases |candidates|
  {
    if limit > 0 && candidates != [] {
      var c := candidates[0];
      var key := v.key(Mapped(v, c));
      if Proposal(v, c).Some? && key !in seen {
        var q := Proposal(v, c).value;
        var rest := Collect(v, seen + {key}, candidates[1..], limit - 1);
        assert Proposal(v, q) == Some(q);
        ShownKey(v, Mapped(v, c));
        ShownKey(v, Mapped(v, q));
        assert v.key(Mapped(v, q)) == key;
        CollectTwice(v, seen + {key}, candidates[1..], limit - 1);
        assert ([q] + rest)[0] == q && ([q] + rest)[1..] == rest;
      } else {
        CollectTwice(v, seen, candidates[1..], limit);
      }
    }
  }

  /** Proposing is idempotent for all inputs exactly when every single proposal is stable. */
  lemma IdempotentExactlyWhenStable(v: Vocabulary)
    requires Filed(v)
    ensures Idempotent(v) <==> SettlesAtOnce(v)
  {
    if SettlesAtOnce(v) {
      forall existing, candidates, maximum
        ensures Proposed(v, existing, Proposed(v, existing, candidates, maximum), maximum)
                == Proposed(v, existing, candidates, maximum)
      {
        CollectTwice(v, ExistingKeys(v, existing), candidates, Limit(maximum));
      }
    }
    if Idempotent(v) {
      forall c | Proposal(v, c).Some? ensures Proposal(v, Proposal(v, c).value) == Proposal(v, c) {
        var q := Proposal(v, c).value;
        ProposedAlone(v, c);
        ProposedAlone(v, q);
        assert Proposed(v, [], Proposed(v, [], [c], 8), 8) == Proposed(v, [], [c], 8);
      }
    }
  }

  lemma ProposedAlone(v: Vocabulary, c: string)
    ensures Proposed(v, [], [c], 8) == match Proposal(v, c) case Some(q) => [q] case None => []
  {
    hide Mapped, Shown;
    assert ExistingKeys(v, []) == {};
    assert [c][1..] == [];
    assert Collect(v, {v.key(Mapped(v, c))}, [], 7) == [] && Collect(v, {}, [], 8) == [];
    assert Collect(v, {}, [c], 8)
           == if Proposal(v, c).Some? then [Proposal(v, c).value] + Collect(v, {} + {v.key(Mapped(v, c))}, [c][1..], 7)
              else Collect(v, {}, [c][1..], 8);
  }

  /** What the tables of the vocabulary are kept to: storage is idempotent, no Spanish equivalent is
      itself listed for replacement, and the controlled terms are stored, filed and safe as they stand. */
  ghost predicate TablesClosed(v: Vocabulary) {
    && Filed(v)
    && (forall s :: v.storage(v.storage(s)) == v.storage(s))
    && (forall k :: k in v.equivalents ==>
          v.storage(v.equivalents[k]) == v.equivalents[k] && v.key(v.equivalents[k]) !in v.equivalents)
    && (forall k :: k in v.allowed ==>
          v.storage(v.allowed[k]) == v.allowed[k] && v.allowed[k] != "" && v.safe(v.allowed[k]))
  }

  lemma ClosedTablesSettle(v: Vocabulary)
    requires TablesClosed(v)
    ensures SettlesAtOnce(v)
  {
    forall c | Proposal(v, c).Some? ensures Proposal(v, Proposal(v, c).value) == Proposal(v, c) {
      var mapped := Mapped(v, c);
      var q := Shown(v, mapped);
      ShownKey(v, mapped);
      assert v.storage(mapped) == mapped && v.key(mapped) !in v.equivalents;
      assert v.storage(q) == q && Mapped(v, q) == q;
    }
  }

  /** With tables kept to that, proposals proposed again stay as they are. */
  lemma ProposalsAreFixed(v: Vocabulary, existing: seq<string>, candidates: seq<string>, maximum: nat)
    requires TablesClosed(v)
    ensures var r := Proposed(v, existing, candidates, maximum);
            Proposed(v, existing, r, maximum) == r
  {
    ClosedTablesSettle(v);
    CollectTwice(v, ExistingKeys(v, existing), candidates, Limit(maximum));
  }

  /** An equivalent that is itself replaced by something else is not stable. */
  lemma ChainedEquivalentsBreak(v: Vocabulary, k: string)
    requires Filed(v) && k in v.equivalents && v.key(v.storage(k)) == k
    requires var first := v.equivalents[k];
             && first != "" && v.safe(first) && v.key(first) !in v.allowed && v.storage(first) == first
             && v.key(first) in v.equivalents && v.key(v.equivalents[v.key(first)]) != v.key(first)
    ensures !Idempotent(v)
  {
    var first := v.equivalents[k];
    var second := v.equivalents[v.key(first)];
    assert Proposal(v, k) == Some(first);
    assert Mapped(v, first) == second;
    ShownKey(v, second);
    assert Proposal(v, first) != Some(first);
    IdempotentExactlyWhenStable(v);
  }
}
