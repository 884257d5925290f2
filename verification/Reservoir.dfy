/** Photo selection: the newest eligible photos, or a uniform reservoir sample of all of them. */
module Reservoir {
  import opened Wrappers

  /** What one fetched asset turns out to be. */
  datatype Asset<P> = Foreign | Screenshot | Unusable | Usable(photo: P)

  function Eligible<P>(assets: seq<Asset<P>>): (photos: seq<P>)
    ensures |photos| <= |assets|
  {
    if assets == [] then []
    else
      var front, last := Eligible(assets[..|assets| - 1]), assets[|assets| - 1];
      if last.Usable? then front + [last.photo] else front
  }

  function Screenshots<P>(assets: seq<Asset<P>>): nat {
    if assets == [] then 0
    else Screenshots(assets[..|assets| - 1]) + if assets[|assets| - 1].Screenshot? then 1 else 0
  }

  // ------------------------------------------------- what the stream of photos consists of

  function UsableBelow<P>(assets: seq<Asset<P>>, i: nat): set<nat>
    requires i <= |assets|
  {
    set j | 0 <= j < i && assets[j].Usable?
  }

  lemma UsableInFront<P>(assets: seq<Asset<P>>, i: nat)
    requires i < |assets|
    ensures UsableBelow(assets, i) == UsableBelow(assets[..|assets| - 1], i)
    ensures UsableBelow(assets, i + 1) == if assets[i].Usable? then UsableBelow(assets, i) + {i} else UsableBelow(assets, i)
  {
  }

  /** The photo of a usable asset stands where as many usable ones came before it, and nothing else
      is there. */
  lemma {:induction false} EligibleByRank<P>(assets: seq<Asset<P>>, i: nat)
    requires i <= |assets|
    ensures |Eligible(assets)| == |UsableBelow(assets, |assets|)| && |UsableBelow(assets, i)| <= |Eligible(assets)|
    ensures i < |assets| && assets[i].Usable? ==>
              |UsableBelow(assets, i)| < |Eligible(assets)| && Eligible(assets)[|UsableBelow(assets, i)|] == assets[i].photo
    decreases |assets|
  {
    if assets != [] {
      hide UsableBelow;
      var n := |assets| - 1;
      UsableInFront(assets, n);
      EligibleByRank(assets[..n], n);
      if i < n {
        UsableInFront(assets, i);
        EligibleByRank(assets[..n], i);
      }
    } else {
      assert UsableBelow(assets, 0) == {};
    }
  }

  /** The usable assets up to an index are the same seen from any longer list. */
  lemma EligiblePrefix<P>(assets: seq<Asset<P>>, upTo: nat, i: nat)
    requires i <= upTo <= |assets|
    ensures UsableBelow(assets[..upTo], i) == UsableBelow(assets, i)
  {
  }

  lemma {:induction false} ScreenshotsCounted<P>(assets: seq<Asset<P>>, upTo: nat)
    requires upTo <= |assets|
    ensures Screenshots(assets[..upTo]) == |set j | 0 <= j < upTo && assets[j].Screenshot?|
    decreases upTo
  {
    var all := set j | 0 <= j < upTo && assets[j].Screenshot?;
    if upTo == 0 {
      assert all == {};
    } else {
      ScreenshotsCounted(assets, upTo - 1);
      var before := set j | 0 <= j < upTo - 1 && assets[j].Screenshot?;
      assert all == if assets[upTo - 1].Screenshot? then before + {upTo - 1} else before;
      assert assets[..upTo][..upTo - 1] == assets[..upTo - 1];
    }
  }

  // ------------------------------------------------------------- the reservoir

  /** draws[j] is drawn for the photo at stream position limit + j, from that many plus one. */
  predicate Draws(limit: nat, draws: seq<nat>) {
    forall j :: 0 <= j < |draws| ==> draws[j] < limit + j + 1
  }

  function FirstPositions(limit: nat): (positions: seq<nat>)
    ensures |positions| == limit && forall i :: 0 <= i < limit ==> positions[i] == i
  {
    seq(limit, i requires 0 <= i < limit => i)
  }

  /** The stream positions in the reservoir after limit + |draws| eligible photos. */
  function Held(limit: nat, draws: seq<nat>): (held: seq<nat>)
    ensures |held| == limit
  {
    if draws == [] then FirstPositions(limit)
    else
      var n := |draws| - 1;
      var before := Held(limit, draws[..n]);
      if draws[n] < limit then before[draws[n] := limit + n] else before
  }

  /** The reservoir always holds `limit` distinct positions of the stream seen so far. */
  lemma {:induction false} HeldDistinct(limit: nat, draws: seq<nat>)
    ensures forall i :: 0 <= i < limit ==> Held(limit, draws)[i] < limit + |draws|
    ensures forall i, j | 0 <= i < limit && 0 <= j < limit && Held(limit, draws)[i] == Held(limit, draws)[j] :: i == j
    decreases |draws|
  {
    if draws == [] {
      assert Held(limit, draws) == FirstPositions(limit);
    } else {
      var n := |draws| - 1;
      var before := Held(limit, draws[..n]);
      HeldDistinct(limit, draws[..n]);
      assert Held(limit, draws) == if draws[n] < limit then before[draws[n] := limit + n] else before;
    }
  }

  /** A place holds the photo of the last draw that hit it, or the one it started with. */
  lemma {:induction false} HeldIsLastHit(limit: nat, draws: seq<nat>, k: nat, last: int)
    requires k < limit && -1 <= last < |draws| && (last >= 0 ==> draws[last] == k)
    requires forall m :: last < m < |draws| ==> draws[m] != k
    ensures Held(limit, draws)[k] == if last < 0 then k else limit + last
    decreases |draws|
  {
    if draws != [] && last < |draws| - 1 {
      HeldIsLastHit(limit, draws[..|draws| - 1], k, last);
    }
  }

  /** The photos selected from an eligible stream. */
  function Sample<P>(eligible: seq<P>, limit: nat, draws: seq<nat>): (sample: seq<P>)
    requires |draws| == if |eligible| > limit then |eligible| - limit else 0
    ensures |sample| == if |eligible| > limit then limit else |eligible|
  {
    if |eligible| <= limit then eligible
    else
      HeldDistinct(limit, draws);
      seq(limit, i requires 0 <= i < limit => eligible[Held(limit, draws)[i]])
  }

  lemma SampleGrows<P>(eligible: seq<P>, photo: P, limit: nat, draws: seq<nat>, draw: nat)
    requires limit > 0 && |draws| == if |eligible| > limit then |eligible| - limit else 0
    ensures |eligible| < limit ==> Sample(eligible + [photo], limit, draws) == Sample(eligible, limit, draws) + [photo]
    ensures |eligible| >= limit ==>
              Sample(eligible + [photo], limit, draws + [draw])
              == if draw < limit then Sample(eligible, limit, draws)[draw := photo] else Sample(eligible, limit, draws)
  {
    if |eligible| >= limit {
      var all := draws + [draw];
      assert all[..|all| - 1] == draws;
      HeldDistinct(limit, draws);
      HeldDistinct(limit, all);
      assert |Sample(eligible, limit, draws)| == limit;
      forall i | 0 <= i < limit
        ensures Sample(eligible + [photo], limit, all)[i]
                == if i == draw then photo else Sample(eligible, limit, draws)[i]
      {
        if |eligible| == limit {
          assert draws == [] && Held(limit, draws)[i] == i;
        }
      }
    }
  }

  /** `select` at random, after the limit and authorization checks: every asset is looked at once.
      `draws` are the numbers the random source gives. */
  method SelectRandom<P>(assets: seq<Asset<P>>, limit: nat, draws: seq<nat>)
    returns (selected: seq<P>, screenshots: nat)
    requires 1 <= limit <= 500
    requires |draws| >= |assets|
    ensures var eligible := Eligible(assets);
            selected == Sample(eligible, limit, draws[..if |eligible| > limit then |eligible| - limit else 0])
    ensures screenshots == |set j | 0 <= j < |assets| && assets[j].Screenshot?|
    ensures var usable := |set j | 0 <= j < |assets| && assets[j].Usable?|;
            && usable <= |assets|
            && |selected| == (if usable < limit then usable else limit)
            && forall i, k | 0 <= i < |assets| && assets[i].Usable? && 0 <= k < |selected| ::
                 var rank := |set j | 0 <= j < i && assets[j].Usable?|;
                 (if usable <= limit then k else Held(limit, draws[..usable - limit])[k]) == rank ==>
                   selected[k] == assets[i].photo
  {
    selected, screenshots := [], 0;
    var seen, used, i := 0, 0, 0;
    while i < |assets|
      invariant 0 <= i <= |assets|
      invariant seen == |Eligible(assets[..i])| <= i && screenshots == Screenshots(assets[..i])
      invariant used == (if seen > limit then seen - limit else 0) && used <= i
      invariant selected == Sample(Eligible(assets[..i]), limit, draws[..used])
      invariant |selected| == if seen > limit then limit else seen
    {
      assert assets[..i + 1][..i] == assets[..i];
      var asset := assets[i];
      i := i + 1;
      if asset.Screenshot? {
        screenshots := screenshots + 1;
      } else if asset.Usable? {
        ghost var eligible := Eligible(assets[..i - 1]);
        SampleGrows(eligible, asset.photo, limit, draws[..used], draws[used]);
        seen := seen + 1;
        if |selected| < limit {
          selected := selected + [asset.photo];
        } else {
          var replacement := draws[used];
          if replacement < limit {
            selected := selected[replacement := asset.photo];
          }
          assert draws[..used] + [draws[used]] == draws[..used + 1];
          used := used + 1;
        }
      }
    }
    assert assets[..i] == assets;
    ScreenshotsCounted(assets, |assets|);
    SampledByRank(assets, limit, draws, selected);
  }

  /** Where a sample comes from, asset by asset. */
  lemma SampledByRank<P>(assets: seq<Asset<P>>, limit: nat, draws: seq<nat>, selected: seq<P>)
    requires |draws| >= |assets|
    requires var eligible := Eligible(assets);
             selected == Sample(eligible, limit, draws[..if |eligible| > limit then |eligible| - limit else 0])
    ensures var usable := |set j | 0 <= j < |assets| && assets[j].Usable?|;
            && usable <= |assets| && |selected| == (if usable < limit then usable else limit)
            && forall i, k | 0 <= i < |assets| && assets[i].Usable? && 0 <= k < |selected| ::
                 var rank := |set j | 0 <= j < i && assets[j].Usable?|;
                 (if usable <= limit then k else Held(limit, draws[..usable - limit])[k]) == rank ==>
                   selected[k] == assets[i].photo
  {
    EligibleByRank(assets, |assets|);
    assert UsableBelow(assets, |assets|) == set j | 0 <= j < |assets| && assets[j].Usable?;
    forall i | 0 <= i < |assets| && assets[i].Usable?
      ensures var rank := |set j | 0 <= j < i && assets[j].Usable?|;
              rank < |Eligible(assets)| && Eligible(assets)[rank] == assets[i].photo
    {
      EligibleByRank(assets, i);
      assert UsableBelow(assets, i) == set j | 0 <= j < i && assets[j].Usable?;
    }
  }

  /** `select` in order: the newest eligible photos; the walk stops as soon as it has enough. */
  method SelectRecent<P>(assets: seq<Asset<P>>, limit: nat) returns (selected: seq<P>, screenshots: nat, looked: nat)
    requires 1 <= limit <= 500
    ensures looked <= |assets| && selected == Eligible(assets[..looked])
    ensures |selected| <= limit && (|selected| < limit ==> looked == |assets|)
    ensures |selected| == limit ==> looked > 0 && assets[looked - 1].Usable?
    ensures screenshots == |set j | 0 <= j < looked && assets[j].Screenshot?|
    ensures var usable := |set j | 0 <= j < |assets| && assets[j].Usable?|;
            |selected| == if usable < limit then usable else limit
    ensures forall i | 0 <= i < |assets| && assets[i].Usable? ::
              var rank := |set j | 0 <= j < i && assets[j].Usable?|;
              rank < limit ==> i < looked && rank < |selected| && selected[rank] == assets[i].photo
  {
    selected, screenshots, looked := [], 0, 0;
    while looked < |assets|
      invariant 0 <= looked <= |assets|
      invariant selected == Eligible(assets[..looked]) && screenshots == Screenshots(assets[..looked])
      invariant |selected| < limit
    {
      assert assets[..looked + 1][..looked] == assets[..looked];
      var asset := assets[looked];
      looked := looked + 1;
      if asset.Screenshot? {
        screenshots := screenshots + 1;
      } else if asset.Usable? {
        selected := selected + [asset.photo];
        if |selected| == limit {
          break;
        }
      }
    }
    ScreenshotsCounted(assets, looked);
    FirstByRank(assets, limit, looked);
  }

  /** A walk that stops at its last photo, or at the end, has the first ones in order. */
  lemma FirstByRank<P>(assets: seq<Asset<P>>, limit: nat, looked: nat)
    requires looked <= |assets| && |Eligible(assets[..looked])| <= limit
    requires |Eligible(assets[..looked])| < limit ==> looked == |assets|
    ensures var usable := |set j | 0 <= j < |assets| && assets[j].Usable?|;
            |Eligible(assets[..looked])| == if usable < limit then usable else limit
    ensures forall i | 0 <= i < |assets| && assets[i].Usable? ::
              var rank := |set j | 0 <= j < i && assets[j].Usable?|;
              rank < limit ==> i < looked && rank < |Eligible(assets[..looked])|
                               && Eligible(assets[..looked])[rank] == assets[i].photo
  {
    var seen := assets[..looked];
    EligibleByRank(seen, looked);
    EligiblePrefix(assets, looked, looked);
    assert UsableBelow(assets, |assets|) == set j | 0 <= j < |assets| && assets[j].Usable?;
    UsableMonotone(assets, looked, |assets|);
    forall i | 0 <= i < |assets| && assets[i].Usable?
      ensures var rank := |set j | 0 <= j < i && assets[j].Usable?|;
              rank < limit ==> i < looked && rank < |Eligible(seen)| && Eligible(seen)[rank] == assets[i].photo
    {
      assert UsableBelow(assets, i) == set j | 0 <= j < i && assets[j].Usable?;
      if i < looked {
        EligibleByRank(seen, i);
        EligiblePrefix(assets, looked, i);
      } else {
        UsableMonotone(assets, looked, i);
      }
    }
  }

  lemma UsableMonotone<P>(assets: seq<Asset<P>>, i: nat, j: nat)
    requires i <= j <= |assets|
    ensures |UsableBelow(assets, i)| <= |UsableBelow(assets, j)|
    decreases j - i
  {
    if i < j {
      UsableMonotone(assets, i + 1, j);
      assert UsableBelow(assets, i + 1)
             == if assets[i].Usable? then UsableBelow(assets, i) + {i} else UsableBelow(assets, i);
    }
  }

  // --------------------------------------------------------------- uniformity

  /** What `randrange` can return. */
  predicate InRange(x: nat, n: nat) { x < n }

  function Below(n: nat): set<nat> { set x: nat | x < n && InRange(x, n) }

  lemma {:induction false} BelowSize(n: nat)
    ensures |Below(n)| == n
  {
    if n == 0 {
      assert Below(0) == {};
    } else {
      BelowSize(n - 1);
      assert Below(n) == Below(n - 1) + {n - 1};
    }
  }

  /** Every sequence of the set, extended by every number allowed after it. */
  function Extend(sequences: set<seq<nat>>, allowed: seq<nat> -> set<nat>): set<seq<nat>> {
    set v, x | v in sequences && x in allowed(v) :: v + [x]
  }

  function Continuations(v: seq<nat>, numbers: set<nat>): set<seq<nat>> {
    set x | x in numbers :: v + [x]
  }

  lemma {:induction false} ExtendOne(v: seq<nat>, numbers: set<nat>)
    ensures |Continuations(v, numbers)| == |numbers|
    decreases |numbers|
  {
    if numbers == {} {
      assert Continuations(v, numbers) == {};
    } else {
      var y :| y in numbers;
      ExtendOne(v, numbers - {y});
      var rest := Continuations(v, numbers - {y});
      assert Continuations(v, numbers) == rest + {v + [y]};
      forall x | x in numbers - {y} ensures v + [x] != v + [y] {
        assert (v + [x])[|v|] == x && (v + [y])[|v|] == y;
      }
    }
  }

  /** If every sequence allows equally many continuations, the counts multiply. */
  lemma {:induction false} ExtendSize(sequences: set<seq<nat>>, allowed: seq<nat> -> set<nat>, each: nat)
    requires forall v :: v in sequences ==> |allowed(v)| == each
    ensures |Extend(sequences, allowed)| == |sequences| * each
    decreases |sequences|
  {
    hide Extend;
    if sequences == {} {
      ExtendNone(allowed);
    } else {
      var w :| w in sequences;
      var others := sequences - {w};
      ExtendSize(others, allowed, each);
      ExtendOne(w, allowed(w));
      SplitExtension(sequences, allowed, w);
      DisjointSize(Extend(others, allowed), Continuations(w, allowed(w)));
      OneMore(|others|, each);
    }
  }

  lemma ExtendNone(allowed: seq<nat> -> set<nat>)
    ensures Extend({}, allowed) == {}
  {
  }

  lemma DisjointSize<T>(a: set<T>, b: set<T>)
    requires a !! b
    ensures |a + b| == |a| + |b|
  {
  }

  lemma OneMore(n: nat, each: nat)
    ensures n * each + each == (n + 1) * each
  {
  }

  lemma SplitExtension(sequences: set<seq<nat>>, allowed: seq<nat> -> set<nat>, w: seq<nat>)
    requires w in sequences
    ensures Extend(sequences, allowed) == Extend(sequences - {w}, allowed) + Continuations(w, allowed(w))
    ensures Extend(sequences - {w}, allowed) !! Continuations(w, allowed(w))
  {
    var mine := Continuations(w, allowed(w));
    forall s | s in Extend(sequences, allowed) ensures s in Extend(sequences - {w}, allowed) + mine {
      var v, x :| v in sequences && x in allowed(v) && s == v + [x];
      if v != w {
        assert v in sequences - {w};
      }
    }
    forall s | s in Extend(sequences - {w}, allowed) ensures s !in mine && s in Extend(sequences, allowed) {
      var v, x :| v in sequences - {w} && x in allowed(v) && s == v + [x];
      assert s[..|s| - 1] == v;
      forall y | y in allowed(w) ensures s != w + [y] {
        assert (w + [y])[..|w + [y]| - 1] == w;
      }
    }
  }

  /** All the draw sequences for a stream of limit + extra eligible photos. */
  function AllDraws(limit: nat, extra: nat): set<seq<nat>> {
    if extra == 0 then {[]} else Extend(AllDraws(limit, extra - 1), _ => Below(limit + extra))
  }

  lemma {:induction false} AllDrawsExact(limit: nat, extra: nat, draws: seq<nat>)
    ensures draws in AllDraws(limit, extra)
            <==> |draws| == extra && forall j :: 0 <= j < |draws| ==> draws[j] < limit + j + 1
    decreases extra
  {
    if extra > 0 {
      hide Draws, Extend;
      var allowed: seq<nat> -> set<nat> := _ => Below(limit + extra);
      ExtendNonempty(AllDraws(limit, extra - 1), allowed);
      if draws != [] {
        var v, x := draws[..|draws| - 1], draws[|draws| - 1];
        assert draws == v + [x];
        AllDrawsExact(limit, extra - 1, v);
        ExtendMember(AllDraws(limit, extra - 1), allowed, v, x);
        DrawsSnoc(limit, v, x);
      }
    }
  }

  /** The draw sequences under which a position ends up in the reservoir. */
  function Selecting(limit: nat, extra: nat, position: nat): set<seq<nat>> {
    set d | d in AllDraws(limit, extra) && position in Held(limit, d)
  }

  /** The draws that keep a held position, or let the newest one in. */
  function Keeping(limit: nat, extra: nat, position: nat, v: seq<nat>): set<nat>
    requires extra > 0
  {
    if position == limit + extra - 1 then Below(limit)
    else set x | x in Below(limit + extra) && (x >= limit || Held(limit, v)[x] != position)
  }

  lemma KeepingSize(limit: nat, extra: nat, position: nat, v: seq<nat>)
    requires extra > 0 && |v| == extra - 1 && position < limit + extra - 1 && position in Held(limit, v)
    ensures |Keeping(limit, extra, position, v)| == limit + extra - 1
  {
    HeldDistinct(limit, v);
    var held := Held(limit, v);
    var at :| 0 <= at < limit && held[at] == position;
    BelowSize(limit + extra);
    assert Keeping(limit, extra, position, v) == Below(limit + extra) - {at};
  }

  lemma HeldAfter(limit: nat, v: seq<nat>, x: nat, position: nat)
    requires x < limit + |v| + 1
    ensures position in Held(limit, v + [x])
            <==> if position == limit + |v| then x < limit
                 else position in Held(limit, v) && (x >= limit || Held(limit, v)[x] != position)
  {
    var draws := v + [x];
    assert draws[..|v|] == v;
    HeldDistinct(limit, v);
    var before, after := Held(limit, v), Held(limit, draws);
    if position in before && position != limit + |v| {
      var at :| 0 <= at < limit && before[at] == position;
      assert x != at ==> after[at] == position;
      if x < limit && before[x] == position {
        assert x == at;
      }
    }
    if x < limit {
      assert after[x] == limit + |v|;
    }
  }

  lemma ExtendMember(sequences: set<seq<nat>>, allowed: seq<nat> -> set<nat>, v: seq<nat>, x: nat)
    ensures v + [x] in Extend(sequences, allowed) <==> v in sequences && x in allowed(v)
  {
    if v + [x] in Extend(sequences, allowed) {
      var w, y :| w in sequences && y in allowed(w) && v + [x] == w + [y];
      assert (v + [x])[..|v|] == v && (w + [y])[..|w|] == w;
      assert (v + [x])[|v|] == x && (w + [y])[|w|] == y;
    }
  }

  lemma ExtendNonempty(sequences: set<seq<nat>>, allowed: seq<nat> -> set<nat>)
    ensures [] !in Extend(sequences, allowed)
  {
  }

  lemma DrawsSnoc(limit: nat, v: seq<nat>, x: nat)
    ensures Draws(limit, v + [x]) <==> Draws(limit, v) && x < limit + |v| + 1
  {
    var d := v + [x];
    assert d[|v|] == x;
    if Draws(limit, d) {
      forall j | 0 <= j < |v| ensures v[j] < limit + j + 1 {
        assert d[j] == v[j];
      }
    }
  }

  lemma SelectingExact(limit: nat, extra: nat, position: nat, d: seq<nat>)
    ensures d in Selecting(limit, extra, position) <==> |d| == extra && Draws(limit, d) && position in Held(limit, d)
  {
    AllDrawsExact(limit, extra, d);
  }

  lemma SelectingOneMore(limit: nat, extra: nat, position: nat, v: seq<nat>, x: nat)
    requires extra > 0 && position < limit + extra && |v| == extra - 1
    ensures var base := if position == limit + extra - 1 then AllDraws(limit, extra - 1)
                        else Selecting(limit, extra - 1, position);
            v + [x] in Selecting(limit, extra, position) <==> v in base && x in Keeping(limit, extra, position, v)
  {
    SelectingExact(limit, extra, position, v + [x]);
    SelectingExact(limit, extra - 1, position, v);
    AllDrawsExact(limit, extra - 1, v);
    DrawsSnoc(limit, v, x);
    hide Selecting, AllDraws, Draws, Held;
    if x < limit + extra {
      HeldAfter(limit, v, x, position);
    }
  }

  /** The recursion behind uniformity: who selects a position after one more photo. */
  lemma SelectingUnfolds(limit: nat, extra: nat, position: nat)
    requires extra > 0 && position < limit + extra
    ensures var base := if position == limit + extra - 1 then AllDraws(limit, extra - 1)
                        else Selecting(limit, extra - 1, position);
            Selecting(limit, extra, position) == Extend(base, v => Keeping(limit, extra, position, v))
  {
    hide Selecting, AllDraws, Extend, Keeping, Held;
    var base := if position == limit + extra - 1 then AllDraws(limit, extra - 1)
                else Selecting(limit, extra - 1, position);
    var allowed := v => Keeping(limit, extra, position, v);
    ExtendNonempty(base, allowed);
    forall d ensures d in Selecting(limit, extra, position) <==> d in Extend(base, allowed) {
      SelectingExact(limit, extra, position, d);
      if d != [] {
        var v, x := d[..|d| - 1], d[|d| - 1];
        assert d == v + [x];
        ExtendMember(base, allowed, v, x);
        AllDrawsExact(limit, extra - 1, v);
        SelectingExact(limit, extra - 1, position, v);
        if |d| == extra {
          SelectingOneMore(limit, extra, position, v, x);
        }
      }
    }
  }

  lemma AllDrawsSize(limit: nat, extra: nat)
    requires extra > 0
    ensures |AllDraws(limit, extra)| == |AllDraws(limit, extra - 1)| * (limit + extra)
  {
    BelowSize(limit + extra);
    ExtendSize(AllDraws(limit, extra - 1), _ => Below(limit + extra), limit + extra);
  }

  lemma SelectingSize(limit: nat, extra: nat, position: nat)
    requires extra > 0 && position < limit + extra
    ensures |Selecting(limit, extra, position)|
            == if position == limit + extra - 1 then |AllDraws(limit, extra - 1)| * limit
               else |Selecting(limit, extra - 1, position)| * (limit + extra - 1)
  {
    hide Selecting, AllDraws, Held, Extend;
    SelectingUnfolds(limit, extra, position);
    var allowed := v => Keeping(limit, extra, position, v);
    if position == limit + extra - 1 {
      BelowSize(limit);
      ExtendSize(AllDraws(limit, extra - 1), allowed, limit);
    } else {
      var before := Selecting(limit, extra - 1, position);
      forall v | v in before ensures |allowed(v)| == limit + extra - 1 {
        SelectingExact(limit, extra - 1, position, v);
        KeepingSize(limit, extra, position, v);
      }
      ExtendSize(before, allowed, limit + extra - 1);
    }
  }

  /** Uniform selection: each of the limit + extra eligible photos is selected under exactly
      limit / (limit + extra) of all the draw sequences. */
  lemma {:induction false} SelectionIsUniform(limit: nat, extra: nat, position: nat)
    requires position < limit + extra
    ensures |Selecting(limit, extra, position)| * (limit + extra) == limit * |AllDraws(limit, extra)|
    decreases extra
  {
    if extra == 0 {
      assert Held(limit, [])[position] == position;
      assert Selecting(limit, 0, position) == {[]};
    } else {
      hide Selecting, AllDraws, Held;
      AllDrawsSize(limit, extra);
      SelectingSize(limit, extra, position);
      if position < limit + extra - 1 {
        SelectionIsUniform(limit, extra - 1, position);
      }
      Regroup(|AllDraws(limit, extra - 1)|, limit, limit + extra);
    }
  }

  /** Seen from the library: every usable asset is in the sample under the same share of the draws,
      limit of so many as there are usable assets. */
  lemma AssetIsUniform<P>(assets: seq<Asset<P>>, limit: nat, i: nat)
    requires i < |assets| && assets[i].Usable? && limit <= |set j | 0 <= j < |assets| && assets[j].Usable?|
    ensures var usable := |set j | 0 <= j < |assets| && assets[j].Usable?|;
            var rank := |set j | 0 <= j < i && assets[j].Usable?|;
            var all := AllDraws(limit, usable - limit);
            |set d | d in all && rank in Held(limit, d)| * usable == limit * |all|
  {
    var usable := |set j | 0 <= j < |assets| && assets[j].Usable?|;
    var rank := |set j | 0 <= j < i && assets[j].Usable?|;
    EligibleByRank(assets, i);
    assert UsableBelow(assets, |assets|) == set j | 0 <= j < |assets| && assets[j].Usable?;
    assert UsableBelow(assets, i) == set j | 0 <= j < i && assets[j].Usable?;
    SelectionIsUniform(limit, usable - limit, rank);
    assert Selecting(limit, usable - limit, rank) == set d | d in AllDraws(limit, usable - limit) && rank in Held(limit, d);
  }

  lemma Regroup(a: nat, b: nat, c: nat)
    ensures (a * b) * c == b * (a * c) && (b * a) * c == b * (a * c)
  {
  }
}
