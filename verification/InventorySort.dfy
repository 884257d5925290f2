/** The bounded external sort of a catalogue: 200-record runs, merged 32 at a time. */
module InventorySort {
  import opened Wrappers

  const CHUNK_SIZE: nat := 200
  const MERGE_FAN_IN: nat := 32

  /** A creation date, in UTC to the microsecond. */
  datatype Stamp = Stamp(year: int, month: int, day: int, hour: int, minute: int, second: int, micro: int)

  datatype Record = Record(localId: string, date: Stamp)

  /** What the catalogue hands over: a photo, whose date may be missing, or something else. */
  datatype Raw = Foreign | Photo(localId: string, date: Option<Stamp>)

  /** `_record`; `control` tells the characters of a control category. */
  function RecordOf(control: char -> bool, raw: Raw): Option<Record> {
    if raw.Foreign? || raw.date.None? then None
    else if !(1 <= |raw.localId| <= 512) then None
    else if exists i :: 0 <= i < |raw.localId| && control(raw.localId[i]) then None
    else Some(Record(raw.localId, raw.date.value))
  }

  function RawOf(record: Record): Raw { Photo(record.localId, Some(record.date)) }

  /** The records of the valid photos, in the order they were enumerated. */
  function ValidRecords(control: char -> bool, raws: seq<Raw>): (records: seq<Record>)
    ensures |records| <= |raws|
  {
    if raws == [] then []
    else match RecordOf(control, raws[0])
      case None => ValidRecords(control, raws[1..])
      case Some(record) => [record] + ValidRecords(control, raws[1..])
  }

  lemma {:induction false} ValidRecordsSnoc(control: char -> bool, raws: seq<Raw>, raw: Raw)
    ensures ValidRecords(control, raws + [raw])
            == ValidRecords(control, raws) + match RecordOf(control, raw) case None => [] case Some(r) => [r]
    decreases |raws|
  {
    if raws == [] {
      assert raws + [raw] == [raw] && [raw][1..] == [];
    } else {
      assert (raws + [raw])[0] == raws[0] && (raws + [raw])[1..] == raws[1..] + [raw];
      ValidRecordsSnoc(control, raws[1..], raw);
    }
  }

  /** What makes a photo a record, spelled out. */
  predicate Listed(control: char -> bool, raw: Raw) {
    && raw.Photo? && raw.date.Some? && 1 <= |raw.localId| <= 512
    && forall k :: 0 <= k < |raw.localId| ==> !control(raw.localId[k])
  }

  lemma RecordOfExactly(control: char -> bool, raw: Raw)
    ensures RecordOf(control, raw)
            == if Listed(control, raw) then Some(Record(raw.localId, raw.date.value)) else None
  {
  }

  function ListedBelow(control: char -> bool, raws: seq<Raw>, i: nat): set<nat>
    requires i <= |raws|
  {
    set j | 0 <= j < i && Listed(control, raws[j])
  }

  /** The record of a valid photo stands where as many valid ones came before it, and nothing else is there. */
  lemma {:induction false} ValidByRank(control: char -> bool, raws: seq<Raw>, i: nat)
    requires i <= |raws|
    ensures |ValidRecords(control, raws)| == |ListedBelow(control, raws, |raws|)|
    ensures |ListedBelow(control, raws, i)| <= |ValidRecords(control, raws)|
    ensures i < |raws| && Listed(control, raws[i]) ==>
              var rank := |ListedBelow(control, raws, i)|;
              && rank < |ValidRecords(control, raws)|
              && ValidRecords(control, raws)[rank] == Record(raws[i].localId, raws[i].date.value)
    decreases |raws|
  {
    if raws == [] {
      assert ListedBelow(control, raws, 0) == {};
    } else {
      var n := |raws| - 1;
      hide ListedBelow, Listed, ValidRecords, RecordOf;
      assert raws == raws[..n] + [raws[n]];
      ValidRecordsSnoc(control, raws[..n], raws[n]);
      RecordOfExactly(control, raws[n]);
      ListedInFront(control, raws, n);
      ValidByRank(control, raws[..n], n);
      if i < n {
        ListedInFront(control, raws, i);
        ValidByRank(control, raws[..n], i);
      }
    }
  }

  lemma ListedInFront(control: char -> bool, raws: seq<Raw>, i: nat)
    requires i < |raws|
    ensures ListedBelow(control, raws[..|raws| - 1], i) == ListedBelow(control, raws, i)
    ensures ListedBelow(control, raws, i + 1)
            == ListedBelow(control, raws, i) + if Listed(control, raws[i]) then {i} else {}
  {
    hide Listed;
  }

  // ----------------------------------------------------------------------- keys

  type Key = seq<int>

  function CodePoints(s: string): Key { seq(|s|, i requires 0 <= i < |s| => s[i] as int) }

  /** `_sort_key`: newest first, then by identifier; tuples compare as sequences do. */
  function NewestFirst(r: Record): Key {
    [-r.date.year, -r.date.month, -r.date.day, -r.date.hour, -r.date.minute, -r.date.second, -r.date.micro]
    + CodePoints(r.localId)
  }

  function ById(r: Record): Key { CodePoints(r.localId) }

  predicate Leq(a: Key, b: Key) {
    a == [] || (b != [] && (a[0] < b[0] || (a[0] == b[0] && Leq(a[1..], b[1..]))))
  }

  lemma {:induction false} LeqTotal(a: Key, b: Key)
    ensures Leq(a, b) || Leq(b, a)
    decreases |a|
  {
    if a != [] && b != [] && a[0] == b[0] {
      LeqTotal(a[1..], b[1..]);
    }
  }

  lemma {:induction false} LeqReflexive(a: Key)
    ensures Leq(a, a)
    decreases |a|
  {
    if a != [] {
      LeqReflexive(a[1..]);
    }
  }

  lemma {:induction false} LeqTransitive(a: Key, b: Key, c: Key)
    requires Leq(a, b) && Leq(b, c)
    ensures Leq(a, c)
    decreases |a|
  {
    if a != [] && a[0] == b[0] && b[0] == c[0] {
      LeqTransitive(a[1..], b[1..], c[1..]);
    }
  }

  lemma {:induction false} LeqAntisymmetric(a: Key, b: Key)
    requires Leq(a, b) && Leq(b, a)
    ensures a == b
    decreases |a|
  {
    if a != [] && b != [] {
      LeqAntisymmetric(a[1..], b[1..]);
      assert a == [a[0]] + a[1..] && b == [b[0]] + b[1..];
    }
  }

  lemma CodePointsInjective(s: string, t: string)
    requires CodePoints(s) == CodePoints(t)
    ensures s == t
  {
    assert |s| == |t|;
    forall i | 0 <= i < |s| ensures s[i] == t[i] {
      assert CodePoints(s)[i] == CodePoints(t)[i];
    }
  }

  /** The catalogue order has no ties: equal keys are equal records. */
  lemma NewestFirstInjective(r: Record, s: Record)
    requires NewestFirst(r) == NewestFirst(s)
    ensures r == s
  {
    var a, b := NewestFirst(r), NewestFirst(s);
    assert a[0] == b[0] && a[1] == b[1] && a[2] == b[2] && a[3] == b[3] && a[4] == b[4] && a[5] == b[5] && a[6] == b[6];
    assert a[7..] == CodePoints(r.localId) && b[7..] == CodePoints(s.localId);
    CodePointsInjective(r.localId, s.localId);
  }

  /** The order of keys, spelled out: equal, or a prefix, or smaller at the first difference. */
  lemma {:induction false} LeqIsLexicographic(a: Key, b: Key)
    ensures Leq(a, b) <==> a <= b || exists k :: 0 <= k < |a| && k < |b| && a[..k] == b[..k] && a[k] < b[k]
    decreases |a|
  {
    if a == [] || b == [] {
    } else if a[0] != b[0] {
      assert a[..0] == b[..0];
      forall k | 0 < k < |a| && k < |b| ensures a[..k] != b[..k] {
        assert a[..k][0] == a[0] && b[..k][0] == b[0];
      }
    } else {
      var c, d := a[1..], b[1..];
      LeqIsLexicographic(c, d);
      assert a == [a[0]] + c && b == [b[0]] + d;
      if k :| 0 <= k < |c| && k < |d| && c[..k] == d[..k] && c[k] < d[k] {
        assert a[..k + 1] == [a[0]] + c[..k] && b[..k + 1] == [b[0]] + d[..k];
        assert a[..k + 1] == b[..k + 1] && a[k + 1] < b[k + 1];
      }
      if k :| 0 <= k < |a| && k < |b| && a[..k] == b[..k] && a[k] < b[k] {
        assert k > 0 && c[..k - 1] == a[..k][1..] && d[..k - 1] == b[..k][1..];
      }
    }
  }

  /** One moment before another. */
  predicate Earlier(a: Stamp, b: Stamp) {
    if a.year != b.year then a.year < b.year
    else if a.month != b.month then a.month < b.month
    else if a.day != b.day then a.day < b.day
    else if a.hour != b.hour then a.hour < b.hour
    else if a.minute != b.minute then a.minute < b.minute
    else if a.second != b.second then a.second < b.second
    else a.micro < b.micro
  }

  /** One identifier before another, by code point at the first difference. */
  predicate Precedes(s: string, t: string) {
    s < t || exists k :: 0 <= k < |s| && k < |t| && s[..k] == t[..k] && s[k] < t[k]
  }

  /** What the catalogue key puts first: the later photo, and of two from one moment the one whose
      identifier precedes. */
  lemma NewestFirstSays(r: Record, s: Record)
    ensures Leq(NewestFirst(r), NewestFirst(s))
            <==> Earlier(s.date, r.date) || (r.date == s.date && (r.localId == s.localId || Precedes(r.localId, s.localId)))
  {
    var a, b := NewestFirst(r), NewestFirst(s);
    DatesFirst(r, s);
    if r.date == s.date {
      IdsNext(r.localId, s.localId);
    }
  }

  lemma DatesFirst(r: Record, s: Record)
    ensures Leq(NewestFirst(r), NewestFirst(s))
            <==> Earlier(s.date, r.date) || (r.date == s.date && Leq(CodePoints(r.localId), CodePoints(s.localId)))
  {
    var d, e := r.date, s.date;
    var a6, b6 := [-d.micro] + CodePoints(r.localId), [-e.micro] + CodePoints(s.localId);
    var a5, b5 := [-d.second] + a6, [-e.second] + b6;
    var a4, b4 := [-d.minute] + a5, [-e.minute] + b5;
    var a3, b3 := [-d.hour] + a4, [-e.hour] + b4;
    var a2, b2 := [-d.day] + a3, [-e.day] + b3;
    var a1, b1 := [-d.month] + a2, [-e.month] + b2;
    assert NewestFirst(r) == [-d.year] + a1 && NewestFirst(s) == [-e.year] + b1;
    hide Leq, CodePoints, NewestFirst;
    LeqFirst(-d.year, a1, -e.year, b1);
    LeqFirst(-d.month, a2, -e.month, b2);
    LeqFirst(-d.day, a3, -e.day, b3);
    LeqFirst(-d.hour, a4, -e.hour, b4);
    LeqFirst(-d.minute, a5, -e.minute, b5);
    LeqFirst(-d.second, a6, -e.second, b6);
    LeqFirst(-d.micro, CodePoints(r.localId), -e.micro, CodePoints(s.localId));
  }

  lemma LeqFirst(x: int, a: Key, y: int, b: Key)
    ensures Leq([x] + a, [y] + b) <==> x < y || (x == y && Leq(a, b))
  {
    assert ([x] + a)[1..] == a && ([y] + b)[1..] == b;
  }

  lemma IdsNext(s: string, t: string)
    ensures Leq(CodePoints(s), CodePoints(t)) <==> s == t || Precedes(s, t)
  {
    var a, b := CodePoints(s), CodePoints(t);
    LeqIsLexicographic(a, b);
    forall k | 0 <= k <= |s| && k <= |t| ensures a[..k] == b[..k] <==> s[..k] == t[..k] {
      assert a[..k] == CodePoints(s[..k]) && b[..k] == CodePoints(t[..k]);
      if a[..k] == b[..k] { CodePointsInjective(s[..k], t[..k]); }
    }
    assert a == a[..|a|] && s == s[..|s|];
  }

  // ------------------------------------------------------------------ sortedness

  predicate Below(key: Record -> Key, bound: Record, rows: seq<Record>) {
    forall i :: 0 <= i < |rows| ==> Leq(key(bound), key(rows[i]))
  }

  predicate Sorted(key: Record -> Key, rows: seq<Record>) {
    forall i, j :: 0 <= i < j < |rows| ==> Leq(key(rows[i]), key(rows[j]))
  }

  lemma SortedTail(key: Record -> Key, rows: seq<Record>)
    requires Sorted(key, rows) && rows != []
    ensures Sorted(key, rows[1..]) && Below(key, rows[0], rows[1..]) && Below(key, rows[0], rows)
  {
    LeqReflexive(key(rows[0]));
  }

  /** `sorted` on one buffer. */
  function Insert(key: Record -> Key, row: Record, rows: seq<Record>): seq<Record> {
    if rows == [] || Leq(key(row), key(rows[0])) then [row] + rows
    else [rows[0]] + Insert(key, row, rows[1..])
  }

  function SortBuffer(key: Record -> Key, rows: seq<Record>): seq<Record> {
    if rows == [] then [] else Insert(key, rows[0], SortBuffer(key, rows[1..]))
  }

  lemma {:induction false} InsertCorrect(key: Record -> Key, row: Record, rows: seq<Record>)
    requires Sorted(key, rows)
    ensures Sorted(key, Insert(key, row, rows))
    ensures multiset(Insert(key, row, rows)) == multiset(rows) + multiset{row}
    decreases |rows|
  {
    if rows == [] {
    } else if Leq(key(row), key(rows[0])) {
      forall i | 0 <= i < |rows| ensures Leq(key(row), key(rows[i])) {
        if i > 0 {
          LeqTransitive(key(row), key(rows[0]), key(rows[i]));
        }
      }
    } else {
      var rest := Insert(key, row, rows[1..]);
      InsertCorrect(key, row, rows[1..]);
      LeqTotal(key(row), key(rows[0]));
      assert rows == [rows[0]] + rows[1..];
      forall i | 0 <= i < |rest| ensures Leq(key(rows[0]), key(rest[i])) {
        assert rest[i] in multiset(rest);
        if rest[i] != row {
          assert rest[i] in multiset(rows[1..]);
        }
      }
    }
  }

  lemma {:induction false} SortBufferCorrect(key: Record -> Key, rows: seq<Record>)
    ensures Sorted(key, SortBuffer(key, rows))
    ensures multiset(SortBuffer(key, rows)) == multiset(rows)
    decreases |rows|
  {
    if rows != [] {
      SortBufferCorrect(key, rows[1..]);
      InsertCorrect(key, rows[0], SortBuffer(key, rows[1..]));
      assert rows == [rows[0]] + rows[1..];
    }
  }

  /** Sorting leaves no choice: under a key without ties there is one sorted permutation. */
  lemma {:induction false} SortedPermutationUnique(a: seq<Record>, b: seq<Record>)
    requires Sorted(NewestFirst, a) && Sorted(NewestFirst, b) && multiset(a) == multiset(b)
    ensures a == b
    decreases |a|
  {
    hide NewestFirst, Leq;
    assert |a| == |multiset(a)| && |b| == |multiset(b)|;
    if a != [] {
      assert a[0] in multiset(b) && b[0] in multiset(a);
      SortedTail(NewestFirst, a);
      SortedTail(NewestFirst, b);
      assert Leq(NewestFirst(a[0]), NewestFirst(b[0])) && Leq(NewestFirst(b[0]), NewestFirst(a[0]));
      LeqAntisymmetric(NewestFirst(a[0]), NewestFirst(b[0]));
      NewestFirstInjective(a[0], b[0]);
      assert a == [a[0]] + a[1..] && b == [b[0]] + b[1..];
      assert multiset(a[1..]) == multiset(a) - multiset{a[0]};
      assert multiset(b[1..]) == multiset(b) - multiset{b[0]};
      SortedPermutationUnique(a[1..], b[1..]);
    }
  }

  // ------------------------------------------------------------------------- runs

  /** Everything the run files hold. */
  function Flat(runs: seq<seq<Record>>): multiset<Record> {
    if runs == [] then multiset{} else multiset(runs[0]) + Flat(runs[1..])
  }

  lemma {:induction false} FlatConcat(a: seq<seq<Record>>, b: seq<seq<Record>>)
    ensures Flat(a + b) == Flat(a) + Flat(b)
    decreases |a|
  {
    if a == [] {
      assert a + b == b;
    } else {
      assert (a + b)[0] == a[0] && (a + b)[1..] == a[1..] + b;
      FlatConcat(a[1..], b);
    }
  }

  /** Taking the head off one run takes one record out of the whole. */
  lemma {:induction false} FlatPop(runs: seq<seq<Record>>, k: nat)
    requires k < |runs| && runs[k] != []
    ensures Flat(runs) == Flat(runs[k := runs[k][1..]]) + multiset{runs[k][0]}
    decreases k
  {
    var changed := runs[k := runs[k][1..]];
    if k == 0 {
      assert changed[1..] == runs[1..];
      assert runs[0] == [runs[0][0]] + runs[0][1..];
    } else {
      FlatPop(runs[1..], k - 1);
      assert runs[1..][k - 1] == runs[k];
      assert changed[0] == runs[0] && changed[1..] == runs[1..][k - 1 := runs[k][1..]];
    }
  }

  lemma {:induction false} FlatMember(runs: seq<seq<Record>>, k: nat)
    requires k < |runs|
    ensures multiset(runs[k]) <= Flat(runs)
    decreases k
  {
    if k > 0 {
      FlatMember(runs[1..], k - 1);
    }
  }

  lemma {:induction false} FlatSource(runs: seq<seq<Record>>, row: Record) returns (k: nat)
    requires row in Flat(runs)
    ensures k < |runs| && row in runs[k]
    decreases |runs|
  {
    if row in multiset(runs[0]) {
      k := 0;
    } else {
      var tail := FlatSource(runs[1..], row);
      k := tail + 1;
    }
  }

  predicate AllSorted(key: Record -> Key, runs: seq<seq<Record>>) {
    forall k :: 0 <= k < |runs| ==> Sorted(key, runs[k])
  }

  /** The next cursor of a merge: the smallest head, the earliest run among equals. */
  method SmallestHead(key: Record -> Key, rest: seq<seq<Record>>) returns (least: Option<nat>)
    ensures least.None? <==> forall k :: 0 <= k < |rest| ==> rest[k] == []
    ensures least.Some? ==> 0 <= least.value < |rest| && rest[least.value] != []
    ensures least.Some? ==> forall k :: 0 <= k < |rest| && rest[k] != [] ==>
              Leq(key(rest[least.value][0]), key(rest[k][0]))
    ensures least.Some? ==> forall k :: 0 <= k < least.value && rest[k] != [] ==>
              !Leq(key(rest[k][0]), key(rest[least.value][0]))
  {
    least := None;
    var k := 0;
    while k < |rest|
      invariant 0 <= k <= |rest|
      invariant least.None? <==> forall j :: 0 <= j < k ==> rest[j] == []
      invariant least.Some? ==> 0 <= least.value < k && rest[least.value] != []
      invariant least.Some? ==> forall j :: 0 <= j < k && rest[j] != [] ==>
                  Leq(key(rest[least.value][0]), key(rest[j][0]))
      invariant least.Some? ==> forall j :: 0 <= j < least.value && rest[j] != [] ==>
                  !Leq(key(rest[j][0]), key(rest[least.value][0]))
    {
      if rest[k] != [] {
        if least.None? {
          least := Some(k);
          LeqReflexive(key(rest[k][0]));
        } else {
          var best, head := rest[least.value][0], rest[k][0];
          LeqTotal(key(best), key(head));
          if !Leq(key(best), key(head)) {
            forall j | 0 <= j < k && rest[j] != []
              ensures Leq(key(head), key(rest[j][0])) && !Leq(key(rest[j][0]), key(head))
            {
              LeqTransitive(key(head), key(best), key(rest[j][0]));
              if Leq(key(rest[j][0]), key(head)) {
                LeqTransitive(key(best), key(rest[j][0]), key(head));
              }
            }
            LeqReflexive(key(head));
            least := Some(k);
          }
        }
      }
      k := k + 1;
    }
  }

  lemma {:induction false} AllEmptyFlat(rest: seq<seq<Record>>)
    requires forall k :: 0 <= k < |rest| ==> rest[k] == []
    ensures Flat(rest) == multiset{}
    decreases |rest|
  {
    if rest != [] {
      AllEmptyFlat(rest[1..]);
    }
  }

  /** The least head is below everything not merged yet. */
  lemma LeastHeadBelow(key: Record -> Key, rest: seq<seq<Record>>, least: nat, row: Record)
    requires AllSorted(key, rest) && least < |rest| && rest[least] != [] && row in Flat(rest)
    requires forall k :: 0 <= k < |rest| && rest[k] != [] ==> Leq(key(rest[least][0]), key(rest[k][0]))
    ensures Leq(key(rest[least][0]), key(row))
  {
    var k := FlatSource(rest, row);
    var i :| 0 <= i < |rest[k]| && rest[k][i] == row;
    SortedTail(key, rest[k]);
    LeqTransitive(key(rest[least][0]), key(rest[k][0]), key(row));
  }

  ghost predicate MergedSoFar(key: Record -> Key, merged: seq<Record>, rest: seq<seq<Record>>) {
    && Sorted(key, merged)
    && AllSorted(key, rest)
    && forall i, row :: 0 <= i < |merged| && row in Flat(rest) ==> Leq(key(merged[i]), key(row))
  }

  lemma TailsSorted(key: Record -> Key, rest: seq<seq<Record>>, least: nat)
    requires AllSorted(key, rest) && least < |rest| && rest[least] != []
    ensures AllSorted(key, rest[least := rest[least][1..]])
  {
    SortedTail(key, rest[least]);
    hide Sorted;
  }

  lemma SortedSnoc(key: Record -> Key, rows: seq<Record>, row: Record)
    requires Sorted(key, rows) && forall i :: 0 <= i < |rows| ==> Leq(key(rows[i]), key(row))
    ensures Sorted(key, rows + [row])
  {
    hide Leq;
  }

  lemma MergeOne(key: Record -> Key, merged: seq<Record>, rest: seq<seq<Record>>, least: nat)
    requires MergedSoFar(key, merged, rest) && least < |rest| && rest[least] != []
    requires forall k :: 0 <= k < |rest| && rest[k] != [] ==> Leq(key(rest[least][0]), key(rest[k][0]))
    ensures MergedSoFar(key, merged + [rest[least][0]], rest[least := rest[least][1..]])
  {
    hide Flat, Leq, AllSorted, Sorted;
    var head, tail := rest[least][0], rest[least][1..];
    var after := rest[least := tail];
    FlatPop(rest, least);
    TailsSorted(key, rest, least);
    assert head in Flat(rest);
    SortedSnoc(key, merged, head);
    forall i, row | 0 <= i < |merged| + 1 && row in Flat(after)
      ensures Leq(key((merged + [head])[i]), key(row))
    {
      assert row in Flat(rest);
      if i == |merged| {
        LeastHeadBelow(key, rest, least, row);
      }
    }
  }

  /** `heapq.merge` over at most 32 sorted runs. */
  method MergeRuns(key: Record -> Key, runs: seq<seq<Record>>) returns (merged: seq<Record>)
    requires |runs| <= MERGE_FAN_IN && AllSorted(key, runs)
    ensures Sorted(key, merged) && multiset(merged) == Flat(runs)
  {
    hide Sorted, AllSorted, Flat, Leq;
    merged := [];
    var rest := runs;
    var least := SmallestHead(key, rest);
    StartMerge(key, runs);
    while least.Some?
      invariant MergedSoFar(key, merged, rest)
      invariant multiset(merged) + Flat(rest) == Flat(runs)
      invariant least.None? <==> forall k :: 0 <= k < |rest| ==> rest[k] == []
      invariant least.Some? ==> 0 <= least.value < |rest| && rest[least.value] != []
      invariant least.Some? ==> forall k :: 0 <= k < |rest| && rest[k] != [] ==>
                  Leq(key(rest[least.value][0]), key(rest[k][0]))
      decreases |Flat(rest)|
    {
      MergeOne(key, merged, rest, least.value);
      FlatPop(rest, least.value);
      merged := merged + [rest[least.value][0]];
      rest := rest[least.value := rest[least.value][1..]];
      least := SmallestHead(key, rest);
    }
    AllEmptyFlat(rest);
  }

  lemma StartMerge(key: Record -> Key, runs: seq<seq<Record>>)
    requires AllSorted(key, runs)
    ensures MergedSoFar(key, [], runs)
  {
  }

  function Min(a: nat, b: nat): nat { if a < b then a else b }

  function CeilDiv(n: nat, d: nat): nat
    requires d > 0
  {
    (n + d - 1) / d
  }

  lemma NoRuns(key: Record -> Key)
    ensures AllBounded([])
    ensures AllSorted(key, []) && Flat([]) == multiset{}
  {
  }

  lemma RunsSliced(key: Record -> Key, runs: seq<seq<Record>>, from: nat, to: nat)
    requires AllSorted(key, runs) && from <= to <= |runs|
    ensures AllSorted(key, runs[from..to])
  {
  }

  lemma RunAppended(key: Record -> Key, runs: seq<seq<Record>>, run: seq<Record>)
    requires AllSorted(key, runs) && Sorted(key, run)
    ensures AllSorted(key, runs + [run]) && Flat(runs + [run]) == Flat(runs) + multiset(run)
  {
    FlatConcat(runs, [run]);
  }

  lemma FlatSplit(runs: seq<seq<Record>>, from: nat, to: nat)
    requires from <= to <= |runs|
    ensures Flat(runs[..to]) == Flat(runs[..from]) + Flat(runs[from..to])
  {
    assert runs[..to] == runs[..from] + runs[from..to];
    FlatConcat(runs[..from], runs[from..to]);
  }

  /** One level of merging: groups of 32 consecutive runs become one run each. */
  method MergeLevel(key: Record -> Key, runs: seq<seq<Record>>) returns (outputs: seq<seq<Record>>)
    requires AllSorted(key, runs)
    ensures AllSorted(key, outputs) && Flat(outputs) == Flat(runs)
    ensures |outputs| == (|runs| + 31) / 32
  {
    hide AllSorted, Flat;
    NoRuns(key);
    assert runs[..0] == [];
    outputs := [];
    var start := 0;
    while start < |runs|
      invariant start == MERGE_FAN_IN * |outputs|
      invariant start < |runs| + MERGE_FAN_IN
      invariant AllSorted(key, outputs)
      invariant Flat(outputs) == Flat(runs[..Min(start, |runs|)])
    {
      var end := Min(|runs|, start + MERGE_FAN_IN);
      RunsSliced(key, runs, start, end);
      var merged := MergeRuns(key, runs[start..end]);
      FlatSplit(runs, start, end);
      RunAppended(key, outputs, merged);
      outputs := outputs + [merged];
      start := start + MERGE_FAN_IN;
    }
    assert runs[..|runs|] == runs;
  }

  lemma FewerRuns(count: nat)
    requires count > 1
    ensures 1 <= CeilDiv(count, MERGE_FAN_IN) < count && CeilDiv(count, MERGE_FAN_IN) == (count + 31) / 32
  {
  }

  /** What one buffer holds: a run is neither empty nor longer than 200 records. */
  predicate AllBounded(runs: seq<seq<Record>>) {
    forall k :: 0 <= k < |runs| ==> 0 < |runs[k]| <= CHUNK_SIZE
  }

  /** The first pass: every 200 valid records become one sorted run. */
  method InitialRuns(control: char -> bool, raws: seq<Raw>, key: Record -> Key)
    returns (runs: seq<seq<Record>>, valid: nat, invalid: nat)
    ensures AllSorted(key, runs) && Flat(runs) == multiset(ValidRecords(control, raws))
    ensures AllBounded(runs) && forall k :: 0 <= k < |runs| ==> 1 <= |runs[k]| <= 200
    ensures valid == |ValidRecords(control, raws)| && valid + invalid == |raws|
  {
    hide AllSorted, RecordOf, Flat;
    NoRuns(key);
    assert raws[..0] == [] && ValidRecords(control, []) == [];
    hide ValidRecords;
    runs := [];
    var buffer: seq<Record> := [];
    valid, invalid := 0, 0;
    var i := 0;
    while i < |raws|
      invariant 0 <= i <= |raws|
      invariant |buffer| < CHUNK_SIZE
      invariant AllSorted(key, runs)
      invariant AllBounded(runs)
      invariant Flat(runs) + multiset(buffer) == multiset(ValidRecords(control, raws[..i]))
      invariant valid == |ValidRecords(control, raws[..i])| && valid + invalid == i
    {
      assert raws[..i + 1] == raws[..i] + [raws[i]];
      ValidRecordsSnoc(control, raws[..i], raws[i]);
      var record := RecordOf(control, raws[i]);
      i := i + 1;
      if record.None? {
        invalid := invalid + 1;
        continue;
      }
      valid := valid + 1;
      buffer := buffer + [record.value];
      if |buffer| == CHUNK_SIZE {
        runs := AppendRun(key, runs, buffer);
        buffer := [];
      }
    }
    assert raws[..i] == raws;
    if buffer != [] {
      runs := AppendRun(key, runs, buffer);
    }
  }

  /** `_sorted_records`: for any input a sorted permutation of its valid records, counted exactly. */
  method SortedRecords(control: char -> bool, raws: seq<Raw>, key: Record -> Key)
    returns (sorted: seq<Record>, valid: nat, invalid: nat)
    ensures Sorted(key, sorted)
    ensures multiset(sorted) == multiset(ValidRecords(control, raws))
    ensures valid == |ValidRecords(control, raws)| && valid + invalid == |raws|
  {
    var runs;
    runs, valid, invalid := InitialRuns(control, raws, key);
    while |runs| > 1
      invariant AllSorted(key, runs)
      invariant Flat(runs) == multiset(ValidRecords(control, raws))
      decreases |runs|
    {
      FewerRuns(|runs|);
      runs := MergeLevel(key, runs);
    }
    sorted := if runs == [] then [] else runs[0];
    if |runs| == 1 {
      assert runs == [runs[0]];
    }
  }

  function AppendRun(key: Record -> Key, runs: seq<seq<Record>>, buffer: seq<Record>): (r: seq<seq<Record>>)
    requires AllSorted(key, runs)
    ensures AllSorted(key, r) && Flat(r) == Flat(runs) + multiset(buffer)
    ensures AllBounded(runs) && 0 < |buffer| <= CHUNK_SIZE ==> AllBounded(r)
  {
    SortBufferCorrect(key, buffer);
    assert |multiset(SortBuffer(key, buffer))| == |SortBuffer(key, buffer)| && |multiset(buffer)| == |buffer|;
    RunAppended(key, runs, SortBuffer(key, buffer));
    runs + [SortBuffer(key, buffer)]
  }
}
