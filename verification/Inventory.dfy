/** `InventorySnapshot`: created from any enumeration of a library, loaded, paged and iterated. */
module Inventory {
  import opened Wrappers
  import opened InventorySort
  import opened InventoryMerkle

  /** A stored page file; a file that does not parse into this shape is as good as absent. */
  datatype Chunk = Chunk(index: nat, records: seq<Record>, proof: seq<Digest>)

  datatype Snapshot = Snapshot(total: nat, invalid: nat, chunkCount: nat, digest: Digest, root: Digest)

  datatype Inventory = Inventory(snapshot: Snapshot, chunks: map<nat, Chunk>)

  // ---------------------------------------------------------- the canonical catalogue

  /** The one order a set of records has. */
  function CanonicalOrder(records: seq<Record>): seq<Record> {
    SortBuffer(NewestFirst, records)
  }

  function PageOf(order: seq<Record>, i: nat): seq<Record>
    requires i < CeilDiv(|order|, CHUNK_SIZE)
  {
    order[CHUNK_SIZE * i..Min(CHUNK_SIZE * (i + 1), |order|)]
  }

  function Leaves(h: Hashing, order: seq<Record>): seq<Digest> {
    seq(CeilDiv(|order|, CHUNK_SIZE), i requires 0 <= i < CeilDiv(|order|, CHUNK_SIZE) => h.leaf(i, PageOf(order, i)))
  }

  function RootOf(h: Hashing, leaves: seq<Digest>): Digest {
    if leaves == [] then h.empty else Root(h, leaves)
  }

  function SnapshotOf(h: Hashing, order: seq<Record>, invalid: nat): Snapshot {
    var root := RootOf(h, Leaves(h, order));
    var count := CeilDiv(|order|, CHUNK_SIZE);
    Snapshot(|order|, invalid, count, h.metadata(|order|, invalid, count, root), root)
  }

  function ChunksOf(h: Hashing, order: seq<Record>): map<nat, Chunk> {
    map i: nat | 0 <= i < CeilDiv(|order|, CHUNK_SIZE) :: Chunk(i, PageOf(order, i), Path(h, Leaves(h, order), i))
  }

  function InventoryOf(h: Hashing, order: seq<Record>, invalid: nat): Inventory {
    Inventory(SnapshotOf(h, order, invalid), ChunksOf(h, order))
  }

  /** Two valid records share an identifier. */
  ghost predicate Clash(records: seq<Record>) {
    exists i, j :: 0 <= i < j < |records| && records[i].localId == records[j].localId
  }

  // ------------------------------------------------------- clashes and permutations

  lemma {:induction false} TwoPlaces(rows: seq<Record>, row: Record)
    requires multiset(rows)[row] >= 2
    ensures exists i, j :: 0 <= i < j < |rows| && rows[i] == row && rows[j] == row
    decreases |rows|
  {
    var tail := rows[1..];
    assert rows == [rows[0]] + tail;
    if rows[0] == row {
      assert row in multiset(tail);
      var j :| 0 <= j < |tail| && tail[j] == row;
      assert rows[0] == row && rows[j + 1] == row;
    } else {
      TwoPlaces(tail, row);
      var i, j :| 0 <= i < j < |tail| && tail[i] == row && tail[j] == row;
      assert rows[i + 1] == row && rows[j + 1] == row;
    }
  }

  lemma TwoOccurrences(rows: seq<Record>, i: nat, j: nat)
    requires i < j < |rows| && rows[i] == rows[j]
    ensures multiset(rows)[rows[i]] >= 2
  {
    var front, back := rows[..j], rows[j..];
    assert rows == front + back;
    assert front[i] == rows[i] && back[0] == rows[j];
    assert rows[i] in multiset(front) && rows[i] in multiset(back);
  }

  lemma ClashPermuted(a: seq<Record>, b: seq<Record>)
    requires multiset(a) == multiset(b)
    ensures Clash(a) ==> Clash(b)
  {
    if Clash(a) {
      var i, j :| 0 <= i < j < |a| && a[i].localId == a[j].localId;
      if a[i] == a[j] {
        TwoOccurrences(a, i, j);
        TwoPlaces(b, a[i]);
        var p, q :| 0 <= p < q < |b| && b[p] == a[i] && b[q] == a[i];
        assert b[p].localId == b[q].localId;
      } else {
        assert a[i] in multiset(b) && a[j] in multiset(b);
        var p :| 0 <= p < |b| && b[p] == a[i];
        var q :| 0 <= q < |b| && b[q] == a[j];
        assert b[if p < q then p else q].localId == b[if p < q then q else p].localId;
      }
    }
  }

  /** In an order by identifier, clashing records are neighbours. */
  lemma ClashIsAdjacent(rows: seq<Record>)
    requires Sorted(ById, rows)
    ensures Clash(rows) <==> exists k :: 0 < k < |rows| && rows[k].localId == rows[k - 1].localId
  {
    if Clash(rows) {
      var i, j :| 0 <= i < j < |rows| && rows[i].localId == rows[j].localId;
      assert Leq(ById(rows[i]), ById(rows[i + 1]));
      if i + 1 < j {
        assert Leq(ById(rows[i + 1]), ById(rows[j]));
      } else {
        LeqReflexive(ById(rows[j]));
      }
      LeqAntisymmetric(ById(rows[i]), ById(rows[i + 1]));
      CodePointsInjective(rows[i].localId, rows[i + 1].localId);
    }
    if k :| 0 < k < |rows| && rows[k].localId == rows[k - 1].localId {
      assert rows[k - 1].localId == rows[k].localId;
    }
  }

  // ------------------------------------------------------------------- creation

  function Raws(records: seq<Record>): seq<Raw> {
    seq(|records|, i requires 0 <= i < |records| => RawOf(records[i]))
  }

  predicate Recordable(control: char -> bool, record: Record) {
    RecordOf(control, RawOf(record)) == Some(record)
  }

  predicate AllRecordable(control: char -> bool, records: seq<Record>) {
    forall i :: 0 <= i < |records| ==> Recordable(control, records[i])
  }

  lemma {:induction false} ValidRecordable(control: char -> bool, raws: seq<Raw>)
    ensures AllRecordable(control, ValidRecords(control, raws))
    decreases |raws|
  {
    if raws != [] {
      ValidRecordable(control, raws[1..]);
    }
  }

  lemma {:induction false} RecordedAgain(control: char -> bool, records: seq<Record>)
    requires AllRecordable(control, records)
    ensures ValidRecords(control, Raws(records)) == records
    decreases |records|
  {
    if records != [] {
      assert Raws(records)[1..] == Raws(records[1..]);
      assert Recordable(control, records[0]);
      RecordedAgain(control, records[1..]);
    }
  }

  lemma RecordablePermuted(control: char -> bool, a: seq<Record>, b: seq<Record>)
    requires multiset(a) == multiset(b) && AllRecordable(control, a)
    ensures AllRecordable(control, b)
  {
    hide Recordable;
    forall i | 0 <= i < |b| ensures Recordable(control, b[i]) {
      assert b[i] in multiset(a);
      var j :| 0 <= j < |a| && a[j] == b[i];
      assert Recordable(control, a[j]);
    }
  }

  /** `_unique_records`: the records by identifier, or nothing when two share one. */
  method UniqueRecords(control: char -> bool, raws: seq<Raw>)
    returns (unique: Option<seq<Record>>, valid: nat, invalid: nat)
    ensures unique.None? <==> Clash(ValidRecords(control, raws))
    ensures unique.Some? ==> multiset(unique.value) == multiset(ValidRecords(control, raws))
    ensures valid == |ValidRecords(control, raws)| && valid + invalid == |raws|
  {
    var rows;
    rows, valid, invalid := SortedRecords(control, raws, ById);
    ClashPermuted(rows, ValidRecords(control, raws));
    ClashPermuted(ValidRecords(control, raws), rows);
    ClashIsAdjacent(rows);
    hide Clash, Sorted;
    var k := 1;
    while k < |rows|
      invariant forall j :: 0 < j < k && j < |rows| ==> rows[j].localId != rows[j - 1].localId
    {
      if rows[k].localId == rows[k - 1].localId {
        return None, valid, invalid;
      }
      k := k + 1;
    }
    unique := Some(rows);
  }

  /** Cutting the order into page files. */
  method Paginate(order: seq<Record>) returns (pages: seq<seq<Record>>)
    ensures |pages| == CeilDiv(|order|, CHUNK_SIZE)
    ensures forall i :: 0 <= i < |pages| ==> pages[i] == PageOf(order, i)
  {
    pages := [];
    var buffer: seq<Record> := [];
    var at := 0;
    while at < |order|
      invariant 0 <= at <= |order| && |buffer| < CHUNK_SIZE
      invariant at == CHUNK_SIZE * |pages| + |buffer|
      invariant buffer == order[CHUNK_SIZE * |pages|..at]
      invariant forall i :: 0 <= i < |pages| ==> pages[i] == order[CHUNK_SIZE * i..CHUNK_SIZE * (i + 1)]
    {
      buffer := buffer + [order[at]];
      at := at + 1;
      if |buffer| == CHUNK_SIZE {
        pages, buffer := pages + [buffer], [];
        assert order[at..at] == [];
      }
    }
    if buffer != [] {
      pages := pages + [buffer];
    }
  }

  /** `create`: fails exactly on a clash; otherwise everything written is the canonical inventory
      of the valid records, whatever order they were enumerated in. */
  method Create(control: char -> bool, h: Hashing, raws: seq<Raw>) returns (created: Option<Inventory>)
    ensures created.None? <==> Clash(ValidRecords(control, raws))
    ensures created.Some? ==>
              var records := ValidRecords(control, raws);
              created.value == InventoryOf(h, CanonicalOrder(records), |raws| - |records|)
  {
    hide Clash, AllRecordable, Sorted, Raws, InventoryOf, ValidRecords, SortBuffer, NewestFirst;
    var unique, valid, invalid := UniqueRecords(control, raws);
    if unique.None? {
      return None;
    }
    ghost var records := ValidRecords(control, raws);
    ValidRecordable(control, raws);
    RecordablePermuted(control, records, unique.value);
    RecordedAgain(control, unique.value);
    var order, _, _ := SortedRecords(control, Raws(unique.value), NewestFirst);
    SortBufferCorrect(NewestFirst, records);
    SortedPermutationUnique(order, CanonicalOrder(records));
    SameLength(order, records);
    var inventory := WriteInventory(h, order, invalid);
    created := Some(inventory);
  }

  /** The page files, the proofs attached to them and the snapshot that commits to them. */
  method WriteInventory(h: Hashing, order: seq<Record>, invalid: nat) returns (inventory: Inventory)
    ensures inventory == InventoryOf(h, order, invalid)
  {
    hide PageOf, Path, Root;
    var pages := Paginate(order);
    var leaves := seq(|pages|, i requires 0 <= i < |pages| => h.leaf(i, pages[i]));
    assert leaves == Leaves(h, order);
    var root, proofs := AttachProofs(h, leaves);
    var chunks := map i: nat | 0 <= i < |pages| :: Chunk(i, pages[i], proofs[i]);
    assert chunks == ChunksOf(h, order);
    inventory := Inventory(
      Snapshot(|order|, invalid, |pages|, h.metadata(|order|, invalid, |pages|, root), root), chunks);
  }

  lemma SameLength(a: seq<Record>, b: seq<Record>)
    requires multiset(a) == multiset(b)
    ensures |a| == |b|
  {
    assert |a| == |multiset(a)| && |b| == |multiset(b)|;
  }

  /** Page files and root do not depend on the enumeration, only on what is in the library. */
  lemma EnumerationIrrelevant(a: seq<Record>, b: seq<Record>)
    ensures CanonicalOrder(a) == CanonicalOrder(b) <==> multiset(a) == multiset(b)
  {
    SortBufferCorrect(NewestFirst, a);
    SortBufferCorrect(NewestFirst, b);
    if multiset(a) == multiset(b) {
      SortedPermutationUnique(CanonicalOrder(a), CanonicalOrder(b));
    }
  }

  // ------------------------------------------------------ what is created, spelled out

  lemma {:induction false} RecordedFrom(control: char -> bool, raws: seq<Raw>, id: string)
    ensures (exists k :: 0 <= k < |ValidRecords(control, raws)| && ValidRecords(control, raws)[k].localId == id)
            <==> exists i :: 0 <= i < |raws| && Listed(control, raws[i]) && raws[i].localId == id
    decreases |raws|
  {
    hide RecordOf;
    if raws != [] {
      var n := |raws| - 1;
      var front, valid := ValidRecords(control, raws[..n]), ValidRecords(control, raws);
      assert raws == raws[..n] + [raws[n]];
      ValidRecordsSnoc(control, raws[..n], raws[n]);
      RecordOfExactly(control, raws[n]);
      RecordedFrom(control, raws[..n], id);
      if k :| 0 <= k < |front| && front[k].localId == id { assert valid[k] == front[k]; }
      if i :| 0 <= i < n && Listed(control, raws[..n][i]) && raws[..n][i].localId == id { assert raws[i] == raws[..n][i]; }
      if Listed(control, raws[n]) { assert valid[|front|] == Record(raws[n].localId, raws[n].date.value); }
    }
  }

  /** Two photos of the enumeration that both become records share an identifier. */
  lemma {:induction false} ClashSpelledOut(control: char -> bool, raws: seq<Raw>)
    ensures Clash(ValidRecords(control, raws))
            <==> exists i, j :: 0 <= i < j < |raws| && Listed(control, raws[i]) && Listed(control, raws[j])
                                && raws[i].localId == raws[j].localId
    decreases |raws|
  {
    hide RecordOf, ValidRecords, Clash;
    if raws == [] {
      NothingClashes(control);
    } else {
      var n := |raws| - 1;
      var front := ValidRecords(control, raws[..n]);
      assert raws == raws[..n] + [raws[n]];
      ValidRecordsSnoc(control, raws[..n], raws[n]);
      RecordOfExactly(control, raws[n]);
      ClashSpelledOut(control, raws[..n]);
      if Listed(control, raws[n]) {
        RecordedFrom(control, raws[..n], raws[n].localId);
        ClashAppended(front, Record(raws[n].localId, raws[n].date.value));
      }
      assert front + [] == front;
      PairAppended(control, raws);
    }
  }

  lemma PairAppended(control: char -> bool, raws: seq<Raw>)
    requires raws != []
    ensures var n := |raws| - 1;
            (exists i, j :: 0 <= i < j < |raws| && Listed(control, raws[i]) && Listed(control, raws[j])
                            && raws[i].localId == raws[j].localId)
            <==> || (exists i, j :: 0 <= i < j < n && Listed(control, raws[..n][i]) && Listed(control, raws[..n][j])
                                    && raws[..n][i].localId == raws[..n][j].localId)
                 || (Listed(control, raws[n])
                     && exists i :: 0 <= i < n && Listed(control, raws[..n][i]) && raws[..n][i].localId == raws[n].localId)
  {
    hide Listed;
    var n := |raws| - 1;
    forall i | 0 <= i < n ensures raws[..n][i] == raws[i] {
    }
  }

  lemma NothingClashes(control: char -> bool)
    ensures ValidRecords(control, []) == [] && !Clash([])
  {
  }

  lemma ClashAppended(rows: seq<Record>, row: Record)
    ensures Clash(rows + [row]) <==> Clash(rows) || exists k :: 0 <= k < |rows| && rows[k].localId == row.localId
  {
    var all := rows + [row];
    if i, j :| 0 <= i < j < |rows| && rows[i].localId == rows[j].localId { assert all[i].localId == all[j].localId; }
    if k :| 0 <= k < |rows| && rows[k].localId == row.localId { assert all[k].localId == all[|rows|].localId; }
  }

  /** The catalogue runs from the newest photo to the oldest; photos of one moment stand in the order of
      their identifiers. */
  lemma CatalogueIsNewestFirst(records: seq<Record>)
    ensures var order := CanonicalOrder(records);
            && multiset(order) == multiset(records)
            && forall i, j | 0 <= i < j < |order| ::
                 && !Earlier(order[i].date, order[j].date)
                 && (order[i].date == order[j].date ==>
                       order[i].localId == order[j].localId || Precedes(order[i].localId, order[j].localId))
  {
    hide NewestFirst, Leq, Earlier, Precedes, SortBuffer;
    SortBufferCorrect(NewestFirst, records);
    var order := CanonicalOrder(records);
    forall i, j | 0 <= i < j < |order|
      ensures Leq(NewestFirst(order[i]), NewestFirst(order[j]))
              <==> Earlier(order[j].date, order[i].date)
                   || (order[i].date == order[j].date
                       && (order[i].localId == order[j].localId || Precedes(order[i].localId, order[j].localId)))
    {
      NewestFirstSays(order[i], order[j]);
      EarlierIsOneWay(order[i].date, order[j].date);
    }
    forall i, j | 0 <= i < j < |order| { EarlierIsOneWay(order[i].date, order[j].date); }
  }

  lemma EarlierIsOneWay(a: Stamp, b: Stamp)
    ensures !(Earlier(a, b) && Earlier(b, a)) && (a == b ==> !Earlier(a, b))
  {
  }

  /** The files of an inventory: pages of 200 in order, each with a path to the one root, and metadata
      whose digest covers the counts and that root. */
  lemma FilesSpelledOut(h: Hashing, order: seq<Record>, invalid: nat)
    ensures var made := InventoryOf(h, order, invalid);
            var count := (|order| + 199) / 200;
            && made.snapshot.total == |order| && made.snapshot.invalid == invalid && made.snapshot.chunkCount == count
            && made.snapshot.digest == h.metadata(|order|, invalid, count, made.snapshot.root)
            && (order == [] ==> made.snapshot.root == h.empty)
            && (forall i: nat :: i in made.chunks <==> i < count)
            && (forall i: nat | i < count ::
                  && made.chunks[i].index == i
                  && made.chunks[i].records == order[200 * i..if 200 * i + 200 < |order| then 200 * i + 200 else |order|]
                  && Fold(h, h.leaf(i, made.chunks[i].records), i, made.chunks[i].proof) == made.snapshot.root)
  {
    hide Path, Fold, Root;
    forall i: nat | i < CeilDiv(|order|, CHUNK_SIZE) {
      Completeness(h, Leaves(h, order), i);
    }
  }

  /** One photo in the library is one record of the pages, and two with one identifier are refused. */
  lemma CreatedSpelledOut(control: char -> bool, raws: seq<Raw>)
    ensures Clash(ValidRecords(control, raws))
            <==> exists i, j :: 0 <= i < j < |raws| && Listed(control, raws[i]) && Listed(control, raws[j])
                                && raws[i].localId == raws[j].localId
    ensures |ValidRecords(control, raws)| == |set i | 0 <= i < |raws| && Listed(control, raws[i])|
    ensures forall i | 0 <= i < |raws| && Listed(control, raws[i]) ::
              Record(raws[i].localId, raws[i].date.value) in ValidRecords(control, raws)
  {
    hide ValidRecords;
    ClashSpelledOut(control, raws);
    ValidByRank(control, raws, |raws|);
    assert ListedBelow(control, raws, |raws|) == set i | 0 <= i < |raws| && Listed(control, raws[i]);
    forall i | 0 <= i < |raws| && Listed(control, raws[i])
      ensures Record(raws[i].localId, raws[i].date.value) in ValidRecords(control, raws)
    {
      ValidByRank(control, raws, i);
    }
  }

  // ---------------------------------------------------------------------- reading

  /** `load`: the metadata must carry its own digest. */
  function Load(h: Hashing, stored: Snapshot): Option<Snapshot> {
    if && stored.chunkCount == CeilDiv(stored.total, CHUNK_SIZE)
       && ValidHash(stored.root) && ValidHash(stored.digest)
       && stored.digest == h.metadata(stored.total, stored.invalid, stored.chunkCount, stored.root)
    then Some(stored) else None
  }

  predicate OrderedPage(records: seq<Record>) {
    forall k :: 0 < k < |records| ==> !GreaterKey(records[k - 1], records[k])
  }

  /** Python's `previous > current` on sort keys. */
  predicate GreaterKey(a: Record, b: Record) {
    !Leq(NewestFirst(a), NewestFirst(b))
  }

  predicate Accepts(control: char -> bool, h: Hashing, s: Snapshot, index: nat, chunk: Chunk) {
    && index < s.chunkCount
    && chunk.index == index
    && CHUNK_SIZE * index <= s.total && |chunk.records| == Min(CHUNK_SIZE, s.total - CHUNK_SIZE * index)
    && |chunk.proof| == BitLength(s.chunkCount - 1)
    && AllValid(chunk.proof)
    && Fold(h, h.leaf(index, chunk.records), index, chunk.proof) == s.root
    && AllRecordable(control, chunk.records)
    && OrderedPage(chunk.records)
  }

  function PageRead(control: char -> bool, h: Hashing, s: Snapshot, chunks: map<nat, Chunk>, index: nat): Option<seq<Record>> {
    if index in chunks && Accepts(control, h, s, index, chunks[index]) then Some(chunks[index].records) else None
  }

  /** The digest a reader folds up from a page and its proof; nothing when a sibling is no hash. */
  method FoldProof(h: Hashing, digest: Digest, index: nat, proof: seq<Digest>) returns (root: Option<Digest>)
    ensures root == if AllValid(proof) then Some(Fold(h, digest, index, proof)) else None
  {
    var current, position, k := digest, index, 0;
    while k < |proof|
      invariant 0 <= k <= |proof| && position >= 0
      invariant forall j :: 0 <= j < k ==> ValidHash(proof[j])
      invariant Fold(h, current, position, proof[k..]) == Fold(h, digest, index, proof)
    {
      if !ValidHash(proof[k]) {
        return None;
      }
      assert proof[k..][1..] == proof[k + 1..];
      current := if position % 2 == 1 then h.node(proof[k], current) else h.node(current, proof[k]);
      position := position / 2;
      k := k + 1;
    }
    root := Some(current);
  }

  /** `page`. */
  method Page(control: char -> bool, h: Hashing, s: Snapshot, chunks: map<nat, Chunk>, index: nat)
    returns (page: Option<seq<Record>>)
    requires s.chunkCount == CeilDiv(s.total, CHUNK_SIZE)
    ensures page == PageRead(control, h, s, chunks, index)
  {
    hide Recordable, GreaterKey, ValidHash, Fold;
    if index >= s.chunkCount || index !in chunks {
      return None;
    }
    var chunk := chunks[index];
    var expected := Min(CHUNK_SIZE, s.total - index * CHUNK_SIZE);
    if chunk.index != index || |chunk.records| != expected || |chunk.proof| != BitLength(s.chunkCount - 1) {
      return None;
    }
    var folded := FoldProof(h, h.leaf(index, chunk.records), index, chunk.proof);
    if folded != Some(s.root) {
      return None;
    }
    var k := 0;
    while k < |chunk.records|
      invariant 0 <= k <= |chunk.records|
      invariant forall j :: 0 <= j < k ==> Recordable(control, chunk.records[j])
      invariant forall j :: 0 < j < k ==> !GreaterKey(chunk.records[j - 1], chunk.records[j])
    {
      if !Recordable(control, chunk.records[k]) {
        return None;
      }
      if k > 0 && GreaterKey(chunk.records[k - 1], chunk.records[k]) {
        return None;
      }
      k := k + 1;
    }
    page := Some(chunk.records);
  }

  /** What `iter_from` yields from page `index` on, and whether it gets to the end. */
  function Iterated(control: char -> bool, h: Hashing, s: Snapshot, chunks: map<nat, Chunk>, offset: nat, index: nat)
    : (r: (seq<Record>, bool))
    decreases s.chunkCount - index
  {
    if index >= s.chunkCount then ([], true)
    else match PageRead(control, h, s, chunks, index)
      case None => ([], false)
      case Some(records) =>
        var rest := Iterated(control, h, s, chunks, offset, index + 1);
        (FromOffset(records, offset, index) + rest.0, rest.1)
  }

  function FromOffset(records: seq<Record>, offset: nat, index: nat): seq<Record> {
    if index == offset / CHUNK_SIZE then records[Min(offset % CHUNK_SIZE, |records|)..] else records
  }

  /** `iter_from`. */
  method IterFrom(control: char -> bool, h: Hashing, s: Snapshot, chunks: map<nat, Chunk>, offset: nat)
    returns (rows: seq<Record>, complete: bool)
    requires s.chunkCount == CeilDiv(s.total, CHUNK_SIZE) && offset <= s.total
    ensures (rows, complete) == Iterated(control, h, s, chunks, offset, offset / CHUNK_SIZE)
  {
    hide PageRead, FromOffset;
    rows := [];
    var index := offset / CHUNK_SIZE;
    while index < s.chunkCount
      invariant offset / CHUNK_SIZE <= index
      invariant rows + Iterated(control, h, s, chunks, offset, index).0
                == Iterated(control, h, s, chunks, offset, offset / CHUNK_SIZE).0
      invariant Iterated(control, h, s, chunks, offset, index).1
                == Iterated(control, h, s, chunks, offset, offset / CHUNK_SIZE).1
    {
      var page := Page(control, h, s, chunks, index);
      if page.None? {
        assert rows + [] == rows;
        return rows, false;
      }
      var part := FromOffset(page.value, offset, index);
      ghost var rest := Iterated(control, h, s, chunks, offset, index + 1).0;
      assert rows + (part + rest) == (rows + part) + rest;
      rows := rows + part;
      index := index + 1;
    }
    assert rows + [] == rows;
    complete := true;
  }

  /** When a page file is accepted, spelled out: the right page of the right length, a path of sound digests
      that folds to the root, sound records, and no neighbours in the wrong order. */
  lemma AcceptedExactly(control: char -> bool, h: Hashing, s: Snapshot, index: nat, chunk: Chunk)
    ensures Accepts(control, h, s, index, chunk)
            <==> && index < s.chunkCount && chunk.index == index && 200 * index <= s.total
                 && |chunk.records| == (if s.total - 200 * index < 200 then s.total - 200 * index else 200)
                 && |chunk.proof| == BitLength(s.chunkCount - 1)
                 && (forall d | d in chunk.proof :: |d| == 64 && forall c | c in d :: '0' <= c <= '9' || 'a' <= c <= 'f')
                 && Fold(h, h.leaf(index, chunk.records), index, chunk.proof) == s.root
                 && (forall r | r in chunk.records ::
                       1 <= |r.localId| <= 512 && forall k :: 0 <= k < |r.localId| ==> !control(r.localId[k]))
                 && (forall k | 0 < k < |chunk.records| ::
                       var (before, after) := (chunk.records[k - 1], chunk.records[k]);
                       || Earlier(after.date, before.date)
                       || (before.date == after.date
                           && (before.localId == after.localId || Precedes(before.localId, after.localId))))
  {
    hide Fold, BitLength, Earlier, Precedes, OrderedPage, AllRecordable, ValidHash, AllValid, Recordable;
    HashesExactly(chunk.proof);
    NeighboursExactly(chunk.records);
    RecordableExactly(control, chunk.records);
  }

  lemma NeighboursExactly(records: seq<Record>)
    ensures OrderedPage(records)
            <==> forall k | 0 < k < |records| ::
                   var (before, after) := (records[k - 1], records[k]);
                   || Earlier(after.date, before.date)
                   || (before.date == after.date
                       && (before.localId == after.localId || Precedes(before.localId, after.localId)))
  {
    hide Earlier, Precedes, NewestFirst, Leq;
    forall k | 0 < k < |records| {
      NewestFirstSays(records[k - 1], records[k]);
    }
  }

  lemma HashesExactly(digests: seq<Digest>)
    ensures AllValid(digests)
            <==> forall d | d in digests :: |d| == 64 && forall c | c in d :: '0' <= c <= '9' || 'a' <= c <= 'f'
  {
    hide ValidHash;
    forall d: Digest ensures ValidHash(d) <==> |d| == 64 && forall c | c in d :: '0' <= c <= '9' || 'a' <= c <= 'f' {
      HashExactly(d);
    }
  }

  lemma HashExactly(d: Digest)
    ensures ValidHash(d) <==> |d| == 64 && forall c | c in d :: '0' <= c <= '9' || 'a' <= c <= 'f'
  {
    var digits := "0123456789abcdef";
    assert forall c :: c in digits <==> '0' <= c <= '9' || 'a' <= c <= 'f';
    if |d| == 64 && forall c | c in d :: '0' <= c <= '9' || 'a' <= c <= 'f' {
      forall i | 0 <= i < |d| ensures d[i] in digits { assert d[i] in d; }
    }
    if ValidHash(d) {
      forall c | c in d ensures c in digits {
        var i :| 0 <= i < |d| && d[i] == c;
      }
    }
  }

  lemma RecordableExactly(control: char -> bool, records: seq<Record>)
    ensures AllRecordable(control, records)
            <==> forall r | r in records ::
                   1 <= |r.localId| <= 512 && forall k :: 0 <= k < |r.localId| ==> !control(r.localId[k])
  {
    forall r: Record
      ensures Recordable(control, r)
              <==> 1 <= |r.localId| <= 512 && forall k :: 0 <= k < |r.localId| ==> !control(r.localId[k])
    {
      RecordOfExactly(control, RawOf(r));
    }
    hide Recordable;
  }

  // ------------------------------------------------------- what a created inventory reads

  /** A page with its own path is accepted under the root of its tree. */
  lemma OwnPathAccepted(control: char -> bool, h: Hashing, s: Snapshot, leaves: seq<Digest>, i: nat, records: seq<Record>)
    requires WellFormed(h) && i < |leaves| == s.chunkCount && s.root == Root(h, leaves)
    requires CHUNK_SIZE * i <= s.total && |records| == Min(CHUNK_SIZE, s.total - CHUNK_SIZE * i)
    requires leaves[i] == h.leaf(i, records) && AllValid(leaves)
    requires AllRecordable(control, records) && OrderedPage(records)
    ensures Accepts(control, h, s, i, Chunk(i, records, Path(h, leaves, i)))
  {
    hide AllRecordable, OrderedPage, ValidHash, Path, Fold, Root, BitLength, WellFormed;
    PathLength(h, leaves, i);
    PathValid(h, leaves, i);
    Completeness(h, leaves, i);
  }

  /** Completeness: every page of a created inventory is accepted, with exactly its records. */
  lemma CreatedPageReads(control: char -> bool, h: Hashing, order: seq<Record>, invalid: nat, i: nat)
    requires WellFormed(h) && Sorted(NewestFirst, order) && AllRecordable(control, order)
    requires i < CeilDiv(|order|, CHUNK_SIZE)
    ensures PageRead(control, h, SnapshotOf(h, order, invalid), ChunksOf(h, order), i) == Some(PageOf(order, i))
  {
    LeavesValid(h, order);
    SnapshotShape(h, order, invalid);
    hide AllRecordable, OrderedPage, Sorted, PageOf, ValidHash, Path, Root, WellFormed, ChunksOf, Leaves, SnapshotOf, Accepts;
    OwnPathAccepted(control, h, SnapshotOf(h, order, invalid), Leaves(h, order), i, PageOf(order, i));
  }

  lemma LeavesValid(h: Hashing, order: seq<Record>)
    requires WellFormed(h)
    ensures AllValid(Leaves(h, order))
  {
    hide ValidHash, PageOf;
    forall i | 0 <= i < |Leaves(h, order)| ensures ValidHash(Leaves(h, order)[i]) {
      assert Leaves(h, order)[i] == h.leaf(i, PageOf(order, i));
    }
  }

  /** A file accepted as a page of the created snapshot with other records than the page's exhibits a
      collision of the hash. */
  lemma TamperedPageShowsCollision(control: char -> bool, h: Hashing, order: seq<Record>, invalid: nat,
                                   chunks: map<nat, Chunk>, i: nat) returns (x: Collision)
    requires var page := PageRead(control, h, SnapshotOf(h, order, invalid), chunks, i);
             page.Some? && !(i < CeilDiv(|order|, CHUNK_SIZE) && page.value == PageOf(order, i))
    ensures Collides(h, x) && (WellFormed(h) ==> OfDigests(x))
  {
    hide *;
    AcceptedFolds(control, h, order, invalid, chunks, i);
    var chunk, leaves := chunks[i], Leaves(h, order);
    if WellFormed(h) { PageDigestsValid(h, order, i, chunk.records); }
    if h.leaf(i, chunk.records) != leaves[i] || chunk.proof != Path(h, leaves, i) {
      x := ForgeryShowsCollision(h, leaves, i, h.leaf(i, chunk.records), chunk.proof);
    } else {
      x := LeafCollision(i, chunk.records, i, PageOf(order, i));
      LeavesCollide(h, x);
    }
  }

  /** What an accepted page file has to match. */
  lemma AcceptedFolds(control: char -> bool, h: Hashing, order: seq<Record>, invalid: nat, chunks: map<nat, Chunk>, i: nat)
    requires PageRead(control, h, SnapshotOf(h, order, invalid), chunks, i).Some?
    ensures i in chunks && i < CeilDiv(|order|, CHUNK_SIZE) == |Leaves(h, order)|
    ensures PageRead(control, h, SnapshotOf(h, order, invalid), chunks, i).value == chunks[i].records
    ensures |chunks[i].proof| == BitLength(|Leaves(h, order)| - 1) && AllValid(chunks[i].proof)
    ensures Fold(h, h.leaf(i, chunks[i].records), i, chunks[i].proof) == Root(h, Leaves(h, order))
    ensures Leaves(h, order)[i] == h.leaf(i, PageOf(order, i))
  {
    hide AllRecordable, OrderedPage, PageOf, ValidHash, Root, Fold;
  }

  lemma PageDigestsValid(h: Hashing, order: seq<Record>, i: nat, records: seq<Record>)
    requires WellFormed(h)
    ensures AllValid(Leaves(h, order)) && ValidHash(h.leaf(i, records))
  {
    hide ValidHash, Leaves;
    LeavesValid(h, order);
  }

  lemma LeavesCollide(h: Hashing, x: Collision)
    requires x.LeafCollision? && h.leaf(x.i, x.r) == h.leaf(x.j, x.s) && x.r != x.s
    ensures Collides(h, x) && OfDigests(x)
  {
  }

  /** Soundness: under the created snapshot, whatever file is accepted as a page holds that page. */
  lemma AcceptedPageIsCommitted(control: char -> bool, h: Hashing, order: seq<Record>, invalid: nat,
                                chunks: map<nat, Chunk>, i: nat)
    requires CollisionFree(h)
    ensures var page := PageRead(control, h, SnapshotOf(h, order, invalid), chunks, i);
            page.Some? ==> i < CeilDiv(|order|, CHUNK_SIZE) && page.value == PageOf(order, i)
  {
    hide PageRead, SnapshotOf, CollisionFree, Collides, OfDigests;
    var page := PageRead(control, h, SnapshotOf(h, order, invalid), chunks, i);
    if page.Some? && !(i < CeilDiv(|order|, CHUNK_SIZE) && page.value == PageOf(order, i)) {
      var x := TamperedPageShowsCollision(control, h, order, invalid, chunks, i);
      CollisionFreeShowsNone(h, x);
      assert false;
    }
  }

  /** What an iteration yields from page `index` on, if the page files tell the truth. */
  ghost predicate YieldsTruly(control: char -> bool, h: Hashing, order: seq<Record>, invalid: nat,
                              chunks: map<nat, Chunk>, offset: nat, index: nat)
    requires offset <= |order| && offset / CHUNK_SIZE <= index
  {
    var start := if index == offset / CHUNK_SIZE then offset else Min(CHUNK_SIZE * index, |order|);
    var (rows, complete) := Iterated(control, h, SnapshotOf(h, order, invalid), chunks, offset, index);
    rows <= order[start..] && (complete ==> rows == order[start..])
  }

  lemma {:induction false} TrueOrCollision(control: char -> bool, h: Hashing, order: seq<Record>, invalid: nat,
                                           chunks: map<nat, Chunk>, offset: nat, index: nat)
    returns (found: Option<Collision>)
    requires offset <= |order| && offset / CHUNK_SIZE <= index
    ensures found.None? ==> YieldsTruly(control, h, order, invalid, chunks, offset, index)
    ensures found.Some? ==> Collides(h, found.value) && (WellFormed(h) ==> OfDigests(found.value))
    decreases CeilDiv(|order|, CHUNK_SIZE) - index
  {
    var s := SnapshotOf(h, order, invalid);
    hide SnapshotOf, PageRead, Collides, OfDigests;
    assert s.chunkCount == CeilDiv(|order|, CHUNK_SIZE) by { SnapshotShape(h, order, invalid); }
    found := None;
    if index < s.chunkCount {
      var page := PageRead(control, h, s, chunks, index);
      if page.Some? && page.value != PageOf(order, index) {
        var x := TamperedPageShowsCollision(control, h, order, invalid, chunks, index);
        return Some(x);
      }
      found := TrueOrCollision(control, h, order, invalid, chunks, offset, index + 1);
      if page.Some? { Seek(order, offset, index); }
    }
  }

  lemma SnapshotShape(h: Hashing, order: seq<Record>, invalid: nat)
    ensures SnapshotOf(h, order, invalid).chunkCount == CeilDiv(|order|, CHUNK_SIZE)
    ensures SnapshotOf(h, order, invalid).total == |order|
    ensures SnapshotOf(h, order, invalid).root == RootOf(h, Leaves(h, order))
    ensures |Leaves(h, order)| > 0 ==> RootOf(h, Leaves(h, order)) == Root(h, Leaves(h, order))
  {
    hide Root;
  }

  /** Seeking by page and remainder lands on the offset. */
  lemma Seek(order: seq<Record>, offset: nat, index: nat)
    requires offset <= |order| && offset / CHUNK_SIZE <= index < CeilDiv(|order|, CHUNK_SIZE)
    ensures var start := if index == offset / CHUNK_SIZE then offset else CHUNK_SIZE * index;
            start <= |order|
            && order[start..] == FromOffset(PageOf(order, index), offset, index)
                                 + order[Min(CHUNK_SIZE * (index + 1), |order|)..]
  {
  }

  /** Whatever happened to the page files since: an iteration under the created snapshot that yields anything
      but a prefix of the true order from the offset, or completes with less than all of it, exhibits a
      collision of the hash. */
  lemma WrongPhotosShowCollision(control: char -> bool, h: Hashing, order: seq<Record>, invalid: nat,
                                 chunks: map<nat, Chunk>, offset: nat) returns (x: Collision)
    requires offset <= |order|
    requires var (rows, complete) := Iterated(control, h, SnapshotOf(h, order, invalid), chunks, offset, offset / CHUNK_SIZE);
             !(rows <= order[offset..] && (complete ==> rows == order[offset..]))
    ensures Collides(h, x) && (WellFormed(h) ==> OfDigests(x))
  {
    hide Collides, OfDigests, SnapshotOf;
    var found := TrueOrCollision(control, h, order, invalid, chunks, offset, offset / CHUNK_SIZE);
    x := found.value;
  }

  /** So it never yields wrong photos under a hash without collisions. */
  lemma NeverWrongPhotos(control: char -> bool, h: Hashing, order: seq<Record>, invalid: nat,
                         chunks: map<nat, Chunk>, offset: nat)
    requires CollisionFree(h) && offset <= |order|
    ensures var (rows, complete) := Iterated(control, h, SnapshotOf(h, order, invalid), chunks, offset, offset / CHUNK_SIZE);
            rows <= order[offset..] && (complete ==> rows == order[offset..])
  {
    hide Collides, OfDigests, SnapshotOf, CollisionFree;
    var found := TrueOrCollision(control, h, order, invalid, chunks, offset, offset / CHUNK_SIZE);
    if found.Some? { CollisionFreeShowsNone(h, found.value); }
  }

  lemma {:induction false} IterationCompletes(control: char -> bool, h: Hashing, order: seq<Record>, invalid: nat,
                                              offset: nat, index: nat)
    requires WellFormed(h) && Sorted(NewestFirst, order) && AllRecordable(control, order)
    requires offset <= |order| && offset / CHUNK_SIZE <= index
    ensures var start := if index == offset / CHUNK_SIZE then offset else Min(CHUNK_SIZE * index, |order|);
            Iterated(control, h, SnapshotOf(h, order, invalid), ChunksOf(h, order), offset, index) == (order[start..], true)
    decreases CeilDiv(|order|, CHUNK_SIZE) - index
  {
    hide SnapshotOf, ChunksOf, PageRead, WellFormed, Sorted, AllRecordable;
    SnapshotShape(h, order, invalid);
    if index < CeilDiv(|order|, CHUNK_SIZE) {
      CreatedPageReads(control, h, order, invalid, index);
      IterationCompletes(control, h, order, invalid, offset, index + 1);
      Seek(order, offset, index);
    }
  }

  /** `iter_from(k)` of an untouched inventory is the order with its first k records dropped. */
  lemma IterFromDrops(control: char -> bool, h: Hashing, raws: seq<Raw>, invalid: nat, offset: nat)
    requires WellFormed(h) && offset <= |ValidRecords(control, raws)|
    ensures var order := CanonicalOrder(ValidRecords(control, raws));
            && |order| == |ValidRecords(control, raws)|
            && Iterated(control, h, SnapshotOf(h, order, invalid), ChunksOf(h, order), offset, offset / CHUNK_SIZE)
               == (order[offset..], true)
  {
    var records := ValidRecords(control, raws);
    var order := CanonicalOrder(records);
    ValidRecordable(control, raws);
    SortBufferCorrect(NewestFirst, records);
    RecordablePermuted(control, records, order);
    SameLength(order, records);
    IterationCompletes(control, h, order, invalid, offset, offset / CHUNK_SIZE);
  }

  function MetadataOf(s: Snapshot): Metadata { Metadata(s.total, s.invalid, s.chunkCount, s.root) }

  /** Other metadata that loads under the digest of a created snapshot exhibits a collision of the hash. */
  lemma ForgedMetadataShowsCollision(h: Hashing, order: seq<Record>, invalid: nat, stored: Snapshot) returns (x: Collision)
    requires Load(h, stored).Some? && stored.digest == SnapshotOf(h, order, invalid).digest
    requires stored != SnapshotOf(h, order, invalid)
    ensures Collides(h, x) && (WellFormed(h) ==> OfDigests(x))
  {
    if WellFormed(h) {
      LeavesValid(h, order);
      RootValid(h, Leaves(h, order));
    }
    hide Leaves, RootOf, ValidHash;
    x := MetadataCollision(MetadataOf(stored), MetadataOf(SnapshotOf(h, order, invalid)));
  }

  /** A created snapshot loads; and, short of a collision, metadata that loads under its digest is that snapshot. */
  lemma LoadedByDigest(h: Hashing, order: seq<Record>, invalid: nat, stored: Snapshot)
    ensures WellFormed(h) ==> Load(h, SnapshotOf(h, order, invalid)) == Some(SnapshotOf(h, order, invalid))
    ensures CollisionFree(h) && Load(h, stored).Some? && stored.digest == SnapshotOf(h, order, invalid).digest ==>
              stored == SnapshotOf(h, order, invalid)
  {
    if WellFormed(h) {
      LeavesValid(h, order);
      RootValid(h, Leaves(h, order));
    }
    hide Leaves, RootOf, ValidHash;
    if CollisionFree(h) && Load(h, stored).Some? && stored.digest == SnapshotOf(h, order, invalid).digest
       && stored != SnapshotOf(h, order, invalid) {
      var x := ForgedMetadataShowsCollision(h, order, invalid, stored);
      CollisionFreeShowsNone(h, x);
      assert false;
    }
  }

  lemma {:induction false} RootValid(h: Hashing, level: seq<Digest>)
    requires WellFormed(h)
    requires AllValid(level)
    ensures ValidHash(RootOf(h, level))
    decreases |level|
  {
    hide ValidHash;
    if |level| > 1 {
      RootValid(h, NextLevel(h, level));
    }
  }
}
