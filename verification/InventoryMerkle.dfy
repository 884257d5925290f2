/** The authenticated page index: a Merkle tree whose odd last nodes are paired with themselves.
    Completeness: every attached path folds to the root. Soundness: nothing else does. */
module InventoryMerkle {
  import opened Wrappers
  import opened InventorySort

  type Digest = string

  /** SHA-256 in its three roles, over a page, over two nodes and over the snapshot's metadata. */
  datatype Hashing = Hashing(
    leaf: (nat, seq<Record>) -> Digest,
    node: (Digest, Digest) -> Digest,
    empty: Digest,
    metadata: (nat, nat, nat, Digest) -> Digest)

  /** `_valid_hash`. */
  predicate ValidHash(d: Digest) {
    |d| == 64 && forall i :: 0 <= i < |d| ==> d[i] in "0123456789abcdef"
  }

  ghost predicate WellFormed(h: Hashing) {
    && (forall index, records :: ValidHash(h.leaf(index, records)))
    && (forall left, right :: ValidHash(h.node(left, right)))
    && ValidHash(h.empty)
    && (forall total, invalid, chunks, root :: ValidHash(h.metadata(total, invalid, chunks, root)))
  }

  ghost predicate CollisionFree(h: Hashing) {
    && (forall i, r, j, s :: h.leaf(i, r) == h.leaf(j, s) ==> i == j && r == s)
    && (forall a, b, c, d :: h.node(a, b) == h.node(c, d) ==> a == c && b == d)
    && (forall t, i, c, r, u, j, d, s :: h.metadata(t, i, c, r) == h.metadata(u, j, d, s) ==>
          t == u && i == j && c == d && r == s)
  }

  function Parent(h: Hashing, level: seq<Digest>, i: nat): Digest
    requires 2 * i < |level|
  {
    h.node(level[2 * i], if 2 * i + 1 < |level| then level[2 * i + 1] else level[2 * i])
  }

  function NextLevel(h: Hashing, level: seq<Digest>): seq<Digest> {
    seq((|level| + 1) / 2, i requires 0 <= i < (|level| + 1) / 2 => Parent(h, level, i))
  }

  function Root(h: Hashing, level: seq<Digest>): Digest
    requires level != []
    decreases |level|
  {
    if |level| == 1 then level[0] else Root(h, NextLevel(h, level))
  }

  function Sibling(i: nat, width: nat): nat
    requires i < width
  {
    var sibling := if i % 2 == 0 then i + 1 else i - 1;
    if sibling >= width then i else sibling
  }

  function Path(h: Hashing, level: seq<Digest>, i: nat): seq<Digest>
    requires i < |level|
    decreases |level|
  {
    if |level| == 1 then [] else [level[Sibling(i, |level|)]] + Path(h, NextLevel(h, level), i / 2)
  }

  /** What a reader computes from a page digest and its proof. */
  function Fold(h: Hashing, digest: Digest, position: nat, proof: seq<Digest>): Digest
    decreases |proof|
  {
    if proof == [] then digest
    else
      var above := if position % 2 == 1 then h.node(proof[0], digest) else h.node(digest, proof[0]);
      Fold(h, above, position / 2, proof[1..])
  }

  function BitLength(n: nat): nat {
    if n == 0 then 0 else 1 + BitLength(n / 2)
  }

  lemma {:induction false} PathLength(h: Hashing, level: seq<Digest>, i: nat)
    requires i < |level|
    ensures |Path(h, level, i)| == BitLength(|level| - 1)
    decreases |level|
  {
    if |level| > 1 {
      PathLength(h, NextLevel(h, level), i / 2);
      assert (|level| + 1) / 2 - 1 == (|level| - 1) / 2;
    }
  }

  /** Every page's own path leads to the root, whatever the width of the levels. */
  lemma {:induction false} Completeness(h: Hashing, level: seq<Digest>, i: nat)
    requires i < |level|
    ensures Fold(h, level[i], i, Path(h, level, i)) == Root(h, level)
    decreases |level|
  {
    if |level| > 1 {
      var path := Path(h, level, i);
      assert path[1..] == Path(h, NextLevel(h, level), i / 2);
      var above := if i % 2 == 1 then h.node(path[0], level[i]) else h.node(level[i], path[0]);
      assert 2 * (i / 2) + i % 2 == i;
      assert above == Parent(h, level, i / 2) == NextLevel(h, level)[i / 2];
      Completeness(h, NextLevel(h, level), i / 2);
    }
  }

  /** What the digest of a snapshot covers. */
  datatype Metadata = Metadata(total: nat, invalid: nat, chunkCount: nat, root: Digest)

  function MetadataDigest(h: Hashing, m: Metadata): Digest { h.metadata(m.total, m.invalid, m.chunkCount, m.root) }

  /** Two different nodes, two different pages, or two different snapshots with one digest. */
  datatype Collision =
    | NodeCollision(a: Digest, b: Digest, c: Digest, d: Digest)
    | LeafCollision(i: nat, r: seq<Record>, j: nat, s: seq<Record>)
    | MetadataCollision(one: Metadata, other: Metadata)

  predicate Collides(h: Hashing, x: Collision) {
    match x
    case NodeCollision(a, b, c, d) => h.node(a, b) == h.node(c, d) && (a, b) != (c, d)
    case LeafCollision(i, r, j, s) => h.leaf(i, r) == h.leaf(j, s) && (i, r) != (j, s)
    case MetadataCollision(one, other) => MetadataDigest(h, one) == MetadataDigest(h, other) && one != other
  }

  /** What collides is made of digests, as everything hashed here is. */
  predicate OfDigests(x: Collision) {
    match x
    case NodeCollision(a, b, c, d) => ValidHash(a) && ValidHash(b) && ValidHash(c) && ValidHash(d)
    case LeafCollision(_, _, _, _) => true
    case MetadataCollision(one, other) => ValidHash(one.root) && ValidHash(other.root)
  }

  predicate AllValid(digests: seq<Digest>) {
    forall k :: 0 <= k < |digests| ==> ValidHash(digests[k])
  }

  lemma CollisionFreeShowsNone(h: Hashing, x: Collision)
    requires CollisionFree(h)
    ensures !Collides(h, x)
  {
  }

  /** And a hash that shows none is free of them. */
  lemma NoneShownIsFree(h: Hashing)
    requires forall x :: !Collides(h, x)
    ensures CollisionFree(h)
  {
    forall i, r, j, s | h.leaf(i, r) == h.leaf(j, s) ensures i == j && r == s {
      assert !Collides(h, LeafCollision(i, r, j, s));
    }
    forall a, b, c, d | h.node(a, b) == h.node(c, d) ensures a == c && b == d {
      assert !Collides(h, NodeCollision(a, b, c, d));
    }
    forall t, i, c, r, u, j, d, s | h.metadata(t, i, c, r) == h.metadata(u, j, d, s)
      ensures t == u && i == j && c == d && r == s
    {
      assert !Collides(h, MetadataCollision(Metadata(t, i, c, r), Metadata(u, j, d, s)));
    }
  }

  /** Two digests or proofs that fold alike at one position and length exhibit a collision of the hash,
      whatever hash it is; and one of digests when all of them are. */
  lemma {:induction false} FoldCollision(h: Hashing, a: Digest, b: Digest, position: nat, p: seq<Digest>, q: seq<Digest>)
    returns (x: Collision)
    requires |p| == |q| && Fold(h, a, position, p) == Fold(h, b, position, q)
    requires a != b || p != q
    ensures Collides(h, x)
    ensures WellFormed(h) && ValidHash(a) && ValidHash(b) && AllValid(p) && AllValid(q) ==> OfDigests(x)
    decreases |p|
  {
    hide ValidHash;
    var above := if position % 2 == 1 then h.node(p[0], a) else h.node(a, p[0]);
    var other := if position % 2 == 1 then h.node(q[0], b) else h.node(b, q[0]);
    assert p == [p[0]] + p[1..] && q == [q[0]] + q[1..];
    if above != other || p[1..] != q[1..] {
      x := FoldCollision(h, above, other, position / 2, p[1..], q[1..]);
    } else {
      x := if position % 2 == 1 then NodeCollision(p[0], a, q[0], b) else NodeCollision(a, p[0], b, q[0]);
    }
  }

  /** At a fixed position and length the fold is injective in digest and proof. */
  lemma FoldInjective(h: Hashing, a: Digest, b: Digest, position: nat, p: seq<Digest>, q: seq<Digest>)
    requires CollisionFree(h) && |p| == |q|
    requires Fold(h, a, position, p) == Fold(h, b, position, q)
    ensures a == b && p == q
  {
    if a != b || p != q {
      var x := FoldCollision(h, a, b, position, p, q);
      CollisionFreeShowsNone(h, x);
      assert false;
    }
  }

  /** A digest or proof that folds to the root without being the committed one exhibits a collision. */
  lemma ForgeryShowsCollision(h: Hashing, level: seq<Digest>, i: nat, digest: Digest, proof: seq<Digest>)
    returns (x: Collision)
    requires i < |level| && |proof| == BitLength(|level| - 1) && Fold(h, digest, i, proof) == Root(h, level)
    requires digest != level[i] || proof != Path(h, level, i)
    ensures Collides(h, x)
    ensures WellFormed(h) && AllValid(level) && ValidHash(digest) && AllValid(proof) ==> OfDigests(x)
  {
    hide ValidHash;
    Completeness(h, level, i);
    PathLength(h, level, i);
    if WellFormed(h) && AllValid(level) { PathValid(h, level, i); }
    x := FoldCollision(h, digest, level[i], i, proof, Path(h, level, i));
  }

  /** Only the committed page digest, with its own path, folds to the root. */
  lemma Soundness(h: Hashing, level: seq<Digest>, i: nat, digest: Digest, proof: seq<Digest>)
    requires CollisionFree(h) && i < |level| && |proof| == BitLength(|level| - 1)
    ensures Fold(h, digest, i, proof) == Root(h, level) <==> digest == level[i] && proof == Path(h, level, i)
  {
    Completeness(h, level, i);
    PathLength(h, level, i);
    if Fold(h, digest, i, proof) == Root(h, level) {
      FoldInjective(h, digest, level[i], i, proof, Path(h, level, i));
    }
  }

  lemma {:induction false} PathValid(h: Hashing, level: seq<Digest>, i: nat)
    requires WellFormed(h) && i < |level| && AllValid(level)
    ensures AllValid(Path(h, level, i))
    decreases |level|
  {
    hide ValidHash;
    if |level| > 1 {
      PathValid(h, NextLevel(h, level), i / 2);
    }
  }

  // --------------------------------------------------------------- the disk tree

  /** levels[k] is the k-th hash file; the last one holds the root alone. */
  predicate Tree(h: Hashing, leaves: seq<Digest>, levels: seq<seq<Digest>>) {
    && levels != [] && levels[0] == leaves
    && (forall k :: 0 <= k < |levels| ==> levels[k] != [])
    && (forall k :: 0 <= k < |levels| - 1 ==> |levels[k]| > 1 && levels[k + 1] == NextLevel(h, levels[k]))
  }

  /** Where a page stands, `k` levels up. */
  function Above(i: nat, k: nat): nat { if k == 0 then i else Above(i / 2, k - 1) }

  /** Each node is the hash of the two below it, left before right, the odd last one taken twice. */
  predicate Paired(h: Hashing, here: seq<Digest>, next: seq<Digest>) {
    && |here| > 1 && |next| == (|here| + 1) / 2
    && forall j :: 0 <= j < |next| ==>
         next[j] == h.node(here[2 * j], here[if 2 * j + 1 < |here| then 2 * j + 1 else 2 * j])
  }

  /** What stands beside a node, itself where nothing does. */
  predicate Beside(level: seq<Digest>, p: nat, d: Digest) {
    p < |level| && d == level[if p % 2 == 1 then p - 1 else if p + 1 < |level| then p + 1 else p]
  }

  /** Level by level: the digests of the pages, the pairs above them, and the root alone on the last level; entry
      k of a page's path is what stands beside it k levels up. */
  lemma {:induction false} LevelByLevel(h: Hashing, leaves: seq<Digest>) returns (levels: seq<seq<Digest>>)
    requires leaves != []
    ensures |levels| > 0 && levels[0] == leaves && levels[|levels| - 1] == [Root(h, leaves)]
    ensures forall k | 0 <= k < |levels| - 1 :: Paired(h, levels[k], levels[k + 1])
    ensures forall i | 0 <= i < |leaves| :: |Path(h, leaves, i)| == |levels| - 1
    ensures forall i, k | 0 <= i < |leaves| && 0 <= k < |levels| - 1 ::
              Beside(levels[k], Above(i, k), Path(h, leaves, i)[k])
    decreases |leaves|
  {
    if |leaves| == 1 {
      levels := [leaves];
    } else {
      var next := NextLevel(h, leaves);
      var up := LevelByLevel(h, next);
      levels := [leaves] + up;
      assert Paired(h, leaves, next);
      forall i | 0 <= i < |leaves|
        ensures |Path(h, leaves, i)| == |levels| - 1
        ensures forall k | 0 <= k < |levels| - 1 :: Beside(levels[k], Above(i, k), Path(h, leaves, i)[k])
      {
        var rest := Path(h, next, i / 2);
        assert Path(h, leaves, i) == [leaves[Sibling(i, |leaves|)]] + rest;
        forall k | 0 < k < |levels| - 1 ensures Beside(levels[k], Above(i, k), Path(h, leaves, i)[k]) {
          assert Beside(up[k - 1], Above(i / 2, k - 1), rest[k - 1]);
        }
      }
    }
  }

  /** One level file read pairwise into the next. */
  method HashLevel(h: Hashing, source: seq<Digest>) returns (target: seq<Digest>)
    ensures target == NextLevel(h, source)
  {
    target := [];
    var at := 0;
    while at < |source|
      invariant 0 <= at <= |source|
      invariant |target| == (at + 1) / 2 && (at < |source| ==> at % 2 == 0)
      invariant forall i :: 0 <= i < |target| ==> target[i] == NextLevel(h, source)[i]
    {
      var left := source[at];
      at := at + 1;
      var right := left;
      if at < |source| {
        right := source[at];
        at := at + 1;
      }
      target := target + [h.node(left, right)];
    }
  }

  method BuildTree(h: Hashing, leaves: seq<Digest>) returns (levels: seq<seq<Digest>>)
    requires leaves != []
    ensures Tree(h, leaves, levels) && |levels[|levels| - 1]| == 1
    ensures levels[|levels| - 1][0] == Root(h, leaves)
  {
    levels := [leaves];
    var width := |leaves|;
    while width > 1
      invariant Tree(h, leaves, levels)
      invariant width == |levels[|levels| - 1]|
      invariant Root(h, levels[|levels| - 1]) == Root(h, leaves)
    {
      var next := HashLevel(h, levels[|levels| - 1]);
      levels := levels + [next];
      width := (width + 1) / 2;
    }
  }

  /** The authentication path of one page, read off the level files. */
  method ReadPath(h: Hashing, levels: seq<seq<Digest>>, index: nat) returns (proof: seq<Digest>)
    requires levels != [] && Tree(h, levels[0], levels) && |levels[|levels| - 1]| == 1 && index < |levels[0]|
    ensures proof == Path(h, levels[0], index)
  {
    hide Path, NextLevel;
    var position, width, k := index, |levels[0]|, 0;
    proof := [];
    while k < |levels| - 1
      invariant 0 <= k < |levels|
      invariant width == |levels[k]| && 0 <= position < width
      invariant proof + Path(h, levels[k], position) == Path(h, levels[0], index)
    {
      var sibling := if position % 2 == 0 then position + 1 else position - 1;
      if sibling >= width {
        sibling := position;
      }
      PathStep(h, levels[k], levels[k + 1], position);
      proof := proof + [levels[k][sibling]];
      position := position / 2;
      width := (width + 1) / 2;
      k := k + 1;
    }
    PathEnds(h, levels[k], position);
  }

  lemma PathStep(h: Hashing, level: seq<Digest>, next: seq<Digest>, position: nat)
    requires position < |level| && |level| > 1 && next == NextLevel(h, level)
    ensures |next| == (|level| + 1) / 2 && position / 2 < |next|
    ensures Path(h, level, position) == [level[Sibling(position, |level|)]] + Path(h, next, position / 2)
  {
  }

  lemma PathEnds(h: Hashing, level: seq<Digest>, position: nat)
    requires position < |level| == 1
    ensures Path(h, level, position) == []
  {
  }

  /** `_attach_proofs`, from the page digests to the root and one path per page. */
  method AttachProofs(h: Hashing, leaves: seq<Digest>) returns (root: Digest, proofs: seq<seq<Digest>>)
    ensures root == if leaves == [] then h.empty else Root(h, leaves)
    ensures |proofs| == |leaves| && forall i :: 0 <= i < |leaves| ==> proofs[i] == Path(h, leaves, i)
  {
    proofs := [];
    if leaves == [] {
      return h.empty, proofs;
    }
    var levels := BuildTree(h, leaves);
    root := levels[|levels| - 1][0];
    var index := 0;
    while index < |leaves|
      invariant 0 <= index <= |leaves| && |proofs| == index
      invariant forall i :: 0 <= i < index ==> proofs[i] == Path(h, leaves, i)
    {
      var proof := ReadPath(h, levels, index);
      proofs := proofs + [proof];
      index := index + 1;
    }
  }
}
