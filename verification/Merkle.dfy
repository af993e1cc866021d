/** The Merkle tree over one flat vector: building it, proving a leaf, checking a proof, and what a
    checked proof binds. The hash is a parameter; wherever injectivity would be wanted, an explicit
    collision is produced instead. */
module Merkle {
  import opened Core

  type Bytes32 = b: seq<Byte> | |b| == 32 witness Zeros(32)
  datatype Digest = Digest(bytes: Bytes32)

  /** The hash `[0u8; 32]` that pads a level. */
  const ZERO := Digest(Zeros(32))

  type Hasher = seq<Byte> -> Digest

  /** Two different inputs with one hash. */
  ghost predicate Collision(sha: Hasher, x: seq<Byte>, y: seq<Byte>) {
    x != y && sha(x) == sha(y)
  }

  function Combine(sha: Hasher, left: Digest, right: Digest): Digest {
    sha(left.bytes + right.bytes)
  }

  // ---- Levels --------------------------------------------------------------------------------

  ghost predicate PowerOfTwo(n: nat) {
    n == 1 || (n > 1 && n % 2 == 0 && PowerOfTwo(n / 2))
  }

  /** The number of halvings from `n` down to 1. */
  function Height(n: nat): nat {
    if n <= 1 then 0 else 1 + Height(n / 2)
  }

  /** The next level up: the hash of each pair. */
  function Parents(sha: Hasher, level: seq<Digest>): (up: seq<Digest>)
    ensures |up| == |level| / 2
  {
    FirstPairs(sha, level, |level| / 2)
  }

  function FirstPairs(sha: Hasher, level: seq<Digest>, n: nat): (up: seq<Digest>)
    requires 2 * n <= |level|
    ensures |up| == n
  {
    if n == 0 then [] else FirstPairs(sha, level, n - 1) + [Combine(sha, level[2 * n - 2], level[2 * n - 1])]
  }

  lemma {:induction false} FirstPairsAt(sha: Hasher, level: seq<Digest>, n: nat, i: nat)
    requires 2 * n <= |level| && i < n
    ensures FirstPairs(sha, level, n)[i] == Combine(sha, level[2 * i], level[2 * i + 1])
  {
    if i < n - 1 {
      FirstPairsAt(sha, level, n - 1, i);
    }
  }

  lemma ParentAt(sha: Hasher, level: seq<Digest>, i: nat)
    requires i < |level| / 2
    ensures Parents(sha, level)[i] == Combine(sha, level[2 * i], level[2 * i + 1])
  {
    FirstPairsAt(sha, level, |level| / 2, i);
  }

  /** All levels from `level` to the root, one after the other. */
  ghost function Flat(sha: Hasher, level: seq<Digest>): seq<Digest>
    decreases |level|
  {
    if |level| <= 1 then level else level + Flat(sha, Parents(sha, level))
  }

  ghost function Root(sha: Hasher, level: seq<Digest>): Digest
    requires PowerOfTwo(|level|)
    decreases |level|
  {
    if |level| == 1 then level[0] else Root(sha, Parents(sha, level))
  }

  lemma {:induction false} FlatShape(sha: Hasher, level: seq<Digest>)
    requires PowerOfTwo(|level|)
    ensures |Flat(sha, level)| == 2 * |level| - 1
    ensures Flat(sha, level)[|Flat(sha, level)| - 1] == Root(sha, level)
    decreases |level|
  {
    if |level| > 1 {
      FlatShape(sha, Parents(sha, level));
    }
  }

  /** An entry of the flat vector is a leaf of its level or an entry of the vector one level up. */
  lemma FlatAt(sha: Hasher, level: seq<Digest>, j: nat)
    requires PowerOfTwo(|level|) && |level| > 1 && j < |Flat(sha, level)|
    ensures j < |level| ==> Flat(sha, level)[j] == level[j]
    ensures j >= |level| ==>
              |Flat(sha, level)| == |level| + |Flat(sha, Parents(sha, level))|
              && Flat(sha, level)[j] == Flat(sha, Parents(sha, level))[j - |level|]
  {}

  lemma Halves(n: nat)
    requires PowerOfTwo(n) && n > 1
    ensures n == 2 * (n / 2) && PowerOfTwo(n / 2) && n / 2 >= 1
  {}

  /** Every inner entry of the flat vector is the hash of the bytes of its two children, left before right:
      the children of the entry at `|level| + a` stand at `2a` and `2a + 1`. */
  lemma {:induction false} FlatParentIsHash(sha: Hasher, level: seq<Digest>, a: nat)
    requires PowerOfTwo(|level|) && a + 1 < |level|
    ensures |Flat(sha, level)| == 2 * |level| - 1
    ensures var flat := Flat(sha, level); flat[|level| + a] == sha(flat[2 * a].bytes + flat[2 * a + 1].bytes)
    decreases |level|
  {
    Halves(|level|);
    if a < |level| / 2 {
      FirstParents(sha, level, a);
    } else {
      FlatParentIsHash(sha, Parents(sha, level), a - |level| / 2);
      FlatShifts(sha, level, a);
    }
  }

  lemma FirstParents(sha: Hasher, level: seq<Digest>, a: nat)
    requires PowerOfTwo(|level|) && a < |level| / 2
    ensures |Flat(sha, level)| == 2 * |level| - 1
    ensures Flat(sha, level)[|level| + a] == Combine(sha, Flat(sha, level)[2 * a], Flat(sha, level)[2 * a + 1])
  {
    FlatShape(sha, level);
    InnerAt(sha, level, 2 * a);
    InnerAt(sha, level, 2 * a + 1);
    InnerAt(sha, Parents(sha, level), a);
    ParentAt(sha, level, a);
    FlatAt(sha, level, |level| + a);
  }

  /** The entries around an inner one, seen from one level up. */
  lemma FlatShifts(sha: Hasher, level: seq<Digest>, a: nat)
    requires PowerOfTwo(|level|) && |level| / 2 <= a < |level| - 1
    ensures var up, n := Parents(sha, level), |level|;
            && |Flat(sha, level)| == 2 * n - 1 && |Flat(sha, up)| == n - 1
            && Flat(sha, level)[n + a] == Flat(sha, up)[a]
            && Flat(sha, level)[2 * a] == Flat(sha, up)[2 * a - n]
            && Flat(sha, level)[2 * a + 1] == Flat(sha, up)[2 * a + 1 - n]
  {
    Halves(|level|);
    FlatShape(sha, level);
    FlatShape(sha, Parents(sha, level));
    FlatAt(sha, level, |level| + a);
    FlatAt(sha, level, 2 * a);
    FlatAt(sha, level, 2 * a + 1);
  }

  lemma InnerAt(sha: Hasher, level: seq<Digest>, j: nat)
    requires j < |level|
    ensures |level| <= |Flat(sha, level)| && Flat(sha, level)[j] == level[j]
  {}

  // ---- Proof paths ---------------------------------------------------------------------------

  function SiblingIndex(i: nat): nat {
    if i % 2 == 0 then i + 1 else i - 1
  }

  /** The true siblings of leaf `i`, and the directions that spell out `i`. */
  ghost function Siblings(sha: Hasher, level: seq<Digest>, i: nat): seq<Digest>
    requires PowerOfTwo(|level|) && i < |level|
    decreases |level|
  {
    if |level| == 1 then [] else [level[SiblingIndex(i)]] + Siblings(sha, Parents(sha, level), i / 2)
  }

  function Directions(n: nat, i: nat): seq<bool> {
    if n <= 1 then [] else [i % 2 == 0] + Directions(n / 2, i / 2)
  }

  /** The leaf position a list of directions spells out. */
  function Position(directions: seq<bool>): nat {
    if directions == [] then 0 else (if directions[0] then 0 else 1) + 2 * Position(directions[1..])
  }

  lemma {:induction false} DirectionsSpellPosition(n: nat, directions: seq<bool>)
    requires PowerOfTwo(n) && |directions| == Height(n)
    ensures Position(directions) < n && Directions(n, Position(directions)) == directions
  {
    if n > 1 {
      DirectionsSpellPosition(n / 2, directions[1..]);
      assert directions == [directions[0]] + directions[1..];
    }
  }

  lemma {:induction false} PathLengths(sha: Hasher, level: seq<Digest>, i: nat)
    requires PowerOfTwo(|level|) && i < |level|
    ensures |Siblings(sha, level, i)| == |Directions(|level|, i)| == Height(|level|)
    ensures Position(Directions(|level|, i)) == i
    decreases |level|
  {
    if |level| > 1 {
      PathLengths(sha, Parents(sha, level), i / 2);
    }
  }

  ghost function Pow2(k: nat): (p: nat)
    ensures p > 0
  {
    if k == 0 then 1 else 2 * Pow2(k - 1)
  }

  /** Direction `k` says whether bit `k` of the position is 0, that is, whether the sibling is on the right. */
  lemma {:induction false} DirectionIsBit(n: nat, i: nat, k: nat)
    requires k < |Directions(n, i)|
    ensures Directions(n, i)[k] <==> i / Pow2(k) % 2 == 0
  {
    if k > 0 {
      DirectionIsBit(n / 2, i / 2, k - 1);
      HalfQuotient(i, Pow2(k - 1));
    }
  }

  lemma HalfQuotient(i: nat, p: nat)
    requires p > 0
    ensures i / 2 / p == i / (2 * p)
  {
    var q := i / 2 / p;
    assert q * p <= i / 2 < q * p + p;
    assert q * (2 * p) <= i < (q + 1) * (2 * p);
    QuotientIs(i, 2 * p, q);
  }

  /** One step of checking: `current` and its sibling hashed in the order the direction says. */
  function Ascend(sha: Hasher, current: Digest, sibling: Digest, isRight: bool): Digest {
    if isRight then Combine(sha, current, sibling) else Combine(sha, sibling, current)
  }

  /** What a proof hashes up to; extra siblings or directions are ignored, as `zip` does. */
  function Climb(sha: Hasher, leaf: Digest, siblings: seq<Digest>, directions: seq<bool>): Digest
    decreases |siblings|
  {
    if siblings == [] || directions == [] then leaf
    else Climb(sha, Ascend(sha, leaf, siblings[0], directions[0]), siblings[1..], directions[1..])
  }

  lemma LevelUp(sha: Hasher, level: seq<Digest>, i: nat)
    requires |level| % 2 == 0 && i < |level|
    ensures SiblingIndex(i) < |level|
    ensures Parents(sha, level)[i / 2] == Ascend(sha, level[i], level[SiblingIndex(i)], i % 2 == 0)
  {
    var up, j := Parents(sha, level), i / 2;
    ParentAt(sha, level, j);
    assert i == 2 * j + i % 2;
  }

  /** Completeness: the true path of every leaf climbs to the root. */
  lemma {:induction false} TruePathClimbs(sha: Hasher, level: seq<Digest>, i: nat)
    requires PowerOfTwo(|level|) && i < |level|
    ensures Climb(sha, level[i], Siblings(sha, level, i), Directions(|level|, i)) == Root(sha, level)
    decreases |level|
  {
    if |level| > 1 {
      LevelUp(sha, level, i);
      TruePathClimbs(sha, Parents(sha, level), i / 2);
    }
  }

  /** The 64 bytes hashed in one step of checking. */
  function Input(current: Digest, sibling: Digest, isRight: bool): seq<Byte> {
    if isRight then current.bytes + sibling.bytes else sibling.bytes + current.bytes
  }

  lemma InputBinds(a: Digest, x: Digest, b: Digest, y: Digest, isRight: bool)
    requires Input(a, x, isRight) == Input(b, y, isRight)
    ensures a == b && x == y
  {
    var p, q := Input(a, x, isRight), Input(b, y, isRight);
    assert p[..32] == q[..32] && p[32..] == q[32..];
  }

  type Pair = (seq<Byte>, seq<Byte>)

  /** Searches a path that climbs to the root of `level` for two inputs that collide: the topmost step
      where the path hashes something else than the tree did. */
  function ClimbCollision(sha: Hasher, level: seq<Digest>, leaf: Digest, siblings: seq<Digest>, directions: seq<bool>):
    Option<Pair>
    requires PowerOfTwo(|level|) && |siblings| == |directions| == Height(|level|)
    decreases |level|
  {
    if |level| == 1 then None else
      DirectionsSpellPosition(|level|, directions);
      var i := Position(directions);
      var above := ClimbCollision(sha, Parents(sha, level), Ascend(sha, leaf, siblings[0], directions[0]),
                                  siblings[1..], directions[1..]);
      var given := Input(leaf, siblings[0], directions[0]);
      var actual := Input(level[i], level[SiblingIndex(i)], directions[0]);
      if above.Some? then above else if given == actual then None else Some((given, actual))
  }

  /** The path is the true one of the leaf its directions spell out, leaf and siblings alike, or the
      search above finds a collision of the hash in it. */
  ghost predicate Bound(sha: Hasher, level: seq<Digest>, leaf: Digest, siblings: seq<Digest>, directions: seq<bool>)
    requires PowerOfTwo(|level|) && |siblings| == |directions| == Height(|level|)
  {
    var i := Position(directions);
    && i < |level|
    && match ClimbCollision(sha, level, leaf, siblings, directions)
       case Some((x, y)) => Collision(sha, x, y)
       case None => leaf == level[i] && siblings == Siblings(sha, level, i)
  }

  /** Binding: every full-length path that climbs to the root is bound. */
  lemma {:induction false} ClimbBinds(sha: Hasher, level: seq<Digest>, leaf: Digest, siblings: seq<Digest>,
                                      directions: seq<bool>)
    requires PowerOfTwo(|level|) && |siblings| == |directions| == Height(|level|)
    requires Climb(sha, leaf, siblings, directions) == Root(sha, level)
    ensures Bound(sha, level, leaf, siblings, directions)
    decreases |level|
  {
    DirectionsSpellPosition(|level|, directions);
    if |level| > 1 {
      ClimbBinds(sha, Parents(sha, level), Ascend(sha, leaf, siblings[0], directions[0]), siblings[1..],
                 directions[1..]);
      BoundBelow(sha, level, leaf, siblings, directions);
    }
  }

  /** Bound one level up, bound here. */
  lemma BoundBelow(sha: Hasher, level: seq<Digest>, leaf: Digest, siblings: seq<Digest>, directions: seq<bool>)
    requires PowerOfTwo(|level|) && |level| > 1 && |siblings| == |directions| == Height(|level|)
    requires Position(directions) < |level|
    requires Bound(sha, Parents(sha, level), Ascend(sha, leaf, siblings[0], directions[0]), siblings[1..],
                   directions[1..])
    ensures Bound(sha, level, leaf, siblings, directions)
  {
    var i := Position(directions);
    HigherPosition(directions);
    LevelUp(sha, level, i);
    if Input(leaf, siblings[0], directions[0]) == Input(level[i], level[SiblingIndex(i)], directions[0]) {
      InputBinds(leaf, siblings[0], level[i], level[SiblingIndex(i)], directions[0]);
      assert siblings == [siblings[0]] + siblings[1..];
    }
  }

  lemma HigherPosition(directions: seq<bool>)
    requires directions != []
    ensures Position(directions) / 2 == Position(directions[1..]) && (Position(directions) % 2 == 0) == directions[0]
  {}

  /** The first of `n` pairs in which two levels differ, as the bytes that are hashed. */
  function DifferentPair(a: seq<Digest>, b: seq<Digest>, n: nat): (r: Option<Pair>)
    requires |a| == |b| && 2 * n <= |a|
    ensures match r
            case None => forall j :: 0 <= j < 2 * n ==> a[j] == b[j]
            case Some((x, y)) => x != y && exists j :: 0 <= j < n && x == PairInput(a, j) && y == PairInput(b, j)
  {
    if n == 0 then None else
      var before := DifferentPair(a, b, n - 1);
      var x, y := PairInput(a, n - 1), PairInput(b, n - 1);
      if before.Some? then before else if x != y then Some((x, y)) else
        InputBinds(a[2 * n - 2], a[2 * n - 1], b[2 * n - 2], b[2 * n - 1], true);
        None
  }

  function PairInput(level: seq<Digest>, j: nat): seq<Byte>
    requires 2 * j + 1 < |level|
  {
    Input(level[2 * j], level[2 * j + 1], true)
  }

  function RootCollision(sha: Hasher, a: seq<Digest>, b: seq<Digest>): Option<Pair>
    requires |a| == |b|
    decreases |a|
  {
    if |a| <= 1 then None else
      var above := RootCollision(sha, Parents(sha, a), Parents(sha, b));
      if above.Some? then above else DifferentPair(a, b, |a| / 2)
  }

  /** At equal length, equal roots come from equal levels, or the search finds a collision. */
  lemma {:induction false} RootBinds(sha: Hasher, a: seq<Digest>, b: seq<Digest>)
    requires PowerOfTwo(|a|) && |a| == |b| && Root(sha, a) == Root(sha, b)
    ensures match RootCollision(sha, a, b)
            case Some((x, y)) => Collision(sha, x, y)
            case None => a == b
    decreases |a|
  {
    if |a| > 1 {
      var ups, upb := Parents(sha, a), Parents(sha, b);
      Halves(|a|);
      RootBinds(sha, ups, upb);
      match RootCollision(sha, ups, upb)
      case Some(_) =>
      case None => PairsCollide(sha, a, b);
    }
  }

  lemma PairsCollide(sha: Hasher, a: seq<Digest>, b: seq<Digest>)
    requires |a| == |b| == 2 * (|a| / 2) && Parents(sha, a) == Parents(sha, b)
    ensures match DifferentPair(a, b, |a| / 2)
            case Some((x, y)) => Collision(sha, x, y)
            case None => a == b
  {
    match DifferentPair(a, b, |a| / 2)
    case Some((x, y)) =>
      var j :| 0 <= j < |a| / 2 && x == PairInput(a, j) && y == PairInput(b, j);
      ParentAt(sha, a, j);
      ParentAt(sha, b, j);
    case None =>
  }

  // ---- Padding -------------------------------------------------------------------------------

  /** `next_power_of_two`. */
  function NextPowerOfTwo(n: nat): (p: nat)
    ensures n <= p && PowerOfTwo(p) && (n > 0 ==> p < 2 * n)
  {
    if n <= 1 then 1 else 2 * NextPowerOfTwo((n + 1) / 2)
  }

  /** The level at the bottom of the tree. For no leaves it is one zero hash, the whole tree. */
  function Padded(leaves: seq<Digest>): (level: seq<Digest>)
    ensures |level| == NextPowerOfTwo(|leaves|)
  {
    PadTo(leaves, NextPowerOfTwo(|leaves|))
  }

  function PadTo(leaves: seq<Digest>, n: nat): (level: seq<Digest>)
    requires |leaves| <= n
    ensures |level| == n
  {
    leaves + Zeroed(n - |leaves|)
  }

  function Zeroed(n: nat): (z: seq<Digest>)
    ensures |z| == n && forall i :: 0 <= i < n ==> z[i] == ZERO
  {
    if n == 0 then [] else Zeroed(n - 1) + [ZERO]
  }

  datatype MerkleTree = MerkleTree(nodes: seq<Digest>, leafCount: nat)
  {
    function Root(): Digest {
      if nodes == [] then ZERO else nodes[|nodes| - 1]
    }
  }

  datatype MerkleProof = MerkleProof(leafHash: Digest, siblings: seq<Digest>, directions: seq<bool>)

  /** The tree of a leaf list: the flat vector of its padded level. */
  ghost predicate TreeOf(sha: Hasher, leaves: seq<Digest>, tree: MerkleTree) {
    && tree.leafCount == |leaves|
    && tree.nodes == Flat(sha, Padded(leaves))
  }

  lemma EmptyTree(sha: Hasher)
    ensures TreeOf(sha, [], MerkleTree([ZERO], 0))
  {
    assert Padded([]) == [ZERO];
  }

  method FromHashes(sha: Hasher, leaves: seq<Digest>) returns (tree: MerkleTree)
    ensures TreeOf(sha, leaves, tree)
    ensures |tree.nodes| == 2 * NextPowerOfTwo(|leaves|) - 1 && tree.Root() == Root(sha, Padded(leaves))
  {
    if leaves == [] {
      EmptyTree(sha);
      tree := MerkleTree([ZERO], 0);
    } else {
      var level := PadLeaves(leaves);
      var nodes := BuildLevels(sha, level);
      tree := MerkleTree(nodes, |leaves|);
    }
    RootOfTree(sha, leaves, tree);
  }

  /** The padding loop of FromHashes. */
  method PadLeaves(leaves: seq<Digest>) returns (level: seq<Digest>)
    ensures level == Padded(leaves)
  {
    level := leaves;
    for i := |leaves| to NextPowerOfTwo(|leaves|)
      invariant level == leaves + Zeroed(i - |leaves|)
    {
      level := level + [ZERO];
    }
  }

  /** `level` starts at `start`, and what is pushed so far and the levels above it make up the tree. */
  ghost predicate Building(sha: Hasher, leaves: seq<Digest>, nodes: seq<Digest>, start: nat, level: seq<Digest>) {
    && PowerOfTwo(|level|) && start + |level| == |nodes| && nodes[start..] == level
    && nodes[..start] + Flat(sha, level) == Flat(sha, leaves)
  }

  /** The loop of FromHashes that builds the inner levels bottom-up. */
  method BuildLevels(sha: Hasher, leaves: seq<Digest>) returns (nodes: seq<Digest>)
    requires PowerOfTwo(|leaves|)
    ensures nodes == Flat(sha, leaves)
  {
    nodes := leaves;
    var start: nat, size: nat := 0, |leaves|;
    ghost var level := leaves;
    while size > 1
      invariant Building(sha, leaves, nodes, start, level) && |level| == size
    {
      BuildOn(sha, leaves, nodes, start, level);
      nodes := PushParents(sha, nodes, start, size);
      start, size, level := start + size, size / 2, Parents(sha, level);
    }
    assert nodes == nodes[..start] + nodes[start..];
  }

  lemma BuildOn(sha: Hasher, leaves: seq<Digest>, nodes: seq<Digest>, start: nat, level: seq<Digest>)
    requires Building(sha, leaves, nodes, start, level) && |level| > 1
    ensures Building(sha, leaves, nodes + Parents(sha, nodes[start..]), start + |level|, Parents(sha, level))
  {
    var up := Parents(sha, level);
    Halves(|level|);
    Reassociate(nodes[..start], level, Flat(sha, up));
    assert nodes == nodes[..start] + level;
    assert (nodes + up)[|nodes|..] == up && (nodes + up)[..|nodes|] == nodes;
  }

  /** The inner loop of FromHashes: one level pushed on top of the one below. */
  method PushParents(sha: Hasher, nodes: seq<Digest>, start: nat, size: nat) returns (pushed: seq<Digest>)
    requires start + size == |nodes|
    ensures pushed == nodes + Parents(sha, nodes[start..])
  {
    pushed := nodes;
    var next := size / 2;
    for i := 0 to next
      invariant pushed == nodes + FirstPairs(sha, nodes[start..], i)
    {
      var left, right := pushed[start + 2 * i], pushed[start + 2 * i + 1];
      pushed := pushed + [Combine(sha, left, right)];
    }
  }

  /** Proof generation stays in bounds and returns the true path of the leaf. */
  method Prove(sha: Hasher, tree: MerkleTree, ghost leaves: seq<Digest>, leafIndex: nat)
    returns (proof: Option<MerkleProof>)
    requires TreeOf(sha, leaves, tree)
    ensures proof.None? <==> leafIndex >= |leaves|
    ensures proof.Some? ==> proof.value == MerkleProof(leaves[leafIndex],
                              Siblings(sha, Padded(leaves), leafIndex),
                              Directions(NextPowerOfTwo(|leaves|), leafIndex))
    ensures proof.Some? ==> forall k :: 0 <= k < |proof.value.directions| ==>
              (proof.value.directions[k] <==> leafIndex / Pow2(k) % 2 == 0)
  {
    if leafIndex >= tree.leafCount {
      return None;
    }
    var paddedLen := NextPowerOfTwo(tree.leafCount);
    var siblings, directions := CollectPath(sha, tree.nodes, Padded(leaves), paddedLen, leafIndex);
    InnerAt(sha, Padded(leaves), leafIndex);
    proof := Some(MerkleProof(tree.nodes[leafIndex], siblings, directions));
    forall k | 0 <= k < |directions| {
      DirectionIsBit(paddedLen, leafIndex, k);
    }
  }

  /** `level` fills the vector from `start` on, and what is collected so far and the path above make
      up the path of the leaf. */
  ghost predicate Collecting(sha: Hasher, leaves: seq<Digest>, leafIndex: nat, nodes: seq<Digest>, start: nat,
                             level: seq<Digest>, i: nat, siblings: seq<Digest>, directions: seq<bool>)
    requires PowerOfTwo(|leaves|) && leafIndex < |leaves|
  {
    && PowerOfTwo(|level|) && i < |level| && start <= |nodes| && nodes[start..] == Flat(sha, level)
    && siblings + Siblings(sha, level, i) == Siblings(sha, leaves, leafIndex)
    && directions + Directions(|level|, i) == Directions(|leaves|, leafIndex)
  }

  /** The loop of Prove. */
  method CollectPath(sha: Hasher, nodes: seq<Digest>, ghost leaves: seq<Digest>, paddedLen: nat, leafIndex: nat)
    returns (siblings: seq<Digest>, directions: seq<bool>)
    requires PowerOfTwo(paddedLen) && |leaves| == paddedLen && nodes == Flat(sha, leaves) && leafIndex < paddedLen
    ensures siblings == Siblings(sha, leaves, leafIndex) && directions == Directions(paddedLen, leafIndex)
  {
    siblings, directions := [], [];
    var index: nat, start: nat, size: nat := leafIndex, 0, paddedLen;
    ghost var level := leaves;
    while size > 1
      invariant Collecting(sha, leaves, leafIndex, nodes, start, level, index, siblings, directions) && |level| == size
    {
      CollectOn(sha, leaves, leafIndex, nodes, start, level, index, siblings, directions);
      var siblingIndex, isRight := SiblingIndex(index), index % 2 == 0;
      siblings := siblings + [nodes[start + siblingIndex]];
      directions := directions + [isRight];
      index, start, size, level := index / 2, start + size, size / 2, Parents(sha, level);
    }
  }

  lemma CollectOn(sha: Hasher, leaves: seq<Digest>, leafIndex: nat, nodes: seq<Digest>, start: nat,
                  level: seq<Digest>, i: nat, siblings: seq<Digest>, directions: seq<bool>)
    requires PowerOfTwo(|leaves|) && leafIndex < |leaves| && |level| > 1
    requires Collecting(sha, leaves, leafIndex, nodes, start, level, i, siblings, directions)
    ensures start + SiblingIndex(i) < |nodes|
    ensures Collecting(sha, leaves, leafIndex, nodes, start + |level|, Parents(sha, level), i / 2,
                       siblings + [nodes[start + SiblingIndex(i)]], directions + [i % 2 == 0])
  {
    Halves(|level|);
    LevelUp(sha, level, i);
    NextSibling(sha, nodes, start, level, i);
    Reassociate(siblings, [level[SiblingIndex(i)]], Siblings(sha, Parents(sha, level), i / 2));
    Reassociate(directions, [i % 2 == 0], Directions(|level| / 2, i / 2));
  }

  /** Where the sibling stands, and where the next level starts. */
  lemma NextSibling(sha: Hasher, nodes: seq<Digest>, start: nat, level: seq<Digest>, i: nat)
    requires PowerOfTwo(|level|) && |level| > 1 && SiblingIndex(i) < |level|
    requires start <= |nodes| && nodes[start..] == Flat(sha, level)
    ensures start + SiblingIndex(i) < |nodes| && nodes[start + SiblingIndex(i)] == level[SiblingIndex(i)]
    ensures start + |level| <= |nodes| && nodes[start + |level|..] == Flat(sha, Parents(sha, level))
  {
    InnerAt(sha, level, SiblingIndex(i));
    DropLevel(sha, nodes, start, level);
  }

  lemma DropLevel(sha: Hasher, nodes: seq<Digest>, start: nat, level: seq<Digest>)
    requires |level| > 1 && start <= |nodes| && nodes[start..] == Flat(sha, level)
    ensures start + |level| <= |nodes| && nodes[start + |level|..] == Flat(sha, Parents(sha, level))
  {
    assert nodes[start..][|level|..] == nodes[start + |level|..];
  }

  method Verify(sha: Hasher, proof: MerkleProof, expectedRoot: Digest) returns (ok: bool)
    ensures ok <==> Climb(sha, proof.leafHash, proof.siblings, proof.directions) == expectedRoot
  {
    var current := proof.leafHash;
    var steps := Min(|proof.siblings|, |proof.directions|);
    for i := 0 to steps
      invariant Climb(sha, current, proof.siblings[i..], proof.directions[i..])
             == Climb(sha, proof.leafHash, proof.siblings, proof.directions)
    {
      current := Ascend(sha, current, proof.siblings[i], proof.directions[i]);
    }
    ok := current == expectedRoot;
  }

  // ---- What the tree promises ------------------------------------------------------------------

  /** Every generated proof is accepted against the root, and has one sibling per level. */
  lemma GeneratedProofsVerify(sha: Hasher, leaves: seq<Digest>, tree: MerkleTree, i: nat)
    requires TreeOf(sha, leaves, tree) && i < |leaves|
    ensures var path := Siblings(sha, Padded(leaves), i);
            var turns := Directions(NextPowerOfTwo(|leaves|), i);
            && |path| == |turns| == Height(NextPowerOfTwo(|leaves|))
            && Climb(sha, leaves[i], path, turns) == tree.Root()
  {
    RootOfTree(sha, leaves, tree);
    PaddedAt(leaves, i);
    PathLengths(sha, Padded(leaves), i);
    TruePathClimbs(sha, Padded(leaves), i);
  }

  lemma RootOfTree(sha: Hasher, leaves: seq<Digest>, tree: MerkleTree)
    requires TreeOf(sha, leaves, tree)
    ensures |tree.nodes| == 2 * NextPowerOfTwo(|leaves|) - 1 && tree.Root() == Root(sha, Padded(leaves))
  {
    LastIsRoot(sha, Padded(leaves), tree);
  }

  lemma LastIsRoot(sha: Hasher, level: seq<Digest>, tree: MerkleTree)
    requires PowerOfTwo(|level|) && tree.nodes == Flat(sha, level)
    ensures |tree.nodes| == 2 * |level| - 1 && tree.Root() == Root(sha, level)
  {
    FlatShape(sha, level);
  }

  /** Any full-length proof accepted against the root carries the padded leaf at the position its
      directions spell out, and the true siblings of that leaf; otherwise two colliding inputs of the
      hash can be computed from the proof and the leaves. */
  lemma AcceptedProofsBind(sha: Hasher, leaves: seq<Digest>, tree: MerkleTree, proof: MerkleProof)
    requires TreeOf(sha, leaves, tree)
    requires |proof.siblings| == |proof.directions| == Height(NextPowerOfTwo(|leaves|))
    requires Climb(sha, proof.leafHash, proof.siblings, proof.directions) == tree.Root()
    ensures var level, i := Padded(leaves), Position(proof.directions);
            && i < |level|
            && match ClimbCollision(sha, level, proof.leafHash, proof.siblings, proof.directions)
               case Some((x, y)) => Collision(sha, x, y)
               case None => proof.leafHash == level[i] && proof.siblings == Siblings(sha, level, i)
  {
    RootOfTree(sha, leaves, tree);
    ClimbBinds(sha, Padded(leaves), proof.leafHash, proof.siblings, proof.directions);
  }

  /** Equal roots at equal leaf counts come from equal leaves; otherwise a collision can be computed
      from the two leaf lists. */
  lemma EqualRootsEqualLeaves(sha: Hasher, a: seq<Digest>, b: seq<Digest>, treeA: MerkleTree, treeB: MerkleTree)
    requires |a| == |b| && TreeOf(sha, a, treeA) && TreeOf(sha, b, treeB) && treeA.Root() == treeB.Root()
    ensures match RootCollision(sha, Padded(a), Padded(b))
            case Some((x, y)) => Collision(sha, x, y)
            case None => a == b
  {
    RootOfTree(sha, a, treeA);
    RootOfTree(sha, b, treeB);
    RootBinds(sha, Padded(a), Padded(b));
    match RootCollision(sha, Padded(a), Padded(b))
    case Some(_) =>
    case None => SamePaddedSameLeaves(a, b);
  }

  lemma SamePaddedSameLeaves(a: seq<Digest>, b: seq<Digest>)
    requires |a| == |b| && Padded(a) == Padded(b)
    ensures a == b
  {
    forall i | 0 <= i < |a|
      ensures a[i] == b[i]
    {
      PaddedAt(a, i);
      PaddedAt(b, i);
    }
  }

  /** Equal leaf counts are needed: a list whose length is no power of two, the empty list among them, has
      the same root as that list with one zero hash appended. */
  lemma PaddingIsNotBound(sha: Hasher, leaves: seq<Digest>, more: seq<Digest>)
    requires |leaves| < NextPowerOfTwo(|leaves|) && more == leaves + [ZERO]
    ensures more != leaves && Root(sha, Padded(leaves)) == Root(sha, Padded(more))
  {
    SamePadding(leaves, more);
  }

  lemma SamePadding(leaves: seq<Digest>, more: seq<Digest>)
    requires |leaves| < NextPowerOfTwo(|leaves|) && more == leaves + [ZERO]
    ensures Padded(leaves) == Padded(more)
  {
    SameLength(leaves, more);
    PadOneMore(leaves, NextPowerOfTwo(|leaves|));
  }

  lemma SameLength(leaves: seq<Digest>, more: seq<Digest>)
    requires |leaves| < NextPowerOfTwo(|leaves|) && |more| == |leaves| + 1
    ensures NextPowerOfTwo(|more|) == NextPowerOfTwo(|leaves|)
  {
    SameNextPower(|leaves|);
  }

  lemma PadOneMore(leaves: seq<Digest>, n: nat)
    requires |leaves| < n
    ensures PadTo(leaves, n) == PadTo(leaves + [ZERO], n)
  {
    var k := n - |leaves|;
    assert Zeroed(k) == [ZERO] + Zeroed(k - 1);
    Reassociate(leaves, [ZERO], Zeroed(k - 1));
  }

  lemma SameNextPower(n: nat)
    requires n < NextPowerOfTwo(n)
    ensures NextPowerOfTwo(n + 1) == NextPowerOfTwo(n)
  {
    NextPowerIsLeast(n + 1, NextPowerOfTwo(n));
    NextPowerIsLeast(n, NextPowerOfTwo(n + 1));
  }

  lemma PaddedAt(leaves: seq<Digest>, i: nat)
    requires i < NextPowerOfTwo(|leaves|)
    ensures Padded(leaves)[i] == if i < |leaves| then leaves[i] else ZERO
  {}

  lemma {:induction false} NextPowerIsLeast(n: nat, p: nat)
    requires n <= p && PowerOfTwo(p)
    ensures NextPowerOfTwo(n) <= p
  {
    if n > 1 {
      NextPowerIsLeast((n + 1) / 2, p / 2);
    }
  }

  // ---- Shorter proofs --------------------------------------------------------------------------

  /** The level `k` steps above. */
  ghost function LevelAt(sha: Hasher, level: seq<Digest>, k: nat): seq<Digest>
    decreases k
  {
    if k == 0 then level else LevelAt(sha, Parents(sha, level), k - 1)
  }

  lemma {:induction false} LevelAtShape(sha: Hasher, level: seq<Digest>, k: nat)
    requires PowerOfTwo(|level|) && k <= Height(|level|)
    ensures PowerOfTwo(|LevelAt(sha, level, k)|) && Height(|LevelAt(sha, level, k)|) == Height(|level|) - k
    ensures Root(sha, LevelAt(sha, level, k)) == Root(sha, level)
    decreases k
  {
    if k > 0 {
      LevelAtShape(sha, Parents(sha, level), k - 1);
    }
  }

  /** Full length is needed: with no separation between leaves and inner nodes, every entry of the level
      `k` steps above the leaves is accepted as a leaf by a proof that is `k` shorter. */
  lemma InnerNodesPassAsLeaves(sha: Hasher, level: seq<Digest>, k: nat, j: nat)
    requires PowerOfTwo(|level|) && k <= Height(|level|) && j < |LevelAt(sha, level, k)|
    ensures var inner := LevelAt(sha, level, k);
            && PowerOfTwo(|inner|)
            && |Siblings(sha, inner, j)| == |Directions(|inner|, j)| == Height(|level|) - k
            && Climb(sha, inner[j], Siblings(sha, inner, j), Directions(|inner|, j)) == Root(sha, level)
  {
    LevelAtShape(sha, level, k);
    TruePathClimbs(sha, LevelAt(sha, level, k), j);
    PathLengths(sha, LevelAt(sha, level, k), j);
  }

  /** And nothing else is: a proof that is `k` shorter and accepted against the root carries the entry of
      that level, and its true siblings, at the position its directions spell out, or a collision is
      found in it. So the length of an accepted proof says which level it speaks of. */
  lemma ShorterProofsBind(sha: Hasher, level: seq<Digest>, k: nat, leaf: Digest, siblings: seq<Digest>,
                          directions: seq<bool>)
    requires PowerOfTwo(|level|) && k <= Height(|level|)
    requires |siblings| == |directions| == Height(|level|) - k
    requires Climb(sha, leaf, siblings, directions) == Root(sha, level)
    ensures PowerOfTwo(|LevelAt(sha, level, k)|) && Height(|LevelAt(sha, level, k)|) == |siblings|
    ensures Bound(sha, LevelAt(sha, level, k), leaf, siblings, directions)
  {
    LevelAtShape(sha, level, k);
    ClimbBinds(sha, LevelAt(sha, level, k), leaf, siblings, directions);
  }

  /** Siblings without a direction, or directions without a sibling, are never looked at. */
  lemma {:induction false} ExtraIsIgnored(sha: Hasher, leaf: Digest, siblings: seq<Digest>, directions: seq<bool>)
    ensures var n := Min(|siblings|, |directions|);
            Climb(sha, leaf, siblings, directions) == Climb(sha, leaf, siblings[..n], directions[..n])
    decreases |siblings|
  {
    var n := Min(|siblings|, |directions|);
    if n > 0 {
      ExtraIsIgnored(sha, Ascend(sha, leaf, siblings[0], directions[0]), siblings[1..], directions[1..]);
      assert siblings[..n][1..] == siblings[1..][..n - 1] && directions[..n][1..] == directions[1..][..n - 1];
    }
  }

  // ---- Different leaf counts -------------------------------------------------------------------

  /** What equal roots say about levels of any two sizes: the smaller one is an inner level of the
      larger, or a collision is found; and then the roots are equal. So two lists have one root, short of
      a collision, exactly when the padded shorter one is a level of the tree of the other. */
  lemma EqualRootsAnyLength(sha: Hasher, small: seq<Digest>, large: seq<Digest>, k: nat)
    requires PowerOfTwo(|small|) && PowerOfTwo(|large|) && k <= Height(|large|)
    requires |small| == |LevelAt(sha, large, k)|
    ensures LevelAt(sha, large, k) == small ==> Root(sha, small) == Root(sha, large)
    ensures Root(sha, small) == Root(sha, large) ==>
              match RootCollision(sha, small, LevelAt(sha, large, k))
              case Some((x, y)) => Collision(sha, x, y)
              case None => small == LevelAt(sha, large, k)
  {
    LevelAtShape(sha, large, k);
    if Root(sha, small) == Root(sha, large) {
      RootBinds(sha, small, LevelAt(sha, large, k));
    }
  }

  /** Every smaller power of two is the size of one inner level. */
  lemma {:induction false} SmallerLevel(sha: Hasher, large: seq<Digest>, n: nat) returns (k: nat)
    requires PowerOfTwo(|large|) && PowerOfTwo(n) && n <= |large|
    ensures k <= Height(|large|) && |LevelAt(sha, large, k)| == n
    decreases |large|
  {
    if n == |large| {
      k := 0;
    } else {
      HalfBounds(n, |large|);
      var above := SmallerLevel(sha, Parents(sha, large), n);
      k := above + 1;
    }
  }

  lemma {:induction false} HalfBounds(n: nat, m: nat)
    requires PowerOfTwo(n) && PowerOfTwo(m) && n < m
    ensures n <= m / 2
  {
    if n > 1 {
      HalfBounds(n / 2, m / 2);
    }
  }

  /** For any two leaf lists: their trees have equal roots exactly when, short of a collision, the smaller
      padded list is a level of the tree of the larger; for one padded length that means the same padded
      list. */
  lemma RootsDecideLevels(sha: Hasher, a: seq<Digest>, b: seq<Digest>, treeA: MerkleTree, treeB: MerkleTree)
    returns (k: nat)
    requires TreeOf(sha, a, treeA) && TreeOf(sha, b, treeB) && |Padded(a)| <= |Padded(b)|
    ensures k <= Height(|Padded(b)|) && |LevelAt(sha, Padded(b), k)| == |Padded(a)|
    ensures Padded(a) == LevelAt(sha, Padded(b), k) ==> treeA.Root() == treeB.Root()
    ensures treeA.Root() == treeB.Root() ==>
              match RootCollision(sha, Padded(a), LevelAt(sha, Padded(b), k))
              case Some((x, y)) => Collision(sha, x, y)
              case None => Padded(a) == LevelAt(sha, Padded(b), k)
  {
    RootOfTree(sha, a, treeA);
    RootOfTree(sha, b, treeB);
    k := SmallerLevel(sha, Padded(b), |Padded(a)|);
    EqualRootsAnyLength(sha, Padded(a), Padded(b), k);
  }

  /** No leaves and one zero leaf, for instance: two trees with one root and different leaf counts. */
  lemma EmptyOrZeroLeaf(sha: Hasher, none: MerkleTree, one: MerkleTree)
    requires TreeOf(sha, [], none) && TreeOf(sha, [ZERO], one)
    ensures none.Root() == one.Root() && none.leafCount != one.leafCount
    ensures forall i :: 0 <= i < 32 ==> none.Root().bytes[i] == 0
  {
    assert Padded([]) == [ZERO] == Padded([ZERO]);
  }
}
