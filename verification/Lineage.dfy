/** The lineage check of the teardown runner: the candidate revision is the pinned
    bridge commit, or lies at the end of one merge-free path that starts there. */
module Lineage {
  import opened Wrappers

  type Commit = string

  /** A commit graph. A commit is deeper than each of its parents. */
  datatype History = History(parents: Commit -> seq<Commit>, depth: Commit -> nat) {
    ghost predicate Valid() {
      forall c: Commit, p: Commit :: p in parents(c) ==> depth(p) < depth(c)
    }
  }

  /** One line of the listing: a commit and its parents. */
  datatype Row = Row(commit: Commit, parents: seq<Commit>)

  /** A walk from child to parent. */
  ghost predicate Walk(h: History, path: seq<Commit>) {
    path != [] && forall i :: 0 <= i < |path| - 1 ==> path[i + 1] in h.parents(path[i])
  }

  ghost predicate Connects(h: History, path: seq<Commit>, from: Commit, to: Commit) {
    Walk(h, path) && path[0] == from && path[|path| - 1] == to
  }

  /** `ancestor` is reached from `c`, in any number of steps. */
  ghost predicate Reaches(h: History, c: Commit, ancestor: Commit) {
    exists path :: Connects(h, path, c, ancestor)
  }

  /** What `rev-list --ancestry-path bridge..revision` selects. */
  ghost predicate Between(h: History, bridge: Commit, revision: Commit, c: Commit) {
    Reaches(h, revision, c) && !Reaches(h, bridge, c) && Reaches(h, c, bridge)
  }

  predicate IsListed(rows: seq<Row>, c: Commit) {
    exists i :: 0 <= i < |rows| && rows[i].commit == c
  }

  /** The rows are exactly those commits, each once, with their own parents. */
  ghost predicate Lists(h: History, rows: seq<Row>, bridge: Commit, revision: Commit) {
    && (forall row <- rows :: row.parents == h.parents(row.commit))
    && (forall i, j :: 0 <= i < j < |rows| ==> rows[i].commit != rows[j].commit)
    && (forall c :: IsListed(rows, c) <==> Between(h, bridge, revision, c))
  }

  /** `--reverse`: a parent is listed before its child. */
  ghost predicate ParentsFirst(rows: seq<Row>) {
    forall i, j :: 0 <= i < |rows| && 0 <= j < |rows| && rows[i].commit in rows[j].parents ==> i < j
  }

  /** What precedes a path's commit number `i`. */
  function Before(bridge: Commit, chain: seq<Commit>, i: nat): Commit
    requires i <= |chain|
  {
    if i == 0 then bridge else chain[i - 1]
  }

  /** A merge-free path from just after the bridge up to the revision. */
  ghost predicate Linear(h: History, bridge: Commit, chain: seq<Commit>) {
    forall i {:trigger Before(bridge, chain, i)} :: 0 <= i < |chain| ==> h.parents(chain[i]) == [Before(bridge, chain, i)]
  }

  function Commits(rows: seq<Row>): seq<Commit> {
    seq(|rows|, i requires 0 <= i < |rows| => rows[i].commit)
  }

  /** The first `n` rows continue each other from the bridge on. */
  predicate Continue(rows: seq<Row>, n: nat, bridge: Commit)
    requires n <= |rows|
  {
    forall i {:trigger Before(bridge, Commits(rows), i)} :: 0 <= i < n ==> rows[i].parents == [Before(bridge, Commits(rows), i)]
  }

  predicate RowsAccepted(rows: seq<Row>, bridge: Commit, revision: Commit) {
    Continue(rows, |rows|, bridge) && rows != [] && rows[|rows| - 1].commit == revision
  }

  predicate Distinct<T(==)>(s: seq<T>) {
    forall i, j :: 0 <= i < j < |s| ==> s[i] != s[j]
  }

  /** The pinned commits and the reviewed file sets. */
  datatype Pins = Pins(base: Commit, bridge: Commit, bridgePaths: set<string>, hotfixPaths: set<string>)

  /** The loop over the rows. */
  method FollowRows(rows: seq<Row>, bridge: Commit, revision: Commit) returns (r: Result<()>)
    ensures r.Ok? <==> RowsAccepted(rows, bridge, revision)
  {
    var previous := bridge;
    for i := 0 to |rows|
      invariant previous == Before(bridge, Commits(rows), i)
      invariant Continue(rows, i, bridge)
    {
      if rows[i].parents != [previous] {
        return Err(Raised);
      }
      previous := rows[i].commit;
    }
    r := Require(rows != [] && previous == revision);
  }

  /** `require_run29_teardown_lineage`. `rows` is the listing, `changed` the files that
      differ between the expected parent and the revision. */
  method RequireLineage(pins: Pins, revision: Commit, rows: seq<Row>, changed: seq<string>) returns (r: Result<()>)
    ensures r.Ok? <==>
            && revision != pins.base && Distinct(changed)
            && if revision == pins.bridge then rows == [Row(pins.bridge, [pins.base])] && Elements(changed) == pins.bridgePaths
               else RowsAccepted(rows, pins.bridge, revision) && Elements(changed) == pins.hotfixPaths
  {
    var _ :- Require(revision != pins.base);
    if revision == pins.bridge {
      var _ :- Require(rows == [Row(pins.bridge, [pins.base])]);
    } else {
      var _ :- FollowRows(rows, pins.bridge, revision);
    }
    var expected := if revision == pins.bridge then pins.bridgePaths else pins.hotfixPaths;
    var _ :- Require(Distinct(changed));
    r := Require(Elements(changed) == expected);
  }

  // --------------------------------------------------------------- soundness

  /** On a merge-free path there is no choice: every walk from its end follows it, and
      leaves it through the bridge. */
  lemma {:induction false} WalksAreForced(h: History, bridge: Commit, chain: seq<Commit>, path: seq<Commit>, i: nat)
    requires Linear(h, bridge, chain) && chain != [] && Walk(h, path) && path[0] == chain[|chain| - 1]
    requires i < |path| && i <= |chain|
    ensures path[i] == if i < |chain| then chain[|chain| - 1 - i] else bridge
  {
    if i > 0 {
      WalksAreForced(h, bridge, chain, path, i - 1);
      var n := |chain|;
      assert path[i] in h.parents(path[i - 1]);
      assert path[i] == Before(bridge, chain, n - i);
    }
  }

  /** What the check accepts for a revision past the bridge is one merge-free path: each
      of its commits has the one before it as its only parent, and every walk from the
      revision towards its ancestors either stays on the path or passes the bridge. */
  lemma AcceptedIsOneMergeFreePath(h: History, rows: seq<Row>, bridge: Commit, revision: Commit, path: seq<Commit>)
    requires RowsAccepted(rows, bridge, revision) && forall row <- rows :: row.parents == h.parents(row.commit)
    requires Walk(h, path) && path[0] == revision
    ensures Linear(h, bridge, Commits(rows))
    ensures forall i :: 0 <= i < |path| && i < |rows| ==> path[i] == Commits(rows)[|rows| - 1 - i]
    ensures |path| > |rows| ==> path[|rows|] == bridge
  {
    var chain := Commits(rows);
    assert Linear(h, bridge, chain) by {
      forall i | 0 <= i < |chain|
        ensures h.parents(chain[i]) == [Before(bridge, chain, i)]
      {
        assert rows[i] in rows;
      }
    }
    forall i | 0 <= i < |path| && i <= |rows|
      ensures path[i] == if i < |chain| then chain[|chain| - 1 - i] else bridge
    {
      WalksAreForced(h, bridge, chain, path, i);
    }
  }

  // ------------------------------------------------------------ completeness

  /** The walk down the path, from its end to number `k`. */
  function Down(chain: seq<Commit>, k: nat): seq<Commit>
    requires k < |chain|
  {
    seq(|chain| - k, i requires 0 <= i < |chain| - k => chain[|chain| - 1 - i])
  }

  lemma DownIsAWalk(h: History, bridge: Commit, chain: seq<Commit>, k: nat)
    requires Linear(h, bridge, chain) && k < |chain|
    ensures Walk(h, Down(chain, k))
  {
    var path := Down(chain, k);
    forall i | 0 <= i < |path| - 1
      ensures path[i + 1] in h.parents(path[i])
    {
      var j := |chain| - 1 - i;
      assert h.parents(chain[j]) == [Before(bridge, chain, j)];
    }
  }

  lemma PathMembersAreReached(h: History, bridge: Commit, chain: seq<Commit>, k: nat)
    requires Linear(h, bridge, chain) && k < |chain|
    ensures Reaches(h, chain[|chain| - 1], chain[k]) && Reaches(h, chain[k], bridge)
  {
    DownIsAWalk(h, bridge, chain, k);
    assert Connects(h, Down(chain, k), chain[|chain| - 1], chain[k]);
    var below := chain[..k + 1];
    assert Linear(h, bridge, below) by {
      assert forall i :: 0 <= i <= k ==> Before(bridge, below, i) == Before(bridge, chain, i);
    }
    DownIsAWalk(h, bridge, below, 0);
    var path := Down(below, 0) + [bridge];
    assert Before(bridge, below, 0) == bridge;
    assert Connects(h, path, chain[k], bridge);
  }

  lemma {:induction false} WalksLoseDepth(h: History, path: seq<Commit>)
    requires h.Valid() && Walk(h, path)
    ensures h.depth(path[|path| - 1]) <= h.depth(path[0])
  {
    if |path| > 1 {
      assert Walk(h, path[1..]);
      WalksLoseDepth(h, path[1..]);
      assert path[1] in h.parents(path[0]);
    }
  }

  lemma {:induction false} PathIsDeeper(h: History, bridge: Commit, chain: seq<Commit>, k: nat)
    requires h.Valid() && Linear(h, bridge, chain) && k < |chain|
    ensures h.depth(bridge) < h.depth(chain[k])
    ensures forall j :: 0 <= j < k ==> h.depth(chain[j]) < h.depth(chain[k])
  {
    var parent := Before(bridge, chain, k);
    assert parent in h.parents(chain[k]);
    if k > 0 {
      PathIsDeeper(h, bridge, chain, k - 1);
    }
  }

  /** Past a merge-free path, the selected commits are exactly its members. */
  lemma BetweenIsThePath(h: History, bridge: Commit, chain: seq<Commit>, c: Commit)
    requires h.Valid() && Linear(h, bridge, chain) && chain != []
    ensures Between(h, bridge, chain[|chain| - 1], c) <==> c in chain
  {
    var revision := chain[|chain| - 1];
    if c in chain {
      var k :| 0 <= k < |chain| && chain[k] == c;
      PathMembersAreReached(h, bridge, chain, k);
      if Reaches(h, bridge, c) {
        var path :| Connects(h, path, bridge, c);
        WalksLoseDepth(h, path);
        PathIsDeeper(h, bridge, chain, k);
        assert false;
      }
    } else if Reaches(h, revision, c) {
      var path :| Connects(h, path, revision, c);
      var n := |chain|;
      var last := |path| - 1;
      WalksAreForced(h, bridge, chain, path, if last < n then last else n);
      if last >= n {
        assert Connects(h, path[n..], bridge, c);
      }
    }
  }

  /** A number for every index, growing and below `n`, can only be the index itself. */
  lemma {:induction false} GrowingIsIdentity(f: seq<nat>, n: nat, k: nat)
    requires |f| == n && k < n
    requires forall i :: 0 <= i < n ==> f[i] < n
    requires forall i :: 0 <= i < n - 1 ==> f[i] < f[i + 1]
    ensures f[k] == k
  {
    AtLeast(f, n, k);
    AtMost(f, n, k);
  }

  lemma {:induction false} AtLeast(f: seq<nat>, n: nat, k: nat)
    requires |f| == n && k < n && forall i :: 0 <= i < n - 1 ==> f[i] < f[i + 1]
    ensures f[k] >= k
  {
    if k > 0 {
      AtLeast(f, n, k - 1);
    }
  }

  lemma {:induction false} AtMost(f: seq<nat>, n: nat, k: nat)
    requires |f| == n && k < n && f[n - 1] < n && forall i :: 0 <= i < n - 1 ==> f[i] < f[i + 1]
    ensures f[k] <= k
    decreases n - k
  {
    if k < n - 1 {
      AtMost(f, n, k + 1);
    }
  }

  lemma Positions(rows: seq<Row>, chain: seq<Commit>) returns (f: seq<nat>)
    requires forall c <- chain :: IsListed(rows, c)
    ensures |f| == |chain| && forall k :: 0 <= k < |chain| ==> f[k] < |rows| && rows[f[k]].commit == chain[k]
  {
    f := [];
    for k := 0 to |chain|
      invariant |f| == k && forall j :: 0 <= j < k ==> f[j] < |rows| && rows[f[j]].commit == chain[j]
    {
      assert chain[k] in chain && IsListed(rows, chain[k]);
      var i :| 0 <= i < |rows| && rows[i].commit == chain[k];
      f := f + [i];
    }
  }

  lemma {:induction false} AsManyRows(rows: seq<Row>, chain: seq<Commit>)
    requires forall i, j :: 0 <= i < j < |rows| ==> rows[i].commit != rows[j].commit
    requires forall i :: 0 <= i < |rows| ==> rows[i].commit in chain
    ensures |rows| <= |chain|
  {
    if rows != [] {
      var last := rows[|rows| - 1];
      var k :| 0 <= k < |chain| && chain[k] == last.commit;
      var rest := chain[..k] + chain[k + 1..];
      forall i | 0 <= i < |rows| - 1
        ensures rows[i].commit in rest
      {
        var j :| 0 <= j < |chain| && chain[j] == rows[i].commit;
        assert j != k;
        assert rest[if j < k then j else j - 1] == rows[i].commit;
      }
      AsManyRows(rows[..|rows| - 1], rest);
    }
  }

  lemma PathIsListed(h: History, rows: seq<Row>, bridge: Commit, chain: seq<Commit>)
    requires h.Valid() && Linear(h, bridge, chain) && chain != []
    requires Lists(h, rows, bridge, chain[|chain| - 1])
    ensures forall c <- chain :: IsListed(rows, c)
    ensures |rows| <= |chain|
  {
    forall c
      ensures IsListed(rows, c) <==> c in chain
    {
      BetweenIsThePath(h, bridge, chain, c);
    }
    forall i | 0 <= i < |rows|
      ensures rows[i].commit in chain
    {
      assert IsListed(rows, rows[i].commit);
    }
    AsManyRows(rows, chain);
  }

  /** Listed with parents first, the path comes in its own order. */
  lemma PathIsInOrder(h: History, rows: seq<Row>, bridge: Commit, chain: seq<Commit>, f: seq<nat>)
    requires Linear(h, bridge, chain) && ParentsFirst(rows) && forall row <- rows :: row.parents == h.parents(row.commit)
    requires |f| == |chain| && forall k :: 0 <= k < |chain| ==> f[k] < |rows| && rows[f[k]].commit == chain[k]
    ensures forall k :: 0 <= k < |chain| - 1 ==> f[k] < f[k + 1]
  {
    forall k | 0 <= k < |chain| - 1
      ensures f[k] < f[k + 1]
    {
      assert rows[f[k + 1]] in rows;
      assert h.parents(chain[k + 1]) == [Before(bridge, chain, k + 1)];
      assert rows[f[k]].commit in rows[f[k + 1]].parents;
    }
  }

  lemma PathIsInPlace(h: History, rows: seq<Row>, bridge: Commit, chain: seq<Commit>)
    requires h.Valid() && Linear(h, bridge, chain) && chain != []
    requires Lists(h, rows, bridge, chain[|chain| - 1]) && ParentsFirst(rows)
    ensures Commits(rows) == chain
  {
    PathIsListed(h, rows, bridge, chain);
    var f := Positions(rows, chain);
    PathIsInOrder(h, rows, bridge, chain, f);
    hide Linear, Lists, ParentsFirst, IsListed, History.Valid;
    Growing(f, |chain|, |rows|);
    forall k | 0 <= k < |chain|
      ensures rows[k].commit == chain[k]
    {
      GrowingIsIdentity(f, |chain|, k);
    }
  }

  /** The other direction: a merge-free path is listed in its own order, and accepted. */
  lemma MergeFreePathIsAccepted(h: History, rows: seq<Row>, bridge: Commit, chain: seq<Commit>)
    requires h.Valid() && Linear(h, bridge, chain) && chain != []
    requires Lists(h, rows, bridge, chain[|chain| - 1]) && ParentsFirst(rows)
    ensures RowsAccepted(rows, bridge, chain[|chain| - 1])
  {
    PathIsInPlace(h, rows, bridge, chain);
    assert rows[|rows| - 1].commit == Commits(rows)[|rows| - 1];
    InPlaceContinues(h, rows, bridge);
    hide Linear, Lists, ParentsFirst, History.Valid, Continue;
  }

  lemma InPlaceContinues(h: History, rows: seq<Row>, bridge: Commit)
    requires Linear(h, bridge, Commits(rows)) && forall row <- rows :: row.parents == h.parents(row.commit)
    ensures Continue(rows, |rows|, bridge)
  {
    forall k | 0 <= k < |rows|
      ensures rows[k].parents == [Before(bridge, Commits(rows), k)]
    {
      assert rows[k] in rows && Commits(rows)[k] == rows[k].commit;
    }
  }

  /** Growing numbers below `m` need at least that much room. */
  lemma Growing(f: seq<nat>, n: nat, m: nat)
    requires |f| == n && forall i :: 0 <= i < n - 1 ==> f[i] < f[i + 1]
    requires forall i :: 0 <= i < n ==> f[i] < m
    ensures n <= m
  {
    if n > 0 {
      AtLeast(f, n, n - 1);
    }
  }

  /** Both directions at once, for any commit graph: given the true listing, a revision
      past the bridge is accepted if and only if one merge-free path leads to it. */
  lemma AcceptedIffMergeFree(h: History, rows: seq<Row>, bridge: Commit, revision: Commit)
    requires h.Valid() && Lists(h, rows, bridge, revision) && ParentsFirst(rows)
    ensures RowsAccepted(rows, bridge, revision) <==>
            exists chain :: chain != [] && chain[|chain| - 1] == revision && Linear(h, bridge, chain)
  {
    if RowsAccepted(rows, bridge, revision) {
      assert Walk(h, [revision]);
      AcceptedIsOneMergeFreePath(h, rows, bridge, revision, [revision]);
      assert Commits(rows)[|rows| - 1] == revision;
    }
    forall chain | chain != [] && chain[|chain| - 1] == revision && Linear(h, bridge, chain)
      ensures RowsAccepted(rows, bridge, revision)
    {
      MergeFreePathIsAccepted(h, rows, bridge, chain);
    }
  }
}
