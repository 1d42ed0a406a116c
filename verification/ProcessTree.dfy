/** Descendants of a process in a table that may hold cycles, self-parents and duplicate rows. */
module ProcessTree {
  import opened Basics

  type Pid = int

  datatype Process = Process(pid: Pid, ppid: Pid)

  predicate IsEdge(table: seq<Process>, parent: Pid, child: Pid) {
    Process(child, parent) in table
  }

  ghost predicate IsChain(table: seq<Process>, chain: seq<Pid>) {
    forall i :: 0 <= i < |chain| - 1 ==> IsEdge(table, chain[i], chain[i + 1])
  }

  ghost predicate ChainTo(table: seq<Process>, root: Pid, p: Pid, chain: seq<Pid>) {
    chain != [] && chain[0] == root && chain[|chain| - 1] == p && IsChain(table, chain)
  }

  /** `p` is the root or is reached from it by parent edges. */
  ghost predicate Reaches(table: seq<Process>, root: Pid, p: Pid) {
    exists chain :: ChainTo(table, root, p, chain)
  }

  lemma ReachesRoot(table: seq<Process>, root: Pid)
    ensures Reaches(table, root, root)
  {
    assert ChainTo(table, root, root, [root]);
  }

  lemma ReachesChild(table: seq<Process>, root: Pid, p: Pid, child: Pid)
    requires Reaches(table, root, p) && IsEdge(table, p, child)
    ensures Reaches(table, root, child)
  {
    var chain :| ChainTo(table, root, p, chain);
    assert ChainTo(table, root, child, chain + [child]);
  }

  /** A set that holds the root and every child of its members holds all that is reached. */
  lemma {:induction false} ClosedHoldsChain(table: seq<Process>, root: Pid, p: Pid, chain: seq<Pid>, s: set<Pid>)
    requires ChainTo(table, root, p, chain) && root in s
    requires forall q, c :: q in s && IsEdge(table, q, c) ==> c in s
    ensures p in s
    decreases |chain|
  {
    if |chain| > 1 {
      var front := chain[..|chain| - 1];
      ClosedHoldsChain(table, root, front[|front| - 1], front, s);
      assert IsEdge(table, chain[|chain| - 2], chain[|chain| - 1]);
    }
  }

  function Children(children: map<Pid, seq<Pid>>, p: Pid): seq<Pid> {
    if p in children then children[p] else []
  }

  method ChildrenByParent(table: seq<Process>) returns (children: map<Pid, seq<Pid>>)
    ensures forall p, c :: c in Children(children, p) <==> IsEdge(table, p, c)
  {
    children := map[];
    for i := 0 to |table|
      invariant forall p, c :: c in Children(children, p) <==> IsEdge(table[..i], p, c)
    {
      var row := table[i];
      assert table[..i + 1] == table[..i] + [row];
      ghost var before := children;
      children := children[row.ppid := Children(children, row.ppid) + [row.pid]];
      forall p, c ensures c in Children(children, p) <==> IsEdge(table[..i + 1], p, c) {
        assert c in Children(before, p) <==> IsEdge(table[..i], p, c);
        assert c in Children(children, p) <==> c in Children(before, p) || (p == row.ppid && c == row.pid);
        assert Process(c, p) in table[..i + 1] <==> Process(c, p) in table[..i] || Process(c, p) == row;
      }
    }
    assert table[..|table|] == table;
  }

  /** Exactly the processes reached from the root, the root included; nothing without a root. */
  method DescendantPids(root: Option<Pid>, table: seq<Process>) returns (seen: set<Pid>)
    ensures root.None? ==> seen == {}
    ensures root.Some? ==> forall p :: p in seen <==> Reaches(table, root.value, p)
  {
    seen := {};
    if root.None? {
      return;
    }
    var children := ChildrenByParent(table);
    var stack := [root.value];
    ghost var all := {root.value} + set row | row in table :: row.pid;
    ReachesRoot(table, root.value);
    while stack != []
      invariant root.value in seen || root.value in stack
      invariant forall p :: p in seen || p in stack ==> p in all && Reaches(table, root.value, p)
      invariant forall p, c :: p in seen && IsEdge(table, p, c) ==> c in seen || c in stack
      decreases |all - seen|, |stack|
    {
      var pid := stack[|stack| - 1];
      ghost var before := stack;
      stack := stack[..|stack| - 1];
      assert before == stack + [pid];
      if pid in seen {
        continue;
      }
      assert all - (seen + {pid}) < all - seen;
      SubsetStrict(all - (seen + {pid}), all - seen);
      seen := seen + {pid};
      forall c | c in Children(children, pid) ensures c in all && Reaches(table, root.value, c) {
        assert IsEdge(table, pid, c);
        assert Process(c, pid) in table;
        ReachesChild(table, root.value, pid, c);
      }
      stack := stack + Children(children, pid);
    }
    forall p | Reaches(table, root.value, p) ensures p in seen {
      var chain :| ChainTo(table, root.value, p, chain);
      ClosedHoldsChain(table, root.value, p, chain, seen);
    }
  }

  lemma SubsetStrict<T>(a: set<T>, b: set<T>)
    requires a < b
    ensures |a| < |b|
  {
    SubsetCard(a, b);
    assert b == a + (b - a);
  }
}
