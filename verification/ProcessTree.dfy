/** The memory of a process tree, added up over one snapshot of the process table. */
module ProcessTree {

  type Pid = nat

  /** What the two files of a process say; a process whose files cannot be read is not in the snapshot. */
  datatype Process = Process(rss: nat, children: seq<Pid>)

  type Snapshot = map<Pid, Process>

  /** `path` leads from its first process to its last through the children of readable processes. */
  ghost predicate Path(s: Snapshot, path: seq<Pid>) {
    && path != []
    && forall i :: 0 <= i < |path| - 1 ==> path[i] in s && path[i + 1] in s[path[i]].children
  }

  ghost predicate Reachable(s: Snapshot, root: Pid, pid: Pid) {
    exists path :: Path(s, path) && path[0] == root && path[|path| - 1] == pid
  }

  /** The resident memory of a set of processes, each counted once; unreadable ones count for nothing. */
  ghost function Total(s: Snapshot, pids: set<Pid>): nat
    decreases |pids|
  {
    if pids == {} then 0
    else
      var pid :| pid in pids;
      Rss(s, pid) + Total(s, pids - {pid})
  }

  function Rss(s: Snapshot, pid: Pid): nat {
    if pid in s then s[pid].rss else 0
  }

  /** The order in which the processes are added does not matter. */
  lemma {:induction false} TotalWithout(s: Snapshot, pids: set<Pid>, pid: Pid)
    requires pid in pids
    ensures Total(s, pids) == Rss(s, pid) + Total(s, pids - {pid})
    decreases |pids|
  {
    var first :| first in pids && Total(s, pids) == Rss(s, first) + Total(s, pids - {first});
    if first != pid {
      TotalWithout(s, pids - {first}, pid);
      TotalWithout(s, pids - {pid}, first);
      assert pids - {first} - {pid} == pids - {pid} - {first};
    }
  }

  lemma TotalWith(s: Snapshot, pids: set<Pid>, pid: Pid)
    requires pid !in pids
    ensures Total(s, pids + {pid}) == Total(s, pids) + Rss(s, pid)
  {
    TotalWithout(s, pids + {pid}, pid);
    assert pids + {pid} - {pid} == pids;
  }

  lemma RootReachable(s: Snapshot, root: Pid)
    ensures Reachable(s, root, root)
  {
    assert Path(s, [root]);
  }

  lemma ChildReachable(s: Snapshot, root: Pid, pid: Pid, child: Pid)
    requires Reachable(s, root, pid) && pid in s && child in s[pid].children
    ensures Reachable(s, root, child)
  {
    var path :| Path(s, path) && path[0] == root && path[|path| - 1] == pid;
    var longer := path + [child];
    assert Path(s, longer) && longer[0] == root && longer[|longer| - 1] == child;
  }

  /** A set that holds the root and the children of its readable members holds everything reachable. */
  lemma {:induction false} ClosedHoldsPath(s: Snapshot, seen: set<Pid>, path: seq<Pid>)
    requires Path(s, path) && path[0] in seen
    requires forall pid, child :: pid in seen && pid in s && child in s[pid].children ==> child in seen
    ensures path[|path| - 1] in seen
    decreases |path|
  {
    if |path| <= 1 {
    } else {
      var shorter := path[..|path| - 1];
      ClosedHoldsPath(s, seen, shorter);
      assert path[|path| - 2] == shorter[|shorter| - 1];
    }
  }

  /** Every process that can turn up in the walk. */
  ghost function Known(s: Snapshot, root: Pid): set<Pid> {
    {root} + set pid, child | pid in s && child in s[pid].children :: child
  }

  /** The state of the walk: what was visited is reachable and added up, and every child of it is visited or pending. */
  ghost predicate Walking(s: Snapshot, root: Pid, pending: seq<Pid>, visited: set<Pid>) {
    && (root in visited || root in pending)
    && (forall pid :: pid in visited || pid in pending ==> Reachable(s, root, pid) && pid in Known(s, root))
    && (forall pid, child :: pid in visited && pid in s && child in s[pid].children ==>
          child in visited || child in pending)
  }

  lemma WalkStarts(s: Snapshot, root: Pid)
    ensures Walking(s, root, [root], {})
  {
    RootReachable(s, root);
  }

  lemma WalkSeen(s: Snapshot, root: Pid, pending: seq<Pid>, visited: set<Pid>)
    requires Walking(s, root, pending, visited) && pending != [] && pending[|pending| - 1] in visited
    ensures Walking(s, root, pending[..|pending| - 1], visited)
  {
    var pid := pending[|pending| - 1];
    assert pending == pending[..|pending| - 1] + [pid];
  }

  lemma WalkOn(s: Snapshot, root: Pid, pending: seq<Pid>, visited: set<Pid>)
    requires Walking(s, root, pending, visited) && pending != []
    ensures var pid := pending[|pending| - 1]; var rest := pending[..|pending| - 1];
            Walking(s, root, if pid in s then rest + s[pid].children else rest, visited + {pid})
  {
    var pid := pending[|pending| - 1];
    assert pending == pending[..|pending| - 1] + [pid];
    assert pid in pending;
    if pid in s {
      forall child | child in s[pid].children ensures Reachable(s, root, child) && child in Known(s, root) {
        ChildReachable(s, root, pid, child);
      }
    }
  }

  lemma LastIsKnown(s: Snapshot, root: Pid, pending: seq<Pid>, visited: set<Pid>)
    requires Walking(s, root, pending, visited) && pending != []
    ensures pending[|pending| - 1] in Known(s, root)
  {
  }

  lemma WalkEnds(s: Snapshot, root: Pid, visited: set<Pid>, pid: Pid)
    requires Walking(s, root, [], visited)
    ensures pid in visited <==> Reachable(s, root, pid)
  {
    if Reachable(s, root, pid) {
      var path :| Path(s, path) && path[0] == root && path[|path| - 1] == pid;
      ClosedHoldsPath(s, visited, path);
    }
  }

  lemma FewerLeft(known: set<Pid>, visited: set<Pid>, pid: Pid)
    requires pid in known && pid !in visited
    ensures |known - (visited + {pid})| < |known - visited|
  {
    assert known - visited == known - (visited + {pid}) + {pid};
  }

  /** `seen` is the tree under `root`. */
  ghost predicate IsTree(s: Snapshot, root: Pid, seen: set<Pid>) {
    forall pid :: pid in seen <==> Reachable(s, root, pid)
  }

  lemma WalkDone(s: Snapshot, root: Pid, visited: set<Pid>)
    requires Walking(s, root, [], visited)
    ensures IsTree(s, root, visited)
  {
    forall pid ensures pid in visited <==> Reachable(s, root, pid) {
      WalkEnds(s, root, visited, pid);
    }
  }

  /** One unvisited process: it is counted, and its children become pending. */
  method Visit(s: Snapshot, ghost root: Pid, pending: seq<Pid>, visited: set<Pid>, total: nat)
    returns (pending': seq<Pid>, total': nat)
    requires Walking(s, root, pending, visited) && pending != [] && pending[|pending| - 1] !in visited
    requires total == Total(s, visited)
    ensures Walking(s, root, pending', visited + {pending[|pending| - 1]})
    ensures total' == Total(s, visited + {pending[|pending| - 1]})
  {
    var pid := pending[|pending| - 1];
    WalkOn(s, root, pending, visited);
    TotalWith(s, visited, pid);
    pending', total' := pending[..|pending| - 1], total;
    if pid in s {
      total' := total' + s[pid].rss;
      pending' := pending' + s[pid].children;
    }
  }

  /** `_process_tree_rss`: the walk ends, also on a table with cycles or shared children, and counts exactly the
      processes that are reachable through readable ones, each of them once. */
  method ProcessTreeRss(s: Snapshot, root: Pid) returns (total: nat)
    ensures exists seen :: total == Total(s, seen) && IsTree(s, root, seen)
  {
    var pending := [root];
    var visited: set<Pid> := {};
    total := 0;
    ghost var known := Known(s, root);
    WalkStarts(s, root);
    while pending != []
      invariant total == Total(s, visited) && Walking(s, root, pending, visited)
      decreases |known - visited|, |pending|
    {
      var pid := pending[|pending| - 1];
      if pid in visited {
        WalkSeen(s, root, pending, visited);
        pending := pending[..|pending| - 1];
      } else {
        LastIsKnown(s, root, pending, visited);
        FewerLeft(known, visited, pid);
        pending, total := Visit(s, root, pending, visited, total);
        visited := visited + {pid};
      }
    }
    WalkDone(s, root, visited);
  }
}
