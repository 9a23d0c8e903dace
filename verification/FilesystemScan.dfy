/** The budgeted, stack-driven walk over the scopes of a Snapshot. */
module FilesystemScan {
  import opened Options
  import opened SnapshotEntries
  import Ordering

  type Path = seq<string>

  /** What `lstat` and `scandir` find at a path. */
  datatype Node = Node(kind: ObjectType, device: nat, size: nat, stat: ObservationStatus, listable: bool)

  type Tree = map<Path, Node>

  datatype Scope = Scope(scopeId: nat, root: Path, allowCrossMount: bool)

  datatype Budget = Budget(maxEntries: nat, maxTotalBytes: Option<nat>, maxDepth: Option<nat>)

  datatype ScanEntry = ScanEntry(scopeId: nat, path: Path, kind: ObjectType, size: nat, status: ObservationStatus, excluded: bool)

  /** The observation so far: entries in discovery order, regular bytes seen, the sticky flag, and how
      often the clock was looked at. */
  datatype Walk = Walk(entries: seq<ScanEntry>, bytes: nat, partial: bool, looks: nat)

  /** Why a scan is partial; `left` is a path it no longer got to. */
  datatype Cause = Expired(look: nat, left: Path) | RootUnavailable | Unlistable(path: Path) | StatFailed(path: Path) | Full(left: Path) | BytesExceeded

  // ------------------------------------------------------------------ what a complete walk must find

  /** Inside an excluded scope or one of the tool's own directories. */
  predicate Skipped(excluded: set<Path>, path: Path) {
    exists item :: item in excluded && item <= path
  }

  /** A directory below the root whose children are observed. */
  predicate Enters(tree: Tree, scope: Scope, excluded: set<Path>, path: Path) {
    && path in tree && scope.root in tree
    && tree[path].stat == OBSERVED && tree[path].kind == DIRECTORY && !Skipped(excluded, path)
    && (scope.allowCrossMount || tree[path].device == tree[scope.root].device)
  }

  predicate WithinDepth(scope: Scope, budget: Budget, path: Path) {
    budget.maxDepth.Some? ==> |path| - |scope.root| <= budget.maxDepth.value
  }

  /** Reachable from the root through entered directories, within the depth limit. */
  predicate Reached(tree: Tree, scope: Scope, excluded: set<Path>, budget: Budget, path: Path) {
    && path in tree && scope.root <= path && WithinDepth(scope, budget, path)
    && forall k :: |scope.root| < k < |path| ==> Enters(tree, scope, excluded, path[..k])
  }

  predicate IsChild(directory: Path, path: Path) {
    |path| == |directory| + 1 && directory <= path
  }

  function Parent(path: Path): Path
    requires path != []
  {
    path[..|path| - 1]
  }

  /** The one true entry of a path: what its node says, or that its metadata could not be read. */
  ghost function EntryOf(tree: Tree, scope: Scope, excluded: set<Path>, path: Path): ScanEntry
    requires path in tree
  {
    if tree[path].stat == OBSERVED
    then ScanEntry(scope.scopeId, path, tree[path].kind, tree[path].size, OBSERVED, path != scope.root && Skipped(excluded, path))
    else ScanEntry(scope.scopeId, path, UNKNOWN_OBJECT, 0, tree[path].stat, false)
  }

  function RegularBytes(entries: seq<ScanEntry>): nat {
    if entries == [] then 0
    else RegularBytes(entries[..|entries| - 1]) + CountedBytes(entries[|entries| - 1])
  }

  function CountedBytes(entry: ScanEntry): nat {
    if entry.kind == REGULAR_FILE && entry.status == OBSERVED && !entry.excluded then entry.size else 0
  }

  predicate WithinBytes(budget: Budget, bytes: nat) {
    budget.maxTotalBytes.Some? ==> bytes <= budget.maxTotalBytes.value
  }

  // ------------------------------------------------------------------ one directory

  ghost function EntriesOf(tree: Tree, scope: Scope, excluded: set<Path>, paths: seq<Path>): seq<ScanEntry>
    requires forall i :: 0 <= i < |paths| ==> paths[i] in tree
  {
    seq(|paths|, i requires 0 <= i < |paths| => EntryOf(tree, scope, excluded, paths[i]))
  }

  function Entered(tree: Tree, scope: Scope, excluded: set<Path>, paths: seq<Path>): seq<Path> {
    if paths == [] then []
    else Entered(tree, scope, excluded, paths[..|paths| - 1])
         + (if Enters(tree, scope, excluded, paths[|paths| - 1]) then [paths[|paths| - 1]] else [])
  }

  ghost predicate IsListing(tree: Tree, directory: Path, children: seq<Path>) {
    && (forall p :: p in children <==> p in tree && IsChild(directory, p))
    && (forall i, j :: 0 <= i < j < |children| ==> children[i] != children[j])
  }

  /** `os.scandir`: the children of a directory in an order nobody controls. */
  method ListDirectory(tree: Tree, directory: Path) returns (children: seq<Path>)
    ensures IsListing(tree, directory, children)
  {
    children := [];
    var todo := set path | path in tree.Keys && IsChild(directory, path);
    ghost var all := todo;
    while todo != {}
      invariant todo <= all
      invariant forall path :: path in children <==> path in all && path !in todo
      invariant forall i, j :: 0 <= i < j < |children| ==> children[i] != children[j]
    {
      var path :| path in todo;
      children, todo := children + [path], todo - {path};
    }
  }

  /** What one child adds. */
  ghost predicate Visited(tree: Tree, scope: Scope, excluded: set<Path>, path: Path, walk: Walk, stack: seq<Path>, next: Walk, pushed: seq<Path>)
    requires path in tree
  {
    && next.entries == walk.entries + [EntryOf(tree, scope, excluded, path)]
    && next.bytes == walk.bytes + CountedBytes(EntryOf(tree, scope, excluded, path))
    && pushed == stack + (if Enters(tree, scope, excluded, path) then [path] else [])
  }

  /** This child takes the regular bytes beyond the budget. */
  ghost predicate Overflows(tree: Tree, scope: Scope, excluded: set<Path>, budget: Budget, path: Path, walk: Walk)
    requires path in tree
  {
    && tree[path].stat == OBSERVED && tree[path].kind == REGULAR_FILE && !Skipped(excluded, path)
    && budget.maxTotalBytes.Some? && walk.bytes + tree[path].size > budget.maxTotalBytes.value
  }

  /** The body of the loop over the children of one directory; `stop` is its `break`. */
  method VisitChild(tree: Tree, scope: Scope, excluded: set<Path>, budget: Budget, path: Path, walk: Walk, stack: seq<Path>)
    returns (next: Walk, pushed: seq<Path>, stop: bool)
    requires path in tree && path != scope.root && scope.root in tree
    ensures next.looks == walk.looks && Visited(tree, scope, excluded, path, walk, stack, next, pushed)
    ensures stop <==> Overflows(tree, scope, excluded, budget, path, walk)
    ensures next.partial <==> walk.partial || stop || tree[path].stat != OBSERVED
    ensures !stop && WithinBytes(budget, walk.bytes) ==> WithinBytes(budget, next.bytes)
  {
    var info := tree[path];
    if info.stat != OBSERVED {
      var failed := ScanEntry(scope.scopeId, path, UNKNOWN_OBJECT, 0, info.stat, false);
      return walk.(entries := walk.entries + [failed], partial := true), stack, false;
    }
    var skipped := exists item :: item in excluded && item <= path;
    next := walk.(entries := walk.entries + [ScanEntry(scope.scopeId, path, info.kind, info.size, OBSERVED, skipped)]);
    pushed, stop := stack, false;
    if skipped {
      return;
    }
    if info.kind == REGULAR_FILE {
      next := next.(bytes := next.bytes + info.size);
      if budget.maxTotalBytes.Some? && next.bytes > budget.maxTotalBytes.value {
        return next.(partial := true), stack, true;
      }
    }
    if info.kind == DIRECTORY && (scope.allowCrossMount || info.device == tree[scope.root].device) {
      pushed := stack + [path];
    }
  }

  lemma OneMoreChild(tree: Tree, scope: Scope, excluded: set<Path>, children: seq<Path>, i: nat, before: Walk, stack: seq<Path>,
                     walk: Walk, pushed: seq<Path>, next: Walk, more: seq<Path>)
    requires i < |children| && forall j :: 0 <= j < |children| ==> children[j] in tree
    requires walk.entries == before.entries + EntriesOf(tree, scope, excluded, children[..i])
    requires pushed == stack + Entered(tree, scope, excluded, children[..i]) && walk.bytes == RegularBytes(walk.entries)
    requires Visited(tree, scope, excluded, children[i], walk, pushed, next, more)
    ensures next.entries == before.entries + EntriesOf(tree, scope, excluded, children[..i + 1])
    ensures more == stack + Entered(tree, scope, excluded, children[..i + 1]) && next.bytes == RegularBytes(next.entries)
  {
    assert children[..i + 1][..i] == children[..i];
    assert EntriesOf(tree, scope, excluded, children[..i + 1])
        == EntriesOf(tree, scope, excluded, children[..i]) + [EntryOf(tree, scope, excluded, children[i])];
    assert next.entries[..|next.entries| - 1] == walk.entries;
  }

  /** The reason the children of one directory left the scan partial, after `n` of them. */
  ghost predicate ChildCause(tree: Tree, budget: Budget, late: nat -> bool, children: seq<Path>, n: nat, entries: seq<ScanEntry>, cause: Cause) {
    match cause
    case Expired(look, left) => late(look) && n < |children| && left == children[n]
    case StatFailed(path) => path in children && path in tree && tree[path].stat != OBSERVED
    case Full(left) => |entries| >= budget.maxEntries && n < |children| && left == children[n]
    case BytesExceeded => budget.maxTotalBytes.Some? && RegularBytes(entries) > budget.maxTotalBytes.value
    case _ => false
  }

  lemma {:induction false} BytesGrow(entries: seq<ScanEntry>, more: seq<ScanEntry>)
    requires entries <= more
    ensures RegularBytes(entries) <= RegularBytes(more)
  {
    if entries == more {
    } else {
      BytesGrow(entries, more[..|more| - 1]);
    }
  }

  /** Whatever has made the scan partial so far, the loop goes on after a failed stat only. */
  ghost predicate FailedStat(tree: Tree, children: seq<Path>, cause: Option<Cause>) {
    cause.Some? && cause.value.StatFailed? && cause.value.path in children && cause.value.path in tree && tree[cause.value.path].stat != OBSERVED
  }

  lemma OverflowCause(tree: Tree, scope: Scope, excluded: set<Path>, budget: Budget, late: nat -> bool, children: seq<Path>, i: nat,
                      walk: Walk, stack: seq<Path>, next: Walk, pushed: seq<Path>)
    requires i < |children| && children[i] in tree && walk.bytes == RegularBytes(walk.entries)
    requires Visited(tree, scope, excluded, children[i], walk, stack, next, pushed) && Overflows(tree, scope, excluded, budget, children[i], walk)
    ensures ChildCause(tree, budget, late, children, i + 1, next.entries, BytesExceeded)
  {
    assert next.entries[..|next.entries| - 1] == walk.entries;
  }

  /** The loop over the children of one directory: append the entries of the first `n`, collect directories
      to enter. Without a cause to stop it gets to the end. */
  method VisitChildren(tree: Tree, scope: Scope, excluded: set<Path>, budget: Budget, late: nat -> bool, children: seq<Path>,
                       walk: Walk, stack: seq<Path>) returns (next: Walk, pushed: seq<Path>, ghost n: nat, ghost cause: Option<Cause>)
    requires forall i :: 0 <= i < |children| ==> children[i] in tree && children[i] != scope.root
    requires scope.root in tree && !walk.partial && WithinBytes(budget, walk.bytes) && walk.bytes == RegularBytes(walk.entries)
    ensures n <= |children| && next.entries == walk.entries + EntriesOf(tree, scope, excluded, children[..n])
    ensures |next.entries| <= if |walk.entries| > budget.maxEntries then |walk.entries| else budget.maxEntries
    ensures !next.partial ==> n == |children| && forall i :: 0 <= i < |children| ==> tree[children[i]].stat == OBSERVED
    ensures !next.partial ==> pushed == stack + Entered(tree, scope, excluded, children)
    ensures !next.partial ==> WithinBytes(budget, next.bytes) && next.bytes == RegularBytes(next.entries)
    ensures !next.partial ==> next.looks == walk.looks + |children| && forall look :: walk.looks <= look < next.looks ==> !late(look)
    ensures next.partial ==> cause.Some? && ChildCause(tree, budget, late, children, n, next.entries, cause.value)
  {
    hide Visited, Enters, RegularBytes, WithinBytes, Entered, Overflows;
    next, pushed, n, cause := walk, stack, 0, None;
    assert children[..0] == [] && EntriesOf(tree, scope, excluded, []) == [];
    EnteredNothing(tree, scope, excluded);
    for i := 0 to |children|
      invariant n == i && next.entries == walk.entries + EntriesOf(tree, scope, excluded, children[..i])
      invariant |next.entries| <= if |walk.entries| > budget.maxEntries then |walk.entries| else budget.maxEntries
      invariant pushed == stack + Entered(tree, scope, excluded, children[..i])
      invariant WithinBytes(budget, next.bytes) && next.bytes == RegularBytes(next.entries)
      invariant next.looks == walk.looks + i && forall look :: walk.looks <= look < next.looks ==> !late(look)
      invariant !next.partial ==> forall j :: 0 <= j < i ==> tree[children[j]].stat == OBSERVED
      invariant next.partial ==> FailedStat(tree, children, cause)
    {
      if |next.entries| >= budget.maxEntries {
        cause := if next.partial then cause else Some(Full(children[i]));
        next := next.(partial := true);
        break;
      }
      var expired := late(next.looks);
      if expired {
        cause := if next.partial then cause else Some(Expired(next.looks, children[i]));
        next := next.(partial := true);
        break;
      }
      next := next.(looks := next.looks + 1);
      var after, more, stop := VisitChild(tree, scope, excluded, budget, children[i], next, pushed);
      OneMoreChild(tree, scope, excluded, children, i, walk, stack, next, pushed, after, more);
      if !next.partial && after.partial {
        if stop {
          OverflowCause(tree, scope, excluded, budget, late, children, i, next, pushed, after, more);
        }
        cause := Some(if stop then BytesExceeded else StatFailed(children[i]));
      }
      next, pushed, n := after, more, i + 1;
      if stop {
        break;
      }
    }
    assert children[..|children|] == children;
  }

  lemma EnteredNothing(tree: Tree, scope: Scope, excluded: set<Path>)
    ensures Entered(tree, scope, excluded, []) == []
  {
  }

  // ------------------------------------------------------------------ one scope

  /** The walk of one scope between two directories: `recorded` are the paths it has entries for,
      `popped` the directories it has taken off the stack. */
  ghost predicate Progress(tree: Tree, scope: Scope, excluded: set<Path>, budget: Budget, recorded: set<Path>, stack: seq<Path>, popped: set<Path>) {
    && scope.root in recorded
    && (forall p :: p in recorded ==> Reached(tree, scope, excluded, budget, p))
    && (forall p :: p in recorded && p != scope.root ==> Parent(p) in popped)
    && popped <= recorded
    && (forall i :: 0 <= i < |stack| ==> stack[i] in recorded && stack[i] !in popped && Open(tree, scope, excluded, stack[i]))
    && (forall i, j :: 0 <= i < j < |stack| ==> stack[i] != stack[j])
    && (forall p :: p in recorded && Open(tree, scope, excluded, p) ==> p in popped || p in stack)
    && (forall p :: p in tree && p != [] && Parent(p) in popped && scope.root <= Parent(p) && WithinDepth(scope, budget, p) ==> p in recorded)
    && (forall p :: p in popped ==> Open(tree, scope, excluded, p))
  }

  /** The root is always listed, whatever kind or exclusion it has; below it only entered directories are. */
  predicate Open(tree: Tree, scope: Scope, excluded: set<Path>, path: Path) {
    path == scope.root || Enters(tree, scope, excluded, path)
  }

  lemma ProgressBegins(tree: Tree, scope: Scope, excluded: set<Path>, budget: Budget)
    requires scope.root in tree
    ensures Progress(tree, scope, excluded, budget, {scope.root}, [scope.root], {})
  {
  }

  /** A path whose parent is reached and open is reached itself, if it is not too deep. */
  lemma ChildIsReached(tree: Tree, scope: Scope, excluded: set<Path>, budget: Budget, directory: Path, path: Path)
    requires Reached(tree, scope, excluded, budget, directory) && Open(tree, scope, excluded, directory)
    requires path in tree && IsChild(directory, path) && WithinDepth(scope, budget, path)
    ensures Reached(tree, scope, excluded, budget, path)
  {
    forall k | |scope.root| < k < |path| ensures Enters(tree, scope, excluded, path[..k]) {
      assert path[..k] == directory[..k];
      if k == |directory| {
        assert directory[..k] == directory && directory != scope.root;
      }
    }
  }

  lemma {:induction false} EnteredFacts(tree: Tree, scope: Scope, excluded: set<Path>, paths: seq<Path>)
    requires forall i, j :: 0 <= i < j < |paths| ==> paths[i] != paths[j]
    ensures forall p :: p in Entered(tree, scope, excluded, paths) <==> p in paths && Enters(tree, scope, excluded, p)
    ensures forall i, j :: 0 <= i < j < |Entered(tree, scope, excluded, paths)| ==>
              Entered(tree, scope, excluded, paths)[i] != Entered(tree, scope, excluded, paths)[j]
  {
    if paths != [] {
      var prefix, last := paths[..|paths| - 1], paths[|paths| - 1];
      EnteredFacts(tree, scope, excluded, prefix);
      assert last !in prefix;
      assert forall p :: p in paths <==> p in prefix || p == last;
    }
  }

  function Members(paths: seq<Path>): set<Path> {
    set p | p in paths
  }

  /** No child of a directory that is still on the stack has an entry yet. */
  lemma ChildrenAreNew(tree: Tree, scope: Scope, excluded: set<Path>, budget: Budget,
                       recorded: set<Path>, rest: seq<Path>, directory: Path, popped: set<Path>, children: seq<Path>)
    requires Progress(tree, scope, excluded, budget, recorded, rest + [directory], popped) && IsListing(tree, directory, children)
    requires Shallow(scope, budget, directory)
    ensures directory in recorded && directory !in popped && directory !in rest && Open(tree, scope, excluded, directory)
    ensures scope.root <= directory
    ensures forall i :: 0 <= i < |rest| ==> rest[i] in recorded && rest[i] !in popped && Open(tree, scope, excluded, rest[i])
    ensures forall i, j :: 0 <= i < j < |rest| ==> rest[i] != rest[j]
    ensures forall p :: p in children ==>
              && p !in recorded && p != scope.root && p != [] && Parent(p) == directory
              && Reached(tree, scope, excluded, budget, p)
  {
    var stack := rest + [directory];
    assert stack[|rest|] == directory;
    assert forall i :: 0 <= i < |rest| ==> rest[i] == stack[i];
    forall p | p in children
      ensures p !in recorded && p != scope.root && p != [] && Parent(p) == directory && Reached(tree, scope, excluded, budget, p)
    {
      assert IsChild(directory, p);
      assert Parent(p) == directory;
      ChildIsReached(tree, scope, excluded, budget, directory, p);
    }
  }

  /** Distinct paths of the tree below the root, none of them recorded yet. */
  predicate FreshChildren(tree: Tree, scope: Scope, recorded: set<Path>, children: seq<Path>) {
    && (forall i :: 0 <= i < |children| ==> children[i] in tree && children[i] !in recorded && children[i] != scope.root)
    && (forall i, j :: 0 <= i < j < |children| ==> children[i] != children[j])
  }

  lemma ChildrenAreFresh(tree: Tree, scope: Scope, excluded: set<Path>, budget: Budget,
                         recorded: set<Path>, rest: seq<Path>, directory: Path, popped: set<Path>, children: seq<Path>)
    requires Progress(tree, scope, excluded, budget, recorded, rest + [directory], popped) && IsListing(tree, directory, children)
    requires Shallow(scope, budget, directory)
    ensures FreshChildren(tree, scope, recorded, children)
    ensures forall p :: p in children ==> Reached(tree, scope, excluded, budget, p)
  {
    ChildrenAreNew(tree, scope, excluded, budget, recorded, rest, directory, popped, children);
    hide Progress, Reached, Open;
    forall i | 0 <= i < |children| ensures children[i] in tree && children[i] !in recorded && children[i] != scope.root {
      assert children[i] in children;
    }
  }

  lemma ListedStack(tree: Tree, scope: Scope, excluded: set<Path>, recorded: set<Path>, rest: seq<Path>, directory: Path,
                    popped: set<Path>, children: seq<Path>, entered: seq<Path>)
    requires forall i :: 0 <= i < |rest| ==> rest[i] in recorded && rest[i] !in popped && Open(tree, scope, excluded, rest[i])
    requires forall i, j :: 0 <= i < j < |rest| ==> rest[i] != rest[j]
    requires directory in recorded && directory !in rest && popped <= recorded
    requires forall p :: p in children ==> p !in recorded
    requires forall p :: p in entered <==> p in children && Enters(tree, scope, excluded, p)
    requires forall i, j :: 0 <= i < j < |entered| ==> entered[i] != entered[j]
    ensures var next := rest + entered;
            && (forall i :: 0 <= i < |next| ==>
                  next[i] in recorded + Members(children) && next[i] !in popped + {directory} && Open(tree, scope, excluded, next[i]))
            && (forall i, j :: 0 <= i < j < |next| ==> next[i] != next[j])
  {
    hide Enters;
    var next := rest + entered;
    forall i | 0 <= i < |next|
      ensures next[i] in recorded + Members(children) && next[i] !in popped + {directory} && Open(tree, scope, excluded, next[i])
    {
      if i < |rest| {
        assert next[i] == rest[i];
      } else {
        assert next[i] == entered[i - |rest|] && next[i] in entered;
      }
    }
    forall i, j | 0 <= i < j < |next| ensures next[i] != next[j] {
      if j >= |rest| {
        assert next[j] in entered;
      }
    }
  }

  /** Taking a directory off the stack and recording all its children keeps the walk on course. */
  lemma ListedDirectory(tree: Tree, scope: Scope, excluded: set<Path>, budget: Budget,
                        recorded: set<Path>, rest: seq<Path>, directory: Path, popped: set<Path>, children: seq<Path>)
    requires Progress(tree, scope, excluded, budget, recorded, rest + [directory], popped) && IsListing(tree, directory, children)
    requires Shallow(scope, budget, directory)
    ensures forall p :: p in children ==> p !in recorded
    ensures Progress(tree, scope, excluded, budget, recorded + Members(children), rest + Entered(tree, scope, excluded, children), popped + {directory})
  {
    var entered := Entered(tree, scope, excluded, children);
    EnteredFacts(tree, scope, excluded, children);
    ChildrenAreNew(tree, scope, excluded, budget, recorded, rest, directory, popped, children);
    ListedStack(tree, scope, excluded, recorded, rest, directory, popped, children, entered);
    hide Reached, Enters, Entered, WithinDepth;
    var next, recorded' := rest + entered, recorded + Members(children);
    forall p | p in recorded' && Open(tree, scope, excluded, p) ensures p in popped + {directory} || p in next {
      if p in children {
        assert p in entered;
      } else {
        assert p in rest + [directory] || p in popped;
      }
    }
    forall p | p in tree && p != [] && Parent(p) in popped + {directory} && scope.root <= Parent(p) && WithinDepth(scope, budget, p)
      ensures p in recorded'
    {
      if Parent(p) == directory {
        assert IsChild(directory, p);
      }
    }
  }

  /** A directory at the depth limit is taken off the stack without being listed. */
  lemma TooDeepDirectory(tree: Tree, scope: Scope, excluded: set<Path>, budget: Budget,
                         recorded: set<Path>, rest: seq<Path>, directory: Path, popped: set<Path>)
    requires Progress(tree, scope, excluded, budget, recorded, rest + [directory], popped)
    requires !Shallow(scope, budget, directory)
    ensures Progress(tree, scope, excluded, budget, recorded, rest, popped + {directory})
  {
    var stack := rest + [directory];
    assert stack[|rest|] == directory;
    assert forall i :: 0 <= i < |rest| ==> rest[i] == stack[i];
    hide Reached, Open, WithinDepth;
    forall p | p in recorded && Open(tree, scope, excluded, p) ensures p in popped + {directory} || p in rest {
      if p !in popped && p != directory {
        var k :| 0 <= k < |stack| && stack[k] == p;
        assert rest[k] == p;
      }
    }
  }

  lemma TooDeepIsHealthy(tree: Tree, scope: Scope, budget: Budget, recorded: set<Path>, popped: set<Path>, directory: Path)
    requires !Shallow(scope, budget, directory) && Healthy(tree, scope, budget, recorded, popped)
    ensures Healthy(tree, scope, budget, recorded, popped + {directory})
  {
  }

  /** With an empty stack, the recorded paths are all reached ones. */
  lemma {:induction false} EmptyStackIsComplete(tree: Tree, scope: Scope, excluded: set<Path>, budget: Budget,
                                                recorded: set<Path>, popped: set<Path>, path: Path)
    requires Progress(tree, scope, excluded, budget, recorded, [], popped)
    requires Reached(tree, scope, excluded, budget, path)
    ensures path in recorded
    decreases |path|
  {
    if path != scope.root {
      assert |path| != |scope.root|;
      var parent := Parent(path);
      assert forall k :: 0 <= k <= |parent| ==> parent[..k] == path[..k];
      assert scope.root <= parent;
      if |parent| > |scope.root| {
        assert path[..|parent|] == parent;
      } else {
        assert parent == scope.root;
      }
      EmptyStackIsComplete(tree, scope, excluded, budget, recorded, popped, parent);
      if |parent| == |scope.root| {
        assert parent == scope.root;
      } else {
        assert path[..|parent|] == parent;
      }
      assert parent in popped;
    }
  }

  /** The entries of one scope are exactly those of `recorded`, each once and with its true content. */
  ghost predicate Records(tree: Tree, scope: Scope, excluded: set<Path>, entries: seq<ScanEntry>, recorded: set<Path>) {
    && (forall i :: 0 <= i < |entries| ==>
          entries[i].path in recorded && entries[i].path in tree && entries[i] == EntryOf(tree, scope, excluded, entries[i].path))
    && (forall p :: p in recorded ==> p in tree && EntryOf(tree, scope, excluded, p) in entries)
    && (forall i, j :: 0 <= i < j < |entries| ==> entries[i].path != entries[j].path)
  }

  lemma RecordsGrow(tree: Tree, scope: Scope, excluded: set<Path>, entries: seq<ScanEntry>, recorded: set<Path>, children: seq<Path>)
    requires Records(tree, scope, excluded, entries, recorded) && FreshChildren(tree, scope, recorded, children)
    ensures Records(tree, scope, excluded, entries + EntriesOf(tree, scope, excluded, children), recorded + Members(children))
  {
    var more := EntriesOf(tree, scope, excluded, children);
    forall p | p in recorded + Members(children) ensures p in tree && EntryOf(tree, scope, excluded, p) in entries + more {
      if p in children {
        var k :| 0 <= k < |children| && children[k] == p;
        assert more[k] == EntryOf(tree, scope, excluded, p);
      }
    }
  }

  ghost predicate AllReached(tree: Tree, scope: Scope, excluded: set<Path>, budget: Budget, recorded: set<Path>) {
    forall p :: p in recorded <==> Reached(tree, scope, excluded, budget, p)
  }

  ghost predicate AreReached(tree: Tree, scope: Scope, excluded: set<Path>, budget: Budget, recorded: set<Path>) {
    forall p :: p in recorded ==> Reached(tree, scope, excluded, budget, p)
  }

  /** Whatever stopped it, an observation of one scope is true: distinct reached paths, each with its entry. */
  ghost predicate ScopeSound(tree: Tree, scope: Scope, excluded: set<Path>, budget: Budget, entries: seq<ScanEntry>) {
    exists recorded: set<Path> ::
      Records(tree, scope, excluded, entries, recorded) && AreReached(tree, scope, excluded, budget, recorded)
  }

  /** Nothing went wrong with these paths. */
  ghost predicate Healthy(tree: Tree, scope: Scope, budget: Budget, recorded: set<Path>, popped: set<Path>) {
    && (forall p :: p in recorded ==> p in tree && tree[p].stat == OBSERVED)
    && (forall p :: p in popped && Shallow(scope, budget, p) ==> p in tree && tree[p].listable)
  }

  /** Above the depth at which directories are no longer listed. */
  predicate Shallow(scope: Scope, budget: Budget, path: Path) {
    budget.maxDepth.Some? ==> |path| - |scope.root| < budget.maxDepth.value
  }

  /** Nothing can go wrong with this scope: all that a scan has to look at can be read. */
  ghost predicate ScopeClean(tree: Tree, scope: Scope, excluded: set<Path>, budget: Budget) {
    && scope.root in tree && tree[scope.root].kind == DIRECTORY
    && forall p :: Reached(tree, scope, excluded, budget, p) ==>
         tree[p].stat == OBSERVED && (Open(tree, scope, excluded, p) && Shallow(scope, budget, p) ==> tree[p].listable)
  }

  /** A complete observation of one scope. */
  ghost predicate ScopeComplete(tree: Tree, scope: Scope, excluded: set<Path>, budget: Budget, entries: seq<ScanEntry>) {
    exists recorded: set<Path> ::
      Records(tree, scope, excluded, entries, recorded) && AllReached(tree, scope, excluded, budget, recorded)
  }

  /** The reason a scope left the scan partial: each is a fact about the tree, the clock or a budget. */
  ghost predicate ScopeCause(tree: Tree, scope: Scope, excluded: set<Path>, budget: Budget, late: nat -> bool, entries: seq<ScanEntry>, cause: Cause) {
    match cause
    case Expired(look, left) => late(look) && Reached(tree, scope, excluded, budget, left)
    case RootUnavailable => scope.root !in tree || tree[scope.root].kind != DIRECTORY || tree[scope.root].stat != OBSERVED
    case Unlistable(path) =>
      Reached(tree, scope, excluded, budget, path) && Open(tree, scope, excluded, path) && Shallow(scope, budget, path) && !tree[path].listable
    case StatFailed(path) => Reached(tree, scope, excluded, budget, path) && tree[path].stat != OBSERVED
    case Full(left) => |entries| >= budget.maxEntries && Reached(tree, scope, excluded, budget, left)
    case BytesExceeded => budget.maxTotalBytes.Some? && RegularBytes(entries) > budget.maxTotalBytes.value
  }

  /** The path a budget left out has no entry. */
  ghost predicate LeftOut(entries: seq<ScanEntry>, cause: Cause) {
    cause.Expired? || cause.Full? ==> forall i :: 0 <= i < |entries| ==> entries[i].path != cause.left
  }

  lemma ScopeCauseStays(tree: Tree, scope: Scope, excluded: set<Path>, budget: Budget, late: nat -> bool, entries: seq<ScanEntry>, more: seq<ScanEntry>, cause: Cause)
    requires ScopeCause(tree, scope, excluded, budget, late, entries, cause) && entries <= more
    ensures ScopeCause(tree, scope, excluded, budget, late, more, cause)
  {
    BytesGrow(entries, more);
  }

  /** The body of the loop over scopes. */
  method ScanScope(tree: Tree, scope: Scope, excluded: set<Path>, budget: Budget, late: nat -> bool, walk: Walk)
    returns (next: Walk, ghost cause: Option<Cause>)
    requires walk.partial || (WithinBytes(budget, walk.bytes) && walk.bytes == RegularBytes(walk.entries))
    ensures walk.entries <= next.entries && (walk.partial ==> next.partial)
    ensures ScopeSound(tree, scope, excluded, budget, next.entries[|walk.entries|..])
    ensures |next.entries| <= |walk.entries| + |tree|
    ensures |next.entries| <= if |walk.entries| + 1 > budget.maxEntries then |walk.entries| + 1 else budget.maxEntries
    ensures !next.partial ==> ScopeComplete(tree, scope, excluded, budget, next.entries[|walk.entries|..]) && ScopeClean(tree, scope, excluded, budget)
    ensures !next.partial ==> WithinBytes(budget, next.bytes) && next.bytes == RegularBytes(next.entries)
    ensures !next.partial ==> LooksAt(late, walk.looks, next.looks, |next.entries| - |walk.entries| - 1)
    ensures !walk.partial && next.partial ==>
              && cause.Some? && ScopeCause(tree, scope, excluded, budget, late, next.entries, cause.value)
              && LeftOut(next.entries[|walk.entries|..], cause.value)
  {
    hide Enters, Open, Reached, RegularBytes, WithinBytes, ScopeComplete, ScopeSound, ScopeClean, LooksAt, Skipped;
    cause := Some(RootUnavailable);
    if scope.root !in tree || tree[scope.root].kind != DIRECTORY {
      RecordsNothing(tree, scope, excluded, budget);
      assert walk.entries[|walk.entries|..] == [];
      return walk.(partial := true), cause;
    }
    AtLeastOne(tree.Keys, scope.root);
    var info := tree[scope.root];
    var first := if info.stat == OBSERVED then ScanEntry(scope.scopeId, scope.root, info.kind, info.size, OBSERVED, false)
                 else ScanEntry(scope.scopeId, scope.root, UNKNOWN_OBJECT, 0, info.stat, false);
    assert first == EntryOf(tree, scope, excluded, scope.root);
    next := walk.(entries := walk.entries + [first]);
    RootAdded(walk, first, budget);
    RecordsRoot(tree, scope, excluded, budget, next.entries[|walk.entries|..]);
    if info.stat != OBSERVED {
      next := next.(partial := true);
      return;
    }
    if !next.partial {
      next, cause := WalkScope(tree, scope, excluded, budget, late, next, |walk.entries|);
    }
  }

  /** A directory or a failed stat adds no regular bytes. */
  lemma RootAdded(walk: Walk, first: ScanEntry, budget: Budget)
    requires first.kind != REGULAR_FILE
    ensures walk.bytes == RegularBytes(walk.entries) ==> walk.bytes == RegularBytes(walk.entries + [first])
  {
    assert (walk.entries + [first])[..|walk.entries|] == walk.entries;
  }

  /** Every one of the `n` looks at the clock between two moments found time left. */
  ghost predicate LooksAt(late: nat -> bool, from: nat, to: nat, n: int) {
    to == from + n && forall look :: from <= look < to ==> !late(look)
  }

  lemma LooksAdd(late: nat -> bool, a: nat, b: nat, c: nat, m: int, n: int)
    requires LooksAt(late, a, b, m) && LooksAt(late, b, c, n)
    ensures LooksAt(late, a, c, m + n)
  {
  }

  lemma RecordsNothing(tree: Tree, scope: Scope, excluded: set<Path>, budget: Budget)
    ensures ScopeSound(tree, scope, excluded, budget, [])
  {
    assert Records(tree, scope, excluded, [], {});
  }

  lemma RecordsRoot(tree: Tree, scope: Scope, excluded: set<Path>, budget: Budget, entries: seq<ScanEntry>)
    requires scope.root in tree && |entries| == 1 && entries[0] == EntryOf(tree, scope, excluded, scope.root)
    ensures ScopeSound(tree, scope, excluded, budget, entries)
  {
    RecordsBegin(tree, scope, excluded, entries);
  }

  /** The stack of one scope, driven until it is empty or the scan is partial. */
  method WalkScope(tree: Tree, scope: Scope, excluded: set<Path>, budget: Budget, late: nat -> bool, walk: Walk, ghost start: nat)
    returns (next: Walk, ghost cause: Option<Cause>)
    requires scope.root in tree && !walk.partial && WithinBytes(budget, walk.bytes) && walk.bytes == RegularBytes(walk.entries)
    requires tree[scope.root].stat == OBSERVED && tree[scope.root].kind == DIRECTORY
    requires start + 1 == |walk.entries| && walk.entries[start] == EntryOf(tree, scope, excluded, scope.root)
    ensures walk.entries <= next.entries && |next.entries| <= start + |tree|
    ensures ScopeSound(tree, scope, excluded, budget, next.entries[start..])
    ensures |next.entries| <= if |walk.entries| > budget.maxEntries then |walk.entries| else budget.maxEntries
    ensures !next.partial ==> ScopeComplete(tree, scope, excluded, budget, next.entries[start..]) && ScopeClean(tree, scope, excluded, budget)
    ensures !next.partial ==> WithinBytes(budget, next.bytes) && next.bytes == RegularBytes(next.entries)
    ensures !next.partial ==> LooksAt(late, walk.looks, next.looks, |next.entries| - |walk.entries|)
    ensures next.partial ==>
              && cause.Some? && ScopeCause(tree, scope, excluded, budget, late, next.entries, cause.value)
              && LeftOut(next.entries[start..], cause.value)
  {
    hide Enters, Entered, Reached, Progress, Records, RegularBytes, ScopeComplete, ScopeSound, ScopeClean, WithinBytes, EntryOf, ScopeCause, LeftOut, ChildCause, Open, Healthy, LooksAt;
    next, cause := walk, None;
    var stack := [scope.root];
    ghost var recorded, popped := {scope.root}, {};
    ProgressBegins(tree, scope, excluded, budget);
    HealthyBegins(tree, scope, excluded, budget, late, walk);
    RecordsBegin(tree, scope, excluded, walk.entries[start..]);
    assert walk.entries[start..] == [walk.entries[start]];
    AtLeastOne(tree.Keys, scope.root);
    while stack != [] && !next.partial
      invariant walk.entries <= next.entries
      invariant |next.entries| <= if |walk.entries| > budget.maxEntries then |walk.entries| else budget.maxEntries
      invariant !next.partial ==> WithinBytes(budget, next.bytes) && next.bytes == RegularBytes(next.entries)
      invariant !next.partial ==> Progress(tree, scope, excluded, budget, recorded, stack, popped) && Healthy(tree, scope, budget, recorded, popped)
      invariant !next.partial ==> LooksAt(late, walk.looks, next.looks, |next.entries| - |walk.entries|)
      invariant Records(tree, scope, excluded, next.entries[start..], recorded) && AreReached(tree, scope, excluded, budget, recorded)
      invariant next.partial ==>
                  && cause.Some? && ScopeCause(tree, scope, excluded, budget, late, next.entries, cause.value)
                  && LeftOut(next.entries[start..], cause.value)
      invariant popped <= tree.Keys && start + 1 <= |next.entries| <= start + |tree|
      decreases !next.partial, tree.Keys - popped
    {
      var directory, rest := stack[|stack| - 1], stack[..|stack| - 1];
      assert stack == rest + [directory];
      TopOfStack(tree, scope, excluded, budget, recorded, rest, directory, popped);
      stack := rest;
      if budget.maxDepth.Some? && |directory| - |scope.root| >= budget.maxDepth.value {
        TooDeepDirectory(tree, scope, excluded, budget, recorded, rest, directory, popped);
        TooDeepIsHealthy(tree, scope, budget, recorded, popped, directory);
        popped := popped + {directory};
        continue;
      }
      ghost var before := next;
      next, stack, cause, recorded := EnterDirectory(tree, scope, excluded, budget, late, directory, rest, next, start, recorded, popped);
      if !next.partial {
        LooksAdd(late, walk.looks, before.looks, next.looks, |before.entries| - |walk.entries|, |next.entries| - |before.entries|);
      }
      popped := popped + {directory};
    }
    SoundSoFar(tree, scope, excluded, budget, next.entries[start..], recorded);
    if !next.partial {
      NothingIsMissing(tree, scope, excluded, budget, next.entries[start..], recorded, popped);
    }
  }

  lemma SoundSoFar(tree: Tree, scope: Scope, excluded: set<Path>, budget: Budget, entries: seq<ScanEntry>, recorded: set<Path>)
    requires Records(tree, scope, excluded, entries, recorded) && AreReached(tree, scope, excluded, budget, recorded)
    ensures ScopeSound(tree, scope, excluded, budget, entries)
  {
    hide Records, Reached;
  }

  lemma HealthyBegins(tree: Tree, scope: Scope, excluded: set<Path>, budget: Budget, late: nat -> bool, walk: Walk)
    requires scope.root in tree && tree[scope.root].stat == OBSERVED
    ensures Healthy(tree, scope, budget, {scope.root}, {}) && AreReached(tree, scope, excluded, budget, {scope.root}) && LooksAt(late, walk.looks, walk.looks, 0)
  {
  }

  /** One directory off the stack: list it and record its children, or fail. */
  method EnterDirectory(tree: Tree, scope: Scope, excluded: set<Path>, budget: Budget, late: nat -> bool, directory: Path, rest: seq<Path>,
                        walk: Walk, ghost start: nat, ghost recorded: set<Path>, ghost popped: set<Path>)
    returns (next: Walk, stack: seq<Path>, ghost cause: Option<Cause>, ghost recorded': set<Path>)
    requires directory in tree && scope.root in tree && start <= |walk.entries|
    requires !walk.partial && WithinBytes(budget, walk.bytes) && walk.bytes == RegularBytes(walk.entries)
    requires Progress(tree, scope, excluded, budget, recorded, rest + [directory], popped) && Healthy(tree, scope, budget, recorded, popped)
    requires Records(tree, scope, excluded, walk.entries[start..], recorded) && AreReached(tree, scope, excluded, budget, recorded)
    requires Shallow(scope, budget, directory)
    ensures walk.entries <= next.entries && |next.entries| <= Max(|walk.entries|, start + |tree|)
    ensures |next.entries| <= if |walk.entries| > budget.maxEntries then |walk.entries| else budget.maxEntries
    ensures !next.partial ==> WithinBytes(budget, next.bytes) && next.bytes == RegularBytes(next.entries)
    ensures !next.partial ==> Progress(tree, scope, excluded, budget, recorded', stack, popped + {directory})
    ensures !next.partial ==> Healthy(tree, scope, budget, recorded', popped + {directory})
    ensures !next.partial ==> LooksAt(late, walk.looks, next.looks, |next.entries| - |walk.entries|)
    ensures Records(tree, scope, excluded, next.entries[start..], recorded') && AreReached(tree, scope, excluded, budget, recorded')
    ensures next.partial ==>
              && cause.Some? && ScopeCause(tree, scope, excluded, budget, late, next.entries, cause.value)
              && LeftOut(next.entries[start..], cause.value)
  {
    hide Enters, Entered, Reached, Progress, Records, RegularBytes, WithinBytes, EntryOf, ScopeCause, LeftOut, ChildCause, Open, IsListing, Members,
         Healthy, LooksAt, AreReached, Shallow;
    recorded' := recorded;
    if !tree[directory].listable {
      UnlistableCause(tree, scope, excluded, budget, late, recorded, rest, directory, popped, walk.entries, start);
      return walk.(partial := true), rest, Some(Unlistable(directory)), recorded;
    }
    var children := ListDirectory(tree, directory);
    ChildrenAreFresh(tree, scope, excluded, budget, recorded, rest, directory, popped, children);
    ListedDirectory(tree, scope, excluded, budget, recorded, rest, directory, popped, children);
    ghost var n;
    next, stack, n, cause := VisitChildren(tree, scope, excluded, budget, late, children, walk, rest);
    FirstAreFresh(tree, scope, excluded, budget, recorded, children, n);
    RecordsGrow(tree, scope, excluded, walk.entries[start..], recorded, children[..n]);
    RoomForChildren(tree, scope, excluded, walk.entries[start..], recorded, children[..n]);
    SuffixGrows(walk.entries, EntriesOf(tree, scope, excluded, children[..n]), start);
    recorded' := recorded + Members(children[..n]);
    if next.partial {
      RaisedCause(tree, scope, excluded, budget, late, children, n, next.entries, cause.value);
      RestIsLeftOut(tree, scope, excluded, budget, late, recorded, children, n, next.entries, start, cause.value);
    } else {
      assert children[..n] == children;
      HealthyChildren(tree, scope, budget, recorded, popped, directory, children);
      LooksAtChildren(late, walk, next, |children|);
    }
  }

  lemma LooksAtChildren(late: nat -> bool, walk: Walk, next: Walk, n: nat)
    requires next.looks == walk.looks + n && forall look :: walk.looks <= look < next.looks ==> !late(look)
    ensures LooksAt(late, walk.looks, next.looks, n)
  {
  }

  lemma HealthyChildren(tree: Tree, scope: Scope, budget: Budget, recorded: set<Path>, popped: set<Path>, directory: Path, children: seq<Path>)
    requires Healthy(tree, scope, budget, recorded, popped) && directory in tree && tree[directory].listable
    requires forall i :: 0 <= i < |children| ==> children[i] in tree && tree[children[i]].stat == OBSERVED
    ensures Healthy(tree, scope, budget, recorded + Members(children), popped + {directory})
  {
  }

  /** The children visited are as new and as reached as all of them. */
  lemma FirstAreFresh(tree: Tree, scope: Scope, excluded: set<Path>, budget: Budget, recorded: set<Path>, children: seq<Path>, n: nat)
    requires FreshChildren(tree, scope, recorded, children) && AreReached(tree, scope, excluded, budget, recorded) && n <= |children|
    requires forall p :: p in children ==> Reached(tree, scope, excluded, budget, p)
    ensures FreshChildren(tree, scope, recorded, children[..n]) && AreReached(tree, scope, excluded, budget, recorded + Members(children[..n]))
  {
    hide Reached;
  }

  lemma RestIsLeftOut(tree: Tree, scope: Scope, excluded: set<Path>, budget: Budget, late: nat -> bool, recorded: set<Path>, children: seq<Path>, n: nat,
                      entries: seq<ScanEntry>, start: nat, cause: Cause)
    requires FreshChildren(tree, scope, recorded, children) && n <= |children| && start <= |entries|
    requires Records(tree, scope, excluded, entries[start..], recorded + Members(children[..n]))
    requires ChildCause(tree, budget, late, children, n, entries, cause)
    ensures LeftOut(entries[start..], cause)
  {
    if cause.Expired? || cause.Full? {
      assert cause.left == children[n];
      assert cause.left !in children[..n];
      hide EntryOf;
    }
  }

  lemma SuffixGrows(entries: seq<ScanEntry>, more: seq<ScanEntry>, start: nat)
    requires start <= |entries|
    ensures (entries + more)[start..] == entries[start..] + more
  {
  }

  function Max(a: nat, b: nat): nat {
    if a < b then b else a
  }

  lemma RaisedCause(tree: Tree, scope: Scope, excluded: set<Path>, budget: Budget, late: nat -> bool, children: seq<Path>, n: nat, entries: seq<ScanEntry>, cause: Cause)
    requires forall p :: p in children ==> Reached(tree, scope, excluded, budget, p)
    requires ChildCause(tree, budget, late, children, n, entries, cause)
    ensures ScopeCause(tree, scope, excluded, budget, late, entries, cause)
  {
  }

  lemma UnlistableCause(tree: Tree, scope: Scope, excluded: set<Path>, budget: Budget, late: nat -> bool,
                        recorded: set<Path>, rest: seq<Path>, directory: Path, popped: set<Path>, entries: seq<ScanEntry>, start: nat)
    requires Progress(tree, scope, excluded, budget, recorded, rest + [directory], popped) && start <= |entries|
    requires directory in tree && !tree[directory].listable && Shallow(scope, budget, directory)
    ensures ScopeCause(tree, scope, excluded, budget, late, entries, Unlistable(directory)) && LeftOut(entries[start..], Unlistable(directory))
  {
    var stack := rest + [directory];
    assert stack[|rest|] == directory;
  }

  lemma AtLeastOne<T>(all: set<T>, x: T)
    requires x in all
    ensures |all| >= 1
  {
    assert |all - {x}| == |all| - 1;
  }

  /** Entries stand for distinct paths, so the tree has room for all of them and for the new children. */
  lemma RoomForChildren(tree: Tree, scope: Scope, excluded: set<Path>, entries: seq<ScanEntry>, recorded: set<Path>, children: seq<Path>)
    requires Records(tree, scope, excluded, entries, recorded) && FreshChildren(tree, scope, recorded, children)
    ensures |entries| + |children| <= |tree|
  {
    var paths := seq(|entries|, i requires 0 <= i < |entries| => entries[i].path) + children;
    DistinctPathsFit(paths, tree.Keys);
  }

  lemma {:induction false} DistinctPathsFit(paths: seq<Path>, all: set<Path>)
    requires (forall i :: 0 <= i < |paths| ==> paths[i] in all) && forall i, j :: 0 <= i < j < |paths| ==> paths[i] != paths[j]
    ensures |paths| <= |all|
  {
    if paths != [] {
      var n := |paths| - 1;
      DistinctPathsFit(paths[..n], all - {paths[n]});
    }
  }

  lemma RecordsBegin(tree: Tree, scope: Scope, excluded: set<Path>, entries: seq<ScanEntry>)
    requires scope.root in tree && |entries| == 1 && entries[0] == EntryOf(tree, scope, excluded, scope.root)
    ensures Records(tree, scope, excluded, entries, {scope.root})
  {
  }

  lemma TopOfStack(tree: Tree, scope: Scope, excluded: set<Path>, budget: Budget,
                   recorded: set<Path>, rest: seq<Path>, directory: Path, popped: set<Path>)
    requires Progress(tree, scope, excluded, budget, recorded, rest + [directory], popped)
    ensures directory in tree && directory !in popped && scope.root <= directory
  {
    assert (rest + [directory])[|rest|] == directory;
  }

  lemma NothingIsMissing(tree: Tree, scope: Scope, excluded: set<Path>, budget: Budget, entries: seq<ScanEntry>,
                         recorded: set<Path>, popped: set<Path>)
    requires scope.root in tree && Progress(tree, scope, excluded, budget, recorded, [], popped)
    requires Records(tree, scope, excluded, entries, recorded) && Healthy(tree, scope, budget, recorded, popped)
    requires tree[scope.root].kind == DIRECTORY
    ensures ScopeComplete(tree, scope, excluded, budget, entries) && ScopeClean(tree, scope, excluded, budget)
  {
    forall p | Reached(tree, scope, excluded, budget, p) ensures p in recorded {
      EmptyStackIsComplete(tree, scope, excluded, budget, recorded, popped, p);
    }
  }

  // ------------------------------------------------------------------ the whole scan

  predicate UniqueScopes(scopes: seq<Scope>) {
    forall i, j :: 0 <= i < j < |scopes| ==> scopes[i].scopeId != scopes[j].scopeId
  }

  /** Scopes are picked from a dictionary by identifier, so one identifier means one scope. */
  predicate ById(scopes: seq<Scope>) {
    forall i, j :: 0 <= i < j < |scopes| && scopes[i].scopeId == scopes[j].scopeId ==> scopes[i] == scopes[j]
  }

  /** The entries a complete scan must consist of. */
  ghost predicate Wanted(tree: Tree, scopes: seq<Scope>, excluded: set<Path>, budget: Budget, entry: ScanEntry) {
    exists k :: 0 <= k < |scopes| && WantedIn(tree, scopes[k], excluded, budget, entry)
  }

  ghost predicate WantedIn(tree: Tree, scope: Scope, excluded: set<Path>, budget: Budget, entry: ScanEntry) {
    Reached(tree, scope, excluded, budget, entry.path) && entry == EntryOf(tree, scope, excluded, entry.path)
  }

  lemma ScopeEntries(tree: Tree, scope: Scope, excluded: set<Path>, budget: Budget, entries: seq<ScanEntry>)
    requires ScopeComplete(tree, scope, excluded, budget, entries)
    ensures forall e :: e in entries <==> WantedIn(tree, scope, excluded, budget, e)
    ensures forall i :: 0 <= i < |entries| ==> entries[i].scopeId == scope.scopeId
    ensures Ordering.Distinct(entries)
  {
    var recorded :| Records(tree, scope, excluded, entries, recorded) && AllReached(tree, scope, excluded, budget, recorded);
    hide Reached;
    forall e | WantedIn(tree, scope, excluded, budget, e) ensures e in entries {
      assert e.path in recorded;
    }
  }

  lemma SoundEntries(tree: Tree, scope: Scope, excluded: set<Path>, budget: Budget, entries: seq<ScanEntry>)
    requires ScopeSound(tree, scope, excluded, budget, entries)
    ensures forall e :: e in entries ==> WantedIn(tree, scope, excluded, budget, e)
    ensures Ordering.Distinct(entries)
  {
    var recorded :| Records(tree, scope, excluded, entries, recorded) && AreReached(tree, scope, excluded, budget, recorded);
    hide Reached;
  }

  /** How many of the scopes want this entry. */
  ghost function Times(tree: Tree, scopes: seq<Scope>, excluded: set<Path>, budget: Budget, entry: ScanEntry): nat {
    if scopes == [] then 0
    else Times(tree, scopes[..|scopes| - 1], excluded, budget, entry)
         + if WantedIn(tree, scopes[|scopes| - 1], excluded, budget, entry) then 1 else 0
  }

  lemma {:induction false} TimesWanted(tree: Tree, scopes: seq<Scope>, excluded: set<Path>, budget: Budget, entry: ScanEntry)
    ensures Times(tree, scopes, excluded, budget, entry) > 0 <==> Wanted(tree, scopes, excluded, budget, entry)
  {
    if scopes != [] {
      var n := |scopes| - 1;
      TimesWanted(tree, scopes[..n], excluded, budget, entry);
      if Wanted(tree, scopes[..n], excluded, budget, entry) {
        var k :| 0 <= k < n && WantedIn(tree, scopes[..n][k], excluded, budget, entry);
        assert scopes[k] == scopes[..n][k];
      }
      if Wanted(tree, scopes, excluded, budget, entry) && !WantedIn(tree, scopes[n], excluded, budget, entry) {
        var k :| 0 <= k < |scopes| && WantedIn(tree, scopes[k], excluded, budget, entry);
        assert scopes[..n][k] == scopes[k];
      }
    }
  }

  lemma {:induction false} TimesOnce(tree: Tree, scopes: seq<Scope>, excluded: set<Path>, budget: Budget, entry: ScanEntry)
    requires UniqueScopes(scopes)
    ensures Times(tree, scopes, excluded, budget, entry) <= 1
  {
    if scopes != [] {
      var n := |scopes| - 1;
      TimesOnce(tree, scopes[..n], excluded, budget, entry);
      TimesWanted(tree, scopes[..n], excluded, budget, entry);
      if Wanted(tree, scopes[..n], excluded, budget, entry) {
        var k :| 0 <= k < n && WantedIn(tree, scopes[..n][k], excluded, budget, entry);
        assert entry.scopeId == scopes[k].scopeId;
      }
    }
  }

  lemma {:induction false} TimesTwice(tree: Tree, scopes: seq<Scope>, excluded: set<Path>, budget: Budget, entry: ScanEntry, i: nat, j: nat)
    requires i < j < |scopes| && WantedIn(tree, scopes[i], excluded, budget, entry) && WantedIn(tree, scopes[j], excluded, budget, entry)
    ensures Times(tree, scopes, excluded, budget, entry) >= 2
  {
    var n := |scopes| - 1;
    if j < n {
      TimesTwice(tree, scopes[..n], excluded, budget, entry, i, j);
    } else {
      assert scopes[..n][i] == scopes[i];
      TimesWanted(tree, scopes[..n], excluded, budget, entry);
    }
  }

  /** A complete observation holds every entry as often as scopes want it. */
  ghost predicate Complete(tree: Tree, scopes: seq<Scope>, excluded: set<Path>, budget: Budget, entries: seq<ScanEntry>) {
    forall e :: multiset(entries)[e] == Times(tree, scopes, excluded, budget, e)
  }

  /** Whatever an observation holds, it holds no more often than scopes want it. */
  ghost predicate Sound(tree: Tree, scopes: seq<Scope>, excluded: set<Path>, budget: Budget, entries: seq<ScanEntry>) {
    forall e :: multiset(entries)[e] <= Times(tree, scopes, excluded, budget, e)
  }

  /** An entry some scope wants is not there as often as it should be. */
  ghost predicate Missing(tree: Tree, scopes: seq<Scope>, excluded: set<Path>, budget: Budget, entries: seq<ScanEntry>, e: ScanEntry) {
    multiset(entries)[e] < Times(tree, scopes, excluded, budget, e)
  }

  /** The path a budget left out is missing. */
  ghost predicate LeftIsMissing(tree: Tree, scopes: seq<Scope>, excluded: set<Path>, budget: Budget, entries: seq<ScanEntry>, scope: Scope, cause: Cause) {
    cause.Expired? || cause.Full? ==> cause.left in tree && Missing(tree, scopes, excluded, budget, entries, EntryOf(tree, scope, excluded, cause.left))
  }

  lemma SoundScope(tree: Tree, scopes: seq<Scope>, excluded: set<Path>, budget: Budget, scope: Scope, entries: seq<ScanEntry>, added: seq<ScanEntry>)
    requires Sound(tree, scopes, excluded, budget, entries) && ScopeSound(tree, scope, excluded, budget, added)
    ensures Sound(tree, scopes + [scope], excluded, budget, entries + added)
    ensures forall e :: Missing(tree, scopes, excluded, budget, entries, e) ==> Missing(tree, scopes + [scope], excluded, budget, entries + added, e)
    ensures forall e :: e !in added && WantedIn(tree, scope, excluded, budget, e) ==> Missing(tree, scopes + [scope], excluded, budget, entries + added, e)
  {
    SoundEntries(tree, scope, excluded, budget, added);
    Ordering.DistinctCounts(added);
    hide WantedIn, ScopeSound;
    assert (scopes + [scope])[..|scopes|] == scopes;
    forall e
      ensures multiset(entries + added)[e] == multiset(entries)[e] + (if e in added then 1 else 0)
      ensures Times(tree, scopes + [scope], excluded, budget, e)
           == Times(tree, scopes, excluded, budget, e) + if WantedIn(tree, scope, excluded, budget, e) then 1 else 0
      ensures e in added ==> WantedIn(tree, scope, excluded, budget, e)
    {
      assert multiset(added)[e] == if e in added then 1 else 0;
    }
    hide Times;
  }

  lemma LeftIsMissed(tree: Tree, scopes: seq<Scope>, excluded: set<Path>, budget: Budget, late: nat -> bool, scope: Scope,
                     entries: seq<ScanEntry>, added: seq<ScanEntry>, cause: Cause)
    requires Sound(tree, scopes, excluded, budget, entries) && ScopeSound(tree, scope, excluded, budget, added)
    requires ScopeCause(tree, scope, excluded, budget, late, entries + added, cause) && LeftOut(added, cause)
    ensures LeftIsMissing(tree, scopes + [scope], excluded, budget, entries + added, scope, cause)
  {
    SoundScope(tree, scopes, excluded, budget, scope, entries, added);
    hide Sound, ScopeSound, Missing, Reached, RegularBytes;
    if cause.Expired? || cause.Full? {
      var e := EntryOf(tree, scope, excluded, cause.left);
      assert e.path == cause.left;
      assert e !in added;
      assert WantedIn(tree, scope, excluded, budget, e);
    }
  }

  lemma OneMoreScope(tree: Tree, scopes: seq<Scope>, excluded: set<Path>, budget: Budget, scope: Scope, entries: seq<ScanEntry>, added: seq<ScanEntry>)
    requires Complete(tree, scopes, excluded, budget, entries) && ScopeComplete(tree, scope, excluded, budget, added)
    ensures Complete(tree, scopes + [scope], excluded, budget, entries + added)
  {
    ScopeEntries(tree, scope, excluded, budget, added);
    Ordering.DistinctCounts(added);
    assert (scopes + [scope])[..|scopes|] == scopes;
    forall e ensures multiset(entries + added)[e] == Times(tree, scopes + [scope], excluded, budget, e) {
      hide WantedIn, ScopeComplete;
      assert multiset(added)[e] == if e in added then 1 else 0;
    }
  }

  /** A complete observation has the wanted entries, and repeats one exactly when a scope is repeated. */
  lemma CompleteFacts(tree: Tree, scopes: seq<Scope>, excluded: set<Path>, budget: Budget, entries: seq<ScanEntry>)
    requires Complete(tree, scopes, excluded, budget, entries) && forall k :: 0 <= k < |scopes| ==> scopes[k].root in tree
    ensures forall e :: e in entries <==> Wanted(tree, scopes, excluded, budget, e)
    ensures UniqueScopes(scopes) ==> Ordering.Distinct(entries)
    ensures ById(scopes) ==> (Ordering.Distinct(entries) <==> UniqueScopes(scopes))
  {
    hide WantedIn;
    forall e ensures e in entries <==> Wanted(tree, scopes, excluded, budget, e) {
      assert e in entries <==> e in multiset(entries);
      TimesWanted(tree, scopes, excluded, budget, e);
    }
    Ordering.DistinctCounts(entries);
    if UniqueScopes(scopes) {
      forall e ensures multiset(entries)[e] <= 1 {
        TimesOnce(tree, scopes, excluded, budget, e);
      }
    } else if ById(scopes) {
      var i, j :| 0 <= i < j < |scopes| && scopes[i].scopeId == scopes[j].scopeId;
      var root := EntryOf(tree, scopes[i], excluded, scopes[i].root);
      RootIsWanted(tree, scopes[i], excluded, budget);
      TimesTwice(tree, scopes, excluded, budget, root, i, j);
      assert multiset(entries)[root] >= 2;
    }
  }

  lemma RootIsWanted(tree: Tree, scope: Scope, excluded: set<Path>, budget: Budget)
    requires scope.root in tree
    ensures WantedIn(tree, scope, excluded, budget, EntryOf(tree, scope, excluded, scope.root))
  {
  }

  /** The loop over the scopes: at most `max_entries` entries plus one root for every further scope, and
      never more than one entry for each path and scope; unless partial, complete. A partial result has a
      cause: `late` says which looks at the clock find the time used up. */
  method Observe(tree: Tree, scopes: seq<Scope>, excluded: set<Path>, budget: Budget, late: nat -> bool)
    returns (walk: Walk, ghost at: nat, ghost cause: Option<Cause>)
    ensures scopes != [] ==> |walk.entries| <= (if budget.maxEntries == 0 then 1 else budget.maxEntries) + |scopes| - 1
    ensures |walk.entries| <= |scopes| * |tree|
    ensures Sound(tree, scopes, excluded, budget, walk.entries)
    ensures !walk.partial ==> Complete(tree, scopes, excluded, budget, walk.entries)
    ensures !walk.partial ==> forall k :: 0 <= k < |scopes| ==> ScopeClean(tree, scopes[k], excluded, budget)
    ensures !walk.partial ==> WithinBytes(budget, RegularBytes(walk.entries))
    ensures !walk.partial ==> forall look :: 0 <= look < |walk.entries| - |scopes| ==> !late(look)
    ensures walk.partial ==>
              && at < |scopes| && cause.Some? && ScopeCause(tree, scopes[at], excluded, budget, late, walk.entries, cause.value)
              && LeftIsMissing(tree, scopes, excluded, budget, walk.entries, scopes[at], cause.value)
  {
    hide ScopeComplete, ScopeSound, ScopeClean, Reached, EntryOf, RegularBytes, ScopeCause, LeftOut, LeftIsMissing, Complete, Sound, Missing, WithinBytes;
    walk := Walk([], 0, false, 0);
    at, cause := 0, None;
    NothingYet(tree, excluded, budget);
    for k := 0 to |scopes|
      invariant |walk.entries| <= if k == 0 then 0 else (if budget.maxEntries == 0 then 1 else budget.maxEntries) + k - 1
      invariant |walk.entries| <= k * |tree|
      invariant Sound(tree, scopes[..k], excluded, budget, walk.entries)
      invariant !walk.partial ==> WithinBytes(budget, walk.bytes) && walk.bytes == RegularBytes(walk.entries)
      invariant !walk.partial ==> Complete(tree, scopes[..k], excluded, budget, walk.entries)
      invariant !walk.partial ==> forall j :: 0 <= j < k ==> ScopeClean(tree, scopes[j], excluded, budget)
      invariant !walk.partial ==> walk.looks == |walk.entries| - k && forall look :: 0 <= look < walk.looks ==> !late(look)
      invariant walk.partial ==>
                  && at < k && cause.Some? && ScopeCause(tree, scopes[at], excluded, budget, late, walk.entries, cause.value)
                  && LeftIsMissing(tree, scopes[..k], excluded, budget, walk.entries, scopes[at], cause.value)
    {
      var next; ghost var why;
      next, why := ScanScope(tree, scopes[k], excluded, budget, late, walk);
      assert (k + 1) * |tree| == k * |tree| + |tree|;
      ghost var added := next.entries[|walk.entries|..];
      assert next.entries == walk.entries + added && scopes[..k + 1] == scopes[..k] + [scopes[k]];
      SoundScope(tree, scopes[..k], excluded, budget, scopes[k], walk.entries, added);
      if walk.partial {
        ScopeCauseStays(tree, scopes[at], excluded, budget, late, walk.entries, next.entries, cause.value);
        StillMissing(tree, scopes[..k], excluded, budget, scopes[k], walk.entries, added, scopes[at], cause.value);
      } else if next.partial {
        LeftIsMissed(tree, scopes[..k], excluded, budget, late, scopes[k], walk.entries, added, why.value);
        at, cause := k, why;
      } else {
        OneMoreScope(tree, scopes[..k], excluded, budget, scopes[k], walk.entries, added);
      }
      walk := next;
    }
    assert scopes[..|scopes|] == scopes;
  }

  lemma StillMissing(tree: Tree, scopes: seq<Scope>, excluded: set<Path>, budget: Budget, scope: Scope, entries: seq<ScanEntry>, added: seq<ScanEntry>,
                     stopped: Scope, cause: Cause)
    requires Sound(tree, scopes, excluded, budget, entries) && ScopeSound(tree, scope, excluded, budget, added)
    requires LeftIsMissing(tree, scopes, excluded, budget, entries, stopped, cause)
    ensures LeftIsMissing(tree, scopes + [scope], excluded, budget, entries + added, stopped, cause)
  {
    SoundScope(tree, scopes, excluded, budget, scope, entries, added);
    hide Sound, ScopeSound, Missing, EntryOf;
  }

  lemma NothingYet(tree: Tree, excluded: set<Path>, budget: Budget)
    ensures RegularBytes([]) == 0 && WithinBytes(budget, 0)
    ensures Complete(tree, [], excluded, budget, []) && Sound(tree, [], excluded, budget, [])
  {
  }

  // ------------------------------------------------------------------ the published tuple

  type Key = (nat, Path)

  function KeyOf(entry: ScanEntry): Key {
    (entry.scopeId, entry.path)
  }

  lemma {:induction false} BytesWithout(entries: seq<ScanEntry>, k: nat)
    requires k < |entries|
    ensures RegularBytes(entries) == RegularBytes(entries[..k] + entries[k + 1..]) + CountedBytes(entries[k])
  {
    var rest := entries[..k] + entries[k + 1..];
    var shorter := entries[..|entries| - 1];
    if k == |entries| - 1 {
      assert rest == shorter;
    } else {
      BytesWithout(shorter, k);
      assert rest[..|rest| - 1] == shorter[..k] + shorter[k + 1..];
    }
  }

  lemma {:induction false} BytesPermute(a: seq<ScanEntry>, b: seq<ScanEntry>)
    requires multiset(a) == multiset(b)
    ensures RegularBytes(a) == RegularBytes(b) && |a| == |b|
    decreases |a|
  {
    assert |a| == |multiset(a)| == |multiset(b)| == |b|;
    if a != [] {
      var last, shorter := a[|a| - 1], a[..|a| - 1];
      var k := Found(shorter, last, a, b);
      BytesPermute(shorter, b[..k] + b[k + 1..]);
      BytesWithout(b, k);
    }
  }

  lemma Found(shorter: seq<ScanEntry>, last: ScanEntry, a: seq<ScanEntry>, b: seq<ScanEntry>) returns (k: nat)
    requires a == shorter + [last] && multiset(a) == multiset(b)
    ensures k < |b| && b[k] == last && multiset(b[..k] + b[k + 1..]) == multiset(shorter)
  {
    assert last in multiset(b);
    k :| 0 <= k < |b| && b[k] == last;
    assert b == b[..k] + [last] + b[k + 1..];
    assert multiset(b[..k] + b[k + 1..]) == multiset(b) - multiset{last};
    assert multiset(shorter) == multiset(a) - multiset{last};
  }

  /** No cause a partial scan gives is compatible with a complete one of clean scopes within the byte budget. */
  lemma CauseMeansIncomplete(tree: Tree, scopes: seq<Scope>, excluded: set<Path>, budget: Budget, late: nat -> bool, entries: seq<ScanEntry>, at: nat, cause: Cause)
    requires at < |scopes| && ScopeCause(tree, scopes[at], excluded, budget, late, entries, cause)
    requires LeftIsMissing(tree, scopes, excluded, budget, entries, scopes[at], cause)
    ensures !(Complete(tree, scopes, excluded, budget, entries) && ScopeClean(tree, scopes[at], excluded, budget) && WithinBytes(budget, RegularBytes(entries)))
  {
    hide Times, EntryOf, RegularBytes;
    RootIsReached(tree, scopes[at], excluded, budget);
  }

  lemma RootIsReached(tree: Tree, scope: Scope, excluded: set<Path>, budget: Budget)
    ensures scope.root in tree ==> Reached(tree, scope, excluded, budget, scope.root)
  {
  }

  /** `scan`: the observation, sorted by scope identifier and encoded path. `less` is that order. */
  method Scan(tree: Tree, scopes: seq<Scope>, excluded: set<Path>, budget: Budget, late: nat -> bool, less: (Key, Key) -> bool)
    returns (entries: seq<ScanEntry>, partial: bool, ghost at: nat, ghost cause: Option<Cause>)
    requires Ordering.StrictOrder(less)
    ensures scopes != [] ==> |entries| <= (if budget.maxEntries == 0 then 1 else budget.maxEntries) + |scopes| - 1
    ensures |entries| <= |scopes| * |tree|
    ensures Ordering.SortedBy(less, KeyOf, entries)
    ensures Sound(tree, scopes, excluded, budget, entries) && forall e :: e in entries ==> Wanted(tree, scopes, excluded, budget, e)
    ensures !partial <==>
              && Complete(tree, scopes, excluded, budget, entries) && WithinBytes(budget, RegularBytes(entries))
              && forall k :: 0 <= k < |scopes| ==> ScopeClean(tree, scopes[k], excluded, budget)
    ensures !partial ==> forall e :: e in entries <==> Wanted(tree, scopes, excluded, budget, e)
    ensures !partial ==> forall look :: 0 <= look < |entries| - |scopes| ==> !late(look)
    ensures UniqueScopes(scopes) ==> Ordering.Distinct(entries)
    ensures !partial && ById(scopes) ==> (Ordering.Distinct(entries) <==> UniqueScopes(scopes))
    ensures partial ==>
              && at < |scopes| && cause.Some? && ScopeCause(tree, scopes[at], excluded, budget, late, entries, cause.value)
              && LeftIsMissing(tree, scopes, excluded, budget, entries, scopes[at], cause.value)
  {
    var walk;
    walk, at, cause := Observe(tree, scopes, excluded, budget, late);
    hide Wanted, Times, Reached, Open, ScopeClean, ScopeCause, LeftIsMissing, Complete, Sound;
    Ordering.StrictIsWeak(less);
    partial := walk.partial;
    entries := Ordering.SortBy(less, KeyOf, walk.entries);
    BytesPermute(walk.entries, entries);
    SortedAlike(tree, scopes, excluded, budget, walk.entries, entries);
    SoundFacts(tree, scopes, excluded, budget, entries);
    if !partial {
      CleanRoots(tree, scopes, excluded, budget);
      CompleteFacts(tree, scopes, excluded, budget, entries);
    } else {
      SameCause(tree, scopes, excluded, budget, late, walk.entries, entries, at, cause.value);
      CauseMeansIncomplete(tree, scopes, excluded, budget, late, entries, at, cause.value);
    }
  }

  lemma CleanRoots(tree: Tree, scopes: seq<Scope>, excluded: set<Path>, budget: Budget)
    requires forall k :: 0 <= k < |scopes| ==> ScopeClean(tree, scopes[k], excluded, budget)
    ensures forall k :: 0 <= k < |scopes| ==> scopes[k].root in tree
  {
    hide Reached;
  }

  lemma SortedAlike(tree: Tree, scopes: seq<Scope>, excluded: set<Path>, budget: Budget, a: seq<ScanEntry>, b: seq<ScanEntry>)
    requires multiset(a) == multiset(b)
    ensures Complete(tree, scopes, excluded, budget, a) <==> Complete(tree, scopes, excluded, budget, b)
    ensures Sound(tree, scopes, excluded, budget, a) <==> Sound(tree, scopes, excluded, budget, b)
  {
    hide Times;
  }

  lemma SameCause(tree: Tree, scopes: seq<Scope>, excluded: set<Path>, budget: Budget, late: nat -> bool, a: seq<ScanEntry>, b: seq<ScanEntry>, at: nat, cause: Cause)
    requires multiset(a) == multiset(b) && |a| == |b| && RegularBytes(a) == RegularBytes(b) && at < |scopes|
    requires ScopeCause(tree, scopes[at], excluded, budget, late, a, cause) && LeftIsMissing(tree, scopes, excluded, budget, a, scopes[at], cause)
    ensures ScopeCause(tree, scopes[at], excluded, budget, late, b, cause) && LeftIsMissing(tree, scopes, excluded, budget, b, scopes[at], cause)
  {
    hide Times, Reached, EntryOf, RegularBytes;
  }

  /** What a sound observation holds is wanted, and is repeated only if a scope is. */
  lemma SoundFacts(tree: Tree, scopes: seq<Scope>, excluded: set<Path>, budget: Budget, entries: seq<ScanEntry>)
    requires Sound(tree, scopes, excluded, budget, entries)
    ensures forall e :: e in entries ==> Wanted(tree, scopes, excluded, budget, e)
    ensures UniqueScopes(scopes) ==> Ordering.Distinct(entries)
  {
    hide WantedIn, Wanted;
    forall e | e in entries ensures Wanted(tree, scopes, excluded, budget, e) {
      assert multiset(entries)[e] > 0;
      TimesWanted(tree, scopes, excluded, budget, e);
    }
    Ordering.DistinctCounts(entries);
    if UniqueScopes(scopes) {
      forall e ensures multiset(entries)[e] <= 1 {
        TimesOnce(tree, scopes, excluded, budget, e);
      }
    }
  }

  /** A scope and a path determine the wanted entry. */
  lemma KeyDeterminesEntry(tree: Tree, scopes: seq<Scope>, excluded: set<Path>, budget: Budget, a: ScanEntry, b: ScanEntry)
    requires ById(scopes) && Wanted(tree, scopes, excluded, budget, a) && Wanted(tree, scopes, excluded, budget, b) && KeyOf(a) == KeyOf(b)
    ensures a == b
  {
    hide Reached;
    var i :| 0 <= i < |scopes| && WantedIn(tree, scopes[i], excluded, budget, a);
    var j :| 0 <= j < |scopes| && WantedIn(tree, scopes[j], excluded, budget, b);
    assert scopes[i] == scopes[j];
  }

  /** Two complete scans of the same tree publish the same tuple, whatever order the directories listed
      their children in and however the two clocks ran. */
  method ListingOrderDoesNotMatter(tree: Tree, scopes: seq<Scope>, excluded: set<Path>, budget: Budget, late: nat -> bool, late': nat -> bool,
                                   less: (Key, Key) -> bool) returns (a: seq<ScanEntry>, partialA: bool, b: seq<ScanEntry>, partialB: bool)
    requires Ordering.StrictOrder(less) && ById(scopes)
    ensures !partialA && !partialB ==> a == b
  {
    ghost var at, cause;
    a, partialA, at, cause := Scan(tree, scopes, excluded, budget, late, less);
    b, partialB, at, cause := Scan(tree, scopes, excluded, budget, late', less);
    if !partialA && !partialB {
      SamePublication(tree, scopes, excluded, budget, less, a, b);
    }
  }

  lemma SamePublication(tree: Tree, scopes: seq<Scope>, excluded: set<Path>, budget: Budget, less: (Key, Key) -> bool,
                        a: seq<ScanEntry>, b: seq<ScanEntry>)
    requires Ordering.StrictOrder(less) && ById(scopes) && Ordering.SortedBy(less, KeyOf, a) && Ordering.SortedBy(less, KeyOf, b)
    requires Complete(tree, scopes, excluded, budget, a) && Complete(tree, scopes, excluded, budget, b)
    requires forall e :: e in a ==> Wanted(tree, scopes, excluded, budget, e)
    ensures a == b
  {
    hide Wanted, Times;
    assert multiset(a) == multiset(b);
    forall x, y | x in a && y in a && KeyOf(x) == KeyOf(y) ensures x == y {
      KeyDeterminesEntry(tree, scopes, excluded, budget, x, y);
    }
    Ordering.SortedByKeyIsUnique(less, KeyOf, a, b);
  }

  function SampleScope(): Scope {
    Scope(0, ["root"], false)
  }

  function SampleTree(): Tree {
    map[SampleScope().root := Node(DIRECTORY, 0, 0, OBSERVED, true)]
  }

  lemma SampleHasNoCause(entries: seq<ScanEntry>, late: nat -> bool, cause: Cause)
    requires |entries| <= 2 && !exists look :: late(look)
    ensures !ScopeCause(SampleTree(), SampleScope(), {}, Budget(10, None, None), late, entries, cause)
  {
  }

  /** A scope requested twice: the scan of a single empty directory completes and lists it twice. */
  method RequestedTwiceIsListedTwice(less: (Key, Key) -> bool) returns (entries: seq<ScanEntry>, partial: bool)
    requires Ordering.StrictOrder(less)
    ensures !partial && |entries| == 2 && entries[0] == entries[1] && entries[0].path == SampleScope().root
  {
    hide ScopeCause, WantedIn, Times, Complete, Wanted;
    var scope, late := SampleScope(), (look: nat) => false;
    ghost var at, cause;
    entries, partial, at, cause := Scan(SampleTree(), [scope, scope], {}, Budget(10, None, None), late, less);
    assert |SampleTree()| == 1;
    if partial {
      assert [scope, scope][at] == scope;
      SampleHasNoCause(entries, late, cause.value);
    }
    SampleTwice(entries);
  }

  lemma SampleTwice(entries: seq<ScanEntry>)
    requires |entries| <= 2 && Complete(SampleTree(), [SampleScope(), SampleScope()], {}, Budget(10, None, None), entries)
    ensures |entries| == 2 && entries[0] == entries[1] && entries[0].path == SampleScope().root
  {
    var tree, scope, budget := SampleTree(), SampleScope(), Budget(10, None, None);
    var root := EntryOf(tree, scope, {}, scope.root);
    RootIsWanted(tree, scope, {}, budget);
    hide WantedIn, Times;
    TimesTwice(tree, [scope, scope], {}, budget, root, 0, 1);
    BothAre(entries, root);
  }

  lemma BothAre(entries: seq<ScanEntry>, e: ScanEntry)
    requires |entries| <= 2 && multiset(entries)[e] >= 2
    ensures entries == [e, e]
  {
    assert multiset{e, e} <= multiset(entries);
    assert |multiset(entries) - multiset{e, e}| == |multiset(entries)| - 2;
    assert |entries| == |multiset(entries)| == 2;
    assert entries == [entries[0], entries[1]];
    assert multiset(entries) == multiset{entries[0], entries[1]};
  }
}
