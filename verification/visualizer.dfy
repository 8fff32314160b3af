/**
 * The navigation visualiser of the debug dashboard: the root and child keys of the
 * hierarchy it draws, the rows drawn for expanded nodes, the tap and refresh state,
 * a router's history filtered out of the navigation log, and the router analyser's
 * issue rules.
 */
module Visualizer {
  import opened Optional
  import opened Strings
  import opened AppRouting
  import Debugging
  import CappedLog

  /** `isPresented(routerKey:)`: no parent-child tracking exists, so never. */
  predicate IsPresented(routerKey: string) {
    false
  }

  /** The filter of `rootRouters` on one key. */
  predicate IsRootKey(key: string) {
    Contains(key, "root") || Contains(key, "main") || key == "routerDebug" || !IsPresented(key)
  }

  /**
   * `rootRouters`: the registry keys that pass the root filter, sorted. As nothing is
   * ever presented, these are all the keys, each once, in ascending order.
   */
  function RootRouters(keys: set<string>): (roots: seq<string>)
    ensures forall k :: k in roots <==> k in keys
    ensures |roots| == |keys|
    ensures StrictlySorted(roots)
  {
    var passing := set k | k in keys && IsRootKey(k);
    assert passing == keys;
    SortedOfSorted(passing);
    SortedOf(passing)
  }

  /** `childRouters(of:)`: the other keys that contain the parent key, sorted. */
  function ChildRouters(keys: set<string>, parentKey: string): (children: seq<string>)
    ensures forall k :: k in children <==> k in keys && Contains(k, parentKey) && k != parentKey
    ensures parentKey !in children
    ensures StrictlySorted(children)
  {
    var children := set k | k in keys && Contains(k, parentKey) && k != parentKey;
    SortedOfSorted(children);
    SortedOf(children)
  }

  /**
   * A child key is strictly longer than its parent, so every path down the hierarchy
   * is at most as long as the longest key and the recursive drawing ends.
   */
  lemma ChildrenAreLonger(keys: set<string>, parentKey: string, child: string)
    requires child in ChildRouters(keys, parentKey)
    ensures |child| > |parentKey|
  {
    ContainsLength(child, parentKey);
  }

  /** The length of the longest key. */
  ghost function MaxLength(keys: set<string>): (n: nat)
    ensures forall k :: k in keys ==> |k| <= n
    decreases |keys|
  {
    if keys == {} then 0
    else
      var k :| k in keys;
      var rest := MaxLength(keys - {k});
      if |k| > rest then |k| else rest
  }

  /** One row of the drawn hierarchy: a key and its indentation level. */
  datatype Row = Row(key: string, level: nat)

  /**
   * `routerNode(key:level:)`: the node's own row, then, when the node is expanded, the
   * rows of each child at the next level, in the children's order.
   */
  function NodeRows(keys: set<string>, expanded: set<string>, key: string, level: nat): (rows: seq<Row>)
    requires |key| <= MaxLength(keys)
    ensures rows != [] && rows[0] == Row(key, level)
    ensures forall i :: 0 < i < |rows| ==> rows[i].key in keys && rows[i].level > level && |rows[i].key| > |key|
    ensures key in expanded ==> forall c :: c in ChildRouters(keys, key) ==> Row(c, level + 1) in rows
    ensures key !in expanded ==> rows == [Row(key, level)]
    decreases MaxLength(keys) + 1 - |key|, 0, 0
  {
    var children := ChildRouters(keys, key);
    if key in expanded then
      forall c | c in children ensures |c| > |key| {
        ChildrenAreLonger(keys, key, c);
      }
      [Row(key, level)] + ForestRows(keys, expanded, children, |key| + 1, level + 1)
    else [Row(key, level)]
  }

  /** The rows of several sibling nodes, one after another. */
  function ForestRows(keys: set<string>, expanded: set<string>, siblings: seq<string>, minLength: nat, level: nat): (rows: seq<Row>)
    requires forall c :: c in siblings ==> c in keys && |c| >= minLength
    ensures forall i :: 0 <= i < |rows| ==> rows[i].key in keys && rows[i].level >= level && |rows[i].key| >= minLength
    ensures |rows| >= |siblings|
    ensures forall j :: 0 <= j < |siblings| ==> Row(siblings[j], level) in rows
    decreases MaxLength(keys) + 1 - minLength, 1, |siblings|
  {
    if siblings == [] then []
    else
      var first := NodeRows(keys, expanded, siblings[0], level);
      var rest := ForestRows(keys, expanded, siblings[1..], minLength, level);
      forall j | 1 <= j < |siblings| ensures Row(siblings[j], level) in first + rest {
        assert siblings[j] == siblings[1..][j - 1];
      }
      first + rest
  }

  /** Every row of `rows` has a key that contains `sub`. */
  predicate KeysContain(rows: seq<Row>, sub: string) {
    forall i :: 0 <= i < |rows| ==> Contains(rows[i].key, sub)
  }

  /** Every row drawn below an expanded node is a descendant: its key contains the node's key. */
  lemma {:induction false} NodeRowsDescend(keys: set<string>, expanded: set<string>, key: string, level: nat)
    requires |key| <= MaxLength(keys)
    ensures KeysContain(NodeRows(keys, expanded, key, level)[1..], key)
    decreases MaxLength(keys) + 1 - |key|, 0, 0
  {
    if key in expanded {
      var children := ChildRouters(keys, key);
      forall c | c in children ensures |c| > |key| {
        ChildrenAreLonger(keys, key, c);
      }
      var below := ForestRows(keys, expanded, children, |key| + 1, level + 1);
      ForestRowsDescend(keys, expanded, children, |key| + 1, level + 1, key);
      assert NodeRows(keys, expanded, key, level)[1..] == below;
    }
  }

  /** The rows of siblings that all contain `ancestor` all contain `ancestor`. */
  lemma {:induction false} ForestRowsDescend(keys: set<string>, expanded: set<string>, siblings: seq<string>, minLength: nat, level: nat, ancestor: string)
    requires forall c :: c in siblings ==> c in keys && |c| >= minLength && Contains(c, ancestor)
    ensures KeysContain(ForestRows(keys, expanded, siblings, minLength, level), ancestor)
    decreases MaxLength(keys) + 1 - minLength, 1, |siblings|
  {
    if siblings != [] {
      var first := NodeRows(keys, expanded, siblings[0], level);
      var rest := ForestRows(keys, expanded, siblings[1..], minLength, level);
      NodeRowsDescend(keys, expanded, siblings[0], level);
      ForestRowsDescend(keys, expanded, siblings[1..], minLength, level, ancestor);
      forall i | 0 <= i < |first| ensures Contains(first[i].key, ancestor) {
        if i > 0 {
          assert first[i] == first[1..][i - 1];
          ContainsTransitive(first[i].key, siblings[0], ancestor);
        }
      }
      assert ForestRows(keys, expanded, siblings, minLength, level) == first + rest;
    }
  }

  /** The whole drawn hierarchy: the rows of every root at level 0. */
  function HierarchyRows(keys: set<string>, expanded: set<string>): (rows: seq<Row>)
    ensures forall i :: 0 <= i < |rows| ==> rows[i].key in keys
    ensures forall k :: k in keys ==> Row(k, 0) in rows
    ensures |rows| >= |keys|
  {
    ForestRows(keys, expanded, RootRouters(keys), 0, 0)
  }

  /** Nothing expanded: exactly one row per key, at level 0, in ascending order. */
  lemma {:induction false} CollapsedHierarchyIsSortedKeys(keys: set<string>, siblings: seq<string>)
    requires forall c :: c in siblings ==> c in keys
    ensures ForestRows(keys, {}, siblings, 0, 0) == seq(|siblings|, i requires 0 <= i < |siblings| => Row(siblings[i], 0))
    decreases |siblings|
  {
    if siblings != [] {
      CollapsedHierarchyIsSortedKeys(keys, siblings[1..]);
    }
  }

  /** The node's expanded set after a tap. */
  function TapExpanded(expanded: set<string>, key: string, hasChildren: bool): (r: set<string>)
    ensures !hasChildren ==> r == expanded
    ensures hasChildren ==> (key in r <==> key !in expanded)
    ensures forall k :: k != key ==> (k in r <==> k in expanded)
  {
    if hasChildren then
      if key in expanded then expanded - {key} else expanded + {key}
    else expanded
  }

  /** Two taps on the same node leave the expanded set as it was. */
  lemma TapTwiceRestores(expanded: set<string>, key: string, hasChildren: bool)
    ensures TapExpanded(TapExpanded(expanded, key, hasChildren), key, hasChildren) == expanded
  {
  }

  /** The hierarchy panel's own state: the selected key and the expanded nodes. */
  class NavigationVisualizer {
    var selectedRouter: Option<string>
    var expandedNodes: set<string>
    const appRouter: AppRouter

    constructor (appRouter: AppRouter)
      ensures this.appRouter == appRouter
      ensures selectedRouter == None && expandedNodes == {}
    {
      this.appRouter := appRouter;
      selectedRouter := None;
      expandedNodes := {};
    }

    /** The refresh button: nothing selected, nothing expanded. */
    method Refresh()
      modifies this`selectedRouter, this`expandedNodes
      ensures selectedRouter == None && expandedNodes == {}
    {
      selectedRouter := None;
      expandedNodes := {};
    }

    /**
     * Tapping a node toggles whether it is expanded, only if it has children, and
     * always selects it.
     */
    method TapNode(key: string)
      modifies this`selectedRouter, this`expandedNodes
      ensures expandedNodes == TapExpanded(old(expandedNodes), key, ChildRouters(appRouter.routers.Keys, key) != [])
      ensures selectedRouter == Some(key)
    {
      var isExpanded := key in expandedNodes;
      var children := ChildRouters(appRouter.routers.Keys, key);
      var hasChildren := children != [];
      if hasChildren {
        if isExpanded {
          expandedNodes := expandedNodes - {key};
        } else {
          expandedNodes := expandedNodes + {key};
        }
      }
      selectedRouter := Some(key);
    }
  }

  /** `RouterHistoryView.filteredLogs`: the entries of one router, in log order. */
  function FilteredLogs(logs: seq<Debugging.NavigationLogEntry>, routerKey: string): (r: seq<Debugging.NavigationLogEntry>)
    ensures |r| <= |logs|
    ensures forall i :: 0 <= i < |r| ==> r[i].routerId == routerKey && r[i] in logs
    ensures forall e :: e in logs && e.routerId == routerKey ==> e in r
    decreases |logs|
  {
    if logs == [] then []
    else
      var rest := FilteredLogs(logs[1..], routerKey);
      assert forall e :: e in logs[1..] ==> e in logs;
      if logs[0].routerId == routerKey then [logs[0]] + rest else rest
  }

  /** Filtering keeps the relative order: the filter of a concatenation is the concatenation of the filters. */
  lemma {:induction false} FilteredLogsConcat(a: seq<Debugging.NavigationLogEntry>, b: seq<Debugging.NavigationLogEntry>, routerKey: string)
    ensures FilteredLogs(a + b, routerKey) == FilteredLogs(a, routerKey) + FilteredLogs(b, routerKey)
    decreases |a|
  {
    if a == [] {
      assert a + b == b;
    } else {
      assert (a + b)[0] == a[0] && (a + b)[1..] == a[1..] + b;
      FilteredLogsConcat(a[1..], b, routerKey);
    }
  }

  /** A router's newest logged event heads its history. */
  lemma NewestEntryHeadsHistory(logs: seq<Debugging.NavigationLogEntry>, entry: Debugging.NavigationLogEntry)
    ensures FilteredLogs(CappedLog.Prepend(logs, entry, Debugging.MaxNavigationLogs), entry.routerId)[0] == entry
  {
    var log := CappedLog.Prepend(logs, entry, Debugging.MaxNavigationLogs);
    assert log == [entry] + log[1..];
  }

  /** A problem the analyser reports. Titles and texts are not modelled. */
  datatype RouterIssue = PotentialOrphan(key: string) | TooManyRouters(count: nat) | NoIssuesFound

  datatype IssueSeverity = Error | Warning | Info

  function Severity(issue: RouterIssue): IssueSeverity {
    match issue
    case PotentialOrphan(_) => Warning
    case TooManyRouters(_) => Warning
    case NoIssuesFound => Info
  }

  /** The orphan rule: a feature router that is not a debug router. */
  predicate IsOrphanCandidate(key: string) {
    Contains(key, "routerFeature") && !Contains(key, "Debug")
  }

  function OrphanCandidates(keys: set<string>): set<string> {
    set k | k in keys && IsOrphanCandidate(k)
  }

  /** What follows the orphan warnings: the size warning, or else the all-clear. */
  function TrailingIssues(orphanCount: nat, keyCount: nat): seq<RouterIssue> {
    if keyCount > 10 then [TooManyRouters(keyCount)]
    else if orphanCount == 0 then [NoIssuesFound]
    else []
  }

  /**
   * `issues` is a result of `analyzeRouters` on `keys`: one orphan warning per
   * candidate key (in the dictionary's order, which is unspecified), then the
   * trailing issues.
   */
  predicate IsAnalysisOf(issues: seq<RouterIssue>, keys: set<string>) {
    var n := |OrphanCandidates(keys)|;
    n <= |issues| &&
    (forall i :: 0 <= i < n ==> issues[i].PotentialOrphan? && issues[i].key in OrphanCandidates(keys)) &&
    (forall k :: k in OrphanCandidates(keys) ==> PotentialOrphan(k) in issues[..n]) &&
    issues[n..] == TrailingIssues(n, |keys|)
  }

  /** An analysis always reports something, and reports only warnings unless it is the all-clear. */
  lemma AnalysisNeverEmpty(issues: seq<RouterIssue>, keys: set<string>)
    requires IsAnalysisOf(issues, keys)
    ensures issues != []
    ensures NoIssuesFound in issues <==> OrphanCandidates(keys) == {} && |keys| <= 10
    ensures NoIssuesFound in issues ==> issues == [NoIssuesFound]
    ensures forall i :: 0 <= i < |issues| && issues[i] != NoIssuesFound ==> Severity(issues[i]) == Warning
  {
    var n := |OrphanCandidates(keys)|;
    if n > 0 {
      var k :| k in OrphanCandidates(keys);
      assert PotentialOrphan(k) in issues[..n];
    }
    assert issues == issues[..n] + issues[n..];
    if NoIssuesFound in issues {
      var i :| 0 <= i < |issues| && issues[i] == NoIssuesFound;
      assert i >= n;
    }
  }

  /** Going over one more key adds it to the candidates seen so far exactly when it is one. */
  lemma OrphanCandidatesStep(keys: set<string>, pending: set<string>, key: string)
    requires key in pending && pending <= keys
    ensures IsOrphanCandidate(key) ==>
      OrphanCandidates(keys - (pending - {key})) == OrphanCandidates(keys - pending) + {key} &&
      key !in OrphanCandidates(keys - pending)
    ensures !IsOrphanCandidate(key) ==>
      OrphanCandidates(keys - (pending - {key})) == OrphanCandidates(keys - pending)
  {
  }

  /** One warning per candidate, followed by the trailing issues, is an analysis. */
  lemma {:induction false} OrphanWarningsMakeAnalysis(orphans: seq<RouterIssue>, keys: set<string>)
    requires |orphans| == |OrphanCandidates(keys)|
    requires forall i :: 0 <= i < |orphans| ==> orphans[i].PotentialOrphan? && orphans[i].key in OrphanCandidates(keys)
    requires forall k :: k in OrphanCandidates(keys) ==> PotentialOrphan(k) in orphans
    ensures IsAnalysisOf(orphans + TrailingIssues(|orphans|, |keys|), keys)
  {
    var issues := orphans + TrailingIssues(|orphans|, |keys|);
    assert issues[..|orphans|] == orphans;
    assert issues[|orphans|..] == TrailingIssues(|orphans|, |keys|);
  }

  /** The analyser panel's state: its issue list and its busy flag. */
  class RouterAnalyzerView {
    var issues: seq<RouterIssue>
    var isAnalyzing: bool
    const appRouter: AppRouter

    constructor (appRouter: AppRouter)
      ensures this.appRouter == appRouter && issues == [] && !isAnalyzing
    {
      this.appRouter := appRouter;
      issues := [];
      isAnalyzing := false;
    }

    /**
     * `analyzeRouters`: clear the list, warn about each orphan candidate while going
     * over the keys, warn once more above 10 keys, and report the all-clear when
     * nothing was found. The delay before the analysis runs is not modelled.
     */
    method AnalyzeRouters()
      modifies this`issues, this`isAnalyzing
      ensures IsAnalysisOf(issues, appRouter.routers.Keys)
      ensures !isAnalyzing
    {
      isAnalyzing := true;
      issues := [];
      var keys := appRouter.routers.Keys;
      var found: seq<RouterIssue> := [];
      var pending := keys;
      while pending != {}
        invariant pending <= keys
        invariant |found| == |OrphanCandidates(keys - pending)|
        invariant forall i :: 0 <= i < |found| ==> found[i].PotentialOrphan? && found[i].key in OrphanCandidates(keys - pending)
        invariant forall k :: k in OrphanCandidates(keys - pending) ==> PotentialOrphan(k) in found
        decreases pending
      {
        var key :| key in pending;
        OrphanCandidatesStep(keys, pending, key);
        if IsOrphanCandidate(key) {
          found := found + [PotentialOrphan(key)];
        }
        pending := pending - {key};
      }
      assert keys - pending == keys;
      OrphanWarningsMakeAnalysis(found, keys);
      issues := found;
      if |keys| > 10 {
        issues := issues + [TooManyRouters(|keys|)];
      }
      if issues == [] {
        issues := issues + [NoIssuesFound];
      }
      assert issues == found + TrailingIssues(|found|, |keys|);
      isAnalyzing := false;
    }
  }
}
