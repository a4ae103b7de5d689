/**
 * The inline checks that the query-optimisation tests run over the
 * `winningPlan` of an explain result. A plan node is a dictionary with a
 * `stage` string and optional `inputStage`, `indexName` and `indexBounds`
 * keys; every check reads the root and, at most, the root's `inputStage`.
 */
module PlanTree {
  import opened Wrappers
  import opened Exceptions

  const COLLSCAN := "COLLSCAN"
  const IXSCAN := "IXSCAN"
  const FETCH := "FETCH"

  /** `indexBounds`: index key name to its list of interval strings. */
  type Bounds = map<string, seq<string>>

  /** One node of a winning plan; a `None` field is a key the dictionary lacks. */
  datatype PlanNode = PlanNode(
    stage: Option<string>,
    inputStage: Option<PlanNode>,
    indexName: Option<string>,
    indexBounds: Option<Bounds>)

  /** The `queryPlanner` section of an explain result. */
  datatype QueryPlanner = QueryPlanner(winningPlan: PlanNode, queryHash: string, planCacheKey: string)

  /** The `{}` that `.get('inputStage', {})` falls back to: a node without any key. */
  const EMPTY_NODE := PlanNode(None, None, None, None)

  /** `node.get('stage') == s`. */
  predicate StageIs(node: PlanNode, s: string)
    ensures node.stage.None? ==> !StageIs(node, s)
  {
    node.stage == Some(s)
  }

  /** `node.get('inputStage', {})`. */
  function ChildOrEmpty(node: PlanNode): (c: PlanNode)
    ensures node.inputStage.Some? ==> c == node.inputStage.value
    ensures node.inputStage.None? ==> c.stage.None? && c.inputStage.None?
  {
    node.inputStage.GetOr(EMPTY_NODE)
  }

  /** Number of nodes on the `inputStage` chain starting at `node`. */
  function Depth(node: PlanNode): (d: nat)
    ensures d >= 1
    ensures node.inputStage.None? <==> d == 1
  {
    match node.inputStage
    case None => 1
    case Some(child) => 1 + Depth(child)
  }

  /**
   * Strips up to `levels` FETCH wrappers, a missing child counting as an empty
   * node. This bounded walk is a generalisation: the tests only ever strip one
   * level (`UnwrapFetch(root, 1)`); the lemmas below say where the two agree.
   */
  function UnwrapFetch(node: PlanNode, levels: nat): (n: PlanNode)
    decreases levels
  {
    if levels == 0 || !StageIs(node, FETCH) then node
    else UnwrapFetch(ChildOrEmpty(node), levels - 1)
  }

  // ---------------------------------------------------------------------------
  // test_basic_plan_selection: `winning_plan.get('inputStage').get('stage') == 'IXSCAN'`

  /** Reads only the child: a missing `inputStage` is `None`, and `None.get` raises. */
  function BasicPlanSelectionCheck(root: PlanNode): (v: Verdict)
    ensures v.Pass? <==> root.inputStage.Some? && StageIs(root.inputStage.value, IXSCAN)
    ensures root.inputStage.None? ==> v == Raises(AttributeError)
    ensures root.inputStage.Some? && !v.Pass? ==> v == Raises(AssertionError)
  {
    match root.inputStage
    case None => Raises(AttributeError)
    case Some(child) => Assert(StageIs(child, IXSCAN))
  }

  // ---------------------------------------------------------------------------
  // test_collection_scan_vs_index_scan, without the index: root must be COLLSCAN

  function CollScanCheck(root: PlanNode): (v: Verdict)
    ensures v.Pass? <==> StageIs(root, COLLSCAN)
    ensures v.Raises? ==> v.error == AssertionError
  {
    Assert(StageIs(root, COLLSCAN))
  }

  // ---------------------------------------------------------------------------
  // test_collection_scan_vs_index_scan, with the index: IXSCAN bare or under FETCH

  /** The check's verdict, and the index name it logs from the node it checked. */
  datatype ScanReport = ScanReport(verdict: Verdict, reportedIndex: Option<string>)

  function IndexScanCheck(root: PlanNode): (r: ScanReport)
    ensures StageIs(root, FETCH) ==>
      (r.verdict.Pass? <==> StageIs(ChildOrEmpty(root), IXSCAN))
    ensures StageIs(root, FETCH) && r.verdict.Pass? ==>
      r.reportedIndex == ChildOrEmpty(root).indexName
    ensures !StageIs(root, FETCH) ==>
      (r.verdict.Pass? <==> StageIs(root, IXSCAN)) &&
      (r.verdict.Pass? ==> r.reportedIndex == root.indexName)
    ensures r.verdict.Raises? ==> r.verdict.error == AssertionError
  {
    if StageIs(root, FETCH) then
      var input := ChildOrEmpty(root);
      if StageIs(input, IXSCAN) then ScanReport(Pass, input.indexName)
      else ScanReport(Raises(AssertionError), None)
    else if StageIs(root, IXSCAN) then ScanReport(Pass, root.indexName)
    else ScanReport(Raises(AssertionError), None)
  }

  // ---------------------------------------------------------------------------
  // test_qo003_range_query_optimization: which `indexBounds` are read

  /** The bounds the range test reads, or `None` when it reads none. */
  function RangeBounds(root: PlanNode): (b: Option<Bounds>)
    ensures StageIs(root, IXSCAN) ==> b == Some(root.indexBounds.GetOr(map[]))
    ensures StageIs(root, FETCH) && StageIs(ChildOrEmpty(root), IXSCAN) ==>
      b == Some(ChildOrEmpty(root).indexBounds.GetOr(map[]))
    ensures b.Some? ==> StageIs(root, IXSCAN) || (StageIs(root, FETCH) && StageIs(ChildOrEmpty(root), IXSCAN))
  {
    if StageIs(root, IXSCAN) then Some(root.indexBounds.GetOr(map[]))
    else if StageIs(root, FETCH) then
      var input := ChildOrEmpty(root);
      if StageIs(input, IXSCAN) then Some(input.indexBounds.GetOr(map[])) else None
    else None
  }

  // ---------------------------------------------------------------------------
  // test_qo003_index_hint_functionality

  /** The hint assertion: only a reached IXSCAN naming another index fails. */
  function HintCheck(root: PlanNode, hint: string): (v: Verdict)
    ensures !v.Pass? <==>
      (StageIs(root, IXSCAN) && root.indexName != Some(hint)) ||
      (StageIs(root, FETCH) && StageIs(ChildOrEmpty(root), IXSCAN) &&
       ChildOrEmpty(root).indexName != Some(hint))
    ensures v.Raises? ==> v.error == AssertionError
  {
    if StageIs(root, IXSCAN) then Assert(root.indexName == Some(hint))
    else if StageIs(root, FETCH) then
      var input := ChildOrEmpty(root);
      if StageIs(input, IXSCAN) then Assert(input.indexName == Some(hint)) else Pass
    else Pass
  }

  /**
   * The hint test as written: the hinted explain, the hint assertion and the
   * hinted find all sit in one `try` whose `except Exception` only logs, so
   * whatever `Exception` they raise, the assertion's included, is swallowed.
   * `execution` is what the hinted `find(...).hint(...)` raises, if anything.
   */
  function HintScenario(plan: PlanNode, hint: string, execution: Verdict): (v: Verdict)
    ensures v.Raises? ==> !IsSubclass(v.error, Exception)
  {
    var body := Then(HintCheck(plan, hint), execution);
    if body.Raises? && IsSubclass(body.error, Exception) then Pass else body
  }

  /** The hint test as it is evidently meant to work: the hint assertion propagates. */
  function HintScenarioPropagating(plan: PlanNode, hint: string, execution: Verdict): (v: Verdict)
    ensures HintCheck(plan, hint).Raises? ==> v == Raises(AssertionError)
    ensures HintCheck(plan, hint).Pass? && execution.Raises? && IsSubclass(execution.error, Exception) ==> v == Pass
  {
    var check := HintCheck(plan, hint);
    if check.Raises? then check
    else if execution.Raises? && IsSubclass(execution.error, Exception) then Pass
    else execution
  }

  /** As written, a plan that uses another index than the hinted one still passes. */
  lemma HintMismatchSwallowed(plan: PlanNode, hint: string, execution: Verdict)
    requires execution.Pass? || IsSubclass(execution.error, Exception)
    ensures HintScenario(plan, hint, execution) == Pass
  {
  }

  /** A concrete plan that shows it: a bare IXSCAN over `test_hint_year`. */
  lemma HintMismatchExample()
    ensures var plan := PlanNode(Some(IXSCAN), None, Some("test_hint_year"), None);
      HintCheck(plan, "test_hint_genres") == Raises(AssertionError) &&
      HintScenario(plan, "test_hint_genres", Pass) == Pass &&
      HintScenarioPropagating(plan, "test_hint_genres", Pass) == Raises(AssertionError)
  {
  }

  /** The corrected scenario fails exactly when the hint assertion fails (given a clean execution). */
  lemma HintScenarioPropagatingFailsIffMismatch(plan: PlanNode, hint: string)
    ensures HintScenarioPropagating(plan, hint, Pass).Pass? <==> HintCheck(plan, hint).Pass?
  {
  }

  // ---------------------------------------------------------------------------
  // What the checks inspect, stated against the one-level unwrapping

  /** The COLLSCAN check looks at the root only: a COLLSCAN under any wrapper fails. */
  lemma CollScanNestedFails(root: PlanNode)
    requires !StageIs(root, COLLSCAN)
    requires root.inputStage.Some? && StageIs(root.inputStage.value, COLLSCAN)
    ensures CollScanCheck(root) == Raises(AssertionError)
  {
  }

  /** A bare IXSCAN root passes the index-scan check but fails the basic check. */
  lemma BareIndexScanFailsBasicCheck(name: string)
    ensures var root := PlanNode(Some(IXSCAN), None, Some(name), None);
      BasicPlanSelectionCheck(root) == Raises(AttributeError) &&
      IndexScanCheck(root) == ScanReport(Pass, Some(name))
  {
  }

  /** The index-scan check classifies the node reached by unwrapping one FETCH level. */
  lemma IndexScanCheckUnwrapsOnce(root: PlanNode)
    ensures IndexScanCheck(root).verdict.Pass? <==> StageIs(UnwrapFetch(root, 1), IXSCAN)
    ensures IndexScanCheck(root).verdict.Pass? ==>
      IndexScanCheck(root).reportedIndex == UnwrapFetch(root, 1).indexName
  {
  }

  /** The hint check fails exactly when the one-level-unwrapped node is an IXSCAN on another index. */
  lemma HintCheckUnwrapsOnce(root: PlanNode, hint: string)
    ensures !HintCheck(root, hint).Pass? <==>
      StageIs(UnwrapFetch(root, 1), IXSCAN) && UnwrapFetch(root, 1).indexName != Some(hint)
  {
  }

  /** The range test reads bounds exactly from the one-level-unwrapped node, when it is an IXSCAN. */
  lemma RangeBoundsUnwrapsOnce(root: PlanNode)
    ensures RangeBounds(root) ==
      if StageIs(UnwrapFetch(root, 1), IXSCAN) then Some(UnwrapFetch(root, 1).indexBounds.GetOr(map[]))
      else None
  {
  }

  /** On plans at most two nodes deep, any deeper walk finds the same index scan as the tests' one level. */
  lemma {:induction false} UnwrapAgreesOnShallowPlans(root: PlanNode, levels: nat)
    requires Depth(root) <= 2
    requires levels >= 1
    ensures StageIs(UnwrapFetch(root, levels), IXSCAN) <==> StageIs(UnwrapFetch(root, 1), IXSCAN)
    ensures StageIs(UnwrapFetch(root, 1), IXSCAN) ==> UnwrapFetch(root, levels) == UnwrapFetch(root, 1)
  {
    if StageIs(root, FETCH) {
      var child := ChildOrEmpty(root);
      assert UnwrapFetch(root, 1) == UnwrapFetch(child, 0) == child;
      assert UnwrapFetch(root, levels) == UnwrapFetch(child, levels - 1);
      assert child.inputStage.None? by {
        if root.inputStage.Some? {
          assert Depth(root) == 1 + Depth(child);
        }
      }
      if levels - 1 > 0 && StageIs(child, FETCH) {
        assert UnwrapFetch(child, levels - 1) == UnwrapFetch(EMPTY_NODE, levels - 2);
        assert UnwrapFetch(EMPTY_NODE, levels - 2) == EMPTY_NODE;
      }
    }
  }

  /** Three nodes deep the generalisation differs: FETCH over FETCH over IXSCAN fails the tests' check. */
  lemma UnwrapDiffersAtDepthThree()
    ensures var scan := PlanNode(Some(IXSCAN), None, Some("idx"), None);
      var root := PlanNode(Some(FETCH), Some(PlanNode(Some(FETCH), Some(scan), None, None)), None, None);
      Depth(root) == 3 &&
      StageIs(UnwrapFetch(root, 2), IXSCAN) &&
      IndexScanCheck(root).verdict == Raises(AssertionError)
  {
  }
}
