# Query-plan verification harness: a Dafny model of its decision logic

The repository is a pytest suite run against MongoDB's `movies` collection.
Around its database calls sit small pieces of decision logic that take plain
data and answer pass or fail. This project models those pieces and proves
what they decide:

- **Plan-tree classification** (`PlanTree`): the inline checks that read a
  `winningPlan` node (`stage`, optional `inputStage`, `indexName`,
  `indexBounds`) and decide collection scan against index scan, the index
  used, the bounds read and hint compliance. A scan is a bare root or one
  level under `FETCH`; the code unwraps at most one level.
- **Plan-cache identity** (`PlanCache`): `queryHash` and `planCacheKey` are
  opaque tokens, collected per query and compared for equality with the
  first.
- **Timing tolerance** (`Timing`): each later sample at most 1.2 times the
  first, then an average-degradation check, over `real`; and the logged
  speedup.
- **Index cleanup** (`IndexCleanup`): which listed indexes get dropped, in
  which order, and how a raised error stops the remaining drops and is
  swallowed. The collection's index list is a `class` field that the drops
  update.
- **Assertion helpers** (`Assertions`): non-empty results, top-level field
  presence, accepted type tags, and the pass/fail classification of a find
  or aggregate call whose outcome is an input.

`Exceptions` models the part of Python's exception semantics the code relies
on: a closed hierarchy of exception classes, `except C` catching `C` and its
subclasses, and a `Verdict` that is `Pass` or `Raises(class)`. A pytest test
fails whenever an exception escapes its body, so every check returns a
`Verdict`. An `AssertionError` from `assert`, an `AttributeError` from
`None.get`, an `IndexError` from `[][0]` and a `ZeroDivisionError` from a
zero divisor are told apart.

The code unwraps at most one FETCH level. `PlanTree.UnwrapFetch` is a
bounded walk that generalises it. The lemmas below say where the two agree
(plans of at most two nodes) and where they differ (three nodes).

## Model

| member | source | states |
|---|---|---|
| `PlanTree.StageIs` | src/tests/integration/test_query_optimization.py:77 | `node.get('stage') == s`: a node without a `stage` key (such as the empty fallback node) matches no stage |
| `PlanTree.ChildOrEmpty` | src/tests/integration/test_query_optimization.py:98 | a missing `inputStage` reads as an empty node with no stage and no child |
| `PlanTree.BasicPlanSelectionCheck` | src/tests/integration/test_query_optimization.py:35-38 | passes iff the root has an `inputStage` whose stage is IXSCAN; a root without `inputStage` raises AttributeError, a wrong child stage AssertionError |
| `PlanTree.BareIndexScanFailsBasicCheck` | src/tests/integration/test_query_optimization.py:38 | a bare IXSCAN root fails the basic check with AttributeError and passes the index-scan check, reporting its own index name |
| `PlanTree.CollScanCheck` | src/tests/integration/test_query_optimization.py:76-77 | passes iff the root's stage is COLLSCAN; failures are AssertionError |
| `PlanTree.CollScanNestedFails` | src/tests/integration/test_query_optimization.py:76-77 | a COLLSCAN under any other root stage fails |
| `PlanTree.IndexScanCheck` | src/tests/integration/test_query_optimization.py:95-103 | under a FETCH root it passes iff the child (empty if missing) is IXSCAN; otherwise iff the root is IXSCAN; the logged index name comes from the node that was checked |
| `PlanTree.IndexScanCheckUnwrapsOnce` | src/tests/integration/test_query_optimization.py:95-103 | the index-scan check passes iff the node reached by unwrapping one FETCH is IXSCAN, and it reports that node's index name |
| `PlanTree.RangeBounds` | src/tests/integration/test_query_optimization.py:316-332 | IXSCAN root gives the root's bounds, FETCH over IXSCAN the child's bounds, a missing `indexBounds` an empty mapping; any other shape reads none |
| `PlanTree.RangeBoundsUnwrapsOnce` | src/tests/integration/test_query_optimization.py:320-332 | bounds are read exactly from the one-level-unwrapped node, when it is an IXSCAN |
| `PlanTree.HintCheck` | src/tests/integration/test_query_optimization.py:370-377 | fails iff a reached IXSCAN (root, or child of a FETCH root) has `indexName` other than the hint; every other shape passes |
| `PlanTree.HintCheckUnwrapsOnce` | src/tests/integration/test_query_optimization.py:370-377 | the hint check fails iff the one-level-unwrapped node is an IXSCAN on another index |
| `PlanTree.UnwrapAgreesOnShallowPlans` | src/tests/integration/test_query_optimization.py:95-103 | on plans at most two nodes deep, unwrapping any number of FETCH levels finds an IXSCAN iff one level does, and the same node |
| `PlanTree.UnwrapDiffersAtDepthThree` | src/tests/integration/test_query_optimization.py:95-103 | FETCH over FETCH over IXSCAN fails the code's check though a two-level walk finds the scan |
| `PlanTree.HintScenario` | src/tests/integration/test_query_optimization.py:362-384 | the hint test body as written: only an exception outside `Exception` can escape it |
| `PlanTree.HintMismatchSwallowed` | src/tests/integration/test_query_optimization.py:362-384 | as written, the hint test passes for every plan, including one that uses another index |
| `PlanTree.HintMismatchExample` | src/tests/integration/test_query_optimization.py:370-384 | a bare IXSCAN on `test_hint_year` fails the hint assertion, yet the test passes; the corrected scenario fails it |
| `PlanTree.HintScenarioPropagating` | src/tests/integration/test_query_optimization.py:362-384 | corrected hint test: a failing hint assertion escapes as AssertionError; errors of the hinted execution are still logged and swallowed |
| `PlanTree.HintScenarioPropagatingFailsIffMismatch` | src/tests/integration/test_query_optimization.py:370-377 | the corrected hint test passes iff the hint check passes |
| `PlanCache.AllEqualTo` | src/tests/integration/test_query_optimization.py:280-284 | the `all(t == first for t in tokens)` comprehension is true iff every token equals `first` |
| `PlanCache.AllEqualToFirstIffPairwise` | src/tests/integration/test_query_optimization.py:277-284 | for a non-empty list, all equal to the first iff all pairs equal |
| `PlanCache.ShapeCacheCheck` | src/tests/integration/test_query_optimization.py:277-284 | on non-empty lists passes iff all keys are pairwise equal and all hashes are pairwise equal; an empty list raises IndexError |
| `PlanCache.SingleObservationPasses` | src/tests/integration/test_query_optimization.py:277-284 | a single observation always passes |
| `PlanCache.CollectCacheIds` | src/tests/integration/test_query_optimization.py:262-272 | records exactly one key and one hash per query, in query order |
| `PlanCache.ShapeCacheReuse` | src/tests/integration/test_query_optimization.py:262-284 | the whole check passes iff every two explain results share key and hash; no explain results raises IndexError |
| `PlanCache.TwoRunCacheCheck` | src/tests/integration/test_query_optimization.py:148-172 | passes iff both runs report the same query hash and the same plan cache key |
| `PlanCache.TwoRunIsShapeCheckOfTwo` | src/tests/integration/test_query_optimization.py:169-172 | the two-run check gives the same verdict as the shape check on the two observations |
| `Timing.Speedup` | src/tests/integration/test_query_optimization.py:110 | divides only when the indexed time is positive, else infinity; the ratio times the indexed time is the unindexed time; ratio above 1 iff the index was faster |
| `Timing.AverageSubsequent` | src/tests/integration/test_query_optimization.py:227 | the average lies midway between the second and third samples, so between them |
| `Timing.PercentChange` | src/tests/integration/test_query_optimization.py:232-235 | the percentage times the first sample is 100 times the change; for a positive first sample it is at most zero iff the later value is not larger |
| `Timing.CachingPerformanceCheck` | src/tests/integration/test_query_optimization.py:222-237 | as written, three zero samples raise ZeroDivisionError |
| `Timing.ToleranceImpliesDegradationBound` | src/tests/integration/test_query_optimization.py:222-237 | with a positive first sample, the two per-sample checks imply a degradation of at most 20 percent |
| `Timing.CachingCheckPassesIffWithinTolerance` | src/tests/integration/test_query_optimization.py:222-237 | as written, passes iff the first sample is non-zero and the second and third are each at most 1.2 times it |
| `Timing.ZeroFirstSampleNeverPasses` | src/tests/integration/test_query_optimization.py:222-237 | with a zero first sample and non-negative later ones, the degradation branch is unreachable: non-zero later samples fail a tolerance assertion, zero ones divide by zero |
| `Timing.CachingPerformanceCheckGuarded` | src/tests/integration/test_query_optimization.py:222-237 | corrected rule, zero baseline skipped: can fail only with AssertionError |
| `Timing.GuardedCheckPassesIffWithinTolerance` | src/tests/integration/test_query_optimization.py:222-237 | corrected rule passes iff the second and third samples are each at most 1.2 times the first |
| `IndexCleanup.ContainsSubstring` | src/tests/integration/test_query_optimization.py:18 | the `'text' in name` search, tried at the front of the name and then one character further on |
| `IndexCleanup.ContainsSubstringMeaning` | src/tests/integration/test_query_optimization.py:18 | the search succeeds iff the pattern occurs at some position of the name, which is what Python's `in` on strings means |
| `IndexCleanup.Droppable` | src/tests/integration/test_query_optimization.py:18 | a name is dropped iff it is not `_id_` and `text` occurs at no position of it |
| `IndexCleanup.DroppableExamples` | src/tests/integration/test_query_optimization.py:18 | `_id_` and `title_text` are kept, `genres_1` is dropped |
| `IndexCleanup.Targets` | src/tests/integration/test_query_optimization.py:17-18 | the names the loop drops are exactly the listed names other than `_id_` and not containing `text` |
| `IndexCleanup.TargetsAppend` | src/tests/integration/test_query_optimization.py:17-18 | the targets of a concatenated listing are the targets of each part, in the same order, so the loop drops in listing order |
| `IndexCleanup.Without` | src/tests/integration/test_query_optimization.py:20 | after a drop, exactly the other names remain |
| `IndexCleanup.DropRaises` | src/tests/integration/test_query_optimization.py:20 | `drop_index` raises iff the index is absent or the server refuses it; a drop that does not raise shortens the index list |
| `IndexCleanup.RunDrops` | src/tests/integration/test_query_optimization.py:17-20 | the reference run of drops in order: it drops at most the given names, and the name it stops at is one whose drop raises against the indexes left at that point |
| `IndexCleanup.RunDropsStopsAtFirstError` | src/tests/integration/test_query_optimization.py:15-22 | dropped names are a prefix of the targets in order; the run stops only at the first drop that raises (the stopped-at drop raises against the indexes remaining) and attempts nothing after it; an index remains iff it was there and was not dropped |
| `IndexCleanup.DroppedWerePresent` | src/tests/integration/test_query_optimization.py:17-20 | every dropped name existed and was not refused |
| `IndexCleanup.RunDropsAllWhenNoneRefused` | src/tests/integration/test_query_optimization.py:17-20 | distinct, present, unrefused names are all dropped without an error |
| `IndexCleanup.CleanupKeepsProtectedIndexes` | src/tests/integration/test_query_optimization.py:18 | `_id_` and text indexes survive the cleanup whatever fails |
| `IndexCleanup.CleanupLeavesOnlyProtected` | src/tests/integration/test_query_optimization.py:15-22 | with unique names and no refused drop, exactly `_id_` and the text indexes remain |
| `IndexCleanup.HintTeardownStopsAfterFailedDrop` | src/tests/integration/test_query_optimization.py:386-390 | if dropping `test_hint_genres` raises, `test_hint_year` is never dropped and the index list is unchanged |
| `IndexCleanup.Collection.ListIndexes` | src/tests/integration/test_query_optimization.py:16 | returns the current index names in listing order |
| `IndexCleanup.Collection.DropIndex` | src/tests/integration/test_query_optimization.py:46-49 | raises iff the index is absent or refused; otherwise removes exactly that name |
| `IndexCleanup.Collection.CleanupIndexes` | src/tests/integration/test_query_optimization.py:15-22 | the loop's drops and the new index list are those of the stop-at-first-error run over the droppable names |
| `IndexCleanup.Collection.DropHintIndexes` | src/tests/integration/test_query_optimization.py:386-390 | the two teardown drops act as the stop-at-first-error run over the two hint indexes |
| `Assertions.DocsNotEmpty` | src/framework/assertions/utils.py:4-6 | passes iff the result has at least one document |
| `Assertions.FieldExists` | src/framework/assertions/utils.py:8-9 | passes iff the field is a top-level key of the document |
| `Assertions.HasFields` | src/framework/assertions/utils.py:60-61 | the inner loop succeeds iff the document has every expected field |
| `Assertions.AllHaveFields` | src/framework/assertions/utils.py:59-61 | the nested loops succeed iff every document has every expected field |
| `Assertions.QueryResultStructure` | src/framework/assertions/utils.py:55-61 | fails on an empty list; otherwise passes iff every document has every expected top-level field |
| `Assertions.StructureOfFewerFields` | src/framework/assertions/utils.py:55-61 | passing with a field list implies passing with any list drawn from it |
| `Assertions.TypesOk` | src/framework/assertions/utils.py:70-74 | the per-document check: every listed field present in the document has an accepted tag, so a document lacking every listed field passes |
| `Assertions.AllTypesOk` | src/framework/assertions/utils.py:69-74 | the nested loops succeed iff, in every document, every present listed field has an accepted type |
| `Assertions.DataTypesCorrect` | src/framework/assertions/utils.py:65-74 | fails on an empty list; a field absent from a document is skipped; a present one must carry one of its accepted types |
| `Assertions.LooserTypesKeepPass` | src/framework/assertions/utils.py:65-74 | widening accepted type sets or removing fields never turns a pass into a failure |
| `Assertions.AbsentFieldIsSkipped` | src/framework/assertions/utils.py:71 | a field no document has can be removed from the type map without changing the verdict |
| `Assertions.ExpectSuccess` | src/framework/assertions/utils.py:15-21 | passes iff the call raised nothing; an `Exception` becomes AssertionError, anything else escapes unchanged |
| `Assertions.ExpectFailure` | src/framework/assertions/utils.py:25-32 | as written: passes iff the call raised the expected class or a subclass, or succeeded while the expected class catches AssertionError; a failure is AssertionError, except that a raised class outside `Exception` escapes unchanged |
| `Assertions.ExpectFailureAcceptsSuccess` | src/framework/assertions/utils.py:25-32 | a successful call passes with `Exception` or `AssertionError` expected, and fails with `OperationFailure` expected |
| `Assertions.ExpectFailureIntended` | src/framework/assertions/utils.py:23-32 | corrected: passes iff the call raised the expected class or a subclass; a successful call always fails |
| `Assertions.ExpectFailureAgreesWithIntended` | src/framework/assertions/utils.py:23-32 | the as-written and corrected forms agree whenever the expected class does not catch AssertionError, so for the default OperationFailure |
| `Assertions.QueryExecutesSuccessfully` | src/framework/assertions/utils.py:13-21 | passes iff the find outcome raises nothing |
| `Assertions.QueryFailsWithError` | src/framework/assertions/utils.py:23-32 | passes iff the find raised the expected class, or succeeded while the expected class catches AssertionError; the failure class is AssertionError, or the raised class when it lies outside `Exception` |
| `Assertions.AggregationExecutesSuccessfully` | src/framework/assertions/utils.py:34-42 | passes iff the aggregate outcome raises nothing |
| `Assertions.AggregationFailsWithError` | src/framework/assertions/utils.py:44-53 | passes iff the aggregate raised the expected class, or succeeded while the expected class catches AssertionError; the failure class is AssertionError, or the raised class when it lies outside `Exception` |
| `Assertions.AggregationMirrorsFind` | src/framework/assertions/utils.py:34-53 | on the same outcome, the aggregation classifiers decide exactly as the find classifiers |

## Findings

| source | as written | input that shows it | evidently intended | confidence | as-written member | corrected member |
|---|---|---|---|---|---|---|
| src/tests/integration/test_query_optimization.py:362-384 | the hint assertions at lines 371 and 376 sit inside `try` ... `except Exception` (line 383), which only logs, so the AssertionError is swallowed | hinted plan `{stage: IXSCAN, indexName: test_hint_year}` with hint `test_hint_genres`: the test passes | a plan that ignores the hint fails the test | high, not executed | `PlanTree.HintMismatchSwallowed` (with `PlanTree.HintScenario`, `PlanTree.HintMismatchExample`) | `PlanTree.HintScenarioPropagating` (`PlanTree.HintScenarioPropagatingFailsIffMismatch`) |
| src/tests/integration/test_query_optimization.py:231-232 | when the average of the later samples is not above the first, the logged improvement percentage divides by `first_time`, also when it is zero | `first_time = second_time = third_time = 0.0` (a coarse clock): ZeroDivisionError | a zero baseline is special-cased and the samples pass the tolerance rule | medium, not executed | `Timing.CachingPerformanceCheck` (`Timing.ZeroFirstSampleNeverPasses`) | `Timing.CachingPerformanceCheckGuarded` (`Timing.GuardedCheckPassesIffWithinTolerance`) |
| src/framework/assertions/utils.py:25-32 | the `assert False` that flags an unexpected success is raised inside the `try`, so `except expected_error_type` catches it first | `expected_error_type=Exception` (or `AssertionError`) and a query that succeeds: the check passes | an unexpected success always fails the check | medium, not executed; every call in the repository passes OperationFailure, where the two agree | `Assertions.ExpectFailureAcceptsSuccess` (with `Assertions.ExpectFailure`) | `Assertions.ExpectFailureIntended` (`Assertions.ExpectFailureAgreesWithIntended`) |

## Left out

- The database. Which plan the server picks, the token values, result sets and index creation are inputs, not computed. A `Collection` of the assertion helpers maps each filter or pipeline to one outcome, so repeating a call is assumed to give the same outcome.
- `create_index` calls (lines 26, 82, 136, 192, 251, 306, 348-349). They have no local logic; the `"already exists"` test at lines 138 and 253 only decides whether to log.
- Wall-clock timing (`time.time()`): the durations are inputs. `print` and `json.dumps` logging is left out. So is the log-only comparison at lines 114-117, apart from the index name that the index-scan check logs.
- Floating point: timing is over `real`. The binary rounding of `1.2` and of float division is not captured.
- The explain result is assumed to carry `queryPlanner` with `winningPlan`, `queryHash` and `planCacheKey`, as its wire shape does. So a KeyError from a missing key is not modelled, the guards at lines 316, 357 and 365 are always taken, and the key assertions at 154-155 always hold.
- A dictionary key present with value `None` is modelled as absent. A stage value that is not a string is not modelled.
- The result-length assertions at lines 43, 106, 176, 216 and 293 are left out. They compare result sets that the database produces.
- A `list_indexes()` call that raises is not modelled; it would drop nothing. The server's refusal of a drop is the `refused` parameter. A drop of a missing name raises, as `drop_index` does.
- The single swallowed drops (lines 57-59, 120-123, 181-184, 239-242, 296-299, 338-341) are `Collection.DropIndex` with the error ignored.
- Python's real hierarchy is open-ended; the model uses a closed set of exception classes with their standard parents, which is an assumption. `except` against a tuple of classes is not modelled.
- Type checks use disjoint type tags: Python's `isinstance(True, int)` is true, but the model's `IntType` does not accept a `Bool`. A tuple of accepted types is a set of tags.
- `PlanTree.HintScenario`: its contract states only what can escape; that every plan passes is the lemma `PlanTree.HintMismatchSwallowed`.
- `Timing.CachingPerformanceCheck`: its contract states the zero case only; the full pass condition is the lemma `Timing.CachingCheckPassesIffWithinTolerance`.
- src/tests/integration/test_query_parsing.py, src/framework/queries/utils.py and src/framework/database/client.py are not part of this model. They hold database calls fed to the helpers, literal fixtures and connection bootstrap.
