/**
 * Index cleanup in the query-optimisation tests: the start-of-test loop that
 * drops every index except `_id_` and text indexes, and the end-of-test
 * drops, all inside `try` blocks whose errors are swallowed. A drop raises
 * when the index does not exist or when the server refuses it; `refused`
 * stands for the names the server refuses, which the tests cannot see.
 */
module IndexCleanup {
  import opened Wrappers

  /** `pattern` occurs in `name` starting at position `i`. */
  predicate OccursAt(name: string, pattern: string, i: int) {
    0 <= i && i + |pattern| <= |name| && name[i..i + |pattern|] == pattern
  }

  /** `pattern in name` for Python strings, tried at the front and then one character further on. */
  predicate ContainsSubstring(name: string, pattern: string)
    decreases |name|
  {
    (|pattern| <= |name| && name[..|pattern|] == pattern) ||
    (|name| > 0 && ContainsSubstring(name[1..], pattern))
  }

  /** Dropping the first character shifts every occurrence one position left. */
  lemma OccursAtTail(name: string, pattern: string, i: int)
    requires |name| > 0 && i >= 0
    ensures OccursAt(name[1..], pattern, i) <==> OccursAt(name, pattern, i + 1)
  {
    if i + |pattern| <= |name| - 1 {
      assert name[1..][i..i + |pattern|] == name[i + 1..i + 1 + |pattern|];
    }
  }

  /** The recursive search finds `pattern` exactly when it occurs at some position of `name`. */
  lemma {:induction false} ContainsSubstringMeaning(name: string, pattern: string)
    ensures ContainsSubstring(name, pattern) <==> exists i :: OccursAt(name, pattern, i)
    decreases |name|
  {
    if |pattern| <= |name| && name[..|pattern|] == pattern {
      assert OccursAt(name, pattern, 0);
    }
    if |name| > 0 {
      ContainsSubstringMeaning(name[1..], pattern);
      if exists i :: OccursAt(name[1..], pattern, i) {
        var i :| OccursAt(name[1..], pattern, i);
        OccursAtTail(name, pattern, i);
      }
      if exists i :: OccursAt(name, pattern, i) {
        var i :| OccursAt(name, pattern, i);
        if i > 0 {
          OccursAtTail(name, pattern, i - 1);
        } else {
          assert name[..|pattern|] == name[0..|pattern|];
        }
      }
    } else if exists i :: OccursAt(name, pattern, i) {
      var i :| OccursAt(name, pattern, i);
      assert name[..|pattern|] == name[i..i + |pattern|];
    }
  }

  /** Line 18: names the cleanup loop drops: not `_id_`, and `text` occurs nowhere in them. */
  predicate Droppable(name: string)
    ensures Droppable(name) <==> name != "_id_" && forall i :: !OccursAt(name, "text", i)
  {
    ContainsSubstringMeaning(name, "text");
    name != "_id_" && !ContainsSubstring(name, "text")
  }

  /** `_id_` and a text index are kept; an ordinary named index is dropped. */
  lemma DroppableExamples()
    ensures !Droppable("_id_")
    ensures !Droppable("title_text")
    ensures Droppable("genres_1")
  {
    assert "title_text"[6..][..4] == "text";
    assert ContainsSubstring("title_text"[6..], "text");
    NoSubstringWithoutChar("genres_1", "text", 'x');
  }

  /** A name lacking one of the pattern's characters cannot contain the pattern. */
  lemma {:induction false} NoSubstringWithoutChar(name: string, pattern: string, c: char)
    requires c in pattern && c !in name
    ensures !ContainsSubstring(name, pattern)
    decreases |name|
  {
    if |name| > 0 {
      NoSubstringWithoutChar(name[1..], pattern, c);
    }
  }

  /** The droppable names of a listing, in listing order. */
  function Targets(listing: seq<string>): (t: seq<string>)
    ensures forall x :: x in t ==> x in listing && Droppable(x)
    ensures forall x :: x in listing && Droppable(x) ==> x in t
  {
    if listing == [] then []
    else (if Droppable(listing[0]) then [listing[0]] else []) + Targets(listing[1..])
  }

  /** Filtering keeps listing order: the targets of a concatenation are the concatenated targets. */
  lemma {:induction false} TargetsAppend(a: seq<string>, b: seq<string>)
    ensures Targets(a + b) == Targets(a) + Targets(b)
  {
    if a == [] {
      assert a + b == b;
    } else {
      assert (a + b)[0] == a[0] && (a + b)[1..] == a[1..] + b;
      TargetsAppend(a[1..], b);
    }
  }

  /** The index list once `name` is dropped. */
  function Without(indexes: seq<string>, name: string): (r: seq<string>)
    ensures forall x :: x in r <==> x in indexes && x != name
    ensures |r| <= |indexes|
    ensures name in indexes ==> |r| < |indexes|
  {
    if indexes == [] then []
    else (if indexes[0] == name then [] else [indexes[0]]) + Without(indexes[1..], name)
  }

  /** `drop_index(name)` raises: no such index, or the server refuses it. */
  predicate DropRaises(name: string, indexes: seq<string>, refused: set<string>)
    ensures !DropRaises(name, indexes, refused) ==> |Without(indexes, name)| < |indexes|
  {
    name !in indexes || name in refused
  }

  /** The effect of a run of drops that stops at the first raised error. */
  datatype DropRun = DropRun(dropped: seq<string>, remaining: seq<string>, stoppedAt: Option<string>)

  /** Drops `names` in order from `indexes`; the first drop that raises ends the run. */
  function RunDrops(names: seq<string>, indexes: seq<string>, refused: set<string>): (r: DropRun)
    ensures |r.dropped| <= |names|
    ensures r.stoppedAt.Some? ==> DropRaises(r.stoppedAt.value, r.remaining, refused)
  {
    if names == [] then DropRun([], indexes, None)
    else if DropRaises(names[0], indexes, refused) then DropRun([], indexes, Some(names[0]))
    else
      var rest := RunDrops(names[1..], Without(indexes, names[0]), refused);
      DropRun([names[0]] + rest.dropped, rest.remaining, rest.stoppedAt)
  }

  /** Unfolds a run whose first name is `name`. */
  lemma RunDropsStep(name: string, rest: seq<string>, indexes: seq<string>, refused: set<string>)
    ensures RunDrops([name] + rest, indexes, refused) ==
      if DropRaises(name, indexes, refused) then DropRun([], indexes, Some(name))
      else
        var r := RunDrops(rest, Without(indexes, name), refused);
        DropRun([name] + r.dropped, r.remaining, r.stoppedAt)
  {
  }

  /** The dropped names are a prefix of `names`, and the run stops at the name right after them. */
  lemma {:induction false} RunDropsPrefix(names: seq<string>, indexes: seq<string>, refused: set<string>)
    ensures var r := RunDrops(names, indexes, refused);
      r.dropped == names[..|r.dropped|] &&
      (r.stoppedAt.None? <==> r.dropped == names) &&
      (r.stoppedAt.Some? ==> |r.dropped| < |names| && r.stoppedAt.value == names[|r.dropped|])
  {
    if names != [] && !DropRaises(names[0], indexes, refused) {
      RunDropsPrefix(names[1..], Without(indexes, names[0]), refused);
      assert names == [names[0]] + names[1..];
    }
  }

  /** An index remains exactly when it was there and was not dropped. */
  lemma {:induction false} RunDropsRemaining(names: seq<string>, indexes: seq<string>, refused: set<string>)
    ensures var r := RunDrops(names, indexes, refused);
      forall x :: x in r.remaining <==> x in indexes && x !in r.dropped
  {
    if names != [] && !DropRaises(names[0], indexes, refused) {
      RunDropsRemaining(names[1..], Without(indexes, names[0]), refused);
    }
  }

  /**
   * The dropped names are a prefix of `names`; the run stops only at the
   * first name whose drop raises, and nothing after it is attempted; an index
   * remains exactly when it was there and was not dropped.
   */
  lemma RunDropsStopsAtFirstError(names: seq<string>, indexes: seq<string>, refused: set<string>)
    ensures var r := RunDrops(names, indexes, refused);
      |r.dropped| <= |names| && r.dropped == names[..|r.dropped|] &&
      (r.stoppedAt.None? <==> r.dropped == names) &&
      (r.stoppedAt.Some? ==> |r.dropped| < |names| && r.stoppedAt.value == names[|r.dropped|]) &&
      (r.stoppedAt.Some? ==> DropRaises(r.stoppedAt.value, r.remaining, refused)) &&
      (forall x :: x in r.remaining <==> x in indexes && x !in r.dropped)
  {
    RunDropsPrefix(names, indexes, refused);
    RunDropsRemaining(names, indexes, refused);
  }

  /** Each attempted drop that came before the stop point succeeded: its name was present and not refused. */
  lemma {:induction false} DroppedWerePresent(names: seq<string>, indexes: seq<string>, refused: set<string>)
    ensures forall x :: x in RunDrops(names, indexes, refused).dropped ==> x in indexes && x !in refused
  {
    if names != [] && !DropRaises(names[0], indexes, refused) {
      DroppedWerePresent(names[1..], Without(indexes, names[0]), refused);
    }
  }

  /** No duplicate names (index names are unique within a collection). */
  predicate Distinct(names: seq<string>) {
    forall i, j :: 0 <= i < j < |names| ==> names[i] != names[j]
  }

  /** The tail of a distinct list is distinct and does not hold its head. */
  lemma DistinctTail(names: seq<string>)
    requires names != [] && Distinct(names)
    ensures Distinct(names[1..]) && names[0] !in names[1..]
  {
    var rest := names[1..];
    forall x | x in rest ensures x != names[0] {
      var k :| 0 <= k < |rest| && rest[k] == x;
      assert names[k + 1] == x;
    }
    forall i, j | 0 <= i < j < |rest| ensures rest[i] != rest[j] {
      assert rest[i] == names[i + 1] && rest[j] == names[j + 1];
    }
  }

  /** When every name is present, distinct and not refused, the run drops all of them. */
  lemma {:induction false} RunDropsAllWhenNoneRefused(names: seq<string>, indexes: seq<string>, refused: set<string>)
    requires Distinct(names)
    requires forall x :: x in names ==> x in indexes && x !in refused
    ensures RunDrops(names, indexes, refused).stoppedAt.None?
    ensures RunDrops(names, indexes, refused).dropped == names
  {
    if names != [] {
      var rest := names[1..];
      DistinctTail(names);
      var after := Without(indexes, names[0]);
      forall x | x in rest ensures x in after && x !in refused {
        assert x in names && x != names[0];
      }
      RunDropsAllWhenNoneRefused(rest, after, refused);
      assert !DropRaises(names[0], indexes, refused);
      assert RunDrops(names, indexes, refused).dropped == [names[0]] + rest;
    }
  }

  /** The cleanup never drops `_id_` or an index whose name contains `text`. */
  lemma CleanupKeepsProtectedIndexes(listing: seq<string>, indexes: seq<string>, refused: set<string>, name: string)
    requires name in indexes && !Droppable(name)
    ensures name in RunDrops(Targets(listing), indexes, refused).remaining
  {
    RunDropsStopsAtFirstError(Targets(listing), indexes, refused);
  }

  /** Unhindered, the cleanup leaves exactly `_id_` and the text indexes. */
  lemma CleanupLeavesOnlyProtected(indexes: seq<string>, refused: set<string>)
    requires Distinct(indexes)
    requires forall x :: x in indexes && Droppable(x) ==> x !in refused
    ensures forall x :: x in RunDrops(Targets(indexes), indexes, refused).remaining <==> x in indexes && !Droppable(x)
  {
    TargetsDistinct(indexes);
    RunDropsAllWhenNoneRefused(Targets(indexes), indexes, refused);
    RunDropsStopsAtFirstError(Targets(indexes), indexes, refused);
  }

  lemma {:induction false} TargetsDistinct(listing: seq<string>)
    requires Distinct(listing)
    ensures Distinct(Targets(listing))
  {
    if listing != [] {
      DistinctTail(listing);
      TargetsDistinct(listing[1..]);
    }
  }

  /** One step of the cleanup loop: the targets of `listing[i..]` start with `listing[i]` when it is droppable. */
  lemma TargetsStep(listing: seq<string>, i: nat)
    requires i < |listing|
    ensures Targets(listing[i..]) ==
      (if Droppable(listing[i]) then [listing[i]] else []) + Targets(listing[i + 1..])
  {
  }

  /** One step of the cleanup run over `listing[i..]`: skip, stop, or drop `listing[i]` and go on. */
  lemma CleanupRunStep(listing: seq<string>, i: nat, indexes: seq<string>, refused: set<string>)
    requires i < |listing|
    ensures var r := RunDrops(Targets(listing[i..]), indexes, refused);
      var name := listing[i];
      if !Droppable(name) then
        r == RunDrops(Targets(listing[i + 1..]), indexes, refused)
      else if DropRaises(name, indexes, refused) then
        r.dropped == [] && r.remaining == indexes
      else
        var next := RunDrops(Targets(listing[i + 1..]), Without(indexes, name), refused);
        r.dropped == [name] + next.dropped && r.remaining == next.remaining
  {
    TargetsStep(listing, i);
    if Droppable(listing[i]) {
      RunDropsStep(listing[i], Targets(listing[i + 1..]), indexes, refused);
    } else {
      assert Targets(listing[i..]) == Targets(listing[i + 1..]);
    }
  }

  lemma AppendAssoc(a: seq<string>, b: seq<string>, c: seq<string>)
    ensures a + (b + c) == (a + b) + c
  {
  }

  /** The two teardown drops of the hint test (lines 386-390). */
  const HINT_INDEXES := ["test_hint_genres", "test_hint_year"]

  /** If dropping `test_hint_genres` raises, `test_hint_year` is never dropped. */
  lemma HintTeardownStopsAfterFailedDrop(indexes: seq<string>, refused: set<string>)
    requires DropRaises("test_hint_genres", indexes, refused)
    ensures RunDrops(HINT_INDEXES, indexes, refused).remaining == indexes
    ensures RunDrops(HINT_INDEXES, indexes, refused).stoppedAt == Some("test_hint_genres")
  {
  }

  /** The `movies` collection's index set, in listing order. */
  class Collection {
    var indexes: seq<string>

    constructor (initial: seq<string>)
      ensures indexes == initial
    {
      indexes := initial;
    }

    /** `list_indexes()`: a snapshot of the current names. */
    method ListIndexes() returns (names: seq<string>)
      ensures names == indexes
    {
      names := indexes;
    }

    /** `drop_index(name)`: `raised` reports the error the call would raise. */
    method DropIndex(name: string, refused: set<string>) returns (raised: bool)
      modifies this
      ensures raised == DropRaises(name, old(indexes), refused)
      ensures indexes == if raised then old(indexes) else Without(old(indexes), name)
    {
      raised := DropRaises(name, indexes, refused);
      if !raised {
        indexes := Without(indexes, name);
      }
    }

    /**
     * Lines 15-22: list the indexes, then drop each droppable one in listing
     * order; the first raised error leaves the loop and is swallowed.
     */
    method CleanupIndexes(refused: set<string>) returns (dropped: seq<string>)
      modifies this
      ensures dropped == RunDrops(Targets(old(indexes)), old(indexes), refused).dropped
      ensures indexes == RunDrops(Targets(old(indexes)), old(indexes), refused).remaining
    {
      var listing := ListIndexes();
      ghost var whole := RunDrops(Targets(listing), listing, refused);
      dropped := [];
      var i := 0;
      while i < |listing|
        invariant 0 <= i <= |listing|
        invariant whole.dropped == dropped + RunDrops(Targets(listing[i..]), indexes, refused).dropped
        invariant whole.remaining == RunDrops(Targets(listing[i..]), indexes, refused).remaining
      {
        var name := listing[i];
        CleanupRunStep(listing, i, indexes, refused);
        if Droppable(name) {
          ghost var next := RunDrops(Targets(listing[i + 1..]), Without(indexes, name), refused);
          var raised := DropIndex(name, refused);
          if raised {
            break;
          }
          AppendAssoc(dropped, [name], next.dropped);
          dropped := dropped + [name];
        }
        i := i + 1;
      }
    }

    /** Lines 386-390: drop both hint indexes; a raised error skips the second drop. */
    method DropHintIndexes(refused: set<string>)
      modifies this
      ensures indexes == RunDrops(HINT_INDEXES, old(indexes), refused).remaining
    {
      RunDropsStep("test_hint_genres", ["test_hint_year"], indexes, refused);
      var raised := DropIndex("test_hint_genres", refused);
      if !raised {
        RunDropsStep("test_hint_year", [], indexes, refused);
        raised := DropIndex("test_hint_year", refused);
      }
    }
  }
}
