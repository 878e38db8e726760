/** The registry of tests that have begun and not yet ended, keyed by test id.
    The reporter of `src/reporter.ts` has no such field: this registry is
    the behaviour the resilience tests of `test/reporter.test.ts` expect of a
    reporter's `testCases` map, kept apart from the reporters' own model.
    Only the set of ids matters to those tests, so the registry is a set.
 */
module PendingTests {
  import opened Playwright

  /** Beginning a test registers its id. */
  function AfterBegin(pending: set<string>, id: string): (p: set<string>)
    ensures forall other :: other in p <==> other == id || other in pending
  {
    pending + {id}
  }

  /** Ending a test drops its id; an id that is not registered is ignored. */
  function AfterEnd(pending: set<string>, id: string): (p: set<string>)
    ensures forall other :: other in p <==> other != id && other in pending
    ensures id !in pending ==> p == pending
  {
    pending - {id}
  }

  /** Ending a registered test shrinks the registry by exactly one. */
  lemma EndShrinks(pending: set<string>, id: string)
    requires id in pending
    ensures |AfterEnd(pending, id)| == |pending| - 1
  {
  }

  /** Ending the same test twice is the same as ending it once. */
  lemma EndTwice(pending: set<string>, id: string)
    ensures AfterEnd(AfterEnd(pending, id), id) == AfterEnd(pending, id)
  {
  }

  /** The ids of a sequence of tests, as a set. */
  function Ids(ids: seq<string>): (r: set<string>)
    ensures forall x :: x in r <==> x in ids
  {
    set i | 0 <= i < |ids| :: ids[i]
  }

  /** Begin every test of `ids`, in order. */
  function BeginAll(pending: set<string>, ids: seq<string>): set<string>
    decreases |ids|
  {
    if ids == [] then pending
    else AfterBegin(BeginAll(pending, ids[..|ids| - 1]), ids[|ids| - 1])
  }

  /** End every test of `ids`, in order. */
  function EndAll(pending: set<string>, ids: seq<string>): set<string>
    decreases |ids|
  {
    if ids == [] then pending
    else AfterEnd(EndAll(pending, ids[..|ids| - 1]), ids[|ids| - 1])
  }

  /** Begin then end each test of `ids` in turn. */
  function BeginEndEach(pending: set<string>, ids: seq<string>): set<string>
    decreases |ids|
  {
    if ids == [] then pending
    else
      var id := ids[|ids| - 1];
      AfterEnd(AfterBegin(BeginEndEach(pending, ids[..|ids| - 1]), id), id)
  }

  lemma {:induction false} BeginAllAdds(pending: set<string>, ids: seq<string>)
    ensures BeginAll(pending, ids) == pending + Ids(ids)
    decreases |ids|
  {
    if ids != [] {
      var prefix := ids[..|ids| - 1];
      BeginAllAdds(pending, prefix);
      assert Ids(ids) == Ids(prefix) + {ids[|ids| - 1]};
    }
  }

  lemma {:induction false} EndAllRemoves(pending: set<string>, ids: seq<string>)
    ensures EndAll(pending, ids) == pending - Ids(ids)
    decreases |ids|
  {
    if ids != [] {
      var prefix := ids[..|ids| - 1];
      var last := ids[|ids| - 1];
      EndAllRemoves(pending, prefix);
      assert EndAll(pending, ids) == (pending - Ids(prefix)) - {last};
      assert Ids(ids) == Ids(prefix) + {last};
    }
  }

  lemma {:induction false} BeginEndEachRemoves(pending: set<string>, ids: seq<string>)
    ensures BeginEndEach(pending, ids) == pending - Ids(ids)
    decreases |ids|
  {
    if ids != [] {
      var prefix := ids[..|ids| - 1];
      BeginEndEachRemoves(pending, prefix);
      assert Ids(ids) == Ids(prefix) + {ids[|ids| - 1]};
    }
  }

  /** Beginning N tests with distinct ids registers N ids. */
  lemma {:induction false} BeginAllSize(ids: seq<string>)
    requires forall i, j :: 0 <= i < j < |ids| ==> ids[i] != ids[j]
    ensures |BeginAll({}, ids)| == |ids|
    decreases |ids|
  {
    if ids != [] {
      var prefix := ids[..|ids| - 1];
      BeginAllSize(prefix);
      BeginAllAdds({}, prefix);
      assert ids[|ids| - 1] !in Ids(prefix);
    }
  }

  /** Beginning N tests and then ending all of them leaves nothing behind. */
  lemma {:induction false} LeakFree(ids: seq<string>)
    ensures EndAll(BeginAll({}, ids), ids) == {}
  {
    BeginAllAdds({}, ids);
    EndAllRemoves(BeginAll({}, ids), ids);
  }

  /** N begin/end pairs, one after the other, leave nothing behind. */
  lemma {:induction false} PairsLeakFree(ids: seq<string>)
    ensures BeginEndEach({}, ids) == {}
  {
    BeginEndEachRemoves({}, ids);
  }

  /** The registry object a reporter would hold. */
  class PendingRegistry {
    var pending: set<string>

    constructor ()
      ensures pending == {}
    {
      pending := {};
    }

    function Size(): nat
      reads this
    {
      |pending|
    }

    /** Register a test that began, under its id. */
    method Begin(test: TestCase)
      modifies this
      ensures pending == AfterBegin(old(pending), test.id)
    {
      pending := pending + {test.id};
    }

    /** Drop a test that ended, by its id; no error if it was never
        registered. */
    method End(test: TestCase)
      modifies this
      ensures pending == AfterEnd(old(pending), test.id)
    {
      pending := pending - {test.id};
    }
  }

  /** Three tests begin, then end one by one: the registry holds 3, 2, 1
      and finally 0 ids. */
  method CleanUpRun() returns (sizes: seq<nat>)
    ensures sizes == [3, 2, 1, 0]
  {
    var t1 := TestCase("test-1", "", "", "");
    var t2 := TestCase("test-2", "", "", "");
    var t3 := TestCase("test-3", "", "", "");
    var registry := new PendingRegistry();
    registry.Begin(t1);
    registry.Begin(t2);
    registry.Begin(t3);
    sizes := [registry.Size()];
    registry.End(t1);
    sizes := sizes + [registry.Size()];
    registry.End(t2);
    sizes := sizes + [registry.Size()];
    registry.End(t3);
    sizes := sizes + [registry.Size()];
  }

  /** An orphan end leaves the registry empty; a test begun once and ended
      twice leaves it empty after the first end and after the second. */
  method OrphanAndDuplicateRun() returns (sizes: seq<nat>)
    ensures sizes == [0, 1, 0, 0]
  {
    var orphan := TestCase("orphan-test", "", "", "");
    var duplicate := TestCase("duplicate-test", "", "", "");
    var registry := new PendingRegistry();
    registry.End(orphan);
    sizes := [registry.Size()];
    registry.Begin(duplicate);
    sizes := sizes + [registry.Size()];
    registry.End(duplicate);
    sizes := sizes + [registry.Size()];
    registry.End(duplicate);
    sizes := sizes + [registry.Size()];
  }
}
