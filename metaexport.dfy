/**
 * The run recorder of the pytest plugin: per-test metadata records kept in
 * first-touch order, three outcome counters, the collection and log-report
 * hooks that update them, and the end-of-session decision whether to emit a
 * summary of them.
 */
module MetaExport {
  import opened Wrappers
  import opened OrderedDict

  /** A metadata value: record fields hold strings, integers, floats, or anything else an author attached. */
  datatype Value = Str(s: string) | Int(i: int) | Float(f: real) | Other(repr: string)

  /** One test's record: field name to value. */
  type Record = map<string, Value>

  /** `test_metadata`: node id to record, in the order node ids were first touched. */
  type Metadata = Dict<string, Record>

  /** A collected test item: its node id, its short name, and the `_custom_meta` dict of its function if it has one. */
  datatype Item = Item(nodeid: string, name: string, customMeta: Option<Record>)

  /** One phase report of one test: `when` is "setup", "call" or "teardown". */
  datatype Report = Report(nodeid: string, when: string, outcome: string, duration: real)

  /** `test_state`: the three outcome counters. */
  datatype Counters = Counters(passed: nat, failed: nat, skipped: nat)

  /** What the session-finish hook reads from pytest: the truthy option names, and `testscollected` if set. */
  datatype Session = Session(options: set<string>, testsCollected: Option<int>)

  /** The emitted summary, without its wall-clock fields `run_date` and `duration_seconds`. */
  datatype Summary = Summary(collected: int, passed: nat, skipped: nat, failed: nat, tests: seq<Record>)

  /** The state after a log report, and whether the hook returned normally (false: it raised `KeyError`). */
  datatype Logged = Logged(metadata: Metadata, counters: Counters, ok: bool)

  const NoTests: Counters := Counters(0, 0, 0)

  /** Option names that mean pytest only collects. */
  const CollectFlags: seq<string> := ["collectonly", "collect_only", "co", "dry_run"]

  /** Exit statuses that mean no test ran (5: no tests collected). */
  const CollectionExitCodes: seq<int> := [5]

  // ---------------------------------------------------------------- counters

  /** The keys of `test_state`. */
  predicate IsCounterKey(o: string) {
    o == "passed" || o == "failed" || o == "skipped"
  }

  /** `test_state[o]` */
  function Count(c: Counters, o: string): nat
    requires IsCounterKey(o)
  {
    if o == "passed" then c.passed else if o == "failed" then c.failed else c.skipped
  }

  function Total(c: Counters): nat {
    c.passed + c.failed + c.skipped
  }

  /** `test_state[o] += 1`: counter `o` goes up by one, the other two stay. */
  function Bump(c: Counters, o: string): (r: Counters)
    requires IsCounterKey(o)
    ensures Count(r, o) == Count(c, o) + 1
    ensures forall o' :: IsCounterKey(o') && o' != o ==> Count(r, o') == Count(c, o')
    ensures Total(r) == Total(c) + 1
  {
    if o == "passed" then c.(passed := c.passed + 1)
    else if o == "failed" then c.(failed := c.failed + 1)
    else c.(skipped := c.skipped + 1)
  }

  // ---------------------------------------------------------------- records

  /** `test_metadata[id]` as read: the stored record, or the empty dict the defaultdict creates. */
  function RecordOf(md: Metadata, id: string): (rec: Record)
    ensures id in md.vals ==> rec == md.vals[id]
    ensures id !in md.vals ==> rec == map[]
  {
    if id in md.vals then md.vals[id] else map[]
  }

  /** The fields the item's author declared (`meta` in the collection hook). */
  function Declared(item: Item): (meta: Record)
    ensures item.customMeta == None ==> meta == map[]
    ensures item.customMeta.Some? ==> meta == item.customMeta.value
  {
    if item.customMeta.Some? then item.customMeta.value else map[]
  }

  /**
   * `rec` is `prev` after one iteration of the collection hook: the
   * declared fields overwrite, `nodeid` is the item's node id, `title` keeps
   * a present value and is otherwise the item's name, and every other field
   * is kept.
   */
  ghost predicate MergedFields(prev: Record, item: Item, rec: Record) {
    && rec.Keys == prev.Keys + Declared(item).Keys + {"nodeid", "title"}
    && rec["nodeid"] == Str(item.nodeid)
    && rec["title"] == (if "title" in Declared(item) then Declared(item)["title"]
                        else if "title" in prev then prev["title"]
                        else Str(item.name))
    && (forall k :: k in Declared(item) && k != "nodeid" ==> rec[k] == Declared(item)[k])
    && (forall k :: k in prev && k !in Declared(item) && k != "nodeid" ==> rec[k] == prev[k])
  }

  /**
   * One iteration of the collection hook on the item's record: the record
   * is updated with the declared metadata, `nodeid` is forced and `title`
   * is set only when absent.
   */
  function Merge(prev: Record, item: Item): (rec: Record)
    ensures MergedFields(prev, item, rec)
  {
    var rec := (prev + Declared(item))["nodeid" := Str(item.nodeid)];
    if "title" in rec then rec else rec["title" := Str(item.name)]
  }

  /** One iteration of the collection hook, on the whole metadata. */
  function CollectOne(md: Metadata, item: Item): (r: Metadata)
    ensures r.keys == if item.nodeid in md.vals then md.keys else md.keys + [item.nodeid]
    ensures r.vals.Keys == md.vals.Keys + {item.nodeid}
    ensures r.vals[item.nodeid] == Merge(RecordOf(md, item.nodeid), item)
    ensures forall id :: id in md.vals && id != item.nodeid ==> r.vals[id] == md.vals[id]
  {
    var rec := Merge(RecordOf(md, item.nodeid), item);
    Set(md, item.nodeid, rec)
  }

  /** The node ids of a list of items. */
  function IdsOf(items: seq<Item>): set<string> {
    set it | it in items :: it.nodeid
  }

  /** The collection hook over all items, in order. */
  function CollectAll(md: Metadata, items: seq<Item>): (r: Metadata)
    ensures md.keys <= r.keys
    ensures r.vals.Keys == md.vals.Keys + IdsOf(items)
    decreases |items|
  {
    if items == [] then md
    else
      var init := items[..|items| - 1];
      assert items == init + [items[|items| - 1]];
      CollectOne(CollectAll(md, init), items[|items| - 1])
  }

  /** Collecting one more item is one more iteration. */
  lemma CollectAllStep(md: Metadata, items: seq<Item>, i: nat)
    requires i < |items|
    ensures CollectAll(md, items[..i + 1]) == CollectOne(CollectAll(md, items[..i]), items[i])
  {
    assert items[..i + 1][..i] == items[..i];
  }

  // ---------------------------------------------------------------- reports

  /** The reports the log-report hook acts on: every `call` report, and a skipped `setup`. */
  predicate Touches(r: Report) {
    r.when == "call" || (r.when == "setup" && r.outcome == "skipped")
  }

  /** The reports that bump a counter: those it acts on, except a `call` whose outcome is no counter key. */
  predicate Counted(r: Report) {
    (r.when == "call" && IsCounterKey(r.outcome)) || (r.when == "setup" && r.outcome == "skipped")
  }

  /** `test_metadata[id]["status"] = s; test_metadata[id]["duration"] = d` */
  function SetResult(md: Metadata, id: string, status: string, duration: Value): (r: Metadata)
    ensures r.keys == if id in md.vals then md.keys else md.keys + [id]
    ensures r.vals.Keys == md.vals.Keys + {id}
    ensures forall id' :: id' in md.vals && id' != id ==> r.vals[id'] == md.vals[id']
    ensures r.vals[id] == RecordOf(md, id)["status" := Str(status)]["duration" := duration]
  {
    Set(md, id, RecordOf(md, id)["status" := Str(status)]["duration" := duration])
  }

  /**
   * The log-report hook. A `call` report records its outcome and duration
   * and bumps that outcome's counter; a skipped `setup` records "skipped"
   * with duration 0 and bumps `skipped`; anything else changes nothing. A
   * `call` outcome that is no counter key raises after the record was
   * written, so the record changes and the counters do not.
   */
  function Log(md: Metadata, c: Counters, r: Report): (res: Logged)
    ensures res.ok <==> !(r.when == "call" && !IsCounterKey(r.outcome))
    ensures Total(res.counters) == Total(c) + (if Counted(r) then 1 else 0)
    ensures Counted(r) ==> Count(res.counters, r.outcome) == Count(c, r.outcome) + 1
    ensures forall o :: IsCounterKey(o) && o != r.outcome ==> Count(res.counters, o) == Count(c, o)
    ensures !Touches(r) ==> res.metadata == md && res.counters == c
    ensures Touches(r) ==>
      && res.metadata.keys == (if r.nodeid in md.vals then md.keys else md.keys + [r.nodeid])
      && (forall id :: id in md.vals && id != r.nodeid ==> res.metadata.vals[id] == md.vals[id])
      && res.metadata.vals[r.nodeid]
         == RecordOf(md, r.nodeid)["status" := Str(r.outcome)]
                                       ["duration" := if r.when == "call" then Float(r.duration) else Int(0)]
  {
    if r.when == "call" then
      var md' := SetResult(md, r.nodeid, r.outcome, Float(r.duration));
      if IsCounterKey(r.outcome) then Logged(md', Bump(c, r.outcome), true)
      else Logged(md', c, false)
    else if r.when == "setup" && r.outcome == "skipped" then
      Logged(SetResult(md, r.nodeid, r.outcome, Int(0)), Bump(c, r.outcome), true)
    else
      Logged(md, c, true)
  }

  // ---------------------------------------------------------------- session finish

  /** `getattr(session, "testscollected", 0)` */
  function Collected(s: Session): (n: int)
    ensures s.testsCollected == None ==> n == 0
    ensures s.testsCollected.Some? ==> n == s.testsCollected.value
  {
    s.testsCollected.GetOr(0)
  }

  /** Some collect-only option is set. */
  function CollectOnly(options: set<string>): (b: bool)
    ensures b <==> "collectonly" in options || "collect_only" in options || "co" in options || "dry_run" in options
  {
    exists f :: f in options && f in CollectFlags
  }

  /** The session-finish gate: no collect-only option, not a run without failures, no "no tests" exit status. */
  function ShouldEmit(s: Session, failed: nat, exitstatus: int): (b: bool)
    ensures b <==> && !CollectOnly(s.options)
                   && (s.testsCollected.GetOr(0) <= 0 || failed > 0)
                   && exitstatus != 5
  {
    && !CollectOnly(s.options)
    && !(Collected(s) > 0 && failed == 0)
    && exitstatus !in CollectionExitCodes
  }

  /** The summary built from the state, with the records in first-touch order. */
  function BuildSummary(md: Metadata, c: Counters, collected: int): (s: Summary)
    ensures s.collected == collected
    ensures s.passed == c.passed && s.skipped == c.skipped && s.failed == c.failed
    ensures |s.tests| == |md.keys|
    ensures forall i :: 0 <= i < |md.keys| ==> s.tests[i] == md.vals[md.keys[i]]
  {
    Summary(collected, c.passed, c.skipped, c.failed, Values(md))
  }

  /** What the session-finish hook emits, if anything. */
  function Finish(md: Metadata, c: Counters, s: Session, exitstatus: int): (out: Option<Summary>)
    ensures out.Some? <==> ShouldEmit(s, c.failed, exitstatus)
    ensures out.Some? ==>
      && out.value.collected == Collected(s)
      && out.value.passed == c.passed && out.value.skipped == c.skipped && out.value.failed == c.failed
      && |out.value.tests| == |md.keys|
      && (forall i :: 0 <= i < |md.keys| ==> out.value.tests[i] == md.vals[md.keys[i]])
  {
    if ShouldEmit(s, c.failed, exitstatus) then Some(BuildSummary(md, c, Collected(s))) else None
  }

  // ---------------------------------------------------------------- the recorder

  /** The plugin's module-level state, `test_metadata` and `test_state`, and its hooks. */
  class Recorder {
    var metadata: Metadata
    var counters: Counters

    /** Module import: no records, all counters zero. */
    constructor ()
      ensures metadata.keys == [] && metadata.vals == map[]
      ensures counters == NoTests
    {
      metadata := Empty();
      counters := NoTests;
    }

    /** `pytest_collection_modifyitems` */
    method CollectionModifyItems(items: seq<Item>)
      modifies this
      ensures metadata == CollectAll(old(metadata), items)
      ensures counters == old(counters)
    {
      var i := 0;
      while i < |items|
        invariant 0 <= i <= |items|
        invariant metadata == CollectAll(old(metadata), items[..i])
        invariant counters == old(counters)
      {
        var rec := UpdateRecord(RecordOf(metadata, items[i].nodeid), items[i]);
        CollectAllStep(old(metadata), items, i);
        metadata := Set(metadata, items[i].nodeid, rec);
        i := i + 1;
      }
      assert items[..i] == items;
    }

    /** The body of the collection loop, on the item's record. */
    static method UpdateRecord(prev: Record, item: Item) returns (rec: Record)
      ensures rec == Merge(prev, item)
    {
      var meta: Record := map[];
      if item.customMeta.Some? {
        meta := meta + item.customMeta.value;
      }
      assert meta == Declared(item);
      rec := prev + meta;
      rec := rec["nodeid" := Str(item.nodeid)];
      if "title" !in rec {
        rec := rec["title" := Str(item.name)];
      }
    }

    /** `pytest_runtest_logreport`; `ok` is false when the hook raises `KeyError`. */
    method RuntestLogreport(r: Report) returns (ok: bool)
      modifies this
      ensures Logged(metadata, counters, ok) == Log(old(metadata), old(counters), r)
    {
      ok := true;
      if r.when == "call" {
        metadata := SetResult(metadata, r.nodeid, r.outcome, Float(r.duration));
        if IsCounterKey(r.outcome) {
          counters := Bump(counters, r.outcome);
        } else {
          ok := false;
        }
      } else if r.when == "setup" && r.outcome == "skipped" {
        metadata := SetResult(metadata, r.nodeid, r.outcome, Int(0));
        counters := Bump(counters, r.outcome);
      }
    }

    /** `pytest_sessionfinish`, up to the file write: the summary to write, or None when it returns early. */
    method SessionFinish(s: Session, exitstatus: int) returns (out: Option<Summary>)
      ensures out.Some? <==> ShouldEmit(s, counters.failed, exitstatus)
      ensures out.Some? ==> out.value == BuildSummary(metadata, counters, Collected(s))
    {
      for j := 0 to |CollectFlags|
        invariant forall m :: 0 <= m < j ==> CollectFlags[m] !in s.options
      {
        if CollectFlags[j] in s.options {
          return None;
        }
      }
      var collected := s.testsCollected.GetOr(0);
      if collected > 0 && counters.failed == 0 {
        return None;
      }
      if exitstatus in CollectionExitCodes {
        return None;
      }
      out := Some(Summary(collected, counters.passed, counters.skipped, counters.failed, Values(metadata)));
    }
  }
}
