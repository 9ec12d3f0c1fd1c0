/**
 * Properties of whole runs of the recorder: what the collection hook
 * guarantees for every item, what a sequence of log reports does to the
 * counters, the first-touch order of the records, and the summary seen at
 * the end of a session.
 */
module RunProperties {
  import opened Wrappers
  import opened OrderedDict
  import opened MetaExport

  // ---------------------------------------------------------------- collection

  /** The node ids of the items, in order. */
  function NodeIds(items: seq<Item>): (ids: seq<string>)
    ensures |ids| == |items|
    ensures forall i :: 0 <= i < |items| ==> ids[i] == items[i].nodeid
  {
    if items == [] then [] else [items[0].nodeid] + NodeIds(items[1..])
  }

  /** The ids of `ids` not in `known`, each once, in the order of their first occurrence. */
  function FirstTouches(known: set<string>, ids: seq<string>): (r: seq<string>)
    decreases |ids|
  {
    if ids == [] then []
    else
      var init, last := ids[..|ids| - 1], ids[|ids| - 1];
      assert ids == init + [last];
      var r := FirstTouches(known, init);
      if last in known || last in init then r else r + [last]
  }

  /** After collection every item's record carries its node id and a title. */
  lemma {:induction false} CollectStampsEveryItem(md: Metadata, items: seq<Item>, it: Item)
    requires it in items
    ensures var r := CollectAll(md, items);
      && it.nodeid in r.vals
      && "nodeid" in r.vals[it.nodeid] && r.vals[it.nodeid]["nodeid"] == Str(it.nodeid)
      && "title" in r.vals[it.nodeid]
    decreases |items|
  {
    var init, last := items[..|items| - 1], items[|items| - 1];
    var before := CollectAll(md, init);
    assert CollectAll(md, items) == CollectOne(before, last);
    if last.nodeid != it.nodeid {
      assert items == init + [last];
      CollectStampsEveryItem(md, init, it);
    }
  }

  /** Collection leaves the records of node ids it does not see untouched. */
  lemma {:induction false} CollectLeavesOthers(md: Metadata, items: seq<Item>, id: string)
    requires id in md.vals && id !in IdsOf(items)
    ensures CollectAll(md, items).vals[id] == md.vals[id]
    decreases |items|
  {
    if items != [] {
      var init, last := items[..|items| - 1], items[|items| - 1];
      assert items == init + [last];
      assert IdsOf(init) <= IdsOf(items);
      CollectLeavesOthers(md, init, id);
    }
  }

  /**
   * Collection never removes or resets a field: a field other than `nodeid`
   * keeps its value unless the item's declared metadata names it. In
   * particular `status` and `duration` survive a second collection.
   */
  lemma {:induction false} CollectKeepsFields(md: Metadata, items: seq<Item>, id: string, k: string)
    requires id in md.vals && k in md.vals[id] && k != "nodeid"
    requires forall it :: it in items && it.nodeid == id ==> k !in Declared(it)
    ensures k in CollectAll(md, items).vals[id]
    ensures CollectAll(md, items).vals[id][k] == md.vals[id][k]
    decreases |items|
  {
    if items != [] {
      var init, last := items[..|items| - 1], items[|items| - 1];
      assert items == init + [last];
      CollectKeepsFields(md, init, id, k);
    }
  }

  /** A collection step keeps a present title that the item does not declare. */
  lemma CollectOneKeepsTitle(p: Metadata, it: Item, id: string)
    requires id in p.vals && "title" in p.vals[id]
    requires it.nodeid == id ==> "title" !in Declared(it)
    ensures "title" in CollectOne(p, it).vals[id]
    ensures CollectOne(p, it).vals[id]["title"] == p.vals[id]["title"]
  {
  }

  /** The title given by the first item with a node id, when no item declares one. */
  lemma CollectTitleFirst(md: Metadata, items: seq<Item>)
    requires items != []
    requires items[|items| - 1].nodeid !in IdsOf(items[..|items| - 1])
    requires "title" !in Declared(items[|items| - 1])
    ensures var it := items[|items| - 1]; var rec := CollectAll(md, items).vals[it.nodeid];
      && "title" in rec
      && rec["title"] == if "title" in RecordOf(md, it.nodeid) then RecordOf(md, it.nodeid)["title"] else Str(it.name)
  {
    var init, last := items[..|items| - 1], items[|items| - 1];
    if last.nodeid in md.vals {
      CollectLeavesOthers(md, init, last.nodeid);
    }
    assert RecordOf(CollectAll(md, init), last.nodeid) == RecordOf(md, last.nodeid);
  }

  /**
   * The title of a collected test: with no declared `title`, it is the
   * title the record already had, otherwise the name of the first item
   * with that node id.
   */
  lemma {:induction false} CollectTitle(md: Metadata, items: seq<Item>, i: nat)
    requires i < |items|
    requires forall j :: 0 <= j < i ==> items[j].nodeid != items[i].nodeid
    requires forall it :: it in items && it.nodeid == items[i].nodeid ==> "title" !in Declared(it)
    ensures var id := items[i].nodeid; var rec := CollectAll(md, items).vals[id];
      && "title" in rec
      && rec["title"] == if "title" in RecordOf(md, id) then RecordOf(md, id)["title"] else Str(items[i].name)
    decreases |items|
  {
    var init, last := items[..|items| - 1], items[|items| - 1];
    assert items == init + [last];
    if i == |items| - 1 {
      CollectTitleFirst(md, items);
    } else {
      assert items[i] in init;
      CollectTitle(md, init, i);
      CollectOneKeepsTitle(CollectAll(md, init), last, items[i].nodeid);
    }
  }

  /**
   * A field an item declares ends up in its record after collection, with
   * the declared value, unless a later item with the same node id declares
   * it again; `title` included.
   */
  lemma {:induction false} CollectDeclared(md: Metadata, items: seq<Item>, i: nat, k: string)
    requires i < |items| && k in Declared(items[i]) && k != "nodeid"
    requires forall j :: i < j < |items| && items[j].nodeid == items[i].nodeid ==> k !in Declared(items[j])
    ensures k in CollectAll(md, items).vals[items[i].nodeid]
    ensures CollectAll(md, items).vals[items[i].nodeid][k] == Declared(items[i])[k]
    decreases |items|
  {
    var init, last := items[..|items| - 1], items[|items| - 1];
    var before := CollectAll(md, init);
    assert CollectAll(md, items) == CollectOne(before, last);
    if i < |items| - 1 {
      assert init[i] == items[i];
      CollectDeclared(md, init, i, k);
    }
    CollectOneDeclared(before, last, items[i].nodeid, k);
  }

  /** One collection step writes a declared field and keeps any other present field but `nodeid`. */
  lemma CollectOneDeclared(md: Metadata, item: Item, id: string, k: string)
    requires k != "nodeid"
    ensures item.nodeid == id && k in Declared(item) ==>
      k in CollectOne(md, item).vals[id] && CollectOne(md, item).vals[id][k] == Declared(item)[k]
    ensures id in md.vals && k in md.vals[id] && !(item.nodeid == id && k in Declared(item)) ==>
      k in CollectOne(md, item).vals[id] && CollectOne(md, item).vals[id][k] == md.vals[id][k]
  {
  }

  lemma FirstTouchesSnoc(known: set<string>, ids: seq<string>, x: string)
    ensures FirstTouches(known, ids + [x])
         == if x in known || x in ids then FirstTouches(known, ids) else FirstTouches(known, ids) + [x]
  {
    assert (ids + [x])[..|ids|] == ids;
  }

  lemma NodeIdsSnoc(items: seq<Item>, it: Item)
    ensures NodeIds(items + [it]) == NodeIds(items) + [it.nodeid]
  {
  }

  lemma NodeIdsCover(items: seq<Item>)
    ensures forall x :: x in IdsOf(items) <==> x in NodeIds(items)
  {
    forall x | x in IdsOf(items) ensures x in NodeIds(items) {
      var it :| it in items && it.nodeid == x;
      var i :| 0 <= i < |items| && items[i] == it;
      assert NodeIds(items)[i] == x;
    }
  }

  /** The keys after one more item: unchanged when its node id was already known, else extended by it. */
  lemma CollectKeysStep(md: Metadata, init: seq<Item>, last: Item)
    ensures CollectAll(md, init + [last]).keys
         == if last.nodeid in md.vals.Keys || last.nodeid in NodeIds(init) then CollectAll(md, init).keys
            else CollectAll(md, init).keys + [last.nodeid]
  {
    assert (init + [last])[..|init|] == init;
    assert last.nodeid in CollectAll(md, init).vals <==> last.nodeid in md.vals.Keys || last.nodeid in NodeIds(init) by {
      NodeIdsCover(init);
    }
  }

  lemma OrderStep(mk: seq<string>, known: set<string>, ids: seq<string>, x: string, pk: seq<string>, k: seq<string>)
    requires pk == mk + FirstTouches(known, ids)
    requires k == if x in known || x in ids then pk else pk + [x]
    ensures k == mk + FirstTouches(known, ids + [x])
  {
    FirstTouchesSnoc(known, ids, x);
    if !(x in known || x in ids) {
      assert (mk + FirstTouches(known, ids)) + [x] == mk + (FirstTouches(known, ids) + [x]);
    }
  }

  /**
   * Collection keeps the records in first-touch order: the node ids already
   * present keep their places, and the new ones follow in discovery order,
   * each once.
   */
  lemma {:induction false} CollectOrder(md: Metadata, items: seq<Item>)
    ensures CollectAll(md, items).keys == md.keys + FirstTouches(md.vals.Keys, NodeIds(items))
    decreases |items|
  {
    if items != [] {
      var init, last := items[..|items| - 1], items[|items| - 1];
      assert items == init + [last];
      CollectOrder(md, init);
      CollectKeysStep(md, init, last);
      NodeIdsSnoc(init, last);
      OrderStep(md.keys, md.vals.Keys, NodeIds(init), last.nodeid, CollectAll(md, init).keys, CollectAll(md, items).keys);
    }
  }

  // ---------------------------------------------------------------- reports

  /** The log-report hook over a sequence of reports, in order; `ok` is false once a call raised. */
  function LogAll(md: Metadata, c: Counters, rs: seq<Report>): (res: Logged)
    ensures md.vals.Keys <= res.metadata.vals.Keys
    decreases |rs|
  {
    if rs == [] then Logged(md, c, true)
    else
      var l := LogAll(md, c, rs[..|rs| - 1]);
      var step := Log(l.metadata, l.counters, rs[|rs| - 1]);
      Logged(step.metadata, step.counters, l.ok && step.ok)
  }

  /** How many of the reports bump the counter of outcome `o`. */
  function Tally(rs: seq<Report>, o: string): nat
    decreases |rs|
  {
    if rs == [] then 0
    else Tally(rs[..|rs| - 1], o) + (if Counted(rs[|rs| - 1]) && rs[|rs| - 1].outcome == o then 1 else 0)
  }

  /** How many of the reports bump some counter. */
  function CountedIn(rs: seq<Report>): nat
    decreases |rs|
  {
    if rs == [] then 0 else CountedIn(rs[..|rs| - 1]) + (if Counted(rs[|rs| - 1]) then 1 else 0)
  }

  /** Each counter goes up by exactly the number of reports counted for its outcome. */
  lemma {:induction false} LogAllCounts(md: Metadata, c: Counters, rs: seq<Report>, o: string)
    requires IsCounterKey(o)
    ensures Count(LogAll(md, c, rs).counters, o) == Count(c, o) + Tally(rs, o)
    decreases |rs|
  {
    if rs != [] {
      LogAllCounts(md, c, rs[..|rs| - 1], o);
    }
  }

  /** The counters together go up by one per counted report: no report is counted twice. */
  lemma {:induction false} LogAllTotal(md: Metadata, c: Counters, rs: seq<Report>)
    ensures Total(LogAll(md, c, rs).counters) == Total(c) + CountedIn(rs)
    decreases |rs|
  {
    if rs != [] {
      LogAllTotal(md, c, rs[..|rs| - 1]);
    }
  }

  /** The three tallies split the counted reports. */
  lemma {:induction false} TalliesPartition(rs: seq<Report>)
    ensures Tally(rs, "passed") + Tally(rs, "failed") + Tally(rs, "skipped") == CountedIn(rs)
    decreases |rs|
  {
    if rs != [] {
      TalliesPartition(rs[..|rs| - 1]);
    }
  }

  /** Reports never reorder the records: the node ids present keep their places. */
  lemma {:induction false} LogAllKeepsOrder(md: Metadata, c: Counters, rs: seq<Report>)
    ensures md.keys <= LogAll(md, c, rs).metadata.keys
    decreases |rs|
  {
    if rs != [] {
      LogAllKeepsOrder(md, c, rs[..|rs| - 1]);
    }
  }

  /** A run of reports returns normally exactly when none of them is a `call` with an outcome that is no counter. */
  lemma {:induction false} LogAllOk(md: Metadata, c: Counters, rs: seq<Report>)
    ensures LogAll(md, c, rs).ok <==> forall i :: 0 <= i < |rs| ==> !(rs[i].when == "call" && !IsCounterKey(rs[i].outcome))
    decreases |rs|
  {
    if rs != [] {
      LogAllOk(md, c, rs[..|rs| - 1]);
    }
  }

  /** The node ids named by the reports, whatever their phase. */
  function ReportIds(rs: seq<Report>): set<string> {
    set r | r in rs :: r.nodeid
  }

  lemma {:induction false} DistinctIdsCount(rs: seq<Report>)
    requires forall i, j :: 0 <= i < j < |rs| ==> rs[i].nodeid != rs[j].nodeid
    ensures |ReportIds(rs)| == |rs|
    decreases |rs|
  {
    if rs != [] {
      var init, last := rs[..|rs| - 1], rs[|rs| - 1];
      assert rs == init + [last];
      DistinctIdsCount(init);
      assert last.nodeid !in ReportIds(init);
      assert ReportIds(rs) == ReportIds(init) + {last.nodeid};
    }
  }

  lemma {:induction false} CallReportsAllCounted(rs: seq<Report>)
    requires forall r :: r in rs ==> r.when == "call" && IsCounterKey(r.outcome)
    ensures CountedIn(rs) == |rs|
    decreases |rs|
  {
    if rs != [] {
      assert rs[..|rs| - 1] <= rs;
      CallReportsAllCounted(rs[..|rs| - 1]);
    }
  }

  /** Logging `call` reports with counter outcomes raises the total by their number. */
  lemma CallReportsTotal(md: Metadata, c: Counters, rs: seq<Report>)
    requires forall r :: r in rs ==> r.when == "call" && IsCounterKey(r.outcome)
    ensures Total(LogAll(md, c, rs).counters) == Total(c) + |rs|
  {
    LogAllTotal(md, c, rs);
    CallReportsAllCounted(rs);
  }

  /**
   * When each test gets one `call` report with a known outcome, the three
   * counters rise, together, by the number of tests that were reported; from
   * zero counters they add up to that number.
   */
  lemma CallReportsCountTests(md: Metadata, c: Counters, rs: seq<Report>)
    requires forall r :: r in rs ==> r.when == "call" && IsCounterKey(r.outcome)
    requires forall i, j :: 0 <= i < j < |rs| ==> rs[i].nodeid != rs[j].nodeid
    ensures Total(LogAll(md, c, rs).counters) == Total(c) + |ReportIds(rs)|
  {
    CallReportsTotal(md, c, rs);
    DistinctIdsCount(rs);
  }

  /**
   * The counters count `call` reports, not tests: two `call` reports for one
   * node id raise the total by two while naming a single node id.
   */
  lemma RepeatedCallCountsTwice(md: Metadata, c: Counters, r1: Report, r2: Report)
    requires r1.when == "call" && IsCounterKey(r1.outcome)
    requires r2.when == "call" && IsCounterKey(r2.outcome)
    requires r1.nodeid == r2.nodeid
    ensures Total(LogAll(md, c, [r1, r2]).counters) == Total(c) + 2
    ensures |ReportIds([r1, r2])| == 1
  {
    CallReportsTotal(md, c, [r1, r2]);
    SameIdReports([r1, r2], r1.nodeid);
  }

  /** Reports that all carry one node id name just that node id. */
  lemma SameIdReports(rs: seq<Report>, id: string)
    requires rs != [] && forall r :: r in rs ==> r.nodeid == id
    ensures ReportIds(rs) == {id}
  {
    assert rs[0] in rs;
  }

  /** Logging one more report is one more step of the hook. */
  lemma LogAllSnoc(md: Metadata, c: Counters, rs: seq<Report>, r: Report)
    ensures LogAll(md, c, rs + [r])
         == var l := LogAll(md, c, rs);
            var step := Log(l.metadata, l.counters, r);
            Logged(step.metadata, step.counters, l.ok && step.ok)
  {
    assert (rs + [r])[..|rs|] == rs;
  }

  /** Logging two sequences one after the other is logging their concatenation. */
  lemma {:induction false} LogAllAppend(md: Metadata, c: Counters, rs1: seq<Report>, rs2: seq<Report>)
    ensures var l1 := LogAll(md, c, rs1); var l2 := LogAll(l1.metadata, l1.counters, rs2);
            LogAll(md, c, rs1 + rs2) == Logged(l2.metadata, l2.counters, l1.ok && l2.ok)
    decreases |rs2|
  {
    if rs2 == [] {
      assert rs1 + rs2 == rs1;
    } else {
      var init, last := rs2[..|rs2| - 1], rs2[|rs2| - 1];
      assert rs1 + rs2 == (rs1 + init) + [last];
      assert init + [last] == rs2;
      var l1 := LogAll(md, c, rs1);
      LogAllAppend(md, c, rs1, init);
      LogAllSnoc(md, c, rs1 + init, last);
      LogAllSnoc(l1.metadata, l1.counters, init, last);
    }
  }

  /**
   * A test whose setup passes ends with the status and duration of its
   * `call` report, whatever its teardown reports, and is counted once,
   * under the call's outcome; no other record changes.
   */
  lemma CallOutcomeIsFinal(md: Metadata, c: Counters, id: string, o: string, teardown: string, d1: real, d2: real, d3: real)
    requires IsCounterKey(o)
    ensures var res := LogAll(md, c, [Report(id, "setup", "passed", d1), Report(id, "call", o, d2),
                                      Report(id, "teardown", teardown, d3)]);
      && res.ok
      && res.metadata.keys == (if id in md.vals then md.keys else md.keys + [id])
      && res.metadata.vals == md.vals[id := RecordOf(md, id)["status" := Str(o)]["duration" := Float(d2)]]
      && res.counters == Bump(c, o)
  {
    var setup, call, down := Report(id, "setup", "passed", d1), Report(id, "call", o, d2), Report(id, "teardown", teardown, d3);
    LogAllSnoc(md, c, [], setup);
    LogAllSnoc(md, c, [setup], call);
    LogAllSnoc(md, c, [setup, call], down);
    assert [setup] + [call] == [setup, call];
    assert [setup, call] + [down] == [setup, call, down];
  }

  /**
   * A test skipped at setup ends "skipped" with duration 0, whatever its
   * teardown reports, and adds one to `skipped` only.
   */
  lemma SkippedAtSetup(md: Metadata, c: Counters, id: string, teardown: string, d1: real, d2: real)
    ensures var res := LogAll(md, c, [Report(id, "setup", "skipped", d1), Report(id, "teardown", teardown, d2)]);
      && res.ok
      && res.metadata.keys == (if id in md.vals then md.keys else md.keys + [id])
      && res.metadata.vals == md.vals[id := RecordOf(md, id)["status" := Str("skipped")]["duration" := Int(0)]]
      && res.counters == c.(skipped := c.skipped + 1)
  {
    var setup, down := Report(id, "setup", "skipped", d1), Report(id, "teardown", teardown, d2);
    LogAllSnoc(md, c, [], setup);
    LogAllSnoc(md, c, [setup], down);
    assert [setup] + [down] == [setup, down];
  }

  // ---------------------------------------------------------------- session finish

  /**
   * The session-finish gate spelled out: a summary is emitted exactly when
   * none of the four collect-only options is set, the run is not one that
   * collected tests and saw no failure, and the exit status is not 5.
   */
  lemma EmitGate(md: Metadata, c: Counters, s: Session, exitstatus: int)
    ensures Finish(md, c, s, exitstatus).Some? <==>
      && "collectonly" !in s.options && "collect_only" !in s.options
      && "co" !in s.options && "dry_run" !in s.options
      && (s.testsCollected.GetOr(0) <= 0 || c.failed > 0)
      && exitstatus != 5
  {
  }

  /**
   * The emitted summary lists the collected tests in discovery order, each
   * carrying its node id, when the run started empty and discovered each
   * node id once.
   */
  lemma SummaryInDiscoveryOrder(items: seq<Item>, c: Counters, s: Session, exitstatus: int)
    requires forall i, j :: 0 <= i < j < |items| ==> items[i].nodeid != items[j].nodeid
    requires ShouldEmit(s, c.failed, exitstatus)
    ensures var out := Finish(CollectAll(Empty(), items), c, s, exitstatus);
      && out.Some?
      && |out.value.tests| == |items|
      && forall i :: 0 <= i < |items| ==>
           "nodeid" in out.value.tests[i] && out.value.tests[i]["nodeid"] == Str(items[i].nodeid)
  {
    var none: Metadata := Empty();
    var md := CollectAll(none, items);
    assert md.keys == NodeIds(items) by {
      assert none.vals.Keys == {};
      CollectOrder(none, items);
      NoRepeatsFirstTouches(items);
      assert md.keys == [] + NodeIds(items);
    }
    var tests := BuildSummary(md, c, Collected(s)).tests;
    forall i | 0 <= i < |items|
      ensures "nodeid" in tests[i] && tests[i]["nodeid"] == Str(items[i].nodeid)
    {
      assert tests[i] == md.vals[items[i].nodeid];
      CollectStampsEveryItem(none, items, items[i]);
    }
  }

  lemma {:induction false} NoRepeatsFirstTouches(items: seq<Item>)
    requires forall i, j :: 0 <= i < j < |items| ==> items[i].nodeid != items[j].nodeid
    ensures FirstTouches({}, NodeIds(items)) == NodeIds(items)
    decreases |items|
  {
    if items != [] {
      var init, last := items[..|items| - 1], items[|items| - 1];
      assert items == init + [last];
      NodeIdsSnoc(init, last);
      assert last.nodeid !in NodeIds(init) by {
        forall j | 0 <= j < |init| ensures NodeIds(init)[j] != last.nodeid {
          assert init[j] == items[j];
        }
      }
      FirstTouchesSnoc({}, NodeIds(init), last.nodeid);
      NoRepeatsFirstTouches(init);
    }
  }

  /** The three phase reports of a test whose setup and teardown pass and whose call ends `o` after `d` seconds. */
  function PhaseReports(id: string, o: string, d: real): seq<Report> {
    [Report(id, "setup", "passed", 0.0), Report(id, "call", o, d), Report(id, "teardown", "passed", 0.0)]
  }

  /** Collecting an undecorated item with a new node id appends a record holding exactly its `nodeid` and `title`. */
  lemma CollectNewPlain(md: Metadata, it: Item)
    requires it.nodeid !in md.vals && it.customMeta == None
    ensures CollectOne(md, it).keys == md.keys + [it.nodeid]
    ensures CollectOne(md, it).vals == md.vals[it.nodeid := map["nodeid" := Str(it.nodeid), "title" := Str(it.name)]]
  {
    assert Merge(map[], it) == map["nodeid" := Str(it.nodeid), "title" := Str(it.name)];
  }

  /** Collecting two items is two collection steps. */
  lemma CollectPair(md: Metadata, items: seq<Item>)
    requires |items| == 2
    ensures CollectAll(md, items) == CollectOne(CollectOne(md, items[0]), items[1])
  {
    var init := items[..1];
    assert init == [items[0]];
    assert init[..0] == [];
    assert CollectAll(md, init) == CollectOne(md, items[0]);
  }

  /** Collecting two undecorated items with new, distinct node ids appends their two records in order. */
  lemma CollectTwoNew(md: Metadata, a: Item, b: Item)
    requires a.nodeid !in md.vals && b.nodeid !in md.vals && a.nodeid != b.nodeid
    requires a.customMeta == None && b.customMeta == None
    ensures CollectOne(CollectOne(md, a), b).keys == md.keys + [a.nodeid, b.nodeid]
    ensures CollectOne(CollectOne(md, a), b).vals
         == md.vals[a.nodeid := map["nodeid" := Str(a.nodeid), "title" := Str(a.name)]]
                   [b.nodeid := map["nodeid" := Str(b.nodeid), "title" := Str(b.name)]]
  {
    CollectNewPlain(md, a);
    CollectNewPlain(CollectOne(md, a), b);
    assert (md.keys + [a.nodeid]) + [b.nodeid] == md.keys + [a.nodeid, b.nodeid];
  }

  /** Two tests without declared metadata, after collection from an empty state. */
  lemma TwoTestsCollected(a: Item, b: Item)
    requires a.nodeid != b.nodeid && a.customMeta == None && b.customMeta == None
    ensures var md := CollectAll(Empty(), [a, b]);
      && md.keys == [a.nodeid, b.nodeid]
      && md.vals == map[a.nodeid := map["nodeid" := Str(a.nodeid), "title" := Str(a.name)],
                        b.nodeid := map["nodeid" := Str(b.nodeid), "title" := Str(b.name)]]
  {
    var none: Metadata := Empty();
    CollectPair(none, [a, b]);
    CollectTwoNew(none, a, b);
    assert [] + [a.nodeid, b.nodeid] == [a.nodeid, b.nodeid];
  }


  /** The three phase reports of a test that already has a record set its status and duration and bump its outcome. */
  lemma CallLoggedOnKnown(md: Metadata, c: Counters, id: string, o: string, d: real)
    requires id in md.vals && IsCounterKey(o)
    ensures var res := LogAll(md, c, PhaseReports(id, o, d));
      && res.ok
      && res.metadata.keys == md.keys
      && res.metadata.vals == md.vals[id := md.vals[id]["status" := Str(o)]["duration" := Float(d)]]
      && res.counters == Bump(c, o)
  {
    CallOutcomeIsFinal(md, c, id, o, "passed", 0.0, d, 0.0);
  }

  /**
   * Two known tests reported one after the other, each with three phase
   * reports: both records get their status and duration, no other record
   * changes, the order stays, and each outcome is counted once.
   */
  lemma TwoCallsLogged(md: Metadata, c: Counters, a: string, oa: string, da: real, b: string, ob: string, db: real)
    requires a in md.vals && b in md.vals && a != b && IsCounterKey(oa) && IsCounterKey(ob)
    ensures var run := LogAll(md, c, PhaseReports(a, oa, da) + PhaseReports(b, ob, db));
      && run.ok
      && run.metadata.keys == md.keys
      && run.metadata.vals == md.vals[a := md.vals[a]["status" := Str(oa)]["duration" := Float(da)]]
                                     [b := md.vals[b]["status" := Str(ob)]["duration" := Float(db)]]
      && run.counters == Bump(Bump(c, oa), ob)
  {
    var runA, runB := PhaseReports(a, oa, da), PhaseReports(b, ob, db);
    var la := LogAll(md, c, runA);
    CallLoggedOnKnown(md, c, a, oa, da);
    assert la.metadata.vals[b] == md.vals[b];
    CallLoggedOnKnown(la.metadata, la.counters, b, ob, db);
    LogAllAppend(md, c, runA, runB);
  }

  /** Proof helper for the scenario lemmas: a pass raises only the passed counter. */
  lemma PassBumps(c: Counters)
    ensures Bump(c, "passed") == c.(passed := c.passed + 1)
  {
  }

  /** Proof helper for the scenario lemmas: a failure raises only the failed counter. */
  lemma FailBumps(c: Counters)
    ensures Bump(c, "failed") == c.(failed := c.failed + 1)
  {
    assert "failed" != "passed" by { assert "failed"[0] == 'f'; assert "passed"[0] == 'p'; }
  }


  /** Test `a` passes in `da` seconds, then test `b` fails in `db` seconds. */
  lemma TwoTestsLogged(md: Metadata, c: Counters, a: string, b: string, da: real, db: real)
    requires a in md.vals && b in md.vals && a != b
    ensures var run := LogAll(md, c, PhaseReports(a, "passed", da) + PhaseReports(b, "failed", db));
      && run.ok
      && run.metadata.keys == md.keys
      && run.metadata.vals == md.vals[a := md.vals[a]["status" := Str("passed")]["duration" := Float(da)]]
                                     [b := md.vals[b]["status" := Str("failed")]["duration" := Float(db)]]
      && run.counters == Counters(c.passed + 1, c.failed + 1, c.skipped)
  {
    PassBumps(c);
    FailBumps(Bump(c, "passed"));
    TwoCallsLogged(md, c, a, "passed", da, b, "failed", db);
  }


  /**
   * Two collected tests, one passing in `da` seconds and one failing in `db`
   * seconds: the summary counts one of each and lists both, in discovery
   * order, with their status and duration.
   */
  lemma TwoTestRun(a: Item, b: Item, da: real, db: real, s: Session, exitstatus: int)
    requires a.nodeid != b.nodeid && a.customMeta == None && b.customMeta == None
    requires !CollectOnly(s.options) && Collected(s) == 2 && exitstatus !in CollectionExitCodes
    ensures
      var run := LogAll(CollectAll(Empty(), [a, b]), NoTests,
                        PhaseReports(a.nodeid, "passed", da) + PhaseReports(b.nodeid, "failed", db));
      var out := Finish(run.metadata, run.counters, s, exitstatus);
      && out.Some?
      && out.value.collected == 2 && out.value.passed == 1 && out.value.failed == 1 && out.value.skipped == 0
      && out.value.tests == [map["nodeid" := Str(a.nodeid), "title" := Str(a.name),
                                 "status" := Str("passed"), "duration" := Float(da)],
                             map["nodeid" := Str(b.nodeid), "title" := Str(b.name),
                                 "status" := Str("failed"), "duration" := Float(db)]]
  {
    TwoTestsCollected(a, b);
    TwoTestRunFrom(CollectAll(Empty(), [a, b]), a, b, da, db, s, exitstatus);
  }

  /** Proof helper: the two-test summary, counted from zero counters, field by field. */
  lemma SummaryFromZero(out: Option<Summary>, a: Item, b: Item, da: real, db: real)
    requires out == Some(Summary(2, NoTests.passed + 1, NoTests.skipped, NoTests.failed + 1,
                                 [map["nodeid" := Str(a.nodeid), "title" := Str(a.name),
                                      "status" := Str("passed"), "duration" := Float(da)],
                                  map["nodeid" := Str(b.nodeid), "title" := Str(b.name),
                                      "status" := Str("failed"), "duration" := Float(db)]]))
    ensures && out.Some?
            && out.value.collected == 2 && out.value.passed == 1 && out.value.failed == 1 && out.value.skipped == 0
            && out.value.tests == [map["nodeid" := Str(a.nodeid), "title" := Str(a.name),
                                       "status" := Str("passed"), "duration" := Float(da)],
                                   map["nodeid" := Str(b.nodeid), "title" := Str(b.name),
                                       "status" := Str("failed"), "duration" := Float(db)]]
  {
  }

  /** The logging and summary half of the two-test session, from the state collection leaves. */
  lemma TwoTestRunFrom(md: Metadata, a: Item, b: Item, da: real, db: real, s: Session, exitstatus: int)
    requires a.nodeid != b.nodeid
    requires md.keys == [a.nodeid, b.nodeid]
    requires md.vals == map[a.nodeid := map["nodeid" := Str(a.nodeid), "title" := Str(a.name)],
                            b.nodeid := map["nodeid" := Str(b.nodeid), "title" := Str(b.name)]]
    requires !CollectOnly(s.options) && Collected(s) == 2 && exitstatus !in CollectionExitCodes
    ensures
      var run := LogAll(md, NoTests, PhaseReports(a.nodeid, "passed", da) + PhaseReports(b.nodeid, "failed", db));
      var out := Finish(run.metadata, run.counters, s, exitstatus);
      && out.Some?
      && out.value.collected == 2 && out.value.passed == 1 && out.value.failed == 1 && out.value.skipped == 0
      && out.value.tests == [map["nodeid" := Str(a.nodeid), "title" := Str(a.name),
                                 "status" := Str("passed"), "duration" := Float(da)],
                             map["nodeid" := Str(b.nodeid), "title" := Str(b.name),
                                 "status" := Str("failed"), "duration" := Float(db)]]
  {
    var run := LogAll(md, NoTests, PhaseReports(a.nodeid, "passed", da) + PhaseReports(b.nodeid, "failed", db));
    TwoTestSummary(md, NoTests, a, b, da, db, s, exitstatus);
    SummaryFromZero(Finish(run.metadata, run.counters, s, exitstatus), a, b, da, db);
  }

  /** The same half from any counters: passed and failed each rise by one. */
  lemma TwoTestSummary(md: Metadata, c: Counters, a: Item, b: Item, da: real, db: real, s: Session, exitstatus: int)
    requires a.nodeid != b.nodeid
    requires md.keys == [a.nodeid, b.nodeid]
    requires md.vals == map[a.nodeid := map["nodeid" := Str(a.nodeid), "title" := Str(a.name)],
                            b.nodeid := map["nodeid" := Str(b.nodeid), "title" := Str(b.name)]]
    requires !CollectOnly(s.options) && Collected(s) == 2 && exitstatus !in CollectionExitCodes
    ensures
      var run := LogAll(md, c, PhaseReports(a.nodeid, "passed", da) + PhaseReports(b.nodeid, "failed", db));
      Finish(run.metadata, run.counters, s, exitstatus)
      == Some(Summary(2, c.passed + 1, c.skipped, c.failed + 1,
                      [map["nodeid" := Str(a.nodeid), "title" := Str(a.name),
                           "status" := Str("passed"), "duration" := Float(da)],
                       map["nodeid" := Str(b.nodeid), "title" := Str(b.name),
                           "status" := Str("failed"), "duration" := Float(db)]]))
  {
    var run := LogAll(md, c, PhaseReports(a.nodeid, "passed", da) + PhaseReports(b.nodeid, "failed", db));
    TwoRecordsLogged(md, c, a, b, da, db);
    SummaryAfterTwo(run.metadata, run.counters, a, b, da, db, s, exitstatus);
  }

  /** The two freshly collected records after one pass and one failure. */
  lemma TwoRecordsLogged(md: Metadata, c: Counters, a: Item, b: Item, da: real, db: real)
    requires a.nodeid != b.nodeid
    requires md.keys == [a.nodeid, b.nodeid]
    requires md.vals == map[a.nodeid := map["nodeid" := Str(a.nodeid), "title" := Str(a.name)],
                            b.nodeid := map["nodeid" := Str(b.nodeid), "title" := Str(b.name)]]
    ensures var run := LogAll(md, c, PhaseReports(a.nodeid, "passed", da) + PhaseReports(b.nodeid, "failed", db));
      && run.metadata.keys == [a.nodeid, b.nodeid]
      && run.counters == Counters(c.passed + 1, c.failed + 1, c.skipped)
      && run.metadata.vals == map[a.nodeid := map["nodeid" := Str(a.nodeid), "title" := Str(a.name)]
                                                ["status" := Str("passed")]["duration" := Float(da)],
                                  b.nodeid := map["nodeid" := Str(b.nodeid), "title" := Str(b.name)]
                                                ["status" := Str("failed")]["duration" := Float(db)]]
  {
    var run := LogAll(md, c, PhaseReports(a.nodeid, "passed", da) + PhaseReports(b.nodeid, "failed", db));
    TwoTestsLogged(md, c, a.nodeid, b.nodeid, da, db);
    TwoRecordsUpdated(md.vals, run.metadata.vals, a, b, da, db);
  }

  /** Proof helper: the two plain records, each given a status and a duration, as one map. */
  lemma TwoRecordsUpdated(v: map<string, Record>, m: map<string, Record>, a: Item, b: Item, da: real, db: real)
    requires a.nodeid != b.nodeid
    requires v == map[a.nodeid := map["nodeid" := Str(a.nodeid), "title" := Str(a.name)],
                      b.nodeid := map["nodeid" := Str(b.nodeid), "title" := Str(b.name)]]
    requires m == v[a.nodeid := v[a.nodeid]["status" := Str("passed")]["duration" := Float(da)]]
                   [b.nodeid := v[b.nodeid]["status" := Str("failed")]["duration" := Float(db)]]
    ensures m == map[a.nodeid := map["nodeid" := Str(a.nodeid), "title" := Str(a.name)]
                                    ["status" := Str("passed")]["duration" := Float(da)],
                     b.nodeid := map["nodeid" := Str(b.nodeid), "title" := Str(b.name)]
                                    ["status" := Str("failed")]["duration" := Float(db)]]
  {
    var recA := map["nodeid" := Str(a.nodeid), "title" := Str(a.name)];
    var recB := map["nodeid" := Str(b.nodeid), "title" := Str(b.name)];
    assert v[a.nodeid] == recA && v[b.nodeid] == recB;
    UpdateBoth(v, a.nodeid, b.nodeid,
               recA["status" := Str("passed")]["duration" := Float(da)],
               recB["status" := Str("failed")]["duration" := Float(db)]);
  }

  /** Proof helper: updating both keys of a two-key map gives the map of the two new values. */
  lemma UpdateBoth<K, V>(m: map<K, V>, x: K, y: K, u: V, v: V)
    requires m.Keys == {x, y} && x != y
    ensures m[x := u][y := v] == map[x := u, y := v]
  {
  }

  /** The summary of the two-test state after both tests reported. */
  lemma SummaryAfterTwo(m: Metadata, c: Counters, a: Item, b: Item, da: real, db: real, s: Session, exitstatus: int)
    requires m.keys == [a.nodeid, b.nodeid]
    requires m.vals == map[a.nodeid := map["nodeid" := Str(a.nodeid), "title" := Str(a.name)]
                                         ["status" := Str("passed")]["duration" := Float(da)],
                           b.nodeid := map["nodeid" := Str(b.nodeid), "title" := Str(b.name)]
                                         ["status" := Str("failed")]["duration" := Float(db)]]
    requires c.failed > 0
    requires !CollectOnly(s.options) && Collected(s) == 2 && exitstatus !in CollectionExitCodes
    ensures Finish(m, c, s, exitstatus)
         == Some(Summary(2, c.passed, c.skipped, c.failed,
                         [map["nodeid" := Str(a.nodeid), "title" := Str(a.name),
                              "status" := Str("passed"), "duration" := Float(da)],
                          map["nodeid" := Str(b.nodeid), "title" := Str(b.name),
                              "status" := Str("failed"), "duration" := Float(db)]]))
  {
    SummaryOfTwo(m, c, s, exitstatus, a.nodeid, b.nodeid);
    FinishedRecord(a, "passed", da);
    FinishedRecord(b, "failed", db);
  }

  /** Proof helper: a collected, undecorated test's record after its `call` report, as one map. */
  lemma FinishedRecord(it: Item, o: string, d: real)
    ensures map["nodeid" := Str(it.nodeid), "title" := Str(it.name)]["status" := Str(o)]["duration" := Float(d)]
         == map["nodeid" := Str(it.nodeid), "title" := Str(it.name), "status" := Str(o), "duration" := Float(d)]
  {
  }

  /** The summary of a state holding two records lists them in key order. */
  lemma SummaryOfTwo(md: Metadata, c: Counters, s: Session, exitstatus: int, x: string, y: string)
    requires md.keys == [x, y] && ShouldEmit(s, c.failed, exitstatus)
    ensures Finish(md, c, s, exitstatus)
         == Some(Summary(Collected(s), c.passed, c.skipped, c.failed, [md.vals[x], md.vals[y]]))
  {
    var tests := BuildSummary(md, c, Collected(s)).tests;
    assert tests == [md.vals[x], md.vals[y]];
  }
}
