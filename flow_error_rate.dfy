/** The flow error-rate chart hook: the body of `fetchData`'s reply handler,
    which indexes flows by scene, lists each scene's flow ids without
    repetition, sums the execution counters of the detail rows per scene, and
    refills the chart's list with one entry per scene. */
module FlowErrorRate {
  import opened Common

  /** The scene used for flows without one. */
  const Other := "其他"

  /** One element of `scenesNameRows`; an absent or empty scene name is "". */
  datatype FlowItem = FlowItem(flowId: string, scenesName: string)

  /** One row of the `k_smart_flow_detail_query` table, as the cursor reads it. */
  datatype Row = Row(flowId: string, execCount: int, succCount: int)

  /** One entry of `flowErrorRateList`, without its `errorRate`. */
  datatype SceneCount = SceneCount(execCount: int, succCount: int, scenesName: string)

  /** `name || '其他'` */
  function OrOther(name: string): string {
    if name == "" then Other else name
  }

  // ---------------------------------------------------------------------
  // Specification functions: each folds the loop it specifies over a prefix

  /** `flowIdAsScenesName` after the given items. */
  function SceneIndex(items: seq<FlowItem>): map<string, string> {
    if items == [] then map[]
    else SceneIndex(items[..|items| - 1])[items[|items| - 1].flowId := items[|items| - 1].scenesName]
  }

  /** `flowIdAsScenesName[flowId] || '其他'` */
  function SceneOf(index: map<string, string>, flowId: string): string {
    if flowId in index then OrOther(index[flowId]) else Other
  }

  /** The list of one scene after adding a flow id unless already present. */
  function AddUnique(list: seq<string>, flowId: string): seq<string> {
    if flowId in list then list else list + [flowId]
  }

  /** `userNameAsFlowIDList` after the given items. */
  function AddFlowIds(lists: map<string, seq<string>>, items: seq<FlowItem>): map<string, seq<string>> {
    if items == [] then lists
    else
      var prev := AddFlowIds(lists, items[..|items| - 1]);
      var item := items[|items| - 1];
      var key := OrOther(item.scenesName);
      prev[key := AddUnique(if key in prev then prev[key] else [], item.flowId)]
  }

  /** `scenesNameAsCountInfo` after the given rows: per scene, the pair of
      counters. */
  function Counts(index: map<string, string>, rows: seq<Row>): map<string, (int, int)> {
    if rows == [] then map[]
    else
      var prev := Counts(index, rows[..|rows| - 1]);
      var row := rows[|rows| - 1];
      var scene := SceneOf(index, row.flowId);
      var (e, s) := if scene in prev then prev[scene] else (0, 0);
      prev[scene := (e + row.execCount, s + row.succCount)]
  }

  // ---------------------------------------------------------------------
  // Reference definitions and the properties of the folds

  /** The sum of `ExecCount` over the rows of one scene. */
  function ExecSum(index: map<string, string>, rows: seq<Row>, scene: string): int {
    if rows == [] then 0
    else ExecSum(index, rows[..|rows| - 1], scene)
         + (if SceneOf(index, rows[|rows| - 1].flowId) == scene then rows[|rows| - 1].execCount else 0)
  }

  /** The sum of `SuccCount` over the rows of one scene. */
  function SuccSum(index: map<string, string>, rows: seq<Row>, scene: string): int {
    if rows == [] then 0
    else SuccSum(index, rows[..|rows| - 1], scene)
         + (if SceneOf(index, rows[|rows| - 1].flowId) == scene then rows[|rows| - 1].succCount else 0)
  }

  /** Some row belongs to the scene. */
  predicate HasRowOf(index: map<string, string>, rows: seq<Row>, scene: string) {
    exists i :: 0 <= i < |rows| && SceneOf(index, rows[i].flowId) == scene
  }

  /** A scene is counted exactly when one of the rows maps to it, and its
      counters are the sums over those rows. */
  lemma {:induction false} CountsAreSums(index: map<string, string>, rows: seq<Row>, scene: string)
    ensures scene in Counts(index, rows) <==> HasRowOf(index, rows, scene)
    ensures scene in Counts(index, rows) ==>
              Counts(index, rows)[scene] == (ExecSum(index, rows, scene), SuccSum(index, rows, scene))
  {
    if rows != [] {
      var init := rows[..|rows| - 1];
      CountsAreSums(index, init, scene);
      HasRowOfSnoc(index, rows, scene);
      if scene !in Counts(index, init) {
        NoRowsNoSum(index, init, scene);
      }
    }
  }

  /** A scene has a row among `rows` when it has one among all but the last,
      or the last is its. */
  lemma HasRowOfSnoc(index: map<string, string>, rows: seq<Row>, scene: string)
    requires rows != []
    ensures HasRowOf(index, rows, scene) <==>
              HasRowOf(index, rows[..|rows| - 1], scene) || SceneOf(index, rows[|rows| - 1].flowId) == scene
  {
    var init := rows[..|rows| - 1];
    if HasRowOf(index, init, scene) {
      var i :| 0 <= i < |init| && SceneOf(index, init[i].flowId) == scene;
      assert rows[i] == init[i];
    }
    if HasRowOf(index, rows, scene) {
      var i :| 0 <= i < |rows| && SceneOf(index, rows[i].flowId) == scene;
      if i < |init| {
        assert init[i] == rows[i];
      }
    }
  }

  lemma {:induction false} NoRowsNoSum(index: map<string, string>, rows: seq<Row>, scene: string)
    requires !HasRowOf(index, rows, scene)
    ensures ExecSum(index, rows, scene) == 0 && SuccSum(index, rows, scene) == 0
  {
    if rows != [] {
      var init := rows[..|rows| - 1];
      forall i | 0 <= i < |init| ensures SceneOf(index, init[i].flowId) != scene {
        assert init[i] == rows[i];
      }
      NoRowsNoSum(index, init, scene);
    }
  }

  /** Rows whose flow has no scene, or an empty one, count under `其他`. */
  lemma UnknownFlowIsOther(index: map<string, string>, flowId: string)
    requires flowId !in index || index[flowId] == ""
    ensures SceneOf(index, flowId) == Other
  {
  }

  /** A later item with the same flow id overwrites the scene of an earlier one. */
  lemma {:induction false} SceneIndexLastWins(items: seq<FlowItem>, i: nat)
    requires i < |items|
    requires forall j :: i < j < |items| ==> items[j].flowId != items[i].flowId
    ensures items[i].flowId in SceneIndex(items)
    ensures SceneIndex(items)[items[i].flowId] == items[i].scenesName
  {
    if i < |items| - 1 {
      var init := items[..|items| - 1];
      assert init[i] == items[i];
      assert forall j :: i < j < |init| ==> init[j] == items[j];
      SceneIndexLastWins(init, i);
    }
  }

  /** Exactly the listed flow ids are indexed. */
  lemma {:induction false} SceneIndexKeys(items: seq<FlowItem>, flowId: string)
    ensures flowId in SceneIndex(items) <==> exists i :: 0 <= i < |items| && items[i].flowId == flowId
  {
    if items != [] {
      var init := items[..|items| - 1];
      SceneIndexKeys(init, flowId);
      if flowId in SceneIndex(init) {
        var i :| 0 <= i < |init| && init[i].flowId == flowId;
        assert items[i] == init[i];
      }
      if exists i :: 0 <= i < |items| && items[i].flowId == flowId {
        var i :| 0 <= i < |items| && items[i].flowId == flowId;
        if i < |init| {
          assert init[i] == items[i];
        }
      }
    }
  }

  predicate NoDuplicates(list: seq<string>) {
    forall i, j :: 0 <= i < j < |list| ==> list[i] != list[j]
  }

  predicate AllNoDuplicates(lists: map<string, seq<string>>) {
    forall key :: key in lists ==> NoDuplicates(lists[key])
  }

  /** Some item files the flow id under the scene key (`'其他'` for an empty
      scene name). */
  predicate Files(items: seq<FlowItem>, key: string, flowId: string) {
    exists i :: 0 <= i < |items| && OrOther(items[i].scenesName) == key && items[i].flowId == flowId
  }

  /** Some item uses the scene key. */
  predicate UsesKey(items: seq<FlowItem>, key: string) {
    exists i :: 0 <= i < |items| && OrOther(items[i].scenesName) == key
  }

  /** Adding the items keeps every list free of repeats. */
  lemma {:induction false} AddFlowIdsNoDuplicates(lists: map<string, seq<string>>, items: seq<FlowItem>)
    requires AllNoDuplicates(lists)
    ensures AllNoDuplicates(AddFlowIds(lists, items))
  {
    if items != [] {
      var init := items[..|items| - 1];
      AddFlowIdsNoDuplicates(lists, init);
      var prev := AddFlowIds(lists, init);
      var item := items[|items| - 1];
      var k := OrOther(item.scenesName);
      var l := if k in prev then prev[k] else [];
      assert NoDuplicates(AddUnique(l, item.flowId));
    }
  }

  /** Every earlier list stays a prefix of its new list: ids keep the order in
      which they were first seen. */
  lemma {:induction false} AddFlowIdsKeepsPrefix(lists: map<string, seq<string>>, items: seq<FlowItem>, key: string)
    requires key in lists
    ensures key in AddFlowIds(lists, items) && lists[key] <= AddFlowIds(lists, items)[key]
  {
    if items != [] {
      AddFlowIdsKeepsPrefix(lists, items[..|items| - 1], key);
    }
  }

  /** Exactly the earlier keys and the keys the items use (`'其他'` for an
      empty scene name) are present afterwards. */
  lemma {:induction false} AddFlowIdsKeys(lists: map<string, seq<string>>, items: seq<FlowItem>, key: string)
    ensures key in AddFlowIds(lists, items) <==> key in lists || UsesKey(items, key)
  {
    if items != [] {
      var init := items[..|items| - 1];
      AddFlowIdsKeys(lists, init, key);
      if UsesKey(init, key) {
        var i :| 0 <= i < |init| && OrOther(init[i].scenesName) == key;
        assert items[i] == init[i];
      }
      if UsesKey(items, key) {
        var i :| 0 <= i < |items| && OrOther(items[i].scenesName) == key;
        if i < |init| {
          assert init[i] == items[i];
        }
      }
    }
  }

  /** A list holds exactly its earlier ids and the ids the items file under
      its key. */
  lemma {:induction false} AddFlowIdsMembers(lists: map<string, seq<string>>, items: seq<FlowItem>, key: string, flowId: string)
    requires key in AddFlowIds(lists, items)
    ensures flowId in AddFlowIds(lists, items)[key] <==> (key in lists && flowId in lists[key]) || Files(items, key, flowId)
  {
    if items != [] {
      var init := items[..|items| - 1];
      var item := items[|items| - 1];
      var prev := AddFlowIds(lists, init);
      var k := OrOther(item.scenesName);
      if key in prev {
        AddFlowIdsMembers(lists, init, key, flowId);
      } else {
        AddFlowIdsKeys(lists, init, key);
        assert forall i :: 0 <= i < |init| ==> OrOther(init[i].scenesName) != key;
      }
      if Files(init, key, flowId) {
        var i :| 0 <= i < |init| && OrOther(init[i].scenesName) == key && init[i].flowId == flowId;
        assert items[i] == init[i];
      }
      if Files(items, key, flowId) {
        var i :| 0 <= i < |items| && OrOther(items[i].scenesName) == key && items[i].flowId == flowId;
        if i < |init| {
          assert init[i] == items[i];
        }
      }
    }
  }

  // ---------------------------------------------------------------------
  // The hook's state and the reply handler

  /** The chart list holds one entry per counted scene, with that scene's counters. */
  ghost predicate ListsCounts(list: seq<SceneCount>, counts: map<string, (int, int)>) {
    && |list| == |counts|
    && (forall i, j :: 0 <= i < j < |list| ==> list[i].scenesName != list[j].scenesName)
    && (forall i :: 0 <= i < |list| ==> list[i].scenesName in counts
                                        && counts[list[i].scenesName] == (list[i].execCount, list[i].succCount))
    && (forall scene :: scene in counts ==> exists i :: 0 <= i < |list| && list[i].scenesName == scene)
  }

  /** The scenes named in a chart list. */
  function Names(list: seq<SceneCount>): set<string> {
    set i | 0 <= i < |list| :: list[i].scenesName
  }

  /** Appending an entry adds its scene to the names. */
  lemma NamesAppend(list: seq<SceneCount>, entry: SceneCount)
    ensures Names(list + [entry]) == Names(list) + {entry.scenesName}
  {
    var l := list + [entry];
    assert l[|list|] == entry;
    forall name | name in Names(list) ensures name in Names(l) {
      var i :| 0 <= i < |list| && list[i].scenesName == name;
      assert l[i] == list[i];
    }
  }

  /** Appending the entry of a scene not yet listed keeps the list a listing
      of `counts` without repeats. */
  lemma ListingGrows(counts: map<string, (int, int)>, list: seq<SceneCount>, entry: SceneCount)
    requires entry.scenesName in counts && entry.scenesName !in Names(list)
    requires counts[entry.scenesName] == (entry.execCount, entry.succCount)
    requires forall i :: 0 <= i < |list| ==> list[i].scenesName in counts
                                             && counts[list[i].scenesName] == (list[i].execCount, list[i].succCount)
    requires forall i, j :: 0 <= i < j < |list| ==> list[i].scenesName != list[j].scenesName
    ensures Names(list + [entry]) == Names(list) + {entry.scenesName}
    ensures var l := list + [entry];
            forall i :: 0 <= i < |l| ==> l[i].scenesName in counts && counts[l[i].scenesName] == (l[i].execCount, l[i].succCount)
    ensures var l := list + [entry];
            forall i, j :: 0 <= i < j < |l| ==> l[i].scenesName != l[j].scenesName
  {
    NamesAppend(list, entry);
    var l := list + [entry];
    forall i, j | 0 <= i < j < |l| ensures l[i].scenesName != l[j].scenesName {
      if j == |list| {
        assert l[i] == list[i];
        assert list[i].scenesName in Names(list);
      }
    }
  }

  /** `Object.values(scenesNameAsCountInfo)`: one entry per scene. The order in
      which the entries come out is left open. */
  method CountsToList(counts: map<string, (int, int)>) returns (list: seq<SceneCount>)
    ensures |list| == |counts|
    ensures forall i, j :: 0 <= i < j < |list| ==> list[i].scenesName != list[j].scenesName
    ensures forall i :: 0 <= i < |list| ==> list[i].scenesName in counts
                                            && counts[list[i].scenesName] == (list[i].execCount, list[i].succCount)
    ensures forall scene :: scene in counts ==> exists i :: 0 <= i < |list| && list[i].scenesName == scene
  {
    list := [];
    var left := counts.Keys;
    while left != {}
      invariant left <= counts.Keys
      invariant Names(list) == counts.Keys - left
      invariant |list| + |left| == |counts|
      invariant forall i :: 0 <= i < |list| ==> list[i].scenesName in counts
                                                && counts[list[i].scenesName] == (list[i].execCount, list[i].succCount)
      invariant forall i, j :: 0 <= i < j < |list| ==> list[i].scenesName != list[j].scenesName
      decreases |left|
    {
      var scene :| scene in left;
      var (e, s) := counts[scene];
      ListingGrows(counts, list, SceneCount(e, s, scene));
      list := list + [SceneCount(e, s, scene)];
      left := left - {scene};
    }
    forall scene | scene in counts ensures exists i :: 0 <= i < |list| && list[i].scenesName == scene {
      assert scene in Names(list);
    }
  }

  /** The `while (!table.eof())` loop: counters summed per scene. */
  method SumRows(index: map<string, string>, rows: seq<Row>) returns (counts: map<string, (int, int)>)
    ensures forall scene :: scene in counts <==> HasRowOf(index, rows, scene)
    ensures forall scene :: scene in counts ==> counts[scene] == (ExecSum(index, rows, scene), SuccSum(index, rows, scene))
  {
    counts := map[];
    var i := 0;
    while i < |rows|
      invariant 0 <= i <= |rows|
      invariant counts == Counts(index, rows[..i])
    {
      var flowId := rows[i].flowId;
      var scenesName := if flowId in index && index[flowId] != "" then index[flowId] else Other;
      var (e, s) := if scenesName in counts then counts[scenesName] else (0, 0);
      counts := counts[scenesName := (e + rows[i].execCount, s + rows[i].succCount)];
      assert rows[..i + 1][..i] == rows[..i];
      i := i + 1;
    }
    assert rows[..i] == rows;
    forall scene ensures scene in counts <==> HasRowOf(index, rows, scene)
      ensures scene in counts ==> counts[scene] == (ExecSum(index, rows, scene), SuccSum(index, rows, scene))
    {
      CountsAreSums(index, rows, scene);
    }
  }

  /** The state the hook keeps between fetches. */
  class FlowErrorRateHook {
    var flowErrorRateList: seq<SceneCount>
    /** Never cleared: lists grow across fetches. */
    var userNameAsFlowIdList: map<string, seq<string>>

    constructor ()
      ensures flowErrorRateList == [] && userNameAsFlowIdList == map[]
    {
      flowErrorRateList := [];
      userNameAsFlowIdList := map[];
    }

    /** The reply handler of `fetchData`, given the parsed `scenesNameRows`
        and the rows of the detail table. */
    method HandleReply(flowItemList: seq<FlowItem>, rows: seq<Row>)
      modifies this
      ensures userNameAsFlowIdList == AddFlowIds(old(userNameAsFlowIdList), flowItemList)
      ensures ListsCounts(flowErrorRateList, Counts(SceneIndex(flowItemList), rows))
    {
      var flowIdAsScenesName: map<string, string> := map[];
      var i := 0;
      while i < |flowItemList|
        invariant 0 <= i <= |flowItemList|
        invariant flowIdAsScenesName == SceneIndex(flowItemList[..i])
        invariant userNameAsFlowIdList == AddFlowIds(old(userNameAsFlowIdList), flowItemList[..i])
      {
        var flowId := flowItemList[i].flowId;
        var scenesName := flowItemList[i].scenesName;
        flowIdAsScenesName := flowIdAsScenesName[flowId := scenesName];
        var key := if scenesName == "" then Other else scenesName;
        var flowIdList := if key in userNameAsFlowIdList then userNameAsFlowIdList[key] else [];
        if flowId !in flowIdList {
          flowIdList := flowIdList + [flowId];
        }
        userNameAsFlowIdList := userNameAsFlowIdList[key := flowIdList];
        assert flowItemList[..i + 1][..i] == flowItemList[..i];
        i := i + 1;
      }
      assert flowItemList[..i] == flowItemList;
      var counts := SumRows(flowIdAsScenesName, rows);
      assert counts == Counts(flowIdAsScenesName, rows) by {
        forall scene ensures scene in counts <==> scene in Counts(flowIdAsScenesName, rows) {
          CountsAreSums(flowIdAsScenesName, rows, scene);
        }
        forall scene | scene in counts ensures counts[scene] == Counts(flowIdAsScenesName, rows)[scene] {
          CountsAreSums(flowIdAsScenesName, rows, scene);
        }
      }
      var itemArr := CountsToList(counts);
      flowErrorRateList := itemArr;
    }
  }
}
