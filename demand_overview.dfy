/** The demand overview chart hook: `fetchData`'s date guard, and the reply
    handler that merges the table of new demands and the table of online
    demands into one entry per user id. */
module DemandOverview {
  import opened Common

  /** The name used for users without one. */
  const Other := "其他"

  /** `userName || '其他'` */
  function OrOther(name: string): string {
    if name == "" then Other else name
  }

  /** The arguments of the `demo_getPersonalDemandInfo` call. */
  datatype Request = Request(startDate: string, endDate: string, roleId: Json)

  /** `fetchData`: no request at all unless both dates of `currentDate` are
      truthy (non-empty). */
  function FetchRequest(currentDate: (string, string), roleId: Json): (r: Option<Request>)
    ensures r.None? <==> currentDate.0 == "" || currentDate.1 == ""
    ensures r.Some? ==> r.value.startDate == currentDate.0 && r.value.endDate == currentDate.1 && r.value.roleId == roleId
  {
    if currentDate.0 != "" && currentDate.1 != "" then Some(Request(currentDate.0, currentDate.1, roleId)) else None
  }

  /** One row of either table, as the cursor reads it. */
  datatype Row = Row(userName: string, userId: string, iCount: int)

  /** One value of `userAsCountInfo`. */
  datatype CountInfo = CountInfo(userName: string, addCount: int, onlineCount: int)

  /** One entry of `demandOverviewList`. */
  datatype Overview = Overview(userId: string, userName: string, addCount: int, onlineCount: int)

  /** Which counter a table sets. */
  datatype Table = AddTable | OnlineTable

  // ---------------------------------------------------------------------
  // Specification functions: each folds the loop it specifies over a prefix

  /** `userAsCountInfo` after the rows of one table: an unseen user gets an
      entry named after its row with both counts 0; the table's counter is
      then overwritten with the row's `iCount`. */
  function Merge(info: map<string, CountInfo>, rows: seq<Row>, table: Table): map<string, CountInfo> {
    if rows == [] then info
    else
      var prev := Merge(info, rows[..|rows| - 1], table);
      var row := rows[|rows| - 1];
      var obj := if row.userId in prev then prev[row.userId] else CountInfo(OrOther(row.userName), 0, 0);
      prev[row.userId := if table == AddTable then obj.(addCount := row.iCount) else obj.(onlineCount := row.iCount)]
  }

  /** `userIdAndNameMap` after the rows. */
  function NameFold(names: map<string, string>, rows: seq<Row>): map<string, string> {
    if rows == [] then names
    else NameFold(names, rows[..|rows| - 1])[rows[|rows| - 1].userId := OrOther(rows[|rows| - 1].userName)]
  }

  // ---------------------------------------------------------------------
  // Reference definitions

  /** Some row is about the user. */
  predicate Appears(rows: seq<Row>, userId: string) {
    exists i :: 0 <= i < |rows| && rows[i].userId == userId
  }

  /** The `iCount` of the last row about the user, 0 if there is none. */
  function LastCount(rows: seq<Row>, userId: string): int {
    if rows == [] then 0
    else if rows[|rows| - 1].userId == userId then rows[|rows| - 1].iCount
    else LastCount(rows[..|rows| - 1], userId)
  }

  /** The name (or `'其他'`) of the last row about the user, if any. */
  function LastName(rows: seq<Row>, userId: string): Option<string> {
    if rows == [] then None
    else if rows[|rows| - 1].userId == userId then Some(OrOther(rows[|rows| - 1].userName))
    else LastName(rows[..|rows| - 1], userId)
  }

  /** The name (or `'其他'`) of the first row about the user, if any. */
  function FirstName(rows: seq<Row>, userId: string): Option<string> {
    if rows == [] then None
    else if Appears(rows[..|rows| - 1], userId) then FirstName(rows[..|rows| - 1], userId)
    else if rows[|rows| - 1].userId == userId then Some(OrOther(rows[|rows| - 1].userName))
    else None
  }

  /** A fact about the last element of a sequence of rows and its prefix. */
  lemma AppearsSplit(rows: seq<Row>, userId: string)
    requires rows != []
    ensures Appears(rows, userId) <==> Appears(rows[..|rows| - 1], userId) || rows[|rows| - 1].userId == userId
  {
    var init := rows[..|rows| - 1];
    if Appears(init, userId) {
      var i :| 0 <= i < |init| && init[i].userId == userId;
      assert rows[i] == init[i];
    }
    if Appears(rows, userId) {
      var i :| 0 <= i < |rows| && rows[i].userId == userId;
      if i < |init| {
        assert init[i] == rows[i];
      }
    }
  }

  /** The reference names exist exactly for users that appear. */
  lemma {:induction false} NamesDefined(rows: seq<Row>, userId: string)
    ensures FirstName(rows, userId).Some? <==> Appears(rows, userId)
    ensures LastName(rows, userId).Some? <==> Appears(rows, userId)
  {
    if rows != [] {
      AppearsSplit(rows, userId);
      NamesDefined(rows[..|rows| - 1], userId);
    }
  }

  /** The first row about a user names it: its name is `FirstName`. */
  lemma {:induction false} FirstNameIsFirstRow(rows: seq<Row>, userId: string, i: nat)
    requires i < |rows| && rows[i].userId == userId
    requires forall j :: 0 <= j < i ==> rows[j].userId != userId
    ensures FirstName(rows, userId) == Some(OrOther(rows[i].userName))
  {
    var init := rows[..|rows| - 1];
    if i < |rows| - 1 {
      assert init[i] == rows[i];
      assert forall j :: 0 <= j < i ==> init[j] == rows[j];
      assert Appears(init, userId);
      FirstNameIsFirstRow(init, userId, i);
    } else {
      forall j | 0 <= j < |init| ensures init[j].userId != userId {
        assert init[j] == rows[j];
      }
    }
  }

  // ---------------------------------------------------------------------
  // Properties of the folds

  /** Exactly the earlier users and those that appear in the rows have entries. */
  lemma {:induction false} MergeKeys(info: map<string, CountInfo>, rows: seq<Row>, table: Table, userId: string)
    ensures userId in Merge(info, rows, table) <==> userId in info || Appears(rows, userId)
  {
    if rows != [] {
      AppearsSplit(rows, userId);
      MergeKeys(info, rows[..|rows| - 1], table, userId);
    }
  }

  /** The table's counter is overwritten, not summed: it holds the `iCount`
      of the user's last row, or the earlier value when the user does not
      appear; the other counter is kept, 0 for a new user. */
  lemma {:induction false} MergeCounts(info: map<string, CountInfo>, rows: seq<Row>, table: Table, userId: string)
    requires userId in Merge(info, rows, table)
    ensures userId in info || Appears(rows, userId)
    ensures var r := Merge(info, rows, table)[userId];
            && (table == AddTable ==>
                  r.addCount == (if Appears(rows, userId) then LastCount(rows, userId) else info[userId].addCount)
                  && r.onlineCount == (if userId in info then info[userId].onlineCount else 0))
            && (table == OnlineTable ==>
                  r.onlineCount == (if Appears(rows, userId) then LastCount(rows, userId) else info[userId].onlineCount)
                  && r.addCount == (if userId in info then info[userId].addCount else 0))
  {
    MergeKeys(info, rows, table, userId);
    if rows != [] {
      var init := rows[..|rows| - 1];
      AppearsSplit(rows, userId);
      MergeKeys(info, init, table, userId);
      if userId in Merge(info, init, table) {
        MergeCounts(info, init, table, userId);
      }
    }
  }

  /** An entry keeps the name it was created with: the earlier name, or the
      name of the user's first row. */
  lemma {:induction false} MergeName(info: map<string, CountInfo>, rows: seq<Row>, table: Table, userId: string)
    requires userId in Merge(info, rows, table)
    ensures Some(Merge(info, rows, table)[userId].userName) ==
              if userId in info then Some(info[userId].userName) else FirstName(rows, userId)
  {
    MergeKeys(info, rows, table, userId);
    NamesDefined(rows, userId);
    if rows != [] {
      var init := rows[..|rows| - 1];
      AppearsSplit(rows, userId);
      MergeKeys(info, init, table, userId);
      if userId in Merge(info, init, table) {
        MergeName(info, init, table, userId);
        NamesDefined(init, userId);
      }
    }
  }

  /** `userIdAndNameMap` holds, for every user that appears, the name of its
      last row; other users keep their earlier names. */
  lemma {:induction false} NameFoldSpec(names: map<string, string>, rows: seq<Row>, userId: string)
    ensures userId in NameFold(names, rows) <==> userId in names || Appears(rows, userId)
    ensures Appears(rows, userId) ==> Some(NameFold(names, rows)[userId]) == LastName(rows, userId)
    ensures !Appears(rows, userId) && userId in names ==> NameFold(names, rows)[userId] == names[userId]
  {
    NamesDefined(rows, userId);
    if rows != [] {
      var init := rows[..|rows| - 1];
      AppearsSplit(rows, userId);
      NameFoldSpec(names, init, userId);
      NamesDefined(init, userId);
    }
  }

  /** The merge of both tables, as the reply handler computes it. */
  function UserAsCountInfo(addRows: seq<Row>, onlineRows: seq<Row>): map<string, CountInfo> {
    Merge(Merge(map[], addRows, AddTable), onlineRows, OnlineTable)
  }

  /** One entry per user id found in either table; its counters are the
      `iCount` of the user's last row in each table, or 0 if absent from it;
      its name is that of the first row about the user, new-demand rows
      coming first. */
  lemma OverviewSpec(addRows: seq<Row>, onlineRows: seq<Row>, userId: string)
    ensures userId in UserAsCountInfo(addRows, onlineRows) <==> Appears(addRows, userId) || Appears(onlineRows, userId)
    ensures userId in UserAsCountInfo(addRows, onlineRows) ==>
              var r := UserAsCountInfo(addRows, onlineRows)[userId];
              && r.addCount == LastCount(addRows, userId)
              && r.onlineCount == LastCount(onlineRows, userId)
              && Some(r.userName) == (if Appears(addRows, userId) then FirstName(addRows, userId)
                                      else FirstName(onlineRows, userId))
  {
    var first := Merge(map[], addRows, AddTable);
    MergeKeys(map[], addRows, AddTable, userId);
    MergeKeys(first, onlineRows, OnlineTable, userId);
    if userId in UserAsCountInfo(addRows, onlineRows) {
      MergeCounts(first, onlineRows, OnlineTable, userId);
      MergeName(first, onlineRows, OnlineTable, userId);
      if userId in first {
        MergeCounts(map[], addRows, AddTable, userId);
        MergeName(map[], addRows, AddTable, userId);
      }
      LastCountAbsent(addRows, userId);
      LastCountAbsent(onlineRows, userId);
    }
  }

  /** A table without the user contributes 0. */
  lemma {:induction false} LastCountAbsent(rows: seq<Row>, userId: string)
    ensures !Appears(rows, userId) ==> LastCount(rows, userId) == 0
  {
    if rows != [] {
      AppearsSplit(rows, userId);
      LastCountAbsent(rows[..|rows| - 1], userId);
    }
  }

  // ---------------------------------------------------------------------
  // The hook's state and the reply handler

  /** The user ids named in an overview list. */
  function UserIds(list: seq<Overview>): set<string> {
    set i | 0 <= i < |list| :: list[i].userId
  }

  lemma UserIdsAppend(list: seq<Overview>, entry: Overview)
    ensures UserIds(list + [entry]) == UserIds(list) + {entry.userId}
  {
    var l := list + [entry];
    assert l[|list|] == entry;
    forall id | id in UserIds(list) ensures id in UserIds(l) {
      var i :| 0 <= i < |list| && list[i].userId == id;
      assert l[i] == list[i];
    }
  }

  /** The entry is the user's value in the map, with its id spread in. */
  predicate EntryOf(info: map<string, CountInfo>, e: Overview) {
    e.userId in info && info[e.userId] == CountInfo(e.userName, e.addCount, e.onlineCount)
  }

  /** Appending the entry of a user not yet listed keeps the list a listing
      of `info` without repeats. */
  lemma ListingGrows(info: map<string, CountInfo>, list: seq<Overview>, entry: Overview)
    requires EntryOf(info, entry) && entry.userId !in UserIds(list)
    requires forall i :: 0 <= i < |list| ==> EntryOf(info, list[i])
    requires forall i, j :: 0 <= i < j < |list| ==> list[i].userId != list[j].userId
    ensures UserIds(list + [entry]) == UserIds(list) + {entry.userId}
    ensures var l := list + [entry]; forall i :: 0 <= i < |l| ==> EntryOf(info, l[i])
    ensures var l := list + [entry]; forall i, j :: 0 <= i < j < |l| ==> l[i].userId != l[j].userId
  {
    UserIdsAppend(list, entry);
    var l := list + [entry];
    forall i, j | 0 <= i < j < |l| ensures l[i].userId != l[j].userId {
      if j == |list| {
        assert l[i] == list[i];
        assert list[i].userId in UserIds(list);
      }
    }
  }

  /** `Object.entries(userAsCountInfo)` with the id spread into each entry:
      one entry per user. The order of the entries is left open. */
  method EntriesToList(info: map<string, CountInfo>) returns (list: seq<Overview>)
    ensures |list| == |info|
    ensures forall i, j :: 0 <= i < j < |list| ==> list[i].userId != list[j].userId
    ensures forall i :: 0 <= i < |list| ==> EntryOf(info, list[i])
    ensures forall userId :: userId in info ==> exists i :: 0 <= i < |list| && list[i].userId == userId
  {
    list := [];
    var left := info.Keys;
    while left != {}
      invariant left <= info.Keys
      invariant UserIds(list) == info.Keys - left
      invariant |list| + |left| == |info|
      invariant forall i :: 0 <= i < |list| ==> EntryOf(info, list[i])
      invariant forall i, j :: 0 <= i < j < |list| ==> list[i].userId != list[j].userId
      decreases |left|
    {
      var userId :| userId in left;
      var obj := info[userId];
      var entry := Overview(userId, obj.userName, obj.addCount, obj.onlineCount);
      ListingGrows(info, list, entry);
      list := list + [entry];
      left := left - {userId};
    }
    forall userId | userId in info ensures exists i :: 0 <= i < |list| && list[i].userId == userId {
      assert userId in UserIds(list);
    }
  }

  /** The state the hook keeps between fetches. */
  class DemandOverviewHook {
    var demandOverviewList: seq<Overview>
    /** Never cleared: names accumulate across fetches. */
    var userIdAndNameMap: map<string, string>

    constructor ()
      ensures demandOverviewList == [] && userIdAndNameMap == map[]
    {
      demandOverviewList := [];
      userIdAndNameMap := map[];
    }

    /** One cursor loop: `userAsCountInfo` and `userIdAndNameMap` updated row
        by row. */
    method ReadTable(info: map<string, CountInfo>, rows: seq<Row>, table: Table) returns (newInfo: map<string, CountInfo>)
      modifies this`userIdAndNameMap
      ensures newInfo == Merge(info, rows, table)
      ensures userIdAndNameMap == NameFold(old(userIdAndNameMap), rows)
    {
      newInfo := info;
      var i := 0;
      while i < |rows|
        invariant 0 <= i <= |rows|
        invariant newInfo == Merge(info, rows[..i], table)
        invariant userIdAndNameMap == NameFold(old(userIdAndNameMap), rows[..i])
      {
        var userName := if rows[i].userName == "" then Other else rows[i].userName;
        var userId := rows[i].userId;
        userIdAndNameMap := userIdAndNameMap[userId := userName];
        var obj := if userId in newInfo then newInfo[userId] else CountInfo(userName, 0, 0);
        if table == AddTable {
          obj := obj.(addCount := rows[i].iCount);
        } else {
          obj := obj.(onlineCount := rows[i].iCount);
        }
        newInfo := newInfo[userId := obj];
        assert rows[..i + 1][..i] == rows[..i];
        i := i + 1;
      }
      assert rows[..i] == rows;
    }

    /** The reply handler of `fetchData`, given the rows of
        `QueryAddNewDemand` and of `QueryOnlineDemand`: the list is emptied
        and refilled with one entry per user of the merge. */
    method HandleReply(addRows: seq<Row>, onlineRows: seq<Row>)
      modifies this
      ensures userIdAndNameMap == NameFold(NameFold(old(userIdAndNameMap), addRows), onlineRows)
      ensures |demandOverviewList| == |UserAsCountInfo(addRows, onlineRows)|
      ensures forall i :: 0 <= i < |demandOverviewList| ==> EntryOf(UserAsCountInfo(addRows, onlineRows), demandOverviewList[i])
      ensures forall i, j :: 0 <= i < j < |demandOverviewList| ==> demandOverviewList[i].userId != demandOverviewList[j].userId
      ensures forall userId :: userId in UserAsCountInfo(addRows, onlineRows) ==>
                exists i :: 0 <= i < |demandOverviewList| && demandOverviewList[i].userId == userId
    {
      var userAsCountInfo := ReadTable(map[], addRows, AddTable);
      userAsCountInfo := ReadTable(userAsCountInfo, onlineRows, OnlineTable);
      var list := EntriesToList(userAsCountInfo);
      demandOverviewList := list;
    }
  }
}
