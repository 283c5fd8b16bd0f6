/**
  The three row generators of disk/api/handlers/imports.py: node rows for
  `imports`, aggregate rows for `parents`, history rows for `import_history`,
  each a function of the loaded items and the request's date.
 */
module Projection {
  import opened Optional
  import opened DbSchema
  import opened ApiSchema
  import opened TextOrder

  // ----- make_imports_table_rows -----

  /**
    One `imports` row per item, in item order, copying the item's fields.
    Every row is stamped with the request's `updateDate`: items carry no date
    of their own (see `SourceRowLookup`).
   */
  function ImportRows(items: seq<Item>, updateDate: Date): (rows: seq<ImportRow>)
    ensures |rows| == |items|
    ensures forall k :: 0 <= k < |items| ==>
      rows[k] == ImportRow(items[k].parentId, items[k].id, items[k].url, items[k].size, updateDate, items[k].itemType)
  {
    if items == [] then []
    else
      var item := items[0];
      [ImportRow(item.parentId, item.id, item.url, item.size, updateDate, item.itemType)] + ImportRows(items[1..], updateDate)
  }

  /** The keys the source's node-row generator looks up on each item, in the order it looks them up. */
  const SourceRowKeys: seq<string> := ["id", "parentId", "url", "size", "type", "updateDate"]

  /**
    The node-row generator as written indexes the item dictionary directly,
    so the first of `keys` absent from it raises `KeyError`. The result is that
    key, or `None` when every lookup succeeds.
   */
  function SourceRowLookup(d: map<string, Json>, keys: seq<string>): Option<string>
  {
    if keys == [] then None
    else if keys[0] !in d then Some(keys[0])
    else SourceRowLookup(d, keys[1..])
  }

  /**
    On every loaded item the generator as written raises: `updateDate` is
    never a field of an item, and an item without `parentId`, `url` or
    `size` fails earlier, at the first of them it lacks.
   */
  lemma SourceRowLookupAlwaysRaises(item: Item)
    ensures SourceRowLookup(Dump(item), SourceRowKeys) ==
      Some(if item.parentId.None? then "parentId"
           else if item.url.None? then "url"
           else if item.size.None? then "size"
           else "updateDate")
  {
    var d := Dump(item);
    var keys := SourceRowKeys;
    assert "id" in d && "type" in d && "updateDate" !in d;
    assert ("parentId" in d <==> item.parentId.Some?) && ("url" in d <==> item.url.Some?) && ("size" in d <==> item.size.Some?);
    assert keys[1..][1..][1..][1..][1..] == ["updateDate"];
    assert SourceRowLookup(d, keys) == SourceRowLookup(d, keys[1..]);
    if "parentId" in d {
      assert SourceRowLookup(d, keys[1..]) == SourceRowLookup(d, keys[1..][1..]);
      if "url" in d {
        assert SourceRowLookup(d, keys[1..][1..]) == SourceRowLookup(d, keys[1..][1..][1..]);
        if "size" in d {
          assert SourceRowLookup(d, keys[1..][1..][1..]) == SourceRowLookup(d, keys[1..][1..][1..][1..]);
          assert SourceRowLookup(d, keys[1..][1..][1..][1..]) == SourceRowLookup(d, ["updateDate"]);
        }
      }
    }
  }

  // ----- make_history_table_rows -----

  /** One history row per item, in item order, naming the item and the request's date. */
  function HistoryRows(items: seq<Item>, updateDate: Date): (rows: seq<HistoryRow>)
    ensures |rows| == |items|
    ensures forall k :: 0 <= k < |items| ==> rows[k].importId == items[k].id && rows[k].updateDate == updateDate
  {
    if items == [] then [] else [HistoryRow(items[0].id, updateDate)] + HistoryRows(items[1..], updateDate)
  }

  // ----- make_parents_table_rows -----
  //
  // The source builds a DataFrame from the items and iterates over
  // `groupby('parentId', as_index=False).sum()`. Iterating a DataFrame yields
  // its column labels, not its rows, so the loop body as written indexes a
  // string (`SourceParentRows`). `ParentRows` is the evident intent: one row
  // per group, as the group-by defines them (null keys dropped, missing sizes
  // skipped in the sum, groups in ascending key order).

  /** The two ways the parent-row generator as written fails. */
  datatype SourceFault = MissingColumn(key: string) | LabelIndexed

  /** The column labels of `DataFrame(items)`: every field some item has. */
  function FrameColumns(items: seq<Item>): set<string>
  {
    if items == [] then {} else Dump(items[0]).Keys + FrameColumns(items[1..])
  }

  /**
    The parent-row generator as written, on its first step. Grouping by a
    column the frame lacks raises `KeyError`. Otherwise the grouped frame
    keeps `parentId` as a column, the loop walks the column labels, and
    indexing the first label (a string) with `'parentId'` raises `TypeError`.
    So it yields no row for any request: `KeyError` when no item names a
    parent (an empty request included), `TypeError` when one does.
   */
  function SourceParentRows(items: seq<Item>): (fault: SourceFault)
    ensures fault == MissingColumn("parentId") <==> forall k :: 0 <= k < |items| ==> items[k].parentId.None?
    ensures fault == LabelIndexed <==> exists k :: 0 <= k < |items| && items[k].parentId.Some?
  {
    FrameHasParentColumn(items);
    if "parentId" !in FrameColumns(items) then MissingColumn("parentId") else LabelIndexed
  }

  lemma {:induction false} FrameHasParentColumn(items: seq<Item>)
    ensures "parentId" in FrameColumns(items) <==> exists k :: 0 <= k < |items| && items[k].parentId.Some?
  {
    if items != [] {
      FrameHasParentColumn(items[1..]);
      assert "parentId" in Dump(items[0]).Keys <==> items[0].parentId.Some?;
      if exists k :: 1 <= k < |items| && items[k].parentId.Some? {
        var k :| 1 <= k < |items| && items[k].parentId.Some?;
        assert items[1..][k - 1] == items[k];
      }
      if exists k :: 0 <= k < |items[1..]| && items[1..][k].parentId.Some? {
        var k :| 0 <= k < |items[1..]| && items[1..][k].parentId.Some?;
        assert items[k + 1] == items[1..][k];
      }
    }
  }

  /** An item's contribution to its parent's total: a missing size counts as 0. */
  function SizeOrZero(item: Item): nat
  {
    match item.size
    case Some(n) => n
    case None => 0
  }

  /** Reference definition: the total size of the items naming `parent`. */
  function GroupSum(items: seq<Item>, parent: string): nat
  {
    if items == [] then 0
    else (if items[0].parentId == Some(parent) then SizeOrZero(items[0]) else 0) + GroupSum(items[1..], parent)
  }

  /** The distinct non-null parent identifiers among the items. */
  function ParentIds(items: seq<Item>): set<string>
  {
    if items == [] then {}
    else (match items[0].parentId case Some(p) => {p} case None => {}) + ParentIds(items[1..])
  }

  /** The total size of the items that name a parent. */
  function ParentedTotal(items: seq<Item>): nat
  {
    if items == [] then 0
    else (if items[0].parentId.Some? then SizeOrZero(items[0]) else 0) + ParentedTotal(items[1..])
  }

  /** The size recorded for `id` in the first row naming it, 0 if none does. */
  function SizeIn(rows: seq<ParentRow>, id: string): nat
  {
    if rows == [] then 0 else if rows[0].id == id then rows[0].size else SizeIn(rows[1..], id)
  }

  function TotalSize(rows: seq<ParentRow>): nat
  {
    if rows == [] then 0 else rows[0].size + TotalSize(rows[1..])
  }

  /** Rows in strictly ascending key order, hence with distinct keys. */
  predicate Ascending(rows: seq<ParentRow>)
  {
    forall i, j :: 0 <= i < j < |rows| ==> Below(rows[i].id, rows[j].id)
  }

  /** Adds `size` to the group `parent`, creating the group in key order if it is new. */
  function AddToGroup(rows: seq<ParentRow>, parent: string, size: nat): (r: seq<ParentRow>)
    ensures r != [] && |rows| <= |r| <= |rows| + 1
  {
    if rows == [] then [ParentRow(parent, size)]
    else if rows[0].id == parent then [ParentRow(parent, rows[0].size + size)] + rows[1..]
    else if Below(parent, rows[0].id) then [ParentRow(parent, size)] + rows
    else [rows[0]] + AddToGroup(rows[1..], parent, size)
  }

  /** The aggregate rows of the group-by over `parentId`: at most one per item, none without a named parent. */
  function ParentRows(items: seq<Item>): (rows: seq<ParentRow>)
    ensures |rows| <= |items|
    ensures rows == [] <==> forall k :: 0 <= k < |items| ==> items[k].parentId.None?
  {
    if items == [] then []
    else
      var rest := ParentRows(items[1..]);
      match items[0].parentId
      case None => rest
      case Some(p) => AddToGroup(rest, p, SizeOrZero(items[0]))
  }

  lemma AscendingTail(rows: seq<ParentRow>)
    requires Ascending(rows) && rows != []
    ensures Ascending(rows[1..])
    ensures forall k :: 0 <= k < |rows[1..]| ==> Below(rows[0].id, rows[1..][k].id)
  {
    forall i, j | 0 <= i < j < |rows[1..]| ensures Below(rows[1..][i].id, rows[1..][j].id) {
      assert rows[1..][i] == rows[i + 1] && rows[1..][j] == rows[j + 1];
    }
  }

  /** A key below the first key of an ascending sequence is in none of its rows. */
  lemma {:induction false} BelowAllAbsent(rows: seq<ParentRow>, id: string)
    requires Ascending(rows) && rows != [] && Below(id, rows[0].id)
    ensures id !in ParentKeys(rows) && SizeIn(rows, id) == 0
    decreases |rows|
  {
    BelowIrreflexive(id);
    if |rows| > 1 {
      AscendingTail(rows);
      assert Below(rows[0].id, rows[1].id);
      BelowTransitive(id, rows[0].id, rows[1].id);
      BelowAllAbsent(rows[1..], id);
    }
  }

  lemma ParentKeysMembers(rows: seq<ParentRow>)
    ensures forall k :: 0 <= k < |rows| ==> rows[k].id in ParentKeys(rows)
    ensures forall id :: id in ParentKeys(rows) ==> exists k :: 0 <= k < |rows| && rows[k].id == id
  {
    if rows != [] {
      ParentKeysMembers(rows[1..]);
      forall k | 1 <= k < |rows| ensures rows[k].id in ParentKeys(rows) {
        assert rows[1..][k - 1] == rows[k];
      }
      forall id | id in ParentKeys(rows) ensures exists k :: 0 <= k < |rows| && rows[k].id == id {
        if id != rows[0].id {
          var k :| 0 <= k < |rows[1..]| && rows[1..][k].id == id;
          assert rows[k + 1].id == id;
        }
      }
    }
  }

  /** Adding to a group adds its key to the set of keys, and no other. */
  lemma {:induction false} AddToGroupKeys(rows: seq<ParentRow>, parent: string, size: nat)
    ensures ParentKeys(AddToGroup(rows, parent, size)) == ParentKeys(rows) + {parent}
    decreases |rows|
  {
    var r := AddToGroup(rows, parent, size);
    if rows == [] {
      assert ParentKeys(r) == {parent} + ParentKeys([]);
    } else if rows[0].id == parent {
      assert r[0].id == parent && r[1..] == rows[1..];
    } else if Below(parent, rows[0].id) {
      assert r[0].id == parent && r[1..] == rows;
    } else {
      AddToGroupKeys(rows[1..], parent, size);
      assert r[0] == rows[0] && r[1..] == AddToGroup(rows[1..], parent, size);
    }
  }

  /** A lower bound of the keys and of the new group's key bounds every key after adding to the group. */
  lemma {:induction false} AddToGroupAbove(rows: seq<ParentRow>, parent: string, size: nat, low: string)
    requires Below(low, parent) && forall k :: 0 <= k < |rows| ==> Below(low, rows[k].id)
    ensures forall k :: 0 <= k < |AddToGroup(rows, parent, size)| ==> Below(low, AddToGroup(rows, parent, size)[k].id)
    decreases |rows|
  {
    var r := AddToGroup(rows, parent, size);
    if rows == [] {
    } else if rows[0].id == parent {
      assert forall k :: 1 <= k < |r| ==> r[k] == rows[k];
    } else if Below(parent, rows[0].id) {
      assert forall k :: 1 <= k < |r| ==> r[k] == rows[k - 1];
    } else {
      AddToGroupAbove(rows[1..], parent, size, low);
      var tail := AddToGroup(rows[1..], parent, size);
      assert r[0] == rows[0] && forall k :: 1 <= k < |r| ==> r[k] == tail[k - 1];
    }
  }

  /** Adding to a group keeps the rows ascending. */
  lemma {:induction false} AddToGroupAscending(rows: seq<ParentRow>, parent: string, size: nat)
    requires Ascending(rows)
    ensures Ascending(AddToGroup(rows, parent, size))
    decreases |rows|
  {
    var r := AddToGroup(rows, parent, size);
    if rows == [] {
    } else if rows[0].id == parent {
      assert r[1..] == rows[1..];
      forall i, j | 0 <= i < j < |r| ensures Below(r[i].id, r[j].id) {
        assert r[i].id == rows[i].id && r[j].id == rows[j].id;
      }
    } else if Below(parent, rows[0].id) {
      assert r[1..] == rows;
      forall i, j | 0 <= i < j < |r| ensures Below(r[i].id, r[j].id) {
        if i == 0 {
          if j > 1 { BelowTransitive(parent, rows[0].id, rows[j - 1].id); }
        } else {
          assert r[i] == rows[i - 1] && r[j] == rows[j - 1];
        }
      }
    } else {
      BelowTotal(parent, rows[0].id);
      AscendingTail(rows);
      var tail := AddToGroup(rows[1..], parent, size);
      AddToGroupAscending(rows[1..], parent, size);
      AddToGroupAbove(rows[1..], parent, size, rows[0].id);
      assert r == [rows[0]] + tail && r[1..] == tail;
      forall i, j | 0 <= i < j < |r| ensures Below(r[i].id, r[j].id) {
        if i == 0 {
          assert r[j] == tail[j - 1];
        } else {
          assert r[i] == tail[i - 1] && r[j] == tail[j - 1];
        }
      }
    }
  }

  /** Adding to a group adds `size` to that group's total and changes no other group. */
  lemma {:induction false} AddToGroupSizes(rows: seq<ParentRow>, parent: string, size: nat)
    requires Ascending(rows)
    ensures forall id :: SizeIn(AddToGroup(rows, parent, size), id) == SizeIn(rows, id) + (if id == parent then size else 0)
    decreases |rows|
  {
    if rows == [] {
    } else if rows[0].id == parent {
    } else if Below(parent, rows[0].id) {
      BelowAllAbsent(rows, parent);
    } else {
      AscendingTail(rows);
      AddToGroupSizes(rows[1..], parent, size);
    }
  }

  /** Adding to a group adds `size` to the grand total. */
  lemma {:induction false} AddToGroupTotal(rows: seq<ParentRow>, parent: string, size: nat)
    ensures TotalSize(AddToGroup(rows, parent, size)) == TotalSize(rows) + size
    decreases |rows|
  {
    if rows != [] && rows[0].id != parent && !Below(parent, rows[0].id) {
      AddToGroupTotal(rows[1..], parent, size);
    }
  }

  /**
    The aggregate rows: ascending by key, so one row per key; the keys are
    exactly the distinct non-null `parentId`s; each key's size is the sum over
    the items naming it; and all sizes together add up to the total size of
    the items that have a parent.
   */
  lemma {:induction false} ParentRowsSpec(items: seq<Item>)
    ensures Ascending(ParentRows(items))
    ensures ParentKeys(ParentRows(items)) == ParentIds(items)
    ensures forall id :: SizeIn(ParentRows(items), id) == GroupSum(items, id)
    ensures TotalSize(ParentRows(items)) == ParentedTotal(items)
  {
    if items != [] {
      ParentRowsSpec(items[1..]);
      match items[0].parentId
      case None =>
      case Some(p) =>
        AddToGroupAscending(ParentRows(items[1..]), p, SizeOrZero(items[0]));
        AddToGroupKeys(ParentRows(items[1..]), p, SizeOrZero(items[0]));
        AddToGroupSizes(ParentRows(items[1..]), p, SizeOrZero(items[0]));
        AddToGroupTotal(ParentRows(items[1..]), p, SizeOrZero(items[0]));
    }
  }

  /** In rows with distinct keys, `SizeIn` reads each row's own size. */
  lemma {:induction false} SizeInAt(rows: seq<ParentRow>, k: nat)
    requires Ascending(rows) && k < |rows|
    ensures SizeIn(rows, rows[k].id) == rows[k].size
    decreases k
  {
    if k > 0 {
      BelowIrreflexive(rows[k].id);
      AscendingTail(rows);
      assert rows[1..][k - 1] == rows[k];
      SizeInAt(rows[1..], k - 1);
    }
  }

  /**
    There is one aggregate row per distinct non-null `parentId`, and its size
    is the sum of the sizes of the items naming that parent.
   */
  lemma ParentRowsAggregate(items: seq<Item>)
    ensures var rows := ParentRows(items);
      && (forall i, j :: 0 <= i < j < |rows| ==> rows[i].id != rows[j].id)
      && (forall k :: 0 <= k < |rows| ==> rows[k].id in ParentIds(items) && rows[k].size == GroupSum(items, rows[k].id))
      && (forall p :: p in ParentIds(items) ==> exists k :: 0 <= k < |rows| && rows[k].id == p)
  {
    var rows := ParentRows(items);
    ParentRowsSpec(items);
    ParentKeysMembers(rows);
    forall i, j | 0 <= i < j < |rows| ensures rows[i].id != rows[j].id {
      BelowIrreflexive(rows[i].id);
    }
    forall k | 0 <= k < |rows| ensures rows[k].size == GroupSum(items, rows[k].id) {
      SizeInAt(rows, k);
    }
  }

  /** Every parent an item names has an aggregate row. */
  lemma {:induction false} ParentIdsCover(items: seq<Item>)
    ensures forall k :: 0 <= k < |items| && items[k].parentId.Some? ==> items[k].parentId.value in ParentIds(items)
  {
    if items != [] {
      ParentIdsCover(items[1..]);
      forall k | 1 <= k < |items| ensures items[k] == items[1..][k - 1] { }
    }
  }
}
