/**
 * The state of the workflow list page (ui/src/pages/workflows/WorkflowList.tsx):
 * the rows of the current page, the total count, the state filter and the
 * pagination, and the handlers that change them. The server calls the page makes
 * (listing, saving and removing workflows) and the graph check on a workflow's
 * content are not part of this model: their answers arrive as parameters.
 */
module WorkflowList {
  import opened Wrappers
  import opened Workflow

  // ---------------------------------------------------------------------------
  // Row updates

  /** The first row with the given id, as `Array.prototype.find` returns it. */
  function FindById(rows: seq<Workflow>, id: string): (r: Option<Workflow>)
    ensures r.Some? <==> exists i :: 0 <= i < |rows| && rows[i].id == id
    ensures r.Some? ==> r.value in rows && r.value.id == id
    ensures r.Some? ==> exists i :: (0 <= i < |rows| && rows[i] == r.value &&
      forall j :: 0 <= j < i ==> rows[j].id != id)
  {
    if rows == [] then None
    else if rows[0].id == id then Some(rows[0])
    else
      var r := FindById(rows[1..], id);
      assert forall i :: 0 < i < |rows| ==> rows[i] == rows[1..][i - 1];
      r
  }

  /** The rows with every row whose id matches replaced by resp: the `map` after a save. */
  function ReplaceById(rows: seq<Workflow>, id: string, resp: Workflow): (r: seq<Workflow>)
    ensures |r| == |rows|
    ensures forall i :: 0 <= i < |rows| && rows[i].id != id ==> r[i] == rows[i]
    ensures forall i :: 0 <= i < |rows| && rows[i].id == id ==> r[i] == resp
  {
    seq(|rows|, i requires 0 <= i < |rows| => if rows[i].id == id then resp else rows[i])
  }

  /** The rows whose id differs from id, in their order: the `filter` after a delete. */
  function RemoveById(rows: seq<Workflow>, id: string): (r: seq<Workflow>)
    ensures |r| <= |rows|
    ensures forall w :: w in r <==> w in rows && w.id != id
  {
    if rows == [] then []
    else if rows[0].id == id then RemoveById(rows[1..], id)
    else [rows[0]] + RemoveById(rows[1..], id)
  }

  /** The ids of the rows, in order. */
  function Ids(rows: seq<Workflow>): (ids: seq<string>)
    ensures |ids| == |rows|
  {
    seq(|rows|, i requires 0 <= i < |rows| => rows[i].id)
  }

  /** The number of rows with the given id. */
  function CountId(rows: seq<Workflow>, id: string): (n: nat)
    ensures n <= |rows|
  {
    if rows == [] then 0 else (if rows[0].id == id then 1 else 0) + CountId(rows[1..], id)
  }

  /** A response that keeps its id leaves the order of ids unchanged. */
  lemma ReplaceByIdKeepsIds(rows: seq<Workflow>, id: string, resp: Workflow)
    requires resp.id == id
    ensures Ids(ReplaceById(rows, id, resp)) == Ids(rows)
  {
  }

  /** Replacing again with the same response changes nothing more. */
  lemma ReplaceByIdIdempotent(rows: seq<Workflow>, id: string, resp: Workflow)
    requires resp.id == id
    ensures ReplaceById(ReplaceById(rows, id, resp), id, resp) == ReplaceById(rows, id, resp)
  {
  }

  /** After a replacement by a response with the same id, that id finds the response. */
  lemma ReplaceByIdThenFind(rows: seq<Workflow>, id: string, resp: Workflow)
    requires resp.id == id && FindById(rows, id).Some?
    ensures FindById(ReplaceById(rows, id, resp), id) == Some(resp)
  {
    var r := ReplaceById(rows, id, resp);
    var w := FindById(r, id).value;
    var i :| 0 <= i < |r| && r[i] == w && forall j :: 0 <= j < i ==> r[j].id != id;
    assert r[i] == resp;
  }

  /** Removing distributes over concatenation: the rows that stay keep their order. */
  lemma {:induction false} RemoveByIdConcat(a: seq<Workflow>, b: seq<Workflow>, id: string)
    ensures RemoveById(a + b, id) == RemoveById(a, id) + RemoveById(b, id)
    decreases |a|
  {
    if a == [] {
      assert a + b == b;
    } else {
      assert (a + b)[0] == a[0] && (a + b)[1..] == a[1..] + b;
      RemoveByIdConcat(a[1..], b, id);
      var x, y := RemoveById(a[1..], id), RemoveById(b, id);
      assert [a[0]] + (x + y) == ([a[0]] + x) + y;
    }
  }

  /** Exactly the rows with the id go: as many as there were, and no other row. */
  lemma {:induction false} RemoveByIdCount(rows: seq<Workflow>, id: string)
    ensures |RemoveById(rows, id)| + CountId(rows, id) == |rows|
    ensures CountId(RemoveById(rows, id), id) == 0
    decreases |rows|
  {
    if rows != [] {
      RemoveByIdCount(rows[1..], id);
      if rows[0].id != id {
        assert RemoveById(rows, id)[1..] == RemoveById(rows[1..], id);
      }
    }
  }

  /** Removing an id no row has changes nothing. */
  lemma {:induction false} RemoveAbsentId(rows: seq<Workflow>, id: string)
    requires CountId(rows, id) == 0
    ensures RemoveById(rows, id) == rows
    decreases |rows|
  {
    if rows != [] {
      RemoveAbsentId(rows[1..], id);
      assert rows == [rows[0]] + rows[1..];
    }
  }

  // ---------------------------------------------------------------------------
  // Filters, paging and row numbers

  /** The page's filter record; the state filter is its only key. */
  datatype Filters = Filters(state: Option<string>)

  /** The `enabled` argument of the list request for a state filter. */
  function EnabledFilter(f: Filters): (r: Option<bool>)
    ensures r == Some(true) <==> f.state == Some("enabled")
    ensures r == Some(false) <==> f.state == Some("disabled")
  {
    if f.state == Some("enabled") then Some(true)
    else if f.state == Some("disabled") then Some(false)
    else None
  }

  /** Any other filter value, or none, lists every workflow. */
  lemma OtherStatesListAll(f: Filters)
    requires f.state != Some("enabled") && f.state != Some("disabled")
    ensures EnabledFilter(f) == None
  {
  }

  /**
   * A page or page-size query parameter with its fallback: the integer the parameter
   * denotes, unless it is missing, not a number, or 0, in which case the fallback.
   */
  function ParamOrDefault(param: Option<int>, fallback: int): (n: int)
    ensures n == fallback <==> param.None? || param.value == 0 || param.value == fallback
    ensures n != fallback ==> param == Some(n)
  {
    if param.Some? && param.value != 0 then param.value else fallback
  }

  const DefaultPage := 1
  const DefaultPageSize := 10

  /** The number shown for row index of a page: rows are numbered across pages from 1. */
  function RowNumber(page: int, pageSize: int, index: int): (r: int)
    ensures 1 <= page && 0 <= pageSize && 0 <= index ==> 1 <= r
  {
    (page - 1) * pageSize + index + 1
  }

  /** On a page, consecutive rows get consecutive numbers, from the row after the previous page. */
  lemma RowNumbersConsecutive(page: int, pageSize: int, index: int)
    ensures RowNumber(page, pageSize, index + 1) == RowNumber(page, pageSize, index) + 1
    ensures RowNumber(page + 1, pageSize, 0) == RowNumber(page, pageSize, pageSize - 1) + 1
  {
    assert page * pageSize == (page - 1) * pageSize + pageSize;
  }

  /** The rows of page p are numbered (p - 1) * pageSize + 1 to p * pageSize. */
  lemma RowNumberRange(page: int, pageSize: int, index: int)
    requires 0 <= index < pageSize
    ensures (page - 1) * pageSize + 1 <= RowNumber(page, pageSize, index) <= page * pageSize
  {
    assert page * pageSize == (page - 1) * pageSize + pageSize;
  }

  lemma MulMonotone(a: int, b: int, c: int)
    requires a <= b && 0 <= c
    ensures a * c <= b * c
  {
  }

  /** Rows on different pages never share a number. */
  lemma RowNumbersDisjoint(p1: int, p2: int, pageSize: int, i: int, j: int)
    requires p1 < p2 && 0 <= i < pageSize && 0 <= j < pageSize
    ensures RowNumber(p1, pageSize, i) < RowNumber(p2, pageSize, j)
  {
    RowNumberRange(p1, pageSize, i);
    RowNumberRange(p2, pageSize, j);
    MulMonotone(p1, p2 - 1, pageSize);
  }

  // ---------------------------------------------------------------------------
  // Server requests the page issues

  /** The arguments of a list request. */
  datatype ListRequest = ListRequest(page: int, perPage: int, enabled: Option<bool>)

  /** The arguments of a save request from the enable switch. */
  datatype SaveRequest = SaveRequest(id: string, enabled: bool)

  /**
   * Whether the enable switch is refused before any request: only switching on a
   * disabled workflow is checked, and its content must exist and pass the graph check.
   */
  predicate EnableBlocked(w: Workflow, allNodesValidated: Node -> bool)
    ensures EnableBlocked(w, allNodesValidated) ==> !w.enabled
  {
    !w.enabled && (w.content.None? || !allNodesValidated(w.content.value))
  }

  /**
   * A request to switch a listed workflow on is only ever sent for content that
   * passes the graph check: from the row's own state, the requested state and the
   * guard together.
   */
  lemma SwitchOnNeedsValidContent(rows: seq<Workflow>, w: Workflow, allNodesValidated: Node -> bool)
    requires FindById(rows, w.id) == Some(w)
    requires !EnableBlocked(w, allNodesValidated) && RequestedEnabled(rows, w.id)
    ensures w.content.Some? && allNodesValidated(w.content.value)
  {
  }

  /** Switching off an enabled workflow is never refused. */
  lemma DisablingNeverBlocked(w: Workflow, allNodesValidated: Node -> bool)
    requires w.enabled
    ensures !EnableBlocked(w, allNodesValidated)
  {
  }

  /** A disabled workflow may be switched on exactly when it has content that passes the check. */
  lemma EnablingNeedsValidContent(w: Workflow, allNodesValidated: Node -> bool)
    requires !w.enabled
    ensures !EnableBlocked(w, allNodesValidated) <==> w.content.Some? && allNodesValidated(w.content.value)
  {
  }

  /**
   * The state the save asks for: the negation of the listed row's `enabled`. With no
   * listed row of that id the row reads as undefined, whose negation is true.
   */
  function RequestedEnabled(rows: seq<Workflow>, id: string): (b: bool)
    ensures (exists i :: 0 <= i < |rows| && rows[i].id == id) ==> b == !FindById(rows, id).value.enabled
    ensures (forall i :: 0 <= i < |rows| ==> rows[i].id != id) ==> b
  {
    match FindById(rows, id)
    case Some(w) => !w.enabled
    case None => true
  }

  /** When the server answers a save with the state asked for, the next request asks for the opposite. */
  lemma SaveRoundTripToggles(rows: seq<Workflow>, id: string, resp: Workflow)
    requires FindById(rows, id).Some? && resp.id == id && resp.enabled == RequestedEnabled(rows, id)
    ensures RequestedEnabled(ReplaceById(rows, id, resp), id) == !RequestedEnabled(rows, id)
  {
    ReplaceByIdThenFind(rows, id, resp);
  }

  // ---------------------------------------------------------------------------
  // The page state

  class ListPage {
    var tableData: seq<Workflow>
    var tableTotal: int
    var filters: Filters
    var page: int
    var pageSize: int

    /** The initial state, from the `state`, `page` and `perPage` query parameters. */
    constructor (stateParam: Option<string>, pageParam: Option<int>, perPageParam: Option<int>)
      ensures tableData == [] && tableTotal == 0
      ensures filters == Filters(stateParam)
      ensures page == ParamOrDefault(pageParam, DefaultPage)
      ensures pageSize == ParamOrDefault(perPageParam, DefaultPageSize)
    {
      tableData := [];
      tableTotal := 0;
      filters := Filters(stateParam);
      page := ParamOrDefault(pageParam, DefaultPage);
      pageSize := ParamOrDefault(perPageParam, DefaultPageSize);
    }

    /** The list request for the current page and filter. */
    function Request(): (r: ListRequest)
      reads this
      ensures r.page == page && r.perPage == pageSize && r.enabled == EnabledFilter(filters)
    {
      ListRequest(page, pageSize, EnabledFilter(filters))
    }

    /** The row number shown for a row index of the current page. */
    function RowNumberAt(index: int): (r: int)
      reads this
      ensures 0 <= index < pageSize ==> (page - 1) * pageSize < r <= page * pageSize
    {
      if 0 <= index < pageSize then RowNumberRange(page, pageSize, index); RowNumber(page, pageSize, index)
      else RowNumber(page, pageSize, index)
    }

    /** A list response arrives: it becomes the table. */
    method OnListSuccess(items: seq<Workflow>, totalItems: int)
      modifies this
      ensures tableData == items && tableTotal == totalItems
      ensures filters == old(filters) && page == old(page) && pageSize == old(pageSize)
    {
      tableData := items;
      tableTotal := totalItems;
    }

    /**
     * The enable switch of row w is flipped. `allNodesValidated` is the graph check on
     * the content; `saved` is the server's answer to the save request, or None when
     * it answers with nothing or fails. Returns the save request sent, if any.
     */
    method HandleEnabledChange(w: Workflow, allNodesValidated: Node -> bool, saved: Option<Workflow>)
      returns (request: Option<SaveRequest>)
      modifies this
      ensures EnableBlocked(w, allNodesValidated) ==> request == None && tableData == old(tableData)
      ensures !EnableBlocked(w, allNodesValidated) ==>
        request == Some(SaveRequest(w.id, RequestedEnabled(old(tableData), w.id)))
      ensures !EnableBlocked(w, allNodesValidated) && saved.Some? ==>
        tableData == ReplaceById(old(tableData), w.id, saved.value)
      ensures saved.None? ==> tableData == old(tableData)
      ensures tableTotal == old(tableTotal) && filters == old(filters)
      ensures page == old(page) && pageSize == old(pageSize)
    {
      if EnableBlocked(w, allNodesValidated) {
        return None;
      }
      request := Some(SaveRequest(w.id, RequestedEnabled(tableData, w.id)));
      if saved.Some? {
        tableData := ReplaceById(tableData, w.id, saved.value);
      }
    }

    /**
     * The delete of row w is confirmed; `removed` is whether the server reported the
     * removal. Returns whether the list is reloaded.
     */
    method HandleDelete(w: Workflow, removed: bool) returns (reload: bool)
      modifies this
      ensures reload == removed
      ensures tableData == if removed then RemoveById(old(tableData), w.id) else old(tableData)
      ensures tableTotal == old(tableTotal) && filters == old(filters)
      ensures page == old(page) && pageSize == old(pageSize)
    {
      if removed {
        tableData := RemoveById(tableData, w.id);
      }
      reload := removed;
    }

    /** A state item of the filter menu is clicked: a new choice goes back to page 1. */
    method SelectState(key: string)
      modifies this
      ensures filters.state == Some(key)
      ensures old(filters.state) != Some(key) ==> page == DefaultPage
      ensures old(filters.state) == Some(key) ==> page == old(page) && filters == old(filters)
      ensures tableData == old(tableData) && tableTotal == old(tableTotal) && pageSize == old(pageSize)
    {
      if filters.state != Some(key) {
        page := DefaultPage;
        filters := filters.(state := Some(key));
      }
    }

    /** The reset button of the filter menu clears the state filter and goes back to page 1. */
    method ResetState()
      modifies this
      ensures filters.state == None && page == DefaultPage
      ensures EnabledFilter(filters) == None
      ensures tableData == old(tableData) && tableTotal == old(tableTotal) && pageSize == old(pageSize)
    {
      page := DefaultPage;
      filters := filters.(state := None);
    }

    /** The pagination control moves to another page or page size. */
    method ChangePage(newPage: int, newPageSize: int)
      modifies this
      ensures page == newPage && pageSize == newPageSize
      ensures tableData == old(tableData) && tableTotal == old(tableTotal) && filters == old(filters)
    {
      page := newPage;
      pageSize := newPageSize;
    }
  }
}
