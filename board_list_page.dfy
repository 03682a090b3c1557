/** The list page of src/pages/BoardListPage.tsx: its page and category
    state, the query it sends, and what it derives from the response. */
module BoardListPage {
  import opened Common
  import opened Navigation
  import opened BoardKeys
  import BoardForms

  const PageSize := 10

  /** `BoardListItem`. */
  datatype BoardListItem = BoardListItem(id: nat, title: string, category: string, createdAt: string)

  /** The fields of the paginated response the page reads. */
  datatype PageData = PageData(content: seq<BoardListItem>, totalPages: int, totalElements: int)

  /** The params given to `useBoards`: the current page, size 10, and the
      category only when one is selected (a truthy string). */
  function QueryParams(page: int, selected: Option<string>): (p: ListParams)
    ensures p.page == Some(page) && p.size == Some(PageSize)
    ensures p.category.Some? <==> Truthy(selected)
    ensures p.category.Some? ==> p.category == selected
  {
    ListParams(Some(page), Some(PageSize), if Truthy(selected) then selected else None)
  }

  datatype ListView = ListView(boards: seq<BoardListItem>, totalPages: int, totalElements: int)

  /** `?? []` and `?? 0`: missing data shows an empty list and zero counts. */
  function View(data: Option<PageData>): (v: ListView)
    ensures data.None? ==> v == ListView([], 0, 0)
    ensures data.Some? ==> v == ListView(data.value.content, data.value.totalPages, data.value.totalElements)
  {
    match data
    case None => ListView([], 0, 0)
    case Some(d) => ListView(d.content, d.totalPages, d.totalElements)
  }

  /** `createdAt.split('T')[0]`: everything before the first `T`, or the
      whole string when there is none. */
  function DatePrefix(createdAt: string): (r: string)
    ensures |r| <= |createdAt| && r == createdAt[..|r|]
    ensures forall i :: 0 <= i < |r| ==> r[i] != 'T'
    ensures |r| < |createdAt| ==> createdAt[|r|] == 'T'
  {
    if createdAt == [] || createdAt[0] == 'T' then []
    else [createdAt[0]] + DatePrefix(createdAt[1..])
  }

  /** Clicking a row or a card pushes the post's page, whose `:id` segment the
      detail and form pages read back as exactly the post's id. */
  function RowClick(item: BoardListItem): (r: Effect)
    ensures r.Navigate? && !r.replace
    ensures |r.path| > 8 && r.path[..8] == "/boards/"
    ensures forall i :: 8 <= i < |r.path| ==> '0' <= r.path[i] <= '9'
    ensures ToNumber(Some(r.path[8..])) == Num(item.id)
  {
    var segment := Decimal(item.id);
    DecimalRoundTrip(item.id);
    assert ("/boards/" + segment)[8..] == segment;
    Navigate(BoardForms.BoardPath(segment), false)
  }

  class BoardListPage {
    var page: int
    var selectedCategory: Option<string>

    constructor ()
      ensures page == 0 && selectedCategory == None
    {
      page := 0;
      selectedCategory := None;
    }

    /** The query params of the current render. */
    function Params(): ListParams
      reads this
    {
      QueryParams(page, selectedCategory)
    }

    /** `handleCategoryChange(cat)`: store the choice (`None` for "All") and go back to the first page. */
    method HandleCategoryChange(cat: Option<string>)
      modifies this
      ensures selectedCategory == cat && page == 0
    {
      selectedCategory := cat;
      page := 0;
    }

    /** `setPage`, the pagination control's callback. */
    method SetPage(p: int)
      modifies this
      ensures page == p && selectedCategory == old(selectedCategory)
    {
      page := p;
    }
  }
}
