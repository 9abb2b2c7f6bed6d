/** The page cursor: the paginator's last page and the direction rule of a
    page load. */
module Paging {
  import opened Records

  /** The number of posts per page the paginator assumes. */
  const PageSize := 2

  /** The number of pages the paginator offers: the least page count whose
      pages of `PageSize` posts hold `total` posts. */
  function LastPage(total: int): (last: int)
    ensures PageSize * (last - 1) < total <= PageSize * last
  {
    (total + PageSize - 1) / PageSize
  }

  /** One more post adds at most one page. */
  lemma LastPageStep(total: int)
    ensures LastPage(total) <= LastPage(total + 1) <= LastPage(total) + 1
  {
  }

  /** JavaScript truthiness of the optional direction argument. */
  predicate IsGiven(direction: Option<string>) {
    direction.Some? && direction.value != ""
  }

  /** The page a load targets: one further for "next", one back for
      "previous" (with no clamp at the first page), the same otherwise. */
  function CursorAfter(page: int, direction: Option<string>): (r: int)
    ensures r == page + 1 <==> direction == Some("next")
    ensures r == page - 1 <==> direction == Some("previous")
    ensures r == page <==> direction != Some("next") && direction != Some("previous")
  {
    if direction == Some("next") then page + 1
    else if direction == Some("previous") then page - 1
    else page
  }

  /** "next" and "previous" undo each other; no direction, or any other
      word, keeps the page; "previous" from the first page leaves the range
      of pages. */
  lemma CursorSpec(page: int, direction: Option<string>)
    ensures CursorAfter(CursorAfter(page, Some("next")), Some("previous")) == page
    ensures CursorAfter(CursorAfter(page, Some("previous")), Some("next")) == page
    ensures direction != Some("next") && direction != Some("previous") ==>
      CursorAfter(page, direction) == page
    ensures CursorAfter(1, Some("previous")) == 0
  {
  }
}
