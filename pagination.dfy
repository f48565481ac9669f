/** The page and limit the list routes read from the query string
    (app/api/services/route.ts and app/api/appointments/route.ts, GET):
    `parseInt(page || "1")` and `Math.min(parseInt(limit || "10"), 100)`.
    An absent parameter is `None`; a result that is `NaN` is `None`. */
module Pagination {
  import opened Wrappers
  import opened Text
  import opened ApiTypes

  function PageOf(pageParam: Option<string>): Option<int> {
    ParseInt(OrElse(pageParam, "1"))
  }

  /** The limit: never above 100, and `NaN` exactly when the text does not
      parse. */
  function LimitOf(limitParam: Option<string>): (r: Option<int>)
    ensures r.None? <==> ParseInt(OrElse(limitParam, "10")).None?
    ensures r.Some? ==> r.value <= 100
  {
    match ParseInt(OrElse(limitParam, "10"))
    case None => None
    case Some(n) => Some(if n < 100 then n else 100)
  }

  /** With no parameter, or an empty one, the page is 1 and the limit 10. */
  lemma Defaults(pageParam: Option<string>, limitParam: Option<string>)
    requires !Given(pageParam) && !Given(limitParam)
    ensures PageOf(pageParam) == Some(1)
    ensures LimitOf(limitParam) == Some(10)
  {
    assert NatToString(1) == "1";
    ParseIntOfNatToString(1);
    assert NatToString(10) == NatToString(1) + [DigitChar(0)] == "10";
    ParseIntOfNatToString(10);
  }

  /** A page or limit written as a number is read as that number, the limit
      capped at 100. */
  lemma NumeralParams(page: nat, limit: nat)
    ensures PageOf(Some(NatToString(page))) == Some(page)
    ensures LimitOf(Some(NatToString(limit))) == Some(if limit < 100 then limit else 100)
  {
    var p, l := NatToString(page), NatToString(limit);
    assert Given(Some(p)) && Given(Some(l));
    assert OrElse(Some(p), "1") == p;
    assert OrElse(Some(l), "10") == l;
    ParseIntOfNatToString(page);
    ParseIntOfNatToString(limit);
  }

  /** `pagination` in the appointments list response; the list itself is
      canned data. */
  datatype PageInfo = PageInfo(page: Option<int>, limit: Option<int>, total: nat, totalPages: nat)

  function AppointmentsPageInfo(pageParam: Option<string>, limitParam: Option<string>): (p: PageInfo)
    ensures p.page == PageOf(pageParam) && p.limit == LimitOf(limitParam)
    ensures p.total == 1 && p.totalPages == 1
  {
    PageInfo(PageOf(pageParam), LimitOf(limitParam), 1, 1)
  }
}
