/** The link accessors (api/api.go: resLinks): each builds one fixed GET
    request and runs it through `Client.Do`. The sort orders are passed
    through unchecked, as the source does. */
module Links {
  import opened Wrappers
  import opened Strings
  import opened Decimal
  import opened Requests
  import opened Clients

  /** Sort orders of the promoted listing. */
  const PromotedByDay: string := "day"
  const PromotedByWeek: string := "week"
  const PromotedByMonth: string := "month"

  /** Sort orders of the upcoming listing. */
  const UpcomingDate: string := "date"
  const UpcomingVotes: string := "votes"
  const UpcomingComments: string := "comments"

  /** A `links/<listing>` request: page and sort as api params, no user auth. */
  function ListingRequest(listing: string, page: int, sort: string): Request
  {
    Request(MethodGet, false, "links", listing, [],
      [Param("page", Itoa(page)), Param("sort", sort)], [])
  }

  /** A `link/<method>` request about one link: its id as the only method
      param. */
  function LinkRequest(methodName: string, userAuth: bool, id: int): Request
  {
    Request(MethodGet, userAuth, "link", methodName, [Param("param1", Itoa(id))], [], [])
  }

  /** After authentication a listing request has three segments:
      `links`, the listing, and the items `page,<page>,sort,<sort>,appkey,<app>`. */
  lemma ListingSegments(listing: string, page: int, sort: string, appKey: string, userKey: string)
    ensures Segments(WithAuth(ListingRequest(listing, page, sort), appKey, userKey)) ==
      ["links", listing, Join(["page", Itoa(page), "sort", sort, "appkey", appKey], ',')]
  {
    var a := WithAuth(ListingRequest(listing, page, sort), appKey, userKey);
    var ps := a.apiParams;
    assert ps == [Param("page", Itoa(page)), Param("sort", sort), Param("appkey", appKey)];
    var items := Flatten(ps);
    assert items[0] == "page" && items[1] == Itoa(page);
    assert items[2] == "sort" && items[3] == sort;
    assert items[4] == "appkey" && items[5] == appKey;
    assert items == ["page", Itoa(page), "sort", sort, "appkey", appKey];
    assert Values(a.methodParams) == [];
    assert Segments(a) == ["links", listing] + [] + [ApiBlob(ps)];
  }

  /** After authentication a request about one link has four segments:
      `link`, the method, the id, and the items `appkey,<app>` followed by
      `,userkey,<user>` when the request needs user auth. */
  lemma LinkSegments(methodName: string, userAuth: bool, id: int, appKey: string, userKey: string)
    ensures Segments(WithAuth(LinkRequest(methodName, userAuth, id), appKey, userKey)) ==
      ["link", methodName, Itoa(id),
       Join(["appkey", appKey] + (if userAuth then ["userkey", userKey] else []), ',')]
  {
    var a := WithAuth(LinkRequest(methodName, userAuth, id), appKey, userKey);
    var ps := a.apiParams;
    var items := Flatten(ps);
    assert Values(a.methodParams) == [Itoa(id)];
    assert items[0] == "appkey" && items[1] == appKey;
    if userAuth {
      assert ps == [Param("appkey", appKey), Param("userkey", userKey)];
      assert items[2] == "userkey" && items[3] == userKey;
      assert items == ["appkey", appKey] + ["userkey", userKey];
    } else {
      assert ps == [Param("appkey", appKey)];
      assert items == ["appkey", appKey] + [];
    }
    assert Segments(a) == ["link", methodName] + [Itoa(id)] + [ApiBlob(ps)];
  }

  /** `Promoted`: GET `links/promoted/page,<page>,sort,<sort>,appkey,<app>`;
      the user key is never sent. */
  function Promoted<T>(c: Client, page: int, sort: string, send: HttpRequest -> Result<T, Error>)
    : (res: Result<T, Error>)
    ensures res == send(HttpRequest(MethodGet, Host, Join(["links", "promoted",
      Join(["page", Itoa(page), "sort", sort, "appkey", c.appKey], ',')], '/')))
  {
    ListingSegments("promoted", page, sort, c.appKey, c.userKey);
    Do(c, ListingRequest("promoted", page, sort), send).result
  }

  /** `Upcoming`: GET `links/upcoming/page,<page>,sort,<sort>,appkey,<app>`;
      the user key is never sent. */
  function Upcoming<T>(c: Client, page: int, sort: string, send: HttpRequest -> Result<T, Error>)
    : (res: Result<T, Error>)
    ensures res == send(HttpRequest(MethodGet, Host, Join(["links", "upcoming",
      Join(["page", Itoa(page), "sort", sort, "appkey", c.appKey], ',')], '/')))
  {
    ListingSegments("upcoming", page, sort, c.appKey, c.userKey);
    Do(c, ListingRequest("upcoming", page, sort), send).result
  }

  /** `Index`: GET `link/index/<id>/appkey,<app>,userkey,<user>`; the only
      accessor that sends the user key. */
  function Index<T>(c: Client, id: int, send: HttpRequest -> Result<T, Error>)
    : (res: Result<T, Error>)
    ensures res == send(HttpRequest(MethodGet, Host, Join(["link", "index", Itoa(id),
      Join(["appkey", c.appKey, "userkey", c.userKey], ',')], '/')))
  {
    LinkSegments("index", true, id, c.appKey, c.userKey);
    assert ["appkey", c.appKey] + ["userkey", c.userKey] == ["appkey", c.appKey, "userkey", c.userKey];
    Do(c, LinkRequest("index", true, id), send).result
  }

  /** `Digs`: GET `link/digs/<id>/appkey,<app>`; the user key is never sent. */
  function Digs<T>(c: Client, id: int, send: HttpRequest -> Result<T, Error>)
    : (res: Result<T, Error>)
    ensures res == send(HttpRequest(MethodGet, Host, Join(["link", "digs", Itoa(id),
      Join(["appkey", c.appKey], ',')], '/')))
  {
    LinkSegments("digs", false, id, c.appKey, c.userKey);
    assert ["appkey", c.appKey] + [] == ["appkey", c.appKey];
    Do(c, LinkRequest("digs", false, id), send).result
  }

  // The four rendering lemmas below take their literal pieces as parameters
  // fixed by `requires`, so the verifier folds one short literal at a time
  // instead of unrolling `Join` over a whole list of literals.

  /** The credentials segment for keys `app` and `user`. */
  lemma IndexOfTenItems(app: string, user: string)
    requires app == "app" && user == "user"
    ensures Join(["appkey", app, "userkey", user], ',') == "appkey,app,userkey,user"
  {
    JoinFour("appkey", app, "userkey", user, ',');
  }

  /** The path of link 10 around a given credentials segment. */
  lemma IndexOfTenPath(ten: string, items: string)
    requires ten == "10" && items == "appkey,app,userkey,user"
    ensures Join(["link", "index", ten, items], '/') == "link/index/10/appkey,app,userkey,user"
  {
    JoinFour("link", "index", ten, items, '/');
  }

  /** The api-params segment of the first day-sorted page with key `app`. */
  lemma PromotedFirstPageItems(one: string, day: string, app: string)
    requires one == "1" && day == "day" && app == "app"
    ensures Join(["page", one, "sort", day, "appkey", app], ',') == "page,1,sort,day,appkey,app"
  {
    JoinSix("page", one, "sort", day, "appkey", app, ',');
  }

  /** The promoted listing's path around a given api-params segment. */
  lemma PromotedFirstPagePath(items: string)
    requires items == "page,1,sort,day,appkey,app"
    ensures Join(["links", "promoted", items], '/') == "links/promoted/page,1,sort,day,appkey,app"
  {
    JoinThree("links", "promoted", items, '/');
  }

  /** Link 10 with keys `app` and `user` is fetched from
      `a.wykop.pl` at `link/index/10/appkey,app,userkey,user`. */
  lemma IndexOfTen<T>(c: Client, send: HttpRequest -> Result<T, Error>)
    requires c.appKey == "app" && c.userKey == "user"
    ensures Index(c, 10, send) ==
      send(HttpRequest("GET", "a.wykop.pl", "link/index/10/appkey,app,userkey,user"))
  {
    assert Itoa(10) == "10" by {
      assert Digits(10) == Digits(1) + [DigitChar(0)];
    }
    IndexOfTenItems(c.appKey, c.userKey);
    IndexOfTenPath(Itoa(10), Join(["appkey", c.appKey, "userkey", c.userKey], ','));
  }

  /** The first page of the day's promoted links with key `app` is fetched
      at `links/promoted/page,1,sort,day,appkey,app`: page and sort travel
      in the api-params segment ahead of the key. */
  lemma PromotedFirstPageByDay<T>(c: Client, send: HttpRequest -> Result<T, Error>)
    requires c.appKey == "app"
    ensures Promoted(c, 1, PromotedByDay, send) ==
      send(HttpRequest("GET", "a.wykop.pl", "links/promoted/page,1,sort,day,appkey,app"))
  {
    assert Itoa(1) == "1";
    PromotedFirstPageItems(Itoa(1), PromotedByDay, c.appKey);
    PromotedFirstPagePath(Join(["page", Itoa(1), "sort", PromotedByDay, "appkey", c.appKey], ','));
  }
}
