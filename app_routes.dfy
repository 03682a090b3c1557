/** The route table of src/App.tsx: each path pattern, its guard and its page. */
module AppRoutes {
  import opened Common
  import opened Navigation
  import RouteGuards

  datatype Page = LoginPage | SignupPage | BoardListPage | BoardDetailPage | BoardFormPage

  datatype Guard = Unguarded | Protected | Guest

  datatype Element = RedirectTo(nav: Effect) | Guarded(guard: Guard, page: Page)

  datatype Route = Route(path: string, element: Element)

  const Routes: seq<Route> := [
    Route("/", RedirectTo(Navigate(BoardsPath, true))),
    Route("/login", Guarded(Guest, LoginPage)),
    Route("/signup", Guarded(Guest, SignupPage)),
    Route("/boards", Guarded(Protected, BoardListPage)),
    Route("/boards/new", Guarded(Protected, BoardFormPage)),
    Route("/boards/:id", Guarded(Unguarded, BoardDetailPage)),
    Route("/boards/:id/edit", Guarded(Protected, BoardFormPage))
  ]

  /** The element declared for a path pattern. */
  function Lookup(pattern: string, routes: seq<Route>): (e: Option<Element>)
    ensures e.None? ==> forall i :: 0 <= i < |routes| ==> routes[i].path != pattern
  {
    if routes == [] then None
    else if routes[0].path == pattern then Some(routes[0].element)
    else
      var e := Lookup(pattern, routes[1..]);
      assert forall i :: 1 <= i < |routes| ==> routes[i] == routes[1..][i - 1];
      e
  }

  /** The first route declared for a pattern is the one found. */
  lemma {:induction false} LookupFirst(pattern: string, routes: seq<Route>, i: nat)
    requires i < |routes| && routes[i].path == pattern
    requires forall j :: 0 <= j < i ==> routes[j].path != pattern
    ensures Lookup(pattern, routes) == Some(routes[i].element)
  {
    if i > 0 {
      LookupFirst(pattern, routes[1..], i - 1);
    }
  }

  /** What a visitor of a pattern sees. */
  datatype Screen = Shows(page: Page) | Redirected(nav: Effect)

  function Visit(element: Element, isAuthenticated: bool): Screen {
    match element
    case RedirectTo(nav) => Redirected(nav)
    case Guarded(guard, page) =>
      var r := match guard
        case Unguarded => RouteGuards.Children
        case Protected => RouteGuards.ProtectedRoute(isAuthenticated)
        case Guest => RouteGuards.GuestRoute(isAuthenticated)
      ;
      if r.Children? then Shows(page) else Redirected(r.nav)
  }

  /** The table as declared: `/` redirects to the list; login and sign-up are
      guest pages; the list, the new-post and the edit pages are protected
      and the last two both show the form page; the detail page is open. */
  lemma RouteTable()
    ensures Lookup("/", Routes) == Some(RedirectTo(Navigate(BoardsPath, true)))
    ensures Lookup("/login", Routes) == Some(Guarded(Guest, LoginPage))
    ensures Lookup("/signup", Routes) == Some(Guarded(Guest, SignupPage))
    ensures Lookup("/boards", Routes) == Some(Guarded(Protected, BoardListPage))
    ensures Lookup("/boards/new", Routes) == Some(Guarded(Protected, BoardFormPage))
    ensures Lookup("/boards/:id", Routes) == Some(Guarded(Unguarded, BoardDetailPage))
    ensures Lookup("/boards/:id/edit", Routes) == Some(Guarded(Protected, BoardFormPage))
  {
    assert Lookup("/", Routes) == Some(RedirectTo(Navigate(BoardsPath, true))) by { LookupFirst("/", Routes, 0); }
    assert Lookup("/login", Routes) == Some(Guarded(Guest, LoginPage)) by { LookupFirst("/login", Routes, 1); }
    assert Lookup("/signup", Routes) == Some(Guarded(Guest, SignupPage)) by { LookupFirst("/signup", Routes, 2); }
    assert Lookup("/boards", Routes) == Some(Guarded(Protected, BoardListPage)) by { LookupFirst("/boards", Routes, 3); }
    assert Lookup("/boards/new", Routes) == Some(Guarded(Protected, BoardFormPage)) by { LookupFirst("/boards/new", Routes, 4); }
    assert Lookup("/boards/:id", Routes) == Some(Guarded(Unguarded, BoardDetailPage)) by { LookupFirst("/boards/:id", Routes, 5); }
    assert Lookup("/boards/:id/edit", Routes) == Some(Guarded(Protected, BoardFormPage)) by { LookupFirst("/boards/:id/edit", Routes, 6); }
  }

  /** A visitor who is not signed in sees no protected page: every pattern
      other than the detail page and the guest pages sends them on. A
      signed-in visitor sees no guest page. */
  lemma GuardedPagesUnreachable(i: nat)
    requires i < |Routes|
    ensures Routes[i].element.Guarded? && Routes[i].element.guard == Protected ==>
      Visit(Routes[i].element, false) == Redirected(Navigate(LoginPath, true))
    ensures Routes[i].element.Guarded? && Routes[i].element.guard == Guest ==>
      Visit(Routes[i].element, true) == Redirected(Navigate(BoardsPath, true))
    ensures (exists a :: Visit(Routes[i].element, a) == Shows(BoardFormPage)) ==>
      Routes[i].element.guard == Protected
  {
  }
}
