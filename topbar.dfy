/** The page title shown in the top bar: a first-match lookup of the current path in a constant route table. */
module TopBar {
  import opened Wrappers
  import opened Strings

  /** One row of the route table; a prefix row matches every path that starts with its own path. */
  datatype Route = Route(path: string, title: string, isPrefix: bool)

  /** The route table, in the order the lookup tries it. */
  const RouteMap: seq<Route> := [
    Route("/", "Dashboard", false),
    Route("/control", "Robot Control", false),
    Route("/calibration", "Calibration", false),
    Route("/inference", "AI Control", false),
    Route("/admin", "Admin Configuration", false),
    Route("/docs", "API Documentation", false),
    Route("/viz", "Camera Overview", false),
    Route("/network", "Network Management", false),
    Route("/browse", "Browse Datasets", true)
  ]

  /**
   * The predicate handed to `find`: prefix rows use `startsWith`, the others strict equality. A row
   * matches its own path, and a matched path begins with the row's path, equal to it for an exact row.
   */
  function Matches(r: Route, currentPath: string): (m: bool)
    ensures currentPath == r.path ==> m
    ensures m ==> |r.path| <= |currentPath| && currentPath[..|r.path|] == r.path
    ensures m && !r.isPrefix ==> currentPath == r.path
  {
    if r.isPrefix then StartsWith(currentPath, r.path) else currentPath == r.path
  }

  /** The position of the first row of `table` that matches `currentPath`, if any. */
  function FindIndex(table: seq<Route>, currentPath: string): (r: Option<nat>)
    ensures r.Some? ==> r.value < |table| && Matches(table[r.value], currentPath)
    ensures r.Some? ==> forall j :: 0 <= j < r.value ==> !Matches(table[j], currentPath)
    ensures r.None? <==> forall j :: 0 <= j < |table| ==> !Matches(table[j], currentPath)
  {
    if |table| == 0 then None
    else if Matches(table[0], currentPath) then Some(0)
    else
      match FindIndex(table[1..], currentPath)
      case None => None
      case Some(k) => Some(k + 1)
  }

  /** `routeMap.find(...)` for the current path: a matching row of the table, or none when no row matches. */
  function MatchedRoute(currentPath: string): (r: Option<Route>)
    ensures r.Some? ==> r.value in RouteMap && Matches(r.value, currentPath)
    ensures r.None? <==> forall j :: 0 <= j < |RouteMap| ==> !Matches(RouteMap[j], currentPath)
  {
    match FindIndex(RouteMap, currentPath)
    case None => None
    case Some(i) => Some(RouteMap[i])
  }

  /**
   * The title rendered under the brand, when `matchedRoute?.title` is present. Every row has a
   * title, so a title is shown exactly when some row matches, and it is a matching row's title.
   */
  function MatchedTitle(currentPath: string): (title: Option<string>)
    ensures title.Some? <==> exists j :: 0 <= j < |RouteMap| && Matches(RouteMap[j], currentPath)
    ensures title.Some? ==> exists j :: 0 <= j < |RouteMap| && Matches(RouteMap[j], currentPath) && title.value == RouteMap[j].title
  {
    match MatchedRoute(currentPath)
    case None => None
    case Some(r) => if r.title != "" then Some(r.title) else None
  }

  /** The rows' paths are pairwise distinct. */
  lemma PathsDistinct()
    ensures forall i, j :: 0 <= i < j < |RouteMap| ==> RouteMap[i].path != RouteMap[j].path
  {
  }

  /** An exact row is chosen for precisely its own path: the lookup is never led to it by another path. */
  lemma {:induction false} ExactRowMatchesOnlyItsPath(i: nat, currentPath: string)
    requires i < |RouteMap| && !RouteMap[i].isPrefix
    ensures MatchedRoute(currentPath) == Some(RouteMap[i]) <==> currentPath == RouteMap[i].path
  {
    PathsDistinct();
    if currentPath == RouteMap[i].path {
      forall j | 0 <= j < i ensures !Matches(RouteMap[j], currentPath) {
        assert !RouteMap[j].isPrefix;
      }
      var k := FindIndex(RouteMap, currentPath);
      assert Matches(RouteMap[i], currentPath);
      assert k.Some? && k.value <= i;
      assert k.value == i;
    }
  }

  /** The dashboard title belongs to `/` alone. */
  lemma RootIsExact(currentPath: string)
    ensures MatchedTitle(currentPath) == Some("Dashboard") <==> currentPath == "/"
  {
    ExactRowMatchesOnlyItsPath(0, currentPath);
    var found := FindIndex(RouteMap, currentPath);
    if found.Some? {
      var k := found.value;
      assert MatchedRoute(currentPath) == Some(RouteMap[k]);
      if k != 0 {
        assert RouteMap[k].title != "Dashboard";
      }
    }
  }

  /** Looking up an exact row's own path yields that row's title. */
  lemma {:induction false} ExactRowsTitleThemselves(i: nat)
    requires i < |RouteMap| && !RouteMap[i].isPrefix
    ensures MatchedTitle(RouteMap[i].path) == Some(RouteMap[i].title)
  {
    ExactRowMatchesOnlyItsPath(i, RouteMap[i].path);
  }

  /** Every path that starts with `/browse`, sub-paths included, is titled "Browse Datasets". */
  lemma BrowseIsPrefix(currentPath: string)
    requires StartsWith(currentPath, "/browse")
    ensures MatchedTitle(currentPath) == Some("Browse Datasets")
  {
    var p := currentPath[..7];
    assert p == "/browse";
    forall j | 0 <= j < 8 ensures !Matches(RouteMap[j], currentPath) {
      assert currentPath[1] == 'b';
    }
    var k := FindIndex(RouteMap, currentPath);
    assert Matches(RouteMap[8], currentPath);
    assert k.Some? && k.value == 8;
  }

  /** A path found in no row, such as `/train`, gets no title. */
  lemma UnlistedPathHasNoTitle()
    ensures MatchedTitle("/train") == None
    ensures MatchedTitle("/control/") == None
  {
    var t := "/train";
    forall j | 0 <= j < |RouteMap| ensures !Matches(RouteMap[j], t) {
      if j == 8 { assert t[1] != 'b'; }
    }
    var c := "/control/";
    forall j | 0 <= j < |RouteMap| ensures !Matches(RouteMap[j], c) {
      if j == 8 { assert c[1] != 'b'; }
    }
  }
}
