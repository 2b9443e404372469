/** The two `/houses` scopes: the listing of the Houses, then one House's
    pages and, last, the lookup by letters. */
module HousesSection {
  import opened Validators
  import opened Routing
  import opened Mapper
  import opened Blocks
  import opened Listings

  /** `scope '/houses', as: 'houses'`: `build_default_routes('houses',
      current: false, postcode: false)`. */
  function HousesListing(t: seq<Route>): (r: seq<Route>)
    ensures |r| == |t| + 2
  {
    t + DefaultRoutes(In("houses", "houses"), "houses", false, true, false)
  }

  function HouseScope(): Scope {
    InParam("houses", "house", "house_id")
  }

  /** `scope '/parties', as: 'parties'` inside a House's scope s: the index,
      `current`, and one party's page with its members listing. The party
      id is not constrained. */
  function HouseParties(s: Scope): (r: seq<Route>)
    ensures |r| == 9
  {
    var ps := Sub(s, "parties", "parties");
    var pp := Nest(ps, [Param("party_id")], Some("party"), map[]);
    [Index(ps, "houses/parties#index")]
      + [Entry(ps, GET, [Lit("current")], "houses/parties#current", None, map[])]
      + [Index(pp, "houses/parties#show")]
      + ListingPair(pp, "members", "members", "houses/parties/members")
  }

  /** `scope '/made-available'` inside a House's scope s: three nested
      index pages. */
  function HouseMadeAvailable(s: Scope): (r: seq<Route>)
    ensures |r| == 3
  {
    var ma := Sub(s, "made-available", "made_available");
    var at := Sub(ma, "availability-types", "availability_types");
    [Index(ma, "houses/made_available#index")]
      + [Index(at, "houses/made_available/availability_types#index")]
      + [Index(Sub(at, "laid-papers", "laid_papers"), "houses/made_available/availability_types/laid_papers#index")]
  }

  /** Everything inside `scope '/:house_id'` after the show route. */
  function HousePages(s: Scope): (r: seq<Route>)
    ensures |r| == 24
  {
    ListingPair(s, "committees", "committees", "houses/committees")
      + MembersRoutes(s, "houses/members", true)
      + HouseParties(s)
      + HouseMadeAvailable(s)
  }

  /** `scope '/houses', as: 'house'`: the id-constrained show, the House's
      pages, then the lookup by letters. */
  function House(t: seq<Route>): (r: seq<Route>)
    ensures |r| == |t| + 26
  {
    t + [Entry(HouseScope(), GET, [], "houses#show", None, map["house_id" := IdFormat])]
      + HousePages(HouseScope())
      + LookupableRoutes(In("houses", "house"), "houses#lookup_by_letters")
  }

  function Houses(t: seq<Route>): (r: seq<Route>)
    ensures |r| == |t| + 28
  {
    House(HousesListing(t))
  }

  // -----------------------------------------------------------------------
  // Which requests the section answers.
  // -----------------------------------------------------------------------

  /** Below <house>/parties: the index and `current` first, then any party
      segment reaches the party's page and its members listing. */
  function HousePartiesAnswer(rest: seq<string>): Option<string> {
    if rest == [] then Some("houses/parties#index")
    else if rest == ["current"] then Some("houses/parties#current")
    else if !DefaultSegment(rest[0]) then None
    else if |rest| == 1 then Some("houses/parties#show")
    else if rest[1] == "members" then PairAnswer("houses/parties/members", true, rest[2..])
    else None
  }

  function MadeAvailableAnswer(rest: seq<string>): Option<string> {
    if rest == [] then Some("houses/made_available#index")
    else if rest == ["availability-types"] then Some("houses/made_available/availability_types#index")
    else if rest == ["availability-types", "laid-papers"] then
      Some("houses/made_available/availability_types/laid_papers#index")
    else None
  }

  /** Below a House's id. */
  function HousePagesAnswer(v: Verb, rest: seq<string>): Option<string> {
    if v != GET || rest == [] then None
    else if rest[0] == "committees" then PairAnswer("houses/committees", true, rest[1..])
    else if rest[0] == "members" then PairAnswer("houses/members", true, rest[1..])
    else if rest[0] == "parties" then HousePartiesAnswer(rest[1..])
    else if rest[0] == "made-available" then MadeAvailableAnswer(rest[1..])
    else None
  }

  function HousesListingAnswer(v: Verb, rest: seq<string>): Option<string> {
    if v != GET then None
    else if rest == [] then Some(Action("houses", "index"))
    else if rest == ["lookup"] then Some(Action("houses", "lookup"))
    else None
  }

  /** Where a request below /houses goes: the index and `lookup`; an id
      reaches the show page and any other single segment the lookup by
      letters (there is no `current` here, so /houses/current is a lookup);
      deeper requests reach the House's pages whatever the id segment. */
  function HousesAnswer(v: Verb, rest: seq<string>): Option<string> {
    if v != GET then None
    else if rest == [] then Some(Action("houses", "index"))
    else if rest == ["lookup"] then Some(Action("houses", "lookup"))
    else if !DefaultSegment(rest[0]) then None
    else if |rest| == 1 then (if IsId(rest[0]) then Some("houses#show") else Some("houses#lookup_by_letters"))
    else HousePagesAnswer(v, rest[1..])
  }

  lemma HousePartiesServe(s: Scope, v: Verb, q: seq<string>)
    requires s.constraints == map[]
    ensures Handler(HouseParties(s), v, q) ==
      if v == GET && Deeper(s, q) && q[|s.path|] == "parties" then HousePartiesAnswer(q[|s.path| + 1..]) else None
  {
    var k := |s.path|;
    var ps := Sub(s, "parties", "parties");
    var pp := Nest(ps, [Param("party_id")], Some("party"), map[]);
    var a := [Index(ps, "houses/parties#index")];
    var b := [Entry(ps, GET, [Lit("current")], "houses/parties#current", None, map[])];
    var c := [Index(pp, "houses/parties#show")];
    SubWithin(s, "parties", "parties", q);
    WithinNest(ps, [Param("party_id")], Some("party"), q);
    assert pp.constraints == map[] && |pp.path| == k + 2;
    HandlerAppend(a, b, v, q);
    HandlerAppend(a + b, c, v, q);
    HandlerAppend(a + b + c, ListingPair(pp, "members", "members", "houses/parties/members"), v, q);
    IndexHandler(ps, "houses/parties#index", v, q);
    EntryHandler(ps, GET, [Lit("current")], "houses/parties#current", None, v, q);
    IndexHandler(pp, "houses/parties#show", v, q);
    ListingPairServes(pp, "members", "members", "houses/parties/members", v, q);
    if k + 2 <= |q| {
      ParamPathAccepts("party_id", q[k + 1..k + 2], map[]);
    }
    if k + 1 <= |q| {
      LitPathAccepts("current", q[k + 1..], map[]);
      var rest := q[k + 1..];
      assert |rest| >= 1 ==> rest[0] == q[k + 1];
      assert |rest| >= 2 ==> rest[1] == q[k + 2] && rest[2..] == q[k + 3..];
    }
  }

  lemma HouseMadeAvailableServe(s: Scope, v: Verb, q: seq<string>)
    ensures Handler(HouseMadeAvailable(s), v, q) ==
      if v == GET && Deeper(s, q) && q[|s.path|] == "made-available" then MadeAvailableAnswer(q[|s.path| + 1..]) else None
  {
    var k := |s.path|;
    var ma := Sub(s, "made-available", "made_available");
    var at := Sub(ma, "availability-types", "availability_types");
    var lp := Sub(at, "laid-papers", "laid_papers");
    var a := [Index(ma, "houses/made_available#index")];
    var b := [Index(at, "houses/made_available/availability_types#index")];
    SubWithin(s, "made-available", "made_available", q);
    SubWithin(ma, "availability-types", "availability_types", q);
    SubWithin(at, "laid-papers", "laid_papers", q);
    HandlerAppend(a, b, v, q);
    HandlerAppend(a + b, [Index(lp, "houses/made_available/availability_types/laid_papers#index")], v, q);
    IndexHandler(ma, "houses/made_available#index", v, q);
    IndexHandler(at, "houses/made_available/availability_types#index", v, q);
    IndexHandler(lp, "houses/made_available/availability_types/laid_papers#index", v, q);
    if k + 1 <= |q| {
      var rest := q[k + 1..];
      assert rest == ["availability-types"] <==> |q| == k + 2 && q[k + 1] == "availability-types";
      assert rest == ["availability-types", "laid-papers"] <==>
             |q| == k + 3 && q[k + 1] == "availability-types" && q[k + 2] == "laid-papers";
    }
  }

  /** A House's pages answer HousePagesAnswer for the segments after its
      id, and nothing that does not go on past the id. */
  lemma HousePagesServe(s: Scope, v: Verb, q: seq<string>)
    requires s.constraints == map[]
    ensures Handler(HousePages(s), v, q) == if Deeper(s, q) then HousePagesAnswer(v, q[|s.path|..]) else None
  {
    var k := |s.path|;
    var a := ListingPair(s, "committees", "committees", "houses/committees");
    var m := MembersRoutes(s, "houses/members", true);
    HandlerAppend(a, m, v, q);
    HandlerAppend(a + m, HouseParties(s), v, q);
    HandlerAppend(a + m + HouseParties(s), HouseMadeAvailable(s), v, q);
    ListingPairServes(s, "committees", "committees", "houses/committees", v, q);
    MembersIsListingPair(s, "houses/members");
    ListingPairServes(s, "members", "members", "houses/members", v, q);
    HousePartiesServe(s, v, q);
    HouseMadeAvailableServe(s, v, q);
    if Deeper(s, q) {
      assert q[k..][1..] == q[k + 1..];
    }
  }

  lemma HousesListingServe(t: seq<Route>, v: Verb, q: seq<string>)
    requires |q| > 0 && q[0] == "houses"
    ensures Handler(HousesListing(t), v, q) == Then(Handler(t, v, q), HousesListingAnswer(v, q[1..]))
  {
    var s := In("houses", "houses");
    WithinIn("houses", "houses", q);
    HandlerAppend(t, DefaultRoutes(s, "houses", false, true, false), v, q);
    DefaultServes(s, "houses", false, true, false, v, q);
  }

  lemma HouseServe(t: seq<Route>, v: Verb, q: seq<string>)
    requires |q| > 0 && q[0] == "houses"
    ensures Handler(House(t), v, q) == Then(Handler(t, v, q),
      if v != GET || |q| < 2 || !DefaultSegment(q[1]) then None
      else if |q| == 2 then (if IsId(q[1]) then Some("houses#show") else Some("houses#lookup_by_letters"))
      else HousePagesAnswer(v, q[2..]))
  {
    var p := HouseScope();
    WithinInParam("houses", "house", "house_id", q);
    HousePagesServe(p, v, q);
    ShowPagesLookup(t, "houses", "house", "house_id", "houses#show", HousePages(p), "houses#lookup_by_letters", v, q);
  }

  /** Under /houses the answer is HousesAnswer. */
  lemma HousesServe(t: seq<Route>, v: Verb, q: seq<string>)
    ensures Handler(Houses(t), v, q) ==
            Then(Handler(t, v, q), if |q| > 0 && q[0] == "houses" then HousesAnswer(v, q[1..]) else None)
  {
    if |q| > 0 && q[0] == "houses" {
      HousesListingServe(t, v, q);
      HouseServe(HousesListing(t), v, q);
      var rest := q[1..];
      if |q| > 2 {
        assert rest[1..] == q[2..];
      }
      assert |q| == 2 ==> rest[0] == q[1];
    } else {
      HousesElsewhere(t, v, q);
    }
  }


  /** The section answers nothing outside /houses. */
  lemma HousesElsewhere(t: seq<Route>, v: Verb, q: seq<string>)
    requires |q| == 0 || q[0] != "houses"
    ensures Handler(Houses(t), v, q) == Handler(t, v, q)
  {
    var s := In("houses", "houses");
    WithinIn("houses", "houses", q);
    HandlerAppend(t, DefaultRoutes(s, "houses", false, true, false), v, q);
    DefaultServes(s, "houses", false, true, false, v, q);
    var u := HousesListing(t);
    var p := HouseScope();
    var show := [Entry(p, GET, [], "houses#show", None, map["house_id" := IdFormat])];
    WithinInParam("houses", "house", "house_id", q);
    ShowOnto(u, "houses", "house", "house_id", map["house_id" := IdFormat], "houses#show", v, q);
    HandlerAppend(u + show, HousePages(p), v, q);
    HousePagesServe(p, v, q);
    LookupableOnto(u + show + HousePages(p), "houses", "house", "houses#lookup_by_letters", v, q);
  }

  // -----------------------------------------------------------------------
  // Drawing the routes.
  // -----------------------------------------------------------------------

  method DrawHousesListing(rs: RouteSet)
    requires rs.scope == Top
    modifies rs
    ensures rs.routes == HousesListing(old(rs.routes))
    ensures rs.scope == Top && rs.saved == old(rs.saved)
  {
    rs.BeginScope([Lit("houses")], Some("houses"));
      rs.BuildDefaultRoutes("houses", current := false, postcode := false);
    rs.EndScope();
  }

  method DrawHouseParties(rs: RouteSet)
    modifies rs
    ensures rs.routes == old(rs.routes) + HouseParties(old(rs.scope))
    ensures rs.scope == old(rs.scope) && rs.saved == old(rs.saved)
  {
    rs.BeginScope([Lit("parties")], Some("parties"));
      rs.Get([], "houses/parties#index");
      rs.Get([Lit("current")], "houses/parties#current");
      rs.BeginScope([Param("party_id")], Some("party"));
        rs.Get([], "houses/parties#show");
        DrawListingPair(rs, "members", "members", "houses/parties/members");
      rs.EndScope();
    rs.EndScope();
  }

  method DrawHouseMadeAvailable(rs: RouteSet)
    modifies rs
    ensures rs.routes == old(rs.routes) + HouseMadeAvailable(old(rs.scope))
    ensures rs.scope == old(rs.scope) && rs.saved == old(rs.saved)
  {
    rs.BeginScope([Lit("made-available")], Some("made_available"));
      rs.Get([], "houses/made_available#index");
      rs.BeginScope([Lit("availability-types")], Some("availability_types"));
        rs.Get([], "houses/made_available/availability_types#index");
        rs.BeginScope([Lit("laid-papers")], Some("laid_papers"));
          rs.Get([], "houses/made_available/availability_types/laid_papers#index");
        rs.EndScope();
      rs.EndScope();
    rs.EndScope();
  }

  method DrawHousePages(rs: RouteSet)
    modifies rs
    ensures rs.routes == old(rs.routes) + HousePages(old(rs.scope))
    ensures rs.scope == old(rs.scope) && rs.saved == old(rs.saved)
  {
    DrawListingPair(rs, "committees", "committees", "houses/committees");
    rs.BuildMembersRoutes("houses/members", current := true);
    DrawHouseParties(rs);
    DrawHouseMadeAvailable(rs);
  }

  method DrawHouse(rs: RouteSet)
    requires rs.scope == Top
    modifies rs
    ensures rs.routes == House(old(rs.routes))
    ensures rs.scope == Top && rs.saved == old(rs.saved)
  {
    rs.BeginScope([Lit("houses")], Some("house"));
      rs.BeginScope([Param("house_id")]);
        rs.Get([], "houses#show", reqs := map["house_id" := IdFormat]);
        DrawHousePages(rs);
      rs.EndScope();
      rs.Lookupable("houses#lookup_by_letters");
    rs.EndScope();
  }

  /** The `/houses` part of the route file. */
  method DrawHouses(rs: RouteSet)
    requires rs.scope == Top
    modifies rs
    ensures rs.routes == Houses(old(rs.routes))
    ensures rs.scope == Top && rs.saved == old(rs.saved)
  {
    DrawHousesListing(rs);
    DrawHouse(rs);
  }
}
