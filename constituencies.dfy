/** The two `/constituencies` scopes: the listing, with its own `current`
    listing, then one constituency's pages and, last, the lookup by letters. */
module ConstituenciesSection {
  import opened Validators
  import opened Routing
  import opened Mapper
  import opened Blocks

  /** `scope '/constituencies', as: 'constituencies'`: the default routes
      without `current`, `listable`, and `scope '/current'` holding an index
      and its own `listable`. */
  function ConstituenciesListing(t: seq<Route>): (r: seq<Route>)
    ensures |r| == |t| + 8
  {
    var s := In("constituencies", "constituencies");
    var c := Sub(s, "current", "current");
    t + DefaultRoutes(s, "constituencies", false, true, true)
      + ListableRoutes(s, "constituencies#a_to_z", "constituencies#letters")
      + ([Index(c, "constituencies#current")]
         + ListableRoutes(c, "constituencies#a_to_z_current", "constituencies#current_letters"))
  }

  function ConstituencyScope(): Scope {
    InParam("constituencies", "constituency", "constituency_id")
  }

  /** A constituency's pages inside its scope s: the contact point, the
      map and the members routes. */
  function ConstituencyPages(s: Scope): (r: seq<Route>)
    ensures |r| == 4
  {
    [Entry(s, GET, [Lit("contact-point")], "constituencies/contact_points#index", None, map[])]
      + [Entry(s, GET, [Lit("map")], "constituencies#map", None, map[])]
      + RootAndCurrentRoutes(s, "constituencies/members", "members")
  }

  /** `scope '/constituencies', as: 'constituency'`: the id-constrained
      show, the constituency's pages, then the lookup by letters. */
  function Constituency(t: seq<Route>): (r: seq<Route>)
    ensures |r| == |t| + 6
  {
    var p := ConstituencyScope();
    t + [Entry(p, GET, [], "constituencies#show", None, map["constituency_id" := IdFormat])]
      + ConstituencyPages(p)
      + LookupableRoutes(In("constituencies", "constituency"), "constituencies#lookup_by_letters")
  }

  function Constituencies(t: seq<Route>): (r: seq<Route>)
    ensures |r| == |t| + 14
  {
    Constituency(ConstituenciesListing(t))
  }

  /** What the listing scope answers below /constituencies. */
  function ListingAnswer(v: Verb, rest: seq<string>): Option<string> {
    if v == POST then
      (if rest == ["postcode_lookup"] then Some(Action("constituencies", "postcode_lookup")) else None)
    else if |rest| == 0 then Some(Action("constituencies", "index"))
    else if rest == ["lookup"] then Some(Action("constituencies", "lookup"))
    else if rest[0] == "a-z" then
      (if |rest| == 1 then Some("constituencies#a_to_z")
       else if |rest| == 2 && DefaultSegment(rest[1]) then Some("constituencies#letters")
       else None)
    else if rest[0] == "current" then
      (if |rest| == 1 then Some("constituencies#current")
       else if rest[1] != "a-z" then None
       else if |rest| == 2 then Some("constituencies#a_to_z_current")
       else if |rest| == 3 && DefaultSegment(rest[2]) then Some("constituencies#current_letters")
       else None)
    else None
  }

  /** What the constituency scope answers below /constituencies: every
      route in it accepts any segment in the id position except the show
      route, which wants an id. */
  function ConstituencyAnswer(v: Verb, rest: seq<string>): Option<string> {
    if v != GET || |rest| == 0 || !DefaultSegment(rest[0]) then None
    else if |rest| == 1 then (if IsId(rest[0]) then Some("constituencies#show") else Some("constituencies#lookup_by_letters"))
    else if rest[1..] == ["contact-point"] then Some("constituencies/contact_points#index")
    else if rest[1..] == ["map"] then Some("constituencies#map")
    else if rest[1..] == ["members"] then Some(Action("constituencies/members", "index"))
    else if rest[1..] == ["members", "current"] then Some(Action("constituencies/members", "current"))
    else None
  }

  /** Where a request below /constituencies goes, stated by the number of
      segments after the root. The listing's fixed segments are reached
      first; a single id reaches the show page and any other segment the
      lookup by letters; a constituency's own pages accept any segment in
      the id position, since only the show route checks the id. */
  function ConstituenciesAnswer(v: Verb, rest: seq<string>): Option<string> {
    if v == POST then
      (if rest == ["postcode_lookup"] then Some(Action("constituencies", "postcode_lookup")) else None)
    else if |rest| == 0 then Some(Action("constituencies", "index"))
    else if |rest| == 1 then
      if rest[0] == "lookup" then Some(Action("constituencies", "lookup"))
      else if rest[0] == "a-z" then Some("constituencies#a_to_z")
      else if rest[0] == "current" then Some("constituencies#current")
      else if IsId(rest[0]) then Some("constituencies#show")
      else if DefaultSegment(rest[0]) then Some("constituencies#lookup_by_letters")
      else None
    else if !DefaultSegment(rest[0]) then None
    else if |rest| == 2 then
      if rest[0] == "a-z" && DefaultSegment(rest[1]) then Some("constituencies#letters")
      else if rest[0] == "current" && rest[1] == "a-z" then Some("constituencies#a_to_z_current")
      else if rest[1] == "contact-point" then Some("constituencies/contact_points#index")
      else if rest[1] == "map" then Some("constituencies#map")
      else if rest[1] == "members" then Some(Action("constituencies/members", "index"))
      else None
    else if |rest| == 3 then
      if rest[0] == "current" && rest[1] == "a-z" && DefaultSegment(rest[2]) then Some("constituencies#current_letters")
      else if rest[1] == "members" && rest[2] == "current" then Some(Action("constituencies/members", "current"))
      else None
    else None
  }

  /** The two scopes together give ConstituenciesAnswer. */
  lemma AnswersCombine(v: Verb, rest: seq<string>)
    ensures Then(ListingAnswer(v, rest), ConstituencyAnswer(v, rest)) == ConstituenciesAnswer(v, rest)
  {
    if |rest| >= 2 {
      assert rest[1..] == [rest[1]] <==> |rest| == 2;
      assert |rest| == 3 ==> rest[1..] == [rest[1], rest[2]];
      if rest[0] == "a-z" || rest[0] == "current" {
        assert DefaultSegment(rest[0]);
      }
    }
  }

  lemma ListingServes(t: seq<Route>, v: Verb, q: seq<string>)
    requires |q| > 0 && q[0] == "constituencies"
    ensures Handler(ConstituenciesListing(t), v, q) == Then(Handler(t, v, q), ListingAnswer(v, q[1..]))
  {
    var s := In("constituencies", "constituencies");
    var c := Sub(s, "current", "current");
    var d := DefaultRoutes(s, "constituencies", false, true, true);
    var l := ListableRoutes(s, "constituencies#a_to_z", "constituencies#letters");
    var cur := [Index(c, "constituencies#current")]
      + ListableRoutes(c, "constituencies#a_to_z_current", "constituencies#current_letters");
    WithinIn("constituencies", "constituencies", q);
    SubWithin(s, "current", "current", q);
    HandlerAppend(t, d, v, q);
    HandlerAppend(t + d, l, v, q);
    HandlerAppend(t + d + l, cur, v, q);
    DefaultServes(s, "constituencies", false, true, true, v, q);
    ListableServes(s, "constituencies#a_to_z", "constituencies#letters", v, q);
    IndexListableServes(c, "constituencies#current", "constituencies#a_to_z_current", "constituencies#current_letters", v, q);
  }

  /** A constituency's pages answer GET requests that go on past its scope
      with `contact-point`, `map`, `members` or `members/current`. */
  lemma ConstituencyPagesServe(s: Scope, v: Verb, q: seq<string>)
    ensures Handler(ConstituencyPages(s), v, q) ==
      if v != GET || !Deeper(s, q) then None
      else if q[|s.path|..] == ["contact-point"] then Some("constituencies/contact_points#index")
      else if q[|s.path|..] == ["map"] then Some("constituencies#map")
      else if q[|s.path|..] == ["members"] then Some(Action("constituencies/members", "index"))
      else if q[|s.path|..] == ["members", "current"] then Some(Action("constituencies/members", "current"))
      else None
  {
    var cp := [Entry(s, GET, [Lit("contact-point")], "constituencies/contact_points#index", None, map[])];
    var mp := [Entry(s, GET, [Lit("map")], "constituencies#map", None, map[])];
    HandlerAppend(cp, mp, v, q);
    HandlerAppend(cp + mp, RootAndCurrentRoutes(s, "constituencies/members", "members"), v, q);
    EntryHandler(s, GET, [Lit("contact-point")], "constituencies/contact_points#index", None, v, q);
    EntryHandler(s, GET, [Lit("map")], "constituencies#map", None, v, q);
    RootAndCurrentServes(s, "constituencies/members", "members", v, q);
    if |s.path| <= |q| {
      LitPathAccepts("contact-point", q[|s.path|..], s.constraints);
      LitPathAccepts("map", q[|s.path|..], s.constraints);
    }
  }

  lemma ConstituencyServes(t: seq<Route>, v: Verb, q: seq<string>)
    requires |q| > 0 && q[0] == "constituencies"
    ensures Handler(Constituency(t), v, q) == Then(Handler(t, v, q), ConstituencyAnswer(v, q[1..]))
  {
    var p := ConstituencyScope();
    var show := [Entry(p, GET, [], "constituencies#show", None, map["constituency_id" := IdFormat])];
    WithinInParam("constituencies", "constituency", "constituency_id", q);
    ShowOnto(t, "constituencies", "constituency", "constituency_id", map["constituency_id" := IdFormat],
             "constituencies#show", v, q);
    IdAccepts("constituency_id", if |q| == 2 then q[1] else "");
    HandlerAppend(t + show, ConstituencyPages(p), v, q);
    ConstituencyPagesServe(p, v, q);
    LookupableOnto(t + show + ConstituencyPages(p), "constituencies", "constituency", "constituencies#lookup_by_letters", v, q);
    if |q| >= 2 {
      assert q[1..][1..] == q[2..];
    }
  }

  /** Under /constituencies the answer is ConstituenciesAnswer: in
      particular `lookup`, `a-z` and `current` are reached before the show
      page and the lookup by letters. */
  lemma ConstituenciesServe(t: seq<Route>, v: Verb, q: seq<string>)
    ensures Handler(Constituencies(t), v, q) ==
            Then(Handler(t, v, q), if |q| > 0 && q[0] == "constituencies" then ConstituenciesAnswer(v, q[1..]) else None)
  {
    if |q| > 0 && q[0] == "constituencies" {
      ListingServes(t, v, q);
      ConstituencyServes(ConstituenciesListing(t), v, q);
      AnswersCombine(v, q[1..]);
    } else {
      ConstituenciesElsewhere(t, v, q);
    }
  }


  /** The section answers nothing outside /constituencies. */
  lemma ConstituenciesElsewhere(t: seq<Route>, v: Verb, q: seq<string>)
    requires |q| == 0 || q[0] != "constituencies"
    ensures Handler(Constituencies(t), v, q) == Handler(t, v, q)
  {
    var s := In("constituencies", "constituencies");
    var c := Sub(s, "current", "current");
    var d := DefaultRoutes(s, "constituencies", false, true, true);
    var l := ListableRoutes(s, "constituencies#a_to_z", "constituencies#letters");
    var cur := [Index(c, "constituencies#current")]
      + ListableRoutes(c, "constituencies#a_to_z_current", "constituencies#current_letters");
    WithinIn("constituencies", "constituencies", q);
    SubWithin(s, "current", "current", q);
    HandlerAppend(t, d, v, q);
    HandlerAppend(t + d, l, v, q);
    HandlerAppend(t + d + l, cur, v, q);
    DefaultServes(s, "constituencies", false, true, true, v, q);
    ListableServes(s, "constituencies#a_to_z", "constituencies#letters", v, q);
    IndexListableServes(c, "constituencies#current", "constituencies#a_to_z_current", "constituencies#current_letters", v, q);
    var u := ConstituenciesListing(t);
    var p := ConstituencyScope();
    var show := [Entry(p, GET, [], "constituencies#show", None, map["constituency_id" := IdFormat])];
    WithinInParam("constituencies", "constituency", "constituency_id", q);
    ShowOnto(u, "constituencies", "constituency", "constituency_id", map["constituency_id" := IdFormat],
             "constituencies#show", v, q);
    HandlerAppend(u + show, ConstituencyPages(p), v, q);
    ConstituencyPagesServe(p, v, q);
    LookupableOnto(u + show + ConstituencyPages(p), "constituencies", "constituency", "constituencies#lookup_by_letters", v, q);
  }

  // -----------------------------------------------------------------------
  // Drawing the routes.
  // -----------------------------------------------------------------------

  method DrawConstituenciesListing(rs: RouteSet)
    requires rs.scope == Top
    modifies rs
    ensures rs.routes == ConstituenciesListing(old(rs.routes))
    ensures rs.scope == Top && rs.saved == old(rs.saved)
  {
    rs.BeginScope([Lit("constituencies")], Some("constituencies"));
      rs.BuildDefaultRoutes("constituencies", current := false);
      rs.Listable("constituencies#a_to_z", "constituencies#letters");
      rs.BeginScope([Lit("current")], Some("current"));
        rs.Get([], "constituencies#current");
        rs.Listable("constituencies#a_to_z_current", "constituencies#current_letters");
      rs.EndScope();
    rs.EndScope();
  }

  method DrawConstituencyPages(rs: RouteSet)
    modifies rs
    ensures rs.routes == old(rs.routes) + ConstituencyPages(old(rs.scope))
    ensures rs.scope == old(rs.scope) && rs.saved == old(rs.saved)
  {
    rs.Get([Lit("contact-point")], "constituencies/contact_points#index");
    rs.Get([Lit("map")], "constituencies#map");
    rs.BuildRootAndCurrentRoutes("constituencies/members", "members");
  }

  method DrawConstituency(rs: RouteSet)
    requires rs.scope == Top
    modifies rs
    ensures rs.routes == Constituency(old(rs.routes))
    ensures rs.scope == Top && rs.saved == old(rs.saved)
  {
    rs.BeginScope([Lit("constituencies")], Some("constituency"));
      rs.BeginScope([Param("constituency_id")]);
        rs.Get([], "constituencies#show", reqs := map["constituency_id" := IdFormat]);
        DrawConstituencyPages(rs);
      rs.EndScope();
      rs.Lookupable("constituencies#lookup_by_letters");
    rs.EndScope();
  }

  /** The `/constituencies` part of the route file. */
  method DrawConstituencies(rs: RouteSet)
    requires rs.scope == Top
    modifies rs
    ensures rs.routes == Constituencies(old(rs.routes))
    ensures rs.scope == Top && rs.saved == old(rs.saved)
  {
    DrawConstituenciesListing(rs);
    DrawConstituency(rs);
  }
}
