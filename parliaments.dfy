/** The two `/parliaments` scopes: the listing of Parliaments, then one
    Parliament's pages. Unlike the other sections there is no lookup by
    letters, and the members routes have no `current` listing. */
module ParliamentsSection {
  import opened Validators
  import opened Routing
  import opened Mapper
  import opened Blocks
  import opened Listings

  /** `scope '/parliaments', as: 'parliaments'`: `build_default_routes(
      'parliaments', postcode: false)`, then `previous` and `next`. */
  function ParliamentsListing(t: seq<Route>): (r: seq<Route>)
    ensures |r| == |t| + 5
  {
    var s := In("parliaments", "parliaments");
    t + DefaultRoutes(s, "parliaments", true, true, false)
      + [Entry(s, GET, [Lit("previous")], "parliaments#previous", None, map[])]
      + [Entry(s, GET, [Lit("next")], "parliaments#next", None, map[])]
  }

  /** The pair `scope '/parties', as: 'parties'` (the index) and `scope
      '/parties', as: 'party'` (one party's id-constrained page and its
      members listing) inside s, with the handlers of `controller`. */
  function PartiesBlock(s: Scope, controller: string): (r: seq<Route>)
    ensures |r| == 5
  {
    var pp := SubParam(Sub(s, "parties", "party"), "party_id", None);
    [Index(Sub(s, "parties", "parties"), Action(controller, "index"))]
      + [Entry(pp, GET, [], Action(controller, "show"), None, map["party_id" := IdFormat])]
      + ListingOne(pp, "members", "members", controller + "/members")
  }

  /** What `scope ':house_id'` holds after the House's show route, in the
      House's scope h: the members listing and the parties pair. */
  function HouseIdPages(h: Scope): (r: seq<Route>)
    ensures |r| == 8
  {
    ListingOne(h, "members", "members", "parliaments/houses/members")
      + PartiesBlock(h, "parliaments/houses/parties")
  }

  /** The `houses` and `house` scopes inside a Parliament's scope s. */
  function ParliamentHouses(s: Scope): (r: seq<Route>)
    ensures |r| == 10
  {
    var h := SubParam(Sub(s, "houses", "house"), "house_id", None);
    [Index(Sub(s, "houses", "houses"), "parliaments/houses#index")]
      + [Entry(h, GET, [], "parliaments/houses#show", None, map["house_id" := IdFormat])]
      + HouseIdPages(h)
  }

  /** Everything inside `scope '/:parliament_id'` after the show route. */
  function ParliamentPages(s: Scope): (r: seq<Route>)
    ensures |r| == 23
  {
    [Entry(s, GET, [Lit("next")], "parliaments#next_parliament", None, map[])]
      + [Entry(s, GET, [Lit("previous")], "parliaments#previous_parliament", None, map[])]
      + MembersRoutes(s, "parliaments/members", false)
      + ParliamentHouses(s)
      + PartiesBlock(s, "parliaments/parties")
      + ListingOne(s, "constituencies", "constituencies", "parliaments/constituencies")
  }

  function ParliamentScope(): Scope {
    InParam("parliaments", "parliament", "parliament_id")
  }

  /** `scope '/parliaments', as: 'parliament'`: the id-constrained show and
      the Parliament's pages. */
  function Parliament(t: seq<Route>): (r: seq<Route>)
    ensures |r| == |t| + 24
  {
    t + [Entry(ParliamentScope(), GET, [], "parliaments#show", None, map["parliament_id" := IdFormat])]
      + ParliamentPages(ParliamentScope())
  }

  function Parliaments(t: seq<Route>): (r: seq<Route>)
    ensures |r| == |t| + 29
  {
    Parliament(ParliamentsListing(t))
  }

  // -----------------------------------------------------------------------
  // Which requests the section answers.
  // -----------------------------------------------------------------------

  /** Below `parties`: the index; a party's page for an id only; the
      members listing for any party segment. */
  function PartiesBlockAnswer(controller: string, rest: seq<string>): Option<string> {
    if rest == [] then Some(Action(controller, "index"))
    else if !DefaultSegment(rest[0]) then None
    else if |rest| == 1 then (if IsId(rest[0]) then Some(Action(controller, "show")) else None)
    else if rest[1] == "members" then PairAnswer(controller + "/members", false, rest[2..])
    else None
  }

  /** Below a House's id inside a Parliament. */
  function HouseIdAnswer(rest: seq<string>): Option<string> {
    if rest == [] then None
    else if rest[0] == "members" then PairAnswer("parliaments/houses/members", false, rest[1..])
    else if rest[0] == "parties" then PartiesBlockAnswer("parliaments/houses/parties", rest[1..])
    else None
  }

  /** Below a Parliament's `houses`: the index; a House's page for an id
      only; the House's own pages for any House segment. */
  function ParliamentHousesAnswer(rest: seq<string>): Option<string> {
    if rest == [] then Some("parliaments/houses#index")
    else if !DefaultSegment(rest[0]) then None
    else if |rest| == 1 then (if IsId(rest[0]) then Some("parliaments/houses#show") else None)
    else HouseIdAnswer(rest[1..])
  }

  /** Below a Parliament's id. */
  function ParliamentPagesAnswer(v: Verb, rest: seq<string>): Option<string> {
    if v != GET || rest == [] then None
    else if rest == ["next"] then Some("parliaments#next_parliament")
    else if rest == ["previous"] then Some("parliaments#previous_parliament")
    else if rest[0] == "members" then PairAnswer("parliaments/members", false, rest[1..])
    else if rest[0] == "houses" then ParliamentHousesAnswer(rest[1..])
    else if rest[0] == "parties" then PartiesBlockAnswer("parliaments/parties", rest[1..])
    else if rest[0] == "constituencies" then PairAnswer("parliaments/constituencies", false, rest[1..])
    else None
  }

  function ListingAnswer(v: Verb, rest: seq<string>): Option<string> {
    if v != GET then None
    else if rest == [] then Some(Action("parliaments", "index"))
    else if rest == ["current"] then Some(Action("parliaments", "current"))
    else if rest == ["lookup"] then Some(Action("parliaments", "lookup"))
    else if rest == ["previous"] then Some("parliaments#previous")
    else if rest == ["next"] then Some("parliaments#next")
    else None
  }

  /** Where a request below /parliaments goes: the listing's fixed segments
      first; a single id reaches the show page and any other single segment
      nothing; deeper requests reach the Parliament's pages whatever the id
      segment. */
  function ParliamentsAnswer(v: Verb, rest: seq<string>): Option<string> {
    if v != GET then None
    else if rest == [] then Some(Action("parliaments", "index"))
    else if rest == ["current"] then Some(Action("parliaments", "current"))
    else if rest == ["lookup"] then Some(Action("parliaments", "lookup"))
    else if rest == ["previous"] then Some("parliaments#previous")
    else if rest == ["next"] then Some("parliaments#next")
    else if !DefaultSegment(rest[0]) then None
    else if |rest| == 1 then (if IsId(rest[0]) then Some("parliaments#show") else None)
    else ParliamentPagesAnswer(v, rest[1..])
  }

  lemma PartiesBlockServe(s: Scope, controller: string, v: Verb, q: seq<string>)
    requires s.constraints == map[] && Param("party_id") !in s.path
    ensures Handler(PartiesBlock(s, controller), v, q) ==
      if v == GET && Deeper(s, q) && q[|s.path|] == "parties" then PartiesBlockAnswer(controller, q[|s.path| + 1..])
      else None
  {
    var k := |s.path|;
    var ps := Sub(s, "parties", "party");
    var pp := SubParam(ps, "party_id", None);
    SubWithin(s, "parties", "party", q);
    SubParamWithin(ps, "party_id", None, q);
    ListingOneServes(pp, "members", "members", controller + "/members", v, q);
    IndexShowChildren(s, "parties", "parties", "party", "party_id", Action(controller, "index"), Action(controller, "show"),
                      ListingOne(pp, "members", "members", controller + "/members"), v, q);
    if k + 1 <= |q| {
      var rest := q[k + 1..];
      assert |rest| >= 2 ==> rest[2..] == q[k + 3..];
    }
  }

  lemma HouseIdPagesServe(h: Scope, v: Verb, q: seq<string>)
    requires h.constraints == map[] && Param("party_id") !in h.path
    ensures Handler(HouseIdPages(h), v, q) == if v == GET && Deeper(h, q) then HouseIdAnswer(q[|h.path|..]) else None
  {
    var k := |h.path|;
    HandlerAppend(ListingOne(h, "members", "members", "parliaments/houses/members"), PartiesBlock(h, "parliaments/houses/parties"), v, q);
    ListingOneServes(h, "members", "members", "parliaments/houses/members", v, q);
    PartiesBlockServe(h, "parliaments/houses/parties", v, q);
    if Deeper(h, q) {
      assert q[k..][1..] == q[k + 1..];
    }
  }

  lemma ParliamentHousesServe(s: Scope, v: Verb, q: seq<string>)
    requires s.constraints == map[] && Param("house_id") !in s.path && Param("party_id") !in s.path
    ensures Handler(ParliamentHouses(s), v, q) ==
      if v == GET && Deeper(s, q) && q[|s.path|] == "houses" then ParliamentHousesAnswer(q[|s.path| + 1..])
      else None
  {
    var k := |s.path|;
    var hs := Sub(s, "houses", "house");
    var h := SubParam(hs, "house_id", None);
    SubWithin(s, "houses", "house", q);
    SubParamWithin(hs, "house_id", None, q);
    assert h.path == s.path + [Lit("houses"), Param("house_id")];
    HouseIdPagesServe(h, v, q);
    IndexShowChildren(s, "houses", "houses", "house", "house_id", "parliaments/houses#index", "parliaments/houses#show",
                      HouseIdPages(h), v, q);
    if k + 1 <= |q| {
      var rest := q[k + 1..];
      assert |rest| >= 1 ==> rest[1..] == q[k + 2..];
    }
  }

  /** A Parliament's pages answer ParliamentPagesAnswer for the segments
      after its id, and nothing that does not go on past the id. */
  lemma ParliamentPagesServe(s: Scope, v: Verb, q: seq<string>)
    requires s.constraints == map[] && Param("house_id") !in s.path && Param("party_id") !in s.path
    ensures Handler(ParliamentPages(s), v, q) == if Deeper(s, q) then ParliamentPagesAnswer(v, q[|s.path|..]) else None
  {
    var k := |s.path|;
    var a := [Entry(s, GET, [Lit("next")], "parliaments#next_parliament", None, map[])];
    var b := [Entry(s, GET, [Lit("previous")], "parliaments#previous_parliament", None, map[])];
    var m := MembersRoutes(s, "parliaments/members", false);
    var h := ParliamentHouses(s);
    var p := PartiesBlock(s, "parliaments/parties");
    HandlerAppend(a, b, v, q);
    HandlerAppend(a + b, m, v, q);
    HandlerAppend(a + b + m, h, v, q);
    HandlerAppend(a + b + m + h, p, v, q);
    HandlerAppend(a + b + m + h + p, ListingOne(s, "constituencies", "constituencies", "parliaments/constituencies"), v, q);
    EntryHandler(s, GET, [Lit("next")], "parliaments#next_parliament", None, v, q);
    EntryHandler(s, GET, [Lit("previous")], "parliaments#previous_parliament", None, v, q);
    MembersIsListingOne(s, "parliaments/members");
    ListingOneServes(s, "members", "members", "parliaments/members", v, q);
    ParliamentHousesServe(s, v, q);
    PartiesBlockServe(s, "parliaments/parties", v, q);
    ListingOneServes(s, "constituencies", "constituencies", "parliaments/constituencies", v, q);
    if k <= |q| {
      LitPathAccepts("next", q[k..], map[]);
      LitPathAccepts("previous", q[k..], map[]);
    }
    if Deeper(s, q) {
      assert q[k..][1..] == q[k + 1..];
    }
  }

  lemma ListingServe(t: seq<Route>, v: Verb, q: seq<string>)
    requires |q| > 0 && q[0] == "parliaments"
    ensures Handler(ParliamentsListing(t), v, q) == Then(Handler(t, v, q), ListingAnswer(v, q[1..]))
  {
    var s := In("parliaments", "parliaments");
    var d := DefaultRoutes(s, "parliaments", true, true, false);
    var pr := [Entry(s, GET, [Lit("previous")], "parliaments#previous", None, map[])];
    WithinIn("parliaments", "parliaments", q);
    HandlerAppend(t, d, v, q);
    HandlerAppend(t + d, pr, v, q);
    HandlerAppend(t + d + pr, [Entry(s, GET, [Lit("next")], "parliaments#next", None, map[])], v, q);
    DefaultServes(s, "parliaments", true, true, false, v, q);
    EntryHandler(s, GET, [Lit("previous")], "parliaments#previous", None, v, q);
    EntryHandler(s, GET, [Lit("next")], "parliaments#next", None, v, q);
    LitPathAccepts("previous", q[1..], map[]);
    LitPathAccepts("next", q[1..], map[]);
  }

  lemma ParliamentServe(t: seq<Route>, v: Verb, q: seq<string>)
    requires |q| > 0 && q[0] == "parliaments"
    ensures Handler(Parliament(t), v, q) == Then(Handler(t, v, q),
      if v == GET && |q| == 2 && IsId(q[1]) then Some("parliaments#show")
      else if |q| > 2 && DefaultSegment(q[1]) then ParliamentPagesAnswer(v, q[2..])
      else None)
  {
    var p := ParliamentScope();
    WithinInParam("parliaments", "parliament", "parliament_id", q);
    assert p.path == [Lit("parliaments"), Param("parliament_id")];
    ParliamentPagesServe(p, v, q);
    ShowPages(t, "parliaments", "parliament", "parliament_id", "parliaments#show", ParliamentPages(p), v, q);
  }

  /** Under /parliaments the answer is ParliamentsAnswer. */
  lemma ParliamentsServe(t: seq<Route>, v: Verb, q: seq<string>)
    ensures Handler(Parliaments(t), v, q) ==
            Then(Handler(t, v, q), if |q| > 0 && q[0] == "parliaments" then ParliamentsAnswer(v, q[1..]) else None)
  {
    if |q| > 0 && q[0] == "parliaments" {
      ListingServe(t, v, q);
      ParliamentServe(ParliamentsListing(t), v, q);
      var rest := q[1..];
      if |q| > 2 {
        assert rest[1..] == q[2..];
      }
      assert |q| == 2 ==> rest[0] == q[1];
    } else {
      ParliamentsElsewhere(t, v, q);
    }
  }


  /** `build_members_routes('parliaments/members', current: false)`: a
      Parliament's members have no `current` listing, so the request is
      left to whatever was registered before the section. */
  lemma ParliamentMembersHaveNoCurrent(t: seq<Route>, id: string)
    ensures Handler(Parliaments(t), GET, ["parliaments", id, "members", "current"]) ==
            Handler(t, GET, ["parliaments", id, "members", "current"])
  {
    var q := ["parliaments", id, "members", "current"];
    ParliamentsServe(t, GET, q);
    assert q[1..][1..] == ["members", "current"];
    assert ["members", "current"][1..] == ["current"];
  }

  /** The section answers nothing outside /parliaments. */
  lemma ParliamentsElsewhere(t: seq<Route>, v: Verb, q: seq<string>)
    requires |q| == 0 || q[0] != "parliaments"
    ensures Handler(Parliaments(t), v, q) == Handler(t, v, q)
  {
    var s := In("parliaments", "parliaments");
    var d := DefaultRoutes(s, "parliaments", true, true, false);
    var pr := [Entry(s, GET, [Lit("previous")], "parliaments#previous", None, map[])];
    WithinIn("parliaments", "parliaments", q);
    HandlerAppend(t, d, v, q);
    DefaultServes(s, "parliaments", true, true, false, v, q);
    EntryPass(t + d, s, GET, [Lit("previous")], "parliaments#previous", None, v, q);
    EntryPass(t + d + pr, s, GET, [Lit("next")], "parliaments#next", None, v, q);
    var u := ParliamentsListing(t);
    var p := ParliamentScope();
    var show := [Entry(p, GET, [], "parliaments#show", None, map["parliament_id" := IdFormat])];
    WithinInParam("parliaments", "parliament", "parliament_id", q);
    assert p.path == [Lit("parliaments"), Param("parliament_id")];
    ShowOnto(u, "parliaments", "parliament", "parliament_id", map["parliament_id" := IdFormat], "parliaments#show", v, q);
    HandlerAppend(u + show, ParliamentPages(p), v, q);
    ParliamentPagesServe(p, v, q);
  }

  // -----------------------------------------------------------------------
  // Drawing the routes.
  // -----------------------------------------------------------------------

  method DrawParliamentsListing(rs: RouteSet)
    requires rs.scope == Top
    modifies rs
    ensures rs.routes == ParliamentsListing(old(rs.routes))
    ensures rs.scope == Top && rs.saved == old(rs.saved)
  {
    rs.BeginScope([Lit("parliaments")], Some("parliaments"));
      rs.BuildDefaultRoutes("parliaments", postcode := false);
      rs.Get([Lit("previous")], "parliaments#previous");
      rs.Get([Lit("next")], "parliaments#next");
    rs.EndScope();
  }

  method DrawPartiesBlock(rs: RouteSet, controller: string)
    modifies rs
    ensures rs.routes == old(rs.routes) + PartiesBlock(old(rs.scope), controller)
    ensures rs.scope == old(rs.scope) && rs.saved == old(rs.saved)
  {
    rs.BeginScope([Lit("parties")], Some("parties"));
      rs.Get([], Action(controller, "index"));
    rs.EndScope();
    rs.BeginScope([Lit("parties")], Some("party"));
      rs.BeginScope([Param("party_id")]);
        rs.Get([], Action(controller, "show"), reqs := map["party_id" := IdFormat]);
        DrawListingOne(rs, "members", "members", controller + "/members");
      rs.EndScope();
    rs.EndScope();
  }

  method DrawHouseIdPages(rs: RouteSet)
    modifies rs
    ensures rs.routes == old(rs.routes) + HouseIdPages(old(rs.scope))
    ensures rs.scope == old(rs.scope) && rs.saved == old(rs.saved)
  {
    DrawListingOne(rs, "members", "members", "parliaments/houses/members");
    DrawPartiesBlock(rs, "parliaments/houses/parties");
  }

  method DrawParliamentHouses(rs: RouteSet)
    modifies rs
    ensures rs.routes == old(rs.routes) + ParliamentHouses(old(rs.scope))
    ensures rs.scope == old(rs.scope) && rs.saved == old(rs.saved)
  {
    rs.BeginScope([Lit("houses")], Some("houses"));
      rs.Get([], "parliaments/houses#index");
    rs.EndScope();
    rs.BeginScope([Lit("houses")], Some("house"));
      rs.BeginScope([Param("house_id")]);
        rs.Get([], "parliaments/houses#show", reqs := map["house_id" := IdFormat]);
        DrawHouseIdPages(rs);
      rs.EndScope();
    rs.EndScope();
  }

  method DrawParliamentPages(rs: RouteSet)
    modifies rs
    ensures rs.routes == old(rs.routes) + ParliamentPages(old(rs.scope))
    ensures rs.scope == old(rs.scope) && rs.saved == old(rs.saved)
  {
    rs.Get([Lit("next")], "parliaments#next_parliament");
    rs.Get([Lit("previous")], "parliaments#previous_parliament");
    rs.BuildMembersRoutes("parliaments/members", current := false);
    DrawParliamentHouses(rs);
    DrawPartiesBlock(rs, "parliaments/parties");
    DrawListingOne(rs, "constituencies", "constituencies", "parliaments/constituencies");
  }

  method DrawParliament(rs: RouteSet)
    requires rs.scope == Top
    modifies rs
    ensures rs.routes == Parliament(old(rs.routes))
    ensures rs.scope == Top && rs.saved == old(rs.saved)
  {
    rs.BeginScope([Lit("parliaments")], Some("parliament"));
      rs.BeginScope([Param("parliament_id")]);
        rs.Get([], "parliaments#show", reqs := map["parliament_id" := IdFormat]);
        DrawParliamentPages(rs);
      rs.EndScope();
    rs.EndScope();
  }

  /** The `/parliaments` part of the route file. */
  method DrawParliaments(rs: RouteSet)
    requires rs.scope == Top
    modifies rs
    ensures rs.routes == Parliaments(old(rs.routes))
    ensures rs.scope == Top && rs.saved == old(rs.saved)
  {
    DrawParliamentsListing(rs);
    DrawParliament(rs);
  }
}
