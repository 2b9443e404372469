/** The two `/parties` scopes: the listing of parties, then one party's
    show page and members, with the lookup by letters last. */
module PartiesSection {
  import opened Validators
  import opened Routing
  import opened Mapper
  import opened Blocks
  import opened Listings

  /** `scope '/parties', as: 'parties'`: `build_default_routes('parties',
      postcode: false)` and `listable`. */
  function PartiesListing(t: seq<Route>): (r: seq<Route>)
    ensures |r| == |t| + 5
  {
    var s := In("parties", "parties");
    t + DefaultRoutes(s, "parties", true, true, false) + ListableRoutes(s, Action("parties", "a_to_z"), Action("parties", "letters"))
  }

  function PartyScope(): Scope {
    InParam("parties", "party", "party_id")
  }

  /** `scope '/parties', as: 'party'`: the id-constrained show, the members
      routes, then the lookup by letters. */
  function Party(t: seq<Route>): (r: seq<Route>)
    ensures |r| == |t| + 8
  {
    t + [Entry(PartyScope(), GET, [], "parties#show", None, map["party_id" := IdFormat])]
      + MembersRoutes(PartyScope(), "parties/members", true)
      + LookupableRoutes(In("parties", "party"), "parties#lookup_by_letters")
  }

  function Parties(t: seq<Route>): (r: seq<Route>)
    ensures |r| == |t| + 13
  {
    Party(PartiesListing(t))
  }

  /** The listing is exactly five GET routes, in this order, and no POST:
      the index, current, lookup, the A to Z page and the letter page. */
  lemma PartiesListingExact(t: seq<Route>)
    ensures PartiesListing(t)[|t|..] == [
      Route(GET, [Lit("parties")], Action("parties", "index"), ["parties"], None, map[]),
      Route(GET, [Lit("parties"), Lit("current")], Action("parties", "current"), ["parties"], None, map[]),
      Route(GET, [Lit("parties"), Lit("lookup")], Action("parties", "lookup"), ["parties"], None, map[]),
      Route(GET, [Lit("parties"), Lit("a-z")], Action("parties", "a_to_z"), ["parties", "a_z"], None, map[]),
      Route(GET, [Lit("parties"), Lit("a-z"), Param("letter")], Action("parties", "letters"), ["parties", "a_z", "letter"], None, map[])]
  {
    var s := In("parties", "parties");
    var e: Constraints := map[];
    assert s.constraints + e == e;
    assert s.constraints + e + e == e;
    var r := PartiesListing(t)[|t|..];
    assert r == DefaultRoutes(s, "parties", true, true, false) + ListableRoutes(s, Action("parties", "a_to_z"), Action("parties", "letters"));
    assert r[0] == Route(GET, [Lit("parties")], Action("parties", "index"), ["parties"], None, map[]);
    assert r[1] == Route(GET, [Lit("parties"), Lit("current")], Action("parties", "current"), ["parties"], None, map[]);
    assert r[2] == Route(GET, [Lit("parties"), Lit("lookup")], Action("parties", "lookup"), ["parties"], None, map[]);
    assert r[3] == Route(GET, [Lit("parties"), Lit("a-z")], Action("parties", "a_to_z"), ["parties", "a_z"], None, map[]);
    assert r[4] == Route(GET, [Lit("parties"), Lit("a-z"), Param("letter")], Action("parties", "letters"), ["parties", "a_z", "letter"], None, map[]);
  }

  /** Where a request below /parties goes in the listing: GET only, the
      index, `current`, `lookup`, then the A to Z page and letter pages. */
  function PartiesListingAnswer(v: Verb, rest: seq<string>): Option<string> {
    if v != GET then None
    else if rest == ["current"] then Some(Action("parties", "current"))
    else if rest == ["lookup"] then Some(Action("parties", "lookup"))
    else PairAnswer("parties", false, rest)
  }

  lemma PartiesListingServe(t: seq<Route>, v: Verb, q: seq<string>)
    ensures Handler(PartiesListing(t), v, q) ==
            Then(Handler(t, v, q), if |q| > 0 && q[0] == "parties" then PartiesListingAnswer(v, q[1..]) else None)
  {
    var s := In("parties", "parties");
    var d := DefaultRoutes(s, "parties", true, true, false);
    WithinIn("parties", "parties", q);
    HandlerAppend(t, d, v, q);
    HandlerAppend(t + d, ListableRoutes(s, Action("parties", "a_to_z"), Action("parties", "letters")), v, q);
    DefaultServes(s, "parties", true, true, false, v, q);
    ListableServes(s, Action("parties", "a_to_z"), Action("parties", "letters"), v, q);
    if |q| > 0 && q[0] == "parties" {
      var rest := q[1..];
      assert |q| > 1 ==> rest[0] == q[1];
      assert |q| > 2 ==> rest[1] == q[2];
    }
  }

  /** Where a request below /parties goes in the party scope: an id alone to
      the show page, any other single segment to the lookup by letters, and
      below a party its members listing. */
  function PartyAnswer(v: Verb, rest: seq<string>): Option<string> {
    if v != GET || rest == [] || !DefaultSegment(rest[0]) then None
    else if |rest| == 1 then (if IsId(rest[0]) then Some("parties#show") else Some("parties#lookup_by_letters"))
    else if rest[1] == "members" then PairAnswer("parties/members", true, rest[2..])
    else None
  }

  lemma PartyServe(t: seq<Route>, v: Verb, q: seq<string>)
    ensures Handler(Party(t), v, q) ==
            Then(Handler(t, v, q), if |q| > 0 && q[0] == "parties" then PartyAnswer(v, q[1..]) else None)
  {
    var p := PartyScope();
    WithinInParam("parties", "party", "party_id", q);
    MembersIsListingPair(p, "parties/members");
    ListingPairServes(p, "members", "members", "parties/members", v, q);
    ShowPagesLookup(t, "parties", "party", "party_id", "parties#show", MembersRoutes(p, "parties/members", true),
                    "parties#lookup_by_letters", v, q);
    if |q| > 1 {
      var rest := q[1..];
      assert rest[0] == q[1];
      assert |q| > 2 ==> rest[1] == q[2] && rest[2..] == q[3..];
    }
  }

  /** The whole of /parties: the listing first, then the party scope. */
  function PartiesAnswer(v: Verb, rest: seq<string>): Option<string> {
    Then(PartiesListingAnswer(v, rest), PartyAnswer(v, rest))
  }

  lemma PartiesServe(t: seq<Route>, v: Verb, q: seq<string>)
    ensures Handler(Parties(t), v, q) ==
            Then(Handler(t, v, q), if |q| > 0 && q[0] == "parties" then PartiesAnswer(v, q[1..]) else None)
  {
    PartiesListingServe(t, v, q);
    PartyServe(PartiesListing(t), v, q);
  }

  /** A GET of one segment below /parties: the fixed segments `current`,
      `lookup` and `a-z` are reached first, an id reaches the show page, and
      only what is neither reaches the lookup by letters. The section has
      no POST route. */
  lemma PartiesOneSegment(v: Verb, x: string)
    ensures PartiesAnswer(v, [x]) ==
            if v != GET then None
            else if x == "current" then Some(Action("parties", "current"))
            else if x == "lookup" then Some(Action("parties", "lookup"))
            else if x == "a-z" then Some(Action("parties", "a_to_z"))
            else if IsId(x) then Some("parties#show")
            else if DefaultSegment(x) then Some("parties#lookup_by_letters")
            else None
  {
    assert [x][1..] == [];
  }

  // -----------------------------------------------------------------------
  // Drawing the routes.
  // -----------------------------------------------------------------------

  method DrawParties(rs: RouteSet)
    requires rs.scope == Top
    modifies rs
    ensures rs.routes == Parties(old(rs.routes))
    ensures rs.scope == Top && rs.saved == old(rs.saved)
  {
    rs.BeginScope([Lit("parties")], Some("parties"));
      rs.BuildDefaultRoutes("parties", postcode := false);
      rs.Listable(Action("parties", "a_to_z"), Action("parties", "letters"));
    rs.EndScope();
    rs.BeginScope([Lit("parties")], Some("party"));
      rs.BeginScope([Param("party_id")]);
        rs.Get([], "parties#show", reqs := map["party_id" := IdFormat]);
        rs.BuildMembersRoutes("parties/members", current := true);
      rs.EndScope();
      rs.Lookupable("parties#lookup_by_letters");
    rs.EndScope();
  }
}
