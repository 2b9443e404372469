/** The three `/places` scopes: the index, the regions page, then one
    place's page (the place parameter is unconstrained) with its
    constituencies listing. The regions scope is registered before the place
    scope, so `regions` never reaches the place page. */
module PlacesSection {
  import opened Routing
  import opened Mapper
  import opened Blocks
  import opened Listings

  function PlaceScope(): Scope {
    SubParam(In("places", "places"), "place_id", Some("show"))
  }

  /** `scope '/:place_id', as: 'show'`: the place page and
      `scope '/constituencies'` holding an index and `listable`. */
  function PlacePages(s: Scope): (r: seq<Route>)
    ensures |r| == 4
  {
    [Index(s, "places#show")] + ListingOne(s, "constituencies", "constituencies", "places/constituencies")
  }

  function Places(t: seq<Route>): (r: seq<Route>)
    ensures |r| == |t| + 6
  {
    var s := In("places", "places");
    t + [Index(s, "places#index")]
      + [Index(Sub(s, "regions", "regions"), "places/regions#index")]
      + PlacePages(PlaceScope())
  }

  /** Where a GET below /places goes: the index, the fixed `regions`, any
      other single segment to the place page, and below it the place's
      constituencies listing. */
  function PlacesAnswer(v: Verb, rest: seq<string>): Option<string> {
    if v != GET then None
    else if rest == [] then Some("places#index")
    else if rest == ["regions"] then Some("places/regions#index")
    else if !DefaultSegment(rest[0]) then None
    else if |rest| == 1 then Some("places#show")
    else if rest[1] == "constituencies" then PairAnswer("places/constituencies", false, rest[2..])
    else None
  }

  lemma PlacePagesServe(s: Scope, v: Verb, q: seq<string>)
    requires s.constraints == map[]
    ensures Handler(PlacePages(s), v, q) ==
            if v == GET && Within(s, q) && |q| == |s.path| then Some("places#show")
            else if v == GET && Deeper(s, q) && q[|s.path|] == "constituencies" then
              PairAnswer("places/constituencies", false, q[|s.path| + 1..])
            else None
  {
    HandlerAppend([Index(s, "places#show")], ListingOne(s, "constituencies", "constituencies", "places/constituencies"), v, q);
    IndexHandler(s, "places#show", v, q);
    ListingOneServes(s, "constituencies", "constituencies", "places/constituencies", v, q);
  }

  /** The two routes before the place scope: the index and `regions`. */
  lemma IndexRegionsServe(t: seq<Route>, v: Verb, q: seq<string>)
    ensures Handler(t + [Index(In("places", "places"), "places#index")]
                      + [Index(Sub(In("places", "places"), "regions", "regions"), "places/regions#index")], v, q) ==
            Then(Handler(t, v, q),
                 if v == GET && q == ["places"] then Some("places#index")
                 else if v == GET && q == ["places", "regions"] then Some("places/regions#index")
                 else None)
  {
    var s := In("places", "places");
    var a := [Index(s, "places#index")];
    var b := [Index(Sub(s, "regions", "regions"), "places/regions#index")];
    HandlerAppend(t, a, v, q);
    IndexServes("places", "places", "places#index", v, q);
    HandlerAppend(t + a, b, v, q);
    SubIndexServes("places", "places", "regions", "regions", "places/regions#index", v, q);
  }

  /** The place scope, registered after u: any single segment after
      /places reaches the place page, and below it the constituencies
      listing answers. */
  lemma PlaceServe(u: seq<Route>, v: Verb, q: seq<string>)
    ensures Handler(u + PlacePages(PlaceScope()), v, q) ==
            Then(Handler(u, v, q),
                 if v != GET || |q| < 2 || q[0] != "places" || !DefaultSegment(q[1]) then None
                 else if |q| == 2 then Some("places#show")
                 else if q[2] == "constituencies" then PairAnswer("places/constituencies", false, q[3..])
                 else None)
  {
    var p := PlaceScope();
    WithinIn("places", "places", q);
    SubParamWithin(In("places", "places"), "place_id", Some("show"), q);
    HandlerAppend(u, PlacePages(p), v, q);
    PlacePagesServe(p, v, q);
  }

  /** The section's answer, stated on the whole request. */
  lemma PlacesHandler(t: seq<Route>, v: Verb, q: seq<string>)
    ensures Handler(Places(t), v, q) ==
            Then(Handler(t, v, q),
                 if v != GET || |q| == 0 || q[0] != "places" then None
                 else if |q| == 1 then Some("places#index")
                 else if |q| == 2 && q[1] == "regions" then Some("places/regions#index")
                 else if !DefaultSegment(q[1]) then None
                 else if |q| == 2 then Some("places#show")
                 else if q[2] == "constituencies" then PairAnswer("places/constituencies", false, q[3..])
                 else None)
  {
    var s := In("places", "places");
    var u := t + [Index(s, "places#index")] + [Index(Sub(s, "regions", "regions"), "places/regions#index")];
    IndexRegionsServe(t, v, q);
    PlaceServe(u, v, q);
    if |q| > 0 && q[0] == "places" {
      assert q == ["places"] <==> |q| == 1;
      assert q == ["places", "regions"] <==> |q| == 2 && q[1] == "regions";
    }
  }

  /** The section answers exactly what PlacesAnswer says below /places, and
      nothing elsewhere. */
  lemma PlacesServe(t: seq<Route>, v: Verb, q: seq<string>)
    ensures Handler(Places(t), v, q) ==
            Then(Handler(t, v, q), if |q| > 0 && q[0] == "places" then PlacesAnswer(v, q[1..]) else None)
  {
    PlacesHandler(t, v, q);
    if |q| > 1 && q[0] == "places" {
      var rest := q[1..];
      assert rest[0] == q[1];
      assert |rest| > 1 ==> rest[1] == q[2] && rest[2..] == q[3..];
      assert |q| == 2 ==> rest == [q[1]];
    }
  }

  /** `regions` is a fixed segment registered before the place parameter. */
  lemma RegionsBeforePlace(t: seq<Route>)
    requires Handler(t, GET, ["places", "regions"]) == None
    ensures Handler(Places(t), GET, ["places", "regions"]) == Some("places/regions#index")
  {
    PlacesServe(t, GET, ["places", "regions"]);
    assert ["places", "regions"][1..] == ["regions"];
  }

  // -----------------------------------------------------------------------
  // Drawing the routes.
  // -----------------------------------------------------------------------

  method DrawPlacePages(rs: RouteSet)
    modifies rs
    ensures rs.routes == old(rs.routes) + PlacePages(old(rs.scope))
    ensures rs.scope == old(rs.scope) && rs.saved == old(rs.saved)
  {
    rs.Get([], "places#show");
    DrawListingOne(rs, "constituencies", "constituencies", "places/constituencies");
  }

  method DrawPlaces(rs: RouteSet)
    requires rs.scope == Top
    modifies rs
    ensures rs.routes == Places(old(rs.routes))
    ensures rs.scope == Top && rs.saved == old(rs.saved)
  {
    rs.BeginScope([Lit("places")], Some("places"));
      rs.Get([], "places#index");
    rs.EndScope();
    rs.BeginScope([Lit("places")], Some("places"));
      rs.BeginScope([Lit("regions")], Some("regions"));
        rs.Get([], "places/regions#index");
      rs.EndScope();
    rs.EndScope();
    rs.BeginScope([Lit("places")], Some("places"));
      rs.BeginScope([Param("place_id")], Some("show"));
        DrawPlacePages(rs);
      rs.EndScope();
    rs.EndScope();
  }
}
