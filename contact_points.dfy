/** The two `/contact-points` scopes: the index, then the id-constrained
    page of one contact point. */
module ContactPointsSection {
  import opened Validators
  import opened Routing
  import opened Mapper
  import opened Blocks

  function ContactPoints(t: seq<Route>): (r: seq<Route>)
    ensures |r| == |t| + 2
  {
    t + [Index(In("contact-points", "contact_points"), "contact_points#index")]
      + [Entry(InParam("contact-points", "contact_point", "contact_point_id"), GET, [], "contact_points#show",
               None, map["contact_point_id" := IdFormat])]
  }

  /** GET /contact-points is the index and GET /contact-points/<id> the show
      page, for an 8-character id only. */
  function ContactPointsAnswer(v: Verb, rest: seq<string>): Option<string> {
    if v != GET then None
    else if rest == [] then Some("contact_points#index")
    else if |rest| == 1 && IsId(rest[0]) then Some("contact_points#show")
    else None
  }

  lemma ContactPointsServe(t: seq<Route>, v: Verb, q: seq<string>)
    ensures Handler(ContactPoints(t), v, q) ==
            Then(Handler(t, v, q), if |q| > 0 && q[0] == "contact-points" then ContactPointsAnswer(v, q[1..]) else None)
  {
    var i := [Index(In("contact-points", "contact_points"), "contact_points#index")];
    HandlerAppend(t, i, v, q);
    IndexServes("contact-points", "contact_points", "contact_points#index", v, q);
    ShowOnto(t + i, "contact-points", "contact_point", "contact_point_id", map["contact_point_id" := IdFormat],
             "contact_points#show", v, q);
    IdAccepts("contact_point_id", if |q| == 2 then q[1] else "");
    if |q| > 0 {
      assert |q| == 2 ==> q[1..] == [q[1]];
    }
  }

  method DrawContactPoints(rs: RouteSet)
    requires rs.scope == Top
    modifies rs
    ensures rs.routes == ContactPoints(old(rs.routes))
    ensures rs.scope == Top && rs.saved == old(rs.saved)
  {
    rs.BeginScope([Lit("contact-points")], Some("contact_points"));
      rs.Get([], "contact_points#index");
    rs.EndScope();
    rs.BeginScope([Lit("contact-points")], Some("contact_point"));
      rs.BeginScope([Param("contact_point_id")]);
        rs.Get([], "contact_points#show", reqs := map["contact_point_id" := IdFormat]);
      rs.EndScope();
    rs.EndScope();
  }
}
