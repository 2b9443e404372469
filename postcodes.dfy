/** The two `/postcodes` scopes: the index and the POST lookup, then the
    page of one postcode. */
module PostcodesSection {
  import opened Routing
  import opened Mapper
  import opened Blocks

  /** `scope '/postcodes', as: 'postcodes'` and `scope '/postcodes', as:
      'postcode'`, registered after t. */
  function Postcodes(t: seq<Route>): (r: seq<Route>)
    ensures |r| == |t| + 3
  {
    t + [Index(In("postcodes", "postcodes"), "postcodes#index")]
      + [Entry(In("postcodes", "postcodes"), POST, [Lit("lookup")], "postcodes#lookup", None, map[])]
      + [Index(InParam("postcodes", "postcode", "postcode"), "postcodes#show")]
  }

  /** Where a request below /postcodes goes: the lookup is reached only by
      POST, so a GET of /postcodes/lookup is the show page of a postcode
      named "lookup"; the postcode segment is unconstrained. */
  function PostcodesAnswer(v: Verb, rest: seq<string>): Option<string> {
    if v == POST then (if rest == ["lookup"] then Some("postcodes#lookup") else None)
    else if rest == [] then Some("postcodes#index")
    else if |rest| == 1 && DefaultSegment(rest[0]) then Some("postcodes#show")
    else None
  }

  /** The section answers exactly what PostcodesAnswer says below
      /postcodes, nothing elsewhere, and leaves the rest to the routes
      before it. */
  lemma PostcodesServe(t: seq<Route>, v: Verb, q: seq<string>)
    ensures Handler(Postcodes(t), v, q) ==
            Then(Handler(t, v, q), if |q| > 0 && q[0] == "postcodes" then PostcodesAnswer(v, q[1..]) else None)
  {
    var s := In("postcodes", "postcodes");
    var p := InParam("postcodes", "postcode", "postcode");
    var i := [Index(s, "postcodes#index")];
    var l := [Entry(s, POST, [Lit("lookup")], "postcodes#lookup", None, map[])];
    WithinIn("postcodes", "postcodes", q);
    WithinInParam("postcodes", "postcode", "postcode", q);
    HandlerAppend(t, i, v, q);
    IndexServes("postcodes", "postcodes", "postcodes#index", v, q);
    HandlerAppend(t + i, l, v, q);
    EntryHandler(s, POST, [Lit("lookup")], "postcodes#lookup", None, v, q);
    HandlerAppend(t + i + l, [Index(p, "postcodes#show")], v, q);
    IndexHandler(p, "postcodes#show", v, q);
    if |q| > 0 {
      LitPathAccepts("lookup", q[1..], map[]);
      assert |q| == 2 ==> q[1..] == [q[1]];
    }
  }

  method DrawPostcodes(rs: RouteSet)
    requires rs.scope == Top
    modifies rs
    ensures rs.routes == Postcodes(old(rs.routes))
    ensures rs.scope == Top && rs.saved == old(rs.saved)
  {
    rs.BeginScope([Lit("postcodes")], Some("postcodes"));
      rs.Get([], "postcodes#index");
      rs.Post([Lit("lookup")], "postcodes#lookup");
    rs.EndScope();
    rs.BeginScope([Lit("postcodes")], Some("postcode"));
      rs.BeginScope([Param("postcode")]);
        rs.Get([], "postcodes#show");
      rs.EndScope();
    rs.EndScope();
  }
}
