/** The single pages at the head of the route file: the root, the home
    pages, the contact guidance and the laying bodies. */
module PagesSection {
  import opened Routing
  import opened Mapper
  import opened Blocks

  /** The routes registered after t, before the first `scope`. */
  function Pages(t: seq<Route>): (r: seq<Route>)
    ensures |r| == |t| + 6
  {
    t + [Entry(Top, GET, [], "home#index", Some("root"), map[])]
      + [Entry(Top, GET, [Lit("mps")], "home#mps", None, map[])]
      + [Entry(Top, GET, [Lit("find-your-constituency")], "home#find_your_constituency", None, map[])]
      + [Entry(Top, GET, [Lit("find-a-statutory-instrument")], "home#find_a_statutory_instrument", None, map[])]
      + [Entry(Top, GET, [Lit("who-should-i-contact-with-my-issue")], "meta#who_should_i_contact_with_my_issue", None, map[])]
      + [Entry(Top, GET, [Lit("laying-bodies")], "laying_bodies#index", Some("laying_bodies"), map[])]
  }

  /** The request each page answers: a GET of the bare root or of one of the
      five one-segment paths. */
  function PagesAnswer(v: Verb, q: seq<string>): Option<string> {
    if v != GET then None
    else if q == [] then Some("home#index")
    else if q == ["mps"] then Some("home#mps")
    else if q == ["find-your-constituency"] then Some("home#find_your_constituency")
    else if q == ["find-a-statutory-instrument"] then Some("home#find_a_statutory_instrument")
    else if q == ["who-should-i-contact-with-my-issue"] then Some("meta#who_should_i_contact_with_my_issue")
    else if q == ["laying-bodies"] then Some("laying_bodies#index")
    else None
  }

  /** The pages answer exactly the requests PagesAnswer names, and leave
      every other request to the routes registered before them. */
  lemma PagesServes(t: seq<Route>, v: Verb, q: seq<string>)
    ensures Handler(Pages(t), v, q) == Then(Handler(t, v, q), PagesAnswer(v, q))
  {
    var t1 := t + [Entry(Top, GET, [], "home#index", Some("root"), map[])];
    var t2 := t1 + [Entry(Top, GET, [Lit("mps")], "home#mps", None, map[])];
    var t3 := t2 + [Entry(Top, GET, [Lit("find-your-constituency")], "home#find_your_constituency", None, map[])];
    var t4 := t3 + [Entry(Top, GET, [Lit("find-a-statutory-instrument")], "home#find_a_statutory_instrument", None, map[])];
    var t5 := t4 + [Entry(Top, GET, [Lit("who-should-i-contact-with-my-issue")], "meta#who_should_i_contact_with_my_issue", None, map[])];
    TopEntry(t, GET, [], "home#index", Some("root"), map[], v, q);
    TopEntry(t1, GET, [Lit("mps")], "home#mps", None, map[], v, q);
    TopEntry(t2, GET, [Lit("find-your-constituency")], "home#find_your_constituency", None, map[], v, q);
    TopEntry(t3, GET, [Lit("find-a-statutory-instrument")], "home#find_a_statutory_instrument", None, map[], v, q);
    TopEntry(t4, GET, [Lit("who-should-i-contact-with-my-issue")], "meta#who_should_i_contact_with_my_issue", None, map[], v, q);
    TopEntry(t5, GET, [Lit("laying-bodies")], "laying_bodies#index", Some("laying_bodies"), map[], v, q);
    EmptyPathAccepts(q, map[]);
    LitPathAccepts("mps", q, map[]);
    LitPathAccepts("find-your-constituency", q, map[]);
    LitPathAccepts("find-a-statutory-instrument", q, map[]);
    LitPathAccepts("who-should-i-contact-with-my-issue", q, map[]);
    LitPathAccepts("laying-bodies", q, map[]);
  }

  /** `root 'home#index'` and the five top-level `get` calls. */
  method DrawPages(rs: RouteSet)
    requires rs.scope == Top
    modifies rs
    ensures rs.routes == Pages(old(rs.routes))
    ensures rs.scope == Top && rs.saved == old(rs.saved)
  {
    rs.Get([], "home#index", Some("root"));
    rs.Get([Lit("mps")], "home#mps");
    rs.Get([Lit("find-your-constituency")], "home#find_your_constituency");
    rs.Get([Lit("find-a-statutory-instrument")], "home#find_a_statutory_instrument");
    rs.Get([Lit("who-should-i-contact-with-my-issue")], "meta#who_should_i_contact_with_my_issue");
    rs.Get([Lit("laying-bodies")], "laying_bodies#index", Some("laying_bodies"));
  }
}
