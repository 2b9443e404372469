/** A pattern the route file writes out by hand many times: `scope '/seg'`
    holding an index and `listable`, optionally followed by a `current`
    scope holding the same. It is what `build_members_routes` draws under
    `members`, and the lemmas below say so. */
module Listings {
  import opened Routing
  import opened Mapper
  import opened Blocks

  /** `scope '/seg', as: alias do get '/'; listable ... end` inside s, with
      the handlers of `controller`. */
  function ListingOne(s: Scope, seg: string, alias: string, controller: string): (r: seq<Route>)
    ensures |r| == 3
  {
    var n := Sub(s, seg, alias);
    [Index(n, Action(controller, "index"))]
      + ListableRoutes(n, Action(controller, "a_to_z"), Action(controller, "letters"))
  }

  /** ListingOne followed, inside the same scope, by `scope '/current', as:
      'current'` holding an index and `listable` of its own. */
  function ListingPair(s: Scope, seg: string, alias: string, controller: string): (r: seq<Route>)
    ensures |r| == 6
  {
    var c := Sub(Sub(s, seg, alias), "current", "current");
    ListingOne(s, seg, alias, controller)
      + ([Index(c, Action(controller, "current"))]
         + ListableRoutes(c, Action(controller, "a_to_z_current"), Action(controller, "current_letters")))
  }

  /** Where a GET below `/seg` goes, `rest` being the segments after `seg`:
      the index, the A to Z page and a letter; with `current`, the same
      three under `current`. */
  function PairAnswer(controller: string, current: bool, rest: seq<string>): Option<string> {
    if rest == [] then Some(Action(controller, "index"))
    else if rest[0] == "a-z" then
      (if |rest| == 1 then Some(Action(controller, "a_to_z"))
       else if |rest| == 2 && DefaultSegment(rest[1]) then Some(Action(controller, "letters"))
       else None)
    else if !current || rest[0] != "current" then None
    else if |rest| == 1 then Some(Action(controller, "current"))
    else if rest[1] != "a-z" then None
    else if |rest| == 2 then Some(Action(controller, "a_to_z_current"))
    else if |rest| == 3 && DefaultSegment(rest[2]) then Some(Action(controller, "current_letters"))
    else None
  }

  /** `build_members_routes(route_name, current: false)` draws exactly
      ListingOne under `members`. */
  lemma MembersIsListingOne(s: Scope, routeName: string)
    ensures MembersRoutes(s, routeName, false) == ListingOne(s, "members", "members", routeName)
  {
  }

  /** `build_members_routes(route_name, current: true)` draws exactly
      ListingPair under `members`. */
  lemma MembersIsListingPair(s: Scope, routeName: string)
    ensures MembersRoutes(s, routeName, true) == ListingPair(s, "members", "members", routeName)
  {
  }

  /** ListingOne answers GET requests below <prefix>/seg as PairAnswer
      without `current` says, and nothing else. */
  lemma ListingOneServes(s: Scope, seg: string, alias: string, controller: string, v: Verb, q: seq<string>)
    requires s.constraints == map[]
    ensures Handler(ListingOne(s, seg, alias, controller), v, q) ==
      if v == GET && Deeper(s, q) && q[|s.path|] == seg then PairAnswer(controller, false, q[|s.path| + 1..])
      else None
  {
    var n := Sub(s, seg, alias);
    SubWithin(s, seg, alias, q);
    IndexListableServes(n, Action(controller, "index"), Action(controller, "a_to_z"), Action(controller, "letters"), v, q);
  }

  /** ListingPair answers GET requests below <prefix>/seg as PairAnswer with
      `current` says, and nothing else. */
  lemma ListingPairServes(s: Scope, seg: string, alias: string, controller: string, v: Verb, q: seq<string>)
    requires s.constraints == map[]
    ensures Handler(ListingPair(s, seg, alias, controller), v, q) ==
      if v == GET && Deeper(s, q) && q[|s.path|] == seg then PairAnswer(controller, true, q[|s.path| + 1..])
      else None
  {
    var n := Sub(s, seg, alias);
    var c := Sub(n, "current", "current");
    var cur := [Index(c, Action(controller, "current"))]
      + ListableRoutes(c, Action(controller, "a_to_z_current"), Action(controller, "current_letters"));
    SubWithin(s, seg, alias, q);
    SubWithin(n, "current", "current", q);
    HandlerAppend(ListingOne(s, seg, alias, controller), cur, v, q);
    IndexListableServes(n, Action(controller, "index"), Action(controller, "a_to_z"), Action(controller, "letters"), v, q);
    IndexListableServes(c, Action(controller, "current"), Action(controller, "a_to_z_current"),
                        Action(controller, "current_letters"), v, q);
  }

  // -----------------------------------------------------------------------
  // Drawing the pattern.
  // -----------------------------------------------------------------------

  method DrawListingOne(rs: RouteSet, seg: string, alias: string, controller: string)
    modifies rs
    ensures rs.routes == old(rs.routes) + ListingOne(old(rs.scope), seg, alias, controller)
    ensures rs.scope == old(rs.scope) && rs.saved == old(rs.saved)
  {
    rs.BeginScope([Lit(seg)], Some(alias));
      rs.Get([], Action(controller, "index"));
      rs.Listable(Action(controller, "a_to_z"), Action(controller, "letters"));
    rs.EndScope();
  }

  method DrawListingPair(rs: RouteSet, seg: string, alias: string, controller: string)
    modifies rs
    ensures rs.routes == old(rs.routes) + ListingPair(old(rs.scope), seg, alias, controller)
    ensures rs.scope == old(rs.scope) && rs.saved == old(rs.saved)
  {
    rs.BeginScope([Lit(seg)], Some(alias));
      rs.Get([], Action(controller, "index"));
      rs.Listable(Action(controller, "a_to_z"), Action(controller, "letters"));
      rs.BeginScope([Lit("current")], Some("current"));
        rs.Get([], Action(controller, "current"));
        rs.Listable(Action(controller, "a_to_z_current"), Action(controller, "current_letters"));
      rs.EndScope();
    rs.EndScope();
  }
}
