/** The route-building helpers the repository adds to the router's mapper:
    `listable`, `lookupable`, `build_default_routes`,
    `build_root_and_current_routes` and `build_members_routes`, together with
    the `get`, `post` and `scope` primitives they are written in.

    Each helper is given twice: as a function computing the block of routes it
    appends inside a given scope, and as a method of RouteSet that appends
    them through the primitives and is proved to append exactly that block.
    A "Serves" lemma beside each function says which requests the block
    answers. */
module Mapper {
  import opened Validators
  import opened Routing

  /** The handler string `"#{controller}##{action}"`. */
  function Action(controller: string, action: string): string {
    controller + "#" + action
  }

  /** Every route of the block lies inside the scope: its template starts
      with the scope's prefix. */
  predicate Inside(t: seq<Route>, s: Scope) {
    forall r :: r in t ==> |r.path| >= |s.path| && r.path[..|s.path|] == s.path
  }

  /** Every route of the block lies strictly below the scope's prefix. */
  predicate Below(t: seq<Route>, s: Scope) {
    forall r :: r in t ==> |r.path| > |s.path| && r.path[..|s.path|] == s.path
  }

  /** The block adds only GET routes with no name and no constraint of its own. */
  predicate PlainGets(t: seq<Route>, s: Scope) {
    forall r :: r in t ==> r.verb == GET && r.name == None && r.constraints == s.constraints
  }

  function Count(b: bool): nat {
    if b then 1 else 0
  }

  // -----------------------------------------------------------------------
  // The blocks of routes each helper appends.
  // -----------------------------------------------------------------------

  /** `listable(a_z_action, letter_action)` inside scope s. */
  function ListableRoutes(s: Scope, aToZ: string, letter: string): (r: seq<Route>)
    ensures |r| == 2
  {
    var az := Nest(s, [Lit("a-z")], Some("a_z"), map[]);
    var lt := Nest(az, [Param("letter")], Some("letter"), map[]);
    [Entry(az, GET, [], aToZ, None, map[]), Entry(lt, GET, [], letter, None, map[])]
  }

  /** `lookupable(action)` inside scope s. */
  function LookupableRoutes(s: Scope, action: string): (r: seq<Route>)
    ensures |r| == 1
  {
    [Entry(s, GET, [Param("letters")], action, None, map[])]
  }

  /** `build_default_routes(route_name, current:, lookup:, postcode:)` inside
      scope s. */
  function DefaultRoutes(s: Scope, routeName: string, current: bool, lookup: bool, postcode: bool): (r: seq<Route>)
    ensures |r| == 1 + Count(current) + Count(lookup) + Count(postcode)
  {
    [Entry(s, GET, [], Action(routeName, "index"), None, map[])]
    + (if current then [Entry(s, GET, [Lit("current")], Action(routeName, "current"), None, map[])] else [])
    + (if lookup then [Entry(s, GET, [Lit("lookup")], Action(routeName, "lookup"), None, map[])] else [])
    + (if postcode then [Entry(s, POST, [Lit("postcode_lookup")], Action(routeName, "postcode_lookup"), Some("postcode_lookup"), map[])] else [])
  }

  /** `build_root_and_current_routes(parent_route_name, route_name)` inside
      scope s. */
  function RootAndCurrentRoutes(s: Scope, parent: string, routeName: string): (r: seq<Route>)
    ensures |r| == 2
  {
    var n := Nest(s, [Lit(routeName)], Some(routeName), map[]);
    [Entry(n, GET, [], Action(parent, "index"), None, map[]),
     Entry(n, GET, [Lit("current")], Action(parent, "current"), None, map[])]
  }

  /** The scope `build_members_routes` opens inside s, in which its optional
      block runs. */
  function MembersScope(s: Scope): Scope {
    Nest(s, [Lit("members")], Some("members"), map[])
  }

  /** The routes `build_members_routes(route_name, current:)` appends inside
      scope s before it yields to its block. */
  function MembersRoutes(s: Scope, routeName: string, current: bool): (r: seq<Route>)
    ensures |r| == if current then 6 else 3
  {
    var m := MembersScope(s);
    var c := Nest(m, [Lit("current")], Some("current"), map[]);
    [Entry(m, GET, [], Action(routeName, "index"), None, map[])]
    + ListableRoutes(m, Action(routeName, "a_to_z"), Action(routeName, "letters"))
    + (if current then [Entry(c, GET, [], Action(routeName, "current"), None, map[])]
                       + ListableRoutes(c, Action(routeName, "a_to_z_current"), Action(routeName, "current_letters"))
       else [])
  }

  // -----------------------------------------------------------------------
  // The shape of each block.
  // -----------------------------------------------------------------------

  /** `listable` adds two plain GET routes below the prefix, under the
      `a_z` and `a_z`/`letter` name scopes, handled by the two given
      actions in that order. */
  lemma ListableShape(s: Scope, aToZ: string, letter: string)
    ensures var r := ListableRoutes(s, aToZ, letter);
      Below(r, s) && PlainGets(r, s) &&
      r[0].path == s.path + [Lit("a-z")] && r[0].to == aToZ && r[0].scope == s.names + ["a_z"] &&
      r[1].path == s.path + [Lit("a-z"), Param("letter")] && r[1].to == letter &&
      r[1].scope == s.names + ["a_z", "letter"]
  {
  }

  /** `lookupable` adds one plain GET route, `<prefix>/:letters`, with no
      constraint of its own. */
  lemma LookupableShape(s: Scope, action: string)
    ensures var r := LookupableRoutes(s, action);
      Below(r, s) && PlainGets(r, s) && r[0].path == s.path + [Param("letters")] && r[0].to == action
  {
  }

  /** `build_default_routes`: the index first, then each enabled sub-path in
      the order current, lookup, postcode lookup; the postcode lookup is the
      only POST and the only named route; every handler is the route name
      followed by `#` and one of the four actions. */
  lemma DefaultShape(s: Scope, routeName: string, current: bool, lookup: bool, postcode: bool)
    ensures var r := DefaultRoutes(s, routeName, current, lookup, postcode);
      Inside(r, s) &&
      r[0] == Entry(s, GET, [], Action(routeName, "index"), None, map[]) &&
      (forall e :: e in r ==> e.constraints == s.constraints && e.scope == s.names) &&
      (forall e :: e in r ==> (e.verb == POST <==> e.name.Some?)) &&
      (forall e :: e in r && e.verb == POST ==>
         e.name.value == "postcode_lookup" && e.to == Action(routeName, "postcode_lookup")) &&
      (forall e :: e in r ==> e.to in {Action(routeName, "index"), Action(routeName, "current"),
                                       Action(routeName, "lookup"), Action(routeName, "postcode_lookup")}) &&
      (postcode <==> r[|r| - 1].verb == POST) &&
      (current ==> r[1] == Entry(s, GET, [Lit("current")], Action(routeName, "current"), None, map[])) &&
      (lookup ==> r[1 + Count(current)] == Entry(s, GET, [Lit("lookup")], Action(routeName, "lookup"), None, map[])) &&
      (postcode ==> r[|r| - 1] == Entry(s, POST, [Lit("postcode_lookup")], Action(routeName, "postcode_lookup"),
                                        Some("postcode_lookup"), map[]))
  {
  }

  /** `build_root_and_current_routes(p, r)`: two plain GET routes under
      `<prefix>/<r>` and the name scope r, handled by `p#index` and
      `p#current`. */
  lemma RootAndCurrentShape(s: Scope, parent: string, routeName: string)
    ensures var r := RootAndCurrentRoutes(s, parent, routeName);
      Below(r, s) && PlainGets(r, s) &&
      r[0].path == s.path + [Lit(routeName)] && r[0].to == Action(parent, "index") &&
      r[1].path == s.path + [Lit(routeName), Lit("current")] && r[1].to == Action(parent, "current") &&
      r[0].scope == s.names + [routeName] && r[1].scope == s.names + [routeName]
  {
  }

  /** `build_members_routes`: plain GET routes, all under `<prefix>/members`,
      each handled by the route name followed by `#` and one of six actions. */
  lemma MembersShape(s: Scope, routeName: string, current: bool)
    ensures var r := MembersRoutes(s, routeName, current);
      Below(r, s) && PlainGets(r, s) &&
      (forall e :: e in r ==> e.path[|s.path|] == Lit("members")) &&
      (forall e :: e in r ==> e.to in {Action(routeName, "index"), Action(routeName, "a_to_z"),
                                       Action(routeName, "letters"), Action(routeName, "current"),
                                       Action(routeName, "a_to_z_current"), Action(routeName, "current_letters")})
  {
    var m := MembersScope(s);
    var c := Nest(m, [Lit("current")], Some("current"), map[]);
    var all := [Entry(m, GET, [], Action(routeName, "index"), None, map[])]
      + ListableRoutes(m, Action(routeName, "a_to_z"), Action(routeName, "letters"));
    var cur := [Entry(c, GET, [], Action(routeName, "current"), None, map[])]
      + ListableRoutes(c, Action(routeName, "a_to_z_current"), Action(routeName, "current_letters"));
    ListableShape(m, Action(routeName, "a_to_z"), Action(routeName, "letters"));
    ListableShape(c, Action(routeName, "a_to_z_current"), Action(routeName, "current_letters"));
    BelowNest(all, s, [Lit("members")], Some("members"));
    BelowNest(cur, m, [Lit("current")], Some("current"));
    BelowNest(cur, s, [Lit("members")], Some("members"));
    assert MembersRoutes(s, routeName, current) == all + (if current then cur else []);
  }

  /** A block below a scope nested in s is below s, and passes through the
      nested scope's own segments. */
  lemma BelowNest(t: seq<Route>, s: Scope, path: seq<Segment>, alias: Option<string>)
    requires |path| > 0
    requires Inside(t, Nest(s, path, alias, map[])) && PlainGets(t, Nest(s, path, alias, map[]))
    ensures Below(t, s) && PlainGets(t, s)
    ensures forall e :: e in t ==> e.path[|s.path|] == path[0]
  {
    var n := Nest(s, path, alias, map[]);
    assert n.constraints == s.constraints;
    forall e | e in t ensures e.path[..|s.path|] == s.path && e.path[|s.path|] == path[0] {
      assert e.path[..|n.path|] == s.path + path;
      assert e.path[..|s.path|] == e.path[..|n.path|][..|s.path|];
      assert e.path[|s.path|] == e.path[..|n.path|][|s.path|];
    }
  }

  // -----------------------------------------------------------------------
  // Which requests each block answers.
  // -----------------------------------------------------------------------

  /** `listable` answers GET <prefix>/a-z with the first handler and
      GET <prefix>/a-z/<letter> with the second, and nothing else. */
  lemma ListableServes(s: Scope, aToZ: string, letter: string, v: Verb, q: seq<string>)
    ensures Handler(ListableRoutes(s, aToZ, letter), v, q) ==
      var k := |s.path|;
      if v != GET || !Within(s, q) || |q| <= k || q[k] != "a-z" then None
      else if |q| == k + 1 then Some(aToZ)
      else if |q| == k + 2 && Accepts(Param("letter"), q[k + 1], s.constraints) then Some(letter)
      else None
  {
    var k := |s.path|;
    var az := Nest(s, [Lit("a-z")], Some("a_z"), map[]);
    var lt := Nest(az, [Param("letter")], Some("letter"), map[]);
    assert az.constraints == s.constraints && lt.constraints == s.constraints;
    var e0 := Entry(az, GET, [], aToZ, None, map[]);
    var e1 := Entry(lt, GET, [], letter, None, map[]);
    assert ListableRoutes(s, aToZ, letter) == [e0] + [e1];
    HandlerAppend([e0], [e1], v, q);
    EntryHandler(az, GET, [], aToZ, None, v, q);
    EntryHandler(lt, GET, [], letter, None, v, q);
    WithinNest(s, [Lit("a-z")], Some("a_z"), q);
    WithinNest(az, [Param("letter")], Some("letter"), q);
    if k + 1 <= |q| {
      LitPathAccepts("a-z", q[k..k + 1], s.constraints);
      EmptyPathAccepts(q[k + 1..], s.constraints);
    }
    if k + 2 <= |q| {
      ParamPathAccepts("letter", q[k + 1..k + 2], s.constraints);
      EmptyPathAccepts(q[k + 2..], s.constraints);
    }
  }

  /** The recurring pair `get '/'` followed by `listable` in scope s: the
      index at <prefix>, then the two listing routes below it. */
  lemma IndexListableServes(s: Scope, index: string, aToZ: string, letter: string, v: Verb, q: seq<string>)
    ensures Handler([Entry(s, GET, [], index, None, map[])] + ListableRoutes(s, aToZ, letter), v, q) ==
      var k := |s.path|;
      if v != GET || !Within(s, q) then None
      else if |q| == k then Some(index)
      else if q[k] != "a-z" then None
      else if |q| == k + 1 then Some(aToZ)
      else if |q| == k + 2 && Accepts(Param("letter"), q[k + 1], s.constraints) then Some(letter)
      else None
  {
    HandlerAppend([Entry(s, GET, [], index, None, map[])], ListableRoutes(s, aToZ, letter), v, q);
    EntryHandler(s, GET, [], index, None, v, q);
    ListableServes(s, aToZ, letter, v, q);
    if |s.path| <= |q| {
      EmptyPathAccepts(q[|s.path|..], s.constraints);
    }
  }

  /** `lookupable` answers GET <prefix>/<letters> for any value the
      `:letters` parameter accepts, and nothing else. */
  lemma LookupableServes(s: Scope, action: string, v: Verb, q: seq<string>)
    ensures Handler(LookupableRoutes(s, action), v, q) ==
      if v == GET && Within(s, q) && |q| == |s.path| + 1
         && Accepts(Param("letters"), q[|s.path|], s.constraints) then Some(action)
      else None
  {
    EntryMatches(s, GET, [Param("letters")], action, None, v, q);
    if |s.path| <= |q| {
      ParamPathAccepts("letters", q[|s.path|..], s.constraints);
    }
  }

  /** `build_default_routes` answers GET <prefix> with the index action and
      each enabled fixed sub-path with its action, POST only for the
      postcode lookup, and nothing else. */
  lemma DefaultServes(s: Scope, routeName: string, current: bool, lookup: bool, postcode: bool,
                      v: Verb, q: seq<string>)
    ensures Handler(DefaultRoutes(s, routeName, current, lookup, postcode), v, q) ==
      if !Within(s, q) then None
      else if v == GET && |q| == |s.path| then Some(Action(routeName, "index"))
      else if v == GET && current && q[|s.path|..] == ["current"] then Some(Action(routeName, "current"))
      else if v == GET && lookup && q[|s.path|..] == ["lookup"] then Some(Action(routeName, "lookup"))
      else if v == POST && postcode && q[|s.path|..] == ["postcode_lookup"] then Some(Action(routeName, "postcode_lookup"))
      else None
  {
    var n := |s.path|;
    var i := [Entry(s, GET, [], Action(routeName, "index"), None, map[])];
    var c := if current then [Entry(s, GET, [Lit("current")], Action(routeName, "current"), None, map[])] else [];
    var l := if lookup then [Entry(s, GET, [Lit("lookup")], Action(routeName, "lookup"), None, map[])] else [];
    var p := if postcode then [Entry(s, POST, [Lit("postcode_lookup")], Action(routeName, "postcode_lookup"), Some("postcode_lookup"), map[])] else [];
    assert DefaultRoutes(s, routeName, current, lookup, postcode) == i + c + l + p;
    HandlerAppend(i + c + l, p, v, q);
    HandlerAppend(i + c, l, v, q);
    HandlerAppend(i, c, v, q);
    EntryHandler(s, GET, [], Action(routeName, "index"), None, v, q);
    EntryHandler(s, GET, [Lit("current")], Action(routeName, "current"), None, v, q);
    EntryHandler(s, GET, [Lit("lookup")], Action(routeName, "lookup"), None, v, q);
    EntryHandler(s, POST, [Lit("postcode_lookup")], Action(routeName, "postcode_lookup"), Some("postcode_lookup"), v, q);
    if n <= |q| {
      EmptyPathAccepts(q[n..], s.constraints);
      LitPathAccepts("current", q[n..], s.constraints);
      LitPathAccepts("lookup", q[n..], s.constraints);
      LitPathAccepts("postcode_lookup", q[n..], s.constraints);
    }
  }

  /** `build_root_and_current_routes` answers GET <prefix>/<route_name> with
      the parent's index action and GET <prefix>/<route_name>/current with
      its current action, and nothing else. */
  lemma RootAndCurrentServes(s: Scope, parent: string, routeName: string, v: Verb, q: seq<string>)
    ensures Handler(RootAndCurrentRoutes(s, parent, routeName), v, q) ==
      if v == GET && Within(s, q) && q[|s.path|..] == [routeName] then Some(Action(parent, "index"))
      else if v == GET && Within(s, q) && q[|s.path|..] == [routeName, "current"] then Some(Action(parent, "current"))
      else None
  {
    var k := |s.path|;
    var n := Nest(s, [Lit(routeName)], Some(routeName), map[]);
    assert n.constraints == s.constraints;
    var e0 := Entry(n, GET, [], Action(parent, "index"), None, map[]);
    var e1 := Entry(n, GET, [Lit("current")], Action(parent, "current"), None, map[]);
    assert RootAndCurrentRoutes(s, parent, routeName) == [e0] + [e1];
    HandlerAppend([e0], [e1], v, q);
    EntryHandler(n, GET, [], Action(parent, "index"), None, v, q);
    EntryHandler(n, GET, [Lit("current")], Action(parent, "current"), None, v, q);
    WithinNest(s, [Lit(routeName)], Some(routeName), q);
    if k + 1 <= |q| {
      LitPathAccepts(routeName, q[k..k + 1], s.constraints);
      EmptyPathAccepts(q[k + 1..], s.constraints);
      LitPathAccepts("current", q[k + 1..], s.constraints);
      assert q[k..] == [routeName] <==> |q| == k + 1 && q[k] == routeName;
      assert q[k..] == [routeName, "current"] <==> |q| == k + 2 && q[k] == routeName && q[k + 1] == "current";
    }
  }

  /** `build_members_routes` answers the members index and its two listing
      routes under <prefix>/members, and with `current:` the same three under
      <prefix>/members/current; nothing else. */
  lemma MembersServes(s: Scope, routeName: string, current: bool, v: Verb, q: seq<string>)
    ensures Handler(MembersRoutes(s, routeName, current), v, q) ==
      var k := |s.path|;
      if v != GET || !Within(s, q) || |q| <= k || q[k] != "members" then None
      else if |q| == k + 1 then Some(Action(routeName, "index"))
      else if q[k + 1] == "a-z" then
        if |q| == k + 2 then Some(Action(routeName, "a_to_z"))
        else if |q| == k + 3 && Accepts(Param("letter"), q[k + 2], s.constraints) then Some(Action(routeName, "letters"))
        else None
      else if !current || q[k + 1] != "current" then None
      else if |q| == k + 2 then Some(Action(routeName, "current"))
      else if q[k + 2] != "a-z" then None
      else if |q| == k + 3 then Some(Action(routeName, "a_to_z_current"))
      else if |q| == k + 4 && Accepts(Param("letter"), q[k + 3], s.constraints) then Some(Action(routeName, "current_letters"))
      else None
  {
    var k := |s.path|;
    var m := MembersScope(s);
    var c := Nest(m, [Lit("current")], Some("current"), map[]);
    assert m.constraints == s.constraints && c.constraints == s.constraints;
    var all := [Entry(m, GET, [], Action(routeName, "index"), None, map[])]
      + ListableRoutes(m, Action(routeName, "a_to_z"), Action(routeName, "letters"));
    var cur := [Entry(c, GET, [], Action(routeName, "current"), None, map[])]
      + ListableRoutes(c, Action(routeName, "a_to_z_current"), Action(routeName, "current_letters"));
    assert MembersRoutes(s, routeName, current) == all + (if current then cur else []);
    HandlerAppend(all, if current then cur else [], v, q);
    MembersWithin(s, q);
    IndexListableServes(m, Action(routeName, "index"), Action(routeName, "a_to_z"), Action(routeName, "letters"), v, q);
    IndexListableServes(c, Action(routeName, "current"), Action(routeName, "a_to_z_current"), Action(routeName, "current_letters"), v, q);
  }

  /** A request is inside <prefix>/members, or inside <prefix>/members/current,
      exactly when it is inside the prefix and continues with those segments. */
  lemma MembersWithin(s: Scope, q: seq<string>)
    ensures Within(MembersScope(s), q) <==> Within(s, q) && |q| > |s.path| && q[|s.path|] == "members"
    ensures Within(Nest(MembersScope(s), [Lit("current")], Some("current"), map[]), q) <==>
            Within(s, q) && |q| > |s.path| + 1 && q[|s.path|] == "members" && q[|s.path| + 1] == "current"
  {
    var k := |s.path|;
    var m := MembersScope(s);
    assert m.constraints == s.constraints;
    WithinNest(s, [Lit("members")], Some("members"), q);
    WithinNest(m, [Lit("current")], Some("current"), q);
    if k + 1 <= |q| {
      LitPathAccepts("members", q[k..k + 1], s.constraints);
    }
    if k + 2 <= |q| {
      LitPathAccepts("current", q[k + 1..k + 2], s.constraints);
    }
  }

  // -----------------------------------------------------------------------
  // The mapper: the route list and the scope state, changed in place.
  // -----------------------------------------------------------------------

  class RouteSet {
    /** The routes registered so far, in registration order. */
    var routes: seq<Route>
    /** The scope in force. */
    var scope: Scope
    /** The enclosing scopes, innermost last, restored as blocks close. */
    var saved: seq<Scope>

    constructor ()
      ensures routes == [] && scope == Top && saved == []
    {
      routes, scope, saved := [], Top, [];
    }

    /** `get path, to: to, as: name, <param>: <regex>...` */
    method Get(path: seq<Segment>, to: string, name: Option<string> := None, reqs: Constraints := map[])
      modifies this
      ensures routes == old(routes) + [Entry(old(scope), GET, path, to, name, reqs)]
      ensures scope == old(scope) && saved == old(saved)
    {
      routes := routes + [Entry(scope, GET, path, to, name, reqs)];
    }

    /** `post path, to: to, as: name` */
    method Post(path: seq<Segment>, to: string, name: Option<string> := None)
      modifies this
      ensures routes == old(routes) + [Entry(old(scope), POST, path, to, name, map[])]
      ensures scope == old(scope) && saved == old(saved)
    {
      routes := routes + [Entry(scope, POST, path, to, name, map[])];
    }

    /** The opening of `scope path, as: alias, constraints: cons do`. */
    method BeginScope(path: seq<Segment>, alias: Option<string> := None, cons: Constraints := map[])
      modifies this
      ensures scope == Nest(old(scope), path, alias, cons)
      ensures saved == old(saved) + [old(scope)]
      ensures routes == old(routes)
    {
      saved := saved + [scope];
      scope := Nest(scope, path, alias, cons);
    }

    /** The `end` of a scope block: the enclosing scope is back in force. */
    method EndScope()
      requires saved != []
      modifies this
      ensures scope == old(saved)[|old(saved)| - 1]
      ensures saved == old(saved)[..|old(saved)| - 1]
      ensures routes == old(routes)
    {
      scope := saved[|saved| - 1];
      saved := saved[..|saved| - 1];
    }

    /** `listable(a_z_action, letter_action)` */
    method Listable(aToZ: string, letter: string)
      modifies this
      ensures routes == old(routes) + ListableRoutes(old(scope), aToZ, letter)
      ensures scope == old(scope) && saved == old(saved)
    {
      BeginScope([Lit("a-z")], Some("a_z"));
      Get([], aToZ);
      BeginScope([Param("letter")], Some("letter"));
      Get([], letter);
      EndScope();
      EndScope();
    }

    /** `lookupable(action)` */
    method Lookupable(action: string)
      modifies this
      ensures routes == old(routes) + LookupableRoutes(old(scope), action)
      ensures scope == old(scope) && saved == old(saved)
    {
      Get([Param("letters")], action);
    }

    /** `build_default_routes(route_name, current: true, lookup: true, postcode: true)` */
    method BuildDefaultRoutes(routeName: string, current: bool := true, lookup: bool := true, postcode: bool := true)
      modifies this
      ensures routes == old(routes) + DefaultRoutes(old(scope), routeName, current, lookup, postcode)
      ensures scope == old(scope) && saved == old(saved)
    {
      Get([], Action(routeName, "index"));
      if current {
        Get([Lit("current")], Action(routeName, "current"));
      }
      if lookup {
        Get([Lit("lookup")], Action(routeName, "lookup"));
      }
      if postcode {
        Post([Lit("postcode_lookup")], Action(routeName, "postcode_lookup"), Some("postcode_lookup"));
      }
    }

    /** `build_root_and_current_routes(parent_route_name, route_name)` */
    method BuildRootAndCurrentRoutes(parent: string, routeName: string)
      modifies this
      ensures routes == old(routes) + RootAndCurrentRoutes(old(scope), parent, routeName)
      ensures scope == old(scope) && saved == old(saved)
    {
      BeginScope([Lit(routeName)], Some(routeName));
      Get([], Action(parent, "index"));
      Get([Lit("current")], Action(parent, "current"));
      EndScope();
    }

    /** `build_members_routes(route_name, current:) do ... end` up to its
        `yield`: the standard members routes are appended and the /members
        scope is left open, so that whatever the block registers next lands
        after them and under /members. */
    method BeginMembersRoutes(routeName: string, current: bool := true)
      modifies this
      ensures routes == old(routes) + MembersRoutes(old(scope), routeName, current)
      ensures scope == MembersScope(old(scope))
      ensures saved == old(saved) + [old(scope)]
    {
      BeginScope([Lit("members")], Some("members"));
      Get([], Action(routeName, "index"));
      Listable(Action(routeName, "a_to_z"), Action(routeName, "letters"));
      BeginScope([Lit("current")], Some("current"));
      if current {
        Get([], Action(routeName, "current"));
        Listable(Action(routeName, "a_to_z_current"), Action(routeName, "current_letters"));
      }
      EndScope();
    }

    /** `build_members_routes(route_name, current:)` called without a block. */
    method BuildMembersRoutes(routeName: string, current: bool := true)
      modifies this
      ensures routes == old(routes) + MembersRoutes(old(scope), routeName, current)
      ensures scope == old(scope) && saved == old(saved)
    {
      BeginMembersRoutes(routeName, current);
      EndScope();
    }
  }
}
