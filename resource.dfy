/** Three small sections of the route file: the resource browser, whose
    show page is the one route that accepts a schema name as well as an id,
    the meta pages and the media pages. */
module ResourceSection {
  import opened Validators
  import opened Routing
  import opened Mapper
  import opened Blocks

  /** `scope '/resource', as: 'resource'`: the index, then `scope
      '/:resource_id'` holding the show page under the id-or-schema
      requirement. */
  function Resource(t: seq<Route>): (r: seq<Route>)
    ensures |r| == |t| + 2
  {
    t + [Index(In("resource", "resource"), "resource#index")]
      + [Entry(InParam("resource", "resource", "resource_id"), GET, [], "resource#show", None,
               map["resource_id" := IdOrSchemaFormat])]
  }

  /** GET /resource is the index; GET /resource/<s> is the show page when s
      is an 8-character id or a schema name `schema/<word>`. The requirement
      lets the parameter run across the `/` of a schema name; a request is
      given here as its parameter values, so the schema name is one value. */
  function ResourceAnswer(v: Verb, rest: seq<string>): Option<string> {
    if v != GET then None
    else if rest == [] then Some("resource#index")
    else if |rest| == 1 && (IsId(rest[0]) || IsSchemaName(rest[0])) then Some("resource#show")
    else None
  }

  lemma ResourceServes(t: seq<Route>, v: Verb, q: seq<string>)
    ensures Handler(Resource(t), v, q) ==
            Then(Handler(t, v, q), if |q| > 0 && q[0] == "resource" then ResourceAnswer(v, q[1..]) else None)
  {
    var i := [Index(In("resource", "resource"), "resource#index")];
    HandlerAppend(t, i, v, q);
    IndexServes("resource", "resource", "resource#index", v, q);
    ShowOnto(t + i, "resource", "resource", "resource_id", map["resource_id" := IdOrSchemaFormat],
             "resource#show", v, q);
    if |q| > 0 {
      assert |q| == 2 ==> q[1..] == [q[1]];
    }
  }

  /** A schema name reaches the resource page although it is not an id. */
  lemma SchemaNameReachesResource(t: seq<Route>, word: string)
    requires Handler(t, GET, ["resource", SchemaPrefix + word]) == None
    requires |word| > 0 && AllWordChars(word)
    ensures Handler(Resource(t), GET, ["resource", SchemaPrefix + word]) == Some("resource#show")
    ensures !IsId(SchemaPrefix + word)
  {
    var s := SchemaPrefix + word;
    assert s[..|SchemaPrefix|] == SchemaPrefix && s[|SchemaPrefix|..] == word;
    assert IsSchemaName(s);
    SchemaNameIsNotId(s);
    ResourceServes(t, GET, ["resource", s]);
    assert ["resource", s][1..] == [s];
  }

  /** `scope '/meta', as: 'meta'`: the index and the cookie policy. */
  function Meta(t: seq<Route>): (r: seq<Route>)
    ensures |r| == |t| + 2
  {
    t + [Index(In("meta", "meta"), "meta#index")]
      + [Entry(In("meta", "meta"), GET, [Lit("cookie-policy")], "meta#cookie_policy", None, map[])]
  }

  function MetaAnswer(v: Verb, rest: seq<string>): Option<string> {
    if v != GET then None
    else if rest == [] then Some("meta#index")
    else if rest == ["cookie-policy"] then Some("meta#cookie_policy")
    else None
  }

  lemma MetaServes(t: seq<Route>, v: Verb, q: seq<string>)
    ensures Handler(Meta(t), v, q) ==
            Then(Handler(t, v, q), if |q| > 0 && q[0] == "meta" then MetaAnswer(v, q[1..]) else None)
  {
    var s := In("meta", "meta");
    var i := [Index(s, "meta#index")];
    HandlerAppend(t, i, v, q);
    IndexServes("meta", "meta", "meta#index", v, q);
    HandlerAppend(t + i, [Entry(s, GET, [Lit("cookie-policy")], "meta#cookie_policy", None, map[])], v, q);
    EntryHandler(s, GET, [Lit("cookie-policy")], "meta#cookie_policy", None, v, q);
    WithinIn("meta", "meta", q);
    if |q| > 0 {
      LitPathAccepts("cookie-policy", q[1..], map[]);
    }
  }

  /** `scope '/media', as: 'media'`: the index, then `scope '/:medium_id',
      as: 'show'` holding the id-constrained show page. */
  function Media(t: seq<Route>): (r: seq<Route>)
    ensures |r| == |t| + 2
  {
    t + [Index(In("media", "media"), "media#index")]
      + [Entry(SubParam(In("media", "media"), "medium_id", Some("show")), GET, [], "media#show", None,
               map["medium_id" := IdFormat])]
  }

  function MediaAnswer(v: Verb, rest: seq<string>): Option<string> {
    if v != GET then None
    else if rest == [] then Some("media#index")
    else if |rest| == 1 && IsId(rest[0]) then Some("media#show")
    else None
  }

  lemma MediaServes(t: seq<Route>, v: Verb, q: seq<string>)
    ensures Handler(Media(t), v, q) ==
            Then(Handler(t, v, q), if |q| > 0 && q[0] == "media" then MediaAnswer(v, q[1..]) else None)
  {
    var s := In("media", "media");
    var i := [Index(s, "media#index")];
    HandlerAppend(t, i, v, q);
    IndexServes("media", "media", "media#index", v, q);
    WithinIn("media", "media", q);
    HandlerAppend(t + i, [Entry(SubParam(s, "medium_id", Some("show")), GET, [], "media#show", None,
                                map["medium_id" := IdFormat])], v, q);
    IdShowServes(s, "medium_id", Some("show"), "media#show", v, q);
    if |q| > 0 {
      assert |q| == 2 ==> q[1..] == [q[1]];
    }
  }

  // -----------------------------------------------------------------------
  // Drawing the routes.
  // -----------------------------------------------------------------------

  method DrawResource(rs: RouteSet)
    requires rs.scope == Top
    modifies rs
    ensures rs.routes == Resource(old(rs.routes))
    ensures rs.scope == Top && rs.saved == old(rs.saved)
  {
    rs.BeginScope([Lit("resource")], Some("resource"));
      rs.Get([], "resource#index");
      rs.BeginScope([Param("resource_id")]);
        rs.Get([], "resource#show", reqs := map["resource_id" := IdOrSchemaFormat]);
      rs.EndScope();
    rs.EndScope();
  }

  method DrawMeta(rs: RouteSet)
    requires rs.scope == Top
    modifies rs
    ensures rs.routes == Meta(old(rs.routes))
    ensures rs.scope == Top && rs.saved == old(rs.saved)
  {
    rs.BeginScope([Lit("meta")], Some("meta"));
      rs.Get([], "meta#index");
      rs.Get([Lit("cookie-policy")], "meta#cookie_policy");
    rs.EndScope();
  }

  method DrawMedia(rs: RouteSet)
    requires rs.scope == Top
    modifies rs
    ensures rs.routes == Media(old(rs.routes))
    ensures rs.scope == Top && rs.saved == old(rs.saved)
  {
    rs.BeginScope([Lit("media")], Some("media"));
      rs.Get([], "media#index");
      rs.BeginScope([Param("medium_id")], Some("show"));
        rs.Get([], "media#show", reqs := map["medium_id" := IdFormat]);
      rs.EndScope();
    rs.EndScope();
  }
}
