/** The vocabulary the route file is written in: the scopes its `scope`
    blocks open and the single `get '/'` routes that most of them hold,
    with lemmas saying which requests such a route answers. */
module Blocks {
  import opened Validators
  import opened Routing
  import opened Mapper

  /** The scope of `scope '/x', as: alias do` at the top level. */
  function In(x: string, alias: string): Scope {
    Nest(Top, [Lit(x)], Some(alias), map[])
  }

  /** The scope of `scope '/:n' do` inside `scope '/x', as: alias do`. */
  function InParam(x: string, alias: string, n: string): Scope {
    Nest(In(x, alias), [Param(n)], None, map[])
  }

  /** The scope of `scope '/seg', as: alias do` inside s. */
  function Sub(s: Scope, seg: string, alias: string): Scope {
    Nest(s, [Lit(seg)], Some(alias), map[])
  }

  /** `get '/', to: to` inside s. */
  function Index(s: Scope, to: string): Route {
    Entry(s, GET, [], to, None, map[])
  }

  lemma WithinIn(x: string, alias: string, q: seq<string>)
    ensures In(x, alias).path == [Lit(x)] && In(x, alias).constraints == map[]
    ensures Within(In(x, alias), q) <==> |q| > 0 && q[0] == x
  {
    var s := In(x, alias);
    assert s.path == [Lit(x)];
    if |q| > 0 {
      LitPathAccepts(x, q[..1], map[]);
    }
  }

  lemma WithinInParam(x: string, alias: string, n: string, q: seq<string>)
    ensures InParam(x, alias, n).path == [Lit(x), Param(n)] && InParam(x, alias, n).constraints == map[]
    ensures Within(InParam(x, alias, n), q) <==> |q| > 1 && q[0] == x && DefaultSegment(q[1])
  {
    var s := InParam(x, alias, n);
    assert s.path == [Lit(x), Param(n)];
    WithinIn(x, alias, q);
    WithinNest(In(x, alias), [Param(n)], None, q);
    if |q| > 1 {
      ParamPathAccepts(n, q[1..2], map[]);
    }
  }

  /** A request is inside `scope '/seg'` opened in s exactly when it goes on
      past s's prefix with the segment seg. */
  lemma SubWithin(s: Scope, seg: string, alias: string, q: seq<string>)
    ensures |Sub(s, seg, alias).path| == |s.path| + 1 && Sub(s, seg, alias).constraints == s.constraints
    ensures Within(Sub(s, seg, alias), q) <==> Deeper(s, q) && q[|s.path|] == seg
    ensures Deeper(Sub(s, seg, alias), q) ==> Deeper(s, q)
  {
    WithinNest(s, [Lit(seg)], Some(alias), q);
    if |s.path| + 1 <= |q| {
      LitPathAccepts(seg, q[|s.path|..|s.path| + 1], s.constraints);
    }
  }

  /** `get '/'` in scope n answers GET requests that stop exactly at n's
      prefix. */
  lemma IndexHandler(n: Scope, to: string, v: Verb, q: seq<string>)
    ensures Handler([Index(n, to)], v, q) ==
            if v == GET && Within(n, q) && |q| == |n.path| then Some(to) else None
  {
    EntryHandler(n, GET, [], to, None, v, q);
    if |n.path| <= |q| {
      EmptyPathAccepts(q[|n.path|..], n.constraints);
    }
  }

  /** A route with a non-empty path of its own registered in s, after the
      routes t, leaves every request that does not go on past s to t. */
  lemma EntryPass(t: seq<Route>, s: Scope, verb: Verb, path: seq<Segment>, to: string, name: Option<string>,
                  v: Verb, q: seq<string>)
    requires |path| > 0 && !Deeper(s, q)
    ensures Handler(t + [Entry(s, verb, path, to, name, map[])], v, q) == Handler(t, v, q)
  {
    HandlerAppend(t, [Entry(s, verb, path, to, name, map[])], v, q);
    EntryHandler(s, verb, path, to, name, v, q);
  }

  /** A route registered outside every scope, after the routes t, answers
      the requests its template accepts that t leaves unanswered. */
  lemma TopEntry(t: seq<Route>, verb: Verb, path: seq<Segment>, to: string, name: Option<string>, reqs: Constraints,
                 v: Verb, q: seq<string>)
    ensures Handler(t + [Entry(Top, verb, path, to, name, reqs)], v, q) ==
            Then(Handler(t, v, q), if v == verb && PathAccepts(path, q, reqs) then Some(to) else None)
  {
    var e := Entry(Top, verb, path, to, name, reqs);
    assert e.path == path;
    assert e.constraints == reqs;
    HandlerAppend(t, [e], v, q);
    HandlerSingle(e, v, q);
  }

  /** `get '/'` in `scope '/x'` answers GET /x only. */
  lemma IndexServes(x: string, alias: string, to: string, v: Verb, q: seq<string>)
    ensures Handler([Index(In(x, alias), to)], v, q) == if v == GET && q == [x] then Some(to) else None
  {
    EntryHandler(In(x, alias), GET, [], to, None, v, q);
    WithinIn(x, alias, q);
    if |q| > 0 {
      EmptyPathAccepts(q[1..], map[]);
      assert q == [x] <==> q[0] == x && |q| == 1;
    }
  }

  /** `get '/'` in `scope '/seg'` in `scope '/x'` answers GET /x/seg only. */
  lemma SubIndexServes(x: string, alias: string, seg: string, alias2: string, to: string, v: Verb, q: seq<string>)
    ensures Handler([Index(Sub(In(x, alias), seg, alias2), to)], v, q) ==
            if v == GET && q == [x, seg] then Some(to) else None
  {
    var s := Sub(In(x, alias), seg, alias2);
    var e := Index(s, to);
    assert e.path == [Lit(x), Lit(seg)] && e.constraints == map[];
    HandlerSingle(e, v, q);
    if |q| == 2 && PathAccepts(e.path, q, e.constraints) {
      assert Accepts(e.path[0], q[0], e.constraints) && Accepts(e.path[1], q[1], e.constraints);
    }
  }

  /** `get '/', <requirements>` in `scope '/:n'` in `scope '/x'` answers
      GET /x/<s> exactly when the parameter, under those requirements,
      accepts s. */
  lemma ShowServes(x: string, alias: string, n: string, reqs: Constraints, to: string, v: Verb, q: seq<string>)
    ensures Handler([Entry(InParam(x, alias, n), GET, [], to, None, reqs)], v, q) ==
            if v == GET && |q| == 2 && q[0] == x && Accepts(Param(n), q[1], reqs) then Some(to) else None
  {
    var e := Entry(InParam(x, alias, n), GET, [], to, None, reqs);
    WithinInParam(x, alias, n, q);
    assert e.path == [Lit(x), Param(n)];
    assert e.constraints == reqs;
    HandlerSingle(e, v, q);
    if |q| == 2 && PathAccepts(e.path, q, e.constraints) {
      assert Accepts(e.path[0], q[0], e.constraints) && Accepts(e.path[1], q[1], e.constraints);
    }
  }

  /** The id requirement on `:n`: the segment must be an 8-character id. */
  lemma IdAccepts(n: string, s: string)
    ensures Accepts(Param(n), s, map[n := IdFormat]) <==> IsId(s)
  {
  }

  /** The show route of `scope '/x', as: alias do scope '/:n' do get '/',
      <requirements> ...`, registered after t. */
  lemma ShowOnto(t: seq<Route>, x: string, alias: string, n: string, reqs: Constraints, to: string,
                 v: Verb, q: seq<string>)
    ensures Handler(t + [Entry(InParam(x, alias, n), GET, [], to, None, reqs)], v, q) ==
            Then(Handler(t, v, q),
                 if v == GET && |q| == 2 && q[0] == x && Accepts(Param(n), q[1], reqs) then Some(to) else None)
  {
    HandlerAppend(t, [Entry(InParam(x, alias, n), GET, [], to, None, reqs)], v, q);
    ShowServes(x, alias, n, reqs, to, v, q);
  }

  /** `lookupable(action)` directly inside `scope '/x'`, registered after t:
      it answers GET /x/<s> for any segment s the default parameter accepts. */
  lemma LookupableOnto(t: seq<Route>, x: string, alias: string, action: string, v: Verb, q: seq<string>)
    ensures Handler(t + LookupableRoutes(In(x, alias), action), v, q) ==
            Then(Handler(t, v, q),
                 if v == GET && |q| == 2 && q[0] == x && DefaultSegment(q[1]) then Some(action) else None)
  {
    HandlerAppend(t, LookupableRoutes(In(x, alias), action), v, q);
    LookupableServes(In(x, alias), action, v, q);
    WithinIn(x, alias, q);
  }

  /** The recurring shape `scope '/x', as: alias do scope '/:n' do get '/',
      n: id_format_regex; <pages> end; lookupable(...) end`, registered after
      t, when the pages answer only requests that go on past the id: an id
      reaches the show page, the pages answer below it, and any other single
      segment reaches the lookup by letters. */
  lemma ShowPagesLookup(t: seq<Route>, x: string, alias: string, n: string, showTo: string,
                        pages: seq<Route>, lookTo: string, v: Verb, q: seq<string>)
    requires Deeper(InParam(x, alias, n), q) || Handler(pages, v, q) == None
    ensures Handler(t + [Entry(InParam(x, alias, n), GET, [], showTo, None, map[n := IdFormat])] + pages
                      + LookupableRoutes(In(x, alias), lookTo), v, q) ==
            Then(Handler(t, v, q),
                 if v == GET && |q| == 2 && q[0] == x && IsId(q[1]) then Some(showTo)
                 else if Deeper(InParam(x, alias, n), q) then Handler(pages, v, q)
                 else if v == GET && |q| == 2 && q[0] == x && DefaultSegment(q[1]) then Some(lookTo)
                 else None)
  {
    var show := [Entry(InParam(x, alias, n), GET, [], showTo, None, map[n := IdFormat])];
    WithinInParam(x, alias, n, q);
    ShowOnto(t, x, alias, n, map[n := IdFormat], showTo, v, q);
    IdAccepts(n, if |q| == 2 then q[1] else "");
    HandlerAppend(t + show, pages, v, q);
    LookupableOnto(t + show + pages, x, alias, lookTo, v, q);
  }

  /** The scope of `scope '/:n', as: alias do` inside s. */
  function SubParam(s: Scope, n: string, alias: Option<string>): Scope {
    Nest(s, [Param(n)], alias, map[])
  }

  /** A request is inside `scope '/:n'` opened in s exactly when it goes on
      past s's prefix with a segment the parameter accepts. */
  lemma SubParamWithin(s: Scope, n: string, alias: Option<string>, q: seq<string>)
    ensures |SubParam(s, n, alias).path| == |s.path| + 1 && SubParam(s, n, alias).constraints == s.constraints
    ensures Within(SubParam(s, n, alias), q) <==> Deeper(s, q) && Accepts(Param(n), q[|s.path|], s.constraints)
    ensures Deeper(SubParam(s, n, alias), q) ==> Deeper(s, q)
  {
    WithinNest(s, [Param(n)], alias, q);
    if |s.path| + 1 <= |q| {
      ParamPathAccepts(n, q[|s.path|..|s.path| + 1], s.constraints);
    }
  }

  /** Adding a requirement on a parameter the template does not hold changes
      nothing the template accepts. */
  lemma ExtraRequirement(p: seq<Segment>, r: seq<string>, n: string, val: Validator)
    requires Param(n) !in p
    ensures PathAccepts(p, r, map[n := val]) <==> PathAccepts(p, r, map[])
  {
    if |p| == |r| {
      forall i | 0 <= i < |p| ensures Accepts(p[i], r[i], map[n := val]) == Accepts(p[i], r[i], map[]) {
        assert p[i] != Param(n);
      }
    }
  }

  /** The scope of `scope '/:n', constraints: <val> do` inside s: the
      constraint holds for every route registered in the block. */
  function SubParamWith(s: Scope, n: string, val: Validator): Scope {
    Nest(s, [Param(n)], None, map[n := val])
  }

  /** A request is inside a constrained `scope '/:n'` opened in s exactly
      when it goes on past s's prefix with a segment the validator accepts. */
  lemma SubParamWithWithin(s: Scope, n: string, val: Validator, q: seq<string>)
    requires s.constraints == map[] && Param(n) !in s.path
    ensures SubParamWith(s, n, val).path == s.path + [Param(n)]
    ensures SubParamWith(s, n, val).constraints == map[n := val]
    ensures Within(SubParamWith(s, n, val), q) <==> Deeper(s, q) && Satisfies(val, q[|s.path|])
    ensures Deeper(SubParamWith(s, n, val), q) ==> Deeper(s, q)
  {
    var k := |s.path|;
    var c := SubParamWith(s, n, val);
    assert c.constraints == map[n := val];
    if k + 1 <= |q| {
      var q' := q[..k + 1];
      PathAcceptsSplit(s.path, [Param(n)], q', map[n := val]);
      assert q'[..k] == q[..k];
      ExtraRequirement(s.path, q[..k], n, val);
      ParamPathAccepts(n, q'[k..], map[n := val]);
      assert q'[k..][0] == q[k];
    }
  }

  /** `get '/', n: id_format_regex` in `scope '/:n'` opened in s answers the
      GET requests one segment past s's prefix whose last segment is an id. */
  lemma IdShowServes(s: Scope, n: string, alias: Option<string>, to: string, v: Verb, q: seq<string>)
    requires s.constraints == map[] && Param(n) !in s.path
    ensures Handler([Entry(SubParam(s, n, alias), GET, [], to, None, map[n := IdFormat])], v, q) ==
            if v == GET && Within(s, q) && |q| == |s.path| + 1 && IsId(q[|s.path|]) then Some(to) else None
  {
    var k := |s.path|;
    var e := Entry(SubParam(s, n, alias), GET, [], to, None, map[n := IdFormat]);
    assert e.path == s.path + [Param(n)] && e.constraints == map[n := IdFormat];
    HandlerSingle(e, v, q);
    if |q| == k + 1 {
      PathAcceptsSplit(s.path, [Param(n)], q, map[n := IdFormat]);
      ExtraRequirement(s.path, q[..k], n, IdFormat);
      ParamPathAccepts(n, q[k..], map[n := IdFormat]);
      IdAccepts(n, q[k]);
    }
  }

  /** The recurring pair `scope '/seg', as: plural do get '/' end` and
      `scope '/seg', as: singular do scope '/:n' do get '/', n:
      id_format_regex; <children> end end` inside s, when the children
      answer only requests that go on past the id. */
  lemma IndexShowChildren(s: Scope, seg: string, plural: string, singular: string, n: string,
                          indexTo: string, showTo: string, children: seq<Route>, v: Verb, q: seq<string>)
    requires s.constraints == map[] && Param(n) !in s.path
    requires Deeper(SubParam(Sub(s, seg, singular), n, None), q) || Handler(children, v, q) == None
    ensures Handler([Index(Sub(s, seg, plural), indexTo)]
                    + [Entry(SubParam(Sub(s, seg, singular), n, None), GET, [], showTo, None, map[n := IdFormat])]
                    + children, v, q) ==
      var k := |s.path|;
      if v == GET && Deeper(s, q) && q[k] == seg && |q| == k + 1 then Some(indexTo)
      else if v == GET && Deeper(s, q) && q[k] == seg && |q| == k + 2 && IsId(q[k + 1]) then Some(showTo)
      else if Deeper(SubParam(Sub(s, seg, singular), n, None), q) then Handler(children, v, q)
      else None
  {
    var ps := Sub(s, seg, singular);
    var a := [Index(Sub(s, seg, plural), indexTo)];
    var b := [Entry(SubParam(ps, n, None), GET, [], showTo, None, map[n := IdFormat])];
    SubWithin(s, seg, plural, q);
    SubWithin(s, seg, singular, q);
    SubParamWithin(ps, n, None, q);
    assert ps.path == s.path + [Lit(seg)];
    HandlerAppend(a, b, v, q);
    HandlerAppend(a + b, children, v, q);
    IndexHandler(Sub(s, seg, plural), indexTo, v, q);
    IdShowServes(ps, n, None, showTo, v, q);
  }

  /** `scope '/x', as: alias do scope '/:n' do get '/', n: id_format_regex;
      <pages> end end`, registered after t, when the pages answer only
      requests that go on past the id. */
  lemma ShowPages(t: seq<Route>, x: string, alias: string, n: string, showTo: string,
                  pages: seq<Route>, v: Verb, q: seq<string>)
    requires Deeper(InParam(x, alias, n), q) || Handler(pages, v, q) == None
    ensures Handler(t + [Entry(InParam(x, alias, n), GET, [], showTo, None, map[n := IdFormat])] + pages, v, q) ==
            Then(Handler(t, v, q),
                 if v == GET && |q| == 2 && q[0] == x && IsId(q[1]) then Some(showTo)
                 else if Deeper(InParam(x, alias, n), q) then Handler(pages, v, q)
                 else None)
  {
    var show := [Entry(InParam(x, alias, n), GET, [], showTo, None, map[n := IdFormat])];
    WithinInParam(x, alias, n, q);
    ShowOnto(t, x, alias, n, map[n := IdFormat], showTo, v, q);
    IdAccepts(n, if |q| == 2 then q[1] else "");
    HandlerAppend(t + show, pages, v, q);
  }
}
