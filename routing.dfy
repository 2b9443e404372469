/** Route entries, the scope state that `scope ... do ... end` sets up around
    them, and the host router's first-registered-wins recognition of a
    request against the ordered table. The router is not part of the
    repository; it is modelled only as far as is needed to say which handler
    a table sends a request to. */
module Routing {
  import opened Validators

  datatype Option<T> = None | Some(value: T)

  datatype Verb = GET | POST

  /** One segment of a path template: literal text, or a `:name` parameter. */
  datatype Segment = Lit(text: string) | Param(name: string)

  /** A validator attached to a named path parameter: the two segment regexes
      and the paper-type membership test of the `constraints:` lambdas. */
  datatype Validator = IdFormat | IdOrSchemaFormat | PaperType

  type Constraints = map<string, Validator>

  /** What one `get`/`post` call registers: verb, full path template, handler
      string ("controller#action"), the `as:` names of the enclosing scopes,
      the route's own `as:` name, and the validators on its parameters. */
  datatype Route = Route(verb: Verb, path: seq<Segment>, to: string,
                         scope: seq<string>, name: Option<string>,
                         constraints: Constraints)

  /** The ambient state a `scope` block establishes: the path prefix, the
      `as:` name prefix, and the parameter constraints in force. */
  datatype Scope = Scope(path: seq<Segment>, names: seq<string>, constraints: Constraints)

  /** Outside every `scope` block. */
  const Top: Scope := Scope([], [], map[])

  /** The scope in force inside `scope path, as: alias, constraints: cons`
      opened within s. */
  function Nest(s: Scope, path: seq<Segment>, alias: Option<string>, cons: Constraints): Scope {
    Scope(s.path + path, s.names + (if alias.Some? then [alias.value] else []), s.constraints + cons)
  }

  /** The route `get`/`post` registers inside scope s: the template is the
      scope's prefix followed by the call's own path, and the call's segment
      requirements are added to the scope's constraints. */
  function Entry(s: Scope, verb: Verb, path: seq<Segment>, to: string, name: Option<string>, reqs: Constraints): Route {
    Route(verb, s.path + path, to, s.names, name, s.constraints + reqs)
  }

  // ---------------------------------------------------------------------
  // Recognition of a request, given as the sequence of its segment values.
  // ---------------------------------------------------------------------

  /** What an unconstrained `:name` segment accepts: one or more characters,
      none of them `/`, `.` or `?`. */
  predicate DefaultSegment(s: string) {
    |s| > 0 && forall i :: 0 <= i < |s| ==> s[i] != '/' && s[i] != '.' && s[i] != '?'
  }

  predicate Satisfies(v: Validator, s: string) {
    match v
    case IdFormat => IsId(s)
    case IdOrSchemaFormat => IsIdOrSchema(s)
    // the lambda runs on a value the segment has already matched
    case PaperType => DefaultSegment(s) && IsPaperType(s)
  }

  /** Whether one template segment accepts one request segment value. A
      parameter with a validator is matched by the validator alone. */
  predicate Accepts(seg: Segment, s: string, c: Constraints) {
    match seg
    case Lit(t) => s == t
    case Param(n) => if n in c then Satisfies(c[n], s) else DefaultSegment(s)
  }

  /** A schema name `schema/<word>` holds a `/`, so the id-or-schema
      validator is the only thing that accepts it: not an unconstrained
      parameter, not the id validator, not the paper-type test. */
  lemma SchemaNameNeedsIdOrSchema(x: string, seg: Segment, c: Constraints)
    requires IsSchemaName(x)
    ensures !DefaultSegment(x) && !IsId(x) && !IsPaperType(x)
    ensures forall w :: Satisfies(w, x) <==> w == IdOrSchemaFormat
    ensures seg.Param? ==> (Accepts(seg, x, c) <==> seg.name in c && c[seg.name] == IdOrSchemaFormat)
  {
    assert x[6] == x[..|SchemaPrefix|][6] == '/';
    SchemaNameIsNotId(x);
  }

  /** A route whose literal segments are plain words matches a request
      holding a schema name only where its template has a parameter under
      the id-or-schema validator. */
  lemma SchemaNameOnlyByIdOrSchema(r: Route, v: Verb, q: seq<string>, i: nat)
    requires forall k :: 0 <= k < |r.path| && r.path[k].Lit? ==> DefaultSegment(r.path[k].text)
    requires Matches(r, v, q) && i < |q| && IsSchemaName(q[i])
    ensures r.path[i].Param? && r.path[i].name in r.constraints
    ensures r.constraints[r.path[i].name] == IdOrSchemaFormat
  {
    SchemaNameNeedsIdOrSchema(q[i], r.path[i], r.constraints);
    assert Accepts(r.path[i], q[i], r.constraints);
  }

  predicate PathAccepts(p: seq<Segment>, q: seq<string>, c: Constraints) {
    |p| == |q| && forall i :: 0 <= i < |p| ==> Accepts(p[i], q[i], c)
  }

  predicate Matches(r: Route, v: Verb, q: seq<string>) {
    r.verb == v && PathAccepts(r.path, q, r.constraints)
  }

  /** The position of the first registered route that matches the request:
      the router tries routes in registration order and the first match wins. */
  function FirstMatch(t: seq<Route>, v: Verb, q: seq<string>): (k: Option<nat>)
    ensures k.Some? ==> k.value < |t| && Matches(t[k.value], v, q)
    ensures k.Some? ==> forall j :: 0 <= j < k.value ==> !Matches(t[j], v, q)
    ensures k.None? ==> forall j :: 0 <= j < |t| ==> !Matches(t[j], v, q)
  {
    if t == [] then None
    else if Matches(t[0], v, q) then Some(0)
    else match FirstMatch(t[1..], v, q)
      case None => None
      case Some(k) => Some(k + 1)
  }

  /** The handler string of the route that answers the request, if any. */
  function Handler(t: seq<Route>, v: Verb, q: seq<string>): Option<string> {
    match FirstMatch(t, v, q)
    case None => None
    case Some(k) => Some(t[k].to)
  }

  /** First the left answer, and the right one only when there is none. */
  function Then(a: Option<string>, b: Option<string>): Option<string> {
    if a.Some? then a else b
  }

  // ---------------------------------------------------------------------
  // Lemmas about recognition.
  // ---------------------------------------------------------------------

  /** The first-match characterisation determines FirstMatch. */
  lemma FirstMatchIs(t: seq<Route>, v: Verb, q: seq<string>, k: nat)
    requires k < |t| && Matches(t[k], v, q)
    requires forall j :: 0 <= j < k ==> !Matches(t[j], v, q)
    ensures FirstMatch(t, v, q) == Some(k)
  {
  }

  /** Registering more routes never changes the answer to a request the
      table already answers, and a request it does not answer goes to the
      new routes. */
  lemma HandlerAppend(t: seq<Route>, u: seq<Route>, v: Verb, q: seq<string>)
    ensures Handler(t + u, v, q) == Then(Handler(t, v, q), Handler(u, v, q))
  {
    var tu := t + u;
    match FirstMatch(t, v, q)
    case Some(k) =>
      FirstMatchIs(tu, v, q, k);
    case None =>
      match FirstMatch(u, v, q)
      case Some(k) =>
        assert tu[|t| + k] == u[k];
        forall j | 0 <= j < |t| + k ensures !Matches(tu[j], v, q) {
          if j < |t| { assert tu[j] == t[j]; } else { assert tu[j] == u[j - |t|]; }
        }
        FirstMatchIs(tu, v, q, |t| + k);
      case None =>
        forall j | 0 <= j < |tu| ensures !Matches(tu[j], v, q) {
          if j < |t| { assert tu[j] == t[j]; } else { assert tu[j] == u[j - |t|]; }
        }
  }

  /** A table none of whose routes match answers nothing. */
  lemma HandlerNone(t: seq<Route>, v: Verb, q: seq<string>)
    requires forall r :: r in t ==> !Matches(r, v, q)
    ensures Handler(t, v, q) == None
  {
  }

  lemma HandlerSingle(r: Route, v: Verb, q: seq<string>)
    ensures Handler([r], v, q) == if Matches(r, v, q) then Some(r.to) else None
  {
  }

  // ---------------------------------------------------------------------
  // Requests inside a scope.
  // ---------------------------------------------------------------------

  /** The request begins with segment values the scope's prefix accepts. */
  predicate Within(s: Scope, q: seq<string>) {
    |s.path| <= |q| && PathAccepts(s.path, q[..|s.path|], s.constraints)
  }

  /** The request goes on past the scope's prefix: it is inside the scope
      and has at least one more segment. */
  predicate Deeper(s: Scope, q: seq<string>) {
    Within(s, q) && |q| > |s.path|
  }

  /** Matching a concatenated template is matching each part against the
      corresponding part of the request. */
  lemma PathAcceptsSplit(p1: seq<Segment>, p2: seq<Segment>, q: seq<string>, c: Constraints)
    requires |p1| <= |q|
    ensures PathAccepts(p1 + p2, q, c) <==> PathAccepts(p1, q[..|p1|], c) && PathAccepts(p2, q[|p1|..], c)
  {
    var p := p1 + p2;
    if PathAccepts(p, q, c) {
      forall i | 0 <= i < |p1| ensures Accepts(p1[i], q[..|p1|][i], c) {
        assert p[i] == p1[i];
      }
      forall i | 0 <= i < |p2| ensures Accepts(p2[i], q[|p1|..][i], c) {
        assert p[|p1| + i] == p2[i];
      }
    }
    if PathAccepts(p1, q[..|p1|], c) && PathAccepts(p2, q[|p1|..], c) {
      forall i | 0 <= i < |p| ensures Accepts(p[i], q[i], c) {
        if i < |p1| {
          assert q[..|p1|][i] == q[i];
        } else {
          assert q[|p1|..][i - |p1|] == q[i];
        }
      }
    }
  }

  /** A route registered in scope s with no requirements of its own matches
      exactly the requests inside s whose remaining segments its own path
      accepts. */
  lemma EntryMatches(s: Scope, verb: Verb, path: seq<Segment>, to: string, name: Option<string>,
                     v: Verb, q: seq<string>)
    ensures Matches(Entry(s, verb, path, to, name, map[]), v, q) <==>
            v == verb && Within(s, q) && PathAccepts(path, q[|s.path|..], s.constraints)
  {
    var e := Entry(s, verb, path, to, name, map[]);
    assert e.constraints == s.constraints;
    if |s.path| <= |q| {
      PathAcceptsSplit(s.path, path, q, s.constraints);
    }
  }

  /** A request is inside a nested scope when it is inside the outer one and
      its next segments are accepted by the nested scope's own path. */
  lemma WithinNest(s: Scope, path: seq<Segment>, alias: Option<string>, q: seq<string>)
    ensures Within(Nest(s, path, alias, map[]), q) <==>
            Within(s, q) && |s.path| + |path| <= |q| &&
            PathAccepts(path, q[|s.path|..|s.path| + |path|], s.constraints)
  {
    var n := Nest(s, path, alias, map[]);
    assert n.constraints == s.constraints;
    if |s.path| + |path| <= |q| {
      var q' := q[..|s.path| + |path|];
      PathAcceptsSplit(s.path, path, q', s.constraints);
      assert q'[..|s.path|] == q[..|s.path|];
      assert q'[|s.path|..] == q[|s.path|..|s.path| + |path|];
    }
  }

  lemma EmptyPathAccepts(r: seq<string>, c: Constraints)
    ensures PathAccepts([], r, c) <==> r == []
  {
  }

  lemma LitPathAccepts(x: string, r: seq<string>, c: Constraints)
    ensures PathAccepts([Lit(x)], r, c) <==> r == [x]
  {
    if r == [x] {
      assert Accepts(Lit(x), r[0], c);
    }
  }

  lemma ParamPathAccepts(n: string, r: seq<string>, c: Constraints)
    ensures PathAccepts([Param(n)], r, c) <==> |r| == 1 && Accepts(Param(n), r[0], c)
  {
  }

  lemma Path2Accepts(a: Segment, b: Segment, r: seq<string>, c: Constraints)
    ensures PathAccepts([a, b], r, c) <==> |r| == 2 && Accepts(a, r[0], c) && Accepts(b, r[1], c)
  {
  }

  lemma Path3Accepts(a: Segment, b: Segment, d: Segment, r: seq<string>, c: Constraints)
    ensures PathAccepts([a, b, d], r, c) <==> |r| == 3 && Accepts(a, r[0], c) && Accepts(b, r[1], c) && Accepts(d, r[2], c)
  {
  }

  /** A table of one route registered in scope s without requirements of its
      own answers exactly the requests inside s whose remaining segments the
      route's own path accepts. */
  lemma EntryHandler(s: Scope, verb: Verb, path: seq<Segment>, to: string, name: Option<string>,
                     v: Verb, q: seq<string>)
    ensures Handler([Entry(s, verb, path, to, name, map[])], v, q) ==
            if v == verb && Within(s, q) && PathAccepts(path, q[|s.path|..], s.constraints) then Some(to) else None
  {
    EntryMatches(s, verb, path, to, name, v, q);
    HandlerSingle(Entry(s, verb, path, to, name, map[]), v, q);
  }
}
