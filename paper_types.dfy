/** The paper-type pages, which the route file writes twice (under a group's
    laid papers and under work packages): an index of paper types, then a
    page per paper type inside a scope whose constraint admits only the
    three known slugs, optionally with a `current` page below it. */
module PaperTypeScopes {
  import opened Validators
  import opened Routing
  import opened Mapper
  import opened Blocks

  /** `scope '/paper-types', as: 'paper_type' do scope '/:paper_type',
      constraints: <paper types include the value> do` inside s. */
  function PaperTypeScope(s: Scope): Scope {
    SubParamWith(Sub(s, "paper-types", "paper_type"), "paper_type", PaperType)
  }

  /** The index in `scope '/paper-types', as: 'paper_types'`, the page in the
      constrained scope and, when `current`, the page of
      `scope '/current'` inside it, all with the handlers of `controller`. */
  function PaperTypeRoutes(s: Scope, controller: string, current: bool): (r: seq<Route>)
    ensures |r| == 2 + Count(current)
  {
    var pt := PaperTypeScope(s);
    [Index(Sub(s, "paper-types", "paper_types"), Action(controller, "index"))]
      + [Index(pt, Action(controller, "show"))]
      + (if current then [Index(Sub(pt, "current", "current"), Action(controller, "current"))] else [])
  }

  /** Where a GET below `paper-types` goes: the index, then a page only for
      one of the three paper types, and its `current` page when drawn. */
  function PaperTypeAnswer(controller: string, current: bool, rest: seq<string>): Option<string> {
    if rest == [] then Some(Action(controller, "index"))
    else if !IsPaperType(rest[0]) then None
    else if |rest| == 1 then Some(Action(controller, "show"))
    else if current && rest[1..] == ["current"] then Some(Action(controller, "current"))
    else None
  }

  /** The constraint's test: a value that is one of the paper types is also
      a value the parameter accepts, so the constraint decides alone. */
  lemma PaperTypeSegment(x: string)
    ensures Satisfies(PaperType, x) <==> IsPaperType(x)
  {
    if x == "statutory-instruments" {
      assert DefaultSegment(x);
    } else if x == "proposed-negative-statutory-instruments" {
      assert DefaultSegment(x);
    } else if x == "treaties" {
      assert DefaultSegment(x);
    }
  }

  /** The scope's constraint covers every route drawn inside it: the page and
      the `current` page below it both carry it, the index outside does not. */
  lemma PaperTypeConstraintCovers(s: Scope, controller: string, current: bool)
    requires s.constraints == map[] && Param("paper_type") !in s.path
    ensures PaperTypeRoutes(s, controller, current)[0].constraints == map[]
    ensures forall i :: 1 <= i < |PaperTypeRoutes(s, controller, current)| ==>
              PaperTypeRoutes(s, controller, current)[i].constraints == map["paper_type" := PaperType]
  {
    var b := Sub(s, "paper-types", "paper_type");
    SubWithin(s, "paper-types", "paper_type", []);
    SubWithin(s, "paper-types", "paper_types", []);
    assert b.path == s.path + [Lit("paper-types")];
    SubParamWithWithin(b, "paper_type", PaperType, []);
    SubWithin(PaperTypeScope(s), "current", "current", []);
  }

  /** The block answers GET requests below <prefix>/paper-types as
      PaperTypeAnswer says, and nothing else: a value that is not a paper
      type reaches neither the page nor its `current` page. */
  lemma PaperTypeServes(s: Scope, controller: string, current: bool, v: Verb, q: seq<string>)
    requires s.constraints == map[] && Param("paper_type") !in s.path
    ensures Handler(PaperTypeRoutes(s, controller, current), v, q) ==
            if v == GET && Deeper(s, q) && q[|s.path|] == "paper-types" then
              PaperTypeAnswer(controller, current, q[|s.path| + 1..])
            else None
  {
    var k := |s.path|;
    var a := Sub(s, "paper-types", "paper_types");
    var b := Sub(s, "paper-types", "paper_type");
    var pt := PaperTypeScope(s);
    var i := [Index(a, Action(controller, "index"))];
    var j := [Index(pt, Action(controller, "show"))];
    var c := if current then [Index(Sub(pt, "current", "current"), Action(controller, "current"))] else [];
    SubWithin(s, "paper-types", "paper_types", q);
    SubWithin(s, "paper-types", "paper_type", q);
    assert b.path == s.path + [Lit("paper-types")];
    SubParamWithWithin(b, "paper_type", PaperType, q);
    SubWithin(pt, "current", "current", q);
    HandlerAppend(i, j, v, q);
    HandlerAppend(i + j, c, v, q);
    IndexHandler(a, Action(controller, "index"), v, q);
    IndexHandler(pt, Action(controller, "show"), v, q);
    IndexHandler(Sub(pt, "current", "current"), Action(controller, "current"), v, q);
    if |q| > k + 1 {
      PaperTypeSegment(q[k + 1]);
      var rest := q[k + 1..];
      assert rest[0] == q[k + 1];
      assert |rest| > 1 ==> (rest[1..] == ["current"] <==> |q| == k + 3 && q[k + 2] == "current");
    }
  }

  method DrawPaperTypeRoutes(rs: RouteSet, controller: string, current: bool)
    modifies rs
    ensures rs.routes == old(rs.routes) + PaperTypeRoutes(old(rs.scope), controller, current)
    ensures rs.scope == old(rs.scope) && rs.saved == old(rs.saved)
  {
    rs.BeginScope([Lit("paper-types")], Some("paper_types"));
      rs.Get([], Action(controller, "index"));
    rs.EndScope();
    rs.BeginScope([Lit("paper-types")], Some("paper_type"));
      rs.BeginScope([Param("paper_type")], cons := map["paper_type" := PaperType]);
        rs.Get([], Action(controller, "show"));
        if current {
          rs.BeginScope([Lit("current")], Some("current"));
            rs.Get([], Action(controller, "current"));
          rs.EndScope();
        }
      rs.EndScope();
    rs.EndScope();
  }
}
