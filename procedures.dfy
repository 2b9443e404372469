/** The procedure sections of the route file: procedure steps, work
    packages, procedures and laid papers. Procedure steps and procedures are
    drawn alike: an index, then the page of one (its parameter is
    unconstrained) with its work packages and their current page. Work
    packages register their fixed pages and the paper-type pages before the
    scope of one work package. */
module ProceduresSection {
  import opened Validators
  import opened Routing
  import opened Mapper
  import opened Blocks
  import opened PaperTypeScopes

  /** `scope '/<x>', as: plural do get '/' end`, then `scope '/<x>', as:
      singular do scope '/:<id>' do get '/'; scope '/work-packages' do get
      '/'; scope '/current' do get '/' end end end end`. */
  function OwnerScopes(t: seq<Route>, x: string, plural: string, singular: string, id: string): (r: seq<Route>)
    ensures |r| == |t| + 4
  {
    var p := InParam(x, singular, id);
    var w := Sub(p, "work-packages", "work_packages");
    t + [Index(In(x, plural), Action(plural, "index"))]
      + [Index(p, Action(plural, "show"))]
      + [Index(w, Action(plural + "/work_packages", "index"))]
      + [Index(Sub(w, "current", "current"), Action(plural + "/work_packages", "current"))]
  }

  function ProcedureSteps(t: seq<Route>): (r: seq<Route>)
    ensures |r| == |t| + 4
  {
    OwnerScopes(t, "procedure-steps", "procedure_steps", "procedure_step", "procedure_step_id")
  }

  function Procedures(t: seq<Route>): (r: seq<Route>)
    ensures |r| == |t| + 4
  {
    OwnerScopes(t, "procedures", "procedures", "procedure", "procedure_id")
  }

  /** Where a GET below /<x> goes: the index, any single segment to the page
      of one, and below it the work packages and the current ones. */
  function OwnerAnswer(plural: string, v: Verb, rest: seq<string>): Option<string> {
    if v != GET then None
    else if rest == [] then Some(Action(plural, "index"))
    else if !DefaultSegment(rest[0]) then None
    else if |rest| == 1 then Some(Action(plural, "show"))
    else if rest[1..] == ["work-packages"] then Some(Action(plural + "/work_packages", "index"))
    else if rest[1..] == ["work-packages", "current"] then Some(Action(plural + "/work_packages", "current"))
    else None
  }

  lemma OwnerPagesServe(p: Scope, plural: string, v: Verb, q: seq<string>)
    requires p.constraints == map[]
    ensures Handler([Index(p, Action(plural, "show"))]
                    + [Index(Sub(p, "work-packages", "work_packages"), Action(plural + "/work_packages", "index"))]
                    + [Index(Sub(Sub(p, "work-packages", "work_packages"), "current", "current"),
                             Action(plural + "/work_packages", "current"))], v, q) ==
            if v != GET || !Within(p, q) then None
            else if |q| == |p.path| then Some(Action(plural, "show"))
            else if q[|p.path|..] == ["work-packages"] then Some(Action(plural + "/work_packages", "index"))
            else if q[|p.path|..] == ["work-packages", "current"] then Some(Action(plural + "/work_packages", "current"))
            else None
  {
    var k := |p.path|;
    var w := Sub(p, "work-packages", "work_packages");
    var a := [Index(p, Action(plural, "show"))];
    var b := [Index(w, Action(plural + "/work_packages", "index"))];
    var c := [Index(Sub(w, "current", "current"), Action(plural + "/work_packages", "current"))];
    SubWithin(p, "work-packages", "work_packages", q);
    SubWithin(w, "current", "current", q);
    HandlerAppend(a, b, v, q);
    HandlerAppend(a + b, c, v, q);
    IndexHandler(p, Action(plural, "show"), v, q);
    IndexHandler(w, Action(plural + "/work_packages", "index"), v, q);
    IndexHandler(Sub(w, "current", "current"), Action(plural + "/work_packages", "current"), v, q);
    if |q| > k {
      assert q[k..] == ["work-packages"] <==> |q| == k + 1 && q[k] == "work-packages";
      assert q[k..] == ["work-packages", "current"] <==> |q| == k + 2 && q[k] == "work-packages" && q[k + 1] == "current";
    }
  }

  /** The pair of scopes answers exactly what OwnerAnswer says below /<x>,
      nothing elsewhere, and leaves the rest to the routes before it. */
  lemma OwnerScopesServe(t: seq<Route>, x: string, plural: string, singular: string, id: string,
                         v: Verb, q: seq<string>)
    ensures Handler(OwnerScopes(t, x, plural, singular, id), v, q) ==
            Then(Handler(t, v, q), if |q| > 0 && q[0] == x then OwnerAnswer(plural, v, q[1..]) else None)
  {
    var p := InParam(x, singular, id);
    var w := Sub(p, "work-packages", "work_packages");
    var i := [Index(In(x, plural), Action(plural, "index"))];
    var pages := [Index(p, Action(plural, "show"))]
      + [Index(w, Action(plural + "/work_packages", "index"))]
      + [Index(Sub(w, "current", "current"), Action(plural + "/work_packages", "current"))];
    assert OwnerScopes(t, x, plural, singular, id) == t + i + pages;
    WithinInParam(x, singular, id, q);
    HandlerAppend(t, i, v, q);
    IndexServes(x, plural, Action(plural, "index"), v, q);
    HandlerAppend(t + i, pages, v, q);
    OwnerPagesServe(p, plural, v, q);
    if |q| > 1 && q[0] == x {
      var rest := q[1..];
      assert rest[0] == q[1] && rest[1..] == q[2..];
    }
  }

  // -----------------------------------------------------------------------
  // Work packages.
  // -----------------------------------------------------------------------

  const WorkPackagePaperTypes: string := "work_packages/paper_types"

  /** `scope '/work-packages', as: 'work_packages'`: the index, the current
      page and the paper-type pages with their current pages, then
      `scope '/work-packages', as: 'work_package'` holding the unconstrained
      page of one work package. */
  function WorkPackages(t: seq<Route>): (r: seq<Route>)
    ensures |r| == |t| + 6
  {
    var s := In("work-packages", "work_packages");
    t + [Index(s, Action("work_packages", "index"))]
      + [Index(Sub(s, "current", "current"), Action("work_packages", "current"))]
      + PaperTypeRoutes(s, WorkPackagePaperTypes, true)
      + [Index(InParam("work-packages", "work_package", "work_package_id"), Action("work_packages", "show"))]
  }

  /** Where a GET below /work-packages goes: `current` and `paper-types` are
      reached before the work package parameter, which takes any other
      single segment. */
  function WorkPackagesAnswer(v: Verb, rest: seq<string>): Option<string> {
    if v != GET then None
    else if rest == [] then Some(Action("work_packages", "index"))
    else if rest == ["current"] then Some(Action("work_packages", "current"))
    else if rest[0] == "paper-types" then PaperTypeAnswer(WorkPackagePaperTypes, true, rest[1..])
    else if |rest| == 1 && DefaultSegment(rest[0]) then Some(Action("work_packages", "show"))
    else None
  }

  lemma WorkPackagesHeadServe(t: seq<Route>, v: Verb, q: seq<string>)
    ensures Handler(t + [Index(In("work-packages", "work_packages"), Action("work_packages", "index"))]
                      + [Index(Sub(In("work-packages", "work_packages"), "current", "current"),
                               Action("work_packages", "current"))], v, q) ==
            Then(Handler(t, v, q),
                 if v == GET && q == ["work-packages"] then Some(Action("work_packages", "index"))
                 else if v == GET && q == ["work-packages", "current"] then Some(Action("work_packages", "current"))
                 else None)
  {
    var s := In("work-packages", "work_packages");
    var a := [Index(s, Action("work_packages", "index"))];
    HandlerAppend(t, a, v, q);
    IndexServes("work-packages", "work_packages", Action("work_packages", "index"), v, q);
    HandlerAppend(t + a, [Index(Sub(s, "current", "current"), Action("work_packages", "current"))], v, q);
    SubIndexServes("work-packages", "work_packages", "current", "current", Action("work_packages", "current"), v, q);
  }

  lemma WorkPackagesTailServe(u: seq<Route>, v: Verb, q: seq<string>)
    ensures Handler(u + PaperTypeRoutes(In("work-packages", "work_packages"), WorkPackagePaperTypes, true)
                      + [Index(InParam("work-packages", "work_package", "work_package_id"), Action("work_packages", "show"))],
                    v, q) ==
            Then(Handler(u, v, q),
                 if v != GET || |q| < 2 || q[0] != "work-packages" then None
                 else if q[1] == "paper-types" then PaperTypeAnswer(WorkPackagePaperTypes, true, q[2..])
                 else if |q| == 2 && DefaultSegment(q[1]) then Some(Action("work_packages", "show"))
                 else None)
  {
    var s := In("work-packages", "work_packages");
    var p := InParam("work-packages", "work_package", "work_package_id");
    WithinIn("work-packages", "work_packages", q);
    WithinInParam("work-packages", "work_package", "work_package_id", q);
    HandlerAppend(u, PaperTypeRoutes(s, WorkPackagePaperTypes, true), v, q);
    PaperTypeServes(s, WorkPackagePaperTypes, true, v, q);
    HandlerAppend(u + PaperTypeRoutes(s, WorkPackagePaperTypes, true), [Index(p, Action("work_packages", "show"))], v, q);
    IndexHandler(p, Action("work_packages", "show"), v, q);
  }

  /** The work-package scopes answer exactly what WorkPackagesAnswer says
      below /work-packages, and nothing elsewhere. */
  lemma WorkPackagesServe(t: seq<Route>, v: Verb, q: seq<string>)
    ensures Handler(WorkPackages(t), v, q) ==
            Then(Handler(t, v, q), if |q| > 0 && q[0] == "work-packages" then WorkPackagesAnswer(v, q[1..]) else None)
  {
    var s := In("work-packages", "work_packages");
    var u := t + [Index(s, Action("work_packages", "index"))]
      + [Index(Sub(s, "current", "current"), Action("work_packages", "current"))];
    WorkPackagesHeadServe(t, v, q);
    WorkPackagesTailServe(u, v, q);
    if |q| > 0 && q[0] == "work-packages" {
      var rest := q[1..];
      assert q == ["work-packages"] <==> rest == [];
      assert q == ["work-packages", "current"] <==> rest == ["current"];
      assert |q| > 1 ==> rest[0] == q[1] && rest[1..] == q[2..];
    }
  }

  /** Under the paper-type scope of work packages, the constraint covers the
      `current` page too: it answers only the three paper types. */
  lemma WorkPackagePaperTypeCurrent(t: seq<Route>, x: string)
    requires Handler(t, GET, ["work-packages", "paper-types", x, "current"]) == None
    ensures Handler(WorkPackages(t), GET, ["work-packages", "paper-types", x, "current"]) ==
            if IsPaperType(x) then Some(Action(WorkPackagePaperTypes, "current")) else None
  {
    var q := ["work-packages", "paper-types", x, "current"];
    WorkPackagesServe(t, GET, q);
    assert q[1..] == ["paper-types", x, "current"];
    assert q[1..][1..] == [x, "current"] && q[1..][1..][1..] == ["current"];
  }

  /** `current` and `paper-types` are fixed segments registered before the
      unconstrained work package parameter. */
  lemma WorkPackageFixedFirst(t: seq<Route>, x: string)
    requires x == "current" || x == "paper-types"
    requires Handler(t, GET, ["work-packages", x]) == None
    ensures Handler(WorkPackages(t), GET, ["work-packages", x]) ==
            if x == "current" then Some(Action("work_packages", "current"))
            else Some(Action(WorkPackagePaperTypes, "index"))
  {
    WorkPackagesServe(t, GET, ["work-packages", x]);
    assert ["work-packages", x][1..] == [x] && [x][1..] == [];
  }

  // -----------------------------------------------------------------------
  // Laid papers.
  // -----------------------------------------------------------------------

  /** `scope '/laid-papers', as: 'laid_papers'` holding the index, then
      `scope '/laid-papers', as: 'laid_paper'` holding the unconstrained
      page of one laid paper. */
  function LaidPapers(t: seq<Route>): (r: seq<Route>)
    ensures |r| == |t| + 2
  {
    t + [Index(In("laid-papers", "laid_papers"), Action("laid_papers", "index"))]
      + [Index(InParam("laid-papers", "laid_paper", "laid_paper_id"), Action("laid_papers", "show"))]
  }

  function LaidPapersAnswer(v: Verb, rest: seq<string>): Option<string> {
    if v != GET then None
    else if rest == [] then Some(Action("laid_papers", "index"))
    else if |rest| == 1 && DefaultSegment(rest[0]) then Some(Action("laid_papers", "show"))
    else None
  }

  lemma LaidPapersServe(t: seq<Route>, v: Verb, q: seq<string>)
    ensures Handler(LaidPapers(t), v, q) ==
            Then(Handler(t, v, q), if |q| > 0 && q[0] == "laid-papers" then LaidPapersAnswer(v, q[1..]) else None)
  {
    var i := [Index(In("laid-papers", "laid_papers"), Action("laid_papers", "index"))];
    var p := InParam("laid-papers", "laid_paper", "laid_paper_id");
    HandlerAppend(t, i, v, q);
    IndexServes("laid-papers", "laid_papers", Action("laid_papers", "index"), v, q);
    HandlerAppend(t + i, [Index(p, Action("laid_papers", "show"))], v, q);
    IndexHandler(p, Action("laid_papers", "show"), v, q);
    WithinInParam("laid-papers", "laid_paper", "laid_paper_id", q);
    if |q| > 0 {
      assert |q| == 2 ==> q[1..] == [q[1]];
    }
  }

  // -----------------------------------------------------------------------
  // Drawing the routes.
  // -----------------------------------------------------------------------

  method DrawOwnerScopes(rs: RouteSet, x: string, plural: string, singular: string, id: string)
    requires rs.scope == Top
    modifies rs
    ensures rs.routes == OwnerScopes(old(rs.routes), x, plural, singular, id)
    ensures rs.scope == Top && rs.saved == old(rs.saved)
  {
    rs.BeginScope([Lit(x)], Some(plural));
      rs.Get([], Action(plural, "index"));
    rs.EndScope();
    rs.BeginScope([Lit(x)], Some(singular));
      rs.BeginScope([Param(id)]);
        rs.Get([], Action(plural, "show"));
        rs.BeginScope([Lit("work-packages")], Some("work_packages"));
          rs.Get([], Action(plural + "/work_packages", "index"));
          rs.BeginScope([Lit("current")], Some("current"));
            rs.Get([], Action(plural + "/work_packages", "current"));
          rs.EndScope();
        rs.EndScope();
      rs.EndScope();
    rs.EndScope();
  }

  method DrawWorkPackages(rs: RouteSet)
    requires rs.scope == Top
    modifies rs
    ensures rs.routes == WorkPackages(old(rs.routes))
    ensures rs.scope == Top && rs.saved == old(rs.saved)
  {
    rs.BeginScope([Lit("work-packages")], Some("work_packages"));
      rs.Get([], Action("work_packages", "index"));
      rs.BeginScope([Lit("current")], Some("current"));
        rs.Get([], Action("work_packages", "current"));
      rs.EndScope();
      DrawPaperTypeRoutes(rs, WorkPackagePaperTypes, true);
    rs.EndScope();
    rs.BeginScope([Lit("work-packages")], Some("work_package"));
      rs.BeginScope([Param("work_package_id")]);
        rs.Get([], Action("work_packages", "show"));
      rs.EndScope();
    rs.EndScope();
  }

  method DrawLaidPapers(rs: RouteSet)
    requires rs.scope == Top
    modifies rs
    ensures rs.routes == LaidPapers(old(rs.routes))
    ensures rs.scope == Top && rs.saved == old(rs.saved)
  {
    rs.BeginScope([Lit("laid-papers")], Some("laid_papers"));
      rs.Get([], Action("laid_papers", "index"));
    rs.EndScope();
    rs.BeginScope([Lit("laid-papers")], Some("laid_paper"));
      rs.BeginScope([Param("laid_paper_id")]);
        rs.Get([], Action("laid_papers", "show"));
      rs.EndScope();
    rs.EndScope();
  }
}
