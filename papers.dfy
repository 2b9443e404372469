/** The three kinds of laid paper the route file lists with the same pair
    of scopes: proposed negative statutory instruments, statutory
    instruments and treaties. Each has a listing scope holding the index and
    the lookup, then a scope holding the show page of one paper and the
    paper's work packages. */
module PapersSection {
  import opened Routing
  import opened Mapper
  import opened Blocks

  /** `scope '/<x>', as: plural do build_default_routes(plural, current: false,
      lookup: true, postcode: false) end`, then `scope '/<x>', as: singular`
      holding `scope '/:<id>'` with `get '/'` and `scope '/work-packages'`. */
  function PaperScopes(t: seq<Route>, x: string, plural: string, singular: string, id: string): (r: seq<Route>)
    ensures |r| == |t| + 4
  {
    var p := InParam(x, singular, id);
    t + DefaultRoutes(In(x, plural), plural, false, true, false)
      + [Index(p, Action(plural, "show"))]
      + [Index(Sub(p, "work-packages", "work_packages"), Action(plural + "/work_packages", "index"))]
  }

  function ProposedNegativeStatutoryInstruments(t: seq<Route>): (r: seq<Route>)
    ensures |r| == |t| + 4
  {
    PaperScopes(t, "proposed-negative-statutory-instruments", "proposed_negative_statutory_instruments",
                "proposed_negative_statutory_instrument", "proposed_negative_statutory_instrument_id")
  }

  function StatutoryInstruments(t: seq<Route>): (r: seq<Route>)
    ensures |r| == |t| + 4
  {
    PaperScopes(t, "statutory-instruments", "statutory_instruments", "statutory_instrument", "statutory_instrument_id")
  }

  function Treaties(t: seq<Route>): (r: seq<Route>)
    ensures |r| == |t| + 4
  {
    PaperScopes(t, "treaties", "treaties", "treaty", "treaty_id")
  }

  /** Where a request below /<x> goes: the index, the fixed `lookup`, then
      any other single segment to the show page (the id is unconstrained),
      and that segment followed by `work-packages` to the paper's work
      packages. */
  function PaperAnswer(plural: string, v: Verb, rest: seq<string>): Option<string> {
    if v != GET then None
    else if rest == [] then Some(Action(plural, "index"))
    else if rest == ["lookup"] then Some(Action(plural, "lookup"))
    else if |rest| == 1 && DefaultSegment(rest[0]) then Some(Action(plural, "show"))
    else if |rest| == 2 && DefaultSegment(rest[0]) && rest[1] == "work-packages" then
      Some(Action(plural + "/work_packages", "index"))
    else None
  }

  /** The pair of scopes answers exactly what PaperAnswer says below /<x>,
      nothing elsewhere, and leaves the rest to the routes before it. */
  lemma PaperScopesServe(t: seq<Route>, x: string, plural: string, singular: string, id: string,
                         v: Verb, q: seq<string>)
    ensures Handler(PaperScopes(t, x, plural, singular, id), v, q) ==
            Then(Handler(t, v, q), if |q| > 0 && q[0] == x then PaperAnswer(plural, v, q[1..]) else None)
  {
    var s := In(x, plural);
    var p := InParam(x, singular, id);
    var d := DefaultRoutes(s, plural, false, true, false);
    var show := [Index(p, Action(plural, "show"))];
    WithinIn(x, plural, q);
    WithinInParam(x, singular, id, q);
    SubWithin(p, "work-packages", "work_packages", q);
    HandlerAppend(t, d, v, q);
    DefaultServes(s, plural, false, true, false, v, q);
    HandlerAppend(t + d, show, v, q);
    IndexHandler(p, Action(plural, "show"), v, q);
    HandlerAppend(t + d + show, [Index(Sub(p, "work-packages", "work_packages"), Action(plural + "/work_packages", "index"))], v, q);
    IndexHandler(Sub(p, "work-packages", "work_packages"), Action(plural + "/work_packages", "index"), v, q);
    if |q| > 0 && q[0] == x {
      var rest := q[1..];
      assert |rest| == 1 ==> rest == [q[1]];
      assert |rest| == 2 ==> rest[1] == q[2];
    }
  }

  /** `/statutory-instruments/lookup` is registered before the
      unconstrained `/statutory-instruments/:statutory_instrument_id`, so the
      lookup is reached; every other single segment reaches the show page. */
  lemma StatutoryInstrumentsLookupFirst(t: seq<Route>, y: string)
    requires Handler(t, GET, ["statutory-instruments", y]) == None
    ensures Handler(StatutoryInstruments(t), GET, ["statutory-instruments", y]) ==
            if y == "lookup" then Some(Action("statutory_instruments", "lookup"))
            else if DefaultSegment(y) then Some(Action("statutory_instruments", "show"))
            else None
  {
    var q := ["statutory-instruments", y];
    PaperScopesServe(t, "statutory-instruments", "statutory_instruments", "statutory_instrument",
                     "statutory_instrument_id", GET, q);
    assert q[1..] == [y];
  }

  // -----------------------------------------------------------------------
  // Drawing the routes.
  // -----------------------------------------------------------------------

  method DrawPaperScopes(rs: RouteSet, x: string, plural: string, singular: string, id: string)
    requires rs.scope == Top
    modifies rs
    ensures rs.routes == PaperScopes(old(rs.routes), x, plural, singular, id)
    ensures rs.scope == Top && rs.saved == old(rs.saved)
  {
    rs.BeginScope([Lit(x)], Some(plural));
      rs.BuildDefaultRoutes(plural, current := false, lookup := true, postcode := false);
    rs.EndScope();
    rs.BeginScope([Lit(x)], Some(singular));
      rs.BeginScope([Param(id)]);
        rs.Get([], Action(plural, "show"));
        rs.BeginScope([Lit("work-packages")], Some("work_packages"));
          rs.Get([], Action(plural + "/work_packages", "index"));
        rs.EndScope();
      rs.EndScope();
    rs.EndScope();
  }
}
