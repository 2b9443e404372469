/** The two `/people` scopes of the route file: the listing of people, then
    each person's show page and pages and, last, the lookup by letters. */
module PeopleSection {
  import opened Validators
  import opened Routing
  import opened Mapper
  import opened Blocks
  import opened Listings

  /** `scope '/people', as: 'people'`: `build_default_routes('people',
      current: false)`, `listable` and `build_members_routes`. */
  function PeopleListing(t: seq<Route>): (r: seq<Route>)
    ensures |r| == |t| + 11
  {
    var s := In("people", "people");
    t + DefaultRoutes(s, "people", false, true, true)
      + ListableRoutes(s, Action("people", "a_to_z"), Action("people", "letters"))
      + MembersRoutes(s, "people/members", true)
  }

  /** Where a request below /people goes in the listing: POST only for the
      postcode lookup; the fixed `lookup`; the members listing with its
      current members; the index, A to Z page and letter pages. */
  function PeopleListingAnswer(v: Verb, rest: seq<string>): Option<string> {
    if v == POST then (if rest == ["postcode_lookup"] then Some(Action("people", "postcode_lookup")) else None)
    else if rest == ["lookup"] then Some(Action("people", "lookup"))
    else if |rest| > 0 && rest[0] == "members" then PairAnswer("people/members", true, rest[1..])
    else PairAnswer("people", false, rest)
  }

  lemma PeopleListingServe(t: seq<Route>, v: Verb, q: seq<string>)
    ensures Handler(PeopleListing(t), v, q) ==
            Then(Handler(t, v, q), if |q| > 0 && q[0] == "people" then PeopleListingAnswer(v, q[1..]) else None)
  {
    var s := In("people", "people");
    var d := DefaultRoutes(s, "people", false, true, true);
    var l := ListableRoutes(s, Action("people", "a_to_z"), Action("people", "letters"));
    WithinIn("people", "people", q);
    HandlerAppend(t, d, v, q);
    HandlerAppend(t + d, l, v, q);
    HandlerAppend(t + d + l, MembersRoutes(s, "people/members", true), v, q);
    DefaultServes(s, "people", false, true, true, v, q);
    ListableServes(s, Action("people", "a_to_z"), Action("people", "letters"), v, q);
    MembersIsListingPair(s, "people/members");
    ListingPairServes(s, "members", "members", "people/members", v, q);
    if |q| > 0 && q[0] == "people" {
      var rest := q[1..];
      assert |q| > 1 ==> rest[0] == q[1] && rest[1..] == q[2..];
      assert |q| > 2 ==> rest[1] == q[2];
    }
  }

  // -----------------------------------------------------------------------
  // The pages of one person, inside `scope '/:person_id'`.
  // -----------------------------------------------------------------------

  /** The constituencies, contact points, houses and parties of a person. */
  function PersonHoldings(s: Scope): (r: seq<Route>)
    ensures |r| == 7
  {
    RootAndCurrentRoutes(s, "people/constituencies", "constituencies")
      + [Entry(s, GET, [Lit("contact-points")], Action("people/contact_points", "index"), None, map[])]
      + RootAndCurrentRoutes(s, "people/houses", "houses")
      + RootAndCurrentRoutes(s, "people/parties", "parties")
  }

  /** `scope '/grouped-by'` inside the associations scope a. */
  function GroupedBy(a: Scope): (r: seq<Route>)
    ensures |r| == 4
  {
    var g := Sub(a, "grouped-by", "grouped_by");
    [Index(g, Action("people/associations/grouped_by", "index"))]
      + [Index(Sub(g, "opposition", "opposition"), Action("people/associations/grouped_by/opposition", "index"))]
      + [Index(Sub(g, "government", "government"), Action("people/associations/grouped_by/government", "index"))]
      + [Index(Sub(g, "formal-bodies", "formal_bodies"), Action("people/associations/grouped_by/formal_bodies", "index"))]
  }

  /** `scope '/associations'` and its `grouped-by` pages. */
  function Associations(s: Scope): (r: seq<Route>)
    ensures |r| == 5
  {
    var a := Sub(s, "associations", "associations");
    [Index(a, Action("people/associations", "index"))] + GroupedBy(a)
  }

  /** `scope '/questions'` and its `written` page. */
  function Questions(s: Scope): (r: seq<Route>)
    ensures |r| == 2
  {
    var w := Sub(s, "questions", "questions");
    [Index(w, Action("people/questions", "index"))]
      + [Index(Sub(w, "written", "written"), Action("people/questions/written", "index"))]
  }

  /** `scope '/committees'`: the memberships with their current page, then
      the chairs. */
  function Committees(s: Scope): (r: seq<Route>)
    ensures |r| == 4
  {
    var c := Sub(s, "committees", "committees");
    var m := Sub(c, "memberships", "memberships");
    [Index(c, Action("people/committees", "index"))]
      + [Index(m, Action("people/committees/memberships", "index"))]
      + [Index(Sub(m, "current", "current"), Action("people/committees/memberships", "current"))]
      + [Index(Sub(c, "chairs", "chairs"), Action("people/committees/chairs", "index"))]
  }

  /** Everything registered inside `scope '/:person_id'` after the show
      route. */
  function PersonPages(s: Scope): (r: seq<Route>)
    ensures |r| == 18
  {
    PersonHoldings(s) + Associations(s) + Questions(s) + Committees(s)
  }

  function HoldingsAnswer(rest: seq<string>): Option<string> {
    if rest == ["constituencies"] then Some(Action("people/constituencies", "index"))
    else if rest == ["constituencies", "current"] then Some(Action("people/constituencies", "current"))
    else if rest == ["contact-points"] then Some(Action("people/contact_points", "index"))
    else if rest == ["houses"] then Some(Action("people/houses", "index"))
    else if rest == ["houses", "current"] then Some(Action("people/houses", "current"))
    else if rest == ["parties"] then Some(Action("people/parties", "index"))
    else if rest == ["parties", "current"] then Some(Action("people/parties", "current"))
    else None
  }

  function GroupedByAnswer(rest: seq<string>): Option<string> {
    if rest == [] then Some(Action("people/associations/grouped_by", "index"))
    else if rest == ["opposition"] then Some(Action("people/associations/grouped_by/opposition", "index"))
    else if rest == ["government"] then Some(Action("people/associations/grouped_by/government", "index"))
    else if rest == ["formal-bodies"] then Some(Action("people/associations/grouped_by/formal_bodies", "index"))
    else None
  }

  function AssociationsAnswer(rest: seq<string>): Option<string> {
    if rest == [] then Some(Action("people/associations", "index"))
    else if rest[0] == "grouped-by" then GroupedByAnswer(rest[1..])
    else None
  }

  function QuestionsAnswer(rest: seq<string>): Option<string> {
    if rest == [] then Some(Action("people/questions", "index"))
    else if rest == ["written"] then Some(Action("people/questions/written", "index"))
    else None
  }

  function CommitteesAnswer(rest: seq<string>): Option<string> {
    if rest == [] then Some(Action("people/committees", "index"))
    else if rest == ["memberships"] then Some(Action("people/committees/memberships", "index"))
    else if rest == ["memberships", "current"] then Some(Action("people/committees/memberships", "current"))
    else if rest == ["chairs"] then Some(Action("people/committees/chairs", "index"))
    else None
  }

  /** The association, question and committee pages, by the segment that
      follows the person parameter. */
  function TopicsAnswer(seg: string, rest: seq<string>): Option<string> {
    if seg == "associations" then AssociationsAnswer(rest)
    else if seg == "questions" then QuestionsAnswer(rest)
    else if seg == "committees" then CommitteesAnswer(rest)
    else None
  }

  /** Where a request below one person goes, `rest` being the segments after
      the person parameter: the holdings are registered first, then the
      other pages. */
  function PersonPagesAnswer(v: Verb, rest: seq<string>): Option<string> {
    if v != GET || rest == [] then None
    else Then(HoldingsAnswer(rest), TopicsAnswer(rest[0], rest[1..]))
  }

  lemma HoldingsServe(s: Scope, v: Verb, q: seq<string>)
    ensures Handler(PersonHoldings(s), v, q) ==
            if v == GET && Within(s, q) then HoldingsAnswer(q[|s.path|..]) else None
  {
    var k := |s.path|;
    var a := RootAndCurrentRoutes(s, "people/constituencies", "constituencies");
    var b := [Entry(s, GET, [Lit("contact-points")], Action("people/contact_points", "index"), None, map[])];
    var c := RootAndCurrentRoutes(s, "people/houses", "houses");
    HandlerAppend(a, b, v, q);
    HandlerAppend(a + b, c, v, q);
    HandlerAppend(a + b + c, RootAndCurrentRoutes(s, "people/parties", "parties"), v, q);
    RootAndCurrentServes(s, "people/constituencies", "constituencies", v, q);
    EntryHandler(s, GET, [Lit("contact-points")], Action("people/contact_points", "index"), None, v, q);
    RootAndCurrentServes(s, "people/houses", "houses", v, q);
    RootAndCurrentServes(s, "people/parties", "parties", v, q);
    if k <= |q| {
      LitPathAccepts("contact-points", q[k..], s.constraints);
    }
  }

  lemma GroupedByServe(a: Scope, v: Verb, q: seq<string>)
    ensures Handler(GroupedBy(a), v, q) ==
            if v == GET && Deeper(a, q) && q[|a.path|] == "grouped-by" then GroupedByAnswer(q[|a.path| + 1..])
            else None
  {
    var k := |a.path|;
    var g := Sub(a, "grouped-by", "grouped_by");
    var i1 := [Index(g, Action("people/associations/grouped_by", "index"))];
    var i2 := [Index(Sub(g, "opposition", "opposition"), Action("people/associations/grouped_by/opposition", "index"))];
    var i3 := [Index(Sub(g, "government", "government"), Action("people/associations/grouped_by/government", "index"))];
    var i4 := [Index(Sub(g, "formal-bodies", "formal_bodies"), Action("people/associations/grouped_by/formal_bodies", "index"))];
    SubWithin(a, "grouped-by", "grouped_by", q);
    SubWithin(g, "opposition", "opposition", q);
    SubWithin(g, "government", "government", q);
    SubWithin(g, "formal-bodies", "formal_bodies", q);
    HandlerAppend(i1, i2, v, q);
    HandlerAppend(i1 + i2, i3, v, q);
    HandlerAppend(i1 + i2 + i3, i4, v, q);
    IndexHandler(g, Action("people/associations/grouped_by", "index"), v, q);
    IndexHandler(Sub(g, "opposition", "opposition"), Action("people/associations/grouped_by/opposition", "index"), v, q);
    IndexHandler(Sub(g, "government", "government"), Action("people/associations/grouped_by/government", "index"), v, q);
    IndexHandler(Sub(g, "formal-bodies", "formal_bodies"), Action("people/associations/grouped_by/formal_bodies", "index"), v, q);
    if |q| > k + 1 {
      assert q[k + 1..][0] == q[k + 1];
    }
  }

  lemma AssociationsServe(s: Scope, v: Verb, q: seq<string>)
    ensures Handler(Associations(s), v, q) ==
            if v == GET && Deeper(s, q) && q[|s.path|] == "associations" then AssociationsAnswer(q[|s.path| + 1..])
            else None
  {
    var k := |s.path|;
    var a := Sub(s, "associations", "associations");
    SubWithin(s, "associations", "associations", q);
    HandlerAppend([Index(a, Action("people/associations", "index"))], GroupedBy(a), v, q);
    IndexHandler(a, Action("people/associations", "index"), v, q);
    GroupedByServe(a, v, q);
    if |q| > k + 1 {
      var rest := q[k + 1..];
      assert rest[0] == q[k + 1] && rest[1..] == q[k + 2..];
    }
  }

  /** The association, question and committee pages of a person. */
  lemma TopicsServe(s: Scope, v: Verb, q: seq<string>)
    ensures Handler(Associations(s) + Questions(s) + Committees(s), v, q) ==
            if v == GET && Deeper(s, q) then TopicsAnswer(q[|s.path|], q[|s.path| + 1..]) else None
  {
    HandlerAppend(Associations(s), Questions(s), v, q);
    HandlerAppend(Associations(s) + Questions(s), Committees(s), v, q);
    AssociationsServe(s, v, q);
    QuestionsServe(s, v, q);
    CommitteesServe(s, v, q);
  }

  lemma QuestionsServe(s: Scope, v: Verb, q: seq<string>)
    ensures Handler(Questions(s), v, q) ==
            if v == GET && Deeper(s, q) && q[|s.path|] == "questions" then QuestionsAnswer(q[|s.path| + 1..])
            else None
  {
    var k := |s.path|;
    var w := Sub(s, "questions", "questions");
    SubWithin(s, "questions", "questions", q);
    SubWithin(w, "written", "written", q);
    HandlerAppend([Index(w, Action("people/questions", "index"))],
                  [Index(Sub(w, "written", "written"), Action("people/questions/written", "index"))], v, q);
    IndexHandler(w, Action("people/questions", "index"), v, q);
    IndexHandler(Sub(w, "written", "written"), Action("people/questions/written", "index"), v, q);
    if |q| > k + 1 {
      assert q[k + 1..] == ["written"] <==> |q| == k + 2 && q[k + 1] == "written";
    }
  }

  lemma CommitteesServe(s: Scope, v: Verb, q: seq<string>)
    ensures Handler(Committees(s), v, q) ==
            if v == GET && Deeper(s, q) && q[|s.path|] == "committees" then CommitteesAnswer(q[|s.path| + 1..])
            else None
  {
    var k := |s.path|;
    var c := Sub(s, "committees", "committees");
    var m := Sub(c, "memberships", "memberships");
    var i0 := [Index(c, Action("people/committees", "index"))];
    var i1 := [Index(m, Action("people/committees/memberships", "index"))];
    var i2 := [Index(Sub(m, "current", "current"), Action("people/committees/memberships", "current"))];
    SubWithin(s, "committees", "committees", q);
    SubWithin(c, "memberships", "memberships", q);
    SubWithin(m, "current", "current", q);
    SubWithin(c, "chairs", "chairs", q);
    HandlerAppend(i0, i1, v, q);
    HandlerAppend(i0 + i1, i2, v, q);
    HandlerAppend(i0 + i1 + i2, [Index(Sub(c, "chairs", "chairs"), Action("people/committees/chairs", "index"))], v, q);
    IndexHandler(c, Action("people/committees", "index"), v, q);
    IndexHandler(m, Action("people/committees/memberships", "index"), v, q);
    IndexHandler(Sub(m, "current", "current"), Action("people/committees/memberships", "current"), v, q);
    IndexHandler(Sub(c, "chairs", "chairs"), Action("people/committees/chairs", "index"), v, q);
    if |q| > k + 1 {
      var rest := q[k + 1..];
      assert rest[0] == q[k + 1];
      assert |rest| > 1 ==> rest[1] == q[k + 2];
    }
  }

  /** A person's pages answer PersonPagesAnswer for the segments after the
      person parameter, and nothing that does not go on past it. */
  lemma PersonPagesServe(s: Scope, v: Verb, q: seq<string>)
    ensures Handler(PersonPages(s), v, q) == if Deeper(s, q) then PersonPagesAnswer(v, q[|s.path|..]) else None
  {
    var k := |s.path|;
    var h := PersonHoldings(s);
    assert PersonPages(s) == h + (Associations(s) + Questions(s) + Committees(s));
    HandlerAppend(h, Associations(s) + Questions(s) + Committees(s), v, q);
    HoldingsServe(s, v, q);
    TopicsServe(s, v, q);
    if Deeper(s, q) {
      var rest := q[k..];
      assert rest[0] == q[k] && rest[1..] == q[k + 1..];
    } else if Within(s, q) {
      assert q[k..] == [];
    }
  }

  // -----------------------------------------------------------------------
  // The scope of one person.
  // -----------------------------------------------------------------------

  /** The scope `scope '/:person_id'` inside `scope '/people', as: 'person'`. */
  function PersonScope(): Scope {
    InParam("people", "person", "person_id")
  }

  /** `scope '/people', as: 'person'`: the id-constrained show route, the
      person's pages, and the lookup by letters as the final route. */
  function Person(t: seq<Route>): (r: seq<Route>)
    ensures |r| == |t| + 20
  {
    t + [Entry(PersonScope(), GET, [], "people#show", None, map["person_id" := IdFormat])]
      + PersonPages(PersonScope())
      + LookupableRoutes(In("people", "person"), "people#lookup_by_letters")
  }

  /** Where a request below /people goes in the person scope: an id alone to
      the show page, any other single segment to the lookup by letters, and
      any segment followed by more to that person's pages. */
  function PersonAnswer(v: Verb, rest: seq<string>): Option<string> {
    if v != GET || rest == [] || !DefaultSegment(rest[0]) then None
    else if |rest| == 1 then (if IsId(rest[0]) then Some("people#show") else Some("people#lookup_by_letters"))
    else PersonPagesAnswer(v, rest[1..])
  }

  lemma PersonServe(t: seq<Route>, v: Verb, q: seq<string>)
    ensures Handler(Person(t), v, q) ==
            Then(Handler(t, v, q), if |q| > 0 && q[0] == "people" then PersonAnswer(v, q[1..]) else None)
  {
    var p := PersonScope();
    WithinInParam("people", "person", "person_id", q);
    PersonPagesServe(p, v, q);
    ShowPagesLookup(t, "people", "person", "person_id", "people#show", PersonPages(p), "people#lookup_by_letters", v, q);
    if |q| > 1 {
      var rest := q[1..];
      assert rest[0] == q[1] && rest[1..] == q[2..];
    }
  }

  // -----------------------------------------------------------------------
  // The section.
  // -----------------------------------------------------------------------

  /** Both `/people` scopes, in the order the route file draws them. */
  function People(t: seq<Route>): (r: seq<Route>)
    ensures |r| == |t| + 31
  {
    Person(PeopleListing(t))
  }

  /** The whole of /people: the listing first, then the person scope. */
  function PeopleAnswer(v: Verb, rest: seq<string>): Option<string> {
    Then(PeopleListingAnswer(v, rest), PersonAnswer(v, rest))
  }

  lemma PeopleServe(t: seq<Route>, v: Verb, q: seq<string>)
    ensures Handler(People(t), v, q) ==
            Then(Handler(t, v, q), if |q| > 0 && q[0] == "people" then PeopleAnswer(v, q[1..]) else None)
  {
    PeopleListingServe(t, v, q);
    PersonServe(PeopleListing(t), v, q);
  }

  /** A GET of one segment below /people: the listing's fixed segments come
      first, an 8-character id reaches the show page, and only a segment
      that is neither reaches the lookup by letters, which is last. */
  lemma PeopleOneSegment(x: string)
    ensures PeopleAnswer(GET, [x]) ==
            if x == "lookup" then Some(Action("people", "lookup"))
            else if x == "members" then Some(Action("people/members", "index"))
            else if x == "a-z" then Some(Action("people", "a_to_z"))
            else if IsId(x) then Some("people#show")
            else if DefaultSegment(x) then Some("people#lookup_by_letters")
            else None
  {
    assert [x][1..] == [];
  }

  // -----------------------------------------------------------------------
  // Drawing the routes.
  // -----------------------------------------------------------------------

  method DrawPeopleListing(rs: RouteSet)
    requires rs.scope == Top
    modifies rs
    ensures rs.routes == PeopleListing(old(rs.routes))
    ensures rs.scope == Top && rs.saved == old(rs.saved)
  {
    rs.BeginScope([Lit("people")], Some("people"));
      rs.BuildDefaultRoutes("people", current := false);
      rs.Listable(Action("people", "a_to_z"), Action("people", "letters"));
      rs.BuildMembersRoutes("people/members", current := true);
    rs.EndScope();
  }

  method DrawPersonHoldings(rs: RouteSet)
    modifies rs
    ensures rs.routes == old(rs.routes) + PersonHoldings(old(rs.scope))
    ensures rs.scope == old(rs.scope) && rs.saved == old(rs.saved)
  {
    rs.BuildRootAndCurrentRoutes("people/constituencies", "constituencies");
    rs.Get([Lit("contact-points")], Action("people/contact_points", "index"));
    rs.BuildRootAndCurrentRoutes("people/houses", "houses");
    rs.BuildRootAndCurrentRoutes("people/parties", "parties");
  }

  method DrawAssociations(rs: RouteSet)
    modifies rs
    ensures rs.routes == old(rs.routes) + Associations(old(rs.scope))
    ensures rs.scope == old(rs.scope) && rs.saved == old(rs.saved)
  {
    rs.BeginScope([Lit("associations")], Some("associations"));
      rs.Get([], Action("people/associations", "index"));
      DrawGroupedBy(rs);
    rs.EndScope();
  }

  method DrawGroupedBy(rs: RouteSet)
    modifies rs
    ensures rs.routes == old(rs.routes) + GroupedBy(old(rs.scope))
    ensures rs.scope == old(rs.scope) && rs.saved == old(rs.saved)
  {
    rs.BeginScope([Lit("grouped-by")], Some("grouped_by"));
      rs.Get([], Action("people/associations/grouped_by", "index"));
      rs.BeginScope([Lit("opposition")], Some("opposition"));
        rs.Get([], Action("people/associations/grouped_by/opposition", "index"));
      rs.EndScope();
      rs.BeginScope([Lit("government")], Some("government"));
        rs.Get([], Action("people/associations/grouped_by/government", "index"));
      rs.EndScope();
      rs.BeginScope([Lit("formal-bodies")], Some("formal_bodies"));
        rs.Get([], Action("people/associations/grouped_by/formal_bodies", "index"));
      rs.EndScope();
    rs.EndScope();
  }

  method DrawQuestions(rs: RouteSet)
    modifies rs
    ensures rs.routes == old(rs.routes) + Questions(old(rs.scope))
    ensures rs.scope == old(rs.scope) && rs.saved == old(rs.saved)
  {
    rs.BeginScope([Lit("questions")], Some("questions"));
      rs.Get([], Action("people/questions", "index"));
      rs.BeginScope([Lit("written")], Some("written"));
        rs.Get([], Action("people/questions/written", "index"));
      rs.EndScope();
    rs.EndScope();
  }

  method DrawCommittees(rs: RouteSet)
    modifies rs
    ensures rs.routes == old(rs.routes) + Committees(old(rs.scope))
    ensures rs.scope == old(rs.scope) && rs.saved == old(rs.saved)
  {
    rs.BeginScope([Lit("committees")], Some("committees"));
      rs.Get([], Action("people/committees", "index"));
      rs.BeginScope([Lit("memberships")], Some("memberships"));
        rs.Get([], Action("people/committees/memberships", "index"));
        rs.BeginScope([Lit("current")], Some("current"));
          rs.Get([], Action("people/committees/memberships", "current"));
        rs.EndScope();
      rs.EndScope();
      rs.BeginScope([Lit("chairs")], Some("chairs"));
        rs.Get([], Action("people/committees/chairs", "index"));
      rs.EndScope();
    rs.EndScope();
  }

  method DrawPersonPages(rs: RouteSet)
    modifies rs
    ensures rs.routes == old(rs.routes) + PersonPages(old(rs.scope))
    ensures rs.scope == old(rs.scope) && rs.saved == old(rs.saved)
  {
    DrawPersonHoldings(rs);
    DrawAssociations(rs);
    DrawQuestions(rs);
    DrawCommittees(rs);
  }

  method DrawPerson(rs: RouteSet)
    requires rs.scope == Top
    modifies rs
    ensures rs.routes == Person(old(rs.routes))
    ensures rs.scope == Top && rs.saved == old(rs.saved)
  {
    rs.BeginScope([Lit("people")], Some("person"));
      rs.BeginScope([Param("person_id")]);
        rs.Get([], "people#show", reqs := map["person_id" := IdFormat]);
        DrawPersonPages(rs);
      rs.EndScope();
      rs.Lookupable("people#lookup_by_letters");
    rs.EndScope();
  }

  /** The `/people` part of the route file. */
  method DrawPeople(rs: RouteSet)
    requires rs.scope == Top
    modifies rs
    ensures rs.routes == People(old(rs.routes))
    ensures rs.scope == Top && rs.saved == old(rs.saved)
  {
    DrawPeopleListing(rs);
    DrawPerson(rs);
  }
}
