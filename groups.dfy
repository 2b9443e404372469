/** The two `/groups` scopes. The scope of one group comes first: its show
    page under the id requirement and, below an unconstrained group
    parameter, its memberships, houses, positions, answered written
    questions and papers made available. The listing of groups follows: the
    index and `listable`, the government organisation and committee
    listings, the POST lookup, the current groups, and the lookup by letters
    last. */
module GroupsSection {
  import opened Validators
  import opened Routing
  import opened Mapper
  import opened Blocks
  import opened Listings
  import opened PaperTypeScopes

  // -----------------------------------------------------------------------
  // The pages of one group, inside `scope '/:group_id'`.
  // -----------------------------------------------------------------------

  /** `scope '/memberships'`: an index, `listable`, and a current page. */
  function Memberships(s: Scope): (r: seq<Route>)
    ensures |r| == 4
  {
    ListingOne(s, "memberships", "memberships", "groups/memberships")
      + [Index(Sub(Sub(s, "memberships", "memberships"), "current", "current"), Action("groups/memberships", "current"))]
  }

  /** `scope '/positions'`: an index, the chairs (`scope 'chairs'`) with
      their current page, then the current positions. */
  function Positions(s: Scope): (r: seq<Route>)
    ensures |r| == 4
  {
    var p := Sub(s, "positions", "positions");
    var c := Sub(p, "chairs", "chairs");
    [Index(p, Action("groups/positions", "index"))]
      + [Index(c, Action("groups/positions/chairs", "index"))]
      + [Index(Sub(c, "current", "current"), Action("groups/positions/chairs", "current"))]
      + [Index(Sub(p, "current", "current"), Action("groups/positions", "current"))]
  }

  /** `scope '/questions' do scope '/written' do scope '/answered'`. */
  function AnsweredQuestions(s: Scope): Route {
    Index(Sub(Sub(Sub(s, "questions", "questions"), "written", "written"), "answered", "answered"),
          Action("groups/questions/written/answered", "index"))
  }

  const LaidPaperTypes: string := "groups/made_available/availability_types/laid_papers/paper_types"

  /** `scope '/laid-papers'` inside the availability types: an index and
      the paper-type pages. */
  function LaidPapers(s: Scope): (r: seq<Route>)
    ensures |r| == 3
  {
    [Index(s, Action("groups/made_available/availability_types/laid_papers", "index"))]
      + PaperTypeRoutes(s, LaidPaperTypes, false)
  }

  /** `scope '/made-available'`: an index, the availability types and their
      laid papers. */
  function MadeAvailable(s: Scope): (r: seq<Route>)
    ensures |r| == 5
  {
    var m := Sub(s, "made-available", "made_available");
    var a := Sub(m, "availability-types", "availability_types");
    [Index(m, Action("groups/made_available", "index"))]
      + [Index(a, Action("groups/made_available/availability_types", "index"))]
      + LaidPapers(Sub(a, "laid-papers", "laid_papers"))
  }

  function GroupPages(s: Scope): (r: seq<Route>)
    ensures |r| == 15
  {
    Memberships(s)
      + [Index(Sub(s, "houses", "houses"), Action("groups/houses", "index"))]
      + Positions(s)
      + [AnsweredQuestions(s)]
      + MadeAvailable(s)
  }

  function MembershipsAnswer(rest: seq<string>): Option<string> {
    if rest == ["current"] then Some(Action("groups/memberships", "current"))
    else PairAnswer("groups/memberships", false, rest)
  }

  function PositionsAnswer(rest: seq<string>): Option<string> {
    if rest == [] then Some(Action("groups/positions", "index"))
    else if rest == ["chairs"] then Some(Action("groups/positions/chairs", "index"))
    else if rest == ["chairs", "current"] then Some(Action("groups/positions/chairs", "current"))
    else if rest == ["current"] then Some(Action("groups/positions", "current"))
    else None
  }

  function MadeAvailableAnswer(rest: seq<string>): Option<string> {
    if rest == [] then Some(Action("groups/made_available", "index"))
    else if rest[0] != "availability-types" then None
    else if |rest| == 1 then Some(Action("groups/made_available/availability_types", "index"))
    else if rest[1] != "laid-papers" then None
    else if |rest| == 2 then Some(Action("groups/made_available/availability_types/laid_papers", "index"))
    else if rest[2] == "paper-types" then PaperTypeAnswer(LaidPaperTypes, false, rest[3..])
    else None
  }

  /** Where a request below one group goes, `rest` being the segments after
      the group parameter. */
  function GroupPagesAnswer(v: Verb, rest: seq<string>): Option<string> {
    if v != GET || rest == [] then None
    else if rest[0] == "memberships" then MembershipsAnswer(rest[1..])
    else if rest == ["houses"] then Some(Action("groups/houses", "index"))
    else if rest[0] == "positions" then PositionsAnswer(rest[1..])
    else if rest == ["questions", "written", "answered"] then Some(Action("groups/questions/written/answered", "index"))
    else if rest[0] == "made-available" then MadeAvailableAnswer(rest[1..])
    else None
  }

  lemma MembershipsServe(s: Scope, v: Verb, q: seq<string>)
    requires s.constraints == map[]
    ensures Handler(Memberships(s), v, q) ==
            if v == GET && Deeper(s, q) && q[|s.path|] == "memberships" then MembershipsAnswer(q[|s.path| + 1..])
            else None
  {
    var k := |s.path|;
    var m := Sub(s, "memberships", "memberships");
    var c := Sub(m, "current", "current");
    HandlerAppend(ListingOne(s, "memberships", "memberships", "groups/memberships"),
                  [Index(c, Action("groups/memberships", "current"))], v, q);
    ListingOneServes(s, "memberships", "memberships", "groups/memberships", v, q);
    SubWithin(s, "memberships", "memberships", q);
    SubWithin(m, "current", "current", q);
    IndexHandler(c, Action("groups/memberships", "current"), v, q);
    if |q| > k + 1 {
      assert q[k + 1..] == ["current"] <==> |q| == k + 2 && q[k + 1] == "current";
    }
  }

  lemma PositionsServe(s: Scope, v: Verb, q: seq<string>)
    ensures Handler(Positions(s), v, q) ==
            if v == GET && Deeper(s, q) && q[|s.path|] == "positions" then PositionsAnswer(q[|s.path| + 1..])
            else None
  {
    var k := |s.path|;
    var p := Sub(s, "positions", "positions");
    var c := Sub(p, "chairs", "chairs");
    var a := [Index(p, Action("groups/positions", "index"))];
    var b := [Index(c, Action("groups/positions/chairs", "index"))];
    var d := [Index(Sub(c, "current", "current"), Action("groups/positions/chairs", "current"))];
    var e := [Index(Sub(p, "current", "current"), Action("groups/positions", "current"))];
    SubWithin(s, "positions", "positions", q);
    SubWithin(p, "chairs", "chairs", q);
    SubWithin(c, "current", "current", q);
    SubWithin(p, "current", "current", q);
    HandlerAppend(a, b, v, q);
    HandlerAppend(a + b, d, v, q);
    HandlerAppend(a + b + d, e, v, q);
    IndexHandler(p, Action("groups/positions", "index"), v, q);
    IndexHandler(c, Action("groups/positions/chairs", "index"), v, q);
    IndexHandler(Sub(c, "current", "current"), Action("groups/positions/chairs", "current"), v, q);
    IndexHandler(Sub(p, "current", "current"), Action("groups/positions", "current"), v, q);
    if |q| > k {
      var rest := q[k + 1..];
      assert rest == ["chairs"] <==> |q| == k + 2 && q[k + 1] == "chairs";
      assert rest == ["current"] <==> |q| == k + 2 && q[k + 1] == "current";
      assert rest == ["chairs", "current"] <==> |q| == k + 3 && q[k + 1] == "chairs" && q[k + 2] == "current";
    }
  }

  lemma AnsweredQuestionsServe(s: Scope, v: Verb, q: seq<string>)
    ensures Handler([AnsweredQuestions(s)], v, q) ==
            if v == GET && Deeper(s, q) && q[|s.path|..] == ["questions", "written", "answered"] then
              Some(Action("groups/questions/written/answered", "index"))
            else None
  {
    var k := |s.path|;
    var a := Sub(s, "questions", "questions");
    var b := Sub(a, "written", "written");
    var c := Sub(b, "answered", "answered");
    SubWithin(s, "questions", "questions", q);
    SubWithin(a, "written", "written", q);
    SubWithin(b, "answered", "answered", q);
    IndexHandler(c, Action("groups/questions/written/answered", "index"), v, q);
    if |q| > k {
      assert q[k..] == ["questions", "written", "answered"] <==>
             |q| == k + 3 && q[k] == "questions" && q[k + 1] == "written" && q[k + 2] == "answered";
    }
  }

  lemma LaidPapersServe(s: Scope, v: Verb, q: seq<string>)
    requires s.constraints == map[] && Param("paper_type") !in s.path
    ensures Handler(LaidPapers(s), v, q) ==
            if v != GET || !Within(s, q) then None
            else if |q| == |s.path| then Some(Action("groups/made_available/availability_types/laid_papers", "index"))
            else if q[|s.path|] == "paper-types" then PaperTypeAnswer(LaidPaperTypes, false, q[|s.path| + 1..])
            else None
  {
    HandlerAppend([Index(s, Action("groups/made_available/availability_types/laid_papers", "index"))],
                  PaperTypeRoutes(s, LaidPaperTypes, false), v, q);
    IndexHandler(s, Action("groups/made_available/availability_types/laid_papers", "index"), v, q);
    PaperTypeServes(s, LaidPaperTypes, false, v, q);
  }

  lemma MadeAvailableServe(s: Scope, v: Verb, q: seq<string>)
    requires s.constraints == map[] && Param("paper_type") !in s.path
    ensures Handler(MadeAvailable(s), v, q) ==
            if v == GET && Deeper(s, q) && q[|s.path|] == "made-available" then MadeAvailableAnswer(q[|s.path| + 1..])
            else None
  {
    var k := |s.path|;
    var m := Sub(s, "made-available", "made_available");
    var a := Sub(m, "availability-types", "availability_types");
    var l := Sub(a, "laid-papers", "laid_papers");
    var i := [Index(m, Action("groups/made_available", "index"))];
    var j := [Index(a, Action("groups/made_available/availability_types", "index"))];
    SubWithin(s, "made-available", "made_available", q);
    SubWithin(m, "availability-types", "availability_types", q);
    SubWithin(a, "laid-papers", "laid_papers", q);
    assert l.path == s.path + [Lit("made-available"), Lit("availability-types"), Lit("laid-papers")];
    HandlerAppend(i, j, v, q);
    HandlerAppend(i + j, LaidPapers(l), v, q);
    IndexHandler(m, Action("groups/made_available", "index"), v, q);
    IndexHandler(a, Action("groups/made_available/availability_types", "index"), v, q);
    LaidPapersServe(l, v, q);
    if |q| > k + 1 {
      var rest := q[k + 1..];
      assert rest[0] == q[k + 1];
      assert |rest| > 1 ==> rest[1] == q[k + 2];
      assert |rest| > 2 ==> rest[2] == q[k + 3] && rest[3..] == q[k + 4..];
    }
  }

  /** The pages of one group answer exactly what GroupPagesAnswer says for
      the segments past s's prefix. */
  lemma GroupPagesServe(s: Scope, v: Verb, q: seq<string>)
    requires s.constraints == map[] && Param("paper_type") !in s.path
    ensures Handler(GroupPages(s), v, q) ==
            if Deeper(s, q) then GroupPagesAnswer(v, q[|s.path|..]) else None
  {
    var k := |s.path|;
    var m := Memberships(s);
    var h := [Index(Sub(s, "houses", "houses"), Action("groups/houses", "index"))];
    var p := Positions(s);
    var w := [AnsweredQuestions(s)];
    HandlerAppend(m, h, v, q);
    HandlerAppend(m + h, p, v, q);
    HandlerAppend(m + h + p, w, v, q);
    HandlerAppend(m + h + p + w, MadeAvailable(s), v, q);
    MembershipsServe(s, v, q);
    SubWithin(s, "houses", "houses", q);
    IndexHandler(Sub(s, "houses", "houses"), Action("groups/houses", "index"), v, q);
    PositionsServe(s, v, q);
    AnsweredQuestionsServe(s, v, q);
    MadeAvailableServe(s, v, q);
    if Deeper(s, q) {
      var rest := q[k..];
      assert rest[0] == q[k] && rest[1..] == q[k + 1..];
      assert rest == ["houses"] <==> |q| == k + 1 && q[k] == "houses";
    }
  }

  // -----------------------------------------------------------------------
  // The scope of one group.
  // -----------------------------------------------------------------------

  function GroupScope(): Scope {
    InParam("groups", "group", "group_id")
  }

  /** `scope '/groups', as: 'group' do scope '/:group_id' do ... end end`:
      the id-constrained show page, then the group's pages. */
  function Group(t: seq<Route>): (r: seq<Route>)
    ensures |r| == |t| + 16
  {
    t + [Entry(GroupScope(), GET, [], "groups#show", None, map["group_id" := IdFormat])] + GroupPages(GroupScope())
  }

  /** Where a request below /groups goes in the group scope: an id alone to
      the show page, and any segment followed by more to the group's pages. */
  function GroupAnswer(v: Verb, rest: seq<string>): Option<string> {
    if v == GET && |rest| == 1 && IsId(rest[0]) then Some("groups#show")
    else if |rest| > 1 && DefaultSegment(rest[0]) then GroupPagesAnswer(v, rest[1..])
    else None
  }

  lemma GroupServe(t: seq<Route>, v: Verb, q: seq<string>)
    ensures Handler(Group(t), v, q) ==
            Then(Handler(t, v, q), if |q| > 0 && q[0] == "groups" then GroupAnswer(v, q[1..]) else None)
  {
    var g := GroupScope();
    WithinInParam("groups", "group", "group_id", q);
    assert g.path == [Lit("groups"), Param("group_id")];
    GroupPagesServe(g, v, q);
    ShowPages(t, "groups", "group", "group_id", "groups#show", GroupPages(g), v, q);
    if |q| > 1 {
      var rest := q[1..];
      assert rest[0] == q[1] && rest[1..] == q[2..];
    }
  }

  // -----------------------------------------------------------------------
  // The listing of groups.
  // -----------------------------------------------------------------------

  function GroupsScope(): Scope {
    In("groups", "groups")
  }

  /** The index and `listable` at the head of the listing. */
  function GroupsHead(s: Scope): (r: seq<Route>)
    ensures |r| == 3
  {
    [Index(s, Action("groups", "index"))] + ListableRoutes(s, Action("groups", "a_to_z"), Action("groups", "letters"))
  }

  /** The government organisation and committee listings. */
  function GroupKinds(s: Scope): (r: seq<Route>)
    ensures |r| == 12
  {
    ListingPair(s, "government-organisations", "government_organisations", "groups/government_organisations")
      + ListingPair(s, "committees", "committees", "groups/committees")
  }

  /** `post '/lookup'`, the current groups and the lookup by letters. */
  function GroupsTail(s: Scope): (r: seq<Route>)
    ensures |r| == 5
  {
    var c := Sub(s, "current", "current");
    [Entry(s, POST, [Lit("lookup")], Action("groups", "lookup"), None, map[])]
      + ([Index(c, Action("groups", "current"))]
         + ListableRoutes(c, Action("groups", "a_to_z_current"), Action("groups", "current_letters")))
      + LookupableRoutes(s, Action("groups", "lookup_by_letters"))
  }

  function GroupsListing(t: seq<Route>): (r: seq<Route>)
    ensures |r| == |t| + 20
  {
    t + GroupsHead(GroupsScope()) + GroupKinds(GroupsScope()) + GroupsTail(GroupsScope())
  }

  function Groups(t: seq<Route>): (r: seq<Route>)
    ensures |r| == |t| + 36
  {
    GroupsListing(Group(t))
  }

  /** Where a request below /groups goes in the listing: POST only for the
      lookup; the two kinds of group have listings of their own; the index,
      A to Z and current pages come before the lookup by letters, which takes
      any other single segment. */
  function GroupsListingAnswer(v: Verb, rest: seq<string>): Option<string> {
    if v == POST then (if rest == ["lookup"] then Some(Action("groups", "lookup")) else None)
    else if |rest| > 0 && rest[0] == "government-organisations" then
      PairAnswer("groups/government_organisations", true, rest[1..])
    else if |rest| > 0 && rest[0] == "committees" then PairAnswer("groups/committees", true, rest[1..])
    else Then(PairAnswer("groups", true, rest),
              if |rest| == 1 && DefaultSegment(rest[0]) then Some(Action("groups", "lookup_by_letters")) else None)
  }

  /** The whole of /groups: the group scope first, then the listing. */
  function GroupsAnswer(v: Verb, rest: seq<string>): Option<string> {
    Then(GroupAnswer(v, rest), GroupsListingAnswer(v, rest))
  }

  lemma GroupsHeadServe(u: seq<Route>, v: Verb, q: seq<string>)
    ensures Handler(u + GroupsHead(GroupsScope()), v, q) ==
            Then(Handler(u, v, q), if v == GET && |q| > 0 && q[0] == "groups" then PairAnswer("groups", false, q[1..]) else None)
  {
    var s := GroupsScope();
    WithinIn("groups", "groups", q);
    HandlerAppend(u, GroupsHead(s), v, q);
    IndexListableServes(s, Action("groups", "index"), Action("groups", "a_to_z"), Action("groups", "letters"), v, q);
    if |q| > 1 {
      var rest := q[1..];
      assert rest[0] == q[1];
      assert |rest| > 1 ==> rest[1] == q[2];
    }
  }

  lemma GroupKindsServe(u: seq<Route>, v: Verb, q: seq<string>)
    ensures Handler(u + GroupKinds(GroupsScope()), v, q) ==
            Then(Handler(u, v, q),
                 if v != GET || |q| < 2 || q[0] != "groups" then None
                 else if q[1] == "government-organisations" then PairAnswer("groups/government_organisations", true, q[2..])
                 else if q[1] == "committees" then PairAnswer("groups/committees", true, q[2..])
                 else None)
  {
    var s := GroupsScope();
    var a := ListingPair(s, "government-organisations", "government_organisations", "groups/government_organisations");
    WithinIn("groups", "groups", q);
    HandlerAppend(u, GroupKinds(s), v, q);
    HandlerAppend(a, ListingPair(s, "committees", "committees", "groups/committees"), v, q);
    ListingPairServes(s, "government-organisations", "government_organisations", "groups/government_organisations", v, q);
    ListingPairServes(s, "committees", "committees", "groups/committees", v, q);
  }

  lemma GroupsTailServe(u: seq<Route>, v: Verb, q: seq<string>)
    ensures Handler(u + GroupsTail(GroupsScope()), v, q) ==
            Then(Handler(u, v, q),
                 if |q| == 0 || q[0] != "groups" then None
                 else if v == POST then (if q[1..] == ["lookup"] then Some(Action("groups", "lookup")) else None)
                 else Then(if |q| > 1 && q[1] == "current" then PairAnswer("groups", true, q[1..]) else None,
                           if |q| == 2 && DefaultSegment(q[1]) then Some(Action("groups", "lookup_by_letters")) else None))
  {
    var s := GroupsScope();
    var c := Sub(s, "current", "current");
    var p := [Entry(s, POST, [Lit("lookup")], Action("groups", "lookup"), None, map[])];
    var cur := [Index(c, Action("groups", "current"))]
      + ListableRoutes(c, Action("groups", "a_to_z_current"), Action("groups", "current_letters"));
    WithinIn("groups", "groups", q);
    SubWithin(s, "current", "current", q);
    HandlerAppend(u, GroupsTail(s), v, q);
    HandlerAppend(p, cur, v, q);
    HandlerAppend(p + cur, LookupableRoutes(s, Action("groups", "lookup_by_letters")), v, q);
    EntryHandler(s, POST, [Lit("lookup")], Action("groups", "lookup"), None, v, q);
    IndexListableServes(c, Action("groups", "current"), Action("groups", "a_to_z_current"),
                        Action("groups", "current_letters"), v, q);
    LookupableServes(s, Action("groups", "lookup_by_letters"), v, q);
    if |q| > 0 {
      LitPathAccepts("lookup", q[1..], map[]);
      var rest := q[1..];
      if |q| > 1 {
        assert rest[0] == q[1];
        assert rest[1..] == q[2..];
        assert |rest| > 1 ==> rest[1] == q[2];
        assert |rest| > 2 ==> rest[2] == q[3];
      }
    }
  }

  /** The listing answers exactly what GroupsListingAnswer says below
      /groups, and nothing elsewhere. */
  lemma GroupsListingServe(t: seq<Route>, v: Verb, q: seq<string>)
    ensures Handler(GroupsListing(t), v, q) ==
            Then(Handler(t, v, q), if |q| > 0 && q[0] == "groups" then GroupsListingAnswer(v, q[1..]) else None)
  {
    var s := GroupsScope();
    GroupsHeadServe(t, v, q);
    GroupKindsServe(t + GroupsHead(s), v, q);
    GroupsTailServe(t + GroupsHead(s) + GroupKinds(s), v, q);
    if |q| > 0 && q[0] == "groups" {
      var rest := q[1..];
      assert |q| > 1 ==> rest[0] == q[1] && rest[1..] == q[2..];
    }
  }

  /** /groups answers as the group scope says first and as the listing says
      otherwise, and nothing outside /groups changes. */
  lemma GroupsServe(t: seq<Route>, v: Verb, q: seq<string>)
    ensures Handler(Groups(t), v, q) ==
            Then(Handler(t, v, q), if |q| > 0 && q[0] == "groups" then GroupsAnswer(v, q[1..]) else None)
  {
    GroupServe(t, v, q);
    GroupsListingServe(Group(t), v, q);
  }

  function GroupPaperTypePath(id: string, x: string): seq<string> {
    ["groups", id, "made-available", "availability-types", "laid-papers", "paper-types", x]
  }

  lemma GroupPaperTypeAnswer(id: string, x: string)
    requires DefaultSegment(id)
    ensures GroupsAnswer(GET, GroupPaperTypePath(id, x)[1..]) ==
            if IsPaperType(x) then Some(Action(LaidPaperTypes, "show")) else None
  {
    var rest := GroupPaperTypePath(id, x)[1..];
    assert rest[1..] == ["made-available", "availability-types", "laid-papers", "paper-types", x];
    assert rest[1..][1..] == ["availability-types", "laid-papers", "paper-types", x];
    assert rest[1..][1..][3..] == [x];
  }

  /** The paper-type page of a group's laid papers answers only the three
      paper types: the scope constraint reaches the route inside it. */
  lemma GroupPaperTypePage(t: seq<Route>, id: string, x: string)
    requires Handler(t, GET, GroupPaperTypePath(id, x)) == None
    requires DefaultSegment(id)
    ensures Handler(Groups(t), GET, GroupPaperTypePath(id, x)) ==
            if IsPaperType(x) then Some(Action(LaidPaperTypes, "show")) else None
  {
    GroupsServe(t, GET, GroupPaperTypePath(id, x));
    GroupPaperTypeAnswer(id, x);
  }

  lemma LettersShadowAnswer()
    ensures GroupsAnswer(GET, ["a-z", "houses"]) == Some(Action("groups/houses", "index"))
  {
    assert DefaultSegment("a-z");
    assert ["a-z", "houses"][1..] == ["houses"];
  }

  /** A value of the letter parameter that names a page of a group does not
      reach the letter page: the group scope, registered first with an
      unconstrained group parameter, takes `/groups/a-z/houses`. */
  lemma GroupPagesBeforeLetters(t: seq<Route>)
    requires Handler(t, GET, ["groups", "a-z", "houses"]) == None
    ensures Handler(Groups(t), GET, ["groups", "a-z", "houses"]) == Some(Action("groups/houses", "index"))
  {
    var q := ["groups", "a-z", "houses"];
    GroupsServe(t, GET, q);
    LettersShadowAnswer();
    assert q[1..] == ["a-z", "houses"];
  }

  /** A one-character letter is never the name of a group page, so the
      letter page below a-z is not shadowed by the group scope. */
  lemma OneCharLetterAnswer(l: string)
    requires |l| == 1 && DefaultSegment(l)
    ensures GroupsAnswer(GET, ["a-z", l]) == Some(Action("groups", "letters"))
  {
    assert GroupPagesAnswer(GET, [l]) == None;
    assert PairAnswer("groups", true, ["a-z", l]) == Some(Action("groups", "letters"));
  }

  /** GET /groups/a-z/<l> reaches the letter page for every one-character
      letter. */
  lemma LettersNotShadowed(t: seq<Route>, l: string)
    requires Handler(t, GET, ["groups", "a-z", l]) == None
    requires |l| == 1 && DefaultSegment(l)
    ensures Handler(Groups(t), GET, ["groups", "a-z", l]) == Some(Action("groups", "letters"))
  {
    var q := ["groups", "a-z", l];
    GroupsServe(t, GET, q);
    OneCharLetterAnswer(l);
    assert q[1..] == ["a-z", l];
  }

  lemma LookupLastAnswer(x: string)
    requires DefaultSegment(x) && !IsId(x)
    requires x != "a-z" && x != "current" && x != "government-organisations" && x != "committees"
    ensures GroupsAnswer(GET, [x]) == Some(Action("groups", "lookup_by_letters"))
  {
  }

  /** A GET of any other single segment below /groups that is not an id
      reaches the lookup by letters, `lookup` included: only POST reaches the
      lookup itself. */
  lemma GroupsLookupLast(t: seq<Route>, x: string)
    requires Handler(t, GET, ["groups", x]) == None
    requires DefaultSegment(x) && !IsId(x)
    requires x != "a-z" && x != "current" && x != "government-organisations" && x != "committees"
    ensures Handler(Groups(t), GET, ["groups", x]) == Some(Action("groups", "lookup_by_letters"))
  {
    GroupsServe(t, GET, ["groups", x]);
    LookupLastAnswer(x);
    assert ["groups", x][1..] == [x];
  }

  // -----------------------------------------------------------------------
  // Drawing the routes.
  // -----------------------------------------------------------------------

  method DrawMemberships(rs: RouteSet)
    modifies rs
    ensures rs.routes == old(rs.routes) + Memberships(old(rs.scope))
    ensures rs.scope == old(rs.scope) && rs.saved == old(rs.saved)
  {
    rs.BeginScope([Lit("memberships")], Some("memberships"));
      rs.Get([], Action("groups/memberships", "index"));
      rs.Listable(Action("groups/memberships", "a_to_z"), Action("groups/memberships", "letters"));
      rs.BeginScope([Lit("current")], Some("current"));
        rs.Get([], Action("groups/memberships", "current"));
      rs.EndScope();
    rs.EndScope();
  }

  method DrawPositions(rs: RouteSet)
    modifies rs
    ensures rs.routes == old(rs.routes) + Positions(old(rs.scope))
    ensures rs.scope == old(rs.scope) && rs.saved == old(rs.saved)
  {
    rs.BeginScope([Lit("positions")], Some("positions"));
      rs.Get([], Action("groups/positions", "index"));
      rs.BeginScope([Lit("chairs")], Some("chairs"));
        rs.Get([], Action("groups/positions/chairs", "index"));
        rs.BeginScope([Lit("current")], Some("current"));
          rs.Get([], Action("groups/positions/chairs", "current"));
        rs.EndScope();
      rs.EndScope();
      rs.BeginScope([Lit("current")], Some("current"));
        rs.Get([], Action("groups/positions", "current"));
      rs.EndScope();
    rs.EndScope();
  }

  method DrawMadeAvailable(rs: RouteSet)
    modifies rs
    ensures rs.routes == old(rs.routes) + MadeAvailable(old(rs.scope))
    ensures rs.scope == old(rs.scope) && rs.saved == old(rs.saved)
  {
    rs.BeginScope([Lit("made-available")], Some("made_available"));
      rs.Get([], Action("groups/made_available", "index"));
      rs.BeginScope([Lit("availability-types")], Some("availability_types"));
        rs.Get([], Action("groups/made_available/availability_types", "index"));
        rs.BeginScope([Lit("laid-papers")], Some("laid_papers"));
          rs.Get([], Action("groups/made_available/availability_types/laid_papers", "index"));
          DrawPaperTypeRoutes(rs, LaidPaperTypes, false);
        rs.EndScope();
      rs.EndScope();
    rs.EndScope();
  }

  method DrawAnsweredQuestions(rs: RouteSet)
    modifies rs
    ensures rs.routes == old(rs.routes) + [AnsweredQuestions(old(rs.scope))]
    ensures rs.scope == old(rs.scope) && rs.saved == old(rs.saved)
  {
    rs.BeginScope([Lit("questions")], Some("questions"));
      rs.BeginScope([Lit("written")], Some("written"));
        rs.BeginScope([Lit("answered")], Some("answered"));
          rs.Get([], Action("groups/questions/written/answered", "index"));
        rs.EndScope();
      rs.EndScope();
    rs.EndScope();
  }

  method DrawGroupPages(rs: RouteSet)
    modifies rs
    ensures rs.routes == old(rs.routes) + GroupPages(old(rs.scope))
    ensures rs.scope == old(rs.scope) && rs.saved == old(rs.saved)
  {
    DrawMemberships(rs);
    rs.BeginScope([Lit("houses")], Some("houses"));
      rs.Get([], Action("groups/houses", "index"));
    rs.EndScope();
    DrawPositions(rs);
    DrawAnsweredQuestions(rs);
    DrawMadeAvailable(rs);
  }

  method DrawGroup(rs: RouteSet)
    requires rs.scope == Top
    modifies rs
    ensures rs.routes == Group(old(rs.routes))
    ensures rs.scope == Top && rs.saved == old(rs.saved)
  {
    rs.BeginScope([Lit("groups")], Some("group"));
      rs.BeginScope([Param("group_id")]);
        rs.Get([], "groups#show", reqs := map["group_id" := IdFormat]);
        DrawGroupPages(rs);
      rs.EndScope();
    rs.EndScope();
  }

  method DrawGroupsTail(rs: RouteSet)
    modifies rs
    ensures rs.routes == old(rs.routes) + GroupsTail(old(rs.scope))
    ensures rs.scope == old(rs.scope) && rs.saved == old(rs.saved)
  {
    rs.Post([Lit("lookup")], Action("groups", "lookup"));
    rs.BeginScope([Lit("current")], Some("current"));
      rs.Get([], Action("groups", "current"));
      rs.Listable(Action("groups", "a_to_z_current"), Action("groups", "current_letters"));
    rs.EndScope();
    rs.Lookupable(Action("groups", "lookup_by_letters"));
  }

  method DrawGroupsListing(rs: RouteSet)
    requires rs.scope == Top
    modifies rs
    ensures rs.routes == GroupsListing(old(rs.routes))
    ensures rs.scope == Top && rs.saved == old(rs.saved)
  {
    rs.BeginScope([Lit("groups")], Some("groups"));
      rs.Get([], Action("groups", "index"));
      rs.Listable(Action("groups", "a_to_z"), Action("groups", "letters"));
      DrawListingPair(rs, "government-organisations", "government_organisations", "groups/government_organisations");
      DrawListingPair(rs, "committees", "committees", "groups/committees");
      DrawGroupsTail(rs);
    rs.EndScope();
  }

  method DrawGroups(rs: RouteSet)
    requires rs.scope == Top
    modifies rs
    ensures rs.routes == Groups(old(rs.routes))
    ensures rs.scope == Top && rs.saved == old(rs.saved)
  {
    DrawGroup(rs);
    DrawGroupsListing(rs);
  }
}
