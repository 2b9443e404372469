/** The routes the file registers as single `get` and `post` calls with
    full paths between the statutory instruments and the people: articles,
    questions, concepts, collections, the hybrid bill petition and search. */
module ContentSection {
  import opened Validators
  import opened Routing
  import opened Mapper
  import opened Blocks

  /** Articles, questions, concepts and collections. */
  function Catalogue(t: seq<Route>): (r: seq<Route>)
    ensures |r| == |t| + 6
  {
    t + [Entry(Top, GET, [Lit("articles"), Param("article_id")], "articles#show", Some("article"), map["article_id" := IdFormat])]
      + [Entry(Top, GET, [Lit("questions"), Param("question_id")], "questions#show", Some("question"), map["question_id" := IdFormat])]
      + [Entry(Top, GET, [Lit("concepts")], "concepts#index", Some("concepts"), map[])]
      + [Entry(Top, GET, [Lit("concepts"), Param("concept_id")], "concepts#show", Some("concept"), map["concept_id" := IdFormat])]
      + [Entry(Top, GET, [Lit("collections")], "collections#index", Some("collections"), map[])]
      + [Entry(Top, GET, [Lit("collections"), Param("collection_id")], "collections#show", Some("collection"), map["collection_id" := IdFormat])]
  }

  /** The hybrid bill petition pages, two of which also accept a POST. */
  function HybridBills(t: seq<Route>): (r: seq<Route>)
    ensures |r| == |t| + 6
  {
    var bill := [Lit("petition-a-hybrid-bill"), Param("bill_id")];
    t + [Entry(Top, GET, [Lit("petition-a-hybrid-bill")], "hybrid_bills#index", Some("hybrid_bills"), map[])]
      + [Entry(Top, GET, bill, "hybrid_bills#show", Some("hybrid_bill"), map[])]
      + [Entry(Top, POST, bill, "hybrid_bills#show", None, map[])]
      + [Entry(Top, GET, bill + [Lit("email-a-petition")], "hybrid_bills#email", Some("hybrid_bill_email"), map[])]
      + [Entry(Top, POST, bill + [Lit("email-a-petition")], "hybrid_bills#choose_type", Some("hybrid_bill_email_type"), map[])]
      + [Entry(Top, GET, bill + [Lit("complete-your-petition-online")], "hybrid_bills#redirect", Some("hybrid_bill_redirect"), map[])]
  }

  function Search(t: seq<Route>): (r: seq<Route>)
    ensures |r| == |t| + 3
  {
    t + [Entry(Top, GET, [Lit("search")], "search#index", Some("search"), map[])]
      + [Entry(Top, GET, [Lit("search"), Lit("opensearch")], "search#opensearch", Some("opensearch_description"), map[])]
      + [Entry(Top, GET, [Lit("search"), Lit("redirect")], "search#redirect", Some("redirect"), map[])]
  }

  /** All three, in the order of the route file. */
  function Content(t: seq<Route>): (r: seq<Route>)
    ensures |r| == |t| + 15
  {
    Search(HybridBills(Catalogue(t)))
  }

  // -----------------------------------------------------------------------
  // Which requests the routes answer.
  // -----------------------------------------------------------------------

  /** A listing at /<x> with its show page at /<x>/<id>. */
  function ListingAnswer(index: Option<string>, show: string, v: Verb, rest: seq<string>): Option<string> {
    if v != GET then None
    else if rest == [] then index
    else if |rest| == 1 && IsId(rest[0]) then Some(show)
    else None
  }

  function CatalogueAnswer(v: Verb, q: seq<string>): Option<string> {
    if q == [] then None
    else if q[0] == "articles" then ListingAnswer(None, "articles#show", v, q[1..])
    else if q[0] == "questions" then ListingAnswer(None, "questions#show", v, q[1..])
    else if q[0] == "concepts" then ListingAnswer(Some("concepts#index"), "concepts#show", v, q[1..])
    else if q[0] == "collections" then ListingAnswer(Some("collections#index"), "collections#show", v, q[1..])
    else None
  }

  /** The petition pages: the index; then for any bill segment the show page
      (for GET and POST alike), the e-mail page (GET) or the choice of
      petition type (POST), and the redirect to the online form. */
  function HybridBillAnswer(v: Verb, rest: seq<string>): Option<string> {
    if rest == [] then (if v == GET then Some("hybrid_bills#index") else None)
    else if !DefaultSegment(rest[0]) then None
    else if |rest| == 1 then Some("hybrid_bills#show")
    else if |rest| != 2 then None
    else if rest[1] == "email-a-petition" then
      (if v == GET then Some("hybrid_bills#email") else Some("hybrid_bills#choose_type"))
    else if rest[1] == "complete-your-petition-online" && v == GET then Some("hybrid_bills#redirect")
    else None
  }

  function SearchAnswer(v: Verb, rest: seq<string>): Option<string> {
    if v != GET then None
    else if rest == [] then Some("search#index")
    else if rest == ["opensearch"] then Some("search#opensearch")
    else if rest == ["redirect"] then Some("search#redirect")
    else None
  }

  /** `get '/<x>/:<n>', <n>: id_format_regex` answers GET /<x>/<id>. */
  lemma TopShowServes(t: seq<Route>, x: string, n: string, to: string, name: Option<string>, v: Verb, q: seq<string>)
    ensures Handler(t + [Entry(Top, GET, [Lit(x), Param(n)], to, name, map[n := IdFormat])], v, q) ==
            Then(Handler(t, v, q), if |q| > 0 && q[0] == x then ListingAnswer(None, to, v, q[1..]) else None)
  {
    TopEntry(t, GET, [Lit(x), Param(n)], to, name, map[n := IdFormat], v, q);
    Path2Accepts(Lit(x), Param(n), q, map[n := IdFormat]);
    if |q| > 0 {
      assert |q| == 2 <==> |q[1..]| == 1;
      assert |q| == 2 ==> q[1..][0] == q[1];
    }
  }

  /** `get '/<x>'` answers GET /<x>. */
  lemma TopIndexServes(t: seq<Route>, x: string, to: string, name: Option<string>, v: Verb, q: seq<string>)
    ensures Handler(t + [Entry(Top, GET, [Lit(x)], to, name, map[])], v, q) ==
            Then(Handler(t, v, q), if |q| > 0 && q[0] == x && v == GET && q[1..] == [] then Some(to) else None)
  {
    TopEntry(t, GET, [Lit(x)], to, name, map[], v, q);
    LitPathAccepts(x, q, map[]);
    if |q| > 0 {
      assert |q| == 1 <==> q[1..] == [];
    }
  }

  /** Articles, questions, concepts and collections answer exactly what
      CatalogueAnswer says: a show page only for an 8-character id. */
  lemma CatalogueServes(t: seq<Route>, v: Verb, q: seq<string>)
    ensures Handler(Catalogue(t), v, q) == Then(Handler(t, v, q), CatalogueAnswer(v, q))
  {
    var t1 := t + [Entry(Top, GET, [Lit("articles"), Param("article_id")], "articles#show", Some("article"), map["article_id" := IdFormat])];
    var t2 := t1 + [Entry(Top, GET, [Lit("questions"), Param("question_id")], "questions#show", Some("question"), map["question_id" := IdFormat])];
    var t3 := t2 + [Entry(Top, GET, [Lit("concepts")], "concepts#index", Some("concepts"), map[])];
    var t4 := t3 + [Entry(Top, GET, [Lit("concepts"), Param("concept_id")], "concepts#show", Some("concept"), map["concept_id" := IdFormat])];
    var t5 := t4 + [Entry(Top, GET, [Lit("collections")], "collections#index", Some("collections"), map[])];
    TopShowServes(t, "articles", "article_id", "articles#show", Some("article"), v, q);
    TopShowServes(t1, "questions", "question_id", "questions#show", Some("question"), v, q);
    TopIndexServes(t2, "concepts", "concepts#index", Some("concepts"), v, q);
    TopShowServes(t3, "concepts", "concept_id", "concepts#show", Some("concept"), v, q);
    TopIndexServes(t4, "collections", "collections#index", Some("collections"), v, q);
    TopShowServes(t5, "collections", "collection_id", "collections#show", Some("collection"), v, q);
  }

  lemma HybridBillsServe(t: seq<Route>, v: Verb, q: seq<string>)
    ensures Handler(HybridBills(t), v, q) == Then(Handler(t, v, q),
      if |q| > 0 && q[0] == "petition-a-hybrid-bill" then HybridBillAnswer(v, q[1..]) else None)
  {
    var bill := [Lit("petition-a-hybrid-bill"), Param("bill_id")];
    var email := bill + [Lit("email-a-petition")];
    var online := bill + [Lit("complete-your-petition-online")];
    var t1 := t + [Entry(Top, GET, [Lit("petition-a-hybrid-bill")], "hybrid_bills#index", Some("hybrid_bills"), map[])];
    var t2 := t1 + [Entry(Top, GET, bill, "hybrid_bills#show", Some("hybrid_bill"), map[])];
    var t3 := t2 + [Entry(Top, POST, bill, "hybrid_bills#show", None, map[])];
    var t4 := t3 + [Entry(Top, GET, email, "hybrid_bills#email", Some("hybrid_bill_email"), map[])];
    var t5 := t4 + [Entry(Top, POST, email, "hybrid_bills#choose_type", Some("hybrid_bill_email_type"), map[])];
    assert email == [Lit("petition-a-hybrid-bill"), Param("bill_id"), Lit("email-a-petition")];
    assert online == [Lit("petition-a-hybrid-bill"), Param("bill_id"), Lit("complete-your-petition-online")];
    TopEntry(t, GET, [Lit("petition-a-hybrid-bill")], "hybrid_bills#index", Some("hybrid_bills"), map[], v, q);
    TopEntry(t1, GET, bill, "hybrid_bills#show", Some("hybrid_bill"), map[], v, q);
    TopEntry(t2, POST, bill, "hybrid_bills#show", None, map[], v, q);
    TopEntry(t3, GET, email, "hybrid_bills#email", Some("hybrid_bill_email"), map[], v, q);
    TopEntry(t4, POST, email, "hybrid_bills#choose_type", Some("hybrid_bill_email_type"), map[], v, q);
    TopEntry(t5, GET, online, "hybrid_bills#redirect", Some("hybrid_bill_redirect"), map[], v, q);
    LitPathAccepts("petition-a-hybrid-bill", q, map[]);
    Path2Accepts(Lit("petition-a-hybrid-bill"), Param("bill_id"), q, map[]);
    Path3Accepts(Lit("petition-a-hybrid-bill"), Param("bill_id"), Lit("email-a-petition"), q, map[]);
    Path3Accepts(Lit("petition-a-hybrid-bill"), Param("bill_id"), Lit("complete-your-petition-online"), q, map[]);
    if |q| > 0 {
      var rest := q[1..];
      assert |q| == 1 <==> rest == [];
      assert |q| > 1 ==> rest[0] == q[1];
      assert |q| > 2 ==> rest[1] == q[2];
    }
  }

  lemma SearchServes(t: seq<Route>, v: Verb, q: seq<string>)
    ensures Handler(Search(t), v, q) == Then(Handler(t, v, q),
      if |q| > 0 && q[0] == "search" then SearchAnswer(v, q[1..]) else None)
  {
    var t1 := t + [Entry(Top, GET, [Lit("search")], "search#index", Some("search"), map[])];
    var t2 := t1 + [Entry(Top, GET, [Lit("search"), Lit("opensearch")], "search#opensearch", Some("opensearch_description"), map[])];
    TopEntry(t, GET, [Lit("search")], "search#index", Some("search"), map[], v, q);
    TopEntry(t1, GET, [Lit("search"), Lit("opensearch")], "search#opensearch", Some("opensearch_description"), map[], v, q);
    TopEntry(t2, GET, [Lit("search"), Lit("redirect")], "search#redirect", Some("redirect"), map[], v, q);
    LitPathAccepts("search", q, map[]);
    Path2Accepts(Lit("search"), Lit("opensearch"), q, map[]);
    Path2Accepts(Lit("search"), Lit("redirect"), q, map[]);
    if |q| > 0 {
      assert |q| == 1 <==> q[1..] == [];
      assert |q| == 2 ==> q[1..] == [q[1]];
    }
  }

  /** The three groups of routes together answer exactly what their
      reference answers say, each under its own first segment. */
  lemma ContentServes(t: seq<Route>, v: Verb, q: seq<string>)
    ensures Handler(Content(t), v, q) == Then(Handler(t, v, q),
      if q == [] then None
      else if q[0] == "petition-a-hybrid-bill" then HybridBillAnswer(v, q[1..])
      else if q[0] == "search" then SearchAnswer(v, q[1..])
      else CatalogueAnswer(v, q))
  {
    CatalogueServes(t, v, q);
    HybridBillsServe(Catalogue(t), v, q);
    SearchServes(HybridBills(Catalogue(t)), v, q);
  }

  // -----------------------------------------------------------------------
  // Drawing the routes.
  // -----------------------------------------------------------------------

  method DrawContent(rs: RouteSet)
    requires rs.scope == Top
    modifies rs
    ensures rs.routes == Content(old(rs.routes))
    ensures rs.scope == Top && rs.saved == old(rs.saved)
  {
    rs.Get([Lit("articles"), Param("article_id")], "articles#show", Some("article"), map["article_id" := IdFormat]);
    rs.Get([Lit("questions"), Param("question_id")], "questions#show", Some("question"), map["question_id" := IdFormat]);
    rs.Get([Lit("concepts")], "concepts#index", Some("concepts"));
    rs.Get([Lit("concepts"), Param("concept_id")], "concepts#show", Some("concept"), map["concept_id" := IdFormat]);
    rs.Get([Lit("collections")], "collections#index", Some("collections"));
    rs.Get([Lit("collections"), Param("collection_id")], "collections#show", Some("collection"), map["collection_id" := IdFormat]);
    var bill := [Lit("petition-a-hybrid-bill"), Param("bill_id")];
    rs.Get([Lit("petition-a-hybrid-bill")], "hybrid_bills#index", Some("hybrid_bills"));
    rs.Get(bill, "hybrid_bills#show", Some("hybrid_bill"));
    rs.Post(bill, "hybrid_bills#show");
    rs.Get(bill + [Lit("email-a-petition")], "hybrid_bills#email", Some("hybrid_bill_email"));
    rs.Post(bill + [Lit("email-a-petition")], "hybrid_bills#choose_type", Some("hybrid_bill_email_type"));
    rs.Get(bill + [Lit("complete-your-petition-online")], "hybrid_bills#redirect", Some("hybrid_bill_redirect"));
    rs.Get([Lit("search")], "search#index", Some("search"));
    rs.Get([Lit("search"), Lit("opensearch")], "search#opensearch", Some("opensearch_description"));
    rs.Get([Lit("search"), Lit("redirect")], "search#redirect", Some("redirect"));
  }
}
