# Route table of parliament-engine, in Dafny

parliament-engine is a Rails engine that adds the UK Parliament website's
pages to the host application's routes. This project models the two parts
that build that route table:

- the helpers the engine adds to the router's mapper: `listable`, `lookupable`,
  `build_default_routes`, `build_root_and_current_routes` and
  `build_members_routes`, with the id, id-or-schema and paper-type
  validators;
- the `Rails.application.routes.draw` block that uses them to register
  every page, from the root to the treaties.

**The mapper is a class.** `Mapper.RouteSet` holds three fields: the routes
registered so far, the scope in force, and the stack of enclosing scopes.

- `get`, `post` and the two ends of a `scope ... do ... end` block change those
  fields in place.
- Each helper is a method built from those primitives. It is proved to append
  exactly the block of routes that a function of the scope computes
  (`Mapper.DefaultRoutes` and so on).

**The draw block is modelled section by section.** Each section is a function
(`PeopleSection.People`, `GroupsSection.Groups`, ...). It takes the routes
registered before the section and returns them followed by the section's own
routes. A `Draw...` method performs the same calls on a `RouteSet`, and its
contract proves it ends with exactly the function's routes.

**Requests and answers.** A request is a verb and the request path, split into
segment values. `Routing.Handler` is the host router's recognition rule: the
routes are tried in registration order and the first match wins. For every
section there are two definitions:

- an answer function, written independently of the routes, that says where
  each request below the section's root should go;
- a `...Serve` lemma proving that, whatever was registered before, the section
  answers exactly that.

Each Serve lemma has the form `Handler(X(t), v, q) == Then(Handler(t, v, q), answer)`.
Two things follow from that form:

- a section never takes a request that earlier routes already answer;
- it answers nothing outside its own first segment.

The ordering the route file relies on is stated as lemmas about these answers:

- the id show route comes before the lookup by letters;
- fixed segments such as `regions`, `current`, `paper-types` and `lookup` come
  before the wildcard parameters beside them;
- the paper-type constraint covers the routes nested inside its scope.

**Files**

- validators.dfy: the three validators as predicates on a whole segment.
- routing.dfy: routes, scopes, and first-match recognition.
- mapper.dfy: the helpers and the `RouteSet` class.
- blocks.dfy, listings.dfy, paper_types.dfy: patterns the route file repeats.
- One file per part of the route file:
  - pages.dfy, papers.dfy, content.dfy, people.dfy, parties.dfy;
  - postcodes.dfy, constituencies.dfy, contact_points.dfy, houses.dfy;
  - parliaments.dfy, resource.dfy (resource, meta and media), places.dfy;
  - groups.dfy, procedures.dfy (procedure steps, work packages, procedures and
    laid papers).

**One overlap the file's order creates.** The scope of one group is drawn
before the listing of groups, and its group parameter is unconstrained below
the show page. So `/groups/a-z/houses` reaches the houses page of a group
named `a-z`, not the letter page (`GroupsSection.GroupPagesBeforeLetters`).
Letters are single characters and no page of a group has a one-character
name, so no letter is lost (`GroupsSection.LettersNotShadowed`).

## Model

| member | source | states |
|---|---|---|
| Validators.SchemaNameIsNotId | app/lib/ext/action_dispatch/routing/mapper.rb:6 | the two alternatives of ID_OR_SCHEMA_FORMAT_REGEX are disjoint: a schema name `schema/<word>` is never an 8-character id, and the id-or-schema validator accepts it |
| Validators.IdOrSchemaCases | app/lib/ext/action_dispatch/routing/mapper.rb:6 | a segment passes the id-or-schema validator if and only if it is exactly one of an id and a schema name |
| Validators.PaperTypesExact | app/lib/ext/action_dispatch/routing/mapper.rb:7 | PAPER_TYPES holds three slugs and `include?` is exact membership: a value passes if and only if it is one of the three, so case variants and partial slugs fail |
| Routing.FirstMatch | config/routes.rb:186-187 | the router's first-registered-wins rule: the position found holds a route matching the request, no earlier route matches, and None means no route matches |
| Routing.HandlerAppend | config/routes.rb:186-187 | routes registered later never change the answer to a request an earlier route answers; a request nothing answers so far goes to the later routes |
| Mapper.ListableRoutes | app/lib/ext/action_dispatch/routing/mapper.rb:14-22 | `listable` registers exactly two routes |
| Mapper.LookupableRoutes | app/lib/ext/action_dispatch/routing/mapper.rb:27-29 | `lookupable` registers exactly one route |
| Mapper.DefaultRoutes | app/lib/ext/action_dispatch/routing/mapper.rb:38-43 | `build_default_routes` registers one route plus one for each flag that is true |
| Mapper.RootAndCurrentRoutes | app/lib/ext/action_dispatch/routing/mapper.rb:49-54 | `build_root_and_current_routes` registers exactly two routes |
| Mapper.MembersRoutes | app/lib/ext/action_dispatch/routing/mapper.rb:60-76 | `build_members_routes` registers six routes with `current: true` and three with `current: false` |
| Mapper.ListableShape | app/lib/ext/action_dispatch/routing/mapper.rb:14-22 | both routes are plain GETs below the prefix: `<prefix>/a-z` with the A to Z action, then `<prefix>/a-z/:letter` with the letter action, under the names `a_z` and `a_z`, `letter` |
| Mapper.LookupableShape | app/lib/ext/action_dispatch/routing/mapper.rb:27-29 | one plain GET `<prefix>/:letters` with the given action and no constraint of its own |
| Mapper.DefaultShape | app/lib/ext/action_dispatch/routing/mapper.rb:38-43 | the index comes first; every route keeps the scope's constraints and names; a route is a POST if and only if it is named, and that is only `postcode_lookup` with the postcode lookup action; every handler is `<route_name>#` followed by one of the four actions; the last route is a POST exactly when `postcode:` is true; the enabled sub-paths follow the index in the order `current` (second), `lookup` (right after it) and the POST `postcode_lookup` (last) |
| Mapper.RootAndCurrentShape | app/lib/ext/action_dispatch/routing/mapper.rb:49-54 | two plain GETs: `<prefix>/<route_name>` handled by `<parent>#index` and `<prefix>/<route_name>/current` handled by `<parent>#current`, both under the name scope `route_name` |
| Mapper.MembersShape | app/lib/ext/action_dispatch/routing/mapper.rb:60-76 | all routes are plain GETs below `<prefix>/members`, each handled by `<route_name>#` followed by one of the six members actions |
| Mapper.ListableServes | app/lib/ext/action_dispatch/routing/mapper.rb:14-22 | the two routes answer GET `<prefix>/a-z` with the A to Z action and GET `<prefix>/a-z/<letter>` with the letter action, and nothing else |
| Mapper.IndexListableServes | app/lib/ext/action_dispatch/routing/mapper.rb:62-64 | `get '/'` followed by `listable` in one scope answers the index at the prefix and the two listing pages below it, and nothing else |
| Mapper.LookupableServes | app/lib/ext/action_dispatch/routing/mapper.rb:27-29 | the lookup answers GET `<prefix>/<s>` for every single segment the unconstrained `:letters` parameter accepts, and nothing else |
| Mapper.DefaultServes | app/lib/ext/action_dispatch/routing/mapper.rb:38-43 | the default routes answer GET of the prefix with `#index`, GET `current` and `lookup` when enabled, POST `postcode_lookup` when enabled, and nothing else (a GET of `postcode_lookup` is not answered) |
| Mapper.RootAndCurrentServes | app/lib/ext/action_dispatch/routing/mapper.rb:49-54 | the pair answers exactly GET `<prefix>/<route_name>` and GET `<prefix>/<route_name>/current` |
| Mapper.MembersServes | app/lib/ext/action_dispatch/routing/mapper.rb:60-76 | the members routes answer the members index, A to Z and letter pages, and with `current:` the same three under `members/current`; with `current: false` nothing under `members/current` is answered |
| Mapper.MembersWithin | app/lib/ext/action_dispatch/routing/mapper.rb:61-66 | a request is inside `/members` (or `/members/current`) exactly when it is inside the prefix and continues with those segments |
| Mapper.RouteSet.constructor | config/routes.rb:8 | drawing starts with no routes, outside every scope, with no enclosing scope saved |
| Mapper.RouteSet.Get | config/routes.rb:19 | `get` appends one GET route built from the current scope's prefix, names and constraints plus its own path and requirements; the scope is unchanged |
| Mapper.RouteSet.Post | config/routes.rb:92 | `post` appends one POST route built from the current scope; the scope is unchanged |
| Mapper.RouteSet.BeginScope | config/routes.rb:37 | opening a `scope` block saves the current scope and nests the prefix, the `as:` name and the constraints; no route is added |
| Mapper.RouteSet.EndScope | config/routes.rb:39 | closing a `scope` block restores the saved enclosing scope; no route is added |
| Mapper.RouteSet.Listable | app/lib/ext/action_dispatch/routing/mapper.rb:14-22 | appends exactly ListableRoutes for the current scope and leaves the scope as it was |
| Mapper.RouteSet.Lookupable | app/lib/ext/action_dispatch/routing/mapper.rb:27-29 | appends exactly LookupableRoutes for the current scope and leaves the scope as it was |
| Mapper.RouteSet.BuildDefaultRoutes | app/lib/ext/action_dispatch/routing/mapper.rb:38-43 | appends exactly DefaultRoutes for the current scope and flags (all three default to true) and leaves the scope as it was |
| Mapper.RouteSet.BuildRootAndCurrentRoutes | app/lib/ext/action_dispatch/routing/mapper.rb:49-54 | appends exactly RootAndCurrentRoutes and leaves the scope as it was |
| Mapper.RouteSet.BeginMembersRoutes | app/lib/ext/action_dispatch/routing/mapper.rb:60-75 | appends exactly MembersRoutes and leaves the `/members` scope open for the caller's block, saving the enclosing scope |
| Mapper.RouteSet.BuildMembersRoutes | app/lib/ext/action_dispatch/routing/mapper.rb:60-76 | without a block: appends exactly MembersRoutes and leaves the scope as it was |
| Listings.ListingOne | config/routes.rb:478-481 | `scope '/seg'` holding an index and `listable` registers three routes |
| Listings.ListingPair | config/routes.rb:283-292 | the listing followed by its own `current` listing registers six routes |
| Listings.MembersIsListingOne | app/lib/ext/action_dispatch/routing/mapper.rb:60-76 | `build_members_routes(name, current: false)` registers the same routes as the three-route listing under `members` |
| Listings.MembersIsListingPair | app/lib/ext/action_dispatch/routing/mapper.rb:60-76 | `build_members_routes(name, current: true)` registers the same routes as the six-route listing pair under `members` |
| Listings.ListingOneServes | config/routes.rb:478-481 | the listing answers the index, A to Z and letter pages below `<prefix>/seg`, and nothing else |
| Listings.ListingPairServes | config/routes.rb:283-292 | the pair answers those three pages and the same three under `current`, and nothing else |
| Listings.DrawListingOne | config/routes.rb:478-481 | drawing the scope appends exactly ListingOne and restores the scope |
| Listings.DrawListingPair | config/routes.rb:283-292 | drawing the scopes appends exactly ListingPair and restores the scope |
| Blocks.IdAccepts | config/routes.rb:117 | a parameter under `id_format_regex` accepts a segment exactly when it is an 8-character id |
| Blocks.IdShowServes | config/routes.rb:200-201 | an id-constrained show route answers GET of one segment past the prefix only when that segment is an id |
| Blocks.ShowPages | config/routes.rb:277-280 | a show route under the id requirement followed by pages below it: an id alone reaches the show page and deeper requests reach the pages, on top of the routes registered before |
| Blocks.ShowPagesLookup | config/routes.rb:186-187 | with the lookup last: an id alone reaches the show page, deeper requests reach the pages, and any other single segment reaches the lookup by letters |
| Blocks.IndexShowChildren | config/routes.rb:402-419 | a plural index scope and a singular scope with an id-constrained show page and children answer the index, the show page for an id only, and the children below |
| PagesSection.Pages | config/routes.rb:13-34 | the head of the file registers six routes |
| PagesSection.PagesServes | config/routes.rb:13-34 | the root and the five single pages answer exactly GET `/`, `/mps`, `/find-your-constituency`, `/find-a-statutory-instrument`, `/who-should-i-contact-with-my-issue` and `/laying-bodies`, each with its handler |
| PagesSection.DrawPages | config/routes.rb:13-34 | drawing the head appends exactly Pages and leaves the scope at the top |
| PapersSection.PaperScopes | config/routes.rb:37-53 | the listing and single-paper scopes of a kind of laid paper register four routes |
| PapersSection.ProposedNegativeStatutoryInstruments | config/routes.rb:36-53 | the proposed negative statutory instrument scopes register four routes |
| PapersSection.StatutoryInstruments | config/routes.rb:55-72 | the statutory instrument scopes register four routes |
| PapersSection.Treaties | config/routes.rb:705-720 | the treaty scopes register four routes |
| PapersSection.PaperScopesServe | config/routes.rb:37-53 | below `/<x>`: the index, the fixed `lookup`, any other single segment to the show page, and that segment followed by `work-packages` to the paper's work packages; nothing outside `/<x>` |
| PapersSection.StatutoryInstrumentsLookupFirst | config/routes.rb:56-65 | `/statutory-instruments/lookup` is registered before the unconstrained `:statutory_instrument_id`, so GET of it reaches the lookup; any other segment reaches the show page |
| PapersSection.DrawPaperScopes | config/routes.rb:37-53 | drawing the two scopes appends exactly PaperScopes and leaves the scope at the top |
| ContentSection.Catalogue | config/routes.rb:74-86 | articles, questions, concepts and collections register six routes |
| ContentSection.HybridBills | config/routes.rb:88-95 | the hybrid bill petition registers six routes |
| ContentSection.Search | config/routes.rb:97-101 | search registers three routes |
| ContentSection.Content | config/routes.rb:74-101 | the single full-path routes register fifteen routes |
| ContentSection.TopShowServes | config/routes.rb:75 | `get '/<x>/:<n>'` under the id requirement answers GET `/<x>/<id>` for an 8-character id only |
| ContentSection.TopIndexServes | config/routes.rb:81 | `get '/<x>'` answers GET `/<x>` only |
| ContentSection.CatalogueServes | config/routes.rb:74-86 | articles and questions have only a show page and concepts and collections an index and a show page, each show page for an 8-character id only |
| ContentSection.HybridBillsServe | config/routes.rb:88-95 | the petition index; for any bill segment the show page by GET and by POST, the e-mail page by GET, the choice of petition type by POST, and the redirect by GET |
| ContentSection.SearchServes | config/routes.rb:97-101 | GET `/search`, `/search/opensearch` and `/search/redirect`, and nothing else |
| ContentSection.ContentServes | config/routes.rb:74-101 | the fifteen routes together answer what the three reference answers say, each under its own first segment, on top of the routes before them |
| ContentSection.DrawContent | config/routes.rb:74-101 | drawing appends exactly Content and leaves the scope at the top |
| PeopleSection.PeopleListing | config/routes.rb:105-111 | the `people` listing scope registers eleven routes |
| PeopleSection.PeopleListingServe | config/routes.rb:105-111 | below `/people` the listing answers POST only for `postcode_lookup`, GET `lookup`, the members listing with its current members, and the index, A to Z and letter pages |
| PeopleSection.PersonHoldings | config/routes.rb:120-128 | a person's constituencies, contact points, houses and parties register seven routes |
| PeopleSection.GroupedBy | config/routes.rb:134-152 | `grouped-by` registers four routes |
| PeopleSection.Associations | config/routes.rb:131-153 | `associations` registers five routes |
| PeopleSection.Questions | config/routes.rb:156-163 | `questions` registers two routes |
| PeopleSection.Committees | config/routes.rb:166-183 | `committees` registers four routes |
| PeopleSection.PersonPages | config/routes.rb:119-183 | everything below one person registers eighteen routes |
| PeopleSection.HoldingsServe | config/routes.rb:120-128 | the holdings answer GET of `constituencies`, `houses`, `parties` (each with `current`) and `contact-points` after the person, and nothing else |
| PeopleSection.GroupedByServe | config/routes.rb:134-152 | `grouped-by` answers its index and the `opposition`, `government` and `formal-bodies` pages, and nothing else |
| PeopleSection.AssociationsServe | config/routes.rb:131-153 | `associations` answers its index and the grouped-by pages, and nothing else |
| PeopleSection.QuestionsServe | config/routes.rb:156-163 | `questions` answers its index and `written`, and nothing else |
| PeopleSection.CommitteesServe | config/routes.rb:166-183 | `committees` answers its index, `memberships`, `memberships/current` and `chairs`, and nothing else |
| PeopleSection.TopicsServe | config/routes.rb:131-183 | the association, question and committee pages together answer by the segment that follows the person |
| PeopleSection.PersonPagesServe | config/routes.rb:119-183 | a person's pages answer PersonPagesAnswer for the segments after the person parameter, and nothing that does not go on past it |
| PeopleSection.Person | config/routes.rb:114-188 | the `person` scope registers twenty routes |
| PeopleSection.PersonServe | config/routes.rb:114-188 | an id alone reaches the show page, any other single segment reaches the lookup by letters, and deeper requests reach the person's pages whatever the person segment |
| PeopleSection.People | config/routes.rb:105-188 | both `/people` scopes register thirty-one routes |
| PeopleSection.PeopleServe | config/routes.rb:105-188 | the two scopes answer below `/people` as the listing says first and as the person scope says otherwise, nothing outside `/people`, on top of the routes before them |
| PeopleSection.PeopleOneSegment | config/routes.rb:105-188 | a GET of one segment below `/people`: `lookup`, `members` and `a-z` reach the listing's pages, an id reaches the show page, and only what is neither reaches the lookup by letters, which is registered last |
| PeopleSection.DrawPeopleListing | config/routes.rb:105-111 | drawing appends exactly PeopleListing and leaves the scope at the top |
| PeopleSection.DrawPersonHoldings | config/routes.rb:120-128 | drawing appends exactly PersonHoldings inside the current scope |
| PeopleSection.DrawAssociations | config/routes.rb:131-153 | drawing appends exactly Associations inside the current scope |
| PeopleSection.DrawGroupedBy | config/routes.rb:134-152 | drawing appends exactly GroupedBy inside the current scope |
| PeopleSection.DrawQuestions | config/routes.rb:156-163 | drawing appends exactly Questions inside the current scope |
| PeopleSection.DrawCommittees | config/routes.rb:166-183 | drawing appends exactly Committees inside the current scope |
| PeopleSection.DrawPersonPages | config/routes.rb:119-183 | drawing appends exactly PersonPages inside the current scope |
| PeopleSection.DrawPerson | config/routes.rb:114-188 | drawing appends exactly Person and leaves the scope at the top |
| PeopleSection.DrawPeople | config/routes.rb:105-188 | drawing appends exactly People and leaves the scope at the top |
| PartiesSection.PartiesListing | config/routes.rb:192-195 | the `parties` listing scope registers five routes |
| PartiesSection.Party | config/routes.rb:198-209 | the `party` scope registers eight routes |
| PartiesSection.Parties | config/routes.rb:192-209 | both `/parties` scopes register thirteen routes |
| PartiesSection.PartiesListingExact | config/routes.rb:192-195 | the listing is exactly five GET routes in this order, with no POST: the index, `current`, `lookup`, the A to Z page and the letter page |
| PartiesSection.PartiesListingServe | config/routes.rb:192-195 | below `/parties` the listing answers GET only: the index, `current`, `lookup` and the A to Z and letter pages |
| PartiesSection.PartyServe | config/routes.rb:198-209 | an id alone reaches the show page, any other single segment the lookup by letters, and below a party its members listing with current members |
| PartiesSection.PartiesServe | config/routes.rb:192-209 | the two scopes answer below `/parties` as the listing says first and as the party scope says otherwise, nothing outside `/parties` |
| PartiesSection.PartiesOneSegment | config/routes.rb:192-209 | a GET of one segment below `/parties`: `current`, `lookup` and `a-z` are reached first, an id reaches the show page, and only what is neither reaches the lookup by letters; no POST is answered |
| PartiesSection.DrawParties | config/routes.rb:192-209 | drawing appends exactly Parties and leaves the scope at the top |
| PostcodesSection.Postcodes | config/routes.rb:212-224 | the two `/postcodes` scopes register three routes |
| PostcodesSection.PostcodesServe | config/routes.rb:212-224 | below `/postcodes`: the index, POST `lookup`, and the page of any single postcode segment for GET, `lookup` included; nothing else |
| PostcodesSection.DrawPostcodes | config/routes.rb:212-224 | drawing appends exactly Postcodes and leaves the scope at the top |
| ConstituenciesSection.ConstituenciesListing | config/routes.rb:228-238 | the `constituencies` listing scope registers eight routes |
| ConstituenciesSection.ConstituencyPages | config/routes.rb:245-249 | a constituency's contact point, map and members register four routes |
| ConstituenciesSection.Constituency | config/routes.rb:241-254 | the `constituency` scope registers six routes |
| ConstituenciesSection.Constituencies | config/routes.rb:228-254 | both `/constituencies` scopes register fourteen routes |
| ConstituenciesSection.AnswersCombine | config/routes.rb:228-254 | the listing's answer taken first and the constituency scope's answer otherwise give the section's reference answer |
| ConstituenciesSection.ListingServes | config/routes.rb:228-238 | the listing answers the index, `lookup`, POST `postcode_lookup`, the A to Z pages and the `current` listing |
| ConstituenciesSection.ConstituencyPagesServe | config/routes.rb:245-249 | a constituency's pages answer `contact-point`, `map`, `members` and `members/current` past its scope, and nothing else |
| ConstituenciesSection.ConstituencyServes | config/routes.rb:241-254 | an id alone reaches the show page, any other single segment the lookup by letters, and the pages accept any segment in the id position |
| ConstituenciesSection.ConstituenciesServe | config/routes.rb:228-254 | below `/constituencies` the answer is ConstituenciesAnswer: `lookup`, `a-z` and `current` are reached before the show page and the lookup by letters |
| ConstituenciesSection.ConstituenciesElsewhere | config/routes.rb:228-254 | the section answers nothing outside `/constituencies` |
| ConstituenciesSection.DrawConstituenciesListing | config/routes.rb:228-238 | drawing appends exactly ConstituenciesListing and leaves the scope at the top |
| ConstituenciesSection.DrawConstituencyPages | config/routes.rb:245-249 | drawing appends exactly ConstituencyPages inside the current scope |
| ConstituenciesSection.DrawConstituency | config/routes.rb:241-254 | drawing appends exactly Constituency and leaves the scope at the top |
| ConstituenciesSection.DrawConstituencies | config/routes.rb:228-254 | drawing appends exactly Constituencies and leaves the scope at the top |
| ContactPointsSection.ContactPoints | config/routes.rb:258-268 | the two `/contact-points` scopes register two routes |
| ContactPointsSection.ContactPointsServe | config/routes.rb:258-268 | GET `/contact-points` is the index and GET `/contact-points/<id>` the show page for an 8-character id only; nothing else |
| ContactPointsSection.DrawContactPoints | config/routes.rb:258-268 | drawing appends exactly ContactPoints and leaves the scope at the top |
| HousesSection.HousesListing | config/routes.rb:272-274 | the `houses` listing scope registers two routes |
| HousesSection.HouseParties | config/routes.rb:298-320 | a House's parties register nine routes |
| HousesSection.HouseMadeAvailable | config/routes.rb:323-335 | a House's made-available pages register three routes |
| HousesSection.HousePages | config/routes.rb:283-335 | everything below one House registers twenty-four routes |
| HousesSection.House | config/routes.rb:277-340 | the `house` scope registers twenty-six routes |
| HousesSection.Houses | config/routes.rb:272-340 | both `/houses` scopes register twenty-eight routes |
| HousesSection.HousePartiesServe | config/routes.rb:298-320 | below a House's `parties`: the index and `current` first, then any party segment reaches the party's page and its members listing with current members |
| HousesSection.HouseMadeAvailableServe | config/routes.rb:323-335 | `made-available` answers its index, `availability-types` and `availability-types/laid-papers`, and nothing else |
| HousesSection.HousePagesServe | config/routes.rb:283-335 | a House's pages answer HousePagesAnswer for the segments after its id, and nothing that does not go on past the id |
| HousesSection.HousesListingServe | config/routes.rb:272-274 | the listing answers the index and `lookup` only: there is no `current` and no postcode lookup |
| HousesSection.HouseServe | config/routes.rb:277-340 | an id alone reaches the show page, any other single segment the lookup by letters, and deeper requests the House's pages |
| HousesSection.HousesServe | config/routes.rb:272-340 | below `/houses` the answer is HousesAnswer; `/houses/current` reaches the lookup by letters |
| HousesSection.HousesElsewhere | config/routes.rb:272-340 | the section answers nothing outside `/houses` |
| HousesSection.DrawHousesListing | config/routes.rb:272-274 | drawing appends exactly HousesListing and leaves the scope at the top |
| HousesSection.DrawHouseParties | config/routes.rb:298-320 | drawing appends exactly HouseParties inside the current scope |
| HousesSection.DrawHouseMadeAvailable | config/routes.rb:323-335 | drawing appends exactly HouseMadeAvailable inside the current scope |
| HousesSection.DrawHousePages | config/routes.rb:283-335 | drawing appends exactly HousePages inside the current scope |
| HousesSection.DrawHouse | config/routes.rb:277-340 | drawing appends exactly House and leaves the scope at the top |
| HousesSection.DrawHouses | config/routes.rb:272-340 | drawing appends exactly Houses and leaves the scope at the top |
| ParliamentsSection.ParliamentsListing | config/routes.rb:344-348 | the `parliaments` listing scope registers five routes |
| ParliamentsSection.PartiesBlock | config/routes.rb:402-419 | the `parties` and `party` scopes register five routes |
| ParliamentsSection.HouseIdPages | config/routes.rb:374-398 | the members and parties pages of a House in a Parliament register eight routes |
| ParliamentsSection.ParliamentHouses | config/routes.rb:364-400 | the `houses` and `house` scopes of a Parliament register ten routes |
| ParliamentsSection.ParliamentPages | config/routes.rb:357-426 | everything below one Parliament registers twenty-three routes |
| ParliamentsSection.Parliament | config/routes.rb:351-428 | the `parliament` scope registers twenty-four routes |
| ParliamentsSection.Parliaments | config/routes.rb:344-428 | both `/parliaments` scopes register twenty-nine routes |
| ParliamentsSection.PartiesBlockServe | config/routes.rb:402-419 | below `parties`: the index, a party's page for an id only, and the members listing for any party segment |
| ParliamentsSection.HouseIdPagesServe | config/routes.rb:374-398 | below a House's id in a Parliament: the members listing and the parties pages, and nothing else |
| ParliamentsSection.ParliamentHousesServe | config/routes.rb:364-400 | below a Parliament's `houses`: the index, a House's page for an id only, and the House's own pages for any House segment |
| ParliamentsSection.ParliamentPagesServe | config/routes.rb:357-426 | a Parliament's pages answer ParliamentPagesAnswer for the segments after its id, and nothing that does not go on past the id |
| ParliamentsSection.ListingServe | config/routes.rb:344-348 | the listing answers the index, `current`, `lookup`, `previous` and `next` |
| ParliamentsSection.ParliamentServe | config/routes.rb:351-428 | an id alone reaches the show page and any other single segment nothing; deeper requests reach the Parliament's pages |
| ParliamentsSection.ParliamentsServe | config/routes.rb:344-428 | below `/parliaments` the answer is ParliamentsAnswer |
| ParliamentsSection.ParliamentMembersHaveNoCurrent | config/routes.rb:362 | with `current: false`, `/parliaments/<id>/members/current` is not answered by the section |
| ParliamentsSection.ParliamentsElsewhere | config/routes.rb:344-428 | the section answers nothing outside `/parliaments` |
| ParliamentsSection.DrawParliamentsListing | config/routes.rb:344-348 | drawing appends exactly ParliamentsListing and leaves the scope at the top |
| ParliamentsSection.DrawPartiesBlock | config/routes.rb:402-419 | drawing appends exactly PartiesBlock inside the current scope |
| ParliamentsSection.DrawHouseIdPages | config/routes.rb:374-398 | drawing appends exactly HouseIdPages inside the current scope |
| ParliamentsSection.DrawParliamentHouses | config/routes.rb:364-400 | drawing appends exactly ParliamentHouses inside the current scope |
| ParliamentsSection.DrawParliamentPages | config/routes.rb:357-426 | drawing appends exactly ParliamentPages inside the current scope |
| ParliamentsSection.DrawParliament | config/routes.rb:351-428 | drawing appends exactly Parliament and leaves the scope at the top |
| ParliamentsSection.DrawParliaments | config/routes.rb:344-428 | drawing appends exactly Parliaments and leaves the scope at the top |
| ResourceSection.Resource | config/routes.rb:432-437 | the `/resource` scope registers two routes |
| ResourceSection.ResourceServes | config/routes.rb:432-437 | GET `/resource` is the index and GET `/resource/<s>` the show page exactly when s is an id or a schema name; nothing else |
| Routing.SchemaNameNeedsIdOrSchema | app/lib/ext/action_dispatch/routing/mapper.rb:5-7 | a schema name is refused by an unconstrained segment, by the id validator and by the paper-type test; of the three validators only the id-or-schema one accepts it, and a parameter accepts it exactly when that validator guards it |
| Routing.SchemaNameOnlyByIdOrSchema | config/routes.rb:434-435 | a route whose literal segments are plain words matches a request holding a schema name only at a parameter guarded by the id-or-schema validator; `/resource/:resource_id` is the one route of the file that carries it |
| ResourceSection.SchemaNameReachesResource | config/routes.rb:434-435 | a schema name `schema/<word>` reaches the resource page although it is not an id |
| ResourceSection.Meta | config/routes.rb:441-444 | the `/meta` scope registers two routes |
| ResourceSection.MetaServes | config/routes.rb:441-444 | GET `/meta` and `/meta/cookie-policy`, and nothing else |
| ResourceSection.Media | config/routes.rb:448-453 | the `/media` scope registers two routes |
| ResourceSection.MediaServes | config/routes.rb:448-453 | GET `/media` and GET `/media/<id>` for an 8-character id only |
| ResourceSection.DrawResource | config/routes.rb:432-437 | drawing appends exactly Resource and leaves the scope at the top |
| ResourceSection.DrawMeta | config/routes.rb:441-444 | drawing appends exactly Meta and leaves the scope at the top |
| ResourceSection.DrawMedia | config/routes.rb:448-453 | drawing appends exactly Media and leaves the scope at the top |
| PlacesSection.PlacePages | config/routes.rb:474-482 | one place's page and constituencies listing register four routes |
| PlacesSection.Places | config/routes.rb:457-483 | the three `/places` scopes register six routes |
| PlacesSection.PlacePagesServe | config/routes.rb:474-482 | below a place: its page and the constituencies listing, and nothing else |
| PlacesSection.IndexRegionsServe | config/routes.rb:457-468 | the two routes before the place scope answer GET `/places` and `/places/regions` only |
| PlacesSection.PlaceServe | config/routes.rb:471-483 | any single segment after `/places` reaches the place page, and below it the constituencies listing |
| PlacesSection.PlacesHandler | config/routes.rb:457-483 | the section's answer on the whole request: the index, `regions` before any place, then the place page and its constituencies listing |
| PlacesSection.PlacesServe | config/routes.rb:457-483 | below `/places` the answer is PlacesAnswer, and nothing outside `/places` |
| PlacesSection.RegionsBeforePlace | config/routes.rb:462-475 | `/places/regions` reaches the regions page, not the place page, since it is registered first |
| PlacesSection.DrawPlacePages | config/routes.rb:474-482 | drawing appends exactly PlacePages inside the current scope |
| PlacesSection.DrawPlaces | config/routes.rb:457-483 | drawing appends exactly Places and leaves the scope at the top |
| GroupsSection.Memberships | config/routes.rb:492-500 | a group's memberships register four routes |
| GroupsSection.Positions | config/routes.rb:508-522 | a group's positions register four routes |
| GroupsSection.LaidPapers | config/routes.rb:547-561 | the laid papers of a group register three routes |
| GroupsSection.MadeAvailable | config/routes.rb:539-563 | a group's made-available pages register five routes |
| GroupsSection.GroupPages | config/routes.rb:491-563 | everything below one group registers fifteen routes |
| GroupsSection.MembershipsServe | config/routes.rb:492-500 | `memberships` answers its index, A to Z and letter pages and `current`, and nothing else |
| GroupsSection.PositionsServe | config/routes.rb:508-522 | `positions` answers its index, `chairs`, `chairs/current` and `current`, and nothing else |
| GroupsSection.AnsweredQuestionsServe | config/routes.rb:525-536 | only `questions/written/answered` is answered below the questions scope |
| GroupsSection.LaidPapersServe | config/routes.rb:547-561 | `laid-papers` answers its index and the paper-type pages, and nothing else |
| GroupsSection.MadeAvailableServe | config/routes.rb:539-563 | `made-available` answers its index, `availability-types`, and the laid papers below them |
| GroupsSection.GroupPagesServe | config/routes.rb:491-563 | the pages of one group answer exactly what GroupPagesAnswer says for the segments past the group parameter |
| GroupsSection.Group | config/routes.rb:486-565 | the `group` scope registers sixteen routes |
| GroupsSection.GroupServe | config/routes.rb:486-565 | an id alone reaches the show page and any segment followed by more reaches the group's pages |
| GroupsSection.GroupsHead | config/routes.rb:571-573 | the listing's index and `listable` register three routes |
| GroupsSection.GroupKinds | config/routes.rb:576-595 | the government organisation and committee listings register twelve routes |
| GroupsSection.GroupsTail | config/routes.rb:597-605 | the POST lookup, the current listing and the lookup by letters register five routes |
| GroupsSection.GroupsListing | config/routes.rb:568-606 | the `groups` listing scope registers twenty routes |
| GroupsSection.Groups | config/routes.rb:486-606 | both `/groups` scopes register thirty-six routes |
| GroupsSection.GroupsHeadServe | config/routes.rb:571-573 | the head answers the index and the A to Z and letter pages, on top of the routes before it |
| GroupsSection.GroupKindsServe | config/routes.rb:576-595 | `government-organisations` and `committees` each answer a listing with its current listing |
| GroupsSection.GroupsTailServe | config/routes.rb:597-605 | the tail answers POST `lookup`, the current listing, and GET of any other single segment as the lookup by letters |
| GroupsSection.GroupsListingServe | config/routes.rb:568-606 | below `/groups` the listing answers exactly what GroupsListingAnswer says, and nothing elsewhere |
| GroupsSection.GroupsServe | config/routes.rb:486-606 | below `/groups` the group scope answers first and the listing otherwise; nothing outside `/groups` |
| GroupsSection.GroupPaperTypeAnswer | config/routes.rb:550-559 | the reference answer gives a group's paper-type page for the three paper types only |
| GroupsSection.GroupPaperTypePage | config/routes.rb:555-559 | the lambda constraint on `:paper_type` reaches the route inside its scope: the page answers only the three paper types |
| GroupsSection.LettersShadowAnswer | config/routes.rb:486-573 | the reference answer sends `/groups/a-z/houses` to a group's houses page |
| GroupsSection.GroupPagesBeforeLetters | config/routes.rb:486-573 | the group scope is registered before the listing with an unconstrained group parameter, so `/groups/a-z/houses` reaches a group's houses page and not the letter page |
| GroupsSection.OneCharLetterAnswer | config/routes.rb:486-573 | the reference answer sends `a-z/<l>` to the letter page for every one-character letter, since no group page has a one-character name |
| GroupsSection.LettersNotShadowed | config/routes.rb:486-573 | although the group scope is registered first, GET `/groups/a-z/<l>` reaches `groups#letters` for every one-character letter |
| GroupsSection.LookupLastAnswer | config/routes.rb:597-605 | the reference answer sends any other non-id single segment to the lookup by letters |
| GroupsSection.GroupsLookupLast | config/routes.rb:597-605 | a GET of any single segment that is not an id and not a fixed segment reaches the lookup by letters, `lookup` included: only POST reaches the lookup |
| GroupsSection.DrawMemberships | config/routes.rb:492-500 | drawing appends exactly Memberships inside the current scope |
| GroupsSection.DrawPositions | config/routes.rb:508-522 | drawing appends exactly Positions inside the current scope |
| GroupsSection.DrawMadeAvailable | config/routes.rb:539-563 | drawing appends exactly MadeAvailable inside the current scope |
| GroupsSection.DrawAnsweredQuestions | config/routes.rb:525-536 | drawing appends exactly the answered questions route inside the current scope |
| GroupsSection.DrawGroupPages | config/routes.rb:491-563 | drawing appends exactly GroupPages inside the current scope |
| GroupsSection.DrawGroup | config/routes.rb:486-565 | drawing appends exactly Group and leaves the scope at the top |
| GroupsSection.DrawGroupsTail | config/routes.rb:597-605 | drawing appends exactly GroupsTail inside the current scope |
| GroupsSection.DrawGroupsListing | config/routes.rb:568-606 | drawing appends exactly GroupsListing and leaves the scope at the top |
| GroupsSection.DrawGroups | config/routes.rb:486-606 | drawing appends exactly Groups and leaves the scope at the top |
| PaperTypeScopes.PaperTypeRoutes | config/routes.rb:645-661 | the paper-type index and page register two routes, three with the `current` page |
| PaperTypeScopes.PaperTypeSegment | config/routes.rb:653 | the lambda's test on the segment holds exactly for the three paper types |
| PaperTypeScopes.PaperTypeConstraintCovers | config/routes.rb:650-661 | the scope's constraint covers every route drawn inside it, the `current` page included; the index outside it carries none |
| PaperTypeScopes.PaperTypeServes | config/routes.rb:645-661 | below `paper-types`: the index, the page for a paper type only, and its `current` page when drawn; nothing else |
| PaperTypeScopes.DrawPaperTypeRoutes | config/routes.rb:645-661 | drawing appends exactly PaperTypeRoutes inside the current scope |
| ProceduresSection.OwnerScopes | config/routes.rb:609-632 | the index scope and the single-owner scope register four routes |
| ProceduresSection.ProcedureSteps | config/routes.rb:608-632 | the procedure step scopes register four routes |
| ProceduresSection.Procedures | config/routes.rb:671-691 | the procedure scopes register four routes |
| ProceduresSection.OwnerPagesServe | config/routes.rb:616-632 | below one owner: its page, its work packages and their current page |
| ProceduresSection.OwnerScopesServe | config/routes.rb:609-632 | below `/<x>`: the index, any single segment to the page of one, and below it the work packages and the current ones; nothing outside `/<x>` |
| ProceduresSection.WorkPackages | config/routes.rb:637-669 | the two `/work-packages` scopes register six routes |
| ProceduresSection.WorkPackagesHeadServe | config/routes.rb:637-643 | GET `/work-packages` reaches the index and GET `/work-packages/current` the current page; nothing else, and earlier answers are kept |
| ProceduresSection.WorkPackagesTailServe | config/routes.rb:645-669 | below `/work-packages`, `paper-types/...` goes to the paper-type pages with their current pages, only for the three paper types; any other single segment is the work package page; earlier answers are kept |
| ProceduresSection.WorkPackagesServe | config/routes.rb:637-669 | below `/work-packages` the answer is WorkPackagesAnswer, and nothing elsewhere |
| ProceduresSection.WorkPackagePaperTypeCurrent | config/routes.rb:650-661 | the paper-type constraint covers the nested `current` page: it answers only the three paper types |
| ProceduresSection.WorkPackageFixedFirst | config/routes.rb:637-669 | `current` and `paper-types` are registered before the unconstrained `:work_package_id`, so they reach their own pages |
| ProceduresSection.LaidPapers | config/routes.rb:694-703 | the two `/laid-papers` scopes register two routes |
| ProceduresSection.LaidPapersServe | config/routes.rb:694-703 | GET `/laid-papers` and GET `/laid-papers/<s>` for any segment, and nothing else |
| ProceduresSection.DrawOwnerScopes | config/routes.rb:609-632 | drawing appends exactly OwnerScopes and leaves the scope at the top |
| ProceduresSection.DrawWorkPackages | config/routes.rb:637-669 | drawing appends exactly WorkPackages and leaves the scope at the top |
| ProceduresSection.DrawLaidPapers | config/routes.rb:694-703 | drawing appends exactly LaidPapers and leaves the scope at the top |

## Left out

- Request recognition is simplified:
  - Requests are given as segment values already split at `/`. Rails' own path parsing and regular expressions are not modelled.
  - A parameter takes one segment. The exception is `:resource_id`: there, a schema name `schema/<word>` is given as one value, just as the id-or-schema requirement lets the parameter run across its `/`.
- The optional `(.:format)` suffix that Rails adds to every route is not modelled. An unconstrained parameter accepts a non-empty value without `/`, `.` or `?`.
- The `constraints:` lambdas on `:paper_type` (routes.rb:557 and 653) receive the whole request object. They are modelled as a test on that parameter's value, which is all the lambdas read.
- Route names are kept as the scope `as:` names plus the route's own name. The `*_path` helper names Rails derives from them are not modelled.
- `scope 'chairs'`, `scope ':house_id'` and `scope ':party_id'` are written without a leading `/` (routes.rb:370, 387 and 511). Rails adds the slash, and so does the model: each becomes one segment.
- The whole route table is never composed in one place:
  - There is no single method that draws all twenty-one sections in order, and no single lemma about the whole table.
  - Each section's Draw method and Serve lemma are stated on top of whatever was registered before it, and each answers only under its own first segment. So the sections compose in file order.
  - The composition itself is not written down: unfolding every route of every section in one proof step is beyond what the verifier can check.
- Left out entirely:
  - the `require_relative` of the mapper and the engine's loading (routes.rb:1-3);
  - the controllers the handler strings name;
  - the host application's own routes;
  - the form bodies of the hybrid bill petition.
- HTTP verbs other than GET and POST are not modelled; the file uses only those two.
- Concurrency is not modelled: the table is drawn once, by one thread.
- Mapper.RouteSet.BeginMembersRoutes: the block passed to `build_members_routes` is not modelled as a block. No call in the route file passes one, so the method ends with the `/members` scope left open and the caller draws its routes before closing it.
