/** Concrete requests against a `users` table with no associations, each worked through
    the pipeline to the fragments it appends. Each lemma takes the request and the datatable
    as parameters pinned by its precondition. */
module DatatableScenarios {
  import opened Results
  import opened RubyStrings
  import opened Query
  import opened Datatable
  import opened DatatableProperties

  function Users(): ModelClass {
    ModelClass("users", [], {})
  }

  /** A datatable over `users` with no own filter methods and handlers that return nothing. */
  function PlainConfig(columns: seq<string>, searchable: seq<string>): Config {
    Config(columns, Users(), searchable, {}, (h, r, c, v) => Falsy, (h, r, v) => Falsy)
  }

  lemma FirstSortKeys()
    ensures SortColKey(0) == "iSortCol_0" && SortDirKey(0) == "sSortDir_0"
  {
    NumeralZero();
  }

  lemma SecondSortKeys()
    ensures SortColKey(1) == "iSortCol_1" && SortDirKey(1) == "sSortDir_1"
  {
    NumeralOne();
  }

  lemma FirstFilterKeys()
    ensures FilterColKey(0) == "iFilterCol_0" && FilterValueKey(0) == "sFilterCol_0"
  {
    NumeralZero();
  }

  // ---------------------------------------------------------------------------
  // First page, default length, sorted by `name` descending

  function SortByNameRequest(): Params {
    map["iDisplayStart" := "0", "iSortingCols" := "1", "iSortCol_0" := "1", "sSortDir_0" := "desc"]
  }

  lemma SortByNameCount(p: Params)
    requires p == SortByNameRequest()
    ensures SortCount(p) == 1
  {
    NumeralOne();
  }

  lemma SortByNameColumn(p: Params)
    requires p == SortByNameRequest()
    ensures ToI(Param(p, SortColKey(0))) == 1
  {
    FirstSortKeys();
    NumeralOne();
  }

  lemma SortByNameIsDescending(p: Params)
    requires p == SortByNameRequest()
    ensures SortDirection(p, 0) == "DESC"
  {
    FirstSortKeys();
  }

  /** Column `ordinal` of a plain datatable is `name`, a column with no dot and no association. */
  lemma PlainColumnNamed(cfg: Config, ordinal: nat, name: string)
    requires cfg == PlainConfig(cfg.columns, []) && ordinal < |cfg.columns| && cfg.columns[ordinal] == name
    requires name != "" && forall k :: 0 <= k < |name| ==> name[k] != '.'
    ensures var c := cfg.columns[ordinal];
            c == name && c != "" && (forall k :: 0 <= k < |c| ==> c[k] != '.')
            && c !in AssociationNames(cfg.model.associations) && cfg.model.tableName == "users"
  {
    assert AssociationNames(cfg.model.associations) == [];
  }

  lemma SortByNameDirective(cfg: Config, p: Params)
    requires cfg == PlainConfig(["id", "name"], [])
    requires ToI(Param(p, SortColKey(0))) == 1 && SortDirection(p, 0) == "DESC"
    ensures SortDirectiveFragments(cfg, p, 0) == Ok([Order("users.name DESC")])
  {
    PlainColumnNamed(cfg, 1, "name");
    PlainSortDirective(cfg, p, 0);
    assert "users" + "." + "name" + " " + "DESC" == "users.name DESC";
  }

  /** Sorting column 1 of `["id", "name"]` descending orders by `users.name DESC`. */
  lemma ScenarioSortByNameDescending(cfg: Config, p: Params)
    requires cfg == PlainConfig(["id", "name"], []) && p == SortByNameRequest()
    ensures SortFragments(cfg, p) == Ok([Order("users.name DESC")])
  {
    SortByNameCount(p);
    SortByNameColumn(p);
    SortByNameIsDescending(p);
    SortByNameDirective(cfg, p);
    OneSortDirective(cfg, p);
  }

  lemma SortByNameStart(p: Params)
    requires p == SortByNameRequest()
    ensures IntParam(p, "iDisplayStart") == 0
  {
    NumeralZero();
    assert p["iDisplayStart"] == "0";
  }

  lemma SortByNameDefaultLength(p: Params)
    requires p == SortByNameRequest()
    ensures PerPage(p) == 10
  {
    assert Param(p, "iDisplayLength") == None;
  }

  /** Starting at row 0 without a page length gives the default page: offset 0, limit 10. */
  lemma ScenarioFirstPageOfDefaultLength(p: Params)
    requires p == SortByNameRequest()
    ensures PaginateRecords(p, []) == [Offset(0), Limit(10)]
  {
    SortByNameStart(p);
    SortByNameDefaultLength(p);
    FirstPage(p, []);
  }

  // ---------------------------------------------------------------------------
  // Two sort directives

  function TwoDirectivesRequest(): Params {
    map["iSortingCols" := "2", "iSortCol_0" := "0", "sSortDir_0" := "desc",
        "iSortCol_1" := "1", "sSortDir_1" := "asc"]
  }

  lemma TwoDirectivesCount(p: Params)
    requires p == TwoDirectivesRequest()
    ensures SortCount(p) == 2
  {
    NumeralTwo();
  }

  lemma TwoDirectivesFirstColumn(p: Params)
    requires p == TwoDirectivesRequest()
    ensures ToI(Param(p, SortColKey(0))) == 0
  {
    FirstSortKeys();
    NumeralZero();
    assert p["iSortCol_0"] == "0";
  }

  lemma TwoDirectivesSecondColumn(p: Params)
    requires p == TwoDirectivesRequest()
    ensures ToI(Param(p, SortColKey(1))) == 1
  {
    SecondSortKeys();
    NumeralOne();
  }

  lemma TwoDirectivesDirections(p: Params)
    requires p == TwoDirectivesRequest()
    ensures SortDirection(p, 0) == "DESC" && SortDirection(p, 1) == "ASC"
  {
    FirstSortKeys();
    SecondSortKeys();
  }

  lemma TwoDirectivesFirstFragment(cfg: Config, p: Params)
    requires cfg == PlainConfig(["a", "b"], [])
    requires ToI(Param(p, SortColKey(0))) == 0 && SortDirection(p, 0) == "DESC"
    ensures SortDirectiveFragments(cfg, p, 0) == Ok([Order("users.a DESC")])
  {
    PlainColumnNamed(cfg, 0, "a");
    PlainSortDirective(cfg, p, 0);
    assert "users" + "." + "a" + " " + "DESC" == "users.a DESC";
  }

  lemma TwoDirectivesSecondFragment(cfg: Config, p: Params)
    requires cfg == PlainConfig(["a", "b"], [])
    requires ToI(Param(p, SortColKey(1))) == 1 && SortDirection(p, 1) == "ASC"
    ensures SortDirectiveFragments(cfg, p, 1) == Ok([Order("users.b ASC")])
  {
    PlainColumnNamed(cfg, 1, "b");
    PlainSortDirective(cfg, p, 1);
    assert "users" + "." + "b" + " " + "ASC" == "users.b ASC";
  }

  lemma BothDirectivesSucceed(cfg: Config, p: Params, x: seq<Fragment>, y: seq<Fragment>)
    requires SortCount(p) == 2
    requires SortDirectiveFragments(cfg, p, 0) == Ok(x) && SortDirectiveFragments(cfg, p, 1) == Ok(y)
    ensures SortFragments(cfg, p) == Ok(x + y)
  {
    TwoSortDirectives(cfg, p);
  }

  lemma TwoPlainDirectives(cfg: Config, p: Params)
    requires cfg == PlainConfig(["a", "b"], []) && SortCount(p) == 2
    requires ToI(Param(p, SortColKey(0))) == 0 && SortDirection(p, 0) == "DESC"
    requires ToI(Param(p, SortColKey(1))) == 1 && SortDirection(p, 1) == "ASC"
    ensures SortFragments(cfg, p) == Ok([Order("users.a DESC"), Order("users.b ASC")])
  {
    TwoDirectivesFirstFragment(cfg, p);
    TwoDirectivesSecondFragment(cfg, p);
    var x, y := [Order("users.a DESC")], [Order("users.b ASC")];
    BothDirectivesSucceed(cfg, p, x, y);
    assert x + y == [Order("users.a DESC"), Order("users.b ASC")];
  }

  /** Two directives keep their request order: `a DESC` is the primary key, `b ASC` the second. */
  lemma ScenarioTwoDirectivesInOrder(cfg: Config, p: Params)
    requires cfg == PlainConfig(["a", "b"], []) && p == TwoDirectivesRequest()
    ensures SortFragments(cfg, p) == Ok([Order("users.a DESC"), Order("users.b ASC")])
  {
    TwoDirectivesCount(p);
    TwoDirectivesFirstColumn(p);
    TwoDirectivesSecondColumn(p);
    TwoDirectivesDirections(p);
    TwoPlainDirectives(cfg, p);
  }

  // ---------------------------------------------------------------------------
  // Search

  /** Two searchable columns give two LIKE clauses joined by OR, first column first. */
  lemma TwoColumnSearch(a: string, b: string)
    ensures SearchQuery([a, b]) == LikeClause(a) + " OR " + LikeClause(b)
  {
    SearchQueryInOrder([], a);
    SearchQueryInOrder([a], b);
    assert [a] + [b] == [a, b];
  }

  lemma NameOrEmail(columns: seq<string>)
    requires columns == ["name", "email"]
    ensures SearchQuery(columns) == "name LIKE :search OR email LIKE :search"
  {
    TwoColumnSearch("name", "email");
    var x, y := LikeClause("name"), LikeClause("email");
    assert x == "name LIKE :search";
    assert y == "email LIKE :search";
    assert x + " OR " + y == "name LIKE :search OR email LIKE :search";
  }

  lemma AcmeIsPresent(p: Params)
    requires p == map["sSearch" := "acme"]
    ensures Param(p, "sSearch") == Some("acme") && Present(Param(p, "sSearch"))
  {
    assert !IsBlankChar("acme"[0]);
  }

  /** Searching for `acme` over `name` and `email` adds one OR-ed LIKE condition binding `%acme%`. */
  lemma ScenarioSearch(cfg: Config, p: Params)
    requires cfg == PlainConfig([], ["name", "email"]) && p == map["sSearch" := "acme"]
    ensures SearchRecords(cfg, p, [])
         == [Where("name LIKE :search OR email LIKE :search", [Bind("search", Some("%acme%"))])]
  {
    AcmeIsPresent(p);
    NameOrEmail(cfg.searchableColumns);
    assert "%" + "acme" + "%" == "%acme%";
  }

  /** A term of Unicode whitespace only, here a no-break space, is blank: the relation is
      returned unchanged. */
  lemma ScenarioBlankSearch(cfg: Config, p: Params, records: Relation)
    requires p == map["sSearch" := "\U{00A0}\U{3000}"]
    ensures SearchRecords(cfg, p, records) == records
  {
    var term := "\U{00A0}\U{3000}";
    assert Param(p, "sSearch") == Some(term);
    assert forall k :: 0 <= k < |term| ==> IsBlankChar(term[k]);
  }

  // ---------------------------------------------------------------------------
  // Direct filter

  function StatusFilterRequest(): Params {
    map["iFilteringCols" := "1", "iFilterCol_0" := "0", "sFilterCol_0" := "active"]
  }

  lemma StatusFilterHeaderCount(p: Params)
    requires p == StatusFilterRequest()
    ensures HeaderCount(p) == 1
  {
    NumeralOne();
  }

  lemma StatusFilterMenuCount(p: Params)
    requires p == StatusFilterRequest()
    ensures MenuCount(p) == 0
  {
    assert Param(p, "iFilteringMenus") == None;
  }

  lemma StatusFilterFields(p: Params)
    requires p == StatusFilterRequest()
    ensures ToI(Param(p, FilterColKey(0))) == 0 && FilterValue(p, 0) == Some("active")
  {
    FirstFilterKeys();
    NumeralZero();
  }

  lemma DirectCondition(c: string, name: string)
    requires c == name && name == "status"
    ensures c + " = :filter" == "status = :filter"
  {
  }

  lemma StatusHeaderFilter(cfg: Config, p: Params)
    requires cfg == PlainConfig(["status"], [])
    requires ToI(Param(p, FilterColKey(0))) == 0 && FilterValue(p, 0) == Some("active")
    ensures HeaderFilter(cfg, map[], p, 0, []) == Ok([Where("status = :filter", [Bind("filter", Some("active"))])])
  {
    PlainColumnNamed(cfg, 0, "status");
    PlainHeaderFilter(cfg, p, 0, []);
    var c := cfg.columns[ToI(Param(p, FilterColKey(0)))];
    DirectCondition(c, "status");
    var w := Where(c + " = :filter", [Bind("filter", FilterValue(p, 0))]);
    assert [] + [w] == [w];
  }

  /** Filtering column 0 (`status`) by `active` with nothing registered for `status` adds the
      direct condition `status = :filter` bound to `active`. */
  lemma ScenarioDirectFilter(cfg: Config, p: Params)
    requires cfg == PlainConfig(["status"], []) && p == StatusFilterRequest()
    ensures FilteredRecords(cfg, map[], p, []) == Ok([Where("status = :filter", [Bind("filter", Some("active"))])])
  {
    StatusFilterHeaderCount(p);
    StatusFilterMenuCount(p);
    StatusFilterFields(p);
    StatusHeaderFilter(cfg, p);
    OneHeaderFilter(cfg, map[], p, []);
  }
}
