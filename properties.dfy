/** Properties of the Datatable pipeline that relate several of its stages. */
module DatatableProperties {
  import opened Results
  import opened RubyStrings
  import opened Query
  import opened Datatable

  // ---------------------------------------------------------------------------
  // Fragment kinds

  predicate AllFragments(fs: seq<Fragment>, P: Fragment -> bool) {
    forall j :: 0 <= j < |fs| ==> P(fs[j])
  }

  predicate IsCondition(f: Fragment) {
    f.Where? || f.Join?
  }

  predicate IsOrdering(f: Fragment) {
    f.Order? || f.Join?
  }

  lemma {:induction false} CollectAll(parts: seq<Outcome<seq<Fragment>>>, P: Fragment -> bool)
    requires forall i :: 0 <= i < |parts| && parts[i].Ok? ==> AllFragments(parts[i].value, P)
    ensures Collect(parts).Ok? ==> AllFragments(Collect(parts).value, P)
  {
    if parts != [] {
      CollectAll(parts[..|parts| - 1], P);
    }
  }

  lemma {:induction false} NoWheresAmongOrderings(fs: seq<Fragment>)
    requires AllFragments(fs, IsOrdering)
    ensures Wheres(fs) == []
  {
    if fs != [] {
      NoWheresAmongOrderings(fs[1..]);
    }
  }

  // ---------------------------------------------------------------------------
  // Sort stage

  /** Each sort directive appends exactly one ORDER BY term, ending in its direction. A plain
      column is qualified by the model's own table and joins nothing; an association column
      joins that association and is qualified by the association's table. */
  lemma SortDirectiveShape(cfg: Config, p: Params, i: nat)
    requires SortDirectiveFragments(cfg, p, i).Ok?
    ensures var f := SortDirectiveFragments(cfg, p, i).value;
            var column := GetColumn(cfg, Param(p, SortColKey(i)), true).value;
            GetColumn(cfg, Param(p, SortColKey(i)), true).Ok? &&
            AllFragments(f, IsOrdering) &&
            |OrderTexts(f)| == 1 &&
            (!NeedToUseAssociation(cfg.model, column) ==>
               Joins(f) == [] &&
               OrderTexts(f)[0] == cfg.model.tableName + "." + Interp(column) + " " + SortDirection(p, i)) &&
            (NeedToUseAssociation(cfg.model, column) ==>
               Joins(f) == [column.value] &&
               exists a :: a in cfg.model.associations && a.name == column.value &&
                 OrderTexts(f)[0] == a.tableName + "." + Interp(SecondField(FullColumn(cfg, Param(p, SortColKey(i)))))
                                     + " " + SortDirection(p, i))
  {
    var ordinal := Param(p, SortColKey(i));
    var column := GetColumn(cfg, ordinal, true).value;
    var f := SortDirectiveFragments(cfg, p, i).value;
    if NeedToUseAssociation(cfg.model, column) {
      var spec := FullColumn(cfg, ordinal);
      assert FirstField(spec) == column;
      NeedIffFound(cfg.model, column);
      var a := FindAssociation(cfg.model.associations, column).value;
      var order := Order(a.tableName + "." + Interp(SecondField(spec)) + " " + SortDirection(p, i));
      assert f == [Join(column.value), order];
      assert f[1..] == [order];
      assert f[1..][1..] == [];
      assert OrderTexts(f[1..]) == [order.text] + OrderTexts([]);
      assert OrderTexts(f) == [order.text];
      assert Joins(f[1..]) == [] + Joins([]);
    } else {
      assert f[1..] == [];
    }
  }

  lemma SortDirectiveIsOneOrdering(cfg: Config, p: Params, i: nat)
    requires SortDirectiveFragments(cfg, p, i).Ok?
    ensures AllFragments(SortDirectiveFragments(cfg, p, i).value, IsOrdering)
    ensures |OrderTexts(SortDirectiveFragments(cfg, p, i).value)| == 1
  {
    SortDirectiveShape(cfg, p, i);
  }

  lemma {:induction false} CollectOrderTexts(parts: seq<Outcome<seq<Fragment>>>)
    requires Collect(parts).Ok?
    requires forall i :: 0 <= i < |parts| && parts[i].Ok? ==> |OrderTexts(parts[i].value)| == 1
    ensures |OrderTexts(Collect(parts).value)| == |parts|
    ensures forall i :: 0 <= i < |parts| ==>
              parts[i].Ok? && OrderTexts(Collect(parts).value)[i] == OrderTexts(parts[i].value)[0]
  {
    CollectOkIff(parts);
    if parts != [] {
      var init := parts[..|parts| - 1];
      CollectOrderTexts(init);
      OrderTextsConcat(Collect(init).value, parts[|parts| - 1].value);
    }
  }

  /** `sort_records` emits exactly one ORDER BY term per directive, the i-th term being the
      i-th directive's, so the first directive is the primary sort key. */
  lemma SortOrdersInRequestOrder(cfg: Config, p: Params)
    requires SortFragments(cfg, p).Ok?
    ensures |OrderTexts(SortFragments(cfg, p).value)| == SortCount(p)
    ensures forall i :: 0 <= i < SortCount(p) ==>
              SortDirectiveFragments(cfg, p, i).Ok? &&
              |OrderTexts(SortDirectiveFragments(cfg, p, i).value)| == 1 &&
              OrderTexts(SortFragments(cfg, p).value)[i] == OrderTexts(SortDirectiveFragments(cfg, p, i).value)[0]
  {
    var parts := SortDirectives(cfg, p, SortCount(p));
    assert SortFragments(cfg, p) == Collect(parts);
    forall i | 0 <= i < |parts| && parts[i].Ok? ensures |OrderTexts(parts[i].value)| == 1 {
      SortDirectiveIsOneOrdering(cfg, p, i);
    }
    CollectOrderTexts(parts);
    var texts := OrderTexts(Collect(parts).value);
    forall i | 0 <= i < SortCount(p)
      ensures SortDirectiveFragments(cfg, p, i).Ok?
      ensures |OrderTexts(SortDirectiveFragments(cfg, p, i).value)| == 1
      ensures texts[i] == OrderTexts(SortDirectiveFragments(cfg, p, i).value)[0]
    {
      assert parts[i] == SortDirectiveFragments(cfg, p, i);
      SortDirectiveIsOneOrdering(cfg, p, i);
    }
  }

  /** A request with one sort directive appends exactly that directive's fragments. */
  lemma OneSortDirective(cfg: Config, p: Params)
    requires SortCount(p) == 1
    ensures SortFragments(cfg, p) == SortDirectiveFragments(cfg, p, 0)
  {
    var f := SortDirectiveFragments(cfg, p, 0);
    assert SortDirectives(cfg, p, 1) == [f];
    CollectSingle(f);
    if f.Ok? { assert [] + f.value == f.value; }
  }

  /** With two sort directives the first one's fragments come first; a failure of the first is
      the failure of the whole. */
  lemma TwoSortDirectives(cfg: Config, p: Params)
    requires SortCount(p) == 2
    ensures SortFragments(cfg, p) ==
      match SortDirectiveFragments(cfg, p, 0)
      case Err(e) => Err(e)
      case Ok(x) => Appended(x, SortDirectiveFragments(cfg, p, 1))
  {
    var f0, f1 := SortDirectiveFragments(cfg, p, 0), SortDirectiveFragments(cfg, p, 1);
    assert SortDirectives(cfg, p, 2) == [f0] + [f1];
    CollectConcat([f0], [f1]);
    CollectSingle(f0);
    CollectSingle(f1);
    if f0.Ok? { assert [] + f0.value == f0.value; }
    if f1.Ok? { assert [] + f1.value == f1.value; }
  }

  /** `n.times` with `n <= 0` runs no iteration: a zero or negative `iSortingCols`, or a missing
      or non-numeric one, sorts nothing. */
  lemma NoSortDirectives(cfg: Config, p: Params)
    requires IntParam(p, "iSortingCols") <= 0
    ensures SortFragments(cfg, p) == Ok([])
  {
    assert SortDirectives(cfg, p, SortCount(p)) == [];
  }

  /** Sorting appends only joins and ORDER BY terms. */
  lemma SortAddsNoConditions(cfg: Config, p: Params)
    requires SortFragments(cfg, p).Ok?
    ensures AllFragments(SortFragments(cfg, p).value, IsOrdering)
    ensures Wheres(SortFragments(cfg, p).value) == []
  {
    var parts := SortDirectives(cfg, p, SortCount(p));
    forall i | 0 <= i < |parts| && parts[i].Ok? ensures AllFragments(parts[i].value, IsOrdering) {
      SortDirectiveIsOneOrdering(cfg, p, i);
    }
    CollectAll(parts, IsOrdering);
    NoWheresAmongOrderings(SortFragments(cfg, p).value);
  }

  // ---------------------------------------------------------------------------
  // Search stage

  lemma SearchAppends(cfg: Config, p: Params, records: Relation)
    ensures SearchRecords(cfg, p, records) == records + SearchFragments(cfg, p)
    ensures AllFragments(SearchFragments(cfg, p), IsCondition)
  {
    if !Present(Param(p, "sSearch")) {
      assert records + [] == records;
    }
  }

  /** The search condition names every searchable column in order: one column gives its
      LIKE clause alone, and one more column adds ` OR ` and its clause at the end. */
  lemma SearchQueryInOrder(columns: seq<string>, last: string)
    ensures SearchQuery([last]) == LikeClause(last)
    ensures columns != [] ==> SearchQuery(columns + [last]) == SearchQuery(columns) + " OR " + LikeClause(last)
  {
    if columns != [] {
      var clauses := seq(|columns|, i requires 0 <= i < |columns| => LikeClause(columns[i]));
      var all := columns + [last];
      assert seq(|all|, i requires 0 <= i < |all| => LikeClause(all[i])) == clauses + [LikeClause(last)];
      JoinWithSnoc(clauses, LikeClause(last), " OR ");
    }
  }

  // ---------------------------------------------------------------------------
  // Custom filters

  /** The dispatch of `try_custom_filter`: a bare-key handler receives the filter value, a
      presence-key handler receives nil; the datatable's own method is preferred, then the
      model's scope called on the relation, and a handler neither defines is an error. */
  lemma TryCustomFilterDispatch(cfg: Config, filters: map<string, string>, column: string,
                                records: Relation, value: Option<string>)
    requires FindCustomFilter(filters, column, value).Some?
    ensures var f := FindCustomFilter(filters, column, value).value;
            var v := if column in filters then value else None;
            var r := TryCustomFilter(cfg, filters, column, records, value);
            (f.handler in cfg.ownMethods ==>
               r == Converted(f.handler, cfg.sendToSelf(f.handler, records, column, v))) &&
            (f.handler !in cfg.ownMethods && f.handler in cfg.model.classMethods ==>
               r == Converted(f.handler, cfg.sendToRecords(f.handler, records, v))) &&
            (f.handler !in cfg.ownMethods && f.handler !in cfg.model.classMethods ==>
               r == Err(UndefinedFilter(f.handler)))
  {
  }

  /** A presence-keyed registration never shadows a bare-key one for the same column:
      registering `"column value"` changes nothing while `column` itself is registered. */
  lemma PresenceKeyNeverShadows(cfg: Config, filters: map<string, string>, column: string,
                                records: Relation, value: Option<string>, handler: string)
    requires column in filters
    ensures TryCustomFilter(cfg, filters[PresenceKey(column, value) := handler], column, records, value)
         == TryCustomFilter(cfg, filters, column, records, value)
  {
    assert |PresenceKey(column, value)| > |column|;
    var filters' := filters[PresenceKey(column, value) := handler];
    assert column in filters' && filters'[column] == filters[column];
  }

  /** A later registration for a key replaces the earlier one in every lookup. */
  lemma LastRegistrationWins(filters: map<string, string>, key: string, first: string, second: string,
                             column: string, value: Option<string>)
    ensures FindCustomFilter(filters[key := first][key := second], column, value)
         == FindCustomFilter(filters[key := second], column, value)
  {
    assert filters[key := first][key := second] == filters[key := second];
  }

  /** The three tiers: a relation from the custom filter wins; a falsy custom result is the
      same as no custom filter at all, so the association filter or the direct filter applies. */
  lemma FilterTiers(cfg: Config, filters: map<string, string>, records: Relation,
                    key: string, column: Option<string>, value: Option<string>)
    ensures forall r :: TryCustomFilter(cfg, filters, key, records, value) == Ok(Some(r)) ==>
              ApplyFilter(cfg, filters, records, key, column, value) == Ok(r)
    ensures TryCustomFilter(cfg, filters, key, records, value) == Ok(None) ==>
              ApplyFilter(cfg, filters, records, key, column, value)
              == ApplyFilter(cfg, map[], records, key, column, value)
    ensures TryCustomFilter(cfg, filters, key, records, value).Err? ==>
              ApplyFilter(cfg, filters, records, key, column, value).Err?
  {
  }

  // ---------------------------------------------------------------------------
  // Filter stage without custom filters

  /** What the association and direct tiers append for one filter. */
  function DefaultTiers(cfg: Config, key: string, column: Option<string>, value: Option<string>)
    : Outcome<seq<Fragment>>
  {
    if NeedToUseAssociation(cfg.model, column) then FilterByAssociationsIn(cfg, [], key, value)
    else Ok([DirectFilter(column, value)])
  }

  function HeaderDefault(cfg: Config, p: Params, i: nat): Outcome<seq<Fragment>> {
    var ordinal := Param(p, FilterColKey(i));
    var column :- GetColumn(cfg, ordinal, true);
    DefaultTiers(cfg, FullColumn(cfg, ordinal), column, FilterValue(p, i))
  }

  function MenuDefault(cfg: Config, p: Params, i: nat): Outcome<seq<Fragment>> {
    match Param(p, FilterMenuKey(i))
    case None => Err(MissingMenuAttribute(i))
    case Some(attribute) => DefaultTiers(cfg, attribute, FirstField(attribute), Param(p, FilterMenuValueKey(i)))
  }

  function HeaderDefaults(cfg: Config, p: Params, n: nat): (s: seq<Outcome<seq<Fragment>>>)
    ensures |s| == n && forall i :: 0 <= i < n ==> s[i] == HeaderDefault(cfg, p, i)
  {
    seq(n, i requires 0 <= i < n => HeaderDefault(cfg, p, i))
  }

  function MenuDefaults(cfg: Config, p: Params, n: nat): (s: seq<Outcome<seq<Fragment>>>)
    ensures |s| == n && forall i :: 0 <= i < n ==> s[i] == MenuDefault(cfg, p, i)
  {
    seq(n, i requires 0 <= i < n => MenuDefault(cfg, p, i))
  }

  /** The conditions filtering adds with no custom filter registered: header filters
      `0 .. iFilteringCols-1`, then menu filters `0 .. iFilteringMenus-1`. */
  function DefaultFilterFragments(cfg: Config, p: Params): Outcome<seq<Fragment>> {
    Collect(HeaderDefaults(cfg, p, HeaderCount(p)) + MenuDefaults(cfg, p, MenuCount(p)))
  }

  /** The association and direct tiers for a filter whose column is the key's text before
      its first `.` (as in both loops): a column naming an association joins it and compares
      the related table's attribute with the quoted value, and never fails the lookup; any
      other column gets the direct `column = :filter` condition bound to the value. */
  lemma DefaultTierShape(cfg: Config, key: string, column: Option<string>, value: Option<string>)
    requires column == FirstField(key)
    ensures !NeedToUseAssociation(cfg.model, column) ==>
              DefaultTiers(cfg, key, column, value) == Ok([Where(Interp(column) + " = :filter", [Bind("filter", value)])])
    ensures NeedToUseAssociation(cfg.model, column) ==>
              exists a :: a in cfg.model.associations && a.name == column.value &&
                DefaultTiers(cfg, key, column, value)
                == Ok([Join(column.value), Where(a.tableName + "." + Interp(SecondField(key)) + " = '" + Interp(value) + "'", [])])
  {
    if NeedToUseAssociation(cfg.model, column) {
      NeedIffFound(cfg.model, column);
      var a := FindAssociation(cfg.model.associations, column).value;
      var tail := [Join(column.value), Where(a.tableName + "." + Interp(SecondField(key)) + " = '" + Interp(value) + "'", [])];
      assert [] + tail == tail;
      var i :| 0 <= i < |cfg.model.associations| && cfg.model.associations[i] == a;
      assert a in cfg.model.associations;
    }
  }

  /** The column a header filter tests is the text before the first `.` of its full spec. */
  lemma HeaderColumnIsFirstField(cfg: Config, ordinal: Option<string>)
    requires GetColumn(cfg, ordinal, true).Ok?
    ensures GetColumn(cfg, ordinal, true).value == FirstField(FullColumn(cfg, ordinal))
  {
  }

  lemma DefaultTiersAreConditions(cfg: Config, key: string, column: Option<string>, value: Option<string>)
    ensures DefaultTiers(cfg, key, column, value).Ok? ==> AllFragments(DefaultTiers(cfg, key, column, value).value, IsCondition)
  {
  }

  lemma ApplyFilterWithoutCustom(cfg: Config, records: Relation, key: string,
                                 column: Option<string>, value: Option<string>)
    ensures ApplyFilter(cfg, map[], records, key, column, value) == Appended(records, DefaultTiers(cfg, key, column, value))
  {
    if NeedToUseAssociation(cfg.model, column) {
      match FindAssociation(cfg.model.associations, FirstField(key))
      case None =>
      case Some(reflection) =>
        var tail := [Join(FirstField(key).value),
                     Where(reflection.tableName + "." + Interp(SecondField(key)) + " = '" + Interp(value) + "'", [])];
        assert [] + tail == tail;
    }
  }

  lemma {:induction false} HeaderFilteredWithoutCustom(cfg: Config, p: Params, records: Relation, k: nat)
    ensures HeaderFiltered(cfg, map[], p, records, k) == Appended(records, Collect(HeaderDefaults(cfg, p, k)))
  {
    if k == 0 {
      assert records + [] == records;
    } else {
      HeaderFilteredWithoutCustom(cfg, p, records, k - 1);
      HeaderDefaultsSnoc(cfg, p, k);
      match HeaderFiltered(cfg, map[], p, records, k - 1)
      case Err(_) =>
        CollectPrefixFails(HeaderDefaults(cfg, p, k), k - 1);
      case Ok(r) =>
        HeaderStepWithoutCustom(cfg, p, records, k, r);
    }
  }

  lemma HeaderDefaultsSnoc(cfg: Config, p: Params, k: nat)
    requires k > 0
    ensures HeaderDefaults(cfg, p, k) == HeaderDefaults(cfg, p, k - 1) + [HeaderDefault(cfg, p, k - 1)]
    ensures HeaderDefaults(cfg, p, k)[..k - 1] == HeaderDefaults(cfg, p, k - 1)
  {
  }

  lemma HeaderStepWithoutCustom(cfg: Config, p: Params, records: Relation, k: nat, r: Relation)
    requires k > 0
    requires HeaderFiltered(cfg, map[], p, records, k - 1) == Ok(r)
    requires Appended(records, Collect(HeaderDefaults(cfg, p, k - 1))) == Ok(r)
    requires HeaderDefaults(cfg, p, k) == HeaderDefaults(cfg, p, k - 1) + [HeaderDefault(cfg, p, k - 1)]
    ensures HeaderFiltered(cfg, map[], p, records, k) == Appended(records, Collect(HeaderDefaults(cfg, p, k)))
  {
    AppendedStep(records, HeaderDefaults(cfg, p, k - 1), HeaderDefault(cfg, p, k - 1));
    HeaderFilterWithoutCustom(cfg, p, k - 1, r);
  }

  /** One header filter with no custom filter registered appends its default conditions. */
  lemma HeaderFilterWithoutCustom(cfg: Config, p: Params, i: nat, r: Relation)
    ensures HeaderFilter(cfg, map[], p, i, r) == Appended(r, HeaderDefault(cfg, p, i))
  {
    var ordinal := Param(p, FilterColKey(i));
    match GetColumn(cfg, ordinal, true)
    case Err(_) =>
    case Ok(column) =>
      ApplyFilterWithoutCustom(cfg, r, FullColumn(cfg, ordinal), column, FilterValue(p, i));
  }

  lemma {:induction false} MenuFilteredWithoutCustom(cfg: Config, p: Params, records: Relation, k: nat)
    ensures MenuFiltered(cfg, map[], p, records, k) == Appended(records, Collect(MenuDefaults(cfg, p, k)))
  {
    if k == 0 {
      assert records + [] == records;
    } else {
      MenuFilteredWithoutCustom(cfg, p, records, k - 1);
      MenuDefaultsSnoc(cfg, p, k);
      match MenuFiltered(cfg, map[], p, records, k - 1)
      case Err(_) =>
        CollectPrefixFails(MenuDefaults(cfg, p, k), k - 1);
      case Ok(r) =>
        MenuStepWithoutCustom(cfg, p, records, k, r);
    }
  }

  lemma MenuDefaultsSnoc(cfg: Config, p: Params, k: nat)
    requires k > 0
    ensures MenuDefaults(cfg, p, k) == MenuDefaults(cfg, p, k - 1) + [MenuDefault(cfg, p, k - 1)]
    ensures MenuDefaults(cfg, p, k)[..k - 1] == MenuDefaults(cfg, p, k - 1)
  {
  }

  lemma MenuStepWithoutCustom(cfg: Config, p: Params, records: Relation, k: nat, r: Relation)
    requires k > 0
    requires MenuFiltered(cfg, map[], p, records, k - 1) == Ok(r)
    requires Appended(records, Collect(MenuDefaults(cfg, p, k - 1))) == Ok(r)
    requires MenuDefaults(cfg, p, k) == MenuDefaults(cfg, p, k - 1) + [MenuDefault(cfg, p, k - 1)]
    ensures MenuFiltered(cfg, map[], p, records, k) == Appended(records, Collect(MenuDefaults(cfg, p, k)))
  {
    AppendedStep(records, MenuDefaults(cfg, p, k - 1), MenuDefault(cfg, p, k - 1));
    MenuFilterWithoutCustom(cfg, p, k - 1, r);
  }

  /** One menu filter with no custom filter registered appends its default conditions. */
  lemma MenuFilterWithoutCustom(cfg: Config, p: Params, i: nat, r: Relation)
    ensures MenuFilter(cfg, map[], p, i, r) == Appended(r, MenuDefault(cfg, p, i))
  {
    match Param(p, FilterMenuKey(i))
    case None =>
    case Some(attribute) =>
      ApplyFilterWithoutCustom(cfg, r, attribute, FirstField(attribute), Param(p, FilterMenuValueKey(i)));
  }

  /** With no custom filter registered, `filter_records` appends the header filters'
      conditions, each in index order, and after them the menu filters' conditions; it
      fails exactly when one of those steps fails. */
  lemma FilterWithoutCustomFilters(cfg: Config, p: Params, records: Relation)
    ensures FilteredRecords(cfg, map[], p, records) == Appended(records, DefaultFilterFragments(cfg, p))
  {
    var hs := HeaderDefaults(cfg, p, HeaderCount(p));
    var ms := MenuDefaults(cfg, p, MenuCount(p));
    HeaderFilteredWithoutCustom(cfg, p, records, HeaderCount(p));
    AppendedConcat(records, hs, ms);
    match Appended(records, Collect(hs))
    case Err(_) =>
    case Ok(h) => MenuFilteredWithoutCustom(cfg, p, h, MenuCount(p));
  }

  /** Without custom filters, the filter stage adds only joins and WHERE conditions. */
  lemma DefaultFiltersAreConditions(cfg: Config, p: Params)
    ensures DefaultFilterFragments(cfg, p).Ok? ==> AllFragments(DefaultFilterFragments(cfg, p).value, IsCondition)
  {
    var parts := HeaderDefaults(cfg, p, HeaderCount(p)) + MenuDefaults(cfg, p, MenuCount(p));
    forall i | 0 <= i < |parts| && parts[i].Ok? ensures AllFragments(parts[i].value, IsCondition) {
      if i < HeaderCount(p) {
        var ordinal := Param(p, FilterColKey(i));
        var column := GetColumn(cfg, ordinal, true);
        if column.Ok? {
          DefaultTiersAreConditions(cfg, FullColumn(cfg, ordinal), column.value, FilterValue(p, i));
        }
      } else {
        var j := i - HeaderCount(p);
        match Param(p, FilterMenuKey(j))
        case None =>
        case Some(attribute) =>
          DefaultTiersAreConditions(cfg, attribute, FirstField(attribute), Param(p, FilterMenuValueKey(j)));
      }
    }
    CollectAll(parts, IsCondition);
  }

  // ---------------------------------------------------------------------------
  // Count path

  /** The request keys only the sort and pagination stages read. */
  predicate SortOrPaginationKey(k: string) {
    k == "iSortingCols" || k == "iDisplayStart" || k == "iDisplayLength" ||
    HasPrefix(k, "iSortCol_") || HasPrefix(k, "sSortDir_")
  }

  /** Two requests that differ at most in their sort and pagination parameters. */
  ghost predicate AgreeOutsideSortAndPagination(p: Params, q: Params) {
    forall k :: !SortOrPaginationKey(k) ==> Param(p, k) == Param(q, k)
  }

  /** No sort or pagination key has `F` as its second character. */
  lemma SecondCharFIsNotSortKey(k: string)
    requires |k| >= 2 && k[1] == 'F'
    ensures !SortOrPaginationKey(k)
  {
    if |k| >= 9 {
      assert k[..9][1] == 'F';
      assert k[..9] != "iSortCol_" && k[..9] != "sSortDir_";
    }
  }

  lemma FilterKeyIsNotSortKey(prefix: string, i: nat)
    requires |prefix| >= 2 && prefix[1] == 'F'
    ensures !SortOrPaginationKey(prefix + NatToString(i))
  {
    SecondCharFIsNotSortKey(prefix + NatToString(i));
  }

  /** Two requests whose header filters agree step by step agree on the header loop. */
  lemma {:induction false} HeaderFilteredIgnoresSort(cfg: Config, filters: map<string, string>,
                                                     p: Params, q: Params, records: Relation, k: nat)
    requires forall i: nat, r :: i < k ==> HeaderFilter(cfg, filters, p, i, r) == HeaderFilter(cfg, filters, q, i, r)
    ensures HeaderFiltered(cfg, filters, p, records, k) == HeaderFiltered(cfg, filters, q, records, k)
  {
    if k > 0 {
      HeaderFilteredIgnoresSort(cfg, filters, p, q, records, k - 1);
      var prev := HeaderFiltered(cfg, filters, p, records, k - 1);
      if prev.Ok? {
        assert HeaderFilter(cfg, filters, p, k - 1, prev.value) == HeaderFilter(cfg, filters, q, k - 1, prev.value);
      }
      HeaderStepIgnoresSort(cfg, filters, p, q, records, k);
    }
  }

  /** Two requests that agree on the relation after filter `k - 1` and on filter `k - 1`
      itself agree on the relation after filter `k`. */
  lemma HeaderStepIgnoresSort(cfg: Config, filters: map<string, string>, p: Params, q: Params, records: Relation, k: nat)
    requires k > 0
    requires HeaderFiltered(cfg, filters, p, records, k - 1) == HeaderFiltered(cfg, filters, q, records, k - 1)
    requires var prev := HeaderFiltered(cfg, filters, p, records, k - 1);
             prev.Ok? ==> HeaderFilter(cfg, filters, p, k - 1, prev.value) == HeaderFilter(cfg, filters, q, k - 1, prev.value)
    ensures HeaderFiltered(cfg, filters, p, records, k) == HeaderFiltered(cfg, filters, q, records, k)
  {
  }

  lemma HeaderFilterIgnoresSort(cfg: Config, filters: map<string, string>, p: Params, q: Params, i: nat, r: Relation)
    requires AgreeOutsideSortAndPagination(p, q)
    ensures HeaderFilter(cfg, filters, p, i, r) == HeaderFilter(cfg, filters, q, i, r)
  {
    FilterKeyIsNotSortKey("iFilterCol_", i);
    FilterKeyIsNotSortKey("sFilterCol_", i);
    assert Param(p, FilterColKey(i)) == Param(q, FilterColKey(i));
    assert Param(p, FilterValueKey(i)) == Param(q, FilterValueKey(i));
    assert FilterValue(p, i) == FilterValue(q, i);
  }

  /** Two requests whose menu filters agree step by step agree on the menu loop. */
  lemma {:induction false} MenuFilteredIgnoresSort(cfg: Config, filters: map<string, string>,
                                                   p: Params, q: Params, records: Relation, k: nat)
    requires forall i: nat, r :: i < k ==> MenuFilter(cfg, filters, p, i, r) == MenuFilter(cfg, filters, q, i, r)
    ensures MenuFiltered(cfg, filters, p, records, k) == MenuFiltered(cfg, filters, q, records, k)
  {
    if k > 0 {
      MenuFilteredIgnoresSort(cfg, filters, p, q, records, k - 1);
      var prev := MenuFiltered(cfg, filters, p, records, k - 1);
      if prev.Ok? {
        assert MenuFilter(cfg, filters, p, k - 1, prev.value) == MenuFilter(cfg, filters, q, k - 1, prev.value);
      }
      MenuStepIgnoresSort(cfg, filters, p, q, records, k);
    }
  }

  /** Two requests that agree on the relation after filter `k - 1` and on filter `k - 1`
      itself agree on the relation after filter `k`. */
  lemma MenuStepIgnoresSort(cfg: Config, filters: map<string, string>, p: Params, q: Params, records: Relation, k: nat)
    requires k > 0
    requires MenuFiltered(cfg, filters, p, records, k - 1) == MenuFiltered(cfg, filters, q, records, k - 1)
    requires var prev := MenuFiltered(cfg, filters, p, records, k - 1);
             prev.Ok? ==> MenuFilter(cfg, filters, p, k - 1, prev.value) == MenuFilter(cfg, filters, q, k - 1, prev.value)
    ensures MenuFiltered(cfg, filters, p, records, k) == MenuFiltered(cfg, filters, q, records, k)
  {
  }

  lemma MenuFilterIgnoresSort(cfg: Config, filters: map<string, string>, p: Params, q: Params, i: nat, r: Relation)
    requires AgreeOutsideSortAndPagination(p, q)
    ensures MenuFilter(cfg, filters, p, i, r) == MenuFilter(cfg, filters, q, i, r)
  {
    FilterKeyIsNotSortKey("iFilterMenu_", i);
    FilterKeyIsNotSortKey("sFilterMenu_", i);
    assert Param(p, FilterMenuKey(i)) == Param(q, FilterMenuKey(i));
    assert Param(p, FilterMenuValueKey(i)) == Param(q, FilterMenuValueKey(i));
  }

  /** The matching count depends on no sort or pagination parameter: two requests that
      differ only there report the same count. This holds for custom filter handlers as
      modelled here, which do not see the request; a handler on the datatable itself can
      read `params` in the source, and one that reads a sort or pagination key could make
      the count depend on it. */
  lemma CountIgnoresSortAndPagination(cfg: Config, filters: map<string, string>, p: Params, q: Params,
                                      raw: Relation, countDistinct: Relation -> Option<nat>)
    requires AgreeOutsideSortAndPagination(p, q)
    ensures GetRawRecordCount(cfg, filters, p, raw, countDistinct) == GetRawRecordCount(cfg, filters, q, raw, countDistinct)
  {
    assert !SortOrPaginationKey("sSearch");
    SecondCharFIsNotSortKey("iFilteringCols");
    SecondCharFIsNotSortKey("iFilteringMenus");
    assert SearchRecords(cfg, p, raw) == SearchRecords(cfg, q, raw);
    var searched := SearchRecords(cfg, p, raw);
    assert HeaderCount(p) == HeaderCount(q) && MenuCount(p) == MenuCount(q);
    forall i: nat, r | i < HeaderCount(p)
      ensures HeaderFilter(cfg, filters, p, i, r) == HeaderFilter(cfg, filters, q, i, r)
    {
      HeaderFilterIgnoresSort(cfg, filters, p, q, i, r);
    }
    forall i: nat, r | i < MenuCount(p)
      ensures MenuFilter(cfg, filters, p, i, r) == MenuFilter(cfg, filters, q, i, r)
    {
      MenuFilterIgnoresSort(cfg, filters, p, q, i, r);
    }
    HeaderFilteredIgnoresSort(cfg, filters, p, q, searched, HeaderCount(p));
    match HeaderFiltered(cfg, filters, p, searched, HeaderCount(p))
    case Err(_) =>
    case Ok(h) => MenuFilteredIgnoresSort(cfg, filters, p, q, h, MenuCount(p));
  }

  /** Without custom filters the counted relation is the raw relation plus search and filter
      conditions only (no ORDER BY, no offset, no limit), and the rows `fetch_records`
      returns are restricted by exactly the same WHERE conditions; the two agree on failing. */
  lemma RowsAndCountShareConditions(cfg: Config, p: Params, raw: Relation)
    requires SortFragments(cfg, p).Ok?
    ensures var sorted := PaginateRecords(p, raw) + SortFragments(cfg, p).value;
            var rows := FilteredRecords(cfg, map[], p, SearchRecords(cfg, p, sorted));
            var counted := CountedRelation(cfg, map[], p, raw);
            rows.Ok? == counted.Ok? &&
            (counted.Ok? ==>
               |raw| <= |counted.value| && counted.value[..|raw|] == raw &&
               AllFragments(counted.value[|raw|..], IsCondition) &&
               Wheres(rows.value) == Wheres(counted.value))
  {
    var pag := PaginateRecords(p, raw);
    var sortFs := SortFragments(cfg, p).value;
    var tail := pag[|raw|..];
    PaginationAddsNoConditions(p, raw);
    SortAddsNoConditions(cfg, p);
    NoWheresAmongOrderingsConcat(tail, sortFs);
    Regroup(raw, tail, sortFs);
    RowsAndCountBehindConditionFreeSteps(cfg, p, raw, tail + sortFs);
  }

  lemma Regroup(a: seq<Fragment>, b: seq<Fragment>, c: seq<Fragment>)
    ensures (a + b) + c == a + (b + c)
  {
  }

  /** Whatever condition-free fragments stand between the raw relation and the search,
      the filtered rows and the counted relation carry the same WHERE conditions. */
  lemma RowsAndCountBehindConditionFreeSteps(cfg: Config, p: Params, raw: Relation, middle: seq<Fragment>)
    requires Wheres(middle) == []
    ensures var rows := FilteredRecords(cfg, map[], p, SearchRecords(cfg, p, raw + middle));
            var counted := CountedRelation(cfg, map[], p, raw);
            rows.Ok? == counted.Ok? &&
            (counted.Ok? ==>
               |raw| <= |counted.value| && counted.value[..|raw|] == raw &&
               AllFragments(counted.value[|raw|..], IsCondition) &&
               Wheres(rows.value) == Wheres(counted.value))
  {
    var searchFs := SearchFragments(cfg, p);
    SearchAppends(cfg, p, raw + middle);
    SearchAppends(cfg, p, raw);
    FilterWithoutCustomFilters(cfg, p, raw + middle + searchFs);
    FilterWithoutCustomFilters(cfg, p, raw + searchFs);
    DefaultFiltersAreConditions(cfg, p);
    ShareConditions(raw, middle, searchFs, DefaultFilterFragments(cfg, p));
  }

  lemma ShareConditions(raw: Relation, middle: seq<Fragment>, searchFs: seq<Fragment>, f: Outcome<seq<Fragment>>)
    requires Wheres(middle) == [] && AllFragments(searchFs, IsCondition)
    requires f.Ok? ==> AllFragments(f.value, IsCondition)
    ensures Appended(raw + middle + searchFs, f).Ok? == Appended(raw + searchFs, f).Ok?
    ensures Appended(raw + searchFs, f).Ok? ==>
              var counted := Appended(raw + searchFs, f).value;
              |raw| <= |counted| && counted[..|raw|] == raw &&
              AllFragments(counted[|raw|..], IsCondition) &&
              Wheres(Appended(raw + middle + searchFs, f).value) == Wheres(counted)
  {
    if f.Ok? {
      var rest := searchFs + f.value;
      AllConditionsConcat(searchFs, f.value);
      assert raw + middle + searchFs + f.value == raw + middle + rest;
      assert raw + searchFs + f.value == raw + rest;
      WheresSkipMiddle(raw, middle, rest);
      PrefixAndSuffix(raw, rest);
    }
  }

  lemma AllConditionsConcat(a: seq<Fragment>, b: seq<Fragment>)
    requires AllFragments(a, IsCondition) && AllFragments(b, IsCondition)
    ensures AllFragments(a + b, IsCondition)
  {
    forall j | 0 <= j < |a + b| ensures IsCondition((a + b)[j]) {
      if j >= |a| { assert (a + b)[j] == b[j - |a|]; }
    }
  }

  /** The offset and limit `paginate_records` appends hold no WHERE condition. */
  lemma PaginationAddsNoConditions(p: Params, raw: Relation)
    ensures PaginateRecords(p, raw) == raw + PaginateRecords(p, raw)[|raw|..]
    ensures Wheres(PaginateRecords(p, raw)[|raw|..]) == []
  {
    var pag := PaginateRecords(p, raw);
    var pageFs := pag[|raw|..];
    assert pag == pag[..|raw|] + pageFs;
    assert pageFs == [pag[|raw|], pag[|raw| + 1]];
    assert !pageFs[0].Where? && !pageFs[1].Where?;
    assert pageFs[1..][1..] == [];
    assert Wheres(pageFs[1..]) == Wheres(pageFs[1..][1..]);
    assert Wheres(pageFs) == Wheres(pageFs[1..]);
  }

  lemma NoWheresAmongOrderingsConcat(a: seq<Fragment>, b: seq<Fragment>)
    requires Wheres(a) == [] && AllFragments(b, IsOrdering)
    ensures Wheres(a + b) == []
  {
    NoWheresAmongOrderings(b);
    WheresConcat(a, b);
  }

  lemma WheresSkipMiddle(a: seq<Fragment>, middle: seq<Fragment>, c: seq<Fragment>)
    requires Wheres(middle) == []
    ensures Wheres(a + middle + c) == Wheres(a + c)
  {
    WheresConcat(a + middle, c);
    WheresConcat(a, middle);
    WheresConcat(a, c);
  }

  lemma PrefixAndSuffix(a: seq<Fragment>, b: seq<Fragment>)
    ensures (a + b)[..|a|] == a && (a + b)[|a|..] == b
  {
  }

  // ---------------------------------------------------------------------------
  // Column resolver

  /** A negative ordinal counts from the end of the column list, as Ruby arrays do. */
  lemma NegativeOrdinalCountsFromEnd(cfg: Config, ordinal: Option<string>)
    requires |cfg.columns| >= 1 && ordinal == Some("-1")
    ensures GetColumn(cfg, ordinal, false) == Ok(Some(cfg.columns[|cfg.columns| - 1]))
  {
    NumeralMinusOne();
    LastColumn(cfg, ordinal);
  }

  lemma LastColumn(cfg: Config, ordinal: Option<string>)
    requires |cfg.columns| >= 1 && ToI(ordinal) == -1
    ensures GetColumn(cfg, ordinal, false) == Ok(Some(cfg.columns[|cfg.columns| - 1]))
  {
  }

  /** A missing ordinal reads as 0 and so picks the first column. */
  lemma MissingOrdinalPicksFirstColumn(cfg: Config)
    requires |cfg.columns| >= 1
    ensures GetColumn(cfg, None, false) == Ok(Some(cfg.columns[0]))
  {
  }

  /** A column spec without `.` is its own column name under both lookups. */
  lemma PlainColumn(cfg: Config, ordinal: Option<string>)
    requires 0 <= ToI(ordinal) < |cfg.columns|
    requires var c := cfg.columns[ToI(ordinal)]; c != "" && forall k :: 0 <= k < |c| ==> c[k] != '.'
    ensures GetColumn(cfg, ordinal, true) == Ok(Some(cfg.columns[ToI(ordinal)]))
    ensures FullColumn(cfg, ordinal) == cfg.columns[ToI(ordinal)]
  {
    GetColumnAtValidIndex(cfg, ordinal);
  }

  /** A sort directive on a plain column that names no association orders by
      `table.column DIRECTION` and joins nothing. */
  lemma PlainSortDirective(cfg: Config, p: Params, i: nat)
    requires 0 <= ToI(Param(p, SortColKey(i))) < |cfg.columns|
    requires var c := cfg.columns[ToI(Param(p, SortColKey(i)))];
             c != "" && (forall k :: 0 <= k < |c| ==> c[k] != '.') && c !in AssociationNames(cfg.model.associations)
    ensures SortDirectiveFragments(cfg, p, i)
         == Ok([Order(cfg.model.tableName + "." + cfg.columns[ToI(Param(p, SortColKey(i)))] + " " + SortDirection(p, i))])
  {
    PlainColumn(cfg, Param(p, SortColKey(i)));
  }

  /** A header filter on a plain column that names no association, with no custom filter
      registered, adds the direct condition `column = :filter` bound to the filter value. */
  lemma PlainHeaderFilter(cfg: Config, p: Params, i: nat, records: Relation)
    requires 0 <= ToI(Param(p, FilterColKey(i))) < |cfg.columns|
    requires var c := cfg.columns[ToI(Param(p, FilterColKey(i)))];
             c != "" && (forall k :: 0 <= k < |c| ==> c[k] != '.') && c !in AssociationNames(cfg.model.associations)
    ensures HeaderFilter(cfg, map[], p, i, records)
         == Ok(records + [Where(cfg.columns[ToI(Param(p, FilterColKey(i)))] + " = :filter",
                                [Bind("filter", FilterValue(p, i))])])
  {
    PlainColumn(cfg, Param(p, FilterColKey(i)));
  }

  /** With `iFilteringCols` and `iFilteringMenus` both at most 0 (or missing, or not numeric)
      neither loop runs, and filtering returns the relation unchanged. */
  lemma NoFilters(cfg: Config, filters: map<string, string>, p: Params, records: Relation)
    requires IntParam(p, "iFilteringCols") <= 0 && IntParam(p, "iFilteringMenus") <= 0
    ensures FilteredRecords(cfg, filters, p, records) == Ok(records)
  {
    assert HeaderCount(p) == 0 && MenuCount(p) == 0;
    assert HeaderFiltered(cfg, filters, p, records, 0) == Ok(records);
  }

  /** A request with one header filter and no menu filter applies just that filter. */
  lemma OneHeaderFilter(cfg: Config, filters: map<string, string>, p: Params, records: Relation)
    requires HeaderCount(p) == 1 && MenuCount(p) == 0
    ensures FilteredRecords(cfg, filters, p, records) == HeaderFilter(cfg, filters, p, 0, records)
  {
    assert HeaderFiltered(cfg, filters, p, records, 0) == Ok(records);
    var h := HeaderFilter(cfg, filters, p, 0, records);
    assert HeaderFiltered(cfg, filters, p, records, 1) == h;
    if h.Ok? {
      assert MenuFiltered(cfg, filters, p, h.value, 0) == Ok(h.value);
    }
  }
}
