/** The server-side `Datatable` query builder: it turns the grid's request parameters
    into a composed relation (pagination, sort, search, filters) and computes the
    number of matching rows from the filtered and searched relation alone. */
module Datatable {
  import opened Results
  import opened RubyStrings
  import opened Query

  /** Request parameters, all strings; an absent key reads as nil. */
  type Params = map<string, string>

  function Param(p: Params, key: string): (v: Option<string>)
    ensures v.Some? <==> key in p
    ensures v.Some? ==> v.value == p[key]
  {
    if key in p then Some(p[key]) else None
  }

  /** `params[key].to_i` */
  function IntParam(p: Params, key: string): int {
    ToI(Param(p, key))
  }

  /** The number of iterations of `n.times`: `n` of them, none for a negative `n`. */
  function Times(n: int): (k: nat)
    ensures k >= n && k <= if n < 0 then 0 else n
  {
    if n < 0 then 0 else n
  }

  const DefaultPerPage: int := 10

  function SortColKey(i: nat): string { "iSortCol_" + NatToString(i) }
  function SortDirKey(i: nat): string { "sSortDir_" + NatToString(i) }
  function FilterColKey(i: nat): string { "iFilterCol_" + NatToString(i) }
  function FilterValueKey(i: nat): string { "sFilterCol_" + NatToString(i) }
  function FilterMenuKey(i: nat): string { "iFilterMenu_" + NatToString(i) }
  function FilterMenuValueKey(i: nat): string { "sFilterMenu_" + NatToString(i) }

  /** An association the model class declares: its name and the table of the related model. */
  datatype Association = Association(name: string, tableName: string)

  /** `@model_name`: its table, its associations in declaration order, and the class
      methods (scopes) it responds to. */
  datatype ModelClass = ModelClass(tableName: string, associations: seq<Association>, classMethods: set<string>)

  /** What a custom filter handler returns: something falsy (false or nil), a relation,
      or an exception it raised. */
  datatype HandlerResult = Falsy | Filtered(records: Relation) | Raised

  /** A Datatable subclass instance: `@columns`, `@model_name`, `@searchable_columns`,
      the methods the instance itself responds to, and what its own handler methods
      (`self.send name, records, column, value`) and the relation's scopes
      (`records.send name, value`) return. */
  datatype Config = Config(
    columns: seq<string>,
    model: ModelClass,
    searchableColumns: seq<string>,
    ownMethods: set<string>,
    sendToSelf: (string, Relation, string, Option<string>) -> HandlerResult,
    sendToRecords: (string, Relation, Option<string>) -> HandlerResult)

  /** The exceptions the pipeline can raise. */
  datatype Error =
    | ColumnOutOfRange(index: int)        // `nil.split` on a column index past `@columns`
    | MissingMenuAttribute(ordinal: nat)  // `nil.split` on an absent `iFilterMenu_i`
    | MissingAssociation                  // `nil.to_sym` / `nil.table_name` on an association lookup
    | UndefinedFilter(handler: string)    // `raise NoMethodError` in `responsed_for_method`
    | HandlerRaised(handler: string)      // a custom filter handler raised

  type Outcome<T> = Result<T, Error>

  // ---------------------------------------------------------------------------
  // Pagination

  /** `per_page`: the requested page length when positive, the default otherwise. */
  function PerPage(p: Params): (n: int)
    ensures n >= 1
    ensures IntParam(p, "iDisplayLength") > 0 ==> n == IntParam(p, "iDisplayLength")
    ensures IntParam(p, "iDisplayLength") <= 0 ==> n == DefaultPerPage
  {
    if IntParam(p, "iDisplayLength") > 0 then IntParam(p, "iDisplayLength") else DefaultPerPage
  }

  lemma MulAtLeast(x: int, n: int)
    requires x >= 1 && n >= 1
    ensures x * n >= n
  {
    if x > 1 {
      MulAtLeast(x - 1, n);
      assert x * n == (x - 1) * n + n;
    }
  }

  /** Floor division: `s / n` pages of `n` rows reach `s`, one more passes it. */
  lemma FloorDivBounds(s: int, n: int)
    requires n >= 1
    ensures (s / n) * n <= s < (s / n) * n + n
  {
    var q, m := s / n, s % n;
    assert s == q * n + m && 0 <= m < n;
  }

  /** Multiplying by a positive `n` keeps strict order. */
  lemma MulStrict(a: int, b: int, n: int)
    requires n >= 1
    ensures a < b <==> a * n < b * n
  {
    assert b * n - a * n == (b - a) * n;
    if a < b {
      MulAtLeast(b - a, n);
    } else if a > b {
      MulAtLeast(a - b, n);
      assert a * n - b * n == (a - b) * n;
    }
  }

  /** The remainder of a multiple of `n` by `n` is zero. */
  lemma MultipleMod(k: int, n: int)
    requires n >= 1
    ensures (k * n) % n == 0
  {
    var a := k * n;
    var q, m := a / n, a % n;
    assert a == q * n + m && 0 <= m < n;
    assert (k - q) * n == k * n - q * n;
    MulStrict(k - q, 1, n);
    MulStrict(-1, k - q, n);
    assert k - q == 0;
  }

  /** `page`: the 1-based page holding row `iDisplayStart`. Ruby's `/` rounds towards
      minus infinity, as Dafny's does for a positive divisor.
      Page `page` spans rows `(page - 1) * per_page` up to, not including, `page * per_page`,
      and row `iDisplayStart` lies in it; a non-negative start gives a page of at least 1. */
  function Page(p: Params): (page: int)
    ensures (page - 1) * PerPage(p) <= IntParam(p, "iDisplayStart") < page * PerPage(p)
    ensures IntParam(p, "iDisplayStart") >= 0 ==> page >= 1
  {
    var start, n := IntParam(p, "iDisplayStart"), PerPage(p);
    FloorDivBounds(start, n);
    assert (start / n + 1) * n == (start / n) * n + n;
    start / n + 1
  }

  /** `paginate_records`: appends the page's offset and limit. */
  function PaginateRecords(p: Params, records: Relation): (r: Relation)
    ensures |r| == |records| + 2 && r[..|records|] == records
    ensures r[|records|].Offset? && r[|records| + 1] == Limit(PerPage(p))
  {
    records + [Offset((Page(p) - 1) * PerPage(p)), Limit(PerPage(p))]
  }

  /** The offset is a whole number of pages, and the page it starts holds row `iDisplayStart`. */
  lemma PaginationOffset(p: Params, records: Relation)
    ensures var offset := PaginateRecords(p, records)[|records|].rows;
            offset % PerPage(p) == 0 && offset <= IntParam(p, "iDisplayStart") < offset + PerPage(p)
  {
    MultipleMod(Page(p) - 1, PerPage(p));
    assert Page(p) * PerPage(p) == (Page(p) - 1) * PerPage(p) + PerPage(p);
  }

  /** A start within the first page gives page 1 and offset 0. */
  lemma FirstPage(p: Params, records: Relation)
    requires 0 <= IntParam(p, "iDisplayStart") < PerPage(p)
    ensures Page(p) == 1
    ensures PaginateRecords(p, records) == records + [Offset(0), Limit(PerPage(p))]
  {
    var start, n := IntParam(p, "iDisplayStart"), PerPage(p);
    var q := start / n;
    FloorDivBounds(start, n);
    MulStrict(q, 1, n);
    MulStrict(-1, q, n);
    assert q == 0;
    assert (Page(p) - 1) * n == 0;
  }

  // ---------------------------------------------------------------------------
  // Column resolver

  /** Ruby's `Array#[]` with an integer index: a negative index counts from the end. */
  function ColumnAt(columns: seq<string>, index: int): (c: Option<string>)
    ensures c.Some? <==> -|columns| <= index < |columns|
    ensures 0 <= index < |columns| ==> c == Some(columns[index])
    ensures -|columns| <= index < 0 ==> c == Some(columns[|columns| + index])
  {
    if 0 <= index < |columns| then Some(columns[index])
    else if -|columns| <= index < 0 then Some(columns[|columns| + index])
    else None
  }

  /** `spec.split(".")[0]`: the text before the first `.`, nil when `spec` holds only dots. */
  function FirstField(spec: string): (f: Option<string>)
    ensures f.None? <==> forall k :: 0 <= k < |spec| ==> spec[k] == '.'
    ensures f.Some? ==> f.value == spec[..IndexOf(spec, '.')]
  {
    SplitEmptyIff(spec, '.');
    var fields := Split(spec, '.');
    if fields == [] then None
    else
      SplitFirstField(spec, '.');
      Some(fields[0])
  }

  /** The second field of `spec.split(".")`: the attribute after an association name. */
  function SecondField(spec: string): Option<string> {
    var fields := Split(spec, '.');
    if |fields| > 1 then Some(fields[1]) else None
  }

  /** For a qualified spec `"assoc.attr"` (no further dot, a non-empty attribute), the first
      field is the association name and the second the attribute, as the destructuring
      `column_name, attribute = column.split "."` gives them. */
  lemma QualifiedFields(assoc: string, attribute: string)
    requires assoc != [] && forall k :: 0 <= k < |assoc| ==> assoc[k] != '.'
    requires attribute != [] && forall k :: 0 <= k < |attribute| ==> attribute[k] != '.'
    ensures FirstField(assoc + "." + attribute) == Some(assoc)
    ensures SecondField(assoc + "." + attribute) == Some(attribute)
  {
    SplitQualified(assoc, attribute, '.');
    assert assoc + "." + attribute == assoc + ['.'] + attribute;
  }

  /** A spec without a dot has no second field: the attribute interpolates as empty. */
  lemma UnqualifiedHasNoSecondField(spec: string)
    requires forall k :: 0 <= k < |spec| ==> spec[k] != '.'
    ensures SecondField(spec) == None
  {
    if spec != [] {
      SplitWithoutSeparator(spec, '.');
    } else {
      SplitEmptyIff(spec, '.');
    }
  }

  /** `get_column(ordinal, split)`: the column at `ordinal.to_i`; split, only its part before
      the first `.`, and a missing column raises; unsplit, a missing column is nil. */
  function GetColumn(cfg: Config, ordinal: Option<string>, split: bool): (r: Outcome<Option<string>>)
    ensures !split ==> r == Ok(ColumnAt(cfg.columns, ToI(ordinal)))
    ensures split ==> (r.Ok? <==> ColumnAt(cfg.columns, ToI(ordinal)).Some?)
    ensures split && r.Ok? ==> r.value == FirstField(ColumnAt(cfg.columns, ToI(ordinal)).value)
    ensures split && r.Err? ==> r.error == ColumnOutOfRange(ToI(ordinal))
  {
    var column := ColumnAt(cfg.columns, ToI(ordinal));
    if split then
      match column
      case None => Err(ColumnOutOfRange(ToI(ordinal)))
      case Some(spec) => Ok(FirstField(spec))
    else Ok(column)
  }

  /** `get_column(ordinal, false)` at a call site where the split lookup already
      succeeded, so the column exists. */
  function FullColumn(cfg: Config, ordinal: Option<string>): string {
    match GetColumn(cfg, ordinal, false)
    case Ok(Some(spec)) => spec
    case _ => ""
  }

  /** For an index in range: unsplit gives the declared spec, split gives its text
      before the first `.`, and the two agree on a non-empty spec without a `.`. */
  lemma GetColumnAtValidIndex(cfg: Config, ordinal: Option<string>)
    requires 0 <= ToI(ordinal) < |cfg.columns|
    ensures GetColumn(cfg, ordinal, false) == Ok(Some(cfg.columns[ToI(ordinal)]))
    ensures FullColumn(cfg, ordinal) == cfg.columns[ToI(ordinal)]
    ensures var spec := cfg.columns[ToI(ordinal)];
      (exists k :: 0 <= k < |spec| && spec[k] != '.') ==>
        GetColumn(cfg, ordinal, true) == Ok(Some(spec[..IndexOf(spec, '.')]))
    ensures var spec := cfg.columns[ToI(ordinal)];
      spec != "" && (forall k :: 0 <= k < |spec| ==> spec[k] != '.') ==>
        GetColumn(cfg, ordinal, true) == GetColumn(cfg, ordinal, false)
  {
    var spec := cfg.columns[ToI(ordinal)];
    if spec != "" && forall k :: 0 <= k < |spec| ==> spec[k] != '.' {
      assert spec[0] != '.';
      assert IndexOf(spec, '.') == |spec|;
      assert spec[..|spec|] == spec;
    }
  }

  // ---------------------------------------------------------------------------
  // Request fields read per ordinal

  /** `sort_direction`: descending exactly for the literal `"desc"`. */
  function SortDirection(p: Params, i: nat): (d: string)
    ensures d == "DESC" || d == "ASC"
    ensures d == "DESC" <==> Param(p, SortDirKey(i)) == Some("desc")
  {
    if Param(p, SortDirKey(i)) == Some("desc") then "DESC" else "ASC"
  }

  /** `filter_value`: the header filter's value, nil when the request omits it. */
  function FilterValue(p: Params, i: nat): (v: Option<string>)
    ensures v.Some? <==> FilterValueKey(i) in p
    ensures v.Some? ==> v.value == p[FilterValueKey(i)]
  {
    Param(p, FilterValueKey(i))
  }

  // ---------------------------------------------------------------------------
  // Associations

  /** `reflect_on_all_associations.map { |mac| mac.name.to_s }` */
  function AssociationNames(assocs: seq<Association>): (names: seq<string>)
    ensures |names| == |assocs|
    ensures forall i :: 0 <= i < |assocs| ==> names[i] == assocs[i].name
  {
    seq(|assocs|, i requires 0 <= i < |assocs| => assocs[i].name)
  }

  /** `need_to_use_association`: the column names a declared association (a nil column
      never does). */
  function NeedToUseAssociation(model: ModelClass, column: Option<string>): bool {
    column.Some? && column.value in AssociationNames(model.associations)
  }

  lemma NeedToUseAssociationIff(model: ModelClass, column: Option<string>)
    ensures NeedToUseAssociation(model, column) <==>
      column.Some? && exists i :: 0 <= i < |model.associations| && model.associations[i].name == column.value
  {
    if column.Some? && exists i :: 0 <= i < |model.associations| && model.associations[i].name == column.value {
      var i :| 0 <= i < |model.associations| && model.associations[i].name == column.value;
      assert AssociationNames(model.associations)[i] == column.value;
    }
  }

  /** The reflection lookup `map { |mac| mac if mac.name.to_s == name }.compact.first`:
      the first declared association with that name. */
  function FindAssociation(assocs: seq<Association>, name: Option<string>): (a: Option<Association>)
    ensures a.Some? <==> name.Some? && exists i :: 0 <= i < |assocs| && assocs[i].name == name.value
    ensures a.Some? ==> Some(a.value.name) == name
    ensures a.Some? ==> exists i :: 0 <= i < |assocs| && assocs[i] == a.value &&
                                    forall j :: 0 <= j < i ==> assocs[j].name != a.value.name
  {
    if assocs == [] then None
    else if name == Some(assocs[0].name) then Some(assocs[0])
    else
      var a := FindAssociation(assocs[1..], name);
      if a.Some? then
        assert forall i :: 0 < i < |assocs| ==> assocs[i] == assocs[1..][i - 1];
        Some(a.value)
      else
        assert forall i :: 0 < i < |assocs| ==> assocs[i] == assocs[1..][i - 1];
        None
  }

  /** The association test and the reflection lookup agree: a column that needs an
      association always finds one. */
  lemma NeedIffFound(model: ModelClass, name: Option<string>)
    ensures NeedToUseAssociation(model, name) <==> FindAssociation(model.associations, name).Some?
  {
    var names := AssociationNames(model.associations);
    if name.Some? && name.value in names {
      var i :| 0 <= i < |names| && names[i] == name.value;
      assert model.associations[i].name == name.value;
    }
  }

  // ---------------------------------------------------------------------------
  // Sort stage

  /** `sort_by_associations_in`: joins the association and orders by the attribute of the
      related table. */
  function SortByAssociationsIn(cfg: Config, p: Params, records: Relation, column: string, ordinal: nat)
    : Outcome<Relation>
  {
    var columnName := FirstField(column);
    var attribute := SecondField(column);
    match FindAssociation(cfg.model.associations, columnName)
    case None => Err(MissingAssociation)
    case Some(reflection) =>
      Ok(records + [Join(columnName.value),
                    Order(reflection.tableName + "." + Interp(attribute) + " " + SortDirection(p, ordinal))])
  }

  /** The sort succeeds exactly when the spec's first field names an association; it then
      joins that association and orders by `table.attribute DIRECTION` of its table. */
  lemma SortByAssociationsInShape(cfg: Config, p: Params, records: Relation, column: string, ordinal: nat)
    ensures var r := SortByAssociationsIn(cfg, p, records, column, ordinal);
            (r.Ok? <==> NeedToUseAssociation(cfg.model, FirstField(column))) &&
            (r.Err? ==> r.error == MissingAssociation) &&
            (r.Ok? ==>
               exists a :: a in cfg.model.associations && Some(a.name) == FirstField(column) &&
                 r.value == records + [Join(a.name), Order(a.tableName + "." + Interp(SecondField(column)) + " " + SortDirection(p, ordinal))])
  {
    NeedIffFound(cfg.model, FirstField(column));
  }

  lemma SortByAssociationsInAppends(cfg: Config, p: Params, records: Relation, column: string, ordinal: nat)
    ensures SortByAssociationsIn(cfg, p, records, column, ordinal)
         == Appended(records, SortByAssociationsIn(cfg, p, [], column, ordinal))
  {
    match FindAssociation(cfg.model.associations, FirstField(column))
    case None =>
    case Some(reflection) =>
      var tail := [Join(FirstField(column).value),
                   Order(reflection.tableName + "." + Interp(SecondField(column)) + " " + SortDirection(p, ordinal))];
      assert [] + tail == tail;
  }

  /** The fragments sort directive `i` appends: an ORDER BY term qualified by the model's
      table, or a join and an ORDER BY term qualified by the association's table. */
  function SortDirectiveFragments(cfg: Config, p: Params, i: nat): Outcome<seq<Fragment>> {
    var ordinal := Param(p, SortColKey(i));
    var column :- GetColumn(cfg, ordinal, true);
    if NeedToUseAssociation(cfg.model, column) then
      SortByAssociationsIn(cfg, p, [], FullColumn(cfg, ordinal), i)
    else
      Ok([Order(cfg.model.tableName + "." + Interp(column) + " " + SortDirection(p, i))])
  }

  function SortDirectives(cfg: Config, p: Params, n: nat): (ds: seq<Outcome<seq<Fragment>>>)
    ensures |ds| == n && forall i :: 0 <= i < n ==> ds[i] == SortDirectiveFragments(cfg, p, i)
  {
    seq(n, i requires 0 <= i < n => SortDirectiveFragments(cfg, p, i))
  }

  function SortCount(p: Params): nat {
    Times(IntParam(p, "iSortingCols"))
  }

  /** Everything `sort_records` appends: the fragments of directives `0 .. iSortingCols-1`
      in request order, or the first directive's failure. */
  function SortFragments(cfg: Config, p: Params): Outcome<seq<Fragment>> {
    Collect(SortDirectives(cfg, p, SortCount(p)))
  }

  /** Once a prefix of the steps fails, so does the whole. */
  lemma CollectPrefixFails(parts: seq<Outcome<seq<Fragment>>>, k: nat)
    requires k <= |parts| && Collect(parts[..k]).Err?
    ensures Collect(parts) == Collect(parts[..k])
  {
    assert parts == parts[..k] + parts[k..];
    CollectConcat(parts[..k], parts[k..]);
  }

  /** `sort_records`: one directive per iteration, each appended to the relation built so far. */
  method SortRecords(cfg: Config, p: Params, records: Relation) returns (r: Outcome<Relation>)
    ensures r == Appended(records, SortFragments(cfg, p))
  {
    var n := SortCount(p);
    ghost var parts := SortDirectives(cfg, p, n);
    var current := records;
    var i := 0;
    assert parts[..0] == [];
    assert records + [] == records;
    while i < n
      invariant 0 <= i <= n
      invariant Appended(records, Collect(parts[..i])) == Ok(current)
    {
      CollectStep(records, parts, i, current);
      var ordinal := Param(p, SortColKey(i));
      var column := GetColumn(cfg, ordinal, true);
      if column.Err? {
        CollectPrefixFails(parts, i + 1);
        return Err(column.error);
      }
      if NeedToUseAssociation(cfg.model, column.value) {
        // the reflection lookup cannot fail for a column that names an association
        NeedIffFound(cfg.model, column.value);
        SortByAssociationsInAppends(cfg, p, current, FullColumn(cfg, ordinal), i);
        var sorted := SortByAssociationsIn(cfg, p, current, FullColumn(cfg, ordinal), i);
        current := sorted.value;
      } else {
        current := current + [Order(cfg.model.tableName + "." + Interp(column.value) + " " + SortDirection(p, i))];
      }
      i := i + 1;
    }
    assert parts[..n] == parts;
    r := Ok(current);
  }

  // ---------------------------------------------------------------------------
  // Search stage

  function LikeClause(column: string): string {
    column + " LIKE :search"
  }

  /** The search condition: one LIKE clause per searchable column, in order, joined by OR. */
  function SearchQuery(columns: seq<string>): string {
    JoinWith(seq(|columns|, i requires 0 <= i < |columns| => LikeClause(columns[i])), " OR ")
  }

  /** What `search_records` appends, whatever the relation it is given: with a search term
      present, one WHERE binding the term wrapped in wildcards; otherwise nothing. */
  function SearchFragments(cfg: Config, p: Params): seq<Fragment> {
    if Present(Param(p, "sSearch")) then
      [Where(SearchQuery(cfg.searchableColumns), [Bind("search", Some("%" + Interp(Param(p, "sSearch")) + "%"))])]
    else []
  }

  /** `search_records`: the relation with the search condition appended, if there is one. */
  function SearchRecords(cfg: Config, p: Params, records: Relation): (r: Relation)
    ensures !Present(Param(p, "sSearch")) ==> r == records
    ensures Present(Param(p, "sSearch")) ==>
      |r| == |records| + 1 && r[..|records|] == records &&
      r[|records|] == Where(SearchQuery(cfg.searchableColumns),
                            [Bind("search", Some("%" + Param(p, "sSearch").value + "%"))])
  {
    records + SearchFragments(cfg, p)
  }

  // ---------------------------------------------------------------------------
  // Custom filter registry

  /** The class-level `@@custom_filters` table: filter key to handler name. */
  class FilterRegistry {
    var filters: map<string, string>

    constructor ()
      ensures filters == map[]
    {
      filters := map[];
    }

    /** `register_filter`: a later registration for the same key replaces the earlier one. */
    method RegisterFilter(column: string, handler: string)
      modifies this
      ensures filters == old(filters)[column := handler]
      ensures filters[column] == handler
      ensures forall k :: k != column && k in old(filters) ==> k in filters && filters[k] == old(filters)[k]
    {
      filters := filters[column := handler];
    }
  }

  /** A registered filter found for a column, and whether it receives the filter value. */
  datatype CustomFilter = CustomFilter(handler: string, withValue: bool)

  /** The presence key `"column value"` (a nil value interpolates as empty). */
  function PresenceKey(column: string, value: Option<string>): string {
    column + " " + Interp(value)
  }

  /** The key lookup in `try_custom_filter`: the bare column first, then `"column value"`. */
  function FindCustomFilter(filters: map<string, string>, column: string, value: Option<string>)
    : (f: Option<CustomFilter>)
    ensures column in filters ==> f == Some(CustomFilter(filters[column], true))
    ensures column !in filters && PresenceKey(column, value) in filters ==>
      f == Some(CustomFilter(filters[PresenceKey(column, value)], false))
    ensures f.None? <==> column !in filters && PresenceKey(column, value) !in filters
  {
    if column in filters then Some(CustomFilter(filters[column], true))
    else if PresenceKey(column, value) in filters then Some(CustomFilter(filters[PresenceKey(column, value)], false))
    else None
  }

  datatype Target = OnSelf | OnModel

  /** `responsed_for_method`: the datatable itself if it responds, else the model class if it
      responds, else an error. */
  function RespondedForMethod(cfg: Config, handler: string): (t: Outcome<Target>)
    ensures t == Ok(OnSelf) <==> handler in cfg.ownMethods
    ensures t == Ok(OnModel) <==> handler !in cfg.ownMethods && handler in cfg.model.classMethods
    ensures t.Err? ==> t.error == UndefinedFilter(handler)
  {
    if handler in cfg.ownMethods then Ok(OnSelf)
    else if handler in cfg.model.classMethods then Ok(OnModel)
    else Err(UndefinedFilter(handler))
  }

  /** A handler's return value as `try_custom_filter` passes it on: a relation, a falsy
      value, or the exception it raised. */
  function Converted(handler: string, h: HandlerResult): Outcome<Option<Relation>> {
    match h
    case Falsy => Ok(None)
    case Filtered(rel) => Ok(Some(rel))
    case Raised => Err(HandlerRaised(handler))
  }

  /** `try_custom_filter`: Ok(None) stands for a falsy result (no filter registered, or the
      handler returned false or nil), Ok(Some(r)) for the relation the handler returned. */
  function TryCustomFilter(cfg: Config, filters: map<string, string>, column: string,
                           records: Relation, value: Option<string>): (r: Outcome<Option<Relation>>)
    ensures FindCustomFilter(filters, column, value).None? ==> r == Ok(None)
    ensures r.Err? ==> FindCustomFilter(filters, column, value).Some?
  {
    match FindCustomFilter(filters, column, value)
    case None => Ok(None)
    case Some(f) =>
      var v := if f.withValue then value else None;
      var target :- RespondedForMethod(cfg, f.handler);
      var result := if target == OnSelf then cfg.sendToSelf(f.handler, records, column, v)
                    else cfg.sendToRecords(f.handler, records, v);
      Converted(f.handler, result)
  }

  // ---------------------------------------------------------------------------
  // Filter stage

  /** `filter_by_associations_in`: joins the association and compares the related table's
      attribute with the value written into the condition. */
  function FilterByAssociationsIn(cfg: Config, records: Relation, column: string, value: Option<string>)
    : Outcome<Relation>
  {
    var columnName := FirstField(column);
    var attribute := SecondField(column);
    match FindAssociation(cfg.model.associations, columnName)
    case None => Err(MissingAssociation)
    case Some(reflection) =>
      Ok(records + [Join(columnName.value),
                    Where(reflection.tableName + "." + Interp(attribute) + " = '" + Interp(value) + "'", [])])
  }

  /** The filter succeeds exactly when the spec's first field names an association; it then
      joins that association and compares its table's attribute with the quoted value. */
  lemma FilterByAssociationsInShape(cfg: Config, records: Relation, column: string, value: Option<string>)
    ensures var r := FilterByAssociationsIn(cfg, records, column, value);
            (r.Ok? <==> NeedToUseAssociation(cfg.model, FirstField(column))) &&
            (r.Err? ==> r.error == MissingAssociation) &&
            (r.Ok? ==>
               exists a :: a in cfg.model.associations && Some(a.name) == FirstField(column) &&
                 r.value == records + [Join(a.name), Where(a.tableName + "." + Interp(SecondField(column)) + " = '" + Interp(value) + "'", [])])
  {
    NeedIffFound(cfg.model, FirstField(column));
  }

  /** The direct equality condition of the last tier. */
  function DirectFilter(column: Option<string>, value: Option<string>): Fragment {
    Where(Interp(column) + " = :filter", [Bind("filter", value)])
  }

  /** One filter step of either loop: the custom filter if it gives a relation; otherwise the
      association filter when `column` names an association; otherwise direct equality.
      `key` is the full column spec the custom filter and association filter see. */
  function ApplyFilter(cfg: Config, filters: map<string, string>, records: Relation,
                       key: string, column: Option<string>, value: Option<string>): Outcome<Relation>
  {
    var custom :- TryCustomFilter(cfg, filters, key, records, value);
    if custom.Some? then Ok(custom.value)
    else if NeedToUseAssociation(cfg.model, column) then FilterByAssociationsIn(cfg, records, key, value)
    else Ok(records + [DirectFilter(column, value)])
  }

  /** The precedence of the three tiers: a raising custom filter fails the step, a truthy
      custom result is the step's result, and only a falsy one (or none registered) lets the
      association filter, or failing that the direct `column = :filter`, apply. */
  lemma ApplyFilterPrecedence(cfg: Config, filters: map<string, string>, records: Relation,
                              key: string, column: Option<string>, value: Option<string>)
    ensures var custom := TryCustomFilter(cfg, filters, key, records, value);
            var r := ApplyFilter(cfg, filters, records, key, column, value);
            (custom.Err? ==> r == Err(custom.error)) &&
            (custom.Ok? && custom.value.Some? ==> r == Ok(custom.value.value)) &&
            (custom == Ok(None) && NeedToUseAssociation(cfg.model, column) ==>
               r == FilterByAssociationsIn(cfg, records, key, value)) &&
            (custom == Ok(None) && !NeedToUseAssociation(cfg.model, column) ==>
               r == Ok(records + [Where(Interp(column) + " = :filter", [Bind("filter", value)])]))
  {
  }

  /** Header filter `i`: the column at `iFilterCol_i`, the value `sFilterCol_i`. */
  function HeaderFilter(cfg: Config, filters: map<string, string>, p: Params, i: nat, records: Relation)
    : Outcome<Relation>
  {
    var ordinal := Param(p, FilterColKey(i));
    var column :- GetColumn(cfg, ordinal, true);
    var value := FilterValue(p, i);
    ApplyFilter(cfg, filters, records, FullColumn(cfg, ordinal), column, value)
  }

  /** Menu filter `i`: the attribute `iFilterMenu_i` as written, the value `sFilterMenu_i`. */
  function MenuFilter(cfg: Config, filters: map<string, string>, p: Params, i: nat, records: Relation)
    : Outcome<Relation>
  {
    match Param(p, FilterMenuKey(i))
    case None => Err(MissingMenuAttribute(i))
    case Some(attribute) =>
      ApplyFilter(cfg, filters, records, attribute, FirstField(attribute), Param(p, FilterMenuValueKey(i)))
  }

  /** A header filter whose index is past `@columns` raises; otherwise the custom and
      association filters see the full spec and the tested column is its first field. */
  lemma HeaderFilterShape(cfg: Config, filters: map<string, string>, p: Params, i: nat, records: Relation)
    ensures var index := ToI(Param(p, FilterColKey(i)));
            var spec := ColumnAt(cfg.columns, index);
            var r := HeaderFilter(cfg, filters, p, i, records);
            (spec.None? ==> r == Err(ColumnOutOfRange(index))) &&
            (spec.Some? ==>
               r == ApplyFilter(cfg, filters, records, spec.value, FirstField(spec.value), Param(p, FilterValueKey(i))))
  {
  }

  /** A menu filter without `iFilterMenu_i` raises; otherwise the attribute is used as
      written, its first field is the tested column and `sFilterMenu_i` the value. */
  lemma MenuFilterShape(cfg: Config, filters: map<string, string>, p: Params, i: nat, records: Relation)
    ensures var r := MenuFilter(cfg, filters, p, i, records);
            (FilterMenuKey(i) !in p ==> r == Err(MissingMenuAttribute(i))) &&
            (FilterMenuKey(i) in p ==>
               r == ApplyFilter(cfg, filters, records, p[FilterMenuKey(i)], FirstField(p[FilterMenuKey(i)]),
                                Param(p, FilterMenuValueKey(i))))
  {
  }

  /** The relation after header filters `0 .. k-1`, each applied to the previous result. */
  function HeaderFiltered(cfg: Config, filters: map<string, string>, p: Params, records: Relation, k: nat)
    : Outcome<Relation>
  {
    if k == 0 then Ok(records)
    else
      var r :- HeaderFiltered(cfg, filters, p, records, k - 1);
      HeaderFilter(cfg, filters, p, k - 1, r)
  }

  /** The relation after menu filters `0 .. k-1`, each applied to the previous result. */
  function MenuFiltered(cfg: Config, filters: map<string, string>, p: Params, records: Relation, k: nat)
    : Outcome<Relation>
  {
    if k == 0 then Ok(records)
    else
      var r :- MenuFiltered(cfg, filters, p, records, k - 1);
      MenuFilter(cfg, filters, p, k - 1, r)
  }

  function HeaderCount(p: Params): nat {
    Times(IntParam(p, "iFilteringCols"))
  }

  function MenuCount(p: Params): nat {
    Times(IntParam(p, "iFilteringMenus"))
  }

  /** What `filter_records` computes: every header filter, then every menu filter. */
  function FilteredRecords(cfg: Config, filters: map<string, string>, p: Params, records: Relation)
    : Outcome<Relation>
  {
    var afterHeaders :- HeaderFiltered(cfg, filters, p, records, HeaderCount(p));
    MenuFiltered(cfg, filters, p, afterHeaders, MenuCount(p))
  }

  lemma {:induction false} HeaderFailureSticks(cfg: Config, filters: map<string, string>, p: Params,
                                               records: Relation, k: nat, n: nat)
    requires k <= n && HeaderFiltered(cfg, filters, p, records, k).Err?
    ensures HeaderFiltered(cfg, filters, p, records, n) == HeaderFiltered(cfg, filters, p, records, k)
    decreases n
  {
    if k < n {
      HeaderFailureSticks(cfg, filters, p, records, k, n - 1);
    }
  }

  lemma {:induction false} MenuFailureSticks(cfg: Config, filters: map<string, string>, p: Params,
                                             records: Relation, k: nat, n: nat)
    requires k <= n && MenuFiltered(cfg, filters, p, records, k).Err?
    ensures MenuFiltered(cfg, filters, p, records, n) == MenuFiltered(cfg, filters, p, records, k)
    decreases n
  {
    if k < n {
      MenuFailureSticks(cfg, filters, p, records, k, n - 1);
    }
  }

  /** `filter_records`: the header loop, then the menu loop, each step reassigning the relation. */
  method FilterRecords(cfg: Config, filters: map<string, string>, p: Params, records: Relation)
    returns (r: Outcome<Relation>)
    ensures r == FilteredRecords(cfg, filters, p, records)
  {
    var current := records;
    var n := HeaderCount(p);
    var i := 0;
    while i < n
      invariant 0 <= i <= n
      invariant HeaderFiltered(cfg, filters, p, records, i) == Ok(current)
    {
      var ordinal := Param(p, FilterColKey(i));
      var column := GetColumn(cfg, ordinal, true);
      var value := FilterValue(p, i);
      if column.Err? {
        HeaderFailureSticks(cfg, filters, p, records, i + 1, n);
        return Err(column.error);
      }
      var step := ApplyFilter(cfg, filters, current, FullColumn(cfg, ordinal), column.value, value);
      assert HeaderFiltered(cfg, filters, p, records, i + 1) == step;
      if step.Err? {
        HeaderFailureSticks(cfg, filters, p, records, i + 1, n);
        return Err(step.error);
      }
      current := step.value;
      i := i + 1;
    }

    var afterHeaders := current;
    var m := MenuCount(p);
    i := 0;
    while i < m
      invariant 0 <= i <= m
      invariant MenuFiltered(cfg, filters, p, afterHeaders, i) == Ok(current)
    {
      var attribute := Param(p, FilterMenuKey(i));
      if attribute.None? {
        MenuFailureSticks(cfg, filters, p, afterHeaders, i + 1, m);
        return Err(MissingMenuAttribute(i));
      }
      var column := FirstField(attribute.value);
      var value := Param(p, FilterMenuValueKey(i));
      var step := ApplyFilter(cfg, filters, current, attribute.value, column, value);
      assert MenuFiltered(cfg, filters, p, afterHeaders, i + 1) == step;
      if step.Err? {
        MenuFailureSticks(cfg, filters, p, afterHeaders, i + 1, m);
        return Err(step.error);
      }
      current := step.value;
      i := i + 1;
    }
    r := Ok(current);
  }

  // ---------------------------------------------------------------------------
  // Count path and the two fetch paths

  /** The relation whose distinct rows are counted: filters over search over the raw records. */
  function CountedRelation(cfg: Config, filters: map<string, string>, p: Params, raw: Relation)
    : Outcome<Relation>
  {
    FilteredRecords(cfg, filters, p, SearchRecords(cfg, p, raw))
  }

  /** `get_raw_record_count`: the distinct count of the filtered, searched relation, and 0
      when building it or counting it raises (`countDistinct` gives None when the database
      raises). */
  function GetRawRecordCount(cfg: Config, filters: map<string, string>, p: Params, raw: Relation,
                             countDistinct: Relation -> Option<nat>): (n: nat)
    ensures CountedRelation(cfg, filters, p, raw).Err? ==> n == 0
    ensures (CountedRelation(cfg, filters, p, raw).Ok? &&
             countDistinct(CountedRelation(cfg, filters, p, raw).value).None?) ==> n == 0
    ensures (CountedRelation(cfg, filters, p, raw).Ok? &&
             countDistinct(CountedRelation(cfg, filters, p, raw).value).Some?) ==>
              n == countDistinct(CountedRelation(cfg, filters, p, raw).value).value
  {
    match CountedRelation(cfg, filters, p, raw)
    case Err(_) => 0
    case Ok(r) =>
      match countDistinct(r)
      case None => 0
      case Some(c) => c
  }

  /** `fetch_records`: `filter_records(search_records(sort_records(paginate_records(raw))))`. */
  method FetchRecords(cfg: Config, filters: map<string, string>, p: Params, raw: Relation)
    returns (r: Outcome<Relation>)
    ensures match Appended(PaginateRecords(p, raw), SortFragments(cfg, p))
            case Err(e) => r == Err(e)
            case Ok(sorted) => r == FilteredRecords(cfg, filters, p, SearchRecords(cfg, p, sorted))
  {
    var sorted := SortRecords(cfg, p, PaginateRecords(p, raw));
    if sorted.Err? {
      return Err(sorted.error);
    }
    r := FilterRecords(cfg, filters, p, SearchRecords(cfg, p, sorted.value));
  }

  /** `fetch_records_without_pagination`: `filter_records(search_records(sort_records(raw)))`. */
  method FetchRecordsWithoutPagination(cfg: Config, filters: map<string, string>, p: Params, raw: Relation)
    returns (r: Outcome<Relation>)
    ensures match Appended(raw, SortFragments(cfg, p))
            case Err(e) => r == Err(e)
            case Ok(sorted) => r == FilteredRecords(cfg, filters, p, SearchRecords(cfg, p, sorted))
  {
    var sorted := SortRecords(cfg, p, raw);
    if sorted.Err? {
      return Err(sorted.error);
    }
    r := FilterRecords(cfg, filters, p, SearchRecords(cfg, p, sorted.value));
  }
}
