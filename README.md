# Server-side Datatable query builder, modelled in Dafny

`Datatable` (lib/serversid/datatable.rb) answers a paginated data grid's requests. It turns the
grid's request parameters into one composed ActiveRecord relation:

- pagination (`iDisplayStart`, `iDisplayLength`);
- sorting (`iSortingCols`, `iSortCol_i`, `sSortDir_i`);
- a global search (`sSearch`);
- header filters (`iFilteringCols`, `iFilterCol_i`, `sFilterCol_i`);
- menu filters (`iFilteringMenus`, `iFilterMenu_i`, `sFilterMenu_i`).

It also reports the number of matching rows. That count is built from search and filters only.

Each stage only appends to a lazily built relation. The model therefore treats a relation as
the sequence of fragments appended to it: `Where(text, binds)`, `Order(text)`, `Join(association)`,
`Offset(rows)` and `Limit(rows)`. Request parameters are a map from string keys to string values,
and a missing key reads as nil. The model spells out the Ruby operations the stages rely on:
`String#to_i` (with the one gap listed under "Left out"), `Integer#to_s`, `String#split(".")`,
`Array#join`, `present?` (ActiveSupport's `blank?` test, whose `[[:space:]]` covers Unicode
whitespace such as the no-break space) and the interpolation of nil. The exceptions the
pipeline can raise are an `Error` datatype carried in a `Result`:

- `nil.split` on a column index out of range, or on an absent menu attribute;
- `NoMethodError` from `responsed_for_method`;
- a custom handler that raises.

The association lookups of lines 151 and 158 would raise on a missing association, and the
model keeps that case as `MissingAssociation`. It cannot happen, though: both stages call
them only for a column that `need_to_use_association` has accepted, and `NeedIffFound`
shows that such a column always finds its association.

Files:

- `results.dfy`: `Option` and `Result`.
- `ruby_strings.dfy`: the Ruby string operations.
- `query.dfy`: fragments and their composition. `Collect` gives the fragments of a sequence of
  steps, or the first step's failure.
- `datatable.dfy`: the core, following the source method by method.
  - `sort_records` and `filter_records` are methods with loops, proved against the functions
    `SortFragments` and `FilteredRecords`.
  - The `@@custom_filters` registry is a class with a map field.
  - Everything else is a function.
- `properties.dfy`: properties that relate several stages, and the count path.
- `scenarios.dfy`: concrete requests worked through to the fragments they produce.

## Model

| member | source | states |
|---|---|---|
| Datatable.PerPage | lib/serversid/datatable.rb:119-121 | the page length is at least 1; it is `iDisplayLength.to_i` when that is positive and 10 otherwise |
| Datatable.Page | lib/serversid/datatable.rb:115-117 | page `page` spans rows `(page-1)*per_page` to `page*per_page - 1` and holds row `iDisplayStart` (Ruby's floor division); a non-negative start gives a page of at least 1 |
| Datatable.PaginateRecords | lib/serversid/datatable.rb:54-56 | pagination keeps the relation as a prefix and appends an offset, then `Limit(per_page)` |
| Datatable.PaginationOffset | lib/serversid/datatable.rb:54-56 | the offset appended is a multiple of `per_page`, and `offset <= iDisplayStart < offset + per_page` |
| Datatable.FirstPage | lib/serversid/datatable.rb:115-117 | a start inside the first page gives page 1 and appends `Offset(0), Limit(per_page)` |
| Datatable.ColumnAt | lib/serversid/datatable.rb:128 | `@columns[i]` is defined exactly for `-size <= i < size`; a negative index counts from the end |
| Datatable.FirstField | lib/serversid/datatable.rb:130-131 | `spec.split(".")[0]` is nil exactly when the spec holds only dots; otherwise it is the text before the first `.` |
| Datatable.GetColumn | lib/serversid/datatable.rb:127-135 | unsplit, the column at `ordinal.to_i` or nil; split, it fails with `ColumnOutOfRange` exactly when there is no such column, and otherwise gives the first field |
| Datatable.GetColumnAtValidIndex | lib/serversid/datatable.rb:127-135 | for an index in range, unsplit gives the spec unchanged and split gives its text before the first `.`; the two agree on a spec without a `.` |
| DatatableProperties.NegativeOrdinalCountsFromEnd | lib/serversid/datatable.rb:128 | the ordinal `"-1"` picks the last column |
| DatatableProperties.MissingOrdinalPicksFirstColumn | lib/serversid/datatable.rb:128 | a missing ordinal reads as 0 and picks the first column |
| DatatableProperties.PlainColumn | lib/serversid/datatable.rb:127-135 | a dot-free column in range is returned whole by both forms of `get_column` |
| Datatable.SortDirection | lib/serversid/datatable.rb:137-139 | the direction is `"DESC"` exactly when `sSortDir_i` is the string `"desc"`, and `"ASC"` otherwise |
| Datatable.FilterValue | lib/serversid/datatable.rb:141-143 | the header filter value is `sFilterCol_i`, nil when absent |
| Datatable.AssociationNames | lib/serversid/datatable.rb:146 | the declared associations' names, in declaration order |
| Datatable.FindAssociation | lib/serversid/datatable.rb:151 | the reflection lookup finds an association exactly when one has that name, and then it is the first one declared with it |
| Datatable.NeedToUseAssociationIff | lib/serversid/datatable.rb:145-147 | a column needs an association exactly when it is not nil and some declared association has that name |
| Datatable.NeedIffFound | lib/serversid/datatable.rb:145-147 | `need_to_use_association` holds exactly when the reflection lookup finds an association, so an association column never fails its lookup |
| Datatable.SortByAssociationsInShape | lib/serversid/datatable.rb:149-154 | the sort succeeds exactly when the spec's first field names an association, and then appends a join of it and `table.attribute DIRECTION` with that association's table and the spec's second field |
| Datatable.SortByAssociationsInAppends | lib/serversid/datatable.rb:149-154 | `sort_by_associations_in` appends the same fragments whatever relation it is given |
| Datatable.Times | lib/serversid/datatable.rb:59 | `n.times` runs `n` iterations, none for `n <= 0` |
| DatatableProperties.NoSortDirectives | lib/serversid/datatable.rb:59 | a zero, negative, missing or non-numeric `iSortingCols` sorts nothing |
| DatatableProperties.NoFilters | lib/serversid/datatable.rb:85-110 | with `iFilteringCols` and `iFilteringMenus` both at most 0, filtering returns the relation unchanged |
| Datatable.SortDirectives | lib/serversid/datatable.rb:59 | directive `i` of the `times` loop is the `i`-th step, in order |
| Datatable.CollectPrefixFails | lib/serversid/datatable.rb:59-67 | once one directive raises, the whole stage raises that error |
| Datatable.SortRecords | lib/serversid/datatable.rb:58-70 | the loop's result is the input relation followed by every directive's fragments in request order, or the first directive's error |
| DatatableProperties.SortDirectiveShape | lib/serversid/datatable.rb:59-67 | each directive appends exactly one ORDER BY term ending in its direction. A plain column is qualified by the model's table and joins nothing. An association column joins the association and is qualified by that association's table |
| DatatableProperties.SortDirectiveIsOneOrdering | lib/serversid/datatable.rb:62-66 | a directive appends only joins and ORDER BY terms, one term in all |
| DatatableProperties.CollectOrderTexts | lib/serversid/datatable.rb:59-67 | when every step contributes one ORDER BY term, the composed relation's `i`-th term is step `i`'s |
| DatatableProperties.SortOrdersInRequestOrder | lib/serversid/datatable.rb:59-67 | sorting emits exactly `iSortingCols` ORDER BY terms, the `i`-th being directive `i`'s, so directive 0 is the primary key |
| DatatableProperties.OneSortDirective | lib/serversid/datatable.rb:59-67 | with one directive, the stage appends exactly that directive's fragments |
| DatatableProperties.TwoSortDirectives | lib/serversid/datatable.rb:59-67 | with two directives, the first one's fragments come first, and a failure of the first is the stage's failure |
| DatatableProperties.PlainSortDirective | lib/serversid/datatable.rb:65 | a plain column orders by `table.column DIRECTION` |
| DatatableProperties.SortAddsNoConditions | lib/serversid/datatable.rb:58-70 | sorting appends no WHERE condition |
| Datatable.SearchRecords | lib/serversid/datatable.rb:72-81 | a blank or missing term leaves the relation unchanged; otherwise exactly one WHERE is appended, holding the OR-ed LIKE clauses and binding `%term%` |
| RubyStrings.PresentIff | lib/serversid/datatable.rb:73 | `present?` holds exactly when the parameter is not nil and not blank, blank meaning made of Unicode whitespace only (the empty string included) |
| DatatableScenarios.ScenarioBlankSearch | lib/serversid/datatable.rb:73-80 | a term of no-break and ideographic spaces is blank, so the relation is returned unchanged |
| DatatableProperties.SearchAppends | lib/serversid/datatable.rb:72-81 | search appends the same conditions to any relation, and only conditions |
| DatatableProperties.SearchQueryInOrder | lib/serversid/datatable.rb:74-76 | the search text names every searchable column in order, as `c LIKE :search` joined by ` OR ` |
| Datatable.FilterRegistry.constructor | lib/serversid/datatable.rb:172 | the registry starts empty |
| Datatable.FilterRegistry.RegisterFilter | lib/serversid/datatable.rb:171-174 | registering maps the key to the handler, replacing any earlier handler, and keeps every other key |
| Datatable.FindCustomFilter | lib/serversid/datatable.rb:190-194 | the bare column key is looked up first and passes the value; the `"column value"` key is tried only when the bare key is not registered and passes nil; the lookup finds nothing exactly when neither key is registered |
| Datatable.RespondedForMethod | lib/serversid/datatable.rb:176-184 | dispatch goes to the datatable when it defines the handler, else to the model class when it defines it, else `NoMethodError` |
| Datatable.TryCustomFilter | lib/serversid/datatable.rb:186-207 | with no key registered the result is falsy, and an error arises only from a registered handler |
| DatatableProperties.TryCustomFilterDispatch | lib/serversid/datatable.rb:196-202 | a found handler receives the value for a bare-key match and nil for a presence-key match. It runs on the datatable, or as a scope on the relation when only the model defines it, or raises when neither does |
| DatatableProperties.PresenceKeyNeverShadows | lib/serversid/datatable.rb:190-194 | registering a `"column value"` key changes nothing while the bare column is registered |
| DatatableProperties.LastRegistrationWins | lib/serversid/datatable.rb:173 | a later registration for a key replaces the earlier one in every lookup |
| Datatable.FilterByAssociationsInShape | lib/serversid/datatable.rb:156-161 | the filter succeeds exactly when the spec's first field names an association, and then appends a join of it and `table.attribute = 'value'` with that association's table |
| DatatableProperties.FilterTiers | lib/serversid/datatable.rb:89-95 | a relation returned by the custom filter wins; a falsy custom result behaves as if no custom filter were registered; a raising custom filter fails the step |
| DatatableProperties.DefaultTierShape | lib/serversid/datatable.rb:91-95 | without a custom result, a column naming an association joins it and compares the related table's attribute with the quoted value; any other column gets `column = :filter` bound to the value |
| DatatableProperties.HeaderColumnIsFirstField | lib/serversid/datatable.rb:86-87 | the column a header filter tests is the first field of the full spec that the custom and association filters see |
| DatatableProperties.DefaultTiersAreConditions | lib/serversid/datatable.rb:156-161 | the association and direct tiers append only joins and WHERE conditions |
| DatatableProperties.ApplyFilterWithoutCustom | lib/serversid/datatable.rb:89-95 | with no custom filter registered, one step appends the association or direct tier's fragments |
| DatatableProperties.HeaderFilterWithoutCustom | lib/serversid/datatable.rb:85-96 | one header filter with no custom filter appends its default fragments |
| DatatableProperties.MenuFilterWithoutCustom | lib/serversid/datatable.rb:99-110 | one menu filter with no custom filter appends its default fragments |
| DatatableProperties.HeaderFilteredWithoutCustom | lib/serversid/datatable.rb:85-96 | with no custom filter, the header loop appends each filter's fragments in index order, or fails with the first failure |
| DatatableProperties.MenuFilteredWithoutCustom | lib/serversid/datatable.rb:99-110 | with no custom filter, the menu loop appends each filter's fragments in index order, or fails with the first failure |
| DatatableProperties.FilterWithoutCustomFilters | lib/serversid/datatable.rb:83-113 | with no custom filter, every header filter's fragments come before any menu filter's, each in index order, and the stage fails exactly when a step does |
| DatatableProperties.DefaultFiltersAreConditions | lib/serversid/datatable.rb:83-113 | with no custom filter, filtering appends only joins and WHERE conditions |
| DatatableProperties.PlainHeaderFilter | lib/serversid/datatable.rb:94 | a plain column with nothing registered for it gets `column = :filter` bound to `sFilterCol_i` |
| DatatableProperties.OneHeaderFilter | lib/serversid/datatable.rb:83-113 | with one header filter and no menu filter, filtering is that single filter step |
| Datatable.HeaderFailureSticks | lib/serversid/datatable.rb:85-96 | once a header filter raises, the header loop ends with that error |
| Datatable.MenuFailureSticks | lib/serversid/datatable.rb:99-110 | once a menu filter raises, the menu loop ends with that error |
| Datatable.ApplyFilterPrecedence | lib/serversid/datatable.rb:89-95 | one filter step: a raising custom filter fails it, a truthy custom result is its result, and only a falsy one lets the association filter or, failing that, `column = :filter` bound to the value apply |
| Datatable.HeaderFilterShape | lib/serversid/datatable.rb:86-88 | a header filter whose `iFilterCol_i.to_i` is past `@columns` raises; otherwise the custom and association tiers see the full spec, the tested column is its first field and the value is `sFilterCol_i` |
| Datatable.MenuFilterShape | lib/serversid/datatable.rb:100-102 | a menu filter without `iFilterMenu_i` raises; otherwise the attribute is used as written, its first field is the tested column and `sFilterMenu_i` is the value |
| Datatable.FilterRecords | lib/serversid/datatable.rb:83-113 | the two loops compute every header filter and then every menu filter, each applied to the previous relation, stopping at the first error |
| Datatable.GetRawRecordCount | lib/serversid/datatable.rb:32-38 | the count is the distinct count of `filter(search(raw))`, and 0 when building or counting it raises |
| DatatableProperties.CountIgnoresSortAndPagination | lib/serversid/datatable.rb:32-38 | two requests that differ only in sort and pagination parameters report the same count, for custom handlers that do not read the request (a handler on the datatable can read `params` in the source) |
| DatatableProperties.HeaderFilterIgnoresSort | lib/serversid/datatable.rb:86-88 | one header filter step reads no sort or pagination parameter |
| DatatableProperties.HeaderFilteredIgnoresSort | lib/serversid/datatable.rb:85-96 | two requests whose header filter steps agree end the header loop with the same relation or error |
| DatatableProperties.MenuFilterIgnoresSort | lib/serversid/datatable.rb:100-102 | one menu filter step reads no sort or pagination parameter |
| DatatableProperties.MenuFilteredIgnoresSort | lib/serversid/datatable.rb:99-110 | two requests whose menu filter steps agree end the menu loop with the same relation or error |
| DatatableProperties.RowsAndCountShareConditions | lib/serversid/datatable.rb:32-56 | with no custom filter, the counted relation is the raw relation followed by conditions only, and the fetched rows carry exactly the same WHERE conditions; the two paths fail together |
| DatatableProperties.PaginationAddsNoConditions | lib/serversid/datatable.rb:54-56 | pagination appends no WHERE condition |
| Datatable.FetchRecords | lib/serversid/datatable.rb:46-48 | the rows are `filter(search(sort(paginate(raw))))`, failing with the sort stage's error when that fails |
| Datatable.FetchRecordsWithoutPagination | lib/serversid/datatable.rb:50-52 | the rows are `filter(search(sort(raw)))`, failing with the sort stage's error when that fails |
| RubyStrings.NatToString | lib/serversid/datatable.rb:60 | `Integer#to_s` gives decimal digits with no leading zero |
| RubyStrings.ToIOfNatToString | lib/serversid/datatable.rb:59-60 | `n.to_s.to_i == n`, also after a minus sign, so a key built from an ordinal reads back as that ordinal |
| RubyStrings.StringToIOfGarbage | lib/serversid/datatable.rb:120 | `to_i` of leading whitespace followed by nothing, or by a character that is not a digit or a sign, is 0 |
| RubyStrings.ToIOfParameter | lib/serversid/datatable.rb:128 | `nil.to_i` is 0, and a numeral parameter reads as its value |
| RubyStrings.StringToIOfDigits | lib/serversid/datatable.rb:59 | `to_i` of a numeral is its value |
| RubyStrings.SplitEmptyIff | lib/serversid/datatable.rb:130 | `split(".")` is empty exactly when the string holds only dots (the empty string included) |
| RubyStrings.SplitFirstField | lib/serversid/datatable.rb:130-131 | `split(".")[0]` is the text before the first `.` |
| RubyStrings.SplitWithoutSeparator | lib/serversid/datatable.rb:130 | a non-empty dot-free string splits into itself |
| Datatable.QualifiedFields | lib/serversid/datatable.rb:150 | for `"assoc.attr"` the first field is the association name and the second the attribute, as the destructuring assignment gives them |
| Datatable.UnqualifiedHasNoSecondField | lib/serversid/datatable.rb:157 | a spec without a dot has no attribute field, so it interpolates as empty |
| RubyStrings.SplitQualified | lib/serversid/datatable.rb:150 | `"assoc.attr".split(".")` is `["assoc", "attr"]` |
| RubyStrings.JoinWithSnoc | lib/serversid/datatable.rb:76 | joining keeps the parts in order, with the separator between them |
| Query.CollectOkIff | lib/serversid/datatable.rb:59-67 | a sequence of steps succeeds exactly when every step succeeds |
| DatatableScenarios.ScenarioSortByNameDescending | lib/serversid/datatable.rb:58-70 | sorting `users` columns `["id", "name"]` by column 1 `desc` appends `ORDER BY users.name DESC` |
| DatatableScenarios.ScenarioFirstPageOfDefaultLength | lib/serversid/datatable.rb:54-56 | start 0 and no page length give `Offset(0), Limit(10)` |
| DatatableScenarios.ScenarioTwoDirectivesInOrder | lib/serversid/datatable.rb:58-70 | directives `0 desc`, `1 asc` give `users.a DESC` and then `users.b ASC` |
| DatatableScenarios.ScenarioSearch | lib/serversid/datatable.rb:72-81 | term `acme` over `name` and `email` appends `name LIKE :search OR email LIKE :search` bound to `%acme%` |
| DatatableScenarios.ScenarioDirectFilter | lib/serversid/datatable.rb:83-113 | header filter 0 on `status` with value `active` and nothing registered appends `status = :filter` bound to `active` |

## Left out

- SQL execution is not modelled: what `LIKE` matches, `count(distinct: true)` and `@model_name.count`. The distinct count is a parameter `Relation -> Option<nat>`, where None stands for a database error.
- `as_json` is not modelled: the `sEcho`, `aaData`, `iTotalRecords` envelope, and `oLanguage`, which is present only when `get_custom_table_message` is defined. Neither is `method_missing`'s delegation to the view. They assemble output and forward calls, and state nothing about the query.
- `normalize` calls `to_s` on arbitrary objects and has nothing to state.
- `get_raw_records` and `data` are supplied by subclasses and are not part of this model. The raw relation is an input.
- SQL quoting and injection: the association filter's condition is modelled as the string the source builds, with the value interpolated unquoted.
- Datatable.FindCustomFilter: a handler is a method name, always truthy. The source tests the fetched value for truthiness (line 190), so a key registered with a nil or false handler would fall through to the `"column value"` key; the model cannot express such a registration.
- Ruby's dynamic `send` and `respond_to?` become sets of method names, one for the datatable and one for the model class. The handlers' results become two functions, which give a relation, a falsy value or a raised error. Private methods are not told apart from public ones, and handlers cannot see the request parameters.
- DatatableProperties.CountIgnoresSortAndPagination: holds for the handlers as modelled, which do not see the request. A custom filter method on the datatable itself can read `params` in the source, and one that reads a sort or pagination key can make the count depend on that key.
- The class variable `@@custom_filters` is a single registry object passed to the pipeline as its map. Sharing between subclasses and concurrent registration are not modelled.
- RubyStrings.StringToI: does not read the `0d` prefix that base-10 `String#to_i` accepts (`"0d12".to_i == 12`); such a string reads as 0 here. The ASCII whitespace skipped before the number, the sign, the digits and single `_` between digits are modelled.
- ActiveRecord's `where` with a blank string returns the relation unchanged. The model appends the `Where` anyway, so a search over no searchable columns appends a `Where` with empty text.
- The model follows the code as written. The direct filter condition is `column = :filter` with the column unqualified, as line 94 writes it, not qualified by the model's table. `fetch_records` paginates first and then sorts, searches and filters (line 47). The order of appending does not change the SQL that ActiveRecord generates.
- The scenarios (`DatatableScenarios`) fix one request each. They are worked examples, not general properties.
