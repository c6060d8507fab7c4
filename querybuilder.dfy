/**
 * `handleQuery` (src/index.ts:15-30): from a request's query string and the
 * name of the searchable column, the `WHERE` fragment and the ordered
 * parameter list `[filter?, limit, offset]` of a paginated listing.
 */
module QueryBuilder {

  import opened Wrappers
  import opened Decimal
  import opened Dialect
  import Strings

  /**
   * A request's query string. Text values are looked up by name; `page` and
   * `limit` are given as the integers `parseInt` reads from them, None when the
   * value is missing or empty (`'' || '1'` is `'1'`).
   */
  datatype Query = Query(values: map<string, string>, page: Option<int>, limit: Option<int>)

  /** `query[name]`; a missing value reads as "", which is falsy like `undefined`. */
  function Value(q: Query, name: string): string {
    if name in q.values then q.values[name] else ""
  }

  /** `parseInt(query?.page || '1')`. */
  function Page(q: Query): int {
    if q.page.Some? then q.page.value else 1
  }

  /** `parseInt(query?.limit || '10')`. */
  function Limit(q: Query): int {
    if q.limit.Some? then q.limit.value else 10
  }

  /** The column the filter value is compared with exactly; every other column is matched by substring. */
  const ExactField := "mmsi"

  /** A clause `<kw><field><op>?` around a column name adds one placeholder to the name's. */
  lemma ClauseMarks(kw: string, field: string, op: string)
    requires '?' !in kw && '?' !in op
    ensures Placeholders(kw + field + op + "?") == Placeholders(field) + 1
  {
    Strings.CountZero(kw, '?');
    Strings.CountZero(op, '?');
    Strings.CountAppend(kw + field + op, "?", '?');
    Strings.CountAppend(kw + field, op, '?');
    Strings.CountAppend(kw, field, '?');
    assert "?"[1..] == "";
  }

  const Where := "WHERE "
  const Equals := " = "
  const Like := " LIKE "

  /** `WHERE <field> = ?` for the exact-match column, `WHERE <field> LIKE ?` otherwise. */
  function FilterClause(field: string): (c: string)
    ensures Placeholders(c) == Placeholders(field) + 1
  {
    var op := if field == ExactField then Equals else Like;
    assert '?' !in Where && '?' !in op;
    ClauseMarks(Where, field, op);
    Where + field + op + "?"
  }

  /** The bound filter value: the raw value for the exact-match column, `%value%` otherwise. */
  function FilterValue(field: string, value: string): string {
    if field == ExactField then value else "%" + value + "%"
  }

  // SearchFragment and SearchParams name what HandleQuery returns, so that the
  // route statements, which call HandleQuery, can state their templates and
  // parameters; HandleQuery's other ensures state what the two mean.

  /** The `WHERE` fragment: empty without a search value, the filter clause with one. */
  function SearchFragment(q: Query, field: string): string {
    if Value(q, field) == "" then "" else FilterClause(field)
  }

  /** The parameter list: the filter value when there is one, then limit and offset as decimal text. */
  function SearchParams(q: Query, field: string): seq<Param> {
    (if Value(q, field) == "" then [] else [Text(FilterValue(field, Value(q, field)))])
    + [Text(IntToString(Limit(q))), Text(IntToString((Page(q) - 1) * Limit(q)))]
  }

  /**
   * With no search value the fragment is empty and the parameters are
   * `[limit, offset]`; with one, the fragment is the filter clause and the
   * filter value is put in front of them. The offset is (page - 1) * limit,
   * the two trailing texts read back as limit and offset, and (for a column
   * name without `?`) the fragment holds exactly as many placeholders as
   * there are parameters before the two pagination ones.
   */
  method HandleQuery(query: Query, searchField: string)
      returns (searchQuery: string, params: seq<Param>, limit: int, offset: int)
    ensures limit == Limit(query)
    ensures offset == (Page(query) - 1) * limit
    ensures searchQuery == SearchFragment(query, searchField)
    ensures params == SearchParams(query, searchField)
    ensures |params| == if Value(query, searchField) == "" then 2 else 3
    ensures Value(query, searchField) == "" ==> searchQuery == ""
    ensures Value(query, searchField) != "" ==> params[0] == Text(FilterValue(searchField, Value(query, searchField)))
    ensures ParseInteger(params[|params| - 2].text) == Some(limit)
    ensures ParseInteger(params[|params| - 1].text) == Some(offset)
    ensures '?' !in searchField ==> Placeholders(searchQuery) + 2 == |params|
  {
    var searchValue := Value(query, searchField);
    var page := Page(query);
    limit := Limit(query);
    offset := (page - 1) * limit;

    searchQuery := "";
    params := [Text(IntToString(limit)), Text(IntToString(offset))];

    if searchValue != "" {
      searchQuery := FilterClause(searchField);
      params := [Text(FilterValue(searchField, searchValue))] + params;
    }
    IntToStringRoundTrip(limit);
    IntToStringRoundTrip(offset);
    Strings.CountZero(searchField, '?');
  }

  /** page=2, limit=10 gives offset 10, with the mmsi value bound as it is. */
  method PaginationScenario() {
    var q := Query(map["mmsi" := "123456789"], Some(2), Some(10));
    var searchQuery, params, limit, offset := HandleQuery(q, "mmsi");
    assert offset == 10;
    assert params[0] == Text("123456789");
    assert searchQuery == "WHERE mmsi = ?";
  }

  /** Without page and limit the defaults give limit 10 and offset 0; a name is matched by substring. */
  method DefaultsScenario() {
    var q := Query(map["name" := "Tug"], None, None);
    var searchQuery, params, limit, offset := HandleQuery(q, "name");
    assert limit == 10 && offset == 0;
    assert params[0] == Text("%Tug%");
    assert searchQuery == "WHERE name LIKE ?";
  }
}
