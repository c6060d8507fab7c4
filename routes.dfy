/**
 * The SQL templates and parameter lists of the route handlers of
 * src/index.ts, each as the handler builds it before it calls
 * `executeQuery`: the vessel listing `/` (line 52), the positions listing
 * `/api/aisdataposition` (lines 71-75), terminals `/api/tersus` (lines 92-98),
 * cameras `/api/cctvs` (lines 115-125), the daily count
 * `/api/getTotalKapalDaily` (lines 142-150) and the locations query of
 * `/api/summaryTotalKapal` (line 170).
 *
 * Each template is written as a concatenation of short literal pieces so that
 * the placeholder count can be proved piece by piece; the pieces join to the
 * handler's literal text.
 */
module Routes {

  import opened Decimal
  import opened Dialect
  import opened QueryBuilder
  import Strings

  // The helpers below are stated on variables: the templates' literal pieces
  // are only ever shown placeholder-free one at a time.

  lemma PlainPrefix(head: string, s: string)
    requires '?' !in head
    ensures Placeholders(head + s) == Placeholders(s)
  {
    Strings.CountZero(head, '?');
    Strings.CountAppend(head, s, '?');
  }

  lemma PlainSuffix(s: string, tail: string)
    requires '?' !in tail
    ensures Placeholders(s + tail) == Placeholders(s)
  {
    Strings.CountZero(tail, '?');
    Strings.CountAppend(s, tail, '?');
  }

  lemma MarkSuffix(s: string)
    ensures Placeholders(s + "?") == Placeholders(s) + 1
  {
    Strings.CountAppend(s, "?", '?');
    assert "?"[1..] == "";
  }

  /** `head + (lead + "?" + tail)` with placeholder-free pieces holds exactly one placeholder. */
  lemma OneMark(head: string, lead: string, tail: string)
    requires '?' !in head && '?' !in lead && '?' !in tail
    ensures Placeholders(head + (lead + "?" + tail)) == 1
    ensures Placeholders(head) == 0
  {
    assert head + (lead + "?" + tail) == head + lead + "?" + tail;
    assert '?' !in head + lead;
    Strings.CountZero(head, '?');
    Strings.CountZero(head + lead, '?');
    MarkSuffix(head + lead);
    PlainSuffix(head + lead + "?", tail);
  }

  lemma OneMarkLast(head: string, lead: string)
    requires '?' !in head && '?' !in lead
    ensures Placeholders(head + (lead + "?")) == 1
    ensures Placeholders(head) == 0
  {
    OneMark(head, lead, "");
    assert lead + "?" + "" == lead + "?";
  }

  /** The `LIMIT ? OFFSET ?` ending of the two listings. */
  const PaginationTail := "LIMIT " + "?" + " OFFSET " + "?"

  lemma PaginationTailPlaceholders()
    ensures Placeholders(PaginationTail) == 2
    ensures PaginationTail[6] == '?' && PaginationTail[15] == '?'
  {
    var a := "LIMIT ";
    assert '?' !in a;
    MarkSuffix(a);
    PlainSuffix(a + "?", " OFFSET ");
    MarkSuffix(a + "?" + " OFFSET ");
  }

  /** A paginated listing: `head`, the search fragment, `mid`, then `LIMIT ? OFFSET ?`. */
  function Listing(head: string, searchQuery: string, mid: string): string {
    head + searchQuery + mid + PaginationTail
  }

  lemma ListingPlaceholders(head: string, searchQuery: string, mid: string)
    requires '?' !in head && '?' !in mid
    ensures Placeholders(Listing(head, searchQuery, mid)) == Placeholders(searchQuery) + 2
  {
    PaginationTailPlaceholders();
    PlainPrefix(head, searchQuery);
    PlainSuffix(head + searchQuery, mid);
    Strings.CountAppend(head + searchQuery + mid, PaginationTail, '?');
  }

  // ---------------------------------------------------------------------
  // `/`: SELECT * FROM ais_data_vessels ${searchQuery} LIMIT ? OFFSET ?

  const VesselsHead := "SELECT * FROM ais_data_vessels "

  function VesselsSql(searchQuery: string): string {
    Listing(VesselsHead, searchQuery, " ")
  }

  lemma VesselsHeadPlain()
    ensures '?' !in VesselsHead
  {
  }

  lemma VesselsPlaceholders(searchQuery: string)
    ensures Placeholders(VesselsSql(searchQuery)) == Placeholders(searchQuery) + 2
  {
    VesselsHeadPlain();
    ListingPlaceholders(VesselsHead, searchQuery, " ");
  }

  /**
   * The vessel listing, filtered on `mmsi` by exact match: one placeholder per
   * parameter, the filter value (when given) first, then limit and offset.
   */
  method VesselsStatement(query: Query) returns (st: Statement)
    ensures Balanced(st)
    ensures st.sql == VesselsSql(SearchFragment(query, ExactField))
    ensures st.params == SearchParams(query, ExactField)
  {
    var searchQuery, params, _, _ := HandleQuery(query, ExactField);
    VesselsPlaceholders(searchQuery);
    st := Statement(VesselsSql(searchQuery), params);
  }

  // ---------------------------------------------------------------------
  // `/api/aisdataposition`

  const PositionsSelect := "SELECT *\n       "
  const PositionsFrom := "FROM recent_vessels_positions"
  const PositionsHead := PositionsSelect + PositionsFrom + "\n       "
  const PositionsOrderBy := "\n       ORDER BY created_at DESC"
  const PositionsOrder := PositionsOrderBy + "\n       "

  function PositionsSql(searchQuery: string): string {
    Listing(PositionsHead, searchQuery, PositionsOrder)
  }

  lemma PositionsSelectPlain() ensures '?' !in PositionsSelect {}
  lemma PositionsFromPlain() ensures '?' !in PositionsFrom {}
  lemma PositionsOrderByPlain() ensures '?' !in PositionsOrderBy {}

  lemma PositionsPiecesPlain()
    ensures '?' !in PositionsHead && '?' !in PositionsOrder
  {
    PositionsSelectPlain();
    PositionsFromPlain();
    PositionsOrderByPlain();
  }

  lemma PositionsPlaceholders(searchQuery: string)
    ensures Placeholders(PositionsSql(searchQuery)) == Placeholders(searchQuery) + 2
  {
    PositionsPiecesPlain();
    ListingPlaceholders(PositionsHead, searchQuery, PositionsOrder);
  }

  /** The positions listing: the same parameters as the vessel listing, newest first. */
  method PositionsStatement(query: Query) returns (st: Statement)
    ensures Balanced(st)
    ensures st.sql == PositionsSql(SearchFragment(query, ExactField))
    ensures st.params == SearchParams(query, ExactField)
  {
    var searchQuery, params, _, _ := HandleQuery(query, ExactField);
    PositionsPlaceholders(searchQuery);
    st := Statement(PositionsSql(searchQuery), params);
  }

  // ---------------------------------------------------------------------
  // `/api/tersus`

  const TerminalsSql := "SELECT * FROM terminals"
  const NameFilterLead := " WHERE name LIKE "
  const NameFilter := NameFilterLead + "?"

  lemma TerminalsSqlPlain() ensures '?' !in TerminalsSql {}
  lemma NameFilterLeadPlain() ensures '?' !in NameFilterLead {}

  lemma TersusPieces()
    ensures Placeholders(TerminalsSql) == 0
    ensures Placeholders(TerminalsSql + NameFilter) == 1
  {
    TerminalsSqlPlain();
    NameFilterLeadPlain();
    OneMarkLast(TerminalsSql, NameFilterLead);
  }

  /** Terminals, filtered on `name` by substring when a name is given. */
  method TersusStatement(query: Query) returns (st: Statement)
    ensures Balanced(st)
    ensures Value(query, "name") == "" ==> st == Statement(TerminalsSql, [])
    ensures Value(query, "name") != "" ==>
              st == Statement(TerminalsSql + NameFilter, [Text("%" + Value(query, "name") + "%")])
  {
    var name := Value(query, "name");
    var sql := TerminalsSql;
    var params: seq<Param> := [];
    if name != "" {
      sql := sql + NameFilter;
      params := params + [Text("%" + name + "%")];
    }
    st := Statement(sql, params);
    TersusBalanced(st, name);
  }

  lemma TersusBalanced(st: Statement, name: string)
    requires name == "" ==> st == Statement(TerminalsSql, [])
    requires name != "" ==> st.sql == TerminalsSql + NameFilter && |st.params| == 1
    ensures Balanced(st)
  {
    TersusPieces();
  }

  // ---------------------------------------------------------------------
  // `/api/cctvs`

  const CctvsSql := "SELECT * FROM cctvs"
  const CctvsFilterLead := " WHERE terminal_id "
  /** The PostgreSQL filter names its parameter `$1` itself and holds no `?`. */
  const CctvsPgMatch := "= ANY($1::int[])"
  const CctvsPgFilter := CctvsFilterLead + CctvsPgMatch
  const CctvsMySqlLead := CctvsFilterLead + "IN ("
  const CctvsMySqlFilter := CctvsMySqlLead + "?" + ")"

  lemma CctvsSqlPlain() ensures '?' !in CctvsSql {}
  lemma CctvsFilterLeadPlain() ensures '?' !in CctvsFilterLead {}
  lemma CctvsPgMatchPlain() ensures '?' !in CctvsPgMatch {}

  lemma CctvsPieces()
    ensures Placeholders(CctvsSql) == 0
    ensures Placeholders(CctvsSql + CctvsPgFilter) == 0
    ensures Placeholders(CctvsSql + CctvsMySqlFilter) == 1
  {
    CctvsSqlPlain();
    CctvsFilterLeadPlain();
    CctvsPgMatchPlain();
    assert '?' !in CctvsMySqlLead;
    OneMark(CctvsSql, CctvsMySqlLead, ")");
    assert '?' !in CctvsSql + CctvsPgFilter;
    NoMark(CctvsSql + CctvsPgFilter);
  }

  /**
   * Cameras, filtered on a comma-separated `terminal_id` list. The list is
   * split on `,` and every piece is read by `parseId` (standing for
   * `parseInt(id.trim())`); the resulting array is the one parameter. Under
   * MySQL the template has one `?` for it; under PostgreSQL it has none, so
   * ExecuteQuery passes it on unchanged and its `$1` is that array.
   */
  method CctvsStatement(query: Query, dialect: Dialect, parseId: string -> int) returns (st: Statement)
    ensures Value(query, "terminal_id") == "" ==> st == Statement(CctvsSql, [])
    ensures Value(query, "terminal_id") != "" ==>
              var pieces := Strings.Split(Value(query, "terminal_id"), ',');
              && |st.params| == 1
              && st.params[0].IdList?
              && |st.params[0].ids| == Strings.Count(Value(query, "terminal_id"), ',') + 1
              && (forall i :: 0 <= i < |pieces| ==> st.params[0].ids[i] == parseId(pieces[i]))
              && st.sql == CctvsSql + (if dialect == Postgres then CctvsPgFilter else CctvsMySqlFilter)
    ensures dialect == MySql ==> Balanced(st)
    ensures dialect == Postgres ==> Placeholders(st.sql) == 0
  {
    var terminalId := Value(query, "terminal_id");
    var sql := CctvsSql;
    var params: seq<Param> := [];
    if terminalId != "" {
      var pieces := Strings.Split(terminalId, ',');
      var ids := seq(|pieces|, i requires 0 <= i < |pieces| => parseId(pieces[i]));
      if dialect == Postgres {
        sql := sql + CctvsPgFilter;
      } else {
        sql := sql + CctvsMySqlFilter;
      }
      params := params + [IdList(ids)];
    }
    st := Statement(sql, params);
    CctvsBalanced(st, terminalId, dialect);
  }

  lemma CctvsBalanced(st: Statement, terminalId: string, dialect: Dialect)
    requires terminalId == "" ==> st == Statement(CctvsSql, [])
    requires terminalId != "" ==>
               |st.params| == 1 &&
               st.sql == CctvsSql + (if dialect == Postgres then CctvsPgFilter else CctvsMySqlFilter)
    ensures dialect == MySql ==> Balanced(st)
    ensures dialect == Postgres ==> Placeholders(st.sql) == 0
  {
    CctvsPieces();
  }

  // ---------------------------------------------------------------------
  // `/api/getTotalKapalDaily`

  const DailySelect := "\n      SELECT COUNT(DISTINCT adv.mmsi)"
  const DailyAlias := " as total_kapal\n      "
  const DailyFrom := "FROM ais_data_positions adp\n      "
  const DailyJoin := "INNER JOIN ais_data_vessels adv "
  const DailyOn := "ON adp.vessel_id = adv.id\n      "
  const DailyWhere := "WHERE DATE(adp.created_at) = "
  const DailyHead := DailySelect + DailyAlias + DailyFrom + DailyJoin + DailyOn + DailyWhere
  const DailySql := DailyHead + "?"

  lemma DailySelectPlain() ensures '?' !in DailySelect {}
  lemma DailyAliasPlain() ensures '?' !in DailyAlias {}
  lemma DailyFromPlain() ensures '?' !in DailyFrom {}
  lemma DailyJoinPlain() ensures '?' !in DailyJoin {}
  lemma DailyOnPlain() ensures '?' !in DailyOn {}
  lemma DailyWherePlain() ensures '?' !in DailyWhere {}

  lemma DailyPieces()
    ensures '?' !in DailyHead
    ensures Placeholders(DailySql) == 1
  {
    DailySelectPlain();
    DailyAliasPlain();
    DailyFromPlain();
    DailyJoinPlain();
    DailyOnPlain();
    DailyWherePlain();
    MarkSuffix(DailyHead);
    NoMark(DailyHead);
  }

  /** A placeholder-free prefix only shifts the numbers of what follows it. */
  lemma PlainPrefixNumbers(head: string, rest: string, nums: seq<nat>)
    requires '?' !in head
    requires OffsetNumbers(rest, |head|) == nums
    ensures OffsetNumbers(head + rest, 0) == nums
  {
    OffsetNumbersAppend(head, rest, 0);
    Strings.CountZero(head, '?');
    assert OffsetNumbers(head, 0) == [];
  }

  lemma NoMark(s: string)
    requires '?' !in s
    ensures Placeholders(s) == 0
  {
    Strings.CountZero(s, '?');
  }

  /** The daily count: one placeholder, bound to the requested date or, without one, to `today`. */
  method DailyStatement(query: Query, today: string) returns (st: Statement)
    ensures Balanced(st)
    ensures st.sql == DailySql
    ensures st.params == [Text(if Value(query, "date") != "" then Value(query, "date") else today)]
  {
    var queryDate := if Value(query, "date") != "" then Value(query, "date") else today;
    DailyPieces();
    st := Statement(DailySql, [Text(queryDate)]);
  }

  // ---------------------------------------------------------------------
  // `/api/summaryTotalKapal`

  const LocationsSql := "SELECT initial_name FROM locations"

  lemma LocationsSqlPlain() ensures '?' !in LocationsSql {}

  /** The locations query: no placeholder and no parameter, so both dialects send it as written. */
  function LocationsStatement(): (st: Statement)
    ensures Balanced(st) && st.params == []
    ensures '?' !in st.sql
  {
    LocationsSqlPlain();
    NoMark(LocationsSql);
    Statement(LocationsSql, [])
  }

  // ---------------------------------------------------------------------
  // what PostgreSQL receives

  /**
   * A listing whose head is longer than its placeholder count reaches
   * PostgreSQL with every placeholder numbered past the end of its parameters.
   */
  lemma ListingNamesNoParameter(head: string, searchQuery: string, mid: string)
    requires '?' !in head && '?' !in mid
    requires Placeholders(searchQuery) + 2 <= |head|
    ensures NamesNoParameter(Listing(head, searchQuery, mid))
  {
    ListingPlaceholders(head, searchQuery, mid);
    assert Listing(head, searchQuery, mid) == head + (searchQuery + mid + PaginationTail);
    RewriteNamesNoParameter(head, searchQuery + mid + PaginationTail);
  }

  /**
   * Under PostgreSQL the vessel listing reaches the engine with every
   * placeholder numbered past the end of its parameter list.
   */
  lemma VesselsPgNamesNoParameter(searchQuery: string)
    requires Placeholders(searchQuery) <= 1
    ensures NamesNoParameter(VesselsSql(searchQuery))
  {
    VesselsHeadPlain();
    ListingNamesNoParameter(VesselsHead, searchQuery, " ");
  }

  lemma PositionsPgNamesNoParameter(searchQuery: string)
    requires Placeholders(searchQuery) <= 1
    ensures NamesNoParameter(PositionsSql(searchQuery))
  {
    PositionsPiecesPlain();
    ListingNamesNoParameter(PositionsHead, searchQuery, PositionsOrder);
  }

  lemma TersusPgNamesNoParameter()
    ensures NamesNoParameter(TerminalsSql + NameFilter)
  {
    TersusPieces();
    TerminalsSqlPlain();
    RewriteNamesNoParameter(TerminalsSql, NameFilter);
  }

  lemma DailyPgNamesNoParameter()
    ensures NamesNoParameter(DailySql)
  {
    DailyPieces();
    RewriteNamesNoParameter(DailyHead, "?");
  }

  /** Under the as-written rewrite the two pagination placeholders are named by their offsets. */
  lemma PaginationTailNumbers(k: nat)
    ensures OffsetNumbers(PaginationTail, k) == [k + 7, k + 16]
  {
    PaginationTailPlaceholders();
    var r := OffsetNumbers(PaginationTail, k);
    OffsetNumbersCoverPlaceholders(PaginationTail, k, 6);
    OffsetNumbersCoverPlaceholders(PaginationTail, k, 15);
    OffsetNumbersBounds(PaginationTail, k);
    assert |r| == 2;
    assert r[0] < r[1];
    assert r[0] == k + 7 && r[1] == k + 16;
  }

  /** Without a placeholder in the fragment, the two pagination `?`s are named by their offsets. */
  lemma ListingNumbers(head: string, searchQuery: string, mid: string)
    requires '?' !in head + searchQuery + mid
    ensures var n := |head| + |searchQuery| + |mid|;
            OffsetNumbers(Listing(head, searchQuery, mid), 0) == [n + 7, n + 16]
  {
    var lead := head + searchQuery + mid;
    PaginationTailNumbers(|lead|);
    PlainPrefixNumbers(lead, PaginationTail, [|lead| + 7, |lead| + 16]);
  }

  /**
   * The unfiltered vessel listing (`searchQuery` empty, or any fragment
   * without a placeholder): the as-written rewrite writes `$39` and `$48`,
   * shifted by the fragment's length, for its two parameters.
   */
  lemma VesselsPgNumbers(searchQuery: string)
    requires '?' !in searchQuery
    ensures OffsetNumbers(VesselsSql(searchQuery), 0) == [|searchQuery| + 39, |searchQuery| + 48]
  {
    VesselsHeadPlain();
    assert '?' !in VesselsHead + searchQuery + " ";
    ListingNumbers(VesselsHead, searchQuery, " ");
  }

  /**
   * With the ordinal rewrite every balanced template reaches PostgreSQL with
   * its i-th `?` replaced by `$i`, for exactly the parameters there are.
   */
  lemma PgRewriteOrdinalBindsInOrder(st: Statement)
    requires Balanced(st)
    ensures PgRewriteOrdinal(st.sql) == Subst(st.sql, Ordinals(0, |st.params|))
  {
  }

  /** The ordinal rewrite names the two pagination placeholders after the first n. */
  lemma PaginationTailOrdinal(n: nat)
    ensures Placeholders(PaginationTail) == 2
    ensures Subst(PaginationTail, [n + 1, n + 2]) == "LIMIT " + ParamRef(n + 1) + " OFFSET " + ParamRef(n + 2)
  {
    var a, b := "LIMIT ", " OFFSET ";
    assert '?' !in a && '?' !in b;
    var rest := b + "?";
    assert PaginationTail == a + "?" + rest;
    PaginationTailPlaceholders();
    SubstAt(a, rest, [n + 1, n + 2]);
    assert rest == b + "?" + "";
    SubstAt(b, "", [n + 2]);
    assert [n + 1, n + 2][1..] == [n + 2];
    assert [n + 2][1..] == [];
  }

  /**
   * The unfiltered vessel listing under the ordinal rewrite: the template's
   * text is kept and its two placeholders become `$1` and `$2`, the limit and
   * the offset.
   */
  lemma VesselsPgOrdinal(searchQuery: string)
    requires '?' !in searchQuery
    ensures PgRewriteOrdinal(VesselsSql(searchQuery)) ==
            VesselsHead + searchQuery + " " + ("LIMIT " + ParamRef(1) + " OFFSET " + ParamRef(2))
  {
    VesselsHeadPlain();
    var lead := VesselsHead + searchQuery + " ";
    assert '?' !in lead;
    NoMark(searchQuery);
    VesselsPlaceholders(searchQuery);
    var nums := Ordinals(0, 2);
    assert nums == [1, 2];
    NoMark(lead);
    PaginationTailOrdinal(0);
    SubstAppend(lead, PaginationTail, [], nums);
    assert [] + nums == nums;
  }
}
