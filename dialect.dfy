/**
 * The dialect adapter `executeQuery` (src/index.ts:33-43): MySQL receives the
 * SQL template and its parameters as they are; PostgreSQL receives the template
 * with every `?` rewritten to a `$n` parameter reference.
 *
 * The rewrite is `sql.replace(/\?/g, (_, i) => `$${i + 1}`)`. JavaScript calls
 * a replacement function with the match first and the match's character offset
 * second (there are no capture groups), so `i` is an offset, not an ordinal:
 * the `?` at offset k becomes `$` followed by k + 1. The model keeps that
 * behaviour (RewriteFrom, PgRewrite, ExecuteQuery) and defines the ordinal
 * numbering the comment at src/index.ts:35 describes beside it
 * (OrdinalRewriteFrom, PgRewriteOrdinal).
 */
module Dialect {

  import opened Wrappers
  import opened Decimal
  import Strings

  datatype Dialect = MySql | Postgres

  /** `process.env.DB_CONNECTION === 'pgsql'` picks PostgreSQL; any other value picks MySQL. */
  function DialectOf(connection: string): (d: Dialect)
    ensures d == Postgres <==> connection == "pgsql"
  {
    if connection == "pgsql" then Postgres else MySql
  }

  /** A bound parameter: the handlers bind strings, and the cctvs handler one array of ids. */
  datatype Param = Text(text: string) | IdList(ids: seq<int>)

  /** What is handed to the database engine: a template and its ordered parameters. */
  datatype Statement = Statement(sql: string, params: seq<Param>)

  /** Number of `?` placeholders in a template. */
  function Placeholders(sql: string): nat {
    Strings.Count(sql, '?')
  }

  /** Every placeholder of the template has exactly one parameter. */
  predicate Balanced(st: Statement) {
    Placeholders(st.sql) == |st.params|
  }

  /** The PostgreSQL parameter reference `$n`. */
  function ParamRef(n: nat): (r: string)
    ensures |r| > 1 && r[0] == '$' && '?' !in r
    ensures ParseInteger(r[1..]) == Some(n as int)
  {
    var d := NatToDecimal(n);
    assert ("$" + d)[1..] == d;
    IntToStringRoundTrip(n);
    "$" + d
  }

  // ---------------------------------------------------------------------
  // the common shape of both numberings

  /**
   * The template `s` with its i-th `?` replaced by ParamRef(nums[i]) and every
   * other character kept in place.
   */
  function Subst(s: string, nums: seq<nat>): (r: string)
    requires |nums| == Placeholders(s)
    ensures '?' !in r
    ensures '?' !in s ==> r == s
    decreases |s|
  {
    if s == [] then []
    else if s[0] == '?' then ParamRef(nums[0]) + Subst(s[1..], nums[1..])
    else [s[0]] + Subst(s[1..], nums)
  }

  lemma {:induction false} SubstAppend(a: string, b: string, na: seq<nat>, nb: seq<nat>)
    requires |na| == Placeholders(a) && |nb| == Placeholders(b)
    ensures Placeholders(a + b) == Placeholders(a) + Placeholders(b)
    ensures Subst(a + b, na + nb) == Subst(a, na) + Subst(b, nb)
    decreases |a|
  {
    Strings.CountAppend(a, b, '?');
    if a == [] {
      assert a + b == b;
      assert na + nb == nb;
    } else {
      assert (a + b)[0] == a[0];
      assert (a + b)[1..] == a[1..] + b;
      if a[0] == '?' {
        assert (na + nb)[0] == na[0];
        assert (na + nb)[1..] == na[1..] + nb;
        SubstAppend(a[1..], b, na[1..], nb);
        Strings.AppendAssoc(ParamRef(na[0]), Subst(a[1..], na[1..]), Subst(b, nb));
      } else {
        SubstAppend(a[1..], b, na, nb);
        Strings.AppendAssoc([a[0]], Subst(a[1..], na), Subst(b, nb));
      }
    }
  }

  /**
   * The placeholder after a placeholder-free prefix `a` becomes ParamRef(nums[0]);
   * `a` is kept as it is and the rest is rewritten with the remaining numbers.
   */
  lemma SubstAt(a: string, b: string, nums: seq<nat>)
    requires '?' !in a
    requires |nums| == Placeholders(a + "?" + b)
    ensures |nums| == Placeholders(b) + 1
    ensures Subst(a + "?" + b, nums) == a + ParamRef(nums[0]) + Subst(b, nums[1..])
  {
    var qb := "?" + b;
    assert a + "?" + b == a + qb;
    Strings.CountZero(a, '?');
    Strings.CountAppend(a, qb, '?');
    assert qb[0] == '?' && qb[1..] == b;
    SubstAppend(a, qb, [], nums);
    assert [] + nums == nums;
    assert Subst(qb, nums) == ParamRef(nums[0]) + Subst(b, nums[1..]);
    Strings.AppendAssoc(a, ParamRef(nums[0]), Subst(b, nums[1..]));
  }

  /** `pieces[0] + refs[0] + pieces[1] + ... + refs[n - 1] + pieces[n]`. */
  function Interleave(pieces: seq<string>, refs: seq<string>): string
    requires |pieces| == |refs| + 1
    decreases |refs|
  {
    if refs == [] then pieces[0] else pieces[0] + refs[0] + Interleave(pieces[1..], refs[1..])
  }

  /** The reference texts of a numbering. */
  function Refs(nums: seq<nat>): (refs: seq<string>)
    ensures |refs| == |nums|
  {
    seq(|nums|, i requires 0 <= i < |nums| => ParamRef(nums[i]))
  }

  lemma {:induction false} InterleaveCons(c: char, pieces: seq<string>, refs: seq<string>)
    requires |pieces| == |refs| + 1
    ensures Interleave([[c] + pieces[0]] + pieces[1..], refs) == [c] + Interleave(pieces, refs)
  {
    var p := [[c] + pieces[0]] + pieces[1..];
    assert p[0] == [c] + pieces[0];
    assert p[1..] == pieces[1..];
  }

  /**
   * Every character other than `?` is kept, in order: the template splits at
   * its `?`s into pieces, and the result is those pieces with the i-th
   * reference standing between the i-th and the next.
   */
  lemma {:induction false} SubstKeepsText(s: string, nums: seq<nat>)
    requires |nums| == Placeholders(s)
    ensures |Strings.Split(s, '?')| == |nums| + 1
    ensures Subst(s, nums) == Interleave(Strings.Split(s, '?'), Refs(nums))
    decreases |s|
  {
    if s != [] {
      var pieces := Strings.Split(s[1..], '?');
      if s[0] == '?' {
        SubstKeepsText(s[1..], nums[1..]);
        assert Refs(nums)[1..] == Refs(nums[1..]);
        assert ([""] + pieces)[0] == "";
        assert ([""] + pieces)[1..] == pieces;
        Strings.AppendEmpty(ParamRef(nums[0]));
      } else {
        SubstKeepsText(s[1..], nums);
        InterleaveCons(s[0], pieces, Refs(nums));
      }
    }
  }

  // ---------------------------------------------------------------------
  // the rewrite as src/index.ts:36 performs it

  /**
   * `s` is the part of a template from character offset `k` on. Each `?` at
   * offset j becomes ParamRef(j + 1); any other character is copied.
   */
  function RewriteFrom(s: string, k: nat): (r: string)
    ensures '?' !in r
    ensures '?' !in s ==> r == s
    decreases |s|
  {
    if s == [] then []
    else (if s[0] == '?' then ParamRef(k + 1) else [s[0]]) + RewriteFrom(s[1..], k + 1)
  }

  /** The PostgreSQL template `executeQuery` sends, as the code computes it. */
  function PgRewrite(sql: string): string {
    RewriteFrom(sql, 0)
  }

  /** The numbers RewriteFrom(s, k) writes, in order: one more than the offset of each `?`. */
  function OffsetNumbers(s: string, k: nat): (r: seq<nat>)
    ensures |r| == Placeholders(s)
    decreases |s|
  {
    if s == [] then []
    else
      var rest := OffsetNumbers(s[1..], k + 1);
      if s[0] == '?' then [k + 1] + rest else rest
  }

  /**
   * The numbers lie past k and within the template, strictly increase, and
   * the i-th is never below the ordinal k + i + 1; they are the ordinals only
   * when the `?`s open the template (OffsetNumbersAreOrdinalsIff).
   */
  lemma {:induction false} OffsetNumbersBounds(s: string, k: nat)
    ensures forall i :: 0 <= i < |OffsetNumbers(s, k)| ==> k < OffsetNumbers(s, k)[i] <= k + |s|
    ensures forall i, j :: 0 <= i < j < |OffsetNumbers(s, k)| ==> OffsetNumbers(s, k)[i] < OffsetNumbers(s, k)[j]
    ensures forall i :: 0 <= i < |OffsetNumbers(s, k)| ==> OffsetNumbers(s, k)[i] >= k + i + 1
    decreases |s|
  {
    if s != [] {
      OffsetNumbersBounds(s[1..], k + 1);
      var rest := OffsetNumbers(s[1..], k + 1);
      var r := OffsetNumbers(s, k);
      if s[0] == '?' {
        assert r == [k + 1] + rest;
        assert forall i :: 1 <= i < |r| ==> r[i] == rest[i - 1];
      } else {
        assert r == rest;
      }
    }
  }

  /** Every number in OffsetNumbers(s, k) is k + 1 plus the offset of a `?` of `s`. */
  lemma {:induction false} OffsetNumbersMarkPlaceholders(s: string, k: nat, i: nat)
    requires i < |OffsetNumbers(s, k)|
    ensures var n := OffsetNumbers(s, k)[i]; k < n <= k + |s| && s[n - k - 1] == '?'
    decreases |s|
  {
    var t := s[1..];
    var rest := OffsetNumbers(t, k + 1);
    if s[0] == '?' {
      if i > 0 {
        assert OffsetNumbers(s, k)[i] == rest[i - 1];
        OffsetNumbersMarkPlaceholders(t, k + 1, i - 1);
      }
    } else {
      assert OffsetNumbers(s, k) == rest;
      OffsetNumbersMarkPlaceholders(t, k + 1, i);
    }
  }

  /** Every `?` of `s`, at offset p, has its number k + p + 1 in OffsetNumbers(s, k). */
  lemma {:induction false} OffsetNumbersCoverPlaceholders(s: string, k: nat, p: nat)
    requires p < |s| && s[p] == '?'
    ensures k + p + 1 in OffsetNumbers(s, k)
    decreases |s|
  {
    var t := s[1..];
    if p > 0 {
      assert t[p - 1] == '?';
      OffsetNumbersCoverPlaceholders(t, k + 1, p - 1);
      assert (k + 1) + (p - 1) + 1 in OffsetNumbers(t, k + 1);
    }
  }

  lemma {:induction false} RewriteIsSubst(s: string, k: nat)
    ensures RewriteFrom(s, k) == Subst(s, OffsetNumbers(s, k))
    decreases |s|
  {
    if s != [] {
      RewriteIsSubst(s[1..], k + 1);
      if s[0] == '?' {
        assert OffsetNumbers(s, k)[1..] == OffsetNumbers(s[1..], k + 1);
      }
    }
  }

  lemma {:induction false} OffsetNumbersAppend(a: string, b: string, k: nat)
    ensures OffsetNumbers(a + b, k) == OffsetNumbers(a, k) + OffsetNumbers(b, k + |a|)
    decreases |a|
  {
    if a == [] {
      assert a + b == b;
    } else {
      assert (a + b)[0] == a[0];
      assert (a + b)[1..] == a[1..] + b;
      OffsetNumbersAppend(a[1..], b, k + 1);
    }
  }

  /** Every `$n` the as-written rewrite writes for `sql` exceeds its number of placeholders. */
  ghost predicate NamesNoParameter(sql: string) {
    forall i :: 0 <= i < |OffsetNumbers(sql, 0)| ==> OffsetNumbers(sql, 0)[i] > Placeholders(sql)
  }

  /**
   * A template that opens with a placeholder-free `head` at least as long as
   * its number of placeholders: the as-written rewrite numbers every
   * placeholder above `head`, so no `$n` it writes names a bound parameter.
   */
  lemma RewriteNamesNoParameter(head: string, rest: string)
    requires '?' !in head
    requires Placeholders(head + rest) <= |head|
    ensures NamesNoParameter(head + rest)
  {
    OffsetNumbersAppend(head, rest, 0);
    OffsetNumbersBounds(rest, |head|);
    Strings.CountZero(head, '?');
    assert OffsetNumbers(head, 0) == [];
  }

  /** The rewrite on the two-placeholder template `? ?`: the second `?` sits at offset 2. */
  lemma PgRewriteCounterexample()
    ensures PgRewrite("? ?") == "$1 $3"
    ensures OffsetNumbers("? ?", 0) == [1, 3]
  {
    assert ParamRef(1) == "$1";
    assert ParamRef(3) == "$3";
    assert "? ?"[1..] == " ?";
    assert " ?"[1..] == "?";
    assert "?"[1..] == "";
  }

  /** The as-written rewrite keeps the template's text between the placeholders, in order. */
  lemma PgRewriteKeepsText(sql: string)
    ensures |Strings.Split(sql, '?')| == Placeholders(sql) + 1
    ensures PgRewrite(sql) == Interleave(Strings.Split(sql, '?'), Refs(OffsetNumbers(sql, 0)))
  {
    RewriteIsSubst(sql, 0);
    SubstKeepsText(sql, OffsetNumbers(sql, 0));
  }

  // ---------------------------------------------------------------------
  // the ordinal numbering the comment at src/index.ts:35 intends

  /** 1 + n, 2 + n, ..., count + n. */
  function Ordinals(n: nat, count: nat): (r: seq<nat>)
    ensures |r| == count
    ensures forall i :: 0 <= i < count ==> r[i] == n + i + 1
  {
    seq(count, i requires 0 <= i < count => n + i + 1)
  }

  /**
   * `s` is the part of a template after its first `n` placeholders; the next
   * placeholder becomes ParamRef(n + 1).
   */
  function OrdinalRewriteFrom(s: string, n: nat): (r: string)
    ensures '?' !in r
    ensures '?' !in s ==> r == s
    decreases |s|
  {
    if s == [] then []
    else if s[0] == '?' then ParamRef(n + 1) + OrdinalRewriteFrom(s[1..], n + 1)
    else [s[0]] + OrdinalRewriteFrom(s[1..], n)
  }

  lemma {:induction false} OrdinalRewriteIsSubst(s: string, n: nat)
    ensures OrdinalRewriteFrom(s, n) == Subst(s, Ordinals(n, Placeholders(s)))
    decreases |s|
  {
    if s != [] {
      OrdinalRewriteIsSubst(s[1..], n + (if s[0] == '?' then 1 else 0));
      if s[0] == '?' {
        assert Ordinals(n, Placeholders(s))[1..] == Ordinals(n + 1, Placeholders(s[1..]));
      } else {
        assert Ordinals(n, Placeholders(s)) == Ordinals(n, Placeholders(s[1..]));
      }
    }
  }

  /** The intended PostgreSQL template: the i-th `?` becomes `$i`, counting from 1. */
  function PgRewriteOrdinal(sql: string): (r: string)
    ensures '?' !in r
    ensures '?' !in sql ==> r == sql
    ensures r == Subst(sql, Ordinals(0, Placeholders(sql)))
  {
    OrdinalRewriteIsSubst(sql, 0);
    OrdinalRewriteFrom(sql, 0)
  }

  /**
   * The code's numbering agrees with the intended one exactly when every
   * placeholder comes before every other character of the template.
   */
  lemma {:induction false} OffsetNumbersAreOrdinalsIff(s: string, k: nat)
    ensures OffsetNumbers(s, k) == Ordinals(k, Placeholders(s))
            <==> forall i :: 0 <= i < Placeholders(s) ==> s[i] == '?'
    decreases |s|
  {
    if s != [] {
      var t := s[1..];
      var c := Placeholders(s);
      var rest := OffsetNumbers(t, k + 1);
      OffsetNumbersAreOrdinalsIff(t, k + 1);
      OffsetNumbersBounds(t, k + 1);
      if s[0] == '?' {
        var ords := Ordinals(k + 1, c - 1);
        assert OffsetNumbers(s, k) == [k + 1] + rest;
        assert Ordinals(k, c) == [k + 1] + ords;
        assert OffsetNumbers(s, k) == Ordinals(k, c) <==> rest == ords by {
          if OffsetNumbers(s, k) == Ordinals(k, c) {
            assert rest == OffsetNumbers(s, k)[1..] == Ordinals(k, c)[1..] == ords;
          }
        }
        assert (forall i :: 0 <= i < c ==> s[i] == '?') <==> (forall i :: 0 <= i < c - 1 ==> t[i] == '?') by {
          if forall i :: 0 <= i < c - 1 ==> t[i] == '?' {
            forall i | 0 <= i < c ensures s[i] == '?' {
              if i > 0 { assert s[i] == t[i - 1]; }
            }
          }
          if forall i :: 0 <= i < c ==> s[i] == '?' {
            forall i | 0 <= i < c - 1 ensures t[i] == '?' {
              assert t[i] == s[i + 1];
            }
          }
        }
      } else if c > 0 {
        assert OffsetNumbers(s, k) == rest;
        assert rest[0] >= k + 2;
        assert Ordinals(k, c)[0] == k + 1;
      }
    }
  }

  /** The corrected numbering on the same counterexample template. */
  lemma PgRewriteOrdinalExample()
    ensures PgRewriteOrdinal("? ?") == "$1 $2"
  {
    assert ParamRef(1) == "$1";
    assert ParamRef(2) == "$2";
    assert "? ?"[1..] == " ?";
    assert " ?"[1..] == "?";
    assert "?"[1..] == "";
  }

  // ---------------------------------------------------------------------
  // executeQuery

  /**
   * The statement `executeQuery` hands to the engine. The parameters always
   * pass through unchanged and in order; MySQL keeps the template; PostgreSQL
   * gets the template with no `?` left, its other characters in place and the
   * `?` at offset k replaced by `$` and k + 1. A template without `?` (such as
   * the cctvs `ANY($1::int[])` form) reaches either engine unchanged.
   */
  function ExecuteQuery(dialect: Dialect, sql: string, params: seq<Param>): (st: Statement)
    ensures st.params == params
    ensures dialect == MySql ==> st.sql == sql
    ensures dialect == Postgres ==> '?' !in st.sql
    ensures dialect == Postgres ==> st.sql == Subst(sql, OffsetNumbers(sql, 0))
    ensures '?' !in sql ==> st.sql == sql
  {
    match dialect
    case MySql => Statement(sql, params)
    case Postgres =>
      RewriteIsSubst(sql, 0);
      Statement(PgRewrite(sql), params)
  }
}
