/**
 * Assembly of the read query (`buildQuery`): a base `SELECT` over the
 * configuration table, an optional `WHERE KEY IN (...)` list, and one
 * `k='v'` equality clause per metadata filter, chained with ` AND `.
 * Values are interpolated, not parameterised, exactly as the store does.
 */
module Query {

  import opened Wrappers

  /** A metadata filter, one entry of the request's metadata map. */
  type Filter = (string, string)

  /** Go's `strings.Join`: the parts in order, with `sep` between neighbours. */
  function Join(parts: seq<string>, sep: string): string
  {
    if |parts| == 0 then ""
    else if |parts| == 1 then parts[0]
    else Join(parts[..|parts| - 1], sep) + sep + parts[|parts| - 1]
  }

  /** Where part `i` starts in `Join(parts, sep)`: after every earlier part and its separator. */
  function Offset(parts: seq<string>, sep: string, i: nat): nat
    requires i <= |parts|
  {
    if i == 0 then 0 else Offset(parts, sep, i - 1) + |parts[i - 1]| + |sep|
  }

  const SelectAll: string := "SELECT * FROM "
  const KeyListOpen: string := " WHERE KEY IN ('"
  const KeySeparator: string := "','"
  const KeyListClose: string := "')"
  const And: string := " AND "

  /** The query before any metadata filter. */
  function BaseQuery(keys: seq<string>, table: string): string
  {
    if |keys| == 0 then SelectAll + table
    else SelectAll + table + KeyListOpen + Join(keys, KeySeparator) + KeyListClose
  }

  function Clause(f: Filter): string
  {
    f.0 + "='" + f.1 + "'"
  }

  function Clauses(filters: seq<Filter>): (cs: seq<string>)
    ensures |cs| == |filters|
    ensures forall i | 0 <= i < |filters| :: cs[i] == Clause(filters[i])
  {
    seq(|filters|, i requires 0 <= i < |filters| => Clause(filters[i]))
  }

  /** The filter suffix: nothing, or ` AND ` and the clauses joined by ` AND `. */
  function FilterSuffix(filters: seq<Filter>): string
  {
    if |filters| == 0 then "" else And + Join(Clauses(filters), And)
  }

  /** The finished query text. */
  function QueryText(keys: seq<string>, filters: seq<Filter>, table: string): string
  {
    BaseQuery(keys, table) + FilterSuffix(filters)
  }

  /** Joining two non-empty lists puts one separator between their joins. */
  lemma {:induction false} JoinAppend(xs: seq<string>, ys: seq<string>, sep: string)
    requires |xs| > 0 && |ys| > 0
    ensures Join(xs + ys, sep) == Join(xs, sep) + sep + Join(ys, sep)
    decreases |ys|
  {
    var zs := xs + ys;
    if |ys| == 1 {
      assert zs[..|zs| - 1] == xs;
    } else {
      var ys' := ys[..|ys| - 1];
      assert zs[..|zs| - 1] == xs + ys';
      JoinAppend(xs, ys', sep);
    }
  }

  /** The join is exactly as long as its parts and the separators between them. */
  lemma {:induction false} JoinLength(parts: seq<string>, sep: string)
    requires |parts| > 0
    ensures |Join(parts, sep)| == Offset(parts, sep, |parts| - 1) + |parts[|parts| - 1]|
  {
    if |parts| > 1 {
      var init := parts[..|parts| - 1];
      JoinLength(init, sep);
      OffsetPrefix(parts, init, sep, |parts| - 1);
    }
  }

  /** Offsets depend only on the parts before them. */
  lemma {:induction false} OffsetPrefix(parts: seq<string>, init: seq<string>, sep: string, i: nat)
    requires init <= parts && i <= |init|
    ensures Offset(parts, sep, i) == Offset(init, sep, i)
  {
    if i > 0 {
      OffsetPrefix(parts, init, sep, i - 1);
    }
  }

  /**
   * Every part appears, in order, at its offset, and every two neighbours are
   * separated by exactly `sep`: `n` parts give `n` segments and `n - 1` separators.
   */
  lemma {:induction false} JoinSegments(parts: seq<string>, sep: string, i: nat)
    requires i < |parts|
    ensures Offset(parts, sep, i) + |parts[i]| <= |Join(parts, sep)|
    ensures Join(parts, sep)[Offset(parts, sep, i)..Offset(parts, sep, i) + |parts[i]|] == parts[i]
    ensures i + 1 < |parts| ==> Offset(parts, sep, i + 1) <= |Join(parts, sep)|
    ensures i + 1 < |parts| ==>
      Join(parts, sep)[Offset(parts, sep, i) + |parts[i]|..Offset(parts, sep, i + 1)] == sep
  {
    var n := |parts|;
    if n > 1 {
      var init := parts[..n - 1];
      var j := Join(init, sep);
      var whole := Join(parts, sep);
      assert whole == j + sep + parts[n - 1];
      JoinLength(init, sep);
      OffsetPrefix(parts, init, sep, n - 2);
      assert Offset(parts, sep, n - 1) == |j| + |sep|;
      if i < n - 1 {
        JoinSegments(init, sep, i);
        OffsetPrefix(parts, init, sep, i);
        var a := Offset(parts, sep, i);
        assert whole[a..a + |parts[i]|] == j[a..a + |parts[i]|];
        if i + 1 < n - 1 {
          OffsetPrefix(parts, init, sep, i + 1);
          assert whole[a + |parts[i]|..Offset(parts, sep, i + 1)] == j[a + |parts[i]|..Offset(parts, sep, i + 1)];
        } else {
          assert a + |parts[i]| == |j|;
          assert whole[|j|..|j| + |sep|] == sep;
        }
      } else {
        assert whole[|j| + |sep|..] == parts[n - 1];
      }
    }
  }

  /** With no keys and no filters the query is the bare table scan. */
  lemma PlainScan(table: string)
    ensures QueryText([], [], table) == "SELECT * FROM " + table
  {
  }

  /**
   * The filter suffix grows one clause at a time: the first filter brings
   * ` AND ` and its clause, every later one a further ` AND ` and its clause.
   */
  lemma {:induction false} FilterSuffixSnoc(filters: seq<Filter>, f: Filter)
    ensures FilterSuffix(filters + [f]) ==
      (if |filters| == 0 then And + Clause(f) else FilterSuffix(filters) + And + Clause(f))
  {
    var cs := Clauses(filters + [f]);
    assert cs == Clauses(filters) + [Clause(f)];
    if |filters| > 0 {
      assert cs[..|cs| - 1] == Clauses(filters);
    }
  }

  /**
   * The query always starts with the base; with keys the base lists them in
   * the request's order, and with filters the rest is ` AND ` followed by
   * the joined clauses.
   */
  lemma QueryShape(keys: seq<string>, filters: seq<Filter>, table: string)
    ensures BaseQuery(keys, table) <= QueryText(keys, filters, table)
    ensures |filters| == 0 ==> QueryText(keys, filters, table) == BaseQuery(keys, table)
    ensures |filters| > 0 ==>
      QueryText(keys, filters, table)[|BaseQuery(keys, table)|..] == And + Join(Clauses(filters), And)
  {
  }

  /**
   * `buildQuery`. The metadata map is given as its entries in the order Go's
   * `range` visits them. The error result is always nil.
   */
  method BuildQuery(keys: seq<string>, filters: seq<Filter>, table: string) returns (query: string, err: Option<string>)
    ensures err.None?
    ensures query == QueryText(keys, filters, table)
  {
    if |keys| == 0 {
      query := SelectAll + table;
    } else {
      var builder := SelectAll + table + KeyListOpen;
      builder := builder + Join(keys, KeySeparator);
      builder := builder + KeyListClose;
      query := builder;
    }
    if |filters| > 0 {
      var s := And;
      var n, j := |filters|, 0;
      var cs := Clauses(filters);
      while j < n
        invariant 0 <= j <= n
        invariant s == And + Join(cs[..j], And) + (if 0 < j < n then And else "")
      {
        var (k, v) := filters[j];
        s := s + (k + "='" + v + "'");
        assert cs[..j + 1][..j] == cs[..j];
        j := j + 1;
        if j < n {
          s := s + And;
        }
      }
      assert cs[..n] == cs;
      query := query + s;
    }
    err := None;
  }
}
