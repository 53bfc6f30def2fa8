/**
 * Assembly of the GAQL query string by the `search` tool
 * (ads_mcp/tools/search.py, lines 45-56).
 *
 * The clause order is fixed: SELECT ... FROM, then WHERE, ORDER BY and LIMIT,
 * each optional clause present only when its argument is truthy in Python's
 * sense. Conditions and orderings are caller-trusted fragments: they are
 * inserted verbatim, with no escaping and no validation.
 */
module QueryBuilder {
  import opened Text

  /**
   * The `limit: int | str = None` argument. `conditions` and `orderings`
   * need no such type: `None` and `[]` are both falsy and behave alike, so
   * both are the empty sequence here.
   */
  datatype Limit = NoLimit | IntLimit(n: int) | StrLimit(s: string)

  /** Python truthiness of `limit`: `None`, `0` and `""` are false, anything else true. */
  predicate IsTruthy(limit: Limit)
  {
    match limit
    case NoLimit => false
    case IntLimit(n) => n != 0
    case StrLimit(s) => s != ""
  }

  /** What the f-string `{limit}` renders. */
  function LimitText(limit: Limit): (r: string)
  {
    match limit
    case NoLimit => "None"
    case IntLimit(n) => IntToString(n)
    case StrLimit(s) => s
  }

  // ---- the four clauses; an absent clause is the empty string -------------

  function SelectClause(fields: seq<string>, resource: string): (r: string)
  {
    "SELECT " + Join(",", fields) + " FROM " + resource
  }

  function WhereClause(conditions: seq<string>): (r: string)
  {
    if conditions != [] then " WHERE " + Join(" AND ", conditions) else ""
  }

  function OrderByClause(orderings: seq<string>): (r: string)
  {
    if orderings != [] then " ORDER BY " + Join(",", orderings) else ""
  }

  function LimitClause(limit: Limit): (r: string)
  {
    if IsTruthy(limit) then " LIMIT " + LimitText(limit) else ""
  }

  /** The query `search` sends: the clauses in their fixed order, joined with no separator. */
  function QueryText(fields: seq<string>, resource: string, conditions: seq<string>,
                     orderings: seq<string>, limit: Limit): (r: string)
  {
    SelectClause(fields, resource) + WhereClause(conditions) + OrderByClause(orderings) + LimitClause(limit)
  }

  /**
   * The builder as `search` runs it: a list of parts, appended to clause by
   * clause, then `"".join(query_parts)`.
   */
  method BuildQuery(fields: seq<string>, resource: string, conditions: seq<string>,
                    orderings: seq<string>, limit: Limit) returns (query: string)
    ensures query == QueryText(fields, resource, conditions, orderings, limit)
  {
    var queryParts := ["SELECT " + Join(",", fields) + " FROM " + resource];
    ghost var built := SelectClause(fields, resource);
    if conditions != [] {
      queryParts := AppendPart(queryParts, " WHERE " + Join(" AND ", conditions));
    }
    built := built + WhereClause(conditions);
    assert Join("", queryParts) == built;
    if orderings != [] {
      queryParts := AppendPart(queryParts, " ORDER BY " + Join(",", orderings));
    }
    built := built + OrderByClause(orderings);
    assert Join("", queryParts) == built;
    if IsTruthy(limit) {
      queryParts := AppendPart(queryParts, " LIMIT " + LimitText(limit));
    }
    built := built + LimitClause(limit);
    query := Join("", queryParts);
  }

  /** `query_parts.append(part)`, and what it does to `"".join(query_parts)`. */
  function AppendPart(parts: seq<string>, part: string): (r: seq<string>)
    requires parts != []
    ensures r == parts + [part] && Join("", r) == Join("", parts) + part
  {
    JoinSnoc("", parts, part);
    assert Join("", parts) + "" + part == Join("", parts) + part;
    parts + [part]
  }

  // ---- properties of the query text ---------------------------------------

  /** Where the parts of a four-part concatenation stand in it. */
  lemma Occurs4(a: string, b: string, c: string, d: string)
    ensures OccursAt(a + b + c + d, 0, a)
    ensures OccursAt(a + b + c + d, |a|, b)
    ensures OccursAt(a + b + c + d, |a + b|, c)
    ensures OccursAt(a + b + c + d, |a + b + c|, d)
    ensures (a + b + c + d)[|a|..] == b + c + d
    ensures (a + b + c + d)[|a + b|..] == c + d
  {
    var x := a + b + c + d;
    assert x[..|a|] == a;
    assert x[|a|..|a| + |b|] == b;
    assert x[|a + b|..|a + b| + |c|] == c;
    assert x[|a + b + c|..] == d;
  }

  /** The query always begins with `SELECT <fields joined by ","> FROM <resource>`. */
  lemma QueryBeginsWithSelect(fields: seq<string>, resource: string, conditions: seq<string>,
                              orderings: seq<string>, limit: Limit)
    ensures StartsWith(QueryText(fields, resource, conditions, orderings, limit),
                       "SELECT " + Join(",", fields) + " FROM " + resource)
  {
    Occurs4(SelectClause(fields, resource), WhereClause(conditions), OrderByClause(orderings), LimitClause(limit));
  }

  /** An optional clause: absent, or a space followed by its keyword's initial `k`. */
  predicate ClauseOrEmpty(c: string, k: char)
  {
    c == "" || (|c| >= 2 && c[0] == ' ' && c[1] == k)
  }

  lemma ClauseShapes(conditions: seq<string>, orderings: seq<string>, limit: Limit)
    ensures ClauseOrEmpty(WhereClause(conditions), 'W')
    ensures ClauseOrEmpty(OrderByClause(orderings), 'O')
    ensures ClauseOrEmpty(LimitClause(limit), 'L')
  {
  }

  /**
   * Right after the SELECT clause stands ` WHERE ` and the conditions joined
   * by ` AND `, exactly when there are conditions.
   */
  lemma WhereIffConditions(fields: seq<string>, resource: string, conditions: seq<string>,
                           orderings: seq<string>, limit: Limit)
    ensures var q := QueryText(fields, resource, conditions, orderings, limit);
            conditions != [] <==>
            OccursAt(q, |SelectClause(fields, resource)|, " WHERE " + Join(" AND ", conditions))
  {
    var s, o, l := SelectClause(fields, resource), OrderByClause(orderings), LimitClause(limit);
    Occurs4(s, WhereClause(conditions), o, l);
    ClauseShapes(conditions, orderings, limit);
    if conditions == [] {
      NoClauseHere(s, o, l, " WHERE " + Join(" AND ", conditions), 'O', 'L');
    }
  }

  /** When neither `o` nor `l` begins with `t`'s keyword, `t` does not stand where they begin. */
  lemma NoClauseHere(s: string, o: string, l: string, t: string, ko: char, kl: char)
    requires ClauseOrEmpty(o, ko) && ClauseOrEmpty(l, kl)
    requires |t| >= 2 && t[1] != ko && t[1] != kl
    ensures !OccursAt(s + "" + o + l, |s|, t)
  {
    var q := s + "" + o + l;
    assert q[|s|..] == o + l;
    assert |o + l| < 2 || (o + l)[1] != t[1] by {
      if o != "" {
        assert (o + l)[1] == o[1];
      }
    }
  }

  /**
   * After the SELECT and WHERE clauses stands ` ORDER BY ` and the orderings
   * joined by `,`, exactly when there are orderings.
   */
  lemma OrderByIffOrderings(fields: seq<string>, resource: string, conditions: seq<string>,
                            orderings: seq<string>, limit: Limit)
    ensures var q := QueryText(fields, resource, conditions, orderings, limit);
            orderings != [] <==>
            OccursAt(q, |SelectClause(fields, resource) + WhereClause(conditions)|,
                     " ORDER BY " + Join(",", orderings))
  {
    var s, w, l := SelectClause(fields, resource), WhereClause(conditions), LimitClause(limit);
    Occurs4(s, w, OrderByClause(orderings), l);
    ClauseShapes(conditions, orderings, limit);
    if orderings == [] {
      NoClauseHere(s + w, "", l, " ORDER BY " + Join(",", orderings), 'L', 'L');
    }
  }

  /**
   * The query ends with ` LIMIT ` and the rendered limit exactly when the
   * limit is truthy; otherwise it ends right after the ORDER BY position.
   */
  lemma LimitIffTruthy(fields: seq<string>, resource: string, conditions: seq<string>,
                       orderings: seq<string>, limit: Limit)
    ensures var q := QueryText(fields, resource, conditions, orderings, limit);
            var at := |SelectClause(fields, resource) + WhereClause(conditions) + OrderByClause(orderings)|;
            && (IsTruthy(limit) <==> OccursAt(q, at, " LIMIT " + LimitText(limit)))
            && (IsTruthy(limit) ==> |q| == at + |" LIMIT " + LimitText(limit)|)
            && (!IsTruthy(limit) ==> |q| == at)
  {
    Occurs4(SelectClause(fields, resource), WhereClause(conditions), OrderByClause(orderings), LimitClause(limit));
  }

  /** Every condition and every ordering is part of the query verbatim: nothing is escaped. */
  lemma FragmentsVerbatim(fields: seq<string>, resource: string, conditions: seq<string>,
                          orderings: seq<string>, limit: Limit)
    ensures var q := QueryText(fields, resource, conditions, orderings, limit);
            && (forall k :: 0 <= k < |conditions| ==> Contains(q, conditions[k]))
            && (forall k :: 0 <= k < |orderings| ==> Contains(q, orderings[k]))
  {
    var q := QueryText(fields, resource, conditions, orderings, limit);
    var s, w, o := SelectClause(fields, resource), WhereClause(conditions), OrderByClause(orderings);
    Occurs4(s, w, o, LimitClause(limit));
    if conditions != [] {
      PartsWithin(" WHERE ", " AND ", conditions, q, |s|);
    }
    if orderings != [] {
      PartsWithin(" ORDER BY ", ",", orderings, q, |s + w|);
    }
  }

  /** Where a keyword followed by a join stands in `q`, every joined part is contained in `q`. */
  lemma PartsWithin(keyword: string, sep: string, parts: seq<string>, q: string, at: nat)
    requires OccursAt(q, at, keyword + Join(sep, parts))
    ensures forall k :: 0 <= k < |parts| ==> Contains(q, parts[k])
  {
    var j := Join(sep, parts);
    JoinContainsEach(sep, parts);
    forall k | 0 <= k < |parts| ensures Contains(q, parts[k]) {
      ContainsIff(j, parts[k]);
      var i: nat :| OccursAt(j, i, parts[k]);
      var start := at + |keyword| + i;
      assert q[at..at + |keyword + j|] == keyword + j;
      assert q[start..start + |parts[k]|] == (keyword + j)[|keyword| + i..|keyword| + i + |parts[k]|];
      assert (keyword + j)[|keyword| + i..|keyword| + i + |parts[k]|] == j[i..i + |parts[k]|];
      assert OccursAt(q, start, parts[k]);
      ContainsIff(q, parts[k]);
    }
  }

  /**
   * The boundary cases of the LIMIT clause: `None`, `0` and `""` give none;
   * `5` and `"10"` give ` LIMIT 5` and ` LIMIT 10`; the string `"0"` is
   * truthy and does give ` LIMIT 0`; a negative int is rendered with its sign.
   */
  lemma LimitClauseExamples()
    ensures LimitClause(NoLimit) == ""
    ensures LimitClause(IntLimit(0)) == ""
    ensures LimitClause(StrLimit("")) == ""
    ensures LimitClause(IntLimit(5)) == " LIMIT 5"
    ensures LimitClause(StrLimit("10")) == " LIMIT 10"
    ensures LimitClause(StrLimit("0")) == " LIMIT 0"
    ensures LimitClause(IntLimit(-3)) == " LIMIT -3"
  {
  }

  /** An int limit is rendered so that reading the clause back yields the same number. */
  lemma IntLimitRoundTrip(n: int)
    requires n != 0
    ensures var c := LimitClause(IntLimit(n));
            StartsWith(c, " LIMIT ") && IsIntText(c[|" LIMIT "|..]) && ParseInt(c[|" LIMIT "|..]) == n
  {
    var c := LimitClause(IntLimit(n));
    assert c[|" LIMIT "|..] == IntToString(n);
    IntToStringRoundTrip(n);
  }
}
