/** The merged query that `_union_sql` assembles from the sources' own
    queries: the sources joined by `union all`, wrapped in a select of
    `model, id` ordered by `posted desc`, with optional OFFSET and LIMIT. */
module QueryAssembly {
  import opened Wrappers
  import opened Text
  import opened Orm

  const Separator := " union all "
  const Prefix := "select model, id from ("
  const Suffix := ") foo order by posted desc"
  const OffsetClause := " offset %s"
  const LimitClause := " limit %s"

  /** Python truthiness of an optional slice bound: `None` and `0` are false. */
  predicate Truthy(x: Option<int>)
  {
    x.Some? && x.value != 0
  }

  /** `x or 0`. */
  function OrZero(x: Option<int>): (n: int)
    ensures Truthy(x) ==> n == x.value
    ensures !Truthy(x) ==> n == 0
  {
    if x.Some? then x.value else 0
  }

  /** The sources' parameter tuples concatenated in order. */
  function Flatten(pss: seq<seq<SqlValue>>): seq<SqlValue>
  {
    if |pss| == 0 then [] else pss[0] + Flatten(pss[1..])
  }

  function Texts(parts: seq<Query>): (r: seq<string>)
    ensures |r| == |parts| && forall i :: 0 <= i < |parts| ==> r[i] == parts[i].sql
  {
    seq(|parts|, i requires 0 <= i < |parts| => parts[i].sql)
  }

  function ParamLists(parts: seq<Query>): (r: seq<seq<SqlValue>>)
    ensures |r| == |parts| && forall i :: 0 <= i < |parts| ==> r[i] == parts[i].params
  {
    seq(|parts|, i requires 0 <= i < |parts| => parts[i].params)
  }

  /** The merged query before OFFSET and LIMIT. */
  function BaseQuery(parts: seq<Query>): Query
  {
    Query(Prefix + Join(Separator, Texts(parts)) + Suffix, Flatten(ParamLists(parts)))
  }

  /** The query `_union_sql(start, stop)` returns for sources compiled to `parts`. */
  function UnionQuery(parts: seq<Query>, start: Option<int>, stop: Option<int>): Query
  {
    WithLimit(WithOffset(BaseQuery(parts), start), start, stop)
  }

  /** Appends the OFFSET clause and binds `start` to it when `start` is truthy. */
  function WithOffset(q: Query, start: Option<int>): Query
  {
    if Truthy(start) then Query(q.sql + OffsetClause, q.params + [Number(start.value)]) else q
  }

  /** Appends the LIMIT clause when `stop` is truthy. It binds the distance
      from the offset to `stop`, where a falsy `start` counts as 0. */
  function WithLimit(q: Query, start: Option<int>, stop: Option<int>): Query
  {
    if Truthy(stop) then Query(q.sql + LimitClause, q.params + [Number(stop.value - OrZero(start))]) else q
  }

  /** Each source's compiled query, in source order. */
  function SourceQueries(b: Backend, querysets: seq<QuerySet>): (r: seq<Query>)
    ensures |r| == |querysets| && forall i :: 0 <= i < |r| ==> r[i] == SqlWithParams(b, querysets[i])
  {
    seq(|querysets|, i requires 0 <= i < |querysets| => SqlWithParams(b, querysets[i]))
  }

  /** The OFFSET/LIMIT rules: the sources' parameters come first and are
      kept; the offset parameter is `start` and is present exactly when
      `start` is truthy; the limit parameter is `stop - (start or 0)`, comes
      last and is present exactly when `stop` is truthy, so the window ends
      at row `stop`. */
  lemma OffsetLimitRules(parts: seq<Query>, start: Option<int>, stop: Option<int>)
    ensures var base, q := BaseQuery(parts), UnionQuery(parts, start, stop);
      && |q.params| == |base.params| + (if Truthy(start) then 1 else 0) + (if Truthy(stop) then 1 else 0)
      && q.params[..|base.params|] == base.params
      && (Truthy(start) ==> q.params[|base.params|] == Number(start.value))
      && (Truthy(stop) ==> q.params[|q.params| - 1] == Number(stop.value - OrZero(start)))
      && (Truthy(stop) ==> OrZero(start) + q.params[|q.params| - 1].number == stop.value)
      && |q.sql| == |base.sql| + (if Truthy(start) then |OffsetClause| else 0) + (if Truthy(stop) then |LimitClause| else 0)
      && q.sql[..|base.sql|] == base.sql
      && (Truthy(start) ==> q.sql[|base.sql|..|base.sql| + |OffsetClause|] == OffsetClause)
      && (Truthy(stop) ==> q.sql[|q.sql| - |LimitClause|..] == LimitClause)
  {
  }

  /** `0` and `None` are the same bound: neither adds a clause. */
  lemma FalsyBoundsAlike(parts: seq<Query>, start: Option<int>, stop: Option<int>)
    ensures UnionQuery(parts, Some(0), stop) == UnionQuery(parts, None, stop)
    ensures UnionQuery(parts, start, Some(0)) == UnionQuery(parts, start, None)
    ensures UnionQuery(parts, None, None) == BaseQuery(parts)
  {
  }

  /** The bounds are not checked: a stop before the start is passed on as a
      negative LIMIT. */
  lemma BoundsNotValidated(parts: seq<Query>, start: int, stop: int)
    requires stop != 0 && start != 0 && stop < start
    ensures UnionQuery(parts, Some(start), Some(stop)).params[|BaseQuery(parts).params| + 1].number < 0
  {
  }

  /** `sum(params, ())` keeps every tuple, in order: source `i`'s parameters
      start after those of the sources before it. */
  lemma {:induction false} FlattenAt(pss: seq<seq<SqlValue>>, i: nat)
    requires i < |pss|
    ensures Flatten(pss) == Flatten(pss[..i]) + pss[i] + Flatten(pss[i + 1..])
  {
    if i > 0 {
      FlattenAt(pss[1..], i - 1);
      assert pss[1..][..i - 1] == pss[1..i] == pss[..i][1..];
      assert pss[1..][i..] == pss[i + 1..];
    } else {
      assert pss[..0] == [];
    }
  }

  /** The text before source `i` in the merged query. */
  function TextBefore(parts: seq<Query>, i: nat): string
    requires i < |parts|
  {
    if i == 0 then Prefix else Prefix + Join(Separator, Texts(parts[..i])) + Separator
  }

  /** The text after source `i` in the merged query. */
  function TextAfter(parts: seq<Query>, i: nat): string
    requires i < |parts|
  {
    (if i + 1 < |parts| then Separator + Join(Separator, Texts(parts[i + 1..])) else "") + Suffix
  }

  /** Source order is kept in the text: source `i`'s text stands between
      the texts of the sources before it and those after it, each pair apart
      by the `union all` separator. */
  lemma SourceTextInOrder(parts: seq<Query>, i: nat)
    requires i < |parts|
    ensures BaseQuery(parts).sql == TextBefore(parts, i) + parts[i].sql + TextAfter(parts, i)
  {
    var ts := Texts(parts);
    JoinAround(Separator, ts, i);
    assert ts[..i] == Texts(parts[..i]);
    assert ts[i + 1..] == Texts(parts[i + 1..]);
    var before := if i == 0 then "" else Join(Separator, ts[..i]) + Separator;
    var after := if i + 1 < |ts| then Separator + Join(Separator, ts[i + 1..]) else "";
    assert TextBefore(parts, i) == Prefix + before;
    assert TextAfter(parts, i) == after + Suffix;
    Regroup(Prefix, before, ts[i], after, Suffix);
  }

  lemma Regroup(a: string, b: string, c: string, d: string, e: string)
    ensures a + (b + c + d) + e == (a + b) + c + (d + e)
  {
  }

  /** Source order is kept in the parameters: source `i`'s parameters stand
      between those of the sources before it and those after it. */
  lemma SourceParamsInOrder(parts: seq<Query>, i: nat)
    requires i < |parts|
    ensures BaseQuery(parts).params
         == Flatten(ParamLists(parts[..i])) + parts[i].params + Flatten(ParamLists(parts[i + 1..]))
  {
    var ps := ParamLists(parts);
    FlattenAt(ps, i);
    assert ps[..i] == ParamLists(parts[..i]);
    assert ps[i + 1..] == ParamLists(parts[i + 1..]);
  }

  /** Part `i` of a join, with what stands before and after it. */
  lemma JoinAround(sep: string, ts: seq<string>, i: nat)
    requires i < |ts|
    ensures Join(sep, ts)
         == (if i == 0 then "" else Join(sep, ts[..i]) + sep)
          + ts[i]
          + (if i + 1 < |ts| then sep + Join(sep, ts[i + 1..]) else "")
  {
    var rest := if i + 1 < |ts| then sep + Join(sep, ts[i + 1..]) else "";
    if i + 1 < |ts| {
      JoinAt(sep, ts[i..], 1);
      assert ts[i..][..1] == [ts[i]];
      assert ts[i..][1..] == ts[i + 1..];
    }
    assert Join(sep, ts[i..]) == ts[i] + rest;
    if i > 0 {
      JoinAt(sep, ts, i);
    } else {
      assert ts[i..] == ts;
    }
  }

  /** When every source's text has exactly one placeholder per parameter,
      so has the merged query: the fixed text adds none of its own, and the
      OFFSET and LIMIT clauses add one placeholder each, in the order their
      parameters are appended. */
  lemma QueryBindsEveryParam(parts: seq<Query>, start: Option<int>, stop: Option<int>)
    requires forall i :: 0 <= i < |parts| ==> Placeholders(parts[i].sql) == |parts[i].params|
    ensures var q := UnionQuery(parts, start, stop); Placeholders(q.sql) == |q.params|
  {
    var base := BaseQuery(parts);
    BaseBinds(parts);
    if Truthy(start) {
      ClauseBinds(base, OffsetClause, Number(start.value));
    }
    if Truthy(stop) {
      ClauseBinds(WithOffset(base, start), LimitClause, Number(stop.value - OrZero(start)));
    }
  }

  /** The fixed texts hold no percent sign. */
  lemma FixedTextsPlain()
    ensures '%' !in Prefix && '%' !in Suffix && '%' !in Separator
    ensures '%' !in " offset " && '%' !in " limit "
  {
  }

  /** The merged query before OFFSET and LIMIT binds every source parameter,
      and does not end in a percent sign. */
  lemma BaseBinds(parts: seq<Query>)
    requires forall i :: 0 <= i < |parts| ==> Placeholders(parts[i].sql) == |parts[i].params|
    ensures var base := BaseQuery(parts);
      && Placeholders(base.sql) == |base.params|
      && |base.sql| > 0 && base.sql[|base.sql| - 1] != '%'
  {
    var joined := Join(Separator, Texts(parts));
    JoinBinds(parts);
    FixedTextsPlain();
    NoPercentNoPlaceholder(Prefix);
    NoPercentNoPlaceholder(Suffix);
    PlaceholdersAppend(Prefix, joined);
    PlaceholdersAppend(Prefix + joined, Suffix);
    assert Suffix[|Suffix| - 1] == 'c';
  }

  /** Appending the OFFSET or the LIMIT clause, which ends in one
      placeholder, together with its parameter keeps text and parameters
      in step. */
  lemma ClauseBinds(q: Query, clause: string, v: SqlValue)
    requires clause == OffsetClause || clause == LimitClause
    requires Placeholders(q.sql) == |q.params|
    requires |q.sql| > 0 && q.sql[|q.sql| - 1] != '%'
    ensures Placeholders(q.sql + clause) == |q.params + [v]|
    ensures (q.sql + clause)[|q.sql + clause| - 1] != '%'
  {
    var keyword := if clause == OffsetClause then " offset " else " limit ";
    assert clause == keyword + "%s";
    FixedTextsPlain();
    NoPercentNoPlaceholder(keyword);
    PlaceholdersAppend(keyword, "%s");
    PlaceholdersAppend(q.sql, clause);
  }

  /** The joined source texts hold exactly the flattened parameters'
      number of placeholders. */
  lemma {:induction false} JoinBinds(parts: seq<Query>)
    requires forall i :: 0 <= i < |parts| ==> Placeholders(parts[i].sql) == |parts[i].params|
    ensures Placeholders(Join(Separator, Texts(parts))) == |Flatten(ParamLists(parts))|
  {
    if |parts| == 1 {
      assert ParamLists(parts)[1..] == [];
    } else if |parts| > 1 {
      JoinBinds(parts[1..]);
      assert Texts(parts)[1..] == Texts(parts[1..]);
      assert ParamLists(parts)[1..] == ParamLists(parts[1..]);
      var tail := Join(Separator, Texts(parts[1..]));
      NoPercentNoPlaceholder(Separator);
      PlaceholdersAppend(parts[0].sql, Separator);
      PlaceholdersAppend(parts[0].sql + Separator, tail);
    }
  }
}
