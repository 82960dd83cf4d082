/** The `Union` class: several querysets seen as one collection ordered by
    `posted` descending, which can be counted, sliced into hydrated pages,
    and narrowed by queryset methods that return new unions. */
module DjangoUnion {
  import opened Wrappers
  import opened Text
  import opened Orm
  import opened QueryAssembly
  import opened Grouping
  import opened Hydration

  /** What `__getitem__` receives: an index, or a slice `start:stop:step`. */
  datatype Key = Index(i: int) | Slice(start: Option<int>, stop: Option<int>, step: Option<int>)

  /** The only key slicing accepts: a slice whose step is absent or zero. */
  predicate SimpleSlice(k: Key)
  {
    k.Slice? && !Truthy(k.step)
  }

  /** The sources' counts added up, one term per source. */
  function SumCounts(b: Backend, querysets: seq<QuerySet>): nat
  {
    if |querysets| == 0 then 0 else b.count(querysets[0]) + SumCounts(b, querysets[1..])
  }

  /** Counting distributes over a split of the sources. */
  lemma {:induction false} SumCountsAppend(b: Backend, xs: seq<QuerySet>, ys: seq<QuerySet>)
    ensures SumCounts(b, xs + ys) == SumCounts(b, xs) + SumCounts(b, ys)
  {
    if |xs| > 0 {
      SumCountsAppend(b, xs[1..], ys);
      assert (xs + ys)[1..] == xs[1..] + ys;
    } else {
      assert xs + ys == ys;
    }
  }

  /** No deduplication: every source's rows count in full, so a source
      listed twice counts twice. */
  lemma {:induction false} CountsEverySource(b: Backend, querysets: seq<QuerySet>, i: nat)
    requires i < |querysets|
    ensures SumCounts(b, querysets) == SumCounts(b, querysets[..i]) + b.count(querysets[i]) + SumCounts(b, querysets[i + 1..])
    ensures SumCounts(b, querysets + querysets) == 2 * SumCounts(b, querysets)
  {
    assert querysets == querysets[..i] + ([querysets[i]] + querysets[i + 1..]);
    SumCountsAppend(b, querysets[..i], [querysets[i]] + querysets[i + 1..]);
    SumCountsAppend(b, querysets, querysets);
    assert ([querysets[i]] + querysets[i + 1..])[1..] == querysets[i + 1..];
  }

  class Union {
    var querysets: seq<QuerySet>
    /** The arguments of the last `order_by`; recorded, never used. */
    var ordering: Option<seq<string>>

    /** A union always has at least one source. */
    ghost predicate Valid()
      reads this
    {
      |querysets| > 0
    }

    /** `Union(*querysets)` when the assertion holds. */
    constructor (querysets: seq<QuerySet>)
      requires |querysets| > 0
      ensures Valid()
      ensures this.querysets == querysets && ordering == None
    {
      this.querysets := querysets;
      ordering := None;
    }

    /** `Union(*querysets)`, including its assertion: no sources is an error. */
    static method Create(querysets: seq<QuerySet>) returns (r: Result<Union, UnionError>)
      ensures |querysets| == 0 <==> r.Err?
      ensures r.Err? ==> r.error == EmptyUnion
      ensures r.Ok? ==> fresh(r.value) && r.value.Valid()
      ensures r.Ok? ==> r.value.querysets == querysets && r.value.ordering == None
    {
      if |querysets| == 0 {
        return Err(EmptyUnion);
      }
      var u := new Union(querysets);
      r := Ok(u);
    }

    /** `count()`: the sum of the sources' own counts. No row is
        deduplicated: each source adds its whole count to those of the
        others. */
    function Count(b: Backend): (n: nat)
      reads this
      ensures forall i :: 0 <= i < |querysets| ==>
        n == SumCounts(b, querysets[..i]) + b.count(querysets[i]) + SumCounts(b, querysets[i + 1..])
      ensures |querysets| == 0 ==> n == 0
    {
      forall i | 0 <= i < |querysets|
        ensures SumCounts(b, querysets) == SumCounts(b, querysets[..i]) + b.count(querysets[i]) + SumCounts(b, querysets[i + 1..])
      {
        CountsEverySource(b, querysets, i);
      }
      SumCounts(b, querysets)
    }

    /** `_union_sql(start, stop)`. */
    method UnionSql(b: Backend, start: Option<int>, stop: Option<int>) returns (sql: string, params: seq<SqlValue>)
      requires Valid()
      ensures Query(sql, params) == UnionQuery(SourceQueries(b, querysets), start, stop)
    {
      var compiled := SourceQueries(b, querysets);
      sql := Join(Separator, Texts(compiled));
      params := Flatten(ParamLists(compiled));

      sql := Prefix + sql + Suffix;

      if Truthy(start) {
        sql := sql + OffsetClause;
        params := params + [Number(start.value)];
      }
      if Truthy(stop) {
        sql := sql + LimitClause;
        params := params + [Number(stop.value - OrZero(start))];
      }
    }

    /** `__getitem__(k)`: a simple slice runs the merged query once, then
        hydrates the page; anything else fails before any query. Returns the
        page and the database round trips made, in order. */
    method GetItem(b: Backend, k: Key) returns (r: Result<seq<Option<Instance>>, UnionError>, calls: seq<Call>)
      requires Valid()
      ensures !SimpleSlice(k) ==> r == Err(UnsupportedKey) && calls == []
      ensures SimpleSlice(k) ==>
        var q := UnionQuery(SourceQueries(b, querysets), k.start, k.stop);
        var rows := b.fetchAll(q.sql, q.params);
        && calls == [Fetch(q.sql, q.params)] + HydrateCalls(b, rows)
        && r == Hydrate(b, rows)
    {
      if !SimpleSlice(k) {
        return Err(UnsupportedKey), [];
      }
      var sql, params := UnionSql(b, k.start, k.stop);
      var rows := b.fetchAll(sql, params);
      var groups, keys := GroupRows(rows);
      calls := [Fetch(sql, params)] + LoadCalls(b, groups, keys);
      match LoadGroups(b, groups, keys)
      case Err(e) => r := Err(e);
      case Ok(objMap) => r := Ok(Emit(objMap, rows));
    }

    /** `_clone()`: a new union over the same sources, with the same ordering. */
    method Clone() returns (clone: Union)
      requires Valid()
      ensures fresh(clone) && clone.Valid()
      ensures clone.querysets == querysets && clone.ordering == ordering
    {
      clone := new Union(querysets);
      clone.ordering := ordering;
    }

    /** The methods `_proxy_method(name)` makes: a clone whose every source
        has the queryset method `name` applied with the same arguments. */
    method ProxyMethod(name: string, args: seq<Arg>) returns (clone: Union)
      requires Valid()
      ensures fresh(clone) && clone.Valid()
      ensures |clone.querysets| == |querysets|
      ensures forall i :: 0 <= i < |querysets| ==> clone.querysets[i] == Apply(querysets[i], name, args)
      ensures clone.ordering == ordering
    {
      clone := Clone();
      var sources := clone.querysets;
      clone.querysets := seq(|sources|, i requires 0 <= i < |sources| => Apply(sources[i], name, args));
    }

    /** `filter`: the proxy method that narrows every source. */
    method Filter(args: seq<Arg>) returns (clone: Union)
      requires Valid()
      ensures fresh(clone) && clone.Valid()
      ensures |clone.querysets| == |querysets|
      ensures forall i :: 0 <= i < |querysets| ==> clone.querysets[i] == Apply(querysets[i], "filter", args)
      ensures clone.ordering == ordering
    {
      clone := ProxyMethod("filter", args);
    }

    /** `extra`: the proxy method that adds raw SQL fragments to every source. */
    method Extra(args: seq<Arg>) returns (clone: Union)
      requires Valid()
      ensures fresh(clone) && clone.Valid()
      ensures |clone.querysets| == |querysets|
      ensures forall i :: 0 <= i < |querysets| ==> clone.querysets[i] == Apply(querysets[i], "extra", args)
      ensures clone.ordering == ordering
    {
      clone := ProxyMethod("extra", args);
    }

    /** `select_related`: the proxy method that joins related rows into every source. */
    method SelectRelated(args: seq<Arg>) returns (clone: Union)
      requires Valid()
      ensures fresh(clone) && clone.Valid()
      ensures |clone.querysets| == |querysets|
      ensures forall i :: 0 <= i < |querysets| ==> clone.querysets[i] == Apply(querysets[i], "select_related", args)
      ensures clone.ordering == ordering
    {
      clone := ProxyMethod("select_related", args);
    }

    /** `order_by(*fields)`: a clone that records the fields and nothing more. */
    method OrderBy(fields: seq<string>) returns (clone: Union)
      requires Valid()
      ensures fresh(clone) && clone.Valid()
      ensures clone.querysets == querysets && clone.ordering == Some(fields)
    {
      clone := Clone();
      clone.ordering := Some(fields);
    }
  }

  /** The transforms leave the receiver as it was: its sources, its
      ordering, its count and its merged query are the same afterwards. */
  method TransformsKeepReceiver(u: Union, b: Backend, args: seq<Arg>, fields: seq<string>, start: Option<int>, stop: Option<int>)
    returns (before: Query, after: Query, countBefore: nat, countAfter: nat)
    requires u.Valid()
    ensures before == after && countBefore == countAfter
  {
    var sources, ordering := u.querysets, u.ordering;
    countBefore := u.Count(b);
    var sql, params := u.UnionSql(b, start, stop);
    before := Query(sql, params);
    var filtered := u.Filter(args);
    var extended := u.Extra(args);
    var related := u.SelectRelated(args);
    var ordered := u.OrderBy(fields);
    assert u.querysets == sources && u.ordering == ordering;
    countAfter := u.Count(b);
    sql, params := u.UnionSql(b, start, stop);
    after := Query(sql, params);
  }

  /** `order_by` does not reach the merged query: the ordered clone compiles
      to the very query of the receiver, still ordered by `posted desc`. */
  method OrderByIgnored(u: Union, b: Backend, fields: seq<string>, start: Option<int>, stop: Option<int>)
    returns (plain: Query, ordered: Query)
    requires u.Valid()
    ensures plain == ordered
  {
    var sql, params := u.UnionSql(b, start, stop);
    plain := Query(sql, params);
    var clone := u.OrderBy(fields);
    sql, params := clone.UnionSql(b, start, stop);
    ordered := Query(sql, params);
  }
}
