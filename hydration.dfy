/** Hydration of one page in `Union.__getitem__`: one `in_bulk` call per
    distinct tag of the page builds `obj_map` from `(tag, pk)` to instance,
    then every row of the page, in order, is looked up in it. */
module Hydration {
  import opened Wrappers
  import opened Orm
  import opened Grouping

  /** One round trip to the database: the merged query, or one bulk load. */
  datatype Call = Fetch(sql: string, params: seq<SqlValue>) | BulkLoad(model: ModelRef, pks: seq<int>)

  type ObjMap = map<(string, int), Instance>

  /** The objects `in_bulk` returns for one group, keyed by `(tag, pk)`. */
  function Entries(tag: string, loaded: map<int, Instance>): (m: ObjMap)
    ensures forall k :: k in m <==> k.0 == tag && k.1 in loaded
    ensures forall k :: k in m ==> m[k] == loaded[k.1]
  {
    map pk | pk in loaded :: (tag, pk) := loaded[pk]
  }

  /** The `obj_map` comprehension over the groups under `keys`, in key order;
      it fails at the first tag that does not name a model. */
  function LoadGroups(b: Backend, groups: map<string, seq<int>>, keys: seq<string>): Result<ObjMap, UnionError>
    requires forall k :: k in keys ==> k in groups
  {
    if |keys| == 0 then Ok(map[])
    else match GetModel(b, keys[0])
      case Err(e) => Err(e)
      case Ok(m) =>
        var here := Entries(keys[0], b.inBulk(m, groups[keys[0]]));
        match LoadGroups(b, groups, keys[1..])
        case Err(e) => Err(e)
        case Ok(rest) => Ok(here + rest)
  }

  /** The `in_bulk` calls the comprehension makes: one per key, in key
      order, up to the first tag that does not name a model. */
  function LoadCalls(b: Backend, groups: map<string, seq<int>>, keys: seq<string>): seq<Call>
    requires forall k :: k in keys ==> k in groups
  {
    if |keys| == 0 then []
    else match GetModel(b, keys[0])
      case Err(_) => []
      case Ok(m) => [BulkLoad(m, groups[keys[0]])] + LoadCalls(b, groups, keys[1..])
  }

  /** The object loaded for a row, or nothing when its loader left it out. */
  function Lookup(objMap: ObjMap, row: Row): Option<Instance>
  {
    if (row.tag, row.pk) in objMap then Some(objMap[(row.tag, row.pk)]) else None
  }

  /** The page: every row, in order, looked up in the loaded objects. */
  function Emit(objMap: ObjMap, rows: seq<Row>): (objs: seq<Option<Instance>>)
    ensures |objs| == |rows| && forall i :: 0 <= i < |rows| ==> objs[i] == Lookup(objMap, rows[i])
  {
    seq(|rows|, i requires 0 <= i < |rows| => Lookup(objMap, rows[i]))
  }

  /** The hydrated page for the rows the merged query returned. */
  function Hydrate(b: Backend, rows: seq<Row>): Result<seq<Option<Instance>>, UnionError>
  {
    match LoadGroups(b, Groups(rows), FirstSeen(rows))
    case Err(e) => Err(e)
    case Ok(objMap) => Ok(Emit(objMap, rows))
  }

  /** The bulk loads hydrating the rows makes. */
  function HydrateCalls(b: Backend, rows: seq<Row>): seq<Call>
  {
    LoadCalls(b, Groups(rows), FirstSeen(rows))
  }

  /** Building `obj_map` fails exactly when some tag does not name a model,
      and then with the first such tag in key order. */
  lemma {:induction false} LoadGroupsFails(b: Backend, groups: map<string, seq<int>>, keys: seq<string>)
    requires forall k :: k in keys ==> k in groups
    ensures var r := LoadGroups(b, groups, keys);
      && (r.Err? <==> exists k :: k in keys && GetModel(b, k).Err?)
      && (r.Err? ==> (exists i :: 0 <= i < |keys| && r == Err(UnknownModel(keys[i]))
                                && GetModel(b, keys[i]).Err? && forall j :: 0 <= j < i ==> GetModel(b, keys[j]).Ok?))
  {
    if |keys| > 0 {
      LoadGroupsFails(b, groups, keys[1..]);
      var rest := LoadGroups(b, groups, keys[1..]);
      if rest.Err? && GetModel(b, keys[0]).Ok? {
        var i :| 0 <= i < |keys[1..]| && rest == Err(UnknownModel(keys[1..][i]))
          && GetModel(b, keys[1..][i]).Err? && forall j :: 0 <= j < i ==> GetModel(b, keys[1..][j]).Ok?;
        assert GetModel(b, keys[i + 1]).Err?;
      }
      if GetModel(b, keys[0]).Err? {
        assert keys[0] in keys;
      }
      assert forall k :: k in keys <==> k == keys[0] || k in keys[1..];
    }
  }

  /** `obj_map` holds exactly what each group's loader returned, under that
      group's tag. */
  lemma {:induction false} LoadGroupsEntries(b: Backend, groups: map<string, seq<int>>, keys: seq<string>)
    requires forall k :: k in keys ==> k in groups
    requires Distinct(keys)
    requires LoadGroups(b, groups, keys).Ok?
    ensures forall k :: k in keys ==> GetModel(b, k).Ok?
    ensures forall k :: k in LoadGroups(b, groups, keys).value <==>
      k.0 in keys && k.1 in b.inBulk(GetModel(b, k.0).value, groups[k.0])
    ensures forall k :: k in LoadGroups(b, groups, keys).value ==>
      LoadGroups(b, groups, keys).value[k] == b.inBulk(GetModel(b, k.0).value, groups[k.0])[k.1]
  {
    if |keys| > 0 {
      LoadGroupsEntries(b, groups, keys[1..]);
      assert forall k :: k in keys <==> k == keys[0] || k in keys[1..];
    }
  }

  /** On success the comprehension calls the loader once per key, in key
      order, each time with that key's whole group. */
  lemma {:induction false} OneLoadPerKey(b: Backend, groups: map<string, seq<int>>, keys: seq<string>)
    requires forall k :: k in keys ==> k in groups
    requires LoadGroups(b, groups, keys).Ok?
    ensures var calls := LoadCalls(b, groups, keys);
      && |calls| == |keys|
      && forall j :: 0 <= j < |keys| ==> GetModel(b, keys[j]).Ok? && calls[j] == BulkLoad(GetModel(b, keys[j]).value, groups[keys[j]])
  {
    if |keys| > 0 {
      OneLoadPerKey(b, groups, keys[1..]);
    }
  }

  /** The hydrated page has one entry per row; entry `i` is what the loader
      for row `i`'s model returned for row `i`'s pk when asked for all the
      pks of that model in the page, and `None` when it left that pk out. */
  lemma HydratePositions(b: Backend, rows: seq<Row>)
    requires Hydrate(b, rows).Ok?
    ensures var objs := Hydrate(b, rows).value;
      && |objs| == |rows|
      && forall i :: 0 <= i < |rows| ==>
           && GetModel(b, rows[i].tag).Ok?
           && var loaded := b.inBulk(GetModel(b, rows[i].tag).value, PksOf(rows, rows[i].tag));
              objs[i] == (if rows[i].pk in loaded then Some(loaded[rows[i].pk]) else None)
  {
    var groups, keys := Groups(rows), FirstSeen(rows);
    LoadGroupsEntries(b, groups, keys);
    var objMap := LoadGroups(b, groups, keys).value;
    var objs := Emit(objMap, rows);
    forall i | 0 <= i < |rows|
      ensures GetModel(b, rows[i].tag).Ok?
      ensures var loaded := b.inBulk(GetModel(b, rows[i].tag).value, PksOf(rows, rows[i].tag));
        objs[i] == (if rows[i].pk in loaded then Some(loaded[rows[i].pk]) else None)
    {
      var t := rows[i].tag;
      assert rows[i] in rows;
      assert t in keys;
      assert groups[t] == PksOf(rows, t);
    }
    assert Hydrate(b, rows).value == objs;
  }

  /** Hydration fails exactly when a row's tag does not name a model. */
  lemma HydrateFails(b: Backend, rows: seq<Row>)
    ensures Hydrate(b, rows).Err? <==> exists i :: 0 <= i < |rows| && GetModel(b, rows[i].tag).Err?
  {
    var keys := FirstSeen(rows);
    LoadGroupsFails(b, Groups(rows), keys);
    if exists i :: 0 <= i < |rows| && GetModel(b, rows[i].tag).Err? {
      var i :| 0 <= i < |rows| && GetModel(b, rows[i].tag).Err?;
      assert rows[i] in rows;
      assert rows[i].tag in keys;
    }
    if Hydrate(b, rows).Err? {
      var k :| k in keys && GetModel(b, k).Err?;
      var r :| r in rows && r.tag == k;
      var i :| 0 <= i < |rows| && rows[i] == r;
    }
  }

  /** A successful page makes exactly one bulk load per distinct tag in the
      page, in order of first appearance, each with all that tag's pks. */
  lemma OneLoadPerModel(b: Backend, rows: seq<Row>)
    requires Hydrate(b, rows).Ok?
    ensures var calls, keys := HydrateCalls(b, rows), FirstSeen(rows);
      && |calls| == |keys|
      && (forall t :: t in keys <==> t in Tags(rows))
      && Distinct(keys)
      && forall j :: 0 <= j < |keys| ==>
           GetModel(b, keys[j]).Ok? && calls[j] == BulkLoad(GetModel(b, keys[j]).value, PksOf(rows, keys[j]))
  {
    OneLoadPerKey(b, Groups(rows), FirstSeen(rows));
  }

  /** An empty page hydrates to nothing and loads nothing. */
  lemma EmptyPage(b: Backend)
    ensures Hydrate(b, []) == Ok([]) && HydrateCalls(b, []) == []
  {
    assert FirstSeen([]) == [];
  }

  /** With a loader that answers only for the pks it is asked about,
      `obj_map` holds only references that occur in the page. */
  lemma ObjMapWithinPage(b: Backend, rows: seq<Row>)
    requires LoaderSound(b)
    requires LoadGroups(b, Groups(rows), FirstSeen(rows)).Ok?
    ensures forall k :: k in LoadGroups(b, Groups(rows), FirstSeen(rows)).value ==> Row(k.0, k.1) in rows
  {
    var groups, keys := Groups(rows), FirstSeen(rows);
    LoadGroupsEntries(b, groups, keys);
    var objMap := LoadGroups(b, groups, keys).value;
    forall k | k in objMap
      ensures Row(k.0, k.1) in rows
    {
      var loaded := b.inBulk(GetModel(b, k.0).value, groups[k.0]);
      assert k.1 in loaded.Keys;
      assert k.1 in PksOf(rows, k.0);
      PksOfFromRows(rows, k.0, k.1);
    }
  }
}
