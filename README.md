# django-union, modelled in Dafny

`django_union.Union` lets several Django querysets, each over a different
model, be used as one collection ordered by `posted` descending. Slicing a
union runs one SQL query: the sources' own queries are joined with
`union all` and wrapped in an outer select with `ORDER BY posted DESC`,
`OFFSET` and `LIMIT`. That query returns a page of `(model tag, id)` rows.
Those rows are grouped by tag, each model's instances are bulk-loaded with
one `in_bulk` call, and the page is returned in row order, with `None` where
an object did not load. `count()` adds up the sources' counts, and
`filter`, `extra`, `select_related` and `order_by` return new unions.

The model has seven modules:

- `Wrappers` and `Text` (text.dfy): `Option`/`Result`; Python's `str.join` and
  `str.split`; a count of `%s` placeholders that treats `%%` as an escape.
- `Orm` (orm.dfy): the boundary with Django and the database. A queryset is
  a symbolic term, either `All(model)` or `Apply(qs, name, args)`. The
  `Backend` datatype holds, as function-valued fields, the calls the engine
  makes without seeing their code: `count`, `sql_with_params`, `fetch_all`,
  `get_model` and `in_bulk`. This module also holds the type tag and
  `_get_model`.
- `QueryAssembly` (query.dfy): the query `_union_sql` returns, as a function,
  and the lemmas about it.
- `Grouping` (grouping.dfy): `_group_rows` as a loop over the rows, proved
  against a functional description of the dict it builds.
- `Hydration` (hydration.dfy): the `obj_map` comprehension, the `in_bulk`
  calls it makes, and `map(obj_map.get, rows)`.
- `DjangoUnion` (union.dfy): the `Union` class. Its fields are `querysets`
  and `ordering`. It has the constructor, `count`, `__getitem__`,
  `_union_sql`, `_clone`, the proxy methods and `order_by`.

`GetItem` returns the page and, as well, the database round trips it made
(`Fetch` for the merged query, `BulkLoad` for each `in_bulk`). This lets its
contract say how many queries a slice costs.

The model follows the code, including these behaviours that a reader might
not expect:

- Zero sources, an index and a stepped slice are all rejected by `assert`.
  The model returns `EmptyUnion` or `UnsupportedKey` for them.
- A non-zero `stop` before `start` is not rejected. It becomes a negative `LIMIT`.
- `stop == 0` adds no `LIMIT` at all, because the code tests `if stop:`. So
  `u[0:0]` asks for the whole union rather than for no rows, and `u[5:0]`
  for every row after the fifth.
- `order_by` records its arguments, and the query never reads them.

## Model

| member | source | states |
|---|---|---|
| `DjangoUnion.Union.constructor` | django_union.py:10-14 | a union built from a non-empty list keeps the sources in argument order, and `ordering` starts as `None` |
| `DjangoUnion.Union.Create` | django_union.py:10-14 | building a union fails with `EmptyUnion` exactly when no queryset is given; otherwise it is a fresh, valid union with the sources in order and no ordering |
| `DjangoUnion.SumCounts` | django_union.py:17 | no contract of its own: `sum(q.count() for q in querysets)`; its properties are proved in `SumCountsAppend`, `CountsEverySource` and `Union.Count` |
| `DjangoUnion.SimpleSlice` | django_union.py:20 | no contract of its own: the key is a slice with a falsy step; `Union.GetItem` states what each side of it does |
| `DjangoUnion.Union.Count` | django_union.py:16-17 | `count()` is each source's full count plus the counts of all the other sources, with nothing deduplicated; an empty list counts 0 |
| `DjangoUnion.SumCountsAppend` | django_union.py:17 | summing the counts distributes over any split of the sources |
| `DjangoUnion.CountsEverySource` | django_union.py:16-17 | each source contributes its whole count; a source listed twice is counted twice |
| `DjangoUnion.Union.GetItem` | django_union.py:19-29 | an index or a stepped slice fails with `UnsupportedKey` and makes no database call; a simple slice makes one `Fetch` of the assembled query for its bounds, then exactly the bulk loads of hydrating the rows it returned, and returns that hydrated page |
| `DjangoUnion.Union.UnionSql` | django_union.py:31-47 | the text and parameters built step by step equal the specified merged query for the sources' compiled queries and the slice bounds |
| `QueryAssembly.UnionQuery` | django_union.py:31-47 | no contract of its own: the query `_union_sql` returns, the base query with the OFFSET and then the LIMIT clause applied; its properties are proved in `OffsetLimitRules`, `FalsyBoundsAlike`, `BoundsNotValidated`, `SourceTextInOrder`, `SourceParamsInOrder` and `QueryBindsEveryParam` |
| `QueryAssembly.BaseQuery` | django_union.py:32-37 | no contract of its own: the sources' texts joined by ` union all ` inside the outer select, with their parameters concatenated; its properties are proved in `SourceTextInOrder`, `SourceParamsInOrder` and `BaseBinds` |
| `QueryAssembly.WithOffset` | django_union.py:40-42 | no contract of its own: appends ` offset %s` and `start` when `start` is truthy; its properties are proved in `OffsetLimitRules` and `ClauseBinds` |
| `QueryAssembly.WithLimit` | django_union.py:43-45 | no contract of its own: appends ` limit %s` and `stop - (start or 0)` when `stop` is truthy; its properties are proved in `OffsetLimitRules`, `BoundsNotValidated` and `ClauseBinds` |
| `QueryAssembly.Flatten` | django_union.py:34 | no contract of its own: `sum(params, ())`; its properties are proved in `FlattenAt` and `SourceParamsInOrder` |
| `QueryAssembly.OffsetLimitRules` | django_union.py:39-47 | the sources' parameters come first, unchanged. ` offset %s` and the parameter `start` are appended iff `start` is truthy. ` limit %s` and `stop - (start or 0)` are appended last iff `stop` is truthy. Offset always precedes limit, and offset plus limit equals `stop` |
| `QueryAssembly.FalsyBoundsAlike` | django_union.py:40-45 | a bound of `0` gives the same query as `None`; with neither bound the query is the bare merged query |
| `QueryAssembly.BoundsNotValidated` | django_union.py:43-45 | with truthy `stop < start`, the LIMIT parameter is negative: the code does not reject such a slice |
| `QueryAssembly.OrZero` | django_union.py:45 | `start or 0` is `start` when truthy and 0 otherwise |
| `QueryAssembly.SourceTextInOrder` | django_union.py:32-37 | source `i`'s SQL text stands after `select model, id from (` and the texts of sources `0..i`, each pair of texts separated by ` union all `. The texts of the later sources and `) foo order by posted desc` follow it |
| `QueryAssembly.SourceParamsInOrder` | django_union.py:32-34 | source `i`'s parameters stand after all earlier sources' parameters and before all later ones, as `sum(params, ())` concatenates them |
| `QueryAssembly.FlattenAt` | django_union.py:34 | the concatenated parameter tuples contain tuple `i` whole, after all earlier tuples and before all later ones |
| `QueryAssembly.QueryBindsEveryParam` | django_union.py:31-47 | if each source's text has one `%s` per parameter, the merged query also has exactly one `%s` per parameter, for every `start` and `stop` |
| `QueryAssembly.BaseBinds` | django_union.py:32-37 | the joined, wrapped text binds exactly the concatenated source parameters, and the fixed text adds no placeholder |
| `QueryAssembly.ClauseBinds` | django_union.py:40-45 | appending the OFFSET or LIMIT clause together with its parameter keeps placeholders and parameters equal in number |
| `Text.JoinAt` | django_union.py:33 | `' union all '.join` of a list is the join of a prefix, the separator, and the join of the rest |
| `Text.PlaceholdersAppend` | django_union.py:37-44 | the placeholder count of a concatenation is the sum of the counts of its parts, provided no `%` escape spans the boundary |
| `Orm.Tag` | django_union.py:77 | the type tag is `app_label`, a dot, then `model_name`; it equals `'.'.join` of the two names |
| `Orm.SqlWithParams` | django_union.py:75-79 | no contract of its own: the source with the constant `model` column added by `extra`, projected by `values('id', 'model', 'posted')`, its ordering cleared by `order_by()`, then compiled; `TagRoundTrip` proves the tag it writes resolves back to the source's model |
| `Orm.GetModel` | django_union.py:89-90 | resolving a tag succeeds exactly when the tag is two dot-free names around one dot that `get_model` knows, and then returns `get_model`'s model for those two names; a tag with no such split, or whose names the registry does not know, fails with `UnknownModel(tag)` |
| `Orm.TagRoundTrip` | django_union.py:75-90 | a tag built from dot-free names splits back into exactly those two names, and resolves to the model when the registry knows it |
| `Text.Split` | django_union.py:90 | `split('.')` gives at least one piece, and no piece contains the separator |
| `Text.JoinSplit` | django_union.py:90 | joining the pieces of a split with the separator gives back the original string |
| `Text.SplitJoin` | django_union.py:77-90 | splitting a join of separator-free parts gives back the parts |
| `Grouping.GroupRows` | django_union.py:82-86 | the loop builds exactly the specified dict: its keys are the tags that occur in the rows, each key's list holds that tag's pks in row order, and the keys come in order of first appearance |
| `Grouping.Groups` | django_union.py:82-86 | no contract of its own: the dict `_group_rows` builds, one key per tag that occurs, mapped to `PksOf`; `GroupRows` is proved to build it, and `GroupsStep`, `GroupKeepsRowOrder` and `GroupSizesSumToRows` state its properties |
| `Grouping.PksOf` | django_union.py:84-85 | no contract of its own: the pks of the rows with one tag, in row order; its properties are proved in `PksOfAppend`, `PksOfFromRows` and `GroupKeepsRowOrder` |
| `Grouping.FirstSeen` | django_union.py:83-85 | the dict's keys are distinct, and they are exactly the tags that occur in the rows |
| `Grouping.GroupKeepsRowOrder` | django_union.py:82-86 | row `i`'s pk sits in its tag's list at the index given by the number of earlier rows with the same tag |
| `Grouping.GroupSizesSumToRows` | django_union.py:82-86 | the list lengths add up to `len(rows)` |
| `Grouping.GroupsStep` | django_union.py:84-85 | one more row appends its pk to its tag's list, creating the list if missing, and changes nothing else |
| `Grouping.PksOfAppend` | django_union.py:84-85 | grouping a concatenation of pages concatenates each tag's pks |
| `Grouping.PksOfFromRows` | django_union.py:84-85 | every pk grouped under a tag comes from a row with that tag |
| `Hydration.LoadGroupsEntries` | django_union.py:24-28 | when it is built, `obj_map` holds exactly, under each group's tag, what that group's `in_bulk` returned |
| `Hydration.LoadGroupsFails` | django_union.py:24-28 | building `obj_map` fails iff some tag does not name a model, and the error names the first such tag in dict order |
| `Hydration.OneLoadPerKey` | django_union.py:26-27 | on success the comprehension calls `in_bulk` once per dict key, in key order, each time with the key's whole list of pks |
| `Hydration.LoadGroups` | django_union.py:24-28 | no contract of its own: the `obj_map` comprehension over the groups in key order, failing at the first tag that does not resolve; its properties are proved in `LoadGroupsEntries` and `LoadGroupsFails` |
| `Hydration.LoadCalls` | django_union.py:26-27 | no contract of its own: the `in_bulk` calls the comprehension makes, up to the first tag that does not resolve; its properties are proved in `OneLoadPerKey` |
| `Hydration.Hydrate` | django_union.py:23-29 | no contract of its own: the page `__getitem__` returns for the fetched rows, one `obj_map.get` per row; its properties are proved in `HydratePositions`, `HydrateFails` and `EmptyPage` |
| `Hydration.HydrateCalls` | django_union.py:23-28 | no contract of its own: the bulk loads hydrating the fetched rows makes; its properties are proved in `OneLoadPerModel` and `EmptyPage` |
| `Hydration.HydratePositions` | django_union.py:22-29 | the page has one entry per fetched row. Entry `i` is what the loader for row `i`'s model returned for row `i`'s pk, when asked for all that model's pks in the page. It is `None` if the loader left that pk out |
| `Hydration.HydrateFails` | django_union.py:22-29 | hydration fails exactly when some row's tag does not resolve to a model |
| `Hydration.OneLoadPerModel` | django_union.py:22-28 | a successful page makes one bulk load per distinct tag in the page, and no other loads. The loads come in first-appearance order, each with all that tag's pks |
| `Hydration.EmptyPage` | django_union.py:22-29 | an empty page hydrates to an empty list and makes no bulk load |
| `Hydration.ObjMapWithinPage` | django_union.py:24-28 | if `in_bulk` answers only for the pks it was asked about, every `obj_map` key is a `(tag, pk)` row of the page |
| `DjangoUnion.Union.Clone` | django_union.py:51-54 | a fresh, valid union with the same sources and the same ordering |
| `DjangoUnion.Union.ProxyMethod` | django_union.py:56-62 | a fresh union with the same number of sources. Each source is the matching source with the named method applied to the same arguments. `ordering` is copied |
| `DjangoUnion.Union.Filter` | django_union.py:64 | a fresh union whose every source is the matching source with `filter(args)` applied; ordering copied |
| `DjangoUnion.Union.Extra` | django_union.py:65 | a fresh union whose every source is the matching source with `extra(args)` applied; ordering copied |
| `DjangoUnion.Union.SelectRelated` | django_union.py:66 | a fresh union whose every source is the matching source with `select_related(args)` applied; ordering copied |
| `DjangoUnion.Union.OrderBy` | django_union.py:68-72 | a fresh union with the same sources that records the fields as its ordering |
| `DjangoUnion.TransformsKeepReceiver` | django_union.py:51-72 | after `filter`, `extra`, `select_related` and `order_by`, the receiver's count and merged query are what they were before |
| `DjangoUnion.OrderByIgnored` | django_union.py:68-72 | the clone returned by `order_by` compiles to the same query as the receiver: the recorded ordering is never used |

## Left out

- The `isinstance(qs, (QuerySet, Manager))` normalisation at django_union.py:12 is left out. It is dynamic type dispatch on Django classes, so every source is taken to be a queryset already.
- `_method.__name__` (django_union.py:61) is not modelled. It is metadata only.
- Whether Python 3's `map` is lazy is not modelled either; the page is produced as a whole list.
- Django's query building and compilation are fields of `Backend`, as are `QuerySet.count`, `get_model` and `Manager.in_bulk`; the model only calls them. The one thing assumed of `in_bulk` is that it answers only for the pks it was asked about, and only `ObjMapWithinPage` assumes it.
- `handy.db.fetch_all` and the database's evaluation of `union all`, `ORDER BY posted DESC`, `OFFSET` and `LIMIT` are an oracle, the `fetchAll` field. So the model does not state that a page comes out in descending `posted` order, or that it holds at most `stop - start` rows. Both properties belong to the database.
- Dict iteration order: the code imports `django.db.models.loading`, which exists only in Django versions that run on Pythons where a dict's iteration order is arbitrary. The model picks one order, the order in which each tag first appears in the page. `Hydration.OneLoadPerKey`, `Hydration.OneLoadPerModel`, `Hydration.LoadGroupsFails` and `DjangoUnion.Union.GetItem` state orders that rest on that choice: the order of the bulk loads, which unresolvable tag the error names when a page holds several, and which bulk loads happen before that failure. On a slice that succeeds, neither the set of loads nor the page depends on it.
- `UnknownModel(tag)` stands for whatever exception the source raises on a tag it cannot resolve: a `TypeError` when a tag without a dot gives `get_model` one argument, a `LookupError` from registries that raise one, or, on Djangos whose `get_model` returns `None`, an `AttributeError` on `.objects` that names no tag.
- `Orm.GetModel`: a tag with more than one dot gives `get_model` a third argument (its `seed_cache` flag) in old Django. The model treats any tag that does not split into exactly two pieces as `UnknownModel`.
- `DjangoUnion.Union.UnionSql` requires a valid, non-empty union. A union with no sources cannot be built, so the `zip` failure that zero sources would cause in Python is not modelled.
- Negative slice bounds are passed into OFFSET/LIMIT unchanged, as the code does. No Python-style counting from the end is modelled.
- setup.py is packaging metadata and is not modelled.
