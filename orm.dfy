/** The boundary with Django and the database, as the union engine sees it.
    A queryset is a symbolic term (a model's default manager with queryset
    methods applied to it); everything Django or the database computes from
    a queryset is a field of `Backend` that the engine only calls. */
module Orm {
  import opened Wrappers
  import opened Text

  /** A Django model, identified by `_meta.app_label` and `_meta.model_name`. */
  datatype ModelRef = ModelRef(appLabel: string, modelName: string)

  /** An argument passed through to a queryset method: a plain value, a
      keyword argument, or a dict literal such as `extra`'s `select=`. */
  datatype Arg =
    | Value(text: string)
    | Keyword(name: string, arg: Arg)
    | Dict(entries: seq<(string, string)>)

  /** `Model.objects`, or a queryset method applied to a queryset. */
  datatype QuerySet =
    | All(model: ModelRef)
    | Apply(source: QuerySet, name: string, args: seq<Arg>)

  /** A value bound to a `%s` placeholder. */
  datatype SqlValue = Str(text: string) | Number(number: int)

  /** Parameterised query text with its positional parameters. */
  datatype Query = Query(sql: string, params: seq<SqlValue>)

  /** One row of the merged query: the `model` tag and the `id`. */
  datatype Row = Row(tag: string, pk: int)

  /** A model instance as the bulk loader returns it. */
  datatype Instance = Instance(model: ModelRef, pk: int, fields: seq<SqlValue>)

  /** The collaborators: `QuerySet.count`, `query.sql_with_params`,
      `handy.db.fetch_all`, `get_model` and `Manager.in_bulk`. */
  datatype Backend = Backend(
    count: QuerySet -> nat,
    compile: QuerySet -> Query,
    fetchAll: (string, seq<SqlValue>) -> seq<Row>,
    getModel: (string, string) -> Option<ModelRef>,
    inBulk: (ModelRef, seq<int>) -> map<int, Instance>)

  /** The one thing the engine expects of `in_bulk`: it answers only for
      primary keys it was asked about (it may omit some). */
  ghost predicate LoaderSound(b: Backend)
  {
    forall m, pks :: b.inBulk(m, pks).Keys <= set pk | pk in pks
  }

  /** The model a queryset ranges over (`qs.model`): queryset methods keep it. */
  function ModelOf(qs: QuerySet): ModelRef
  {
    match qs
    case All(m) => m
    case Apply(source, _, _) => ModelOf(source)
  }

  /** The type tag each source writes into its rows: the app label, a dot,
      and the model name. */
  function Tag(m: ModelRef): (tag: string)
    ensures tag == Join(".", [m.appLabel, m.modelName])
  {
    m.appLabel + "." + m.modelName
  }

  /** One source's part of the union: the queryset restricted to the columns
      `id`, `model` (its constant type tag) and `posted`, with its default
      ordering cleared, compiled by Django. */
  function SqlWithParams(b: Backend, qs: QuerySet): Query
  {
    var tagged := Apply(qs, "extra", [Keyword("select", Dict([("model", "'" + Tag(ModelOf(qs)) + "'")]))]);
    var projected := Apply(tagged, "values", [Value("id"), Value("model"), Value("posted")]);
    b.compile(Apply(projected, "order_by", []))
  }

  datatype UnionError =
    | EmptyUnion        // Union() with no querysets
    | UnsupportedKey    // an index or a stepped slice
    | UnknownModel(tag: string)  // a tag that does not name a registered model

  /** `_get_model`: split the tag on '.' and look the two parts up. It
      succeeds exactly when the tag is two dot-free names joined by a dot
      that the registry knows, and then returns the registry's model. */
  function GetModel(b: Backend, tag: string): (r: Result<ModelRef, UnionError>)
    ensures r.Err? ==> r == Err(UnknownModel(tag))
    ensures r.Ok? ==> exists app, name :: '.' !in app && '.' !in name && tag == app + "." + name
                                         && b.getModel(app, name) == Some(r.value)
    ensures (forall app, name :: '.' !in app && '.' !in name && tag == app + "." + name
               ==> (r.Ok? <==> b.getModel(app, name).Some?))
    ensures (forall app, name :: '.' !in app && '.' !in name ==> tag != app + "." + name) ==> r.Err?
  {
    var parts := Split(tag, '.');
    JoinSplit(tag, '.');
    SplitTwoUnique(tag);
    if |parts| != 2 then Err(UnknownModel(tag))
    else
      match b.getModel(parts[0], parts[1])
      case None => Err(UnknownModel(tag))
      case Some(m) => Ok(m)
  }

  /** Every way of writing a tag as two dot-free names around a dot is the
      split of that tag. */
  lemma SplitTwoUnique(tag: string)
    ensures forall app, name ::
      ('.' !in app && '.' !in name && tag == app + "." + name) ==> Split(tag, '.') == [app, name]
  {
    forall app, name | '.' !in app && '.' !in name && tag == app + "." + name
      ensures Split(tag, '.') == [app, name]
    {
      SplitTwo(tag, '.', app, name);
    }
  }

  /** The tag a source writes into its rows resolves back to that source's
      model, provided neither name holds a dot and the registry knows the model. */
  lemma TagRoundTrip(b: Backend, m: ModelRef)
    requires '.' !in m.appLabel && '.' !in m.modelName
    requires b.getModel(m.appLabel, m.modelName) == Some(m)
    ensures Split(Tag(m), '.') == [m.appLabel, m.modelName]
    ensures GetModel(b, Tag(m)) == Ok(m)
  {
    SplitJoin([m.appLabel, m.modelName], '.');
  }
}
