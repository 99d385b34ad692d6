/** Product assembly: validating a request body against the registry, renaming its
    fields, creating or reusing the related records phase by phase, building the product
    and attaching its collections, all committed as one unit; and the order in which the
    products route checks a POST request. */
module App {
  import opened Wrappers
  import opened Json
  import opened SystemConfig
  import opened Utils
  import opened UtilsProperties

  /** What the product-creation path raises. */
  datatype Error =
    | MissingKey(key: string)  // KeyError
    | NotAMapping              // `.items()` on a list, or `value['product_id'] = ...` on a non-object
    | NotAnEntity              // a collection where one record is expected, or the reverse
    | UnknownProductClass      // ValueError('Unknown product class')
    | Store(dbError: DbError)  // raised by get_or_create

  datatype Outcome = Pass | Fail(error: Error)

  /** What the orchestrator has resolved for a field: one record, a list of records (or
      `None` for an item that is neither a name nor a mapping), or the product's id. */
  datatype Resolved = One(row: Row) | Many(objs: seq<Option<Row>>) | ProductId(id: nat)

  predicate SameAt<V(==)>(k: string, m: map<string, V>, m0: map<string, V>) {
    (k in m <==> k in m0) && (k in m ==> m[k] == m0[k])
  }

  /** Every record the resolved objects refer to is in `rows`. */
  predicate Stored(objects: map<string, Resolved>, rows: seq<Row>) {
    forall f :: f in objects ==> StoredOne(objects[f], rows)
  }

  predicate StoredOne(v: Resolved, rows: seq<Row>) {
    match v
    case One(r) => r in rows
    case Many(objs) => forall i :: 0 <= i < |objs| && objs[i].Some? ==> objs[i].value in rows
    case ProductId(_) => true
  }

  // Renaming (_cleanse_data).

  /** The body with the industry's group field moved to `group` and the bill of
      materials moved to `materials`. */
  function Renamed(data: map<string, Json>, productGroup: string): map<string, Json>
    requires productGroup in data && BILL_OF_MATERIALS in data && productGroup != BILL_OF_MATERIALS
  {
    (data[GROUP := data[productGroup]] - {productGroup})[MATERIALS := data[BILL_OF_MATERIALS]] - {BILL_OF_MATERIALS}
  }

  /** The request body's key set is exactly the industry's field list: nothing missing,
      nothing extra. */
  predicate KeySetMatches(keys: set<string>, cfg: IndustryConfig) {
    keys == set f | f in cfg.allFields
  }

  // Creating the related records (_create_objects).

  /** What `_create_objects` does for one field. */
  datatype Action =
    | Skip                                                 // absent, falsy, or no record class
    | ResolveOne(kind: Kind, filter: Fields)               // a scalar: one record by name
    | ResolveMany(kind: Kind, value: Json, injectId: Option<nat>)
                                                           // a list or mapping: one record per item,
                                                           // after writing the product id into each item

  /** The decision `_create_objects` takes for field `f` from the body and the resolved
      objects, including the exceptions it raises before touching the store. */
  function Plan(f: string, data: map<string, Json>, cfg: IndustryConfig, objects: map<string, Resolved>): Result<Action, Error> {
    if f !in data || !Truthy(data[f]) then Success(Skip)
    else if f !in TABLE_NAMES then Failure(MissingKey(f))
    else
      match ClassByTableName(TABLE_NAMES[f])
      case None => Success(Skip)
      case Some(kind) =>
        var v := data[f];
        if !IsCollection(v) then Success(ResolveOne(kind, map[NAME := Raw(v)]))
        else if f !in cfg.productDependent then Success(ResolveMany(kind, v, None))
        else if v.JList? then Failure(NotAMapping)
        else if PRODUCT_ID !in objects then Failure(MissingKey(PRODUCT_ID))
        else
          match objects[PRODUCT_ID]
          case ProductId(id) => Success(ResolveMany(kind, v, Some(id)))
          case _ => Failure(NotAnEntity)
  }

  /** A mapping whose every value is itself a mapping, like the bill of materials. */
  predicate AllObjectValues(v: Json) {
    v.JObject? && forall i :: 0 <= i < |v.entries| ==> v.entries[i].value.JObject?
  }

  function InjectEntry(e: Entry, id: nat): Entry
    requires e.value.JObject?
  {
    Entry(e.key, JObject(SetKey(e.value.entries, PRODUCT_ID, JNum(id))))
  }

  /** The mapping after `value['product_id'] = id` for each of its values: the same keys in
      the same order, each value gaining the `product_id` column and keeping the others. */
  function WithProductId(v: Json, id: nat): (r: Json)
    requires AllObjectValues(v)
    ensures AllObjectValues(r) && |r.entries| == |v.entries|
    ensures forall i :: 0 <= i < |r.entries| ==>
              r.entries[i].key == v.entries[i].key &&
              FieldsOf(r.entries[i].value.entries) == FieldsOf(v.entries[i].value.entries)[PRODUCT_ID := Raw(JNum(id))]
  {
    var r := JObject(seq(|v.entries|, i requires 0 <= i < |v.entries| => InjectEntry(v.entries[i], id)));
    forall i | 0 <= i < |r.entries|
      ensures FieldsOf(r.entries[i].value.entries) == FieldsOf(v.entries[i].value.entries)[PRODUCT_ID := Raw(JNum(id))]
    {
      FieldsOfSetKey(v.entries[i].value.entries, PRODUCT_ID, JNum(id));
    }
    r
  }

  /** The value a ResolveMany action stores back into the body. */
  function StoredValue(value: Json, injectId: Option<nat>): Json
    requires injectId.Some? ==> AllObjectValues(value)
  {
    if injectId.Some? then WithProductId(value, injectId.value) else value
  }

  /** Field `f` was processed as `action` decides: `data`/`objects` are the state after,
      `d0`/`o0` the state before. */
  predicate Done(f: string, action: Action, data: map<string, Json>, objects: map<string, Resolved>,
                 d0: map<string, Json>, o0: map<string, Resolved>, rows: seq<Row>) {
    match action
    case Skip => SameAt(f, data, d0) && SameAt(f, objects, o0)
    case ResolveOne(kind, filter) =>
      SameAt(f, data, d0) && f in objects && objects[f].One?
      && objects[f].row in rows && Matches(objects[f].row, kind, filter)
    case ResolveMany(kind, value, injectId) =>
      && IsCollection(value)
      && (injectId.Some? ==> AllObjectValues(value))
      && (injectId.None? ==> SameAt(f, data, d0))
      && f in data && data[f] == StoredValue(value, injectId)
      && f in objects && objects[f].Many?
      && AllResolve(objects[f].objs, ItemsOf(StoredValue(value, injectId)), kind, rows)
  }

  /** Field `f` was processed as _create_objects decides from the state before it
      (`d0`, `o0`), leaving `data`, `objects` and the stored `rows`. */
  predicate Processed(f: string, cfg: IndustryConfig, d0: map<string, Json>, o0: map<string, Resolved>,
                      data: map<string, Json>, objects: map<string, Resolved>, rows: seq<Row>) {
    Plan(f, d0, cfg, o0).Success? && Done(f, Plan(f, d0, cfg, o0).value, data, objects, d0, o0, rows)
  }

  /** Every field of `fields` was processed as _create_objects decides from the body `d0`
      and the resolved objects `o0` its phase started from. */
  predicate PhaseDone(fields: seq<string>, cfg: IndustryConfig, d0: map<string, Json>, o0: map<string, Resolved>,
                      data: map<string, Json>, objects: map<string, Resolved>, rows: seq<Row>) {
    forall f :: f in fields ==> Processed(f, cfg, d0, o0, data, objects, rows)
  }

  // The creation path as a function of the body and the session.

  /** What the creator holds between two steps: the body as rewritten so far, the
      resolved objects, and the session. */
  datatype CState = CState(data: map<string, Json>, objects: map<string, Resolved>, db: Db)

  /** The product built, with the state it was built in. */
  datatype Built = Built(product: Row, state: CState)

  /** The state a step that passed leaves; nothing when it raised. */
  function OnPass(res: Outcome, s: CState): Option<CState> {
    if res.Pass? then Some(s) else None
  }

  /** The product and state a step that returned the product leaves; nothing when it raised. */
  function OnBuilt(res: Result<Row, Error>, s: CState): Option<Built> {
    if res.Success? then Some(Built(res.value, s)) else None
  }

  /** Carrying out `action` for field `f` from state `s`: one get_or_create by name, or one
      per item of the value as stored back into the body; nothing when a step raises
      (including iterating a value that is not a string, list or mapping). */
  function ActionSpec(f: string, action: Action, s: CState): Option<CState> {
    match action
    case Skip => Some(s)
    case ResolveOne(kind, filter) =>
      var step := GetOrCreateSpec(s.db, kind, filter, None);
      if step.result.Failure? then None
      else Some(CState(s.data, s.objects[f := One(step.result.value.row)], step.db))
    case ResolveMany(kind, value, injectId) =>
      if !Iterable(value) || (injectId.Some? && !AllObjectValues(value)) then None
      else
        var stored := StoredValue(value, injectId);
        var step := MultipleSpec(s.db, kind, ItemsOf(stored));
        if step.result.Failure? then None
        else Some(CState(s.data[f := stored], s.objects[f := Many(step.result.value)], step.db))
  }

  /** One iteration of _create_objects for field `f`, deciding from the state it starts in. */
  function FieldSpec(f: string, cfg: IndustryConfig, s: CState): Option<CState> {
    match Plan(f, s.data, cfg, s.objects)
    case Failure(_) => None
    case Success(action) => ActionSpec(f, action, s)
  }

  /** _create_objects over `names`, in order, each field from the state the previous one
      left; the first field that raises ends the phase. */
  function PhaseSpec(names: seq<string>, cfg: IndustryConfig, s: CState): Option<CState> {
    if names == [] then Some(s)
    else
      match PhaseSpec(names[..|names| - 1], cfg, s)
      case None => None
      case Some(s1) => FieldSpec(names[|names| - 1], cfg, s1)
  }

  /** What _create_objects has done after the first `i` fields of `names`, from the body
      `d0`, the objects `o0` and the session `db0` it started from. */
  ghost predicate PhaseSoFar(names: seq<string>, i: nat, cfg: IndustryConfig, d0: map<string, Json>, o0: map<string, Resolved>,
                       db0: Db, data: map<string, Json>, objects: map<string, Resolved>, rows: seq<Row>, db: Db)
    requires i <= |names|
  {
    && (forall k :: k !in names[..i] ==> SameAt(k, data, d0) && SameAt(k, objects, o0))
    && (forall k :: k !in cfg.productDependent ==> SameAt(k, data, d0))
    && (forall g :: g in names[..i] ==> Processed(g, cfg, d0, o0, data, objects, rows))
    && PhaseSpec(names[..i], cfg, CState(d0, o0, db0)) == Some(CState(data, objects, db))
  }

  /** Once every field of the phase is processed, PhaseSoFar speaks of the whole phase. */
  lemma PhaseSoFarComplete(names: seq<string>, cfg: IndustryConfig, d0: map<string, Json>, o0: map<string, Resolved>,
                           db0: Db, data: map<string, Json>, objects: map<string, Resolved>, rows: seq<Row>, db: Db)
    requires PhaseSoFar(names, |names|, cfg, d0, o0, db0, data, objects, rows, db)
    ensures forall k :: k !in names ==> SameAt(k, data, d0) && SameAt(k, objects, o0)
    ensures forall k :: k !in cfg.productDependent ==> SameAt(k, data, d0)
    ensures forall f :: f in names ==> Processed(f, cfg, d0, o0, data, objects, rows)
    ensures PhaseSpec(names, cfg, CState(d0, o0, db0)) == Some(CState(data, objects, db))
  {
    assert names[..|names|] == names;
  }

  /** A field that raises ends the phase: the fields after it change nothing. */
  lemma {:induction false} PhaseFailureSticks(names: seq<string>, i: nat, cfg: IndustryConfig, s: CState)
    requires i <= |names| && PhaseSpec(names[..i], cfg, s).None?
    ensures PhaseSpec(names, cfg, s).None?
    decreases |names| - i
  {
    if i < |names| {
      assert names[..i + 1][..i] == names[..i];
      PhaseFailureSticks(names, i + 1, cfg, s);
    } else {
      assert names[..i] == names;
    }
  }

  // Building the product (_create_base_product), as a function.

  /** Every base field has an argument. */
  predicate BaseArgumentsOk(cfg: IndustryConfig, data: map<string, Json>, objects: map<string, Resolved>) {
    forall f :: f in cfg.baseFields ==> BaseArgument(f, cfg, data, objects).Success?
  }

  /** The keyword arguments the product is built with: each base field's argument. */
  function BaseKwargs(cfg: IndustryConfig, data: map<string, Json>, objects: map<string, Resolved>): Fields
    requires BaseArgumentsOk(cfg, data, objects)
  {
    map f | f in cfg.baseFields :: BaseArgument(f, cfg, data, objects).value
  }

  /** _create_base_product from state `s`: get or create the product of the industry's
      class from the base arguments, and record its id under `product_id`. */
  function ProductSpec(productType: string, cfg: IndustryConfig, s: CState): Option<Built> {
    match ProductClass(productType)
    case None => None
    case Some(kind) =>
      if !BaseArgumentsOk(cfg, s.data, s.objects) then None
      else
        var step := GetOrCreateSpec(s.db, kind, BaseKwargs(cfg, s.data, s.objects), None);
        if step.result.Failure? then None
        else
          var p := step.result.value.row;
          Some(Built(p, CState(s.data, s.objects[PRODUCT_ID := ProductId(p.id)], step.db)))
  }

  /** The first half of create_product_from_data on `body` and session `db`: rename, the
      independent phase from no resolved objects, then the product. A missing group field
      or bill of materials raises (as does a registry naming the bill of materials as the
      group field, since the rename then drops it). */
  function BuildSpec(productType: string, cfg: IndustryConfig, body: map<string, Json>, db: Db): Option<Built> {
    if cfg.productGroup !in body || BILL_OF_MATERIALS !in body || cfg.productGroup == BILL_OF_MATERIALS then None
    else
      match PhaseSpec(cfg.independent, cfg, CState(Renamed(body, cfg.productGroup), map[], db))
      case None => None
      case Some(s1) => ProductSpec(productType, cfg, s1)
  }

  /** The product-dependent phase, then the industry-dependent one. */
  function DependentsSpec(cfg: IndustryConfig, s: CState): Option<CState> {
    match PhaseSpec(cfg.productDependent, cfg, s)
    case None => None
    case Some(s1) => PhaseSpec(IndustryDependentFields(cfg), cfg, s1)
  }

  /** The session after a commit. */
  function Committed(db: Db): Db {
    db.(committed := db.rows)
  }

  /** create_product_from_data on `body` and session `db`: build the product, create the
      dependent records, check every collection can be attached, and commit. Nothing when
      any step raises. */
  function CreateSpec(productType: string, cfg: IndustryConfig, body: map<string, Json>, db: Db): Option<Built> {
    match BuildSpec(productType, cfg, body, db)
    case None => None
    case Some(b) =>
      match DependentsSpec(cfg, b.state)
      case None => None
      case Some(s) =>
        if !AllLinkable(EffectiveRelations(cfg), s.objects) then None
        else Some(Built(b.product, s.(db := Committed(s.db))))
  }

  /** The three phases of create_product_from_data were carried out as _create_objects
      decides from the renamed body: the independent phase with nothing resolved yet, the
      product-dependent and industry-dependent phases with the product's id recorded. */
  predicate PhasesDone(cfg: IndustryConfig, renamed: map<string, Json>, id: nat,
                       data: map<string, Json>, objects: map<string, Resolved>, rows: seq<Row>) {
    && PhaseDone(cfg.independent, cfg, renamed, map[], data, objects, rows)
    && PhaseDone(cfg.productDependent, cfg, renamed, map[PRODUCT_ID := ProductId(id)], data, objects, rows)
    && PhaseDone(IndustryDependentFields(cfg), cfg, renamed, map[PRODUCT_ID := ProductId(id)], data, objects, rows)
  }

  // Building the product (_create_base_product).

  /** The argument the product is built with for base field `f`: the record resolved in
      the independent phase for a single relation, the body's value otherwise. */
  function BaseArgument(f: string, cfg: IndustryConfig, data: map<string, Json>, objects: map<string, Resolved>): Result<Value, Error> {
    if f in cfg.singleRelations then
      if f !in objects then Failure(MissingKey(f))
      else if objects[f].One? then Success(Ref(objects[f].row.id))
      else Failure(NotAnEntity)
    else if f !in data then Failure(MissingKey(f))
    else Success(Raw(data[f]))
  }

  /** The class of the product record for an industry. */
  function ProductClass(productType: string): Option<Kind> {
    ClassByTableName(productType + "_product")
  }

  /** The product was built from the renamed body `d` and the resolved records `o`:
      a single relation refers to its record, any other base field holds the body's value. */
  predicate BuiltFrom(p: Row, cfg: IndustryConfig, d: map<string, Json>, o: map<string, Resolved>) {
    forall f :: f in cfg.baseFields ==>
      && f in p.fields
      && (f in cfg.singleRelations ==> f in o && o[f].One? && p.fields[f] == Ref(o[f].row.id))
      && (f !in cfg.singleRelations ==> f in d && p.fields[f] == Raw(d[f]))
  }

  /** Every record resolved for a product-dependent field carries the product's id. */
  predicate CarryProductId(cfg: IndustryConfig, o: map<string, Resolved>, id: nat) {
    forall f :: f in cfg.productDependent && f in o && o[f].Many? ==> AllCarry(o[f].objs, id)
  }

  /** Every item resolved to a record whose `product_id` column is `id`. */
  predicate AllCarry(objs: seq<Option<Row>>, id: nat) {
    forall i :: 0 <= i < |objs| ==>
      objs[i].Some? && PRODUCT_ID in objs[i].value.fields && objs[i].value.fields[PRODUCT_ID] == Raw(JNum(id))
  }

  // Attaching the collections (the link phase).

  /** `self.objects[relation]` can extend a product collection: a list of records. */
  predicate Linkable(rel: string, objects: map<string, Resolved>) {
    rel in objects && objects[rel].Many? && AllSome(objects[rel].objs)
  }

  predicate AllLinkable(relations: seq<string>, objects: map<string, Resolved>) {
    forall i :: 0 <= i < |relations| ==> Linkable(relations[i], objects)
  }

  predicate AllSome(objs: seq<Option<Row>>) {
    forall i :: 0 <= i < |objs| ==> objs[i].Some?
  }

  /** The records of a list in which every item resolved. */
  function Targets(objs: seq<Option<Row>>): (rows: seq<Row>)
    requires AllSome(objs)
    ensures |rows| == |objs| && forall i :: 0 <= i < |objs| ==> objs[i] == Some(rows[i])
  {
    seq(|objs|, i requires 0 <= i < |objs| => objs[i].value)
  }

  /** The links the link phase adds for `relations`, in order. */
  function LinksFor(productId: nat, relations: seq<string>, objects: map<string, Resolved>): seq<Link>
    requires AllLinkable(relations, objects)
  {
    if relations == [] then []
    else
      var rel := relations[|relations| - 1];
      LinksFor(productId, relations[..|relations| - 1], objects) + LinksOf(productId, rel, Targets(objects[rel].objs))
  }

  /** Orchestrates the creation of one product from a request body (ProductCreator).
      `data` is the body as it is renamed and rewritten; `objects` what has been resolved
      so far, by field name, with the product's id under `product_id`. The database
      session is passed explicitly. */
  class ProductCreator {
    var data: map<string, Json>
    var objects: map<string, Resolved>
    const productType: string
    const config: IndustryConfig

    ghost predicate Valid() {
      productType in PRODUCT_CONFIG && config == PRODUCT_CONFIG[productType] && WellFormed(config)
    }

    constructor (data: map<string, Json>, productType: string)
      requires productType in PRODUCT_CONFIG
      ensures Valid()
      ensures this.data == data && this.productType == productType && objects == map[]
    {
      this.data := data;
      this.productType := productType;
      this.objects := map[];
      this.config := PRODUCT_CONFIG[productType];
      new;
      RegistryWellFormed();
    }

    /** get_json_fields: the set of top-level keys of the body. */
    method GetJsonFields() returns (fields: set<string>)
      ensures fields == data.Keys
    {
      fields := {};
      var rest := data.Keys;
      while rest != {}
        invariant fields + rest == data.Keys
        invariant fields !! rest
        decreases |rest|
      {
        var k :| k in rest;
        fields := fields + {k};
        rest := rest - {k};
      }
    }

    /** check_all_fields_present: true exactly when no field of the industry is missing
        and no other field is present. */
    method CheckAllFieldsPresent(jsonFields: set<string>) returns (ok: bool)
      ensures ok <==> (forall f :: f in config.allFields ==> f in jsonFields)
                      && (forall f :: f in jsonFields ==> f in config.allFields)
    {
      ok := jsonFields == set f | f in config.allFields;
    }

    /** _cleanse_data: move the industry's group field to `group` and the bill of
        materials to `materials`; a missing field raises KeyError. */
    method CleanseData() returns (res: Outcome)
      requires Valid()
      modifies this`data
      ensures config.productGroup !in old(data) ==> res == Fail(MissingKey(config.productGroup)) && data == old(data)
      ensures config.productGroup in old(data) && BILL_OF_MATERIALS !in old(data) ==>
                res == Fail(MissingKey(BILL_OF_MATERIALS))
      ensures config.productGroup in old(data) && BILL_OF_MATERIALS in old(data) ==>
                res == Pass && data == Renamed(old(data), config.productGroup)
    {
      var productGroup := config.productGroup;
      if productGroup !in data {
        return Fail(MissingKey(productGroup));
      }
      data := data[GROUP := data[productGroup]];
      data := data - {productGroup};
      if BILL_OF_MATERIALS !in data {
        return Fail(MissingKey(BILL_OF_MATERIALS));
      }
      data := data[MATERIALS := data[BILL_OF_MATERIALS]];
      data := data - {BILL_OF_MATERIALS};
      return Pass;
    }

    /** The product-id injection of _create_objects: `value['product_id'] = id` for every
        value of the mapping under `f`, raising on the first value that is not a mapping.
        (The source rewrites the values in place, so the ones before a failing value stay
        rewritten; the request fails in either case.) */
    method InjectProductId(f: string, id: nat) returns (res: Outcome)
      requires f in data && data[f].JObject?
      modifies this`data
      ensures res.Pass? <==> AllObjectValues(old(data)[f])
      ensures res.Pass? ==> data == old(data)[f := WithProductId(old(data)[f], id)]
      ensures res.Fail? ==> res.error == NotAMapping && data == old(data)
    {
      var entries := data[f].entries;
      var rewritten: seq<Entry> := [];
      var i := 0;
      while i < |entries|
        invariant 0 <= i <= |entries|
        invariant data == old(data)
        invariant forall j :: 0 <= j < i ==> entries[j].value.JObject?
        invariant |rewritten| == i
        invariant forall j :: 0 <= j < i ==> rewritten[j] == InjectEntry(entries[j], id)
      {
        if !entries[i].value.JObject? {
          return Fail(NotAMapping);
        }
        rewritten := rewritten + [InjectEntry(entries[i], id)];
        i := i + 1;
      }
      assert JObject(rewritten) == WithProductId(data[f], id);
      data := data[f := JObject(rewritten)];
      return Pass;
    }

    /** One iteration of _create_objects' loop, for field `f`. */
    method CreateObject(f: string, store: Session) returns (res: Outcome)
      requires Valid() && store.Valid()
      requires f != PRODUCT_ID
      requires Stored(objects, store.rows)
      modifies this`data, this`objects, store
      ensures store.Valid() && Stored(objects, store.rows)
      ensures old(store.rows) <= store.rows
      ensures store.committed == old(store.committed)
      ensures store.links == old(store.links) && store.committedLinks == old(store.committedLinks)
      ensures forall k :: k != f ==> SameAt(k, data, old(data)) && SameAt(k, objects, old(objects))
      ensures f !in config.productDependent ==> SameAt(f, data, old(data))
      ensures Plan(f, old(data), config, old(objects)).Failure? ==> res.Fail?
      ensures res.Pass? ==> Processed(f, config, old(data), old(objects), data, objects, store.rows)
      ensures FieldSpec(f, config, CState(old(data), old(objects), old(store.State())))
              == OnPass(res, CState(data, objects, store.State()))
    {
      var plan := Plan(f, data, config, objects);
      if plan.Failure? {
        return Fail(plan.error);
      }
      match plan.value {
        case Skip =>
          return Pass;
        case ResolveOne(kind, filter) =>
          res := CreateOne(f, kind, filter, store);
        case ResolveMany(kind, value, injectId) =>
          res := CreateMany(f, kind, injectId, store);
      }
    }

    /** The scalar branch of _create_objects for field `f`: the record named by the
        filter becomes `objects[f]`. */
    method CreateOne(f: string, kind: Kind, filter: Fields, store: Session) returns (res: Outcome)
      requires store.Valid() && Stored(objects, store.rows)
      modifies this`objects, store
      ensures store.Valid() && Stored(objects, store.rows)
      ensures old(store.rows) <= store.rows
      ensures store.committed == old(store.committed)
      ensures store.links == old(store.links) && store.committedLinks == old(store.committedLinks)
      ensures forall k :: k != f ==> SameAt(k, objects, old(objects))
      ensures res.Pass? ==> Done(f, ResolveOne(kind, filter), data, objects, data, old(objects), store.rows)
      ensures ActionSpec(f, ResolveOne(kind, filter), CState(data, old(objects), old(store.State())))
              == OnPass(res, CState(data, objects, store.State()))
    {
      var r := ResolveRecord(kind, filter, store);
      if r.Failure? {
        return Fail(r.error);
      }
      StoredAfter(objects, old(store.rows), store.rows, f, One(r.value));
      objects := objects[f := One(r.value)];
      return Pass;
    }

    /** The list-or-mapping branch of _create_objects for field `f`: one record per item
        becomes `objects[f]`. */
    method CreateMany(f: string, kind: Kind, injectId: Option<nat>, store: Session) returns (res: Outcome)
      requires store.Valid() && Stored(objects, store.rows)
      requires f in data && IsCollection(data[f]) && (injectId.Some? ==> data[f].JObject?)
      modifies this`data, this`objects, store
      ensures store.Valid() && Stored(objects, store.rows)
      ensures old(store.rows) <= store.rows
      ensures store.committed == old(store.committed)
      ensures store.links == old(store.links) && store.committedLinks == old(store.committedLinks)
      ensures forall k :: k != f ==> SameAt(k, data, old(data)) && SameAt(k, objects, old(objects))
      ensures injectId.None? ==> data == old(data)
      ensures res.Pass? ==> Done(f, ResolveMany(kind, old(data)[f], injectId), data, objects, old(data), old(objects), store.rows)
      ensures ActionSpec(f, ResolveMany(kind, old(data)[f], injectId), CState(old(data), old(objects), old(store.State())))
              == OnPass(res, CState(data, objects, store.State()))
    {
      ghost var s0 := CState(data, objects, store.State());
      var r := ResolveItems(f, kind, injectId, store);
      if r.Failure? {
        ManyActionFails(f, kind, injectId, s0, data);
        return Fail(r.error);
      }
      ManyActionPasses(f, kind, injectId, s0, data, r.value, store.State());
      StoredAfter(objects, old(store.rows), store.rows, f, Many(r.value));
      objects := objects[f := Many(r.value)];
      return Pass;
    }

    /** The scalar branch of _create_objects: get or create the record the filter names. */
    method ResolveRecord(kind: Kind, filter: Fields, store: Session) returns (res: Result<Row, Error>)
      requires store.Valid()
      modifies store
      ensures store.Valid()
      ensures old(store.rows) <= store.rows
      ensures store.committed == old(store.committed)
      ensures store.links == old(store.links) && store.committedLinks == old(store.committedLinks)
      ensures res.Success? ==> res.value in store.rows && Matches(res.value, kind, filter)
      ensures var step := GetOrCreateSpec(old(store.State()), kind, filter, None);
              && store.State() == step.db
              && (res.Success? <==> step.result.Success?)
              && (res.Success? ==> res.value == step.result.value.row)
    {
      var r := store.GetOrCreate(kind, filter, None);
      if r.Failure? {
        return Failure(Store(r.error));
      }
      return Success(r.value.row);
    }

    /** The list-or-mapping branch of _create_objects for field `f`: write the product id
        into each item when asked to, then get or create one record per item. */
    method ResolveItems(f: string, kind: Kind, injectId: Option<nat>, store: Session) returns (res: Result<seq<Option<Row>>, Error>)
      requires store.Valid()
      requires f in data && IsCollection(data[f])
      requires injectId.Some? ==> data[f].JObject?
      modifies this`data, store
      ensures store.Valid()
      ensures old(store.rows) <= store.rows
      ensures store.committed == old(store.committed)
      ensures store.links == old(store.links) && store.committedLinks == old(store.committedLinks)
      ensures injectId.None? ==> data == old(data)
      ensures f in data && forall k :: k != f ==> SameAt(k, data, old(data))
      ensures res.Success? ==>
                && (injectId.Some? ==> AllObjectValues(old(data)[f]))
                && f in data && data[f] == StoredValue(old(data)[f], injectId)
                && AllResolve(res.value, ItemsOf(data[f]), kind, store.rows)
                && (forall i :: 0 <= i < |res.value| && res.value[i].Some? ==> res.value[i].value in store.rows)
      ensures res.Success? ==>
                MultipleSpec(old(store.State()), kind, ItemsOf(data[f])) == ItemsStep(Success(res.value), store.State())
      ensures res.Failure? && (injectId.Some? ==> AllObjectValues(old(data)[f])) ==>
                && data[f] == StoredValue(old(data)[f], injectId)
                && MultipleSpec(old(store.State()), kind, ItemsOf(data[f])).result.Failure?
    {
      if injectId.Some? {
        var injected := InjectProductId(f, injectId.value);
        if injected.Fail? {
          return Failure(injected.error);
        }
      }
      assert data[f] == StoredValue(old(data)[f], injectId) && forall k :: k != f ==> SameAt(k, data, old(data));
      var r := store.GetOrCreateMultiple(kind, data[f]);
      if r.Failure? {
        return Failure(Store(r.error));
      }
      assert forall i :: 0 <= i < |r.value| && r.value[i].Some? ==> r.value[i].value in store.rows by {
        forall i | 0 <= i < |r.value| && r.value[i].Some? ensures r.value[i].value in store.rows {
          assert Resolves(r.value[i], ItemsOf(data[f])[i], kind, store.rows);
        }
      }
      return Success(r.value);
    }

    /** The session is valid, every resolved object is stored, and the
        session has only added rows since it held `rows0`. */
    ghost predicate Kept(store: Session, rows0: seq<Row>, committed0: seq<Row>, links0: seq<Link>,
                         committedLinks0: seq<Link>)
      reads this, store
    {
      && store.Valid() && Stored(objects, store.rows)
      && rows0 <= store.rows && store.committed == committed0
      && store.links == links0 && store.committedLinks == committedLinks0
    }

    /** _create_objects: process each field of `names` in order. */
    method CreateObjects(names: seq<string>, store: Session) returns (res: Outcome)
      requires Valid() && store.Valid()
      requires NoDuplicates(names) && PRODUCT_ID !in names
      requires Stored(objects, store.rows)
      modifies this`data, this`objects, store
      ensures store.Valid() && Stored(objects, store.rows)
      ensures old(store.rows) <= store.rows
      ensures store.committed == old(store.committed)
      ensures store.links == old(store.links) && store.committedLinks == old(store.committedLinks)
      ensures res.Pass? ==> forall k :: k !in names ==> SameAt(k, data, old(data)) && SameAt(k, objects, old(objects))
      ensures res.Pass? ==> forall k :: k !in config.productDependent ==> SameAt(k, data, old(data))
      ensures res.Pass? ==> forall f :: f in names ==> Processed(f, config, old(data), old(objects), data, objects, store.rows)
      ensures PhaseSpec(names, config, CState(old(data), old(objects), old(store.State())))
              == OnPass(res, CState(data, objects, store.State()))
    {
      ghost var (db0, d0, o0) := (store.State(), data, objects);
      ghost var (rows0, committed0, links0, committedLinks0) := (store.rows, store.committed, store.links, store.committedLinks);
      var i := 0;
      while i < |names|
        invariant 0 <= i <= |names|
        invariant Kept(store, rows0, committed0, links0, committedLinks0)
        invariant PhaseSoFar(names, i, config, d0, o0, db0, data, objects, store.rows, store.State())
      {
        var r := CreateObjectAt(names, i, store, d0, o0, db0, rows0, committed0, links0, committedLinks0);
        if r.Fail? {
          return r;
        }
        i := i + 1;
      }
      PhaseSoFarComplete(names, config, d0, o0, db0, data, objects, store.rows, store.State());
      return Pass;
    }

    /** Step `i` of _create_objects' loop: process `names[i]` and extend what the phase
        has done so far by it. */
    method CreateObjectAt(names: seq<string>, i: nat, store: Session, ghost d0: map<string, Json>,
                          ghost o0: map<string, Resolved>, ghost db0: Db, ghost rows0: seq<Row>,
                          ghost committed0: seq<Row>, ghost links0: seq<Link>, ghost committedLinks0: seq<Link>)
      returns (res: Outcome)
      requires Valid() && i < |names| && NoDuplicates(names) && PRODUCT_ID !in names
      requires Kept(store, rows0, committed0, links0, committedLinks0)
      requires PhaseSoFar(names, i, config, d0, o0, db0, data, objects, store.rows, store.State())
      modifies this`data, this`objects, store
      ensures Kept(store, rows0, committed0, links0, committedLinks0)
      ensures res.Pass? ==> PhaseSoFar(names, i + 1, config, d0, o0, db0, data, objects, store.rows, store.State())
      ensures res.Fail? ==> PhaseSpec(names, config, CState(d0, o0, db0)).None?
    {
      ghost var (d1, o1, rows1, db1) := (data, objects, store.rows, store.State());
      res := CreateObject(names[i], store);
      if res.Pass? {
        PhaseSoFarStep(names, i, config, d0, o0, db0, d1, o1, rows1, db1, data, objects, store.rows, store.State());
      } else {
        PhaseSoFarFails(names, i, config, CState(d0, o0, db0), CState(d1, o1, db1));
      }
    }

    /** _create_base_product: build the product from the base fields, get or create it,
        and record its id under `product_id`. */
    method CreateBaseProduct(store: Session) returns (res: Result<Row, Error>)
      requires Valid() && store.Valid()
      requires Stored(objects, store.rows)
      modifies this`objects, store
      ensures store.Valid() && Stored(objects, store.rows)
      ensures old(store.rows) <= store.rows
      ensures store.committed == old(store.committed)
      ensures store.links == old(store.links) && store.committedLinks == old(store.committedLinks)
      ensures ProductClass(productType).None? ==> res == Failure(UnknownProductClass)
      ensures res.Failure? ==> objects == old(objects)
      ensures res.Success? ==>
                && ProductClass(productType) == Some(res.value.kind)
                && res.value in store.rows
                && objects == old(objects)[PRODUCT_ID := ProductId(res.value.id)]
                && forall f :: f in config.baseFields ==>
                     BaseArgument(f, config, data, old(objects)).Success? && f in res.value.fields
                     && res.value.fields[f] == BaseArgument(f, config, data, old(objects)).value
      ensures ProductSpec(productType, config, CState(data, old(objects), old(store.State())))
              == OnBuilt(res, CState(data, objects, store.State()))
    {
      var productClass := ProductClass(productType);
      if productClass.None? {
        return Failure(UnknownProductClass);
      }
      var kwargs := BaseArguments();
      if kwargs.Failure? {
        return Failure(kwargs.error);
      }
      var r := ResolveRecord(productClass.value, kwargs.value, store);
      if r.Failure? {
        return r;
      }
      // flush: the product's id is known from here on.
      StoredAfter(objects, old(store.rows), store.rows, PRODUCT_ID, ProductId(r.value.id));
      objects := objects[PRODUCT_ID := ProductId(r.value.id)];
      return r;
    }

    /** The keyword loop of _create_base_product: each base field's argument, in the
        registry's order; the first field without one raises. */
    method BaseArguments() returns (res: Result<Fields, Error>)
      ensures res.Success? <==> BaseArgumentsOk(config, data, objects)
      ensures res.Success? ==> res.value == BaseKwargs(config, data, objects)
    {
      var kwargs: Fields := map[];
      var base := config.baseFields;
      var i := 0;
      while i < |base|
        invariant 0 <= i <= |base|
        invariant forall f :: f in base[..i] ==>
                    BaseArgument(f, config, data, objects).Success? && f in kwargs
                    && kwargs[f] == BaseArgument(f, config, data, objects).value
        invariant forall f :: f in kwargs ==> f in base[..i]
      {
        var arg := BaseArgument(base[i], config, data, objects);
        if arg.Failure? {
          return Failure(arg.error);
        }
        kwargs := kwargs[base[i] := arg.value];
        assert base[..i + 1] == base[..i] + [base[i]];
        i := i + 1;
      }
      assert base[..i] == base;
      return Success(kwargs);
    }

    /** The link phase: extend each of the product's collections with the records
        resolved for it. */
    method LinkRelations(product: Row, relations: seq<string>, store: Session) returns (res: Outcome)
      requires store.Valid()
      modifies store
      ensures store.Valid()
      ensures store.State() == old(store.State())
      ensures store.committedLinks == old(store.committedLinks)
      ensures res.Pass? <==> AllLinkable(relations, objects)
      ensures res.Pass? ==> store.links == old(store.links) + LinksFor(product.id, relations, objects)
    {
      var i := 0;
      while i < |relations|
        invariant 0 <= i <= |relations|
        invariant store.Valid()
        invariant store.State() == old(store.State())
        invariant store.committedLinks == old(store.committedLinks)
        invariant AllLinkable(relations[..i], objects)
        invariant store.links == old(store.links) + LinksFor(product.id, relations[..i], objects)
      {
        var rel := relations[i];
        if rel !in objects {
          return Fail(MissingKey(rel));
        }
        if !objects[rel].Many? || !AllSome(objects[rel].objs) {
          return Fail(NotAnEntity);
        }
        store.Extend(product.id, rel, Targets(objects[rel].objs));
        assert relations[..i + 1][..i] == relations[..i];
        i := i + 1;
      }
      assert relations[..i] == relations;
      return Pass;
    }

    /** The first half of create_product_from_data: rename, create the independent
        records (tags, group, customer) and build the product from the base fields. */
    method BuildProduct(store: Session) returns (res: Result<Row, Error>)
      requires Valid() && store.Valid()
      requires objects == map[]
      modifies this`data, this`objects, store
      ensures store.Valid() && Stored(objects, store.rows)
      ensures old(store.rows) <= store.rows
      ensures store.committed == old(store.committed)
      ensures store.links == old(store.links) && store.committedLinks == old(store.committedLinks)
      ensures res.Success? ==>
                var p := res.value;
                && config.productGroup in old(data) && BILL_OF_MATERIALS in old(data)
                && p in store.rows
                && ProductClass(productType) == Some(p.kind)
                && PRODUCT_ID in objects && objects[PRODUCT_ID] == ProductId(p.id)
                && BuiltFrom(p, config, Renamed(old(data), config.productGroup), objects)
                && data == Renamed(old(data), config.productGroup)
                && (forall k :: k !in config.independent && k != PRODUCT_ID ==> k !in objects)
                && PhaseDone(config.independent, config, Renamed(old(data), config.productGroup), map[], data, objects, store.rows)
      ensures BuildSpec(productType, config, old(data), old(store.State()))
              == OnBuilt(res, CState(data, objects, store.State()))
    {
      var r := CleanseData();
      if r.Fail? {
        return Failure(r.error);
      }
      ghost var renamed := data;
      r := CreateObjects(config.independent, store);
      if r.Fail? {
        return Failure(r.error);
      }
      IndependentPhaseKeepsBody(config, renamed, data);
      // flush: the ids of the independent records are known from here on.
      ghost var (objectsBefore, rowsBefore) := (objects, store.rows);
      var product := CreateBaseProduct(store);
      if product.Failure? {
        return Failure(product.error);
      }
      BuiltFromArguments(product.value, config, data, renamed, objectsBefore, objects);
      PhaseDoneStable(config.independent, config, renamed, map[], data, objectsBefore, rowsBefore, data, objects, store.rows);
      return product;
    }

    /** The middle of create_product_from_data: create the product-dependent records
        (materials), then the industry-dependent ones (allergens for food). */
    method CreateDependents(p: Row, ghost renamed: map<string, Json>, store: Session) returns (res: Outcome)
      requires Valid() && store.Valid() && Stored(objects, store.rows)
      requires PRODUCT_ID in objects && objects[PRODUCT_ID] == ProductId(p.id)
      requires BuiltFrom(p, config, renamed, objects)
      requires data == renamed
      requires forall k :: k !in config.independent && k != PRODUCT_ID ==> k !in objects
      requires PhaseDone(config.independent, config, renamed, map[], data, objects, store.rows)
      modifies this`data, this`objects, store
      ensures store.Valid() && Stored(objects, store.rows)
      ensures old(store.rows) <= store.rows
      ensures store.committed == old(store.committed)
      ensures store.links == old(store.links) && store.committedLinks == old(store.committedLinks)
      ensures res.Pass? ==> BuiltFrom(p, config, renamed, objects) && CarryProductId(config, objects, p.id)
      ensures res.Pass? ==> PhasesDone(config, renamed, p.id, data, objects, store.rows)
      ensures DependentsSpec(config, CState(old(data), old(objects), old(store.State())))
              == OnPass(res, CState(data, objects, store.State()))
    {
      ghost var (d1, o1, rows1) := (data, objects, store.rows);
      var r := CreateObjects(config.productDependent, store);
      if r.Fail? {
        return r;
      }
      ProductDependentCarryId(config, d1, o1, data, objects, store.rows, p.id);
      BuiltFromStable(p, config, renamed, config.productDependent, o1, objects);
      ProductDependentPhaseDone(config, renamed, p.id, o1, rows1, data, objects, store.rows);
      var industry := IndustryDependentFields(config);
      if industry != [] {
        ghost var (d2, o2, rows2) := (data, objects, store.rows);
        r := CreateObjects(industry, store);
        if r.Fail? {
          return r;
        }
        BuiltFromStable(p, config, renamed, industry, o2, objects);
        CarryProductIdStable(config, o2, objects, p.id);
        IndustryPhaseDone(config, renamed, p.id, o1, d2, o2, rows2, data, objects, store.rows);
      } else {
        assert PhaseSpec(industry, config, CState(data, objects, store.State())) == Some(CState(data, objects, store.State()));
      }
      return Pass;
    }

    /** create_product_from_data: build the product, create the product-dependent and
        then the industry-dependent records, attach the collections and commit. On
        failure nothing is committed. */
    method CreateProductFromData(store: Session) returns (res: Result<Row, Error>)
      requires Valid() && store.Valid()
      requires objects == map[]
      modifies this`data, this`objects, store
      ensures store.Valid()
      ensures res.Failure? ==> store.committed == old(store.committed) && store.committedLinks == old(store.committedLinks)
      ensures res.Success? ==>
                var p := res.value;
                && config.productGroup in old(data) && BILL_OF_MATERIALS in old(data)
                && store.committed == store.rows && store.committedLinks == store.links
                && old(store.rows) <= store.rows
                && p in store.committed
                && ProductClass(productType) == Some(p.kind)
                && BuiltFrom(p, config, Renamed(old(data), config.productGroup), objects)
                && Stored(objects, store.committed)
                && AllLinkable(EffectiveRelations(config), objects)
                && store.links == old(store.links) + LinksFor(p.id, EffectiveRelations(config), objects)
                && CarryProductId(config, objects, p.id)
                && PhasesDone(config, Renamed(old(data), config.productGroup), p.id, data, objects, store.rows)
      ensures var spec := CreateSpec(productType, config, old(data), old(store.State()));
              && (res.Success? <==> spec.Some?)
              && (res.Success? ==> spec.value == Built(res.value, CState(data, objects, store.State())))
    {
      var product := BuildProduct(store);
      if product.Failure? {
        return product;
      }
      var p := product.value;
      ghost var rows1 := store.rows;
      ghost var built := CState(data, objects, store.State());
      var r := CreateDependents(p, Renamed(old(data), config.productGroup), store);
      if r.Fail? {
        CreateSpecSteps(productType, config, old(data), old(store.State()), p, built, None, false);
        return Failure(r.error);
      }
      ghost var dependents := CState(data, objects, store.State());
      // The relation list is a fresh list; the source extends the shared registry list
      // instead (AsWrittenRelations).
      var relations := config.multiRelations;
      var industry := IndustryDependentFields(config);
      if industry != [] {
        relations := relations + industry;
      }
      assert relations == EffectiveRelations(config);
      r := LinkRelations(p, relations, store);
      if r.Fail? {
        CreateSpecSteps(productType, config, old(data), old(store.State()), p, built, Some(dependents), false);
        return Failure(r.error);
      }
      store.Commit();
      assert store.State() == Committed(dependents.db);
      CreateSpecSteps(productType, config, old(data), old(store.State()), p, built, Some(dependents), true);
      PrefixContains(rows1, store.rows, p);
      return Success(p);
    }
  }

  // Lemmas the orchestrator relies on.

  /** How CreateSpec follows from its parts: the product built into `built`, the dependent
      phases reaching `dependents`, and whether every collection can be attached. */
  lemma CreateSpecSteps(productType: string, cfg: IndustryConfig, body: map<string, Json>, db: Db,
                        p: Row, built: CState, dependents: Option<CState>, linkable: bool)
    requires BuildSpec(productType, cfg, body, db) == Some(Built(p, built))
    requires DependentsSpec(cfg, built) == dependents
    requires dependents.Some? ==> linkable == AllLinkable(EffectiveRelations(cfg), dependents.value.objects)
    ensures dependents.None? || !linkable ==> CreateSpec(productType, cfg, body, db).None?
    ensures dependents.Some? && linkable ==>
              CreateSpec(productType, cfg, body, db)
              == Some(Built(p, dependents.value.(db := Committed(dependents.value.db))))
  {
  }

  /** The decision for a field depends only on that field's value and on the product id. */
  lemma PlanIsLocal(f: string, d0: map<string, Json>, d1: map<string, Json>, cfg: IndustryConfig,
                    o0: map<string, Resolved>, o1: map<string, Resolved>)
    requires SameAt(f, d1, d0) && SameAt(PRODUCT_ID, o1, o0)
    ensures Plan(f, d1, cfg, o1) == Plan(f, d0, cfg, o0)
  {
  }

  /** Resolving one more field to stored records keeps every resolved record stored. */
  lemma StoredAfter(objects: map<string, Resolved>, rows: seq<Row>, rows2: seq<Row>, f: string, v: Resolved)
    requires Stored(objects, rows) && rows <= rows2 && StoredOne(v, rows2)
    ensures Stored(objects[f := v], rows2)
  {
    var m := objects[f := v];
    forall g | g in m ensures StoredOne(m[g], rows2) {
      if g != f {
        match objects[g]
        case One(r) => PrefixContains(rows, rows2, r);
        case Many(objs) =>
          forall i | 0 <= i < |objs| && objs[i].Some? ensures objs[i].value in rows2 {
            PrefixContains(rows, rows2, objs[i].value);
          }
        case ProductId(_) =>
      }
    }
  }

  /** Processing another field and storing more rows keeps a field's outcome. */
  lemma DoneIsStable(f: string, action: Action, d1: map<string, Json>, o1: map<string, Resolved>,
                     d2: map<string, Json>, o2: map<string, Resolved>,
                     d0: map<string, Json>, o0: map<string, Resolved>, rows1: seq<Row>, rows2: seq<Row>)
    requires Done(f, action, d1, o1, d0, o0, rows1)
    requires SameAt(f, d2, d1) && SameAt(f, o2, o1) && rows1 <= rows2
    ensures Done(f, action, d2, o2, d0, o0, rows2)
  {
    match action
    case Skip =>
    case ResolveOne(kind, filter) =>
      PrefixContains(rows1, rows2, o1[f].row);
    case ResolveMany(kind, value, injectId) =>
      ResolvesGrow(o1[f].objs, ItemsOf(StoredValue(value, injectId)), kind, rows1, rows2);
  }

  /** A list-or-mapping field whose items all resolved: the body keeps every other field
      and the session is the one get_or_create_multiple leaves. */
  lemma ManyActionPasses(f: string, kind: Kind, injectId: Option<nat>, s0: CState,
                         data: map<string, Json>, objs: seq<Option<Row>>, db: Db)
    requires f in s0.data && IsCollection(s0.data[f])
    requires injectId.Some? ==> AllObjectValues(s0.data[f])
    requires f in data && data[f] == StoredValue(s0.data[f], injectId)
    requires forall k :: k != f ==> SameAt(k, data, s0.data)
    requires MultipleSpec(s0.db, kind, ItemsOf(data[f])) == ItemsStep(Success(objs), db)
    ensures ActionSpec(f, ResolveMany(kind, s0.data[f], injectId), s0)
            == Some(CState(data, s0.objects[f := Many(objs)], db))
  {
    forall k | k in data ensures k in s0.data[f := data[f]] && data[k] == s0.data[f := data[f]][k] {
      if k != f {
        assert SameAt(k, data, s0.data);
      }
    }
    forall k | k in s0.data ensures k in data {
      if k != f {
        assert SameAt(k, data, s0.data);
      }
    }
    assert data == s0.data[f := data[f]];
  }

  /** A list-or-mapping field whose injection or get_or_create_multiple raised. */
  lemma ManyActionFails(f: string, kind: Kind, injectId: Option<nat>, s0: CState, data: map<string, Json>)
    requires f in s0.data && IsCollection(s0.data[f])
    requires || (injectId.Some? && !AllObjectValues(s0.data[f]))
             || (&& (injectId.Some? ==> AllObjectValues(s0.data[f]))
                 && f in data && data[f] == StoredValue(s0.data[f], injectId)
                 && MultipleSpec(s0.db, kind, ItemsOf(data[f])).result.Failure?)
    ensures ActionSpec(f, ResolveMany(kind, s0.data[f], injectId), s0).None?
  {
  }

  /** One more field processed keeps the fields processed before it. */
  lemma ProcessedIsStable(names: seq<string>, i: nat, cfg: IndustryConfig,
                          d0: map<string, Json>, o0: map<string, Resolved>,
                          d1: map<string, Json>, o1: map<string, Resolved>, rows1: seq<Row>,
                          d2: map<string, Json>, o2: map<string, Resolved>, rows2: seq<Row>)
    requires i < |names| && NoDuplicates(names) && PRODUCT_ID !in names
    requires forall k :: k !in names[..i] ==> SameAt(k, d1, d0) && SameAt(k, o1, o0)
    requires forall k :: k !in cfg.productDependent ==> SameAt(k, d1, d0)
    requires forall g :: g in names[..i] ==> Processed(g, cfg, d0, o0, d1, o1, rows1)
    requires forall k :: k != names[i] ==> SameAt(k, d2, d1) && SameAt(k, o2, o1)
    requires names[i] !in cfg.productDependent ==> SameAt(names[i], d2, d1)
    requires rows1 <= rows2
    requires Processed(names[i], cfg, d1, o1, d2, o2, rows2)
    ensures forall k :: k !in names[..i + 1] ==> SameAt(k, d2, d0) && SameAt(k, o2, o0)
    ensures forall k :: k !in cfg.productDependent ==> SameAt(k, d2, d0)
    ensures forall g :: g in names[..i + 1] ==> Processed(g, cfg, d0, o0, d2, o2, rows2)
  {
    var f := names[i];
    assert names[..i + 1] == names[..i] + [f];
    assert f !in names[..i];
    forall k | k !in names[..i + 1] ensures SameAt(k, d2, d0) && SameAt(k, o2, o0) {
      assert k !in names[..i] && k != f;
      assert SameAt(k, d1, d0) && SameAt(k, o1, o0);
      assert SameAt(k, d2, d1) && SameAt(k, o2, o1);
    }
    forall k | k !in cfg.productDependent ensures SameAt(k, d2, d0) {
      assert SameAt(k, d1, d0);
      assert SameAt(k, d2, d1);
    }
    PlanIsLocal(f, d0, d1, cfg, o0, o1);
    forall g | g in names[..i] ensures Processed(g, cfg, d0, o0, d2, o2, rows2) {
      DoneIsStable(g, Plan(g, d0, cfg, o0).value, d1, o1, d2, o2, d0, o0, rows1, rows2);
    }
  }

  /** Processing `names[i]` as CreateObject promises extends what the phase has done,
      including the state the phase's specification reaches. */
  lemma PhaseSoFarStep(names: seq<string>, i: nat, cfg: IndustryConfig, d0: map<string, Json>, o0: map<string, Resolved>,
                       db0: Db, d1: map<string, Json>, o1: map<string, Resolved>, rows1: seq<Row>, db1: Db,
                       d2: map<string, Json>, o2: map<string, Resolved>, rows2: seq<Row>, db2: Db)
    requires i < |names| && NoDuplicates(names) && PRODUCT_ID !in names
    requires PhaseSoFar(names, i, cfg, d0, o0, db0, d1, o1, rows1, db1)
    requires forall k :: k != names[i] ==> SameAt(k, d2, d1) && SameAt(k, o2, o1)
    requires names[i] !in cfg.productDependent ==> SameAt(names[i], d2, d1)
    requires rows1 <= rows2
    requires Processed(names[i], cfg, d1, o1, d2, o2, rows2)
    requires FieldSpec(names[i], cfg, CState(d1, o1, db1)) == Some(CState(d2, o2, db2))
    ensures PhaseSoFar(names, i + 1, cfg, d0, o0, db0, d2, o2, rows2, db2)
  {
    assert names[..i + 1][..i] == names[..i];
    ProcessedIsStable(names, i, cfg, d0, o0, d1, o1, rows1, d2, o2, rows2);
  }

  /** A field of the phase that raises leaves the whole phase raising. */
  lemma PhaseSoFarFails(names: seq<string>, i: nat, cfg: IndustryConfig, s0: CState, s1: CState)
    requires i < |names|
    requires PhaseSpec(names[..i], cfg, s0) == Some(s1)
    requires FieldSpec(names[i], cfg, s1).None?
    ensures PhaseSpec(names, cfg, s0).None?
  {
    assert names[..i + 1][..i] == names[..i];
    PhaseFailureSticks(names, i + 1, cfg, s0);
  }

  /** The independent phase rewrites no field of the body: only product-dependent values
      are rewritten, and no independent field is one. */
  lemma IndependentPhaseKeepsBody(cfg: IndustryConfig, renamed: map<string, Json>, data: map<string, Json>)
    requires WellFormed(cfg)
    requires forall k :: k !in cfg.independent ==> SameAt(k, data, renamed)
    requires forall k :: k !in cfg.productDependent ==> SameAt(k, data, renamed)
    ensures data == renamed
  {
    forall k ensures SameAt(k, data, renamed) {
      if k in cfg.independent {
        assert k !in cfg.productDependent;
      }
    }
    forall k | k in data ensures k in renamed && data[k] == renamed[k] {
      assert SameAt(k, data, renamed);
    }
    forall k | k in renamed ensures k in data {
      assert SameAt(k, data, renamed);
    }
  }

  /** Processing other fields and storing more rows keeps a phase's outcome. */
  lemma PhaseDoneStable(fields: seq<string>, cfg: IndustryConfig, d0: map<string, Json>, o0: map<string, Resolved>,
                        d1: map<string, Json>, o1: map<string, Resolved>, rows1: seq<Row>,
                        d2: map<string, Json>, o2: map<string, Resolved>, rows2: seq<Row>)
    requires PhaseDone(fields, cfg, d0, o0, d1, o1, rows1)
    requires forall f :: f in fields ==> SameAt(f, d2, d1) && SameAt(f, o2, o1)
    requires rows1 <= rows2
    ensures PhaseDone(fields, cfg, d0, o0, d2, o2, rows2)
  {
    forall f | f in fields ensures Processed(f, cfg, d0, o0, d2, o2, rows2) {
      DoneIsStable(f, Plan(f, d0, cfg, o0).value, d1, o1, d2, o2, d0, o0, rows1, rows2);
    }
  }

  /** A phase's outcome read against another starting state that agrees on its fields and
      on the product id. */
  lemma PhaseDoneRebase(fields: seq<string>, cfg: IndustryConfig, d0: map<string, Json>, o0: map<string, Resolved>,
                        e0: map<string, Json>, p0: map<string, Resolved>,
                        data: map<string, Json>, objects: map<string, Resolved>, rows: seq<Row>)
    requires PhaseDone(fields, cfg, d0, o0, data, objects, rows)
    requires forall f :: f in fields ==> SameAt(f, e0, d0) && SameAt(f, p0, o0)
    requires SameAt(PRODUCT_ID, p0, o0)
    ensures PhaseDone(fields, cfg, e0, p0, data, objects, rows)
  {
    forall f | f in fields ensures Processed(f, cfg, e0, p0, data, objects, rows) {
      PlanIsLocal(f, d0, e0, cfg, o0, p0);
    }
  }

  /** After the product-dependent phase: the independent phase's outcome stands, and the
      new phase was carried out from the renamed body and the product's id. */
  lemma ProductDependentPhaseDone(cfg: IndustryConfig, renamed: map<string, Json>, id: nat,
                                  o1: map<string, Resolved>, rows1: seq<Row>,
                                  data: map<string, Json>, objects: map<string, Resolved>, rows: seq<Row>)
    requires WellFormed(cfg)
    requires forall k :: k !in cfg.independent && k != PRODUCT_ID ==> k !in o1
    requires PRODUCT_ID in o1 && o1[PRODUCT_ID] == ProductId(id)
    requires PhaseDone(cfg.independent, cfg, renamed, map[], renamed, o1, rows1)
    requires PhaseDone(cfg.productDependent, cfg, renamed, o1, data, objects, rows)
    requires forall k :: k !in cfg.productDependent ==> SameAt(k, data, renamed) && SameAt(k, objects, o1)
    requires rows1 <= rows
    ensures PhaseDone(cfg.independent, cfg, renamed, map[], data, objects, rows)
    ensures PhaseDone(cfg.productDependent, cfg, renamed, map[PRODUCT_ID := ProductId(id)], data, objects, rows)
  {
    forall f | f in cfg.independent ensures SameAt(f, data, renamed) && SameAt(f, objects, o1) {
      assert f !in cfg.productDependent;
    }
    PhaseDoneStable(cfg.independent, cfg, renamed, map[], renamed, o1, rows1, data, objects, rows);
    var p0 := map[PRODUCT_ID := ProductId(id)];
    forall f | f in cfg.productDependent ensures SameAt(f, renamed, renamed) && SameAt(f, p0, o1) {
      assert f !in cfg.independent && f != PRODUCT_ID;
    }
    PhaseDoneRebase(cfg.productDependent, cfg, renamed, o1, renamed, p0, data, objects, rows);
  }

  /** After the industry-dependent phase all three phases stand. */
  lemma IndustryPhaseDone(cfg: IndustryConfig, renamed: map<string, Json>, id: nat, o1: map<string, Resolved>,
                          d2: map<string, Json>, o2: map<string, Resolved>, rows2: seq<Row>,
                          data: map<string, Json>, objects: map<string, Resolved>, rows: seq<Row>)
    requires WellFormed(cfg)
    requires forall k :: k !in cfg.independent && k != PRODUCT_ID ==> k !in o1
    requires PRODUCT_ID in o1 && o1[PRODUCT_ID] == ProductId(id)
    requires forall k :: k !in cfg.productDependent ==> SameAt(k, d2, renamed) && SameAt(k, o2, o1)
    requires PhaseDone(cfg.independent, cfg, renamed, map[], d2, o2, rows2)
    requires PhaseDone(cfg.productDependent, cfg, renamed, map[PRODUCT_ID := ProductId(id)], d2, o2, rows2)
    requires PhaseDone(IndustryDependentFields(cfg), cfg, d2, o2, data, objects, rows)
    requires forall k :: k !in IndustryDependentFields(cfg) ==> SameAt(k, data, d2) && SameAt(k, objects, o2)
    requires rows2 <= rows
    ensures PhasesDone(cfg, renamed, id, data, objects, rows)
  {
    var industry := IndustryDependentFields(cfg);
    forall f | f in cfg.independent ensures SameAt(f, data, d2) && SameAt(f, objects, o2) {
      assert f !in industry;
    }
    PhaseDoneStable(cfg.independent, cfg, renamed, map[], d2, o2, rows2, data, objects, rows);
    var p0 := map[PRODUCT_ID := ProductId(id)];
    forall f | f in cfg.productDependent ensures SameAt(f, data, d2) && SameAt(f, objects, o2) {
      assert f !in industry;
    }
    PhaseDoneStable(cfg.productDependent, cfg, renamed, p0, d2, o2, rows2, data, objects, rows);
    forall f | f in industry ensures SameAt(f, renamed, d2) && SameAt(f, p0, o2) {
      assert f !in cfg.productDependent && f !in cfg.independent && f != PRODUCT_ID;
    }
    PhaseDoneRebase(industry, cfg, d2, o2, renamed, p0, data, objects, rows);
  }

  /** Every record created in the product-dependent phase carries the product's id. */
  lemma ProductDependentCarryId(cfg: IndustryConfig, d0: map<string, Json>, o0: map<string, Resolved>,
                                d: map<string, Json>, o: map<string, Resolved>, rows: seq<Row>, id: nat)
    requires PRODUCT_ID in o0 && o0[PRODUCT_ID] == ProductId(id)
    requires forall f :: f in cfg.productDependent ==> f !in o0 && Processed(f, cfg, d0, o0, d, o, rows)
    ensures CarryProductId(cfg, o, id)
  {
    forall f | f in cfg.productDependent && f in o && o[f].Many? ensures AllCarry(o[f].objs, id) {
      var action := Plan(f, d0, cfg, o0).value;
      assert Done(f, action, d, o, d0, o0, rows);
      assert action.ResolveMany?;
      PlanInjectsProductId(f, d0, cfg, o0, id);
      InjectedRowsCarryId(o[f].objs, action.value, id, action.kind, rows);
    }
  }

  /** A product-dependent field resolved as a collection receives the product id. */
  lemma PlanInjectsProductId(f: string, d: map<string, Json>, cfg: IndustryConfig, o: map<string, Resolved>, id: nat)
    requires f in cfg.productDependent && PRODUCT_ID in o && o[PRODUCT_ID] == ProductId(id)
    requires Plan(f, d, cfg, o).Success? && Plan(f, d, cfg, o).value.ResolveMany?
    ensures Plan(f, d, cfg, o).value.injectId == Some(id)
  {
  }

  /** Resolving fields outside the product-dependent phase keeps its records. */
  lemma CarryProductIdStable(cfg: IndustryConfig, o: map<string, Resolved>, o2: map<string, Resolved>, id: nat)
    requires WellFormed(cfg)
    requires CarryProductId(cfg, o, id)
    requires forall k :: k !in IndustryDependentFields(cfg) ==> SameAt(k, o2, o)
    ensures CarryProductId(cfg, o2, id)
  {
    forall f | f in cfg.productDependent && f in o2 && o2[f].Many? ensures AllCarry(o2[f].objs, id) {
      assert f !in IndustryDependentFields(cfg);
    }
  }

  /** The arguments _create_base_product computed describe the product in terms of the
      renamed body and the resolved records. */
  lemma BuiltFromArguments(p: Row, cfg: IndustryConfig, d: map<string, Json>, renamed: map<string, Json>,
                           o: map<string, Resolved>, o2: map<string, Resolved>)
    requires WellFormed(cfg)
    requires forall f :: f in cfg.baseFields ==>
               BaseArgument(f, cfg, d, o).Success? && f in p.fields && p.fields[f] == BaseArgument(f, cfg, d, o).value
    requires forall k :: k !in cfg.productDependent ==> SameAt(k, d, renamed)
    requires o2 == o[PRODUCT_ID := ProductId(p.id)]
    ensures BuiltFrom(p, cfg, renamed, o2)
  {
    forall f | f in cfg.baseFields && f in cfg.singleRelations ensures f != PRODUCT_ID {
      assert f in cfg.independent;
    }
    forall f | f in cfg.baseFields ensures f !in cfg.productDependent {
    }
  }

  /** Resolving a phase that does not touch the single relations keeps what the
      product was built from. */
  lemma BuiltFromStable(p: Row, cfg: IndustryConfig, d: map<string, Json>, names: seq<string>,
                        o: map<string, Resolved>, o2: map<string, Resolved>)
    requires RelationsWellFormed(cfg) && Disjoint(cfg.independent, names)
    requires BuiltFrom(p, cfg, d, o)
    requires forall k :: k !in names ==> SameAt(k, o2, o)
    ensures BuiltFrom(p, cfg, d, o2)
  {
    forall f | f in cfg.singleRelations ensures SameAt(f, o2, o) {
      assert f in cfg.independent;
    }
  }

  /** Each record resolved from a mapping whose values received the product id carries it. */
  lemma InjectedRowsCarryId(objs: seq<Option<Row>>, value: Json, id: nat, kind: Kind, rows: seq<Row>)
    requires AllObjectValues(value)
    requires AllResolve(objs, ItemsOf(WithProductId(value, id)), kind, rows)
    ensures AllCarry(objs, id)
  {
    var injected := WithProductId(value, id);
    forall i | 0 <= i < |objs|
      ensures objs[i].Some? && PRODUCT_ID in objs[i].value.fields && objs[i].value.fields[PRODUCT_ID] == Raw(JNum(id))
    {
      assert Resolves(objs[i], ItemsOf(injected)[i], kind, rows);
      assert injected.entries[i].value.JObject?;
      assert ItemFilter(ItemsOf(injected)[i])[PRODUCT_ID] == Raw(JNum(id));
    }
  }

  // The products route, POST branch.

  /** Flask's answer to a request whose handler raised. */
  const INTERNAL_SERVER_ERROR := "Internal Server Error"

  datatype Response = Response(body: string, status: int)

  /** What the route decides before any record is created: reject with a message key and
      status, or go on to create the product. */
  datatype Verdict = Reject(messageKey: string, status: int) | Create

  /** Some product of either industry already has this name. */
  predicate ProductNameTaken(rows: seq<Row>, name: Json) {
    exists r :: r in rows && TableOf(r.kind) == ProductTable && NAME in r.fields && r.fields[NAME] == Raw(name)
  }

  /** The checks of the POST branch, in the order the route makes them: the API key, the
      presence of a JSON body, a truthy name already used by a product, the exact field
      set of the industry. */
  function PostDecision(apiKey: string, body: Option<map<string, Json>>, rows: seq<Row>): (v: Verdict)
    ensures v.Reject? ==> v.messageKey in MESSAGES
    ensures v.Create? ==> apiKey in PRODUCT_CONFIG && body.Some?
  {
    IndustriesMatchKeys();
    if apiKey !in INDUSTRY_KEYS then Reject(UNKNOWN_API_KEY, 403)
    else if body.None? then Reject(NO_JSON, 400)
    else if NAME in body.value && Truthy(body.value[NAME]) && ProductNameTaken(rows, body.value[NAME]) then
      Reject(DUPLICATE_PRODUCT, 400)
    else if !KeySetMatches(body.value.Keys, PRODUCT_CONFIG[apiKey]) then Reject(INCORRECT_DATA, 400)
    else Create
  }

  /** The POST branch of the products route on a fresh session: answer a rejected request
      without touching the store; otherwise create the product and commit (201), or, when
      creation raises, let the session be discarded (500). */
  method Post(apiKey: string, body: Option<map<string, Json>>, store: Session) returns (resp: Response)
    requires store.Valid()
    requires store.rows == store.committed && store.links == store.committedLinks
    modifies store
    ensures store.Valid()
    ensures store.rows == store.committed && store.links == store.committedLinks
    ensures old(store.committed) <= store.committed
    ensures PostDecision(apiKey, body, old(store.rows)).Reject? ==>
              var v := PostDecision(apiKey, body, old(store.rows));
              resp == Response(MESSAGES[v.messageKey], v.status) && store.committed == old(store.committed)
              && store.committedLinks == old(store.committedLinks)
    ensures PostDecision(apiKey, body, old(store.rows)).Create? ==> resp.status == 201 || resp.status == 500
    ensures PostDecision(apiKey, body, old(store.rows)).Create? ==>
              var spec := CreateSpec(apiKey, PRODUCT_CONFIG[apiKey], body.value, old(store.State()));
              && (resp.status == 201 <==> spec.Some?)
              && (spec.Some? ==>
                    && store.State() == spec.value.state.db
                    && store.committedLinks
                       == old(store.committedLinks) + LinksFor(spec.value.product.id, EffectiveRelations(PRODUCT_CONFIG[apiKey]), spec.value.state.objects))
    ensures resp.status == 500 ==>
              (resp.body == INTERNAL_SERVER_ERROR
               && store.committed == old(store.committed) && store.committedLinks == old(store.committedLinks))
    ensures resp.status == 201 ==>
              resp.body == MESSAGES[PRODUCT_CREATED] && body.Some? && NAME in body.value
              && exists p :: p in store.committed && ProductClass(apiKey) == Some(p.kind)
                             && NAME in p.fields && p.fields[NAME] == Raw(body.value[NAME])
  {
    var verdict := PostDecision(apiKey, body, store.rows);
    if verdict.Reject? {
      return Response(MESSAGES[verdict.messageKey], verdict.status);
    }
    IndustriesMatchKeys();
    var creator := new ProductCreator(body.value, apiKey);
    var fields := creator.GetJsonFields();
    var complete := creator.CheckAllFieldsPresent(fields);
    assert complete;
    var created := creator.CreateProductFromData(store);
    if created.Failure? {
      // The teardown removes the session, discarding everything not committed.
      store.Rollback();
      return Response(INTERNAL_SERVER_ERROR, 500);
    }
    NameSurvivesRenaming(body.value, creator.config);
    return Response(MESSAGES[PRODUCT_CREATED], 201);
  }

  /** The product's name is one of the fields renaming leaves alone. */
  lemma NameSurvivesRenaming(d: map<string, Json>, cfg: IndustryConfig)
    requires cfg in PRODUCT_CONFIG.Values
    requires cfg.productGroup in d && BILL_OF_MATERIALS in d && NAME in d
    ensures NAME in Renamed(d, cfg.productGroup) && Renamed(d, cfg.productGroup)[NAME] == d[NAME]
    ensures NAME in cfg.baseFields && NAME !in cfg.singleRelations
  {
  }
}
