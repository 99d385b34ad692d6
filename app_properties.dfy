/** What the product-creation path and the products route promise, proved about the
    model in app.dfy; and the relation list the link phase walks as the source builds it. */
module AppProperties {
  import opened Wrappers
  import opened Json
  import opened SystemConfig
  import opened Utils
  import opened UtilsProperties
  import opened App

  // Renaming.

  /** Renaming moves the group field to `group` and the bill of materials to
      `materials`, drops the two original keys, and leaves every other key as it was. */
  lemma RenamedMovesKeys(d: map<string, Json>, productGroup: string)
    requires productGroup in d && BILL_OF_MATERIALS in d && productGroup != BILL_OF_MATERIALS
    requires productGroup != GROUP && productGroup != MATERIALS
    ensures var r := Renamed(d, productGroup);
            && GROUP in r && r[GROUP] == d[productGroup]
            && MATERIALS in r && r[MATERIALS] == d[BILL_OF_MATERIALS]
            && productGroup !in r && BILL_OF_MATERIALS !in r
            && (forall k :: k in d && k != productGroup && k != BILL_OF_MATERIALS && k != GROUP && k != MATERIALS ==>
                  k in r && r[k] == d[k])
            && (forall k :: k in r ==> k == GROUP || k == MATERIALS || (k in d && k != productGroup && k != BILL_OF_MATERIALS))
  {
  }

  /** A body that passed the field check renames without a KeyError, into a body whose
      keys are exactly the canonical names of the industry, base fields included. */
  lemma ValidatedBodyRenames(d: map<string, Json>, cfg: IndustryConfig)
    requires WellFormed(cfg)
    requires KeySetMatches(d.Keys, cfg)
    ensures cfg.productGroup in d && BILL_OF_MATERIALS in d
    ensures forall k :: k in Renamed(d, cfg.productGroup) <==> IsCanonical(cfg, k)
    ensures forall f :: f in cfg.baseFields ==> f in Renamed(d, cfg.productGroup)
  {
    assert cfg.productGroup in d && BILL_OF_MATERIALS in d;
    forall f | f in cfg.baseFields ensures f in Renamed(d, cfg.productGroup) {
      assert IsCanonical(cfg, f);
    }
  }

  // The per-field decision of _create_objects.

  /** An absent or falsy field is skipped and nothing is created for it. */
  lemma FalsyFieldSkipped(f: string, d: map<string, Json>, cfg: IndustryConfig, o: map<string, Resolved>)
    requires f !in d || !Truthy(d[f])
    ensures Plan(f, d, cfg, o) == Success(Skip)
  {
  }

  /** A truthy scalar of a field with a record class is found or created by name alone;
      a list or mapping resolves item by item, and for a product-dependent field only a
      mapping is accepted and receives the product's id. */
  lemma FieldDecision(f: string, d: map<string, Json>, cfg: IndustryConfig, o: map<string, Resolved>, id: nat)
    requires WellFormed(cfg) && (f in cfg.independent || f in cfg.productDependent || f in IndustryDependentFields(cfg))
    requires f in d && Truthy(d[f])
    requires f in cfg.productDependent ==> PRODUCT_ID in o && o[PRODUCT_ID] == ProductId(id)
    ensures !IsCollection(d[f]) ==>
              Plan(f, d, cfg, o) == Success(ResolveOne(ClassByTableName(TABLE_NAMES[f]).value, map[NAME := Raw(d[f])]))
    ensures IsCollection(d[f]) && f !in cfg.productDependent ==>
              Plan(f, d, cfg, o) == Success(ResolveMany(ClassByTableName(TABLE_NAMES[f]).value, d[f], None))
    ensures f in cfg.productDependent && d[f].JList? ==> Plan(f, d, cfg, o) == Failure(NotAMapping)
    ensures f in cfg.productDependent && d[f].JObject? ==>
              Plan(f, d, cfg, o) == Success(ResolveMany(ClassByTableName(TABLE_NAMES[f]).value, d[f], Some(id)))
  {
    assert f in TABLE_NAMES;
    EveryTableHasClass();
  }

  /** The bill of materials of the food example, after injection: each material keeps its
      quantity and units and gains the product's id. */
  lemma MaterialsReceiveProductId(id: nat)
    ensures var paprika := JObject([Entry("quantity", JNum(100)), Entry("units", JStr("tablespoons"))]);
            var materials := JObject([Entry("paprika", paprika)]);
            && AllObjectValues(materials)
            && ItemsOf(WithProductId(materials, id))
               == [ByFields(map["quantity" := Raw(JNum(100)), "units" := Raw(JStr("tablespoons")),
                                PRODUCT_ID := Raw(JNum(id)), NAME := Raw(JStr("paprika"))])]
  {
    var paprika := [Entry("quantity", JNum(100)), Entry("units", JStr("tablespoons"))];
    var materials := JObject([Entry("paprika", JObject(paprika))]);
    FieldsOfSnoc([Entry("quantity", JNum(100))], Entry("units", JStr("tablespoons")));
    FieldsOfSnoc([], Entry("quantity", JNum(100)));
    assert [Entry("quantity", JNum(100))] + [Entry("units", JStr("tablespoons"))] == paprika;
    var injected := WithProductId(materials, id);
    assert ItemsOf(injected)[0] == EntryItem(injected.entries[0]);
  }

  // The route's order of checks.

  /** An unrecognised API key is refused with 403 whatever the body and the store. */
  lemma UnknownKeyForbidden(apiKey: string, body: Option<map<string, Json>>, rows: seq<Row>)
    requires apiKey !in INDUSTRY_KEYS
    ensures PostDecision(apiKey, body, rows) == Reject(UNKNOWN_API_KEY, 403)
    ensures MESSAGES[UNKNOWN_API_KEY] == "Unknown API key. Please check your API key."
  {
  }

  /** A duplicate name is reported before the field check: a body that reuses a
      product's name is refused as a duplicate even when its fields are wrong too. */
  lemma DuplicateReportedBeforeFieldCheck(apiKey: string, body: map<string, Json>, rows: seq<Row>)
    requires apiKey in INDUSTRY_KEYS
    requires NAME in body && Truthy(body[NAME]) && ProductNameTaken(rows, body[NAME])
    ensures PostDecision(apiKey, Some(body), rows) == Reject(DUPLICATE_PRODUCT, 400)
  {
  }

  /** A known key without a JSON body is refused with 400 before anything else is looked at. */
  lemma MissingBodyRejected(apiKey: string, rows: seq<Row>)
    requires apiKey in INDUSTRY_KEYS
    ensures PostDecision(apiKey, None, rows) == Reject(NO_JSON, 400)
    ensures MESSAGES[NO_JSON] == "No JSON body supplied"
  {
  }

  /** A body under a known key whose name is free (or falsy) but whose fields are not
      exactly the industry's is refused as incorrect data. */
  lemma FieldMismatchRejected(apiKey: string, body: map<string, Json>, rows: seq<Row>)
    requires apiKey in PRODUCT_CONFIG
    requires !(NAME in body && Truthy(body[NAME]) && ProductNameTaken(rows, body[NAME]))
    requires !KeySetMatches(body.Keys, PRODUCT_CONFIG[apiKey])
    ensures PostDecision(apiKey, Some(body), rows) == Reject(INCORRECT_DATA, 400)
    ensures MESSAGES[INCORRECT_DATA] == "Incorrect product data supplied."
  {
    IndustriesMatchKeys();
  }

  /** A name of either industry blocks the other: a textiles product named like a stored
      food product is refused. */
  lemma NamesSharedAcrossIndustries(body: map<string, Json>, p: Row)
    requires p.kind == FoodProduct && NAME in p.fields && NAME in body && p.fields[NAME] == Raw(body[NAME])
    requires Truthy(body[NAME])
    ensures PostDecision(TEXTILES, Some(body), [p]) == Reject(DUPLICATE_PRODUCT, 400)
  {
    assert p in [p];
  }

  /** A request goes on to creation exactly when the key is known, a body is present, its
      name (when truthy) is unused by any product, and it has exactly the industry's
      fields; such a body renames without error and names the product. */
  lemma CreateOnlyForCompleteBodies(apiKey: string, body: Option<map<string, Json>>, rows: seq<Row>)
    ensures PostDecision(apiKey, body, rows) == Create <==>
              && apiKey in PRODUCT_CONFIG && body.Some?
              && !(NAME in body.value && Truthy(body.value[NAME]) && ProductNameTaken(rows, body.value[NAME]))
              && KeySetMatches(body.value.Keys, PRODUCT_CONFIG[apiKey])
    ensures PostDecision(apiKey, body, rows) == Create ==>
              var cfg := PRODUCT_CONFIG[apiKey];
              && NAME in body.value
              && cfg.productGroup in body.value && BILL_OF_MATERIALS in body.value
              && (forall f :: f in cfg.baseFields ==> f in Renamed(body.value, cfg.productGroup))
  {
    IndustriesMatchKeys();
    if PostDecision(apiKey, body, rows) == Create {
      RegistryWellFormed();
      ValidatedBodyRenames(body.value, PRODUCT_CONFIG[apiKey]);
    }
  }

  // What the three phases leave, read off PhasesDone.

  /** After the phases, a scalar group field of the renamed body is a stored group record
      whose name is the submitted value. */
  lemma GroupRecordNamedAsSubmitted(apiKey: string, renamed: map<string, Json>, id: nat,
                                    data: map<string, Json>, objects: map<string, Resolved>, rows: seq<Row>)
    requires apiKey in PRODUCT_CONFIG
    requires PhasesDone(PRODUCT_CONFIG[apiKey], renamed, id, data, objects, rows)
    requires GROUP in renamed && Truthy(renamed[GROUP]) && !IsCollection(renamed[GROUP])
    ensures GROUP in objects && objects[GROUP].One? && objects[GROUP].row in rows
    ensures objects[GROUP].row.kind == Group
    ensures NAME in objects[GROUP].row.fields && objects[GROUP].row.fields[NAME] == Raw(renamed[GROUP])
  {
    IndustriesMatchKeys();
    var cfg := PRODUCT_CONFIG[apiKey];
    assert GROUP in cfg.independent;
    assert Processed(GROUP, cfg, renamed, map[], data, objects, rows);
    assert Plan(GROUP, renamed, cfg, map[]) == Success(ResolveOne(Group, map[NAME := Raw(renamed[GROUP])]));
  }

  /** After the phases, a bill of materials given as a mapping of mappings is stored back
      with the product's id in every material, and each of its entries resolves to a
      stored material row that matches the entry's columns. */
  lemma MaterialsCarryProductId(apiKey: string, renamed: map<string, Json>, id: nat,
                                data: map<string, Json>, objects: map<string, Resolved>, rows: seq<Row>)
    requires apiKey in PRODUCT_CONFIG
    requires PhasesDone(PRODUCT_CONFIG[apiKey], renamed, id, data, objects, rows)
    requires MATERIALS in renamed && renamed[MATERIALS].JObject? && Truthy(renamed[MATERIALS])
    ensures AllObjectValues(renamed[MATERIALS])
    ensures MATERIALS in data && data[MATERIALS] == WithProductId(renamed[MATERIALS], id)
    ensures MATERIALS in objects && objects[MATERIALS].Many?
    ensures AllResolve(objects[MATERIALS].objs, ItemsOf(data[MATERIALS]), Material, rows)
  {
    IndustriesMatchKeys();
    var cfg := PRODUCT_CONFIG[apiKey];
    var o0 := map[PRODUCT_ID := ProductId(id)];
    assert MATERIALS in cfg.productDependent;
    assert Processed(MATERIALS, cfg, renamed, o0, data, objects, rows);
    assert Plan(MATERIALS, renamed, cfg, o0) == Success(ResolveMany(Material, renamed[MATERIALS], Some(id)));
  }

  // The relation list of the link phase, as written.

  /** The shared registry list MULTI_RELATIONS of an industry after `requests` requests
      of that industry reached the industry-dependent phase in one process: the link
      phase binds the registry's own list and extends it in place on each of them. */
  function AsWrittenRelations(cfg: IndustryConfig, requests: nat): seq<string>
    decreases requests
  {
    if requests == 0 then cfg.multiRelations
    else AsWrittenRelations(cfg, requests - 1) + IndustryDependentFields(cfg)
  }

  /** The list grows by the industry-dependent fields on every request. */
  lemma {:induction false} AsWrittenRelationsGrow(cfg: IndustryConfig, requests: nat)
    ensures |AsWrittenRelations(cfg, requests)| == |cfg.multiRelations| + requests * |IndustryDependentFields(cfg)|
    ensures AsWrittenRelations(cfg, requests)[..|cfg.multiRelations|] == cfg.multiRelations
  {
    if requests > 0 {
      AsWrittenRelationsGrow(cfg, requests - 1);
      var prev := AsWrittenRelations(cfg, requests - 1);
      assert (prev + IndustryDependentFields(cfg))[..|cfg.multiRelations|] == prev[..|cfg.multiRelations|];
    }
  }

  /** The first request of a process links what the corrected list links. */
  lemma FirstRequestAgrees(cfg: IndustryConfig)
    ensures AsWrittenRelations(cfg, 1) == EffectiveRelations(cfg)
  {
  }

  /** The defect is limited to food: an industry without industry-dependent fields, as
      textiles is in the registry, never sees its list grow. */
  lemma {:induction false} NoIndustryFieldsNoGrowth(cfg: IndustryConfig, requests: nat)
    requires IndustryDependentFields(cfg) == []
    ensures AsWrittenRelations(cfg, requests) == EffectiveRelations(cfg)
  {
    if requests > 0 {
      NoIndustryFieldsNoGrowth(cfg, requests - 1);
    }
  }

  /** Walking one more relation adds its links at the end. */
  lemma LinksForAppend(productId: nat, relations: seq<string>, rel: string, objects: map<string, Resolved>)
    requires AllLinkable(relations, objects) && Linkable(rel, objects)
    ensures AllLinkable(relations + [rel], objects)
    ensures LinksFor(productId, relations + [rel], objects)
            == LinksFor(productId, relations, objects) + LinksOf(productId, rel, Targets(objects[rel].objs))
  {
    assert (relations + [rel])[..|relations|] == relations;
  }

  /** As written, the second food request of a process walks allergens twice. */
  lemma SecondFoodRequestRepeatsAllergens()
    ensures AsWrittenRelations(PRODUCT_CONFIG[FOOD], 2) == EffectiveRelations(PRODUCT_CONFIG[FOOD]) + [ALLERGENS]
    ensures AsWrittenRelations(PRODUCT_CONFIG[FOOD], 2) == [TAGS, MATERIALS, ALLERGENS, ALLERGENS]
    ensures !NoDuplicates(AsWrittenRelations(PRODUCT_CONFIG[FOOD], 2))
    ensures NoDuplicates(EffectiveRelations(PRODUCT_CONFIG[FOOD]))
  {
    var food := PRODUCT_CONFIG[FOOD];
    assert IndustryDependentFields(food) == [ALLERGENS];
    assert AsWrittenRelations(food, 1) == [TAGS, MATERIALS, ALLERGENS];
    var twice := AsWrittenRelations(food, 2);
    assert twice[2] == twice[3];
  }

  /** As written, the second food request of a process attaches every allergen to its
      product twice; the corrected list walks each relation once on every request. */
  lemma SecondFoodRequestLinksAllergensTwice(productId: nat, objects: map<string, Resolved>)
    requires AllLinkable(EffectiveRelations(PRODUCT_CONFIG[FOOD]), objects)
    ensures Linkable(ALLERGENS, objects)
    ensures AllLinkable(AsWrittenRelations(PRODUCT_CONFIG[FOOD], 2), objects)
    ensures LinksFor(productId, AsWrittenRelations(PRODUCT_CONFIG[FOOD], 2), objects)
            == LinksFor(productId, EffectiveRelations(PRODUCT_CONFIG[FOOD]), objects)
               + LinksOf(productId, ALLERGENS, Targets(objects[ALLERGENS].objs))
  {
    var effective := EffectiveRelations(PRODUCT_CONFIG[FOOD]);
    SecondFoodRequestRepeatsAllergens();
    assert effective[2] == ALLERGENS;
    LinksForAppend(productId, effective, ALLERGENS, objects);
  }

  // The food request of the tests, from an empty store.

  /** The food body the tests post. */
  function ChorizoBody(): map<string, Json> {
    map[NAME := JStr("Chorizo"), FAMILY := JStr("sausage"),
        TAGS := JList([JStr("spicy"), JStr("spanish")]), ALLERGENS := JList([JStr("cereals")]),
        CUSTOMER := JStr("Deans Butchers"), BILL_OF_MATERIALS := ChorizoMaterials()]
  }

  function ChorizoMaterials(): Json {
    JObject([Entry("paprika", JObject([Entry("quantity", JNum(100)), Entry("units", JStr("tablespoons"))])),
             Entry("pork mince", JObject([Entry("quantity", JNum(10)), Entry("units", JStr("kg"))]))])
  }

  function Named(name: string): Fields {
    map[NAME := Raw(JStr(name))]
  }

  /** A material row's columns: the entry's columns, the product id and the name. */
  function MaterialFields(name: string, quantity: int, units: string, id: nat): Fields {
    map["quantity" := Raw(JNum(quantity)), "units" := Raw(JStr(units)),
        PRODUCT_ID := Raw(JNum(id)), NAME := Raw(JStr(name))]
  }

  /** The rows the food request stores, in the order it creates them. */
  function ChorizoRows(): seq<Row> {
    [Row(0, Tag, Named("spicy")), Row(1, Tag, Named("spanish")),
     Row(2, Group, Named("sausage")), Row(3, Customer, Named("Deans Butchers")),
     Row(4, FoodProduct, map[NAME := Raw(JStr("Chorizo")), GROUP := Ref(2), CUSTOMER := Ref(3)]),
     Row(5, Material, MaterialFields("paprika", 100, "tablespoons", 4)),
     Row(6, Material, MaterialFields("pork mince", 10, "kg", 4)),
     Row(7, Allergen, Named("cereals"))]
  }

  /** No row of `kind`'s table carries `name`. */
  predicate FreshIn(rows: seq<Row>, kind: Kind, name: Value) {
    forall r :: r in rows ==> TableOf(r.kind) != TableOf(kind) || NAME !in r.fields || r.fields[NAME] != name
  }

  /** No row of another table carries a name of `kind`'s table. */
  lemma FreshInOtherTables(rows: seq<Row>, kind: Kind, name: Value)
    requires forall i :: 0 <= i < |rows| ==> TableOf(rows[i].kind) != TableOf(kind)
    ensures FreshIn(rows, kind, name)
  {
  }

  /** A name no row of the table carries yet is created as the next row. */
  lemma FreshNameCreated(db: Db, kind: Kind, filter: Fields)
    requires NAME in filter && FreshIn(db.rows, kind, filter[NAME])
    ensures var r := Row(db.nextId, kind, filter);
            var db2 := Db(db.rows + [r], db.committed, db.nextId + 1);
            GetOrCreateSpec(db, kind, filter, None) == Step(Success(Found(r, true)), db2)
  {
    assert forall x :: x in db.rows ==> !Matches(x, kind, filter);
  }

  /** One more item whose name is free is created after the ones before it. */
  lemma MultipleFreshSnoc(db: Db, kind: Kind, items: seq<Item>, item: Item, objs: seq<Option<Row>>, db1: Db)
    requires MultipleSpec(db, kind, items) == ItemsStep(Success(objs), db1)
    requires !item.NotAnItem? && NAME in ItemFilter(item)
    requires FreshIn(db1.rows, kind, ItemFilter(item)[NAME])
    ensures var r := Row(db1.nextId, kind, ItemFilter(item));
            var db2 := Db(db1.rows + [r], db1.committed, db1.nextId + 1);
            MultipleSpec(db, kind, items + [item]) == ItemsStep(Success(objs + [Some(r)]), db2)
  {
    assert (items + [item])[..|items|] == items;
    FreshNameCreated(db1, kind, ItemFilter(item));
  }

  /** A one-item collection whose name is free creates one row. */
  lemma OneItemCreated(db: Db, kind: Kind, a: Item)
    requires !a.NotAnItem? && NAME in ItemFilter(a)
    requires FreshIn(db.rows, kind, ItemFilter(a)[NAME])
    ensures var ra := Row(db.nextId, kind, ItemFilter(a));
            var db2 := Db(db.rows + [ra], db.committed, db.nextId + 1);
            MultipleSpec(db, kind, [a]) == ItemsStep(Success([Some(ra)]), db2)
  {
    assert MultipleSpec(db, kind, []) == ItemsStep(Success([]), db);
    MultipleFreshSnoc(db, kind, [], a, [], db);
    assert [] + [a] == [a];
    assert [] + [Some(Row(db.nextId, kind, ItemFilter(a)))] == [Some(Row(db.nextId, kind, ItemFilter(a)))];
  }

  /** A two-item collection with two free, different names creates two rows in order. */
  lemma TwoItemsCreated(db: Db, kind: Kind, items: seq<Item>, a: Item, b: Item)
    requires items == [a, b] && !a.NotAnItem? && !b.NotAnItem? && NAME in ItemFilter(a) && NAME in ItemFilter(b)
    requires ItemFilter(a)[NAME] != ItemFilter(b)[NAME]
    requires FreshIn(db.rows, kind, ItemFilter(a)[NAME]) && FreshIn(db.rows, kind, ItemFilter(b)[NAME])
    ensures var ra := Row(db.nextId, kind, ItemFilter(a));
            var rb := Row(db.nextId + 1, kind, ItemFilter(b));
            var db2 := Db(db.rows + [ra, rb], db.committed, db.nextId + 2);
            MultipleSpec(db, kind, items) == ItemsStep(Success([Some(ra), Some(rb)]), db2)
  {
    var ra := Row(db.nextId, kind, ItemFilter(a));
    OneItemCreated(db, kind, a);
    var db1 := Db(db.rows + [ra], db.committed, db.nextId + 1);
    assert FreshIn(db1.rows, kind, ItemFilter(b)[NAME]);
    MultipleFreshSnoc(db, kind, [a], b, [Some(ra)], db1);
    assert [a] + [b] == [a, b] && [Some(ra)] + [Some(Row(db.nextId + 1, kind, ItemFilter(b)))] == [Some(ra), Some(Row(db.nextId + 1, kind, ItemFilter(b)))];
    assert db.rows + [ra] + [Row(db.nextId + 1, kind, ItemFilter(b))] == db.rows + [ra, Row(db.nextId + 1, kind, ItemFilter(b))];
  }

  /** One more field extends a phase by that field's step. */
  lemma PhaseSnoc(names: seq<string>, f: string, cfg: IndustryConfig, s: CState, s1: CState)
    requires PhaseSpec(names, cfg, s) == Some(s1)
    ensures PhaseSpec(names + [f], cfg, s) == FieldSpec(f, cfg, s1)
  {
    assert (names + [f])[..|names|] == names;
  }

  /** A field holding a non-empty string whose name is free creates its record as the
      next row. */
  lemma ScalarFieldCreated(f: string, cfg: IndustryConfig, s: CState, kind: Kind, name: string)
    requires FieldOfClass(f, kind)
    requires f in s.data && s.data[f] == JStr(name) && name != ""
    requires FreshIn(s.db.rows, kind, Raw(JStr(name)))
    ensures var r := Row(s.db.nextId, kind, Named(name));
            var db2 := Db(s.db.rows + [r], s.db.committed, s.db.nextId + 1);
            FieldSpec(f, cfg, s) == Some(CState(s.data, s.objects[f := One(r)], db2))
  {
    assert Plan(f, s.data, cfg, s.objects) == Success(ResolveOne(kind, Named(name)));
    FreshNameCreated(s.db, kind, Named(name));
  }

  /** A list-or-mapping field whose items all resolve. */
  lemma FieldMany(f: string, cfg: IndustryConfig, s: CState, kind: Kind, injectId: Option<nat>, objs: seq<Option<Row>>, db1: Db)
    requires f in s.data && Iterable(s.data[f]) && (injectId.Some? ==> AllObjectValues(s.data[f]))
    requires Plan(f, s.data, cfg, s.objects) == Success(ResolveMany(kind, s.data[f], injectId))
    requires MultipleSpec(s.db, kind, ItemsOf(StoredValue(s.data[f], injectId))) == ItemsStep(Success(objs), db1)
    ensures FieldSpec(f, cfg, s)
            == Some(CState(s.data[f := StoredValue(s.data[f], injectId)], s.objects[f := Many(objs)], db1))
  {
  }

  /** The food body after renaming: `family` is now `group`, the bill of materials `materials`. */
  function ChorizoRenamedBody(): map<string, Json> {
    map[NAME := JStr("Chorizo"), GROUP := JStr("sausage"),
        TAGS := JList([JStr("spicy"), JStr("spanish")]), ALLERGENS := JList([JStr("cereals")]),
        CUSTOMER := JStr("Deans Butchers"), MATERIALS := ChorizoMaterials()]
  }

  lemma ChorizoRenamed()
    ensures FAMILY in ChorizoBody() && BILL_OF_MATERIALS in ChorizoBody()
    ensures Renamed(ChorizoBody(), FAMILY) == ChorizoRenamedBody()
  {
  }

  /** The food entry of the registry, field by field. */
  lemma FoodRegistry(cfg: IndustryConfig)
    requires cfg == PRODUCT_CONFIG[FOOD]
    ensures cfg.independent == [TAGS, GROUP, CUSTOMER] && cfg.productGroup == FAMILY
    ensures cfg.baseFields == [NAME, GROUP, CUSTOMER] && cfg.singleRelations == [GROUP, CUSTOMER]
    ensures cfg.productDependent == [MATERIALS] && IndustryDependentFields(cfg) == [ALLERGENS]
    ensures EffectiveRelations(cfg) == [TAGS, MATERIALS, ALLERGENS]
  {
    EffectiveRelationsPerIndustry();
  }

  /** The record classes of the food fields, and of the food product. */
  lemma FoodClasses()
    ensures FieldOfClass(TAGS, Tag) && FieldOfClass(GROUP, Group) && FieldOfClass(CUSTOMER, Customer)
    ensures FieldOfClass(MATERIALS, Material) && FieldOfClass(ALLERGENS, Allergen)
    ensures ProductClass(FOOD) == Some(FoodProduct)
  {
    EveryTableHasClass();
  }

  /** A non-empty list under a field with a record class, outside the product-dependent
      phase, resolves item by item without the product id. */
  lemma ListFieldPlan(f: string, d: map<string, Json>, cfg: IndustryConfig, o: map<string, Resolved>, kind: Kind)
    requires FieldOfClass(f, kind) && f !in cfg.productDependent
    requires f in d && d[f].JList? && d[f].items != []
    ensures Plan(f, d, cfg, o) == Success(ResolveMany(kind, d[f], None))
  {
  }

  /** A list field whose items all resolve, stored back unchanged. */
  lemma ListFieldResolved(f: string, cfg: IndustryConfig, s: CState, kind: Kind, objs: seq<Option<Row>>, db1: Db)
    requires f in s.data && s.data[f].JList?
    requires Plan(f, s.data, cfg, s.objects) == Success(ResolveMany(kind, s.data[f], None))
    requires MultipleSpec(s.db, kind, ItemsOf(s.data[f])) == ItemsStep(Success(objs), db1)
    ensures FieldSpec(f, cfg, s) == Some(CState(s.data, s.objects[f := Many(objs)], db1))
  {
    FieldMany(f, cfg, s, kind, None, objs, db1);
    assert s.data[f := s.data[f]] == s.data;
  }

  /** A list of one free name creates one row. */
  lemma OneNameCreated(db: Db, kind: Kind, a: string)
    requires FreshIn(db.rows, kind, Raw(JStr(a)))
    ensures var ra := Row(db.nextId, kind, Named(a));
            var db2 := Db(db.rows + [ra], db.committed, db.nextId + 1);
            MultipleSpec(db, kind, ItemsOf(JList([JStr(a)]))) == ItemsStep(Success([Some(ra)]), db2)
  {
    assert ItemsOf(JList([JStr(a)])) == [ByName(JStr(a))];
    OneItemCreated(db, kind, ByName(JStr(a)));
  }

  /** A list of two free, different names creates two rows in order. */
  lemma TwoNamesCreated(db: Db, kind: Kind, a: string, b: string)
    requires a != b && FreshIn(db.rows, kind, Raw(JStr(a))) && FreshIn(db.rows, kind, Raw(JStr(b)))
    ensures var ra, rb := Row(db.nextId, kind, Named(a)), Row(db.nextId + 1, kind, Named(b));
            var db2 := Db(db.rows + [ra, rb], db.committed, db.nextId + 2);
            MultipleSpec(db, kind, ItemsOf(JList([JStr(a), JStr(b)]))) == ItemsStep(Success([Some(ra), Some(rb)]), db2)
  {
    TwoItemsCreated(db, kind, ItemsOf(JList([JStr(a), JStr(b)])), ByName(JStr(a)), ByName(JStr(b)));
  }

  /** Field `f` names a table whose records have class `kind`. */
  predicate FieldOfClass(f: string, kind: Kind) {
    f in TABLE_NAMES && ClassByTableName(TABLE_NAMES[f]) == Some(kind)
  }

  /** A list field of two distinct names, from an empty store. */
  lemma TwoNamesFieldCreated(f: string, cfg: IndustryConfig, s: CState, kind: Kind, a: string, b: string)
    requires FieldOfClass(f, kind) && f !in cfg.productDependent && a != b
    requires f in s.data && s.data[f] == JList([JStr(a), JStr(b)]) && s.db == Db([], [], 0)
    ensures var db := Db([Row(0, kind, Named(a)), Row(1, kind, Named(b))], [], 2);
            FieldSpec(f, cfg, s)
            == Some(CState(s.data, s.objects[f := Many([Some(Row(0, kind, Named(a))), Some(Row(1, kind, Named(b)))])], db))
  {
    var r0, r1 := Row(0, kind, Named(a)), Row(1, kind, Named(b));
    TwoNamesCreated(s.db, kind, a, b);
    assert [] + [r0, r1] == [r0, r1];
    ListFieldPlan(f, s.data, cfg, s.objects, kind);
    ListFieldResolved(f, cfg, s, kind, [Some(r0), Some(r1)], Db([r0, r1], [], 2));
  }

  /** A phase extended by a scalar field whose name is free. */
  lemma PhaseScalarStep(names: seq<string>, f: string, cfg: IndustryConfig, s0: CState, s1: CState, kind: Kind, name: string)
    requires PhaseSpec(names, cfg, s0) == Some(s1)
    requires FieldOfClass(f, kind)
    requires f in s1.data && s1.data[f] == JStr(name) && name != ""
    requires FreshIn(s1.db.rows, kind, Raw(JStr(name)))
    ensures var r := Row(s1.db.nextId, kind, Named(name));
            var db2 := Db(s1.db.rows + [r], s1.db.committed, s1.db.nextId + 1);
            PhaseSpec(names + [f], cfg, s0) == Some(CState(s1.data, s1.objects[f := One(r)], db2))
  {
    PhaseSnoc(names, f, cfg, s0, s1);
    ScalarFieldCreated(f, cfg, s1, kind, name);
  }

  /** Two distinct tags, then a group, from an empty store. */
  lemma TagsAndGroupCreated(cfg: IndustryConfig, d: map<string, Json>, tags: string, group: string,
                            t0: string, t1: string, g: string)
    requires FieldOfClass(tags, Tag) && FieldOfClass(group, Group) && tags !in cfg.productDependent
    requires t0 != t1 && g != ""
    requires tags in d && d[tags] == JList([JStr(t0), JStr(t1)]) && group in d && d[group] == JStr(g)
    ensures var r0, r1, r2 := Row(0, Tag, Named(t0)), Row(1, Tag, Named(t1)), Row(2, Group, Named(g));
            && PhaseSpec([tags, group], cfg, CState(d, map[], Db([], [], 0)))
               == Some(CState(d, map[tags := Many([Some(r0), Some(r1)]), group := One(r2)], Db([r0, r1, r2], [], 3)))
  {
    var r0, r1, r2 := Row(0, Tag, Named(t0)), Row(1, Tag, Named(t1)), Row(2, Group, Named(g));
    var s0 := CState(d, map[], Db([], [], 0));
    var s1 := CState(d, map[tags := Many([Some(r0), Some(r1)])], Db([r0, r1], [], 2));
    assert PhaseSpec([tags], cfg, s0) == Some(s1) by {
      TwoNamesFieldCreated(tags, cfg, s0, Tag, t0, t1);
      PhaseSnoc([], tags, cfg, s0, s0);
      assert [] + [tags] == [tags];
    }
    PhaseScalarStep([tags], group, cfg, s0, s1, Group, g);
    assert [tags] + [group] == [tags, group] && [r0, r1] + [r2] == [r0, r1, r2];
  }

  /** Two distinct tags, a group, then a customer, from an empty store. */
  lemma TagsGroupCustomerCreated(cfg: IndustryConfig, d: map<string, Json>, tags: string, group: string, customer: string,
                                 t0: string, t1: string, g: string, c: string)
    requires tags !in cfg.productDependent
    requires FieldOfClass(tags, Tag) && FieldOfClass(group, Group) && FieldOfClass(customer, Customer)
    requires t0 != t1 && g != "" && c != ""
    requires tags in d && d[tags] == JList([JStr(t0), JStr(t1)])
    requires group in d && d[group] == JStr(g) && customer in d && d[customer] == JStr(c)
    ensures var r0, r1 := Row(0, Tag, Named(t0)), Row(1, Tag, Named(t1));
            var r2, r3 := Row(2, Group, Named(g)), Row(3, Customer, Named(c));
            && PhaseSpec([tags, group] + [customer], cfg, CState(d, map[], Db([], [], 0)))
               == Some(CState(d, map[tags := Many([Some(r0), Some(r1)]), group := One(r2)][customer := One(r3)],
                              Db([r0, r1, r2] + [r3], [], 4)))
  {
    var r0, r1, r2 := Row(0, Tag, Named(t0)), Row(1, Tag, Named(t1)), Row(2, Group, Named(g));
    var s0 := CState(d, map[], Db([], [], 0));
    var s2 := CState(d, map[tags := Many([Some(r0), Some(r1)]), group := One(r2)], Db([r0, r1, r2], [], 3));
    TagsAndGroupCreated(cfg, d, tags, group, t0, t1, g);
    PhaseScalarStep([tags, group], customer, cfg, s0, s2, Customer, c);
  }

  /** The independent phase of a food body from an empty store: two distinct tags, then
      the group and the customer, each created. */
  lemma IndependentPhaseCreated(cfg: IndustryConfig, d: map<string, Json>, tags: string, group: string, customer: string,
                                t0: string, t1: string, g: string, c: string)
    requires cfg.independent == [tags, group, customer] && tags !in cfg.productDependent
    requires FieldOfClass(tags, Tag) && FieldOfClass(group, Group) && FieldOfClass(customer, Customer)
    requires t0 != t1 && g != "" && c != ""
    requires tags in d && d[tags] == JList([JStr(t0), JStr(t1)])
    requires group in d && d[group] == JStr(g) && customer in d && d[customer] == JStr(c)
    ensures var r0, r1 := Row(0, Tag, Named(t0)), Row(1, Tag, Named(t1));
            var r2, r3 := Row(2, Group, Named(g)), Row(3, Customer, Named(c));
            && PhaseSpec(cfg.independent, cfg, CState(d, map[], Db([], [], 0)))
               == Some(CState(d, map[tags := Many([Some(r0), Some(r1)]), group := One(r2), customer := One(r3)],
                              Db([r0, r1, r2, r3], [], 4)))
  {
    var r0, r1 := Row(0, Tag, Named(t0)), Row(1, Tag, Named(t1));
    var r2, r3 := Row(2, Group, Named(g)), Row(3, Customer, Named(c));
    TagsGroupCustomerCreated(cfg, d, tags, group, customer, t0, t1, g, c);
    assert [tags, group] + [customer] == cfg.independent;
    assert [r0, r1, r2] + [r3] == [r0, r1, r2, r3];
  }

  /** The product of a body whose name is free, built from its name and two single
      relations resolved to records, is created as the next row. */
  lemma ProductCreated(productType: string, cfg: IndustryConfig, s: CState, kind: Kind, name: Json,
                       group: string, customer: string, rg: Row, rc: Row)
    requires ProductClass(productType) == Some(kind)
    requires cfg.baseFields == [NAME, group, customer] && cfg.singleRelations == [group, customer]
    requires NAME != group && NAME != customer
    requires NAME in s.data && s.data[NAME] == name && group in s.objects && s.objects[group] == One(rg)
    requires customer in s.objects && s.objects[customer] == One(rc)
    requires FreshIn(s.db.rows, kind, Raw(name))
    ensures var p := Row(s.db.nextId, kind, map[NAME := Raw(name), group := Ref(rg.id), customer := Ref(rc.id)]);
            var db2 := Db(s.db.rows + [p], s.db.committed, s.db.nextId + 1);
            && ProductSpec(productType, cfg, s) == Some(Built(p, CState(s.data, s.objects[PRODUCT_ID := ProductId(p.id)], db2)))
  {
    var kwargs := map[NAME := Raw(name), group := Ref(rg.id), customer := Ref(rc.id)];
    assert BaseArgumentsOk(cfg, s.data, s.objects);
    assert BaseKwargs(cfg, s.data, s.objects) == kwargs;
    FreshNameCreated(s.db, kind, kwargs);
  }

  /** A material's columns once the product id is injected and the name added. */
  function Injected(key: string, entries: seq<Entry>, id: nat): Fields {
    FieldsOf(entries)[PRODUCT_ID := Raw(JNum(id))][NAME := Raw(JStr(key))]
  }

  /** A two-entry mapping of mappings, after injection, is two items spelling out columns. */
  lemma TwoEntriesInjected(k0: string, v0: seq<Entry>, k1: string, v1: seq<Entry>, id: nat)
    ensures var v := JObject([Entry(k0, JObject(v0)), Entry(k1, JObject(v1))]);
            && AllObjectValues(v)
            && ItemsOf(WithProductId(v, id)) == [ByFields(Injected(k0, v0, id)), ByFields(Injected(k1, v1, id))]
  {
    var v := JObject([Entry(k0, JObject(v0)), Entry(k1, JObject(v1))]);
    var r := WithProductId(v, id);
    assert ItemsOf(r)[0] == EntryItem(r.entries[0]);
    assert ItemsOf(r)[1] == EntryItem(r.entries[1]);
  }

  /** A non-empty mapping under a product-dependent field with a record class, once the
      product's id is recorded, resolves item by item with that id injected. */
  lemma MappingFieldPlan(f: string, d: map<string, Json>, cfg: IndustryConfig, o: map<string, Resolved>, kind: Kind, id: nat)
    requires FieldOfClass(f, kind) && f in cfg.productDependent
    requires f in d && d[f].JObject? && d[f].entries != []
    requires PRODUCT_ID in o && o[PRODUCT_ID] == ProductId(id)
    ensures Plan(f, d, cfg, o) == Success(ResolveMany(kind, d[f], Some(id)))
  {
  }

  /** A mapping field whose items, the product id injected, all resolve. */
  lemma InjectedFieldResolved(f: string, cfg: IndustryConfig, s: CState, kind: Kind, id: nat, objs: seq<Option<Row>>, db1: Db)
    requires f in s.data && AllObjectValues(s.data[f])
    requires Plan(f, s.data, cfg, s.objects) == Success(ResolveMany(kind, s.data[f], Some(id)))
    requires MultipleSpec(s.db, kind, ItemsOf(StoredValue(s.data[f], Some(id)))) == ItemsStep(Success(objs), db1)
    ensures FieldSpec(f, cfg, s) == Some(CState(s.data[f := WithProductId(s.data[f], id)], s.objects[f := Many(objs)], db1))
  {
    FieldMany(f, cfg, s, kind, Some(id), objs, db1);
  }

  /** A product-dependent mapping whose items, once the product's recorded id is injected,
      all resolve: the rows are the product's, and the injected mapping is stored back. */
  lemma InjectedFieldCreated(f: string, cfg: IndustryConfig, s: CState, kind: Kind, id: nat, objs: seq<Option<Row>>, db1: Db)
    requires FieldOfClass(f, kind) && f in cfg.productDependent
    requires f in s.data && AllObjectValues(s.data[f]) && s.data[f].entries != []
    requires PRODUCT_ID in s.objects && s.objects[PRODUCT_ID] == ProductId(id)
    requires MultipleSpec(s.db, kind, ItemsOf(WithProductId(s.data[f], id))) == ItemsStep(Success(objs), db1)
    ensures FieldSpec(f, cfg, s) == Some(CState(s.data[f := WithProductId(s.data[f], id)], s.objects[f := Many(objs)], db1))
  {
    MappingFieldPlan(f, s.data, cfg, s.objects, kind, id);
    InjectedFieldResolved(f, cfg, s, kind, id, objs, db1);
  }

  /** Two items spelling out columns with different, free names create two rows in order. */
  lemma TwoFieldItemsCreated(db: Db, kind: Kind, items: seq<Item>, a: Fields, b: Fields)
    requires items == [ByFields(a), ByFields(b)]
    requires NAME in a && NAME in b && a[NAME] != b[NAME]
    requires FreshIn(db.rows, kind, a[NAME]) && FreshIn(db.rows, kind, b[NAME])
    ensures var ra, rb := Row(db.nextId, kind, a), Row(db.nextId + 1, kind, b);
            MultipleSpec(db, kind, items) == ItemsStep(Success([Some(ra), Some(rb)]), Db(db.rows + [ra, rb], db.committed, db.nextId + 2))
  {
    TwoItemsCreated(db, kind, items, ByFields(a), ByFields(b));
  }

  /** The independent phase of the food request, from an empty store: the two tags, the
      group and the customer become rows 0 to 3. */
  lemma ChorizoIndependent(cfg: IndustryConfig, d: map<string, Json>)
    requires cfg == PRODUCT_CONFIG[FOOD] && d == ChorizoRenamedBody()
    ensures PhaseSpec(cfg.independent, cfg, CState(d, map[], Db([], [], 0)))
            == Some(CState(d, ChorizoIndependentObjects(), Db(ChorizoIndependentRows(), [], 4)))
  {
    FoodRegistry(cfg);
    FoodClasses();
    IndependentPhaseCreated(cfg, d, TAGS, GROUP, CUSTOMER, "spicy", "spanish", "sausage", "Deans Butchers");
  }

  /** The rows the independent phase of the food request creates. */
  function ChorizoIndependentRows(): seq<Row> {
    [Row(0, Tag, Named("spicy")), Row(1, Tag, Named("spanish")),
     Row(2, Group, Named("sausage")), Row(3, Customer, Named("Deans Butchers"))]
  }

  /** The records the independent phase of the food request resolves. */
  function ChorizoIndependentObjects(): map<string, Resolved> {
    map[TAGS := Many([Some(Row(0, Tag, Named("spicy"))), Some(Row(1, Tag, Named("spanish")))]),
        GROUP := One(Row(2, Group, Named("sausage"))), CUSTOMER := One(Row(3, Customer, Named("Deans Butchers")))]
  }

  /** The food product row: its name, and references to the group and customer rows. */
  function ChorizoProductRow(): Row {
    Row(4, FoodProduct, map[NAME := Raw(JStr("Chorizo")), GROUP := Ref(2), CUSTOMER := Ref(3)])
  }

  /** The food product is created as row 4 after the independent records. */
  lemma ChorizoProduct(cfg: IndustryConfig, s: CState)
    requires cfg == PRODUCT_CONFIG[FOOD]
    requires s == CState(ChorizoRenamedBody(), ChorizoIndependentObjects(), Db(ChorizoIndependentRows(), [], 4))
    ensures ProductSpec(FOOD, cfg, s)
            == Some(Built(ChorizoProductRow(), CState(s.data, s.objects[PRODUCT_ID := ProductId(4)],
                                                      Db(s.db.rows + [ChorizoProductRow()], [], 5))))
  {
    FoodRegistry(cfg);
    FoodClasses();
    FreshInOtherTables(s.db.rows, FoodProduct, Raw(JStr("Chorizo")));
    ProductCreated(FOOD, cfg, s, FoodProduct, JStr("Chorizo"), GROUP, CUSTOMER, Row(2, Group, Named("sausage")), Row(3, Customer, Named("Deans Butchers")));
  }

  /** The first half of the food request, from an empty store: the independent records
      are rows 0 to 3, the product row 4, and the product's id is recorded. */
  lemma ChorizoBuilt(cfg: IndustryConfig, body: map<string, Json>)
    requires cfg == PRODUCT_CONFIG[FOOD] && body == ChorizoBody()
    ensures BuildSpec(FOOD, cfg, body, Db([], [], 0))
            == Some(Built(ChorizoProductRow(),
                          CState(ChorizoRenamedBody(), ChorizoIndependentObjects()[PRODUCT_ID := ProductId(4)],
                                 Db(ChorizoIndependentRows() + [ChorizoProductRow()], [], 5))))
  {
    ChorizoRenamed();
    FoodRegistry(cfg);
    ChorizoIndependent(cfg, ChorizoRenamedBody());
    ChorizoProduct(cfg, CState(ChorizoRenamedBody(), ChorizoIndependentObjects(), Db(ChorizoIndependentRows(), [], 4)));
  }

  /** A material entry's columns, the product id injected, are the material row's columns. */
  lemma InjectedMaterial(name: string, quantity: int, units: string, id: nat)
    ensures Injected(name, [Entry("quantity", JNum(quantity)), Entry("units", JStr(units))], id)
            == MaterialFields(name, quantity, units, id)
  {
    FieldsOfSnoc([Entry("quantity", JNum(quantity))], Entry("units", JStr(units)));
    FieldsOfSnoc([], Entry("quantity", JNum(quantity)));
    assert [Entry("quantity", JNum(quantity))] + [Entry("units", JStr(units))]
           == [Entry("quantity", JNum(quantity)), Entry("units", JStr(units))];
  }

  function PaprikaRow(): Row {
    Row(5, Material, MaterialFields("paprika", 100, "tablespoons", 4))
  }

  function PorkMinceRow(): Row {
    Row(6, Material, MaterialFields("pork mince", 10, "kg", 4))
  }

  function CerealsRow(): Row {
    Row(7, Allergen, Named("cereals"))
  }

  /** The state the first half of the food request leaves. */
  function ChorizoBuiltState(): CState {
    CState(ChorizoRenamedBody(), ChorizoIndependentObjects()[PRODUCT_ID := ProductId(4)],
           Db(ChorizoIndependentRows() + [ChorizoProductRow()], [], 5))
  }

  /** The bill of materials, with the product's id injected, creates the two material rows. */
  lemma ChorizoMaterialItems(db: Db, v: Json)
    requires db == ChorizoBuiltState().db && v == ChorizoMaterials()
    ensures AllObjectValues(v)
    ensures MultipleSpec(db, Material, ItemsOf(WithProductId(v, 4)))
            == ItemsStep(Success([Some(PaprikaRow()), Some(PorkMinceRow())]), Db(db.rows + [PaprikaRow(), PorkMinceRow()], [], 7))
  {
    var paprika := [Entry("quantity", JNum(100)), Entry("units", JStr("tablespoons"))];
    var pork := [Entry("quantity", JNum(10)), Entry("units", JStr("kg"))];
    TwoEntriesInjected("paprika", paprika, "pork mince", pork, 4);
    InjectedMaterial("paprika", 100, "tablespoons", 4);
    InjectedMaterial("pork mince", 10, "kg", 4);
    FreshInOtherTables(db.rows, Material, Raw(JStr("paprika")));
    FreshInOtherTables(db.rows, Material, Raw(JStr("pork mince")));
    TwoFieldItemsCreated(db, Material, ItemsOf(WithProductId(v, 4)),
                         MaterialFields("paprika", 100, "tablespoons", 4), MaterialFields("pork mince", 10, "kg", 4));
  }

  /** A phase of one field is that field's step. */
  lemma PhaseOne(f: string, cfg: IndustryConfig, s: CState)
    ensures PhaseSpec([f], cfg, s) == FieldSpec(f, cfg, s)
  {
    PhaseSnoc([], f, cfg, s, s);
    assert [] + [f] == [f];
  }

  /** The state after the product-dependent phase of the food request. */
  function ChorizoMaterialsState(): CState {
    var s := ChorizoBuiltState();
    CState(s.data[MATERIALS := WithProductId(ChorizoMaterials(), 4)],
           s.objects[MATERIALS := Many([Some(PaprikaRow()), Some(PorkMinceRow())])],
           Db(s.db.rows + [PaprikaRow(), PorkMinceRow()], [], 7))
  }

  /** The product-dependent phase of the food request creates the two materials as rows 5
      and 6, each carrying the product's id. */
  lemma ChorizoMaterialsPhase(cfg: IndustryConfig, s: CState)
    requires cfg == PRODUCT_CONFIG[FOOD] && s == ChorizoBuiltState()
    ensures PhaseSpec(cfg.productDependent, cfg, s) == Some(ChorizoMaterialsState())
  {
    FoodRegistry(cfg);
    FoodClasses();
    ChorizoMaterialItems(s.db, ChorizoMaterials());
    InjectedFieldCreated(MATERIALS, cfg, s, Material, 4, [Some(PaprikaRow()), Some(PorkMinceRow())],
                         Db(s.db.rows + [PaprikaRow(), PorkMinceRow()], [], 7));
    PhaseOne(MATERIALS, cfg, s);
  }

  /** The state after the industry-dependent phase of the food request. */
  function ChorizoDependentsState(): CState {
    var s := ChorizoMaterialsState();
    CState(s.data, s.objects[ALLERGENS := Many([Some(CerealsRow())])], Db(s.db.rows + [CerealsRow()], [], 8))
  }

  /** The allergen list of the food request creates one row. */
  lemma ChorizoAllergenItems(db: Db, v: Json)
    requires db == ChorizoMaterialsState().db && v == JList([JStr("cereals")])
    ensures MultipleSpec(db, Allergen, ItemsOf(v)) == ItemsStep(Success([Some(CerealsRow())]), Db(db.rows + [CerealsRow()], [], 8))
  {
    FreshInOtherTables(db.rows, Allergen, Raw(JStr("cereals")));
    OneNameCreated(db, Allergen, "cereals");
  }

  /** The industry-dependent phase of the food request creates the allergen as row 7. */
  lemma ChorizoAllergensPhase(cfg: IndustryConfig, s: CState)
    requires cfg == PRODUCT_CONFIG[FOOD] && s == ChorizoMaterialsState()
    ensures PhaseSpec(IndustryDependentFields(cfg), cfg, s) == Some(ChorizoDependentsState())
  {
    FoodRegistry(cfg);
    FoodClasses();
    ChorizoAllergenItems(s.db, s.data[ALLERGENS]);
    ListFieldPlan(ALLERGENS, s.data, cfg, s.objects, Allergen);
    ListFieldResolved(ALLERGENS, cfg, s, Allergen, [Some(CerealsRow())], Db(s.db.rows + [CerealsRow()], [], 8));
    PhaseOne(ALLERGENS, cfg, s);
  }

  /** Both dependent phases of the food request, after its product is built. */
  lemma ChorizoDependents(cfg: IndustryConfig, s: CState)
    requires cfg == PRODUCT_CONFIG[FOOD] && s == ChorizoBuiltState()
    ensures DependentsSpec(cfg, s) == Some(ChorizoDependentsState())
  {
    ChorizoMaterialsPhase(cfg, s);
    ChorizoAllergensPhase(cfg, ChorizoMaterialsState());
  }

  /** The food body of the tests passes every check of the route on an empty store. */
  lemma ChorizoAccepted(cfg: IndustryConfig, body: map<string, Json>)
    requires cfg == PRODUCT_CONFIG[FOOD] && body == ChorizoBody()
    ensures PostDecision(FOOD, Some(body), []) == Create
  {
    assert cfg.allFields == [NAME, TAGS, FAMILY, CUSTOMER, BILL_OF_MATERIALS, ALLERGENS];
    assert body.Keys == {NAME, FAMILY, TAGS, ALLERGENS, CUSTOMER, BILL_OF_MATERIALS};
    assert KeySetMatches(body.Keys, cfg);
  }

  /** Linking three relations adds the first's links, then the second's, then the third's. */
  lemma LinksForThree(productId: nat, a: string, b: string, c: string, objects: map<string, Resolved>)
    requires Linkable(a, objects) && Linkable(b, objects) && Linkable(c, objects)
    ensures AllLinkable([a, b, c], objects)
    ensures LinksFor(productId, [a, b, c], objects)
            == LinksOf(productId, a, Targets(objects[a].objs)) + LinksOf(productId, b, Targets(objects[b].objs))
               + LinksOf(productId, c, Targets(objects[c].objs))
  {
    assert [] + [a] == [a] && [a] + [b] == [a, b] && [a, b] + [c] == [a, b, c];
    LinksForAppend(productId, [], a, objects);
    LinksForAppend(productId, [a], b, objects);
    LinksForAppend(productId, [a, b], c, objects);
  }

  /** The links the food request attaches to its product: both tags, both materials and
      the allergen, in that order. */
  function ChorizoLinks(): seq<Link> {
    [Link(4, TAGS, Row(0, Tag, Named("spicy"))), Link(4, TAGS, Row(1, Tag, Named("spanish"))),
     Link(4, MATERIALS, PaprikaRow()), Link(4, MATERIALS, PorkMinceRow()),
     Link(4, ALLERGENS, CerealsRow())]
  }

  lemma ChorizoLinked(cfg: IndustryConfig, o: map<string, Resolved>)
    requires cfg == PRODUCT_CONFIG[FOOD] && o == ChorizoDependentsState().objects
    ensures AllLinkable(EffectiveRelations(cfg), o)
    ensures LinksFor(4, EffectiveRelations(cfg), o) == ChorizoLinks()
  {
    FoodRegistry(cfg);
    LinksForThree(4, TAGS, MATERIALS, ALLERGENS, o);
    var tags, materials, allergens := Targets(o[TAGS].objs), Targets(o[MATERIALS].objs), Targets(o[ALLERGENS].objs);
    assert tags == [Row(0, Tag, Named("spicy")), Row(1, Tag, Named("spanish"))];
    assert materials == [PaprikaRow(), PorkMinceRow()];
    assert allergens == [CerealsRow()];
    assert LinksOf(4, TAGS, tags) + LinksOf(4, MATERIALS, materials) + LinksOf(4, ALLERGENS, allergens) == ChorizoLinks();
  }

  /** The rows the food request leaves are the eight rows the tests expect. */
  lemma ChorizoRowsAssembled()
    ensures ChorizoDependentsState().db == Db(ChorizoRows(), [], 8)
    ensures ChorizoProductRow() == ChorizoRows()[4]
  {
    assert ChorizoIndependentRows() + [ChorizoProductRow()] + [PaprikaRow(), PorkMinceRow()] + [CerealsRow()]
           == ChorizoRows();
  }

  /** The food request of the tests, on an empty store: creation succeeds, the product is
      row 4, and the commit leaves exactly the eight expected rows. */
  lemma ChorizoCreateSpec(cfg: IndustryConfig, body: map<string, Json>)
    requires cfg == PRODUCT_CONFIG[FOOD] && body == ChorizoBody()
    ensures CreateSpec(FOOD, cfg, body, Db([], [], 0))
            == Some(Built(ChorizoProductRow(), ChorizoDependentsState().(db := Committed(ChorizoDependentsState().db))))
  {
    ChorizoBuilt(cfg, body);
    ChorizoDependents(cfg, ChorizoBuiltState());
    ChorizoLinked(cfg, ChorizoDependentsState().objects);
  }

  /** POST of the tests' food body under the food key on an empty store is accepted, and
      creation succeeds: the product is the `Chorizo` row referring to its group and
      customer, the store commits the tags, group, customer, product, the two materials
      carrying the product's id, and the allergen, in that order, and the product is linked
      to both tags, both materials and the allergen. */
  lemma ChorizoCreated()
    ensures PostDecision(FOOD, Some(ChorizoBody()), []) == Create
    ensures var spec := CreateSpec(FOOD, PRODUCT_CONFIG[FOOD], ChorizoBody(), Db([], [], 0));
            && spec.Some?
            && spec.value.product == ChorizoRows()[4]
            && spec.value.state.db == Db(ChorizoRows(), ChorizoRows(), 8)
            && AllLinkable(EffectiveRelations(PRODUCT_CONFIG[FOOD]), spec.value.state.objects)
            && LinksFor(spec.value.product.id, EffectiveRelations(PRODUCT_CONFIG[FOOD]), spec.value.state.objects)
               == ChorizoLinks()
  {
    ChorizoAccepted(PRODUCT_CONFIG[FOOD], ChorizoBody());
    ChorizoCreateSpec(PRODUCT_CONFIG[FOOD], ChorizoBody());
    ChorizoLinked(PRODUCT_CONFIG[FOOD], ChorizoDependentsState().objects);
    ChorizoRowsAssembled();
  }
}
