# products_app: the product-assembly path, in Dafny

This project models how products_app creates a product from a POST request.

1. The products route checks a request in a fixed order: the API key, then the presence of a JSON body, then whether the product name is already used, then whether the body has exactly the industry's fields.
2. `ProductCreator` then builds the product. It renames the industry's field names to canonical ones. It finds or creates the related records (tags, group, customer) by natural key. It builds the product. It creates the materials, which carry the product's id, and then the industry's own records (allergens for food). It attaches the collections to the product and commits.
3. Underneath sits `get_or_create`, over a database whose `name` column is unique per table.

Modules, one file each:

- `Wrappers` (wrappers.dfy): `Option` and `Result`.
- `Json` (json.dfy): JSON values, Python truthiness, and `d[k] = v` on a JSON object.
- `SystemConfig` (system_config.dfy): the registry constants (`INDUSTRY_KEYS`, `TABLE_NAMES`, `PRODUCT_CONFIG`, `MESSAGES`) and the well-formedness facts the orchestrator relies on, proved of both industries.
- `Utils` (utils.dfy): the in-memory database session as a class.
  - Fields: the rows visible to the request, the committed rows, the product collections (links), and an id counter.
  - `get_or_create` is specified by a pure function of the session state (`GetOrCreateSpec`). The method is proved equal to it.
  - `get_or_create_multiple` is a loop over the items, proved equal to the fold `MultipleSpec` of the per-item `ItemSpec`.
  - `Commit` copies the working state to the committed state. `Rollback` does the reverse.
- `UtilsProperties` (utils_properties.dfy): what get_or_create promises:
  - found versus created;
  - idempotence;
  - at most one row per name after any sequence of calls;
  - the lost race;
  - order-preserving resolution of lists and mappings.

  It also holds the as-written `get_or_create_multiple` (see Findings).
- `App` (app.dfy):
  - `ProductCreator` as a class whose `data` and `objects` maps its methods update in place.
  - The per-field decision of `_create_objects` as a pure function (`Plan`), the POST decision (`PostDecision`), and the POST branch as a method (`Post`).
  - What creation does, as functions of the state it starts from: one field (`FieldSpec`), a phase (`PhaseSpec`), the product (`ProductSpec`), the build (`BuildSpec`), the dependent phases (`DependentsSpec`), and the whole of `create_product_from_data` (`CreateSpec`). Each method is proved to succeed exactly when its function does, and to leave the state the function gives.
- `AppProperties` (app_properties.dfy):
  - renaming, the per-field decision, the order of the route's checks, and the as-written growth of the shared relation list (see Findings);
  - the food request of the tests, carried through `CreateSpec` step by step from an empty store: it succeeds, and commits exactly the expected rows and links.

Modelling choices:

- **The session is explicit.** The database session is a parameter (`store: Session`). As written, `get_or_create(session, model, **kwargs)` (utils.py:5) is called without a session at app.py:93 and app.py:124, and `get_or_create_multiple(session, model, data)` (utils.py:21) without one at app.py:121. The model passes it.
- **Table name to class.** `get_class_by_table_name` is imported at app.py:15 but defined nowhere. `Utils.ClassByTableName` is a fixed table-name-to-class mapping that covers every table of `TABLE_NAMES`.
- **Per-item `get_or_create_multiple`.** The model checks the type of each item; the source checks `data` instead (see Findings).
  - A string item is a name, as the function's documentation describes for a list of names (utils.py:22-24).
  - A mapping entry `key: {...}` is a record named `key` whose other columns are the inner object's entries. Iterating a mapping in Python yields only its keys, so this reading is not what a per-item type check would do on its own. It rests on the caller: the only mapping passed is the bill of materials, whose values `_create_objects` has just given a `product_id` column each (app.py:118-120), which only makes sense if those values become the records' columns.
  - Anything else yields `None`.
- **Exceptions.** Every exception of the creation path is a value of `App.Error`. The route answers 500 and the session is discarded (`Session.Rollback`), so nothing of the failed request is committed.
- **Concurrency.** The concurrent writer that `get_or_create`'s `IntegrityError` branch guards against is a parameter `race`: the row another request commits between the failed lookup and the insert. The orchestrator passes `None`.

## Model

| member | source | states |
|---|---|---|
| SystemConfig.IndustriesMatchKeys | system_config.py:4-6 | The registry has an entry for exactly the industries whose API keys are recognised, food and textiles. |
| SystemConfig.RegistryWellFormed | system_config.py:52-73 | Both registry entries satisfy every fact the orchestrator relies on: renames, relations, and phases (the three lemmas below). |
| SystemConfig.RegistryRenamesWellFormed | system_config.py:54-60 | Group field and `billOfMaterials` are in ALL_FIELDS and differ; `group`/`materials` are not; every base field is a key of the renamed body. |
| SystemConfig.RegistryRelationsWellFormed | system_config.py:35-43 | Single relations ⊆ independent ∩ base fields; every phase field has a table name; every multi relation is produced by the independent or product-dependent phase. |
| SystemConfig.RegistryPhasesWellFormed | system_config.py:56-71 | Phases name each field once and are pairwise disjoint; none names `product_id`; no base field is product-dependent; the link list has no duplicates. |
| SystemConfig.EffectiveRelationsPerIndustry | system_config.py:59-69 | Food's only industry-dependent field is allergens; textiles has none (`None`); the link phase walks [tags, materials, allergens] for food and [tags, materials] for textiles. |
| SystemConfig.EffectiveRelations | app.py:144-148 | The relations linked are exactly the multi relations and the industry-dependent fields. |
| SystemConfig.MessagesComplete | system_config.py:75-88 | Every message key the route answers with has a text. |
| Utils.EveryTableHasClass | system_config.py:35-43 | Every table name of TABLE_NAMES, and both `<industry>_product` names, resolve to a record class. |
| Utils.Matching | utils.py:10 | The rows `filter_by` selects: exactly the stored rows of the class that agree with every column of the filter. |
| Utils.One | utils.py:10 | `.one()`: returns a matching stored row, and raises NoResultFound exactly when no row matches. |
| Utils.AtMostOneMatch | database/models/models.py:8-12 | With unique names, a filter that fixes the name matches at most one row. |
| Utils.UniqueMatch | utils.py:10 | With unique names, `.one()` on a filter that fixes the name returns the matching row. |
| Utils.AppendFreeName | database/models/models.py:12 | Adding a row whose name is free in its table keeps names unique. |
| Utils.InterleaveKeepsValid | utils.py:13-17 | A concurrent committed insert is admitted only under a free name, so the session stays consistent. |
| Utils.GetOrCreateKeepsValid | utils.py:5-18 | Any call keeps names unique and committed rows among the session's rows, and only adds rows. |
| Utils.Session.GetOrCreate | utils.py:5-18 | The new session state and the result are those of GetOrCreateSpec. The row returned is stored and matches the filter. Rows only grow. A sequential call commits nothing. |
| Utils.Session.GetOrCreateItem | utils.py:32-37 | One iteration of the intended loop. The result and the new session are those of `ItemSpec`: an item that is neither a name nor a mapping entry gives `None` and changes nothing; any other item is `GetOrCreateSpec` on its filter. A resolved row is stored and matches the item's filter. |
| Utils.Session.GetOrCreateMultiple | utils.py:21-39 | The result and the new session are those of `MultipleSpec`: the items resolved one after another, in input order, each from the session the previous one left, stopping at the first that raises. On success there is one output entry per item, in order; a name or mapping item resolves to a stored row matching its filter, any other item to `None`. |
| Utils.Session.GetOrCreateItemAt | utils.py:31-37 | One turn of the loop: resolving the next item extends `MultipleSpec` of the items so far by that item, or ends the whole call with the failing item's error. |
| Utils.FailureEndsMultiple | utils.py:31-37 | Once an item raises, the items after it change nothing: the call raises with that item's error and the session it left. |
| Utils.Session.Extend | app.py:152 | The product's collection gains exactly the given records, in order; no row changes. |
| Utils.Session.Commit | app.py:153 | The committed state becomes the working state. |
| Utils.Session.Rollback | app.py:33-35 | Discarding the session returns the working state to the committed state. |
| UtilsProperties.ExistingRowIsReturned | utils.py:9-10 | A stored row matching the filter is returned with created = false and the session is unchanged. |
| UtilsProperties.MissingRowIsCreated | utils.py:12-16 | With no match and a free name, exactly one new row, built from the filter, is added and returned with created = true. |
| UtilsProperties.CreatedIffStoreGrows | utils.py:9-16 | A sequential call reports created exactly when the session grew by the returned row; otherwise the session is unchanged. |
| UtilsProperties.ResultSatisfiesFilter | utils.py:5-18 | The returned row always satisfies the filter and is in the session afterwards. |
| UtilsProperties.GetOrCreateIdempotent | utils.py:9-16 | A second call with the same filter returns the same row with created = false and leaves the session unchanged. |
| UtilsProperties.CallsKeepNamesUnique | utils.py:5-18 | No sequence of calls leaves two rows of a table with the same name. |
| UtilsProperties.LostRaceReturnsWinner | utils.py:17-18 | When a concurrent request commits the same row first, the call returns the winner's row with created = false, and it is the only row of that name. |
| UtilsProperties.TakenNameWithoutMatchRaises | utils.py:17-18 | Sequentially, a name taken by a row that differs in other columns makes the call raise NoResultFound and leaves the session unchanged. |
| UtilsProperties.SecondProductReusingMaterialRaises | utils.py:10-18 | A material name is stored once: a second product listing "paprika" with the same quantity and units but its own product id matches no row, is refused the insert, and raises NoResultFound. |
| UtilsProperties.FilterWithoutNameFindsSeveral | utils.py:10 | A filter without `name` is not bound by the unique names: two valid tag rows agreeing on the filtered column make the lookup raise MultipleResultsFound. |
| UtilsProperties.FieldsOfKeys | utils.py:36 | The columns a JSON object spells out are exactly its keys. |
| UtilsProperties.FieldsOfSetKey | app.py:120 | `value['product_id'] = id` sets exactly that column of the object and keeps the others. |
| UtilsProperties.NamesResolveInOrder | utils.py:22-24 | A list of names resolves to one stored row per name, in input order, each carrying its name. |
| UtilsProperties.EntriesResolveInOrder | utils.py:30-39 | A mapping resolves to one stored row per entry, in input order, named by the key and agreeing with every column the entry gives. |
| UtilsProperties.AsWrittenListYieldsNothing | utils.py:31-37 | As written, a list of names such as the tags yields only `None`s, where the per-item version resolves each name. |
| UtilsProperties.AsWrittenMappingRaises | utils.py:35-36 | As written, the food example's bill of materials raises a TypeError, where the per-item version filters on name, quantity and units. |
| App.ProductCreator.constructor | app.py:43-47 | A creator holds the body, the industry, an empty `objects` map and the industry's registry entry. |
| App.ProductCreator.GetJsonFields | app.py:49-57 | The set returned is exactly the body's top-level keys. |
| App.ProductCreator.CheckAllFieldsPresent | app.py:59-66 | True exactly when no field of the industry is missing and no other field is present. |
| App.ProductCreator.CleanseData | app.py:68-76 | Moves the group field to `group` and the bill of materials to `materials`; a missing field raises KeyError at the step that reads it. |
| App.ProductCreator.InjectProductId | app.py:118-120 | Every value of the mapping gains `product_id`, keys and order kept; a value that is not a mapping raises. |
| App.WithProductId | app.py:119-120 | After injection each item has the same key and the columns it had, plus `product_id`. |
| App.ProductCreator.ResolveRecord | app.py:124 | The scalar branch: the result and the new session are those of `GetOrCreateSpec` for a lookup by name; the record returned is stored, of the class, and has the given name. |
| App.ProductCreator.ResolveItems | app.py:116-122 | The list-or-mapping branch: the product id is written into each item when asked to, then every item of the stored value is resolved, with the result and the new session those of `MultipleSpec`. Each resolved item is a stored row matching its item. A failure after a valid injection is a failure of `MultipleSpec`. Other fields of the body are untouched. |
| App.ProductCreator.CreateObject | app.py:106-125 | A field is processed as `Plan` decides, and only that field's entries of `data` and `objects` change. A failing decision fails the call. The call passes exactly when `FieldSpec` of the old body, objects and session does, and then the new body, objects and session are the ones `FieldSpec` gives. |
| App.ProductCreator.CreateObjects | app.py:100-125 | The loop processes every named field in order, each from the state the previous one left. The call passes exactly when `PhaseSpec` of the old state does, and then the new body, objects and session are the ones `PhaseSpec` gives. Fields not named are untouched, and only product-dependent values are rewritten. |
| App.ProductCreator.CreateObjectAt | app.py:106-125 | One turn of the loop: processing the next name extends `PhaseSpec` of the names so far by that field, or, when it fails, makes `PhaseSpec` of the whole phase fail. |
| App.PhaseSoFarComplete | app.py:106-125 | Once the loop has processed every name, what it has done is `PhaseSpec` of the whole phase. |
| App.PhaseFailureSticks | app.py:106-125 | Once a field of the phase raises, the fields after it change nothing: the whole phase raises. |
| App.PhaseSoFarFails | app.py:106-125 | A field that raises after the fields before it passed makes the whole phase raise. |
| App.ManyActionPasses | app.py:116-122 | A collection field whose items all resolve leaves the body with the value stored back, the items recorded, and the session `MultipleSpec` leaves. |
| App.ManyActionFails | app.py:116-122 | A collection field whose injection or resolution raises makes the step raise. |
| App.ProductCreator.CreateOne | app.py:123-125 | The scalar branch stores under the field the record resolved by name and changes no other resolved object. It passes exactly when `ActionSpec` of a lookup by name does, and leaves the objects and session that `ActionSpec` gives. |
| App.ProductCreator.CreateMany | app.py:116-122 | The collection branch stores the value back (with the product id written in when asked) and records the resolved items under the field. It passes exactly when `ActionSpec` does, and leaves the body, objects and session that `ActionSpec` gives. |
| App.PlanIsLocal | app.py:107-121 | The decision for a field depends only on that field's value and the product id, so processing order within a phase does not matter. |
| App.PlanInjectsProductId | app.py:118-120 | A product-dependent field resolved as a collection receives the base product's id. |
| App.ProductCreator.CreateBaseProduct | app.py:78-98 | Each base field takes the resolved record (single relation) or the body value. The product is stored and its id recorded under `product_id`. An unknown class raises. The call succeeds exactly when `ProductSpec` of the old state does, and then returns the product `ProductSpec` gives, with the objects and session it gives. |
| App.ProductCreator.BaseArguments | app.py:86-92 | The keyword loop succeeds exactly when every base field has an argument (a resolved single relation or a body value), and returns exactly those arguments. |
| App.ProductCreator.BuildProduct | app.py:131-139 | Renaming, the independent phase and the product, as `BuildSpec` of the request body and the old session: the call succeeds exactly when `BuildSpec` does, and then returns its product, body, objects and session. The product is stored, of the industry's class, built from the renamed body and the records resolved for its single relations, and its id is recorded. |
| App.ProductCreator.CreateDependents | app.py:140-147 | The product-dependent phase then the industry-dependent one, as `DependentsSpec` of the old state: the call passes exactly when `DependentsSpec` does, and then the body, objects and session are its. All three phases are as `Plan` decides from the renamed body (PhasesDone), every material carries the product's id, and what the product was built from is unchanged. |
| App.IndependentPhaseKeepsBody | app.py:135 | The independent phase leaves the renamed body unchanged: only product-dependent values are rewritten, and no independent field is one. |
| App.ProductDependentPhaseDone | app.py:138-141 | The product-dependent phase, started from what the independent phase left, decides as it would from the renamed body and the product id alone; the independent phase's outcome survives it. |
| App.IndustryPhaseDone | app.py:143-147 | The industry-dependent phase likewise decides as from the renamed body, and afterwards all three phases' outcomes hold together. |
| App.ProductDependentCarryId | app.py:118-121 | Every record created in the product-dependent phase has `product_id` equal to the product's id. |
| App.InjectedRowsCarryId | app.py:119-121 | Each record resolved from an injected mapping carries the product's id. |
| App.ProductCreator.LinkRelations | app.py:150-152 | Succeeds exactly when every relation holds a list of records, and then adds exactly their links, relation by relation, in order. The session's rows, committed rows and id counter are unchanged. |
| App.ProductCreator.CreateProductFromData | app.py:127-153 | Succeeds exactly when `CreateSpec` of the request body and the old session does. Then the product, body, objects and session are the ones `CreateSpec` gives, so the session committed is exactly the rows it creates. The product is stored, of the industry's class, and built from the renamed body and its resolved single relations. Every field of the three phases was processed as `Plan` decides from the renamed body (PhasesDone). Each relation of the fresh link list is extended with exactly its records, in order, and every material carries the product's id. On failure nothing is committed. |
| App.CreateSpecSteps | app.py:127-153 | Creation is the build, then the dependent phases, then the link check, then the commit: it fails when the dependents or the link check fail, and otherwise commits the dependents' session. |
| App.PostDecision | app.py:158-177 | Every rejection carries a message key that has a text, and a request goes on to creation only under a registered industry with a body. The order of the checks is stated by the AppProperties lemmas below. |
| App.Post | app.py:158-181 | A rejected request is answered with its message and changes nothing. An accepted one answers 201 exactly when `CreateSpec` of the body and the session succeeds. The session it leaves is then `CreateSpec`'s: the rows it created, committed. The committed links are the old ones plus the product's links, relation by relation. Otherwise it answers 500 with nothing committed. |
| App.NameSurvivesRenaming | app.py:72-76 | Renaming leaves the product's name in place, and the name is a plain base field. |
| AppProperties.RenamedMovesKeys | app.py:72-76 | `group` takes the group field's value and `materials` the bill of materials; both originals are gone; every other key and value is unchanged. |
| AppProperties.ValidatedBodyRenames | system_config.py:54-70 | A body that passed the field check renames without KeyError into exactly the canonical names, base fields included. |
| AppProperties.FalsyFieldSkipped | app.py:107 | An absent or falsy field is skipped. |
| AppProperties.FieldDecision | app.py:108-124 | A scalar is resolved by name. A list or mapping is resolved item by item. A product-dependent field accepts only a mapping, which receives the product id. |
| AppProperties.MaterialsReceiveProductId | app.py:118-121 | The food example's paprika entry becomes a filter on name, quantity, units and the product's id. |
| AppProperties.GroupRecordNamedAsSubmitted | app.py:106-125 | After the phases, a scalar group value of the renamed body is a stored group record named exactly as submitted. |
| AppProperties.MaterialsCarryProductId | app.py:116-122 | After the phases, a bill of materials given as a mapping is stored back with the product's id in every material, and each entry resolves to a stored material row matching the entry's columns. |
| AppProperties.UnknownKeyForbidden | app.py:158-161 | An unknown API key is refused with 403 whatever the body. |
| AppProperties.DuplicateReportedBeforeFieldCheck | app.py:167-170 | A reused product name is reported before the field check, even for a body with wrong fields. |
| AppProperties.MissingBodyRejected | app.py:163-166 | A known key without a JSON body is refused with 400 and the no-JSON message. |
| AppProperties.FieldMismatchRejected | app.py:168-177 | A body under a known key, whose name is free or falsy but whose fields are not exactly the industry's, is refused with 400 and the incorrect-data message. |
| AppProperties.NamesSharedAcrossIndustries | app.py:169 | Product names are checked across industries: a textiles body named like a stored food product is refused. |
| AppProperties.CreateOnlyForCompleteBodies | app.py:158-179 | Creation runs exactly when all four checks pass, and then renaming finds both fields it moves and every base field. |
| AppProperties.AsWrittenRelationsGrow | app.py:144-148 | As written, the shared relation list grows by the industry-dependent fields on every request. |
| AppProperties.FirstRequestAgrees | app.py:144-148 | The first request of a process walks the same list as the corrected model. |
| AppProperties.NoIndustryFieldsNoGrowth | app.py:145-148 | An industry without industry-dependent fields (textiles) never sees its list grow. |
| AppProperties.LinksForAppend | app.py:150-152 | Walking one more relation appends its links. |
| AppProperties.SecondFoodRequestRepeatsAllergens | app.py:144-148 | As written, the second food request walks [tags, materials, allergens, allergens]. |
| AppProperties.SecondFoodRequestLinksAllergensTwice | app.py:144-152 | As written, the second food request attaches every allergen to its product twice. |
| AppProperties.FreshNameCreated | utils.py:9-16 | A filter whose name no row of the table carries creates its row as the next one. |
| AppProperties.OneNameCreated | utils.py:21-39 | A list of one free name creates one row. |
| AppProperties.TwoNamesCreated | utils.py:21-39 | A list of two different free names creates two rows, in order. |
| AppProperties.TwoFieldItemsCreated | utils.py:21-39 | Two mapping items with different free names create two rows with their columns, in order. |
| AppProperties.ScalarFieldCreated | app.py:123-125 | A field holding a non-empty free name creates its record as the next row and records it under the field. |
| AppProperties.TwoNamesFieldCreated | app.py:116-122 | On an empty store, a list field of two different names creates both as rows 0 and 1 and records them under the field, in order. |
| AppProperties.IndependentPhaseCreated | app.py:135 | An independent phase of a name list and two scalar names, all free, creates their records in order, as rows 0 to 3 of an empty store. |
| AppProperties.ProductCreated | app.py:78-98 | A product whose name is free is created as the next row from its name and the references to its single relations, and its id is recorded. |
| AppProperties.InjectedFieldCreated | app.py:116-122 | A product-dependent mapping field gets the product id written into every value and records the rows those values create. |
| AppProperties.TwoEntriesInjected | app.py:118-120 | Writing the product id into a two-entry mapping gives two items, each its key as name plus its columns and the id. |
| AppProperties.ChorizoAccepted | app.py:158-179 | The tests' food body under the food key passes every check of the route on an empty store. |
| AppProperties.ChorizoBuilt | app.py:131-139 | For the tests' food body, the build creates the two tags, the group and the customer as rows 0 to 3, then the product as row 4. |
| AppProperties.ChorizoDependents | app.py:140-147 | For the tests' food body, the dependent phases create paprika and pork mince as rows 5 and 6, each carrying the product's id, then the allergen as row 7. |
| AppProperties.ChorizoLinked | app.py:150-152 | The food request's link phase attaches both tags, both materials and the allergen to the product, in that order. |
| AppProperties.ChorizoCreated | app.py:127-181 | POST of the tests' food body on an empty store goes on to creation, and creation succeeds. The product is the `Chorizo` row referring to its group and customer, the session commits exactly the eight expected rows, and the product's links are the five expected ones. With `App.Post` this is the 201 answer the food test expects. |

## Left out

- Flask plumbing is not modelled: the JSON encoder, app setup, database creation, request and response objects, and the GET listing branch (app.py:18-35, 182-188).
- App.Post: a request without the `X-API-KEY` header (Flask answers 400), and a JSON body that is not an object (`.get` raises, 500), are not modelled. The body is a parsed JSON object or absent.
- App.ProductCreator.InjectProductId: the source rewrites the items in place, so items before a non-mapping value stay rewritten. The model leaves `data` unchanged on that failure, since the request fails and its body is not used again.
- App.ProductCreator.CreateProductFromData: it requires an empty `objects` map, as after the constructor. The source calls it once per creator.
- App.ProductCreator.CleanseData: when the bill of materials is missing, the contract does not state the body. The source has already moved the group field by then, and the request fails either way.
- SQLAlchemy's savepoints and flush are not modelled. Flushed and pending rows are one sequence, visible to this request; commit copies it; the teardown discards the rest.
- Session ids: a created row takes the next id at once, where the database assigns it at flush. The model never reads an id before the flush.
- Column types are not modelled. JSON numbers are integers, so the material quantity (a FLOAT column, database/models/models.py:73) is an integer.
- ORM record shapes are not modelled. A record is its class and a map of column values. `database/models/models.py` is not part of this model beyond the unique name (line 12). As a result, a material row here may hold `quantity` and `product_id` columns, which `Material` (lines 40-46) does not declare.
- Utils.GetOrCreateSpec: MultipleResultsFound is modelled as the source raises it; with unique names it needs a filter without `name` (UtilsProperties.FilterWithoutNameFindsSeveral), which the orchestrator passes only through mapping items.
- Utils.ClassByTableName: `get_class_by_table_name` is not part of this model. The mapping stands for it.
- App.ProductCreator.CreateMany: `db_session.add_all` (app.py:122) raises on a `None` entry. The model keeps the `None` until the product is built or the relation is linked, which then fails. Either way the request answers 500 and the session is rolled back.
- A second product that reuses a material name under the same quantity and units raises NoResultFound and answers 500, because the material row carries the first product's id and the name is unique (UtilsProperties.SecondProductReusingMaterialRaises). The model states this behaviour and does not correct it: what the intended sharing of materials between products would be is not determined by the source.
- AppProperties.ChorizoCreated: ids come from one counter shared by all tables, where the database numbers each table from 1. The tests' listing therefore shows id 1 for the product, the group and the first tag, where the model has 4, 2 and 0. The columns, the references and the order of the rows are as the tests expect.
- Concurrent requests are not modelled beyond the single `race` row; the orchestrator passes `None`.

## Findings

| source | as written | input that shows it | evidently intended | confidence | as-written member | corrected member |
|---|---|---|---|---|---|---|
| utils.py:33-36 | `isinstance(data, str)` / `isinstance(data, dict)` check the whole `data`, not the item. A list of names yields only `None`s. A non-empty mapping passes a string key as `**item`, which raises TypeError. | tags `["spicy", "spanish"]`; bill of materials `{"paprika": {"quantity": 100, "units": "tablespoons"}}` | Check each item: a name resolves by name, as the documentation says for a list of names (utils.py:22-24); a mapping entry resolves by its value's columns under the entry's key as name, which the caller's writing of `product_id` into each value presumes (app.py:118-120) | not executed | UtilsProperties.AsWrittenMultiple, UtilsProperties.AsWrittenListYieldsNothing, UtilsProperties.AsWrittenMappingRaises | Utils.Session.GetOrCreateMultiple, UtilsProperties.NamesResolveInOrder, UtilsProperties.EntriesResolveInOrder |
| app.py:144-148 | `multi_relations` is the registry's own list, and `.extend` grows `PRODUCT_CONFIG[FOOD][MULTI_RELATIONS]` on every food request in the process. | two successive food POSTs: the second walks allergens twice and attaches each allergen twice | A fresh list of the multi relations plus the industry-dependent fields, the same on every request | not executed | AppProperties.AsWrittenRelations, AppProperties.SecondFoodRequestLinksAllergensTwice | SystemConfig.EffectiveRelations, App.ProductCreator.CreateProductFromData |
