/** The registry: constant data saying, per industry API key, which JSON fields a request
    carries, how they are renamed, and in which phase each related record is created. */
module SystemConfig {
  import opened Wrappers

  // Industry API keys.
  const FOOD := "food"
  const TEXTILES := "textiles"
  const INDUSTRY_KEYS := [FOOD, TEXTILES]

  // Product field keys; some are also table names.
  const NAME := "name"
  const TAGS := "tags"
  const FAMILY := "family"
  const RANGE := "range"
  const CUSTOMER := "customer"
  const BILL_OF_MATERIALS := "billOfMaterials"
  const MATERIALS := "materials"
  const ALLERGENS := "allergens"
  const COLOUR := "colour"
  const GROUP := "group"

  // Singular table keys.
  const TAG := "tag"
  const ALLERGEN := "allergen"
  const MATERIAL := "material"
  const FOOD_PRODUCT := "food_product"
  const TEXTILES_PRODUCT := "textiles_product"

  /** The key under which the orchestrator keeps the base product's id among its resolved objects. */
  const PRODUCT_ID := "product_id"

  /** Canonical field name to the table name its records are stored under. */
  const TABLE_NAMES: map<string, string> := map[
    TAGS := TAG,
    GROUP := GROUP,
    CUSTOMER := CUSTOMER,
    MATERIALS := MATERIAL,
    ALLERGENS := ALLERGEN,
    FOOD_PRODUCT := FOOD_PRODUCT,
    TEXTILES_PRODUCT := TEXTILES_PRODUCT
  ]

  /** One industry's entry of the registry. `industryDependent` is `None` where the
      registry says `None`. */
  datatype IndustryConfig = IndustryConfig(
    allFields: seq<string>,         // every field of the request body, as it arrives
    baseFields: seq<string>,        // fields the product row itself is built from
    independent: seq<string>,       // records created before the product
    singleRelations: seq<string>,   // base fields that refer to an independent record
    productDependent: seq<string>,  // records that need the product's id
    industryDependent: Option<seq<string>>,
    productGroup: string,           // the industry's name for the group field
    multiRelations: seq<string>     // collections attached to the product at the end
  )

  const PRODUCT_CONFIG: map<string, IndustryConfig> := map[
    FOOD := IndustryConfig(
      [NAME, TAGS, FAMILY, CUSTOMER, BILL_OF_MATERIALS, ALLERGENS],
      [NAME, GROUP, CUSTOMER],
      [TAGS, GROUP, CUSTOMER],
      [GROUP, CUSTOMER],
      [MATERIALS],
      Some([ALLERGENS]),
      FAMILY,
      [TAGS, MATERIALS]),
    TEXTILES := IndustryConfig(
      [NAME, TAGS, RANGE, BILL_OF_MATERIALS, COLOUR],
      [NAME, GROUP, COLOUR],
      [TAGS, GROUP],
      [GROUP],
      [MATERIALS],
      None,
      RANGE,
      [TAGS, MATERIALS])
  ]

  // API message keys.
  const UNKNOWN_API_KEY := "unknown_api_key"
  const DUPLICATE_PRODUCT := "duplicate_product"
  const PRODUCT_CREATED := "product_created"
  const NO_JSON := "no_json"
  const INCORRECT_DATA := "incorrect_data"

  const MESSAGES: map<string, string> := map[
    UNKNOWN_API_KEY := "Unknown API key. Please check your API key.",
    DUPLICATE_PRODUCT := "Product already in database, use PUT or PATCH methods to amend.",
    PRODUCT_CREATED := "Product created",
    NO_JSON := "No JSON body supplied",
    INCORRECT_DATA := "Incorrect product data supplied."
  ]

  /** The message keys the products route answers with. */
  const ROUTE_MESSAGE_KEYS := [UNKNOWN_API_KEY, NO_JSON, DUPLICATE_PRODUCT, INCORRECT_DATA, PRODUCT_CREATED]

  /** The industry-dependent field list, empty where the registry has none. */
  function IndustryDependentFields(cfg: IndustryConfig): seq<string> {
    match cfg.industryDependent
    case None => []
    case Some(fields) => fields
  }

  /** The relations the link phase walks: the registry's list extended with the
      industry-dependent fields when the registry declares any. */
  function EffectiveRelations(cfg: IndustryConfig): (r: seq<string>)
    ensures forall f :: f in r <==> f in cfg.multiRelations || f in IndustryDependentFields(cfg)
  {
    cfg.multiRelations + IndustryDependentFields(cfg)
  }

  /** Whether `f` is a key of the body once the group field and the bill of materials
      are renamed to `group` and `materials`. */
  predicate IsCanonical(cfg: IndustryConfig, f: string) {
    (f in cfg.allFields && f != cfg.productGroup && f != BILL_OF_MATERIALS) || f == GROUP || f == MATERIALS
  }

  predicate NoDuplicates(s: seq<string>) {
    forall i, j :: 0 <= i < j < |s| ==> s[i] != s[j]
  }

  predicate Disjoint(a: seq<string>, b: seq<string>) {
    forall f :: f in a ==> f !in b
  }

  /** What the orchestrator relies on from a registry entry. */
  predicate WellFormed(cfg: IndustryConfig) {
    RenamesWellFormed(cfg) && RelationsWellFormed(cfg) && PhasesWellFormed(cfg)
  }

  /** Renaming after validation finds both fields it moves, moves them onto fresh keys,
      and leaves every base field a key of the renamed body. */
  predicate RenamesWellFormed(cfg: IndustryConfig) {
    && cfg.productGroup in cfg.allFields
    && BILL_OF_MATERIALS in cfg.allFields
    && cfg.productGroup != BILL_OF_MATERIALS
    && GROUP !in cfg.allFields
    && MATERIALS !in cfg.allFields
    && NAME in cfg.allFields
    && (forall f :: f in cfg.baseFields ==> IsCanonical(cfg, f))
  }

  /** Each single relation is resolved in the independent phase, before the product is
      built; every phase field has a table; every multi relation is produced by the
      independent or the product-dependent phase. */
  predicate RelationsWellFormed(cfg: IndustryConfig) {
    && (forall f :: f in cfg.singleRelations ==> f in cfg.independent && f in cfg.baseFields)
    && (forall f :: f in cfg.independent ==> f in TABLE_NAMES)
    && (forall f :: f in cfg.productDependent ==> f in TABLE_NAMES)
    && (forall f :: f in IndustryDependentFields(cfg) ==> f in TABLE_NAMES)
    && (forall f :: f in cfg.multiRelations ==> f in cfg.independent || f in cfg.productDependent)
  }

  /** The phases name each field once, never the product id slot, and the
      product-dependent phase never rewrites a base field. */
  predicate PhasesWellFormed(cfg: IndustryConfig) {
    && NoDuplicates(cfg.independent)
    && NoDuplicates(cfg.productDependent)
    && NoDuplicates(IndustryDependentFields(cfg))
    && NoDuplicates(EffectiveRelations(cfg))
    && Disjoint(cfg.independent, cfg.productDependent)
    && Disjoint(cfg.independent, IndustryDependentFields(cfg))
    && Disjoint(cfg.productDependent, IndustryDependentFields(cfg))
    && PRODUCT_ID !in cfg.independent
    && PRODUCT_ID !in cfg.productDependent
    && PRODUCT_ID !in IndustryDependentFields(cfg)
    && Disjoint(cfg.baseFields, cfg.productDependent)
  }

  // Well-formedness of the registry.

  /** The registry has an entry for exactly the industries whose API keys are recognised. */
  lemma IndustriesMatchKeys()
    ensures PRODUCT_CONFIG.Keys == set k | k in INDUSTRY_KEYS
    ensures PRODUCT_CONFIG.Keys == {FOOD, TEXTILES}
  {
  }

  /** Both registry entries satisfy everything the orchestrator relies on. */
  lemma RegistryWellFormed()
    ensures forall k :: k in PRODUCT_CONFIG ==> WellFormed(PRODUCT_CONFIG[k])
  {
    RegistryRenamesWellFormed();
    RegistryRelationsWellFormed();
    RegistryPhasesWellFormed();
  }

  lemma RegistryRenamesWellFormed()
    ensures RenamesWellFormed(PRODUCT_CONFIG[FOOD]) && RenamesWellFormed(PRODUCT_CONFIG[TEXTILES])
  {
  }

  lemma RegistryRelationsWellFormed()
    ensures RelationsWellFormed(PRODUCT_CONFIG[FOOD]) && RelationsWellFormed(PRODUCT_CONFIG[TEXTILES])
  {
    assert IndustryDependentFields(PRODUCT_CONFIG[FOOD]) == [ALLERGENS];
    assert IndustryDependentFields(PRODUCT_CONFIG[TEXTILES]) == [];
  }

  lemma RegistryPhasesWellFormed()
    ensures PhasesWellFormed(PRODUCT_CONFIG[FOOD]) && PhasesWellFormed(PRODUCT_CONFIG[TEXTILES])
  {
    assert EffectiveRelations(PRODUCT_CONFIG[FOOD]) == [TAGS, MATERIALS, ALLERGENS];
    assert EffectiveRelations(PRODUCT_CONFIG[TEXTILES]) == [TAGS, MATERIALS];
  }

  /** Food links tags, materials and allergens to the product; textiles, having no
      industry-dependent fields, links tags and materials. */
  lemma EffectiveRelationsPerIndustry()
    ensures IndustryDependentFields(PRODUCT_CONFIG[FOOD]) == [ALLERGENS]
    ensures PRODUCT_CONFIG[TEXTILES].industryDependent == None
    ensures EffectiveRelations(PRODUCT_CONFIG[FOOD]) == [TAGS, MATERIALS, ALLERGENS]
    ensures EffectiveRelations(PRODUCT_CONFIG[TEXTILES]) == [TAGS, MATERIALS]
  {
  }

  /** Every message the products route answers with has a text. */
  lemma MessagesComplete()
    ensures forall k :: k in ROUTE_MESSAGE_KEYS ==> k in MESSAGES
  {
  }
}
