/** The get-or-create primitive over an in-memory session. Records are rows of a
    record kind with a field map; every table has a unique `name` column, so no two
    rows of one table share a name. */
module Utils {
  import opened Wrappers
  import opened Json
  import opened SystemConfig

  /** The record classes the product-creation path creates. */
  datatype Kind = Tag | Group | Customer | Material | Allergen | FoodProduct | TextilesProduct

  /** The tables whose `name` column is unique; both product kinds share the product table. */
  datatype Table = TagTable | GroupTable | CustomerTable | MaterialTable | AllergenTable | ProductTable

  function TableOf(k: Kind): Table {
    match k
    case Tag => TagTable
    case Group => GroupTable
    case Customer => CustomerTable
    case Material => MaterialTable
    case Allergen => AllergenTable
    case FoodProduct | TextilesProduct => ProductTable
  }

  /** A fixed table-name-to-class mapping; an unknown table name has no class. */
  function ClassByTableName(tableName: string): Option<Kind> {
    if tableName == TAG then Some(Tag)
    else if tableName == GROUP then Some(Group)
    else if tableName == CUSTOMER then Some(Customer)
    else if tableName == MATERIAL then Some(Material)
    else if tableName == ALLERGEN then Some(Allergen)
    else if tableName == FOOD_PRODUCT then Some(FoodProduct)
    else if tableName == TEXTILES_PRODUCT then Some(TextilesProduct)
    else None
  }

  /** A column value: a JSON value from the request, or a reference to another row. */
  datatype Value = Raw(json: Json) | Ref(id: nat)

  type Fields = map<string, Value>

  datatype Row = Row(id: nat, kind: Kind, fields: Fields)

  /** A row of `kind` attached to a product's collection `relation`. */
  datatype Link = Link(productId: nat, relation: string, target: Row)

  /** What `query(...).one()` raises. */
  datatype DbError = NoResultFound | MultipleResultsFound

  /** The row get_or_create returns, and whether it was created. */
  datatype Found = Found(row: Row, created: bool)

  /** `filter_by(**filter)`: the row is of the kind and agrees with every filter field. */
  predicate Matches(r: Row, kind: Kind, filter: Fields) {
    r.kind == kind && forall k :: k in filter ==> k in r.fields && r.fields[k] == filter[k]
  }

  /** The rows `filter_by` selects, in store order. */
  function Matching(rows: seq<Row>, kind: Kind, filter: Fields): (r: seq<Row>)
    ensures |r| <= |rows|
    ensures forall x :: x in r <==> x in rows && Matches(x, kind, filter)
    ensures r == [] <==> forall x :: x in rows ==> !Matches(x, kind, filter)
  {
    if rows == [] then []
    else
      var rest := Matching(rows[1..], kind, filter);
      if Matches(rows[0], kind, filter) then [rows[0]] + rest else rest
  }

  /** `query(model).filter_by(**filter).one()` */
  function One(rows: seq<Row>, kind: Kind, filter: Fields): (r: Result<Row, DbError>)
    ensures r.Success? ==> r.value in rows && Matches(r.value, kind, filter)
    ensures r == Failure(NoResultFound) <==> forall x :: x in rows ==> !Matches(x, kind, filter)
  {
    var ms := Matching(rows, kind, filter);
    if |ms| == 1 then Success(ms[0])
    else if |ms| == 0 then Failure(NoResultFound)
    else
      assert ms[0] in ms;
      Failure(MultipleResultsFound)
  }

  /** Inserting a row of `kind` with `fields` would violate the table's unique name. */
  predicate NameTaken(rows: seq<Row>, kind: Kind, fields: Fields) {
    NAME in fields &&
    exists r :: r in rows && TableOf(r.kind) == TableOf(kind) && NAME in r.fields && r.fields[NAME] == fields[NAME]
  }

  predicate SameName(a: Row, b: Row) {
    TableOf(a.kind) == TableOf(b.kind) && NAME in a.fields && NAME in b.fields && a.fields[NAME] == b.fields[NAME]
  }

  /** The unique constraint on `name`: no two rows of one table share a name. */
  predicate NamesUnique(rows: seq<Row>) {
    forall i, j :: 0 <= i < j < |rows| ==> !SameName(rows[i], rows[j])
  }

  predicate IdsBelow(rows: seq<Row>, nextId: nat) {
    forall r :: r in rows ==> r.id < nextId
  }

  /** The session's rows (flushed and pending), the committed rows, and the next id. */
  datatype Db = Db(rows: seq<Row>, committed: seq<Row>, nextId: nat)

  predicate DbValid(db: Db) {
    && NamesUnique(db.rows)
    && NamesUnique(db.committed)
    && IdsBelow(db.rows, db.nextId)
    && IdsBelow(db.committed, db.nextId)
    && (forall r :: r in db.committed ==> r in db.rows)
  }

  /** A concurrent request commits a row of `kind` with fields `race` between the failed
      lookup and the insert; the database admits it only if its name is free. */
  function Interleave(db: Db, kind: Kind, race: Option<Fields>): Db {
    match race
    case None => db
    case Some(f) =>
      if NameTaken(db.rows, kind, f) then db
      else
        var r := Row(db.nextId, kind, f);
        Db(db.rows + [r], db.committed + [r], db.nextId + 1)
  }

  datatype Step = Step(result: Result<Found, DbError>, db: Db)

  /** get_or_create: look the row up; when none matches, insert one built from the filter
      inside a savepoint; when the insert violates the unique name, roll the savepoint
      back and look the row up again. A lookup that finds several rows raises. */
  function GetOrCreateSpec(db: Db, kind: Kind, filter: Fields, race: Option<Fields>): Step {
    match One(db.rows, kind, filter)
    case Success(r) => Step(Success(Found(r, false)), db)
    case Failure(MultipleResultsFound) => Step(Failure(MultipleResultsFound), db)
    case Failure(NoResultFound) =>
      var db1 := Interleave(db, kind, race);
      if !NameTaken(db1.rows, kind, filter) then
        var r := Row(db1.nextId, kind, filter);
        Step(Success(Found(r, true)), Db(db1.rows + [r], db1.committed, db1.nextId + 1))
      else
        match One(db1.rows, kind, filter)
        case Success(r) => Step(Success(Found(r, false)), db1)
        case Failure(e) => Step(Failure(e), db1)
  }

  /** One item of the data given to get_or_create_multiple. */
  datatype Item =
    | ByName(name: Json)     // a plain name
    | ByFields(kwargs: Fields) // a mapping of column values
    | NotAnItem              // anything else: no record, `None` in the output

  /** The column values a JSON object spells out; a repeated key keeps its last value. */
  function FieldsOf(entries: seq<Entry>): Fields {
    if entries == [] then map[]
    else
      var last := entries[|entries| - 1];
      FieldsOf(entries[..|entries| - 1])[last.key := Raw(last.value)]
  }

  /** An element of a list: a string is a name, an object spells out the columns. */
  function ElementItem(j: Json): Item {
    match j
    case JStr(_) => ByName(j)
    case JObject(entries) => ByFields(FieldsOf(entries))
    case _ => NotAnItem
  }

  /** An entry of a mapping such as the bill of materials: the key is the record's name and,
      when the value is an object, its entries are the other columns. */
  function EntryItem(e: Entry): Item {
    if e.value.JObject? then ByFields(FieldsOf(e.value.entries)[NAME := Raw(JStr(e.key))])
    else ByName(JStr(e.key))
  }

  /** What `for item in data` walks: a string's characters, a list's elements,
      a mapping's entries. */
  predicate Iterable(data: Json) {
    data.JStr? || data.JList? || data.JObject?
  }

  function ItemsOf(data: Json): seq<Item>
    requires Iterable(data)
  {
    match data
    case JStr(s) => seq(|s|, i requires 0 <= i < |s| => ByName(JStr([s[i]])))
    case JList(elements) => seq(|elements|, i requires 0 <= i < |elements| => ElementItem(elements[i]))
    case JObject(entries) => seq(|entries|, i requires 0 <= i < |entries| => EntryItem(entries[i]))
  }

  /** The filter get_or_create is called with for an item. */
  function ItemFilter(item: Item): Fields
    requires !item.NotAnItem?
  {
    match item
    case ByName(n) => map[NAME := Raw(n)]
    case ByFields(kwargs) => kwargs
  }

  /** One item of get_or_create_multiple: the outcome and the session after it. */
  datatype ItemStep = ItemStep(result: Result<Option<Row>, DbError>, db: Db)

  /** An item that is neither a name nor a mapping gives `None` and leaves the session
      alone; any other item is a sequential get_or_create with the item's filter. */
  function ItemSpec(db: Db, kind: Kind, item: Item): ItemStep {
    if item.NotAnItem? then ItemStep(Success(None), db)
    else
      var step := GetOrCreateSpec(db, kind, ItemFilter(item), None);
      match step.result
      case Success(found) => ItemStep(Success(Some(found.row)), step.db)
      case Failure(e) => ItemStep(Failure(e), step.db)
  }

  datatype ItemsStep = ItemsStep(result: Result<seq<Option<Row>>, DbError>, db: Db)

  /** get_or_create_multiple over `items`, in order: the first raising item ends the call
      with its error and the session as that item left it. */
  function MultipleSpec(db: Db, kind: Kind, items: seq<Item>): ItemsStep {
    if items == [] then ItemsStep(Success([]), db)
    else
      var prev := MultipleSpec(db, kind, items[..|items| - 1]);
      if prev.result.Failure? then prev
      else
        var step := ItemSpec(prev.db, kind, items[|items| - 1]);
        match step.result
        case Success(o) => ItemsStep(Success(prev.result.value + [o]), step.db)
        case Failure(e) => ItemsStep(Failure(e), step.db)
  }

  /** The output entry for an item is a stored row matching the item's filter, or `None`
      for an item that is neither a name nor a mapping. */
  predicate Resolves(o: Option<Row>, item: Item, kind: Kind, rows: seq<Row>) {
    if item.NotAnItem? then o.None?
    else o.Some? && o.value in rows && Matches(o.value, kind, ItemFilter(item))
  }

  predicate AllResolve(objs: seq<Option<Row>>, items: seq<Item>, kind: Kind, rows: seq<Row>) {
    |objs| == |items| && forall i :: 0 <= i < |objs| ==> Resolves(objs[i], items[i], kind, rows)
  }

  function LinksOf(productId: nat, relation: string, targets: seq<Row>): seq<Link> {
    seq(|targets|, i requires 0 <= i < |targets| => Link(productId, relation, targets[i]))
  }

  /** The database session: the rows visible to this request (flushed or pending), the
      committed rows, the collections attached to products, and the id counter. */
  class Session {
    var rows: seq<Row>
    var committed: seq<Row>
    var links: seq<Link>
    var committedLinks: seq<Link>
    var nextId: nat

    ghost function State(): Db
      reads this
    {
      Db(rows, committed, nextId)
    }

    ghost predicate Valid()
      reads this
    {
      DbValid(State())
    }

    constructor ()
      ensures Valid()
      ensures rows == [] && committed == [] && links == [] && committedLinks == []
    {
      rows, committed, links, committedLinks, nextId := [], [], [], [], 0;
    }

    /** get_or_create (utils.py). `race` is the row a concurrent request may commit
        between the lookup and the insert; sequential callers pass `None`. */
    method GetOrCreate(kind: Kind, filter: Fields, race: Option<Fields>) returns (res: Result<Found, DbError>)
      requires Valid()
      modifies this
      ensures Valid()
      ensures GetOrCreateSpec(old(State()), kind, filter, race) == Step(res, State())
      ensures res.Success? ==> res.value.row in rows && Matches(res.value.row, kind, filter)
      ensures old(rows) <= rows
      ensures race.None? ==> committed == old(committed)
      ensures links == old(links) && committedLinks == old(committedLinks)
    {
      ghost var db0 := State();
      GetOrCreateKeepsValid(db0, kind, filter, race);
      var found := One(rows, kind, filter);
      if found.Success? {
        return Success(Found(found.value, false));
      }
      if found.error == MultipleResultsFound {
        return Failure(MultipleResultsFound);
      }
      // A concurrent writer may commit between the lookup and the insert.
      if race.Some? && !NameTaken(rows, kind, race.value) {
        var other := Row(nextId, kind, race.value);
        rows, committed, nextId := rows + [other], committed + [other], nextId + 1;
      }
      assert State() == Interleave(db0, kind, race);
      if !NameTaken(rows, kind, filter) {
        var r := Row(nextId, kind, filter);
        rows, nextId := rows + [r], nextId + 1;
        return Success(Found(r, true));
      }
      // The insert violated the unique name: the savepoint is rolled back, query again.
      var again := One(rows, kind, filter);
      if again.Success? {
        res := Success(Found(again.value, false));
      } else {
        res := Failure(again.error);
      }
    }

    /** What the loop of GetOrCreateMultiple knows after its first i items. */
    ghost predicate MultipleSoFar(db0: Db, kind: Kind, items: seq<Item>, i: nat, objs: seq<Option<Row>>)
      reads this
      requires i <= |items|
    {
      AllResolve(objs, items[..i], kind, rows)
      && MultipleSpec(db0, kind, items[..i]) == ItemsStep(Success(objs), State())
    }

    /** One turn of the loop of GetOrCreateMultiple: resolves items[i]. */
    method GetOrCreateItemAt(kind: Kind, items: seq<Item>, i: nat, objs: seq<Option<Row>>, ghost db0: Db)
      returns (res: Result<seq<Option<Row>>, DbError>)
      requires Valid() && i < |items| && MultipleSoFar(db0, kind, items, i, objs)
      modifies this
      ensures Valid()
      ensures old(rows) <= rows
      ensures committed == old(committed)
      ensures links == old(links) && committedLinks == old(committedLinks)
      ensures res.Success? ==> MultipleSoFar(db0, kind, items, i + 1, res.value)
      ensures res.Failure? ==> MultipleSpec(db0, kind, items) == ItemsStep(res, State())
    {
      ghost var db1 := State();
      var obj := GetOrCreateItem(kind, items[i]);
      if obj.Failure? {
        MultipleSnoc(db0, kind, items, i, objs, db1);
        FailureEndsMultiple(db0, kind, items, i + 1);
        return Failure(obj.error);
      }
      MultipleStep(db0, kind, items, i, objs, db1, obj.value, State());
      return Success(objs + [obj.value]);
    }

    /** get_or_create_multiple (utils.py), deciding per ITEM whether it is a name or a
        mapping. The source checks `isinstance(data, ...)` instead, which returns `None`
        for every item of a list and raises on a mapping; see AsWrittenMultiple. */
    method GetOrCreateMultiple(kind: Kind, data: Json) returns (res: Result<seq<Option<Row>>, DbError>)
      requires Valid() && Iterable(data)
      modifies this
      ensures Valid()
      ensures old(rows) <= rows
      ensures committed == old(committed)
      ensures links == old(links) && committedLinks == old(committedLinks)
      ensures MultipleSpec(old(State()), kind, ItemsOf(data)) == ItemsStep(res, State())
      ensures res.Success? ==> AllResolve(res.value, ItemsOf(data), kind, rows)
    {
      ghost var db0 := State();
      var items := ItemsOf(data);
      var objs: seq<Option<Row>> := [];
      var i := 0;
      while i < |items|
        invariant 0 <= i <= |items|
        invariant Valid()
        invariant old(rows) <= rows
        invariant committed == old(committed)
        invariant links == old(links) && committedLinks == old(committedLinks)
        invariant MultipleSoFar(db0, kind, items, i, objs)
      {
        var r := GetOrCreateItemAt(kind, items, i, objs, db0);
        if r.Failure? {
          return r;
        }
        objs := r.value;
        i := i + 1;
      }
      assert items[..i] == items;
      return Success(objs);
    }

    /** The body of get_or_create_multiple's loop for one item. */
    method GetOrCreateItem(kind: Kind, item: Item) returns (res: Result<Option<Row>, DbError>)
      requires Valid()
      modifies this
      ensures Valid()
      ensures old(rows) <= rows
      ensures committed == old(committed)
      ensures links == old(links) && committedLinks == old(committedLinks)
      ensures ItemSpec(old(State()), kind, item) == ItemStep(res, State())
      ensures res.Success? ==> Resolves(res.value, item, kind, rows)
    {
      if item.NotAnItem? {
        return Success(None);
      }
      var r := GetOrCreate(kind, ItemFilter(item), None);
      if r.Failure? {
        return Failure(r.error);
      }
      return Success(Some(r.value.row));
    }

    /** Extending a product's collection `relation` with `targets`, in order. */
    method Extend(productId: nat, relation: string, targets: seq<Row>)
      modifies this
      ensures links == old(links) + LinksOf(productId, relation, targets)
      ensures rows == old(rows) && committed == old(committed) && nextId == old(nextId)
      ensures committedLinks == old(committedLinks)
    {
      var i := 0;
      while i < |targets|
        invariant 0 <= i <= |targets|
        invariant links == old(links) + LinksOf(productId, relation, targets[..i])
        invariant rows == old(rows) && committed == old(committed) && nextId == old(nextId)
        invariant committedLinks == old(committedLinks)
      {
        links := links + [Link(productId, relation, targets[i])];
        i := i + 1;
      }
      assert targets[..i] == targets;
    }

    /** `commit`: everything this request wrote becomes durable. */
    method Commit()
      requires Valid()
      modifies this
      ensures Valid()
      ensures committed == rows && committedLinks == links
      ensures rows == old(rows) && links == old(links) && nextId == old(nextId)
    {
      committed, committedLinks := rows, links;
    }

    /** Removing the session at teardown: whatever was not committed is discarded. */
    method Rollback()
      requires Valid()
      modifies this
      ensures Valid()
      ensures rows == old(committed) && links == old(committedLinks)
      ensures committed == old(committed) && committedLinks == old(committedLinks)
    {
      rows, links := committed, committedLinks;
    }
  }

  // Lemmas the session's methods rely on.

  /** Every table name of the registry resolves to a record class. */
  lemma EveryTableHasClass()
    ensures forall f :: f in TABLE_NAMES ==> ClassByTableName(TABLE_NAMES[f]).Some?
    ensures ClassByTableName(FOOD + "_product") == Some(FoodProduct)
    ensures ClassByTableName(TEXTILES + "_product") == Some(TextilesProduct)
  {
    assert FOOD + "_product" == FOOD_PRODUCT;
    assert TEXTILES + "_product" == TEXTILES_PRODUCT;
  }

  /** Under the unique name, a filter that fixes the name matches at most one row. */
  lemma {:induction false} AtMostOneMatch(rows: seq<Row>, kind: Kind, filter: Fields)
    requires NamesUnique(rows) && NAME in filter
    ensures |Matching(rows, kind, filter)| <= 1
  {
    if rows != [] {
      assert NamesUnique(rows[1..]) by {
        forall i, j | 0 <= i < j < |rows[1..]| ensures !SameName(rows[1..][i], rows[1..][j]) {
          assert rows[1..][i] == rows[i + 1] && rows[1..][j] == rows[j + 1];
        }
      }
      AtMostOneMatch(rows[1..], kind, filter);
      if Matches(rows[0], kind, filter) {
        forall x | x in rows[1..] ensures !Matches(x, kind, filter) {
          var j :| 0 <= j < |rows[1..]| && rows[1..][j] == x;
          assert rows[j + 1] == x;
          assert !SameName(rows[0], rows[j + 1]);
        }

      }
    }
  }

  /** Under the unique name, a stored row matching a filter that fixes the name is the
      one `one()` returns. */
  lemma UniqueMatch(rows: seq<Row>, kind: Kind, filter: Fields, r: Row)
    requires NamesUnique(rows) && NAME in filter
    requires r in rows && Matches(r, kind, filter)
    ensures One(rows, kind, filter) == Success(r)
  {
    AtMostOneMatch(rows, kind, filter);
    var ms := Matching(rows, kind, filter);
    assert r in ms;
  }

  /** A row whose name is free keeps the names unique. */
  lemma AppendFreeName(rows: seq<Row>, r: Row)
    requires NamesUnique(rows) && !NameTaken(rows, r.kind, r.fields)
    ensures NamesUnique(rows + [r])
  {
    var s := rows + [r];
    forall i, j | 0 <= i < j < |s| ensures !SameName(s[i], s[j]) {
      if j == |rows| {
        assert s[i] in rows;
      } else {
        assert s[i] == rows[i] && s[j] == rows[j];
      }
    }
  }

  /** Rows that are a prefix of a longer store are still in it. */
  lemma PrefixContains(a: seq<Row>, b: seq<Row>, r: Row)
    requires a <= b && r in a
    ensures r in b
  {
    var i :| 0 <= i < |a| && a[i] == r;
    assert b[i] == r;
  }

  lemma ResolvesGrow(objs: seq<Option<Row>>, items: seq<Item>, kind: Kind, a: seq<Row>, b: seq<Row>)
    requires AllResolve(objs, items, kind, a) && a <= b
    ensures AllResolve(objs, items, kind, b)
  {
    forall i | 0 <= i < |objs| ensures Resolves(objs[i], items[i], kind, b) {
      if objs[i].Some? { PrefixContains(a, b, objs[i].value); }
    }
  }

  /** get_or_create_multiple on one more item: resolving `items[i]` as ItemSpec does, after
      the first `i` items, extends what they resolved to. */
  lemma MultipleStep(db0: Db, kind: Kind, items: seq<Item>, i: nat, objs: seq<Option<Row>>, db1: Db, obj: Option<Row>, db2: Db)
    requires i < |items|
    requires AllResolve(objs, items[..i], kind, db1.rows)
    requires MultipleSpec(db0, kind, items[..i]) == ItemsStep(Success(objs), db1)
    requires db1.rows <= db2.rows && Resolves(obj, items[i], kind, db2.rows)
    requires ItemSpec(db1, kind, items[i]) == ItemStep(Success(obj), db2)
    ensures AllResolve(objs + [obj], items[..i + 1], kind, db2.rows)
    ensures MultipleSpec(db0, kind, items[..i + 1]) == ItemsStep(Success(objs + [obj]), db2)
  {
    MultipleSnoc(db0, kind, items, i, objs, db1);
    ResolvesGrow(objs, items[..i], kind, db1.rows, db2.rows);
    assert items[..i + 1] == items[..i] + [items[i]];
  }

  lemma MultipleSnoc(db: Db, kind: Kind, items: seq<Item>, i: nat, objs: seq<Option<Row>>, db1: Db)
    requires i < |items| && MultipleSpec(db, kind, items[..i]) == ItemsStep(Success(objs), db1)
    ensures var step := ItemSpec(db1, kind, items[i]);
            MultipleSpec(db, kind, items[..i + 1])
            == if step.result.Success? then ItemsStep(Success(objs + [step.result.value]), step.db)
               else ItemsStep(Failure(step.result.error), step.db)
  {
    assert items[..i + 1][..i] == items[..i];
  }

  /** Once an item raises, get_or_create_multiple stops: the later items change nothing. */
  lemma {:induction false} FailureEndsMultiple(db: Db, kind: Kind, items: seq<Item>, j: nat)
    requires j <= |items| && MultipleSpec(db, kind, items[..j]).result.Failure?
    ensures MultipleSpec(db, kind, items) == MultipleSpec(db, kind, items[..j])
    decreases |items| - j
  {
    if j < |items| {
      assert items[..j + 1][..j] == items[..j];
      FailureEndsMultiple(db, kind, items, j + 1);
    } else {
      assert items[..j] == items;
    }
  }

  /** A concurrent writer keeps the store valid. */
  lemma InterleaveKeepsValid(db: Db, kind: Kind, race: Option<Fields>)
    requires DbValid(db)
    ensures DbValid(Interleave(db, kind, race))
    ensures db.rows <= Interleave(db, kind, race).rows
    ensures db.nextId <= Interleave(db, kind, race).nextId
  {
    if race.Some? && !NameTaken(db.rows, kind, race.value) {
      var r := Row(db.nextId, kind, race.value);
      AppendFreeName(db.rows, r);
      assert !NameTaken(db.committed, kind, race.value);
      AppendFreeName(db.committed, r);
    }
  }

  /** No call of get_or_create leaves two rows of a table with the same name. */
  lemma GetOrCreateKeepsValid(db: Db, kind: Kind, filter: Fields, race: Option<Fields>)
    requires DbValid(db)
    ensures DbValid(GetOrCreateSpec(db, kind, filter, race).db)
    ensures db.rows <= GetOrCreateSpec(db, kind, filter, race).db.rows
  {
    if One(db.rows, kind, filter) == Failure(NoResultFound) {
      var db1 := Interleave(db, kind, race);
      InterleaveKeepsValid(db, kind, race);
      if !NameTaken(db1.rows, kind, filter) {
        AppendFreeName(db1.rows, Row(db1.nextId, kind, filter));
      }
    }
  }
}
