/** What get_or_create and get_or_create_multiple promise, proved about their
    specification. */
module UtilsProperties {
  import opened Wrappers
  import opened Json
  import opened SystemConfig
  import opened Utils

  /** A stored row matching a filter that fixes the name is returned with
      `created == false`, and the store is left as it was. */
  lemma ExistingRowIsReturned(db: Db, kind: Kind, filter: Fields, race: Option<Fields>, r: Row)
    requires DbValid(db) && NAME in filter
    requires r in db.rows && Matches(r, kind, filter)
    ensures GetOrCreateSpec(db, kind, filter, race) == Step(Success(Found(r, false)), db)
  {
    UniqueMatch(db.rows, kind, filter, r);
  }

  /** With no matching row and the name free, exactly one new row, built from the filter
      fields and not stored before, is added and returned with `created == true`. */
  lemma MissingRowIsCreated(db: Db, kind: Kind, filter: Fields)
    requires DbValid(db)
    requires forall x :: x in db.rows ==> !Matches(x, kind, filter)
    requires !NameTaken(db.rows, kind, filter)
    ensures var step := GetOrCreateSpec(db, kind, filter, None);
            var r := Row(db.nextId, kind, filter);
            && step.result == Success(Found(r, true))
            && r.fields == filter && r !in db.rows
            && step.db.rows == db.rows + [r]
            && step.db.committed == db.committed
  {
  }

  /** Found versus created: a sequential call reports `created` exactly when the store
      grew, and then by the returned row alone; otherwise the store is unchanged. */
  lemma CreatedIffStoreGrows(db: Db, kind: Kind, filter: Fields)
    requires DbValid(db)
    ensures var step := GetOrCreateSpec(db, kind, filter, None);
            && (step.result.Success? && step.result.value.created ==>
                  step.db.rows == db.rows + [step.result.value.row] && step.result.value.row !in db.rows)
            && (!(step.result.Success? && step.result.value.created) ==> step.db == db)
  {
  }

  /** The returned row always satisfies the filter and is in the store afterwards. */
  lemma ResultSatisfiesFilter(db: Db, kind: Kind, filter: Fields, race: Option<Fields>)
    ensures var step := GetOrCreateSpec(db, kind, filter, race);
            step.result.Success? ==>
              step.result.value.row in step.db.rows && Matches(step.result.value.row, kind, filter)
  {
  }

  /** Idempotence: calling again with the same filter returns the same row with
      `created == false` and leaves the store as the first call left it. */
  lemma GetOrCreateIdempotent(db: Db, kind: Kind, filter: Fields, race: Option<Fields>)
    requires DbValid(db) && NAME in filter
    requires GetOrCreateSpec(db, kind, filter, race).result.Success?
    ensures var first := GetOrCreateSpec(db, kind, filter, race);
            GetOrCreateSpec(first.db, kind, filter, None) == Step(Success(Found(first.result.value.row, false)), first.db)
  {
    var first := GetOrCreateSpec(db, kind, filter, race);
    GetOrCreateKeepsValid(db, kind, filter, race);
    ExistingRowIsReturned(first.db, kind, filter, None, first.result.value.row);
  }

  /** No sequence of calls leaves two rows of a table with the same name. */
  lemma {:induction false} CallsKeepNamesUnique(db: Db, calls: seq<(Kind, Fields, Option<Fields>)>)
    requires DbValid(db)
    ensures NamesUnique(Replay(db, calls).rows)
    ensures DbValid(Replay(db, calls))
    decreases calls
  {
    if calls != [] {
      var (kind, filter, race) := calls[0];
      GetOrCreateKeepsValid(db, kind, filter, race);
      CallsKeepNamesUnique(GetOrCreateSpec(db, kind, filter, race).db, calls[1..]);
    }
  }

  /** The store after a sequence of get_or_create calls. */
  function Replay(db: Db, calls: seq<(Kind, Fields, Option<Fields>)>): Db
    decreases calls
  {
    if calls == [] then db
    else
      var (kind, filter, race) := calls[0];
      Replay(GetOrCreateSpec(db, kind, filter, race).db, calls[1..])
  }

  /** A lost race converges: when a concurrent request commits the same row between the
      lookup and the insert, the insert violates the unique name and the re-query
      returns the winner's row with `created == false`; it is the only row of that name. */
  lemma LostRaceReturnsWinner(db: Db, kind: Kind, filter: Fields)
    requires DbValid(db) && NAME in filter
    requires !NameTaken(db.rows, kind, filter)
    ensures var step := GetOrCreateSpec(db, kind, filter, Some(filter));
            var winner := Row(db.nextId, kind, filter);
            && step.result == Success(Found(winner, false))
            && step.db.rows == db.rows + [winner]
            && step.db.committed == db.committed + [winner]
            && forall x :: (x in step.db.rows && TableOf(x.kind) == TableOf(kind) && NAME in x.fields
                            && x.fields[NAME] == filter[NAME]) ==> x == winner
  {
    var winner := Row(db.nextId, kind, filter);
    var db1 := Interleave(db, kind, Some(filter));
    assert db1.rows == db.rows + [winner];
    assert winner in db1.rows;
    InterleaveKeepsValid(db, kind, Some(filter));
    UniqueMatch(db1.rows, kind, filter, winner);
  }

  /** In a sequential call the fallback re-query sees what the first lookup saw: when the
      name is taken by a row that does not match the whole filter, the call raises
      NoResultFound and the store is unchanged. */
  lemma TakenNameWithoutMatchRaises(db: Db, kind: Kind, filter: Fields)
    requires forall x :: x in db.rows ==> !Matches(x, kind, filter)
    requires NameTaken(db.rows, kind, filter)
    ensures GetOrCreateSpec(db, kind, filter, None) == Step(Failure(NoResultFound), db)
  {
  }

  /** A material is stored once under its name. A second product whose bill of materials
      lists "paprika" in the same quantity and units carries its own product id, so no row
      matches the whole filter, the insert is refused by the unique name, and the lookup
      after the rollback raises. */
  lemma SecondProductReusingMaterialRaises(first: nat, second: nat, nextId: nat)
    requires first != second
    ensures var paprika := (id: nat) => map["quantity" := Raw(JNum(100)), "units" := Raw(JStr("tablespoons")),
                                            PRODUCT_ID := Raw(JNum(id)), NAME := Raw(JStr("paprika"))];
            var db := Db([Row(0, Material, paprika(first))], [Row(0, Material, paprika(first))], nextId);
            GetOrCreateSpec(db, Material, paprika(second), None) == Step(Failure(NoResultFound), db)
  {
    var paprika := (id: nat) => map["quantity" := Raw(JNum(100)), "units" := Raw(JStr("tablespoons")),
                                     PRODUCT_ID := Raw(JNum(id)), NAME := Raw(JStr("paprika"))];
    var stored := Row(0, Material, paprika(first));
    var db := Db([stored], [stored], nextId);
    assert stored.fields[PRODUCT_ID] != paprika(second)[PRODUCT_ID];
    assert stored in db.rows;
    TakenNameWithoutMatchRaises(db, Material, paprika(second));
  }

  /** A filter without `name` is not bound by the unique names: two tags of different
      names with the same other column make the lookup raise MultipleResultsFound. */
  lemma FilterWithoutNameFindsSeveral(v: Json)
    ensures var a := Row(0, Tag, map[NAME := Raw(JStr("a")), "x" := Raw(v)]);
            var b := Row(1, Tag, map[NAME := Raw(JStr("b")), "x" := Raw(v)]);
            var db := Db([a, b], [a, b], 2);
            && DbValid(db)
            && GetOrCreateSpec(db, Tag, map["x" := Raw(v)], None) == Step(Failure(MultipleResultsFound), db)
  {
    var a := Row(0, Tag, map[NAME := Raw(JStr("a")), "x" := Raw(v)]);
    var b := Row(1, Tag, map[NAME := Raw(JStr("b")), "x" := Raw(v)]);
    assert Matching([a, b], Tag, map["x" := Raw(v)]) == [a, b];
  }

  // JSON dictionaries as column values.

  /** The fields of an object with one more entry at the end. */
  lemma FieldsOfSnoc(entries: seq<Entry>, e: Entry)
    ensures FieldsOf(entries + [e]) == FieldsOf(entries)[e.key := Raw(e.value)]
  {
    assert (entries + [e])[..|entries|] == entries;
  }

  lemma HasKeyOfInit(entries: seq<Entry>, k: string)
    requires entries != []
    ensures HasKey(entries, k) <==> HasKey(entries[..|entries| - 1], k) || entries[|entries| - 1].key == k
  {
    var init := entries[..|entries| - 1];
    if HasKey(entries, k) && entries[|entries| - 1].key != k {
      var i :| 0 <= i < |entries| && entries[i].key == k;
      assert init[i].key == k;
    }
    if HasKey(init, k) {
      var i :| 0 <= i < |init| && init[i].key == k;
      assert entries[i].key == k;
    }
  }

  /** The columns a JSON object spells out are exactly its keys. */
  lemma {:induction false} FieldsOfKeys(entries: seq<Entry>)
    ensures forall k :: k in FieldsOf(entries) <==> HasKey(entries, k)
  {
    if entries != [] {
      var init := entries[..|entries| - 1];
      FieldsOfKeys(init);
      forall k ensures HasKey(entries, k) <==> HasKey(init, k) || entries[|entries| - 1].key == k {
        HasKeyOfInit(entries, k);
      }
    }
  }

  /** `d[k] = v` on a JSON object sets exactly column `k` of the fields it spells out. */
  lemma FieldsOfSetKey(entries: seq<Entry>, k: string, v: Json)
    ensures FieldsOf(SetKey(entries, k, v)) == FieldsOf(entries)[k := Raw(v)]
  {
    FieldsOfSnoc(entries, Entry(k, v));
  }

  // get_or_create_multiple.

  /** Per item, a list of names resolves to one stored row per name, in input order,
      each carrying that name. */
  lemma NamesResolveInOrder(objs: seq<Option<Row>>, data: Json, kind: Kind, rows: seq<Row>)
    requires data.JList? && forall j :: j in data.items ==> j.JStr?
    requires AllResolve(objs, ItemsOf(data), kind, rows)
    ensures |objs| == |data.items|
    ensures forall i :: 0 <= i < |objs| ==>
              objs[i].Some? && objs[i].value in rows && objs[i].value.kind == kind
              && NAME in objs[i].value.fields && objs[i].value.fields[NAME] == Raw(data.items[i])
  {
    forall i | 0 <= i < |objs|
      ensures objs[i].Some? && objs[i].value in rows && objs[i].value.kind == kind
              && NAME in objs[i].value.fields && objs[i].value.fields[NAME] == Raw(data.items[i])
    {
      assert data.items[i] in data.items;
      assert ItemsOf(data)[i] == ByName(data.items[i]);
      assert Resolves(objs[i], ItemsOf(data)[i], kind, rows);
      assert NAME in ItemFilter(ItemsOf(data)[i]);
    }
  }

  /** Per item, a mapping of name to column values resolves to one stored row per entry,
      in input order, named by the entry's key and agreeing with every column it gives. */
  lemma EntriesResolveInOrder(objs: seq<Option<Row>>, data: Json, kind: Kind, rows: seq<Row>)
    requires data.JObject? && forall e :: e in data.entries ==> e.value.JObject?
    requires AllResolve(objs, ItemsOf(data), kind, rows)
    ensures |objs| == |data.entries|
    ensures forall i :: 0 <= i < |objs| ==>
              objs[i].Some? && objs[i].value in rows && objs[i].value.kind == kind
              && Matches(objs[i].value, kind, FieldsOf(data.entries[i].value.entries)[NAME := Raw(JStr(data.entries[i].key))])
  {
    forall i | 0 <= i < |objs|
      ensures objs[i].Some? && objs[i].value in rows && objs[i].value.kind == kind
              && Matches(objs[i].value, kind, FieldsOf(data.entries[i].value.entries)[NAME := Raw(JStr(data.entries[i].key))])
    {
      assert data.entries[i] in data.entries;
      assert Resolves(objs[i], ItemsOf(data)[i], kind, rows);
    }
  }

  /** What get_or_create_multiple does as written (utils.py:30-39): it asks whether
      `data`, not the item, is a string or a mapping. A list is neither, so every item
      yields `None` and nothing is looked up; a non-empty mapping passes its first key
      (a string) as `**item`, which raises a TypeError. */
  datatype AsWrittenOutcome = Objects(objs: seq<Option<Row>>) | TypeErrorRaised

  function AsWrittenMultiple(data: Json): AsWrittenOutcome
    requires IsCollection(data)
  {
    match data
    case JList(items) => Objects(seq(|items|, i => None))
    case JObject(entries) => if entries == [] then Objects([]) else TypeErrorRaised
  }

  /** As written, a list of names such as the tags ["spicy", "spanish"] resolves to no
      record at all, while the per-item version resolves each name to a stored row. */
  lemma AsWrittenListYieldsNothing(names: seq<string>)
    ensures var data := JList(seq(|names|, i requires 0 <= i < |names| => JStr(names[i])));
            && AsWrittenMultiple(data) == Objects(seq(|names|, i => None))
            && forall i :: 0 <= i < |names| ==> ItemsOf(data)[i] == ByName(JStr(names[i]))
  {
  }

  /** As written, the bill of materials of the food example raises, while the per-item
      version turns its entry into a filter on name, quantity and units. */
  lemma AsWrittenMappingRaises()
    ensures var paprika := JObject([Entry("quantity", JNum(100)), Entry("units", JStr("tablespoons"))]);
            var bom := JObject([Entry("paprika", paprika)]);
            && AsWrittenMultiple(bom) == TypeErrorRaised
            && ItemsOf(bom) == [ByFields(map["quantity" := Raw(JNum(100)), "units" := Raw(JStr("tablespoons")), NAME := Raw(JStr("paprika"))])]
  {
    var paprika := [Entry("quantity", JNum(100)), Entry("units", JStr("tablespoons"))];
    FieldsOfSnoc([Entry("quantity", JNum(100))], Entry("units", JStr("tablespoons")));
    FieldsOfSnoc([], Entry("quantity", JNum(100)));
    assert [Entry("quantity", JNum(100))] + [Entry("units", JStr("tablespoons"))] == paprika;
    var bom := JObject([Entry("paprika", JObject(paprika))]);
    assert ItemsOf(bom)[0] == EntryItem(Entry("paprika", JObject(paprika)));
  }
}
