/** Shaping a tool result never adds, drops, changes or reorders a money fact. */
module PresentationTheorems {
  import opened Prelude
  import opened Presentation

  // ---------------------------------------------------------------- documents

  predicate DistinctKeys(fields: Fields) {
    fields.Field? ==> !Has(fields.rest, fields.key) && DistinctKeys(fields.rest)
  }

  /** Every object in the tree has distinct keys. */
  predicate Document(v: Json)
    decreases v
  {
    match v
    case Obj(fields) => DistinctKeys(fields) && FieldsDocument(fields)
    case Arr(items) => ItemsDocument(items)
    case _ => true
  }

  predicate FieldsDocument(fields: Fields)
    decreases fields
  {
    fields.Field? ==> Document(fields.value) && FieldsDocument(fields.rest)
  }

  predicate ItemsDocument(items: Items)
    decreases items
  {
    items.Item? ==> Document(items.head) && ItemsDocument(items.tail)
  }

  lemma {:induction false} PutKeys(fields: Fields, key: string, value: Json)
    requires DistinctKeys(fields)
    ensures DistinctKeys(Put(fields, key, value))
    ensures forall k :: Has(Put(fields, key, value), k) <==> Has(fields, k) || k == key
    ensures At(Put(fields, key, value), key) == value
    ensures forall k :: k != key ==> At(Put(fields, key, value), k) == At(fields, k)
  {
    if fields.Field? && fields.key != key { PutKeys(fields.rest, key, value); }
  }

  lemma {:induction false} PutDocument(fields: Fields, key: string, value: Json)
    requires FieldsDocument(fields) && Document(value)
    ensures FieldsDocument(Put(fields, key, value))
  {
    if fields.Field? && fields.key != key { PutDocument(fields.rest, key, value); }
  }

  // ---------------------------------------------------------------- facts of one field

  function OneField(key: string, value: Json, path: string): seq<Fact> {
    if IsMoney(key, value) then [Fact(Joined(path, key), value.value)]
    else if key != "money_display" then MoneyFacts(value, Joined(path, key))
    else []
  }

  lemma {:induction false} PutNew(fields: Fields, key: string, value: Json, path: string)
    requires !Has(fields, key)
    ensures FieldFacts(Put(fields, key, value), path) == FieldFacts(fields, path) + OneField(key, value, path)
  {
    if fields.Field? { PutNew(fields.rest, key, value, path); }
  }

  /** A field without money facts over one without, or over none, changes no facts. */
  lemma {:induction false} PutQuiet(fields: Fields, key: string, value: Json, path: string)
    requires OneField(key, value, path) == []
    requires Has(fields, key) ==> OneField(key, At(fields, key), path) == []
    ensures FieldFacts(Put(fields, key, value), path) == FieldFacts(fields, path)
  {
    if fields.Field? && fields.key != key { PutQuiet(fields.rest, key, value, path); }
  }

  predicate Quiet(v: Json) {
    v.Null? || v.Bool? || v.Float? || v.Str?
  }

  /** What the result so far holds beside the object's own keys carries no money. */
  ghost predicate OnlyQuietExtras(done: Fields, all: Fields) {
    forall k :: Has(done, k) && !Has(all, k) ==> Quiet(At(done, k))
  }

  ghost predicate Ahead(fields: Fields, all: Fields, done: Fields) {
    DistinctKeys(done) && (forall k :: Has(fields, k) ==> Has(all, k) && !Has(done, k)) && OnlyQuietExtras(done, all)
  }

  lemma PutOwn(fields: Fields, all: Fields, done: Fields, key: string, value: Json, path: string)
    requires Ahead(fields, all, done) && fields.Field? && fields.key == key && !Has(fields.rest, key)
    ensures Ahead(fields.rest, all, Put(done, key, value))
    ensures FieldFacts(Put(done, key, value), path) == FieldFacts(done, path) + OneField(key, value, path)
  {
    PutKeys(done, key, value);
    PutNew(done, key, value, path);
  }

  lemma PutExtra(fields: Fields, all: Fields, done: Fields, key: string, value: Json, path: string)
    requires Ahead(fields, all, done) && !Has(all, key) && Quiet(value)
    ensures Ahead(fields, all, Put(done, key, value))
    ensures FieldFacts(Put(done, key, value), path) == FieldFacts(done, path)
  {
    PutKeys(done, key, value);
    PutQuiet(done, key, value, path);
  }

  // ---------------------------------------------------------------- supplier names

  lemma {:induction false} NamesKeepMoney(v: Json, naming: Naming, path: string)
    ensures MoneyFacts(SupplierNamesIn(v, naming), path) == MoneyFacts(v, path)
    ensures v.Int? ==> SupplierNamesIn(v, naming) == v
    ensures SupplierNamesIn(v, naming).Int? ==> v.Int?
    decreases v, 0
  {
    match v
    case Obj(fields) => NamesKeepObject(fields, naming, path);
    case Arr(items) => NamesKeepItems(items, naming, path, 0);
    case _ =>
  }

  lemma {:induction false} NamesKeepObject(fields: Fields, naming: Naming, path: string)
    ensures MoneyFacts(SupplierNamesIn(Obj(fields), naming), path) == FieldFacts(fields, path)
    decreases fields, 1
  {
    NamesKeepFields(fields, naming, path);
    NamesKeepKeys(fields, naming, "supplier_name");
    var result, supplier := SupplierFields(fields, naming), At(fields, "supplier_id");
    if supplier.Str? && supplier.text in naming.names && !Truthy(At(fields, "supplier_name")) {
      FalsyQuiet(At(fields, "supplier_name"), naming, path);
      PutQuiet(result, "supplier_name", Str(naming.names[supplier.text]), path);
    }
  }

  lemma FalsyQuiet(v: Json, naming: Naming, path: string)
    requires !Truthy(v)
    ensures OneField("supplier_name", SupplierNamesIn(v, naming), path) == []
  {
    assert "supplier_name"[7..] == "r_name";
    assert !EndsWith("supplier_name", "_minor");
  }

  lemma {:induction false} NamesKeepFields(fields: Fields, naming: Naming, path: string)
    ensures FieldFacts(SupplierFields(fields, naming), path) == FieldFacts(fields, path)
    decreases fields, 0
  {
    if fields.Field? {
      NamesKeepMoney(fields.value, naming, Joined(path, fields.key));
      NamesKeepFields(fields.rest, naming, path);
    }
  }

  lemma {:induction false} NamesKeepKeys(fields: Fields, naming: Naming, key: string)
    ensures Has(SupplierFields(fields, naming), key) <==> Has(fields, key)
    ensures At(SupplierFields(fields, naming), key) == SupplierNamesIn(At(fields, key), naming)
    decreases fields
  {
    if fields.Field? { NamesKeepKeys(fields.rest, naming, key); }
  }

  lemma {:induction false} NamesKeepItems(items: Items, naming: Naming, path: string, index: nat)
    ensures ItemFacts(SupplierItems(items, naming), path, index) == ItemFacts(items, path, index)
    decreases items, 0
  {
    if items.Item? {
      NamesKeepMoney(items.head, naming, path + "[" + Digits(index) + "]");
      NamesKeepItems(items.tail, naming, path, index + 1);
    }
  }

  lemma {:induction false} NamesKeepDocument(v: Json, naming: Naming)
    requires Document(v)
    ensures Document(SupplierNamesIn(v, naming))
    decreases v
  {
    match v
    case Obj(fields) =>
      NamesKeepFieldsDocument(fields, naming);
      var result, supplier := SupplierFields(fields, naming), At(fields, "supplier_id");
      if supplier.Str? && supplier.text in naming.names && !Truthy(At(fields, "supplier_name")) {
        PutKeys(result, "supplier_name", Str(naming.names[supplier.text]));
        PutDocument(result, "supplier_name", Str(naming.names[supplier.text]));
      }
    case Arr(items) => NamesKeepItemsDocument(items, naming);
    case _ =>
  }

  lemma {:induction false} NamesKeepFieldsDocument(fields: Fields, naming: Naming)
    requires DistinctKeys(fields) && FieldsDocument(fields)
    ensures DistinctKeys(SupplierFields(fields, naming)) && FieldsDocument(SupplierFields(fields, naming))
    decreases fields
  {
    if fields.Field? {
      NamesKeepDocument(fields.value, naming);
      NamesKeepFieldsDocument(fields.rest, naming);
      NamesKeepKeys(fields.rest, naming, fields.key);
    }
  }

  lemma {:induction false} NamesKeepItemsDocument(items: Items, naming: Naming)
    requires ItemsDocument(items)
    ensures ItemsDocument(SupplierItems(items, naming))
    decreases items
  {
    if items.Item? {
      NamesKeepDocument(items.head, naming);
      NamesKeepItemsDocument(items.tail, naming);
    }
  }

  // ---------------------------------------------------------------- deadline verdicts

  lemma {:induction false} VerdictsKeepMoney(v: Json, now: Option<int>, calendar: Calendar, path: string)
    requires Document(v)
    ensures MoneyFacts(DeadlineVerdicts(v, now, calendar), path) == MoneyFacts(v, path)
    ensures v.Int? ==> DeadlineVerdicts(v, now, calendar) == v
    ensures DeadlineVerdicts(v, now, calendar).Int? ==> v.Int?
    ensures Document(DeadlineVerdicts(v, now, calendar))
    decreases v
  {
    match v
    case Obj(fields) => VerdictsKeepFields(fields, fields, NoField, now, calendar, path);
    case Arr(items) => VerdictsKeepItems(items, now, calendar, path, 0);
    case _ =>
  }

  lemma JudgedKeeps(fields: Fields, all: Fields, done: Fields, now: Option<int>, calendar: Calendar, path: string)
    requires fields.Field? && Ahead(fields, all, done) && FieldsDocument(done)
      && Deadline(fields.key, fields.value, calendar)
    ensures var next := Judged(done, all, fields.key, fields.value.text, now, calendar);
      Ahead(fields.rest, all, next) && FieldsDocument(next) && FieldFacts(next, path) == FieldFacts(done, path)
  {
    var verdict := Verdict(fields.key);
    if now.Some? && verdict.Some? && !Has(all, verdict.value) {
      var flag := Bool(calendar.instant(fields.value.text).value <= now.value);
      PutExtra(fields.rest, all, done, verdict.value, flag, path);
      PutDocument(done, verdict.value, flag);
    }
  }

  /** The facts of the object so far and of what is still to be read. */
  ghost predicate Carried(result: Fields, done: Fields, fields: Fields, path: string) {
    FieldFacts(result, path) == FieldFacts(done, path) + FieldFacts(fields, path)
  }

  lemma Regroup(result: seq<Fact>, done: seq<Fact>, next: seq<Fact>, one: seq<Fact>, tail: seq<Fact>)
    requires result == next + tail && next == done + one
    ensures result == done + (one + tail)
  {
  }

  lemma Unfolded(fields: Fields, path: string)
    requires fields.Field?
    ensures FieldFacts(fields, path) == OneField(fields.key, fields.value, path) + FieldFacts(fields.rest, path)
  {
  }

  lemma CarriedBy(result: Fields, done: Fields, next: Fields, fields: Fields, path: string)
    requires fields.Field? && Carried(result, next, fields.rest, path)
    requires FieldFacts(next, path) == FieldFacts(done, path) + OneField(fields.key, fields.value, path)
    ensures Carried(result, done, fields, path)
  {
    Unfolded(fields, path);
    Regroup(FieldFacts(result, path), FieldFacts(done, path), FieldFacts(next, path),
            OneField(fields.key, fields.value, path), FieldFacts(fields.rest, path));
  }

  lemma {:induction false} VerdictsKeepFields(fields: Fields, all: Fields, done: Fields, now: Option<int>,
                                              calendar: Calendar, path: string)
    requires DistinctKeys(fields) && FieldsDocument(fields) && FieldsDocument(done) && Ahead(fields, all, done)
    ensures var result := VerdictFields(fields, all, done, now, calendar);
      Carried(result, done, fields, path) && DistinctKeys(result) && FieldsDocument(result)
    decreases fields
  {
    if fields.Field? {
      var key, value := fields.key, fields.value;
      var inside := if key == "input_snapshot" then None else now;
      var next := if Deadline(key, value, calendar) then Judged(done, all, key, value.text, now, calendar)
                  else Put(done, key, DeadlineVerdicts(value, inside, calendar));
      if Deadline(key, value, calendar) {
        JudgedKeeps(fields, all, done, now, calendar, path);
        assert OneField(key, value, path) == [];
      } else {
        VerdictsKeepMoney(value, inside, calendar, Joined(path, key));
        PutOwn(fields, all, done, key, DeadlineVerdicts(value, inside, calendar), path);
        PutDocument(done, key, DeadlineVerdicts(value, inside, calendar));
      }
      VerdictsKeepFields(fields.rest, all, next, now, calendar, path);
      CarriedBy(VerdictFields(fields, all, done, now, calendar), done, next, fields, path);
    }
  }

  lemma {:induction false} VerdictsKeepItems(items: Items, now: Option<int>, calendar: Calendar, path: string,
                                             index: nat)
    requires ItemsDocument(items)
    ensures ItemFacts(VerdictItems(items, now, calendar), path, index) == ItemFacts(items, path, index)
    ensures ItemsDocument(VerdictItems(items, now, calendar))
    decreases items
  {
    if items.Item? {
      VerdictsKeepMoney(items.head, now, calendar, path + "[" + Digits(index) + "]");
      VerdictsKeepItems(items.tail, now, calendar, path, index + 1);
    }
  }

  /** The only keys verdicts add. */
  lemma {:induction false} VerdictKeys(fields: Fields, all: Fields, done: Fields, now: Option<int>, calendar: Calendar,
                                       key: string)
    requires key != "expired" && key != "stale" && !Has(fields, key) && !Has(done, key)
    ensures !Has(VerdictFields(fields, all, done, now, calendar), key)
    decreases fields
  {
    if fields.Field? {
      var inside := if fields.key == "input_snapshot" then None else now;
      var next :=
        if Deadline(fields.key, fields.value, calendar)
        then Judged(done, all, fields.key, fields.value.text, now, calendar)
                  else Put(done, fields.key, DeadlineVerdicts(fields.value, inside, calendar));
      forall k: string, x: Json | k != key ensures !Has(Put(done, k, x), key) { PutAvoids(done, k, x, key); }
      VerdictKeys(fields.rest, all, next, now, calendar, key);
    }
  }

  lemma {:induction false} PutAvoids(fields: Fields, k: string, value: Json, key: string)
    requires k != key && !Has(fields, key)
    ensures !Has(Put(fields, k, value), key)
  {
    if fields.Field? && fields.key != k { PutAvoids(fields.rest, k, value, key); }
  }

  // ---------------------------------------------------------------- local times

  lemma {:induction false} LocalTimesKeepMoney(v: Json, calendar: Calendar, path: string)
    requires Document(v)
    ensures MoneyFacts(LocalTimes(v, calendar), path) == MoneyFacts(v, path)
    ensures v.Int? ==> LocalTimes(v, calendar) == v
    ensures LocalTimes(v, calendar).Int? ==> v.Int?
    decreases v
  {
    match v
    case Obj(fields) => LocalTimesKeepFields(fields, fields, NoField, calendar, path);
    case Arr(items) => LocalTimesKeepItems(items, calendar, path, 0);
    case _ =>
  }

  lemma ShownKeeps(fields: Fields, all: Fields, done: Fields, value: Json, calendar: Calendar, path: string)
    requires fields.Field? && DistinctKeys(fields) && Ahead(fields, all, done)
    ensures var copied := Put(done, fields.key, value);
      var next := Shown(copied, all, fields.key, fields.value, calendar);
      Ahead(fields.rest, all, next)
        && FieldFacts(next, path) == FieldFacts(done, path) + OneField(fields.key, value, path)
  {
    var copied, shown := Put(done, fields.key, value), LocalTime(fields.value, calendar);
    PutOwn(fields, all, done, fields.key, value, path);
    if shown.Some? && shown.value != "" && !Has(all, fields.key + "_local") {
      PutExtra(fields.rest, all, copied, fields.key + "_local", Str(shown.value), path);
    }
  }

  lemma {:induction false} LocalTimesKeepFields(fields: Fields, all: Fields, done: Fields, calendar: Calendar,
                                                path: string)
    requires DistinctKeys(fields) && FieldsDocument(fields) && Ahead(fields, all, done)
    ensures Carried(LocalFields(fields, all, done, calendar), done, fields, path)
    decreases fields
  {
    if fields.Field? {
      var value := LocalTimes(fields.value, calendar);
      var next := Shown(Put(done, fields.key, value), all, fields.key, fields.value, calendar);
      LocalTimesKeepMoney(fields.value, calendar, Joined(path, fields.key));
      ShownKeeps(fields, all, done, value, calendar, path);
      LocalTimesKeepFields(fields.rest, all, next, calendar, path);
      CarriedBy(LocalFields(fields, all, done, calendar), done, next, fields, path);
    }
  }

  lemma {:induction false} LocalTimesKeepItems(items: Items, calendar: Calendar, path: string, index: nat)
    requires ItemsDocument(items)
    ensures ItemFacts(LocalItems(items, calendar), path, index) == ItemFacts(items, path, index)
    decreases items
  {
    if items.Item? {
      LocalTimesKeepMoney(items.head, calendar, path + "[" + Digits(index) + "]");
      LocalTimesKeepItems(items.tail, calendar, path, index + 1);
    }
  }

  // ---------------------------------------------------------------- the whole shaping

  /** For every document: names, verdicts and local times leave the list of money facts as it was. */
  lemma ShapingKeepsMoneyFacts(v: Json, naming: Naming, now: int, calendar: Calendar, path: string)
    requires Document(v)
    ensures MoneyFacts(LocalTimes(DeadlineVerdicts(Named(v, naming), Some(now), calendar), calendar), path)
      == MoneyFacts(v, path)
  {
    var named := Named(v, naming);
    var verdicts := DeadlineVerdicts(named, Some(now), calendar);
    NamesKeepMoney(v, naming, path);
    NamesKeepDocument(v, naming);
    VerdictsKeepMoney(named, Some(now), calendar, path);
    LocalTimesKeepMoney(verdicts, calendar, path);
  }

  lemma RowDocument(fact: Fact)
    ensures Document(FactRow(fact))
  {
    var yuan := Field("yuan", Str(Yuan(fact.minor)), NoField);
    var minor := Field("minor", Int(fact.minor), yuan);
    var field := Field("field", Str(fact.field), minor);
    assert "field"[0] == 'f' && "minor"[0] == 'm' && "yuan"[0] == 'y';
    assert DistinctKeys(yuan) && FieldsDocument(yuan);
    assert DistinctKeys(minor) && FieldsDocument(minor);
    assert !Has(yuan, "field") && !Has(minor, "field");
    assert DistinctKeys(field) && FieldsDocument(field);
  }

  lemma {:induction false} DisplayDocument(facts: seq<Fact>)
    ensures ItemsDocument(FactItems(facts))
  {
    if facts != [] {
      RowDocument(facts[0]);
      DisplayDocument(facts[1..]);
    }
  }

  /** Adding a field without money facts, under a key the object does not use for money. */
  lemma AddQuiet(fields: Fields, key: string, value: Json)
    requires DistinctKeys(fields) && FieldsDocument(fields) && Document(value)
    requires OneField(key, value, "") == [] && (Has(fields, key) ==> OneField(key, At(fields, key), "") == [])
    ensures Document(Obj(Put(fields, key, value)))
      && MoneyFacts(Obj(Put(fields, key, value)), "") == MoneyFacts(Obj(fields), "")
  {
    PutQuiet(fields, key, value, "");
    PutKeys(fields, key, value);
    PutDocument(fields, key, value);
  }

  /** What is merged into the result beside the shaped document. */
  ghost predicate Annotation(key: string, value: Json) {
    Document(value) && OneField(key, value, "") == []
  }

  lemma DisplayedKeeps(v: Json, products: Json)
    requires v.Obj? && Document(v) && Annotation("product_names", products) && !Has(v.fields, "product_names")
    ensures var displayed := Put(v.fields, "money_display", MoneyDisplay(MoneyFacts(v, "")));
      var full := Obj(Put(displayed, "product_names", products));
      Document(full) && MoneyFacts(full, "") == MoneyFacts(v, "")
        && (forall k :: Has(full.fields, k) ==> Has(v.fields, k) || k == "money_display" || k == "product_names")
  {
    var facts := MoneyDisplay(MoneyFacts(v, ""));
    DisplayDocument(MoneyFacts(v, ""));
    assert "money_display"[7..] == "isplay";
    assert !EndsWith("money_display", "_minor");
    PutKeys(v.fields, "money_display", facts);
    AddQuiet(v.fields, "money_display", facts);
    var displayed := Put(v.fields, "money_display", facts);
    PutKeys(displayed, "product_names", products);
    AddQuiet(displayed, "product_names", products);
  }

  lemma NoSupplierNames(full: Json, naming: Naming, now: int, calendar: Calendar)
    requires full.Obj? && !Has(full.fields, "supplier_names")
    ensures var verdicts := DeadlineVerdicts(Named(full, naming), Some(now), calendar);
      verdicts.Obj? && !Has(verdicts.fields, "supplier_names")
  {
    var key := "supplier_names";
    assert key[8] == '_' && |key| == 14 && |"supplier_name"| == 13 && |"expired"| == 7 && |"stale"| == 5;
    NamesKeepKeys(full.fields, naming, key);
    var result, supplier := SupplierFields(full.fields, naming), At(full.fields, "supplier_id");
    if supplier.Str? && supplier.text in naming.names {
      PutAvoids(result, "supplier_name", Str(naming.names[supplier.text]), key);
    }
    var named := Named(full, naming);
    VerdictKeys(named.fields, named.fields, NoField, Some(now), calendar, key);
  }

  /** The shaped tool result says the same amounts as the raw one; money_display, product names and
      supplier names beside it add none. */
  lemma ShapedKeepsMoneyFacts(v: Json, products: Json, naming: Naming, suppliers: Json, now: int, calendar: Calendar)
    requires v.Obj? && Document(v) && Annotation("product_names", products) && Annotation("supplier_names", suppliers)
    requires !Has(v.fields, "product_names") && !Has(v.fields, "supplier_names")
    ensures MoneyFacts(Shaped(v, products, naming, suppliers, now, calendar), "") == MoneyFacts(v, "")
  {
    var full := Obj(Put(Put(v.fields, "money_display", MoneyDisplay(MoneyFacts(v, ""))), "product_names", products));
    DisplayedKeeps(v, products);
    NamesKeepMoney(full, naming, "");
    NamesKeepDocument(full, naming);
    VerdictsKeepMoney(Named(full, naming), Some(now), calendar, "");
    var verdicts := DeadlineVerdicts(Named(full, naming), Some(now), calendar);
    if naming.names != map[] {
      assert |"supplier_names"| == 14 && |"money_display"| == 13 && "product_names"[0] == 'p';
      NoSupplierNames(full, naming, now, calendar);
      AddQuiet(verdicts.fields, "supplier_names", suppliers);
      LocalTimesKeepMoney(Obj(Put(verdicts.fields, "supplier_names", suppliers)), calendar, "");
    } else {
      LocalTimesKeepMoney(verdicts, calendar, "");
    }
  }
}
