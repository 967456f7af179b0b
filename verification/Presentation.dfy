/** Shaping of tool results: supplier names, deadline verdicts and local times around the money facts,
    and the amounts a text states. Calendar parsing, the supplier-code pattern and the clock are inputs. */
module Presentation {
  import opened Prelude

  /** A JSON document; the keys of an object are distinct and keep their order. */
  datatype Json =
    | Null | Bool(flag: bool) | Int(value: int) | Float(text: string, nonzero: bool) | Str(text: string)
    | Arr(items: Items) | Obj(fields: Fields)

  datatype Items = NoItem | Item(head: Json, tail: Items)

  datatype Fields = NoField | Field(key: string, value: Json, rest: Fields)

  predicate Has(fields: Fields, key: string) {
    fields.Field? && (fields.key == key || Has(fields.rest, key))
  }

  function At(fields: Fields, key: string): Json {
    if fields.NoField? then Null else if fields.key == key then fields.value else At(fields.rest, key)
  }

  /** Python's dict assignment: replace in place, or append. */
  function Put(fields: Fields, key: string, value: Json): Fields {
    if fields.NoField? then Field(key, value, NoField)
    else if fields.key == key then fields.(value := value)
    else fields.(rest := Put(fields.rest, key, value))
  }

  predicate EndsWith(s: string, suffix: string) {
    |suffix| <= |s| && s[|s| - |suffix|..] == suffix
  }

  // ---------------------------------------------------------------- money facts

  datatype Fact = Fact(field: string, minor: int)

  function Joined(path: string, key: string): string {
    if path == "" then key else path + "." + key
  }

  function Digits(n: nat): (s: string)
    ensures |s| > 0
    decreases n
  {
    var last := [(n % 10) as char + '0'];
    if n < 10 then last else Digits(n / 10) + last
  }

  predicate IsMoney(key: string, value: Json) {
    EndsWith(key, "_minor") && value.Int?
  }

  function MoneyFacts(v: Json, path: string): seq<Fact>
    decreases v
  {
    match v
    case Obj(fields) => FieldFacts(fields, path)
    case Arr(items) => ItemFacts(items, path, 0)
    case _ => []
  }

  function FieldFacts(fields: Fields, path: string): seq<Fact>
    decreases fields
  {
    match fields
    case NoField => []
    case Field(key, value, rest) =>
      (if IsMoney(key, value) then [Fact(Joined(path, key), value.value)]
       else if key != "money_display" then MoneyFacts(value, Joined(path, key))
       else []) + FieldFacts(rest, path)
  }

  function ItemFacts(items: Items, path: string, index: nat): seq<Fact>
    decreases items
  {
    match items
    case NoItem => []
    case Item(head, tail) => MoneyFacts(head, path + "[" + Digits(index) + "]") + ItemFacts(tail, path, index + 1)
  }

  // ---------------------------------------------------------------- supplier names

  datatype Naming = Naming(names: map<string, string>, renamed: string -> string)

  predicate Truthy(v: Json) {
    match v
    case Null => false
    case Bool(flag) => flag
    case Int(n) => n != 0
    case Float(_, nonzero) => nonzero
    case Str(text) => text != ""
    case Arr(items) => items.Item?
    case Obj(fields) => fields.Field?
  }

  function SupplierNamesIn(v: Json, naming: Naming): Json
    decreases v
  {
    match v
    case Obj(fields) =>
      var result, supplier := SupplierFields(fields, naming), At(fields, "supplier_id");
      Obj(if supplier.Str? && supplier.text in naming.names && !Truthy(At(fields, "supplier_name"))
          then Put(result, "supplier_name", Str(naming.names[supplier.text])) else result)
    case Arr(items) => Arr(SupplierItems(items, naming))
    case Str(text) => Str(naming.renamed(text))
    case _ => v
  }

  function SupplierFields(fields: Fields, naming: Naming): Fields
    decreases fields
  {
    match fields
    case NoField => NoField
    case Field(key, value, rest) => Field(key, SupplierNamesIn(value, naming), SupplierFields(rest, naming))
  }

  function SupplierItems(items: Items, naming: Naming): Items
    decreases items
  {
    match items
    case NoItem => NoItem
    case Item(head, tail) => Item(SupplierNamesIn(head, naming), SupplierItems(tail, naming))
  }

  /** supplier_names_in: without any names the document is returned as it is. */
  function Named(v: Json, naming: Naming): Json {
    if naming.names == map[] then v else SupplierNamesIn(v, naming)
  }

  // ---------------------------------------------------------------- deadline verdicts

  /** instant: the moment a text with a UTC offset denotes. */
  datatype Calendar = Calendar(instant: string -> Option<int>, shown: string -> Option<string>)

  function Verdict(key: string): Option<string> {
    if key == "expires_at" || key == "valid_until" then Some("expired")
    else if key == "source_fresh_until" then Some("stale")
    else None
  }

  predicate Deadline(key: string, value: Json, calendar: Calendar) {
    (Verdict(key).Some? || key == "valid_from") && value.Str? && calendar.instant(value.text).Some?
  }

  function DeadlineVerdicts(v: Json, now: Option<int>, calendar: Calendar): Json
    decreases v
  {
    match v
    case Obj(fields) => Obj(VerdictFields(fields, fields, NoField, now, calendar))
    case Arr(items) => Arr(VerdictItems(items, now, calendar))
    case _ => v
  }

  /** The verdict that takes the place of a deadline, unless the object already has one. */
  function Judged(done: Fields, all: Fields, key: string, text: string, now: Option<int>, calendar: Calendar): Fields
    requires calendar.instant(text).Some?
  {
    var verdict := Verdict(key);
    if now.Some? && verdict.Some? && !Has(all, verdict.value)
    then Put(done, verdict.value, Bool(calendar.instant(text).value <= now.value)) else done
  }

  /** all: the object being read; done: the result so far. */
  function VerdictFields(fields: Fields, all: Fields, done: Fields, now: Option<int>, calendar: Calendar): Fields
    decreases fields
  {
    match fields
    case NoField => done
    case Field(key, value, rest) =>
      VerdictFields(rest, all,
                    if Deadline(key, value, calendar) then Judged(done, all, key, value.text, now, calendar)
                    else Put(done, key,
                      DeadlineVerdicts(value, if key == "input_snapshot" then None else now, calendar)),
                    now, calendar)
  }

  function VerdictItems(items: Items, now: Option<int>, calendar: Calendar): Items
    decreases items
  {
    match items
    case NoItem => NoItem
    case Item(head, tail) => Item(DeadlineVerdicts(head, now, calendar), VerdictItems(tail, now, calendar))
  }

  // ---------------------------------------------------------------- local times

  function LocalTime(v: Json, calendar: Calendar): Option<string> {
    if v.Str? then calendar.shown(v.text) else None
  }

  function LocalTimes(v: Json, calendar: Calendar): Json
    decreases v
  {
    match v
    case Obj(fields) => Obj(LocalFields(fields, fields, NoField, calendar))
    case Arr(items) => Arr(LocalItems(items, calendar))
    case _ => v
  }

  /** The field's timestamp as the owner reads it, beside the field. */
  function Shown(done: Fields, all: Fields, key: string, value: Json, calendar: Calendar): Fields {
    var shown := LocalTime(value, calendar);
    if shown.Some? && shown.value != "" && !Has(all, key + "_local") then Put(done, key + "_local", Str(shown.value))
    else done
  }

  function LocalFields(fields: Fields, all: Fields, done: Fields, calendar: Calendar): Fields
    decreases fields
  {
    match fields
    case NoField => done
    case Field(key, value, rest) =>
      LocalFields(rest, all, Shown(Put(done, key, LocalTimes(value, calendar)), all, key, value, calendar), calendar)
  }

  function LocalItems(items: Items, calendar: Calendar): Items
    decreases items
  {
    match items
    case NoItem => NoItem
    case Item(head, tail) => Item(LocalTimes(head, calendar), LocalItems(tail, calendar))
  }

  // ---------------------------------------------------------------- the tool result

  /** The end of execute_tool: money facts are taken first, then the document is shaped. */
  function Shaped(v: Json, products: Json, naming: Naming, suppliers: Json, now: int, calendar: Calendar): Json
    requires v.Obj?
  {
    var displayed := Put(v.fields, "money_display", MoneyDisplay(MoneyFacts(v, "")));
    var named := Named(Obj(Put(displayed, "product_names", products)), naming);
    var verdicts := DeadlineVerdicts(named, Some(now), calendar);
    var listed :=
      if naming.names != map[] && verdicts.Obj? then Obj(Put(verdicts.fields, "supplier_names", suppliers))
      else verdicts;
    LocalTimes(listed, calendar)
  }

  function MoneyDisplay(facts: seq<Fact>): Json {
    Arr(FactItems(facts))
  }

  function FactRow(fact: Fact): Json {
    Obj(Field("field", Str(fact.field), Field("minor", Int(fact.minor), Field("yuan", Str(Yuan(fact.minor)), NoField))))
  }

  function FactItems(facts: seq<Fact>): Items {
    if facts == [] then NoItem else Item(FactRow(facts[0]), FactItems(facts[1..]))
  }

  /** f"{Decimal(minor) / 100:.2f}". */
  function Yuan(minor: int): string
    decreases if minor < 0 then 1 else 0
  {
    if minor < 0 then "-" + Yuan(-minor)
    else Digits(minor / 100) + "." + Digits(minor / 10 % 10) + Digits(minor % 10)
  }
}
