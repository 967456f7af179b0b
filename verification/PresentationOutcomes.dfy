/** What shaping writes: which verdict stands for a deadline, which local time stands beside a timestamp, which
    name beside a supplier, and which amounts are listed; field by field, at every depth. */
module PresentationOutcomes {
  import opened Prelude
  import opened Presentation
  import opened PresentationTheorems

  // ---------------------------------------------------------------- verdicts

  /** A deadline under this key is judged by that verdict. */
  predicate JudgedBy(key: string, verdict: string) {
    || (key in {"expires_at", "valid_until"} && verdict == "expired")
    || (key == "source_fresh_until" && verdict == "stale")
  }

  /** The field is a moment that is not shown itself. */
  predicate Hidden(key: string, value: Json, calendar: Calendar) {
    key in {"expires_at", "valid_until", "source_fresh_until", "valid_from"} && value.Str?
      && calendar.instant(value.text).Some?
  }

  /** The moment of the last field that this verdict judges. */
  function LastMoment(fields: Fields, verdict: string, calendar: Calendar): Option<int> {
    if fields.NoField? then None
    else
      var later := LastMoment(fields.rest, verdict, calendar);
      if later.Some? then later
      else if JudgedBy(fields.key, verdict) && Hidden(fields.key, fields.value, calendar)
        then calendar.instant(fields.value.text)
      else None
  }

  lemma HiddenMeans(key: string, value: Json, calendar: Calendar)
    ensures Deadline(key, value, calendar) <==> Hidden(key, value, calendar)
    ensures forall verdict :: Verdict(key) == Some(verdict) <==> JudgedBy(key, verdict)
  {
  }

  /** What the result holds under key k, when reading goes on with fields and done has been written. */
  ghost predicate VerdictHolds(result: Fields, fields: Fields, all: Fields, done: Fields, now: Option<int>,
                               calendar: Calendar, k: string) {
    if Has(fields, k) && !Hidden(k, At(fields, k), calendar) then
      Has(result, k)
        && At(result, k) == DeadlineVerdicts(At(fields, k), if k == "input_snapshot" then None else now, calendar)
    else if now.Some? && !Has(all, k) && LastMoment(fields, k, calendar).Some? then
      Has(result, k) && At(result, k) == Bool(LastMoment(fields, k, calendar).value <= now.value)
    else
      Has(result, k) == Has(done, k) && At(result, k) == At(done, k)
  }

  lemma HiddenIsNoVerdict(key: string, value: Json, calendar: Calendar)
    requires Hidden(key, value, calendar)
    ensures key != "expired" && key != "stale" && forall j :: !JudgedBy(j, key)
  {
    assert |"expires_at"| == 10 && |"valid_until"| == 11 && |"source_fresh_until"| == 18 && |"valid_from"| == 10;
    assert |"expired"| == 7 && |"stale"| == 5;
  }

  lemma JudgedMeans(done: Fields, all: Fields, key: string, value: Json, now: Option<int>, calendar: Calendar)
    requires Hidden(key, value, calendar) && DistinctKeys(done)
    ensures var next := Judged(done, all, key, value.text, now, calendar);
      && DistinctKeys(next)
      && forall k ::
           if now.Some? && JudgedBy(key, k) && !Has(all, k)
           then Has(next, k) && At(next, k) == Bool(calendar.instant(value.text).value <= now.value)
           else Has(next, k) == Has(done, k) && At(next, k) == At(done, k)
  {
    HiddenMeans(key, value, calendar);
    var verdict := Verdict(key);
    if now.Some? && verdict.Some? && !Has(all, verdict.value) {
      PutKeys(done, verdict.value, Bool(calendar.instant(value.text).value <= now.value));
    }
  }

  lemma JudgedFirst(fields: Fields, all: Fields, done: Fields, next: Fields, result: Fields, now: Option<int>,
                    calendar: Calendar, k: string)
    requires fields.Field? && DistinctKeys(fields) && Hidden(fields.key, fields.value, calendar) && Has(all, fields.key)
    requires if now.Some? && JudgedBy(fields.key, k) && !Has(all, k)
             then Has(next, k) && At(next, k) == Bool(calendar.instant(fields.value.text).value <= now.value)
             else Has(next, k) == Has(done, k) && At(next, k) == At(done, k)
    requires VerdictHolds(result, fields.rest, all, next, now, calendar, k)
    requires Has(fields.rest, k) ==> Has(all, k)
    ensures VerdictHolds(result, fields, all, done, now, calendar, k)
  {
    HiddenIsNoVerdict(fields.key, fields.value, calendar);
  }

  lemma PlainFirst(fields: Fields, all: Fields, done: Fields, next: Fields, result: Fields, now: Option<int>,
                   calendar: Calendar, k: string)
    requires fields.Field? && DistinctKeys(fields) && !Hidden(fields.key, fields.value, calendar)
      && Has(all, fields.key)
    requires k == fields.key ==>
      Has(next, k)
        && At(next, k) == DeadlineVerdicts(fields.value, if k == "input_snapshot" then None else now, calendar)
    requires k != fields.key ==> Has(next, k) == Has(done, k) && At(next, k) == At(done, k)
    requires VerdictHolds(result, fields.rest, all, next, now, calendar, k)
    ensures VerdictHolds(result, fields, all, done, now, calendar, k)
  {
  }

  lemma {:induction false} VerdictFieldsHold(fields: Fields, all: Fields, done: Fields, now: Option<int>,
                                             calendar: Calendar, k: string)
    requires DistinctKeys(fields) && DistinctKeys(done) && forall key :: Has(fields, key) ==> Has(all, key)
    ensures DistinctKeys(VerdictFields(fields, all, done, now, calendar))
    ensures VerdictHolds(VerdictFields(fields, all, done, now, calendar), fields, all, done, now, calendar, k)
    decreases fields
  {
    if fields.Field? {
      var key, value, rest := fields.key, fields.value, fields.rest;
      var result := VerdictFields(fields, all, done, now, calendar);
      HiddenMeans(key, value, calendar);
      if Hidden(key, value, calendar) {
        var next := Judged(done, all, key, value.text, now, calendar);
        JudgedMeans(done, all, key, value, now, calendar);
        VerdictFieldsHold(rest, all, next, now, calendar, k);
        JudgedFirst(fields, all, done, next, result, now, calendar, k);
      } else {
        var shaped := DeadlineVerdicts(value, if key == "input_snapshot" then None else now, calendar);
        PutKeys(done, key, shaped);
        VerdictFieldsHold(rest, all, Put(done, key, shaped), now, calendar, k);
        PlainFirst(fields, all, done, Put(done, key, shaped), result, now, calendar, k);
      }
    }
  }

  /** Deadlines in an object: a judged moment gives way to the verdict whether it has passed, unless the object has
      a field of that name; the later of two fields decides. Every other field stays, its value shaped in turn;
      what a plan was made from is shaped without verdicts. */
  lemma VerdictsExactly(fields: Fields, now: Option<int>, calendar: Calendar, k: string)
    requires Document(Obj(fields))
    ensures DeadlineVerdicts(Obj(fields), now, calendar).Obj?
    ensures var result := DeadlineVerdicts(Obj(fields), now, calendar).fields;
      if Has(fields, k) && !Hidden(k, At(fields, k), calendar) then
        Has(result, k)
          && At(result, k) == DeadlineVerdicts(At(fields, k), if k == "input_snapshot" then None else now, calendar)
      else if now.Some? && !Has(fields, k) && LastMoment(fields, k, calendar).Some? then
        Has(result, k) && At(result, k) == Bool(LastMoment(fields, k, calendar).value <= now.value)
      else !Has(result, k)
  {
    VerdictFieldsHold(fields, fields, NoField, now, calendar, k);
  }

  // ---------------------------------------------------------------- local times

  function Nonempty(shown: Option<string>): Option<string> {
    if shown == Some("") then None else shown
  }

  /** What stands beside a field. */
  function Beside(value: Json, calendar: Calendar): Option<string> {
    if value.Str? then Nonempty(calendar.shown(value.text)) else None
  }

  /** The local time that stands under this name: that of the field named before the suffix. */
  function LocalFor(fields: Fields, calendar: Calendar, k: string): Option<string> {
    if fields.NoField? then None
    else if fields.key + "_local" == k && Beside(fields.value, calendar).Some? then Beside(fields.value, calendar)
    else LocalFor(fields.rest, calendar, k)
  }

  lemma {:induction false} LocalForField(fields: Fields, calendar: Calendar, j: string)
    requires DistinctKeys(fields) && Has(fields, j)
    ensures LocalFor(fields, calendar, j + "_local") == Beside(At(fields, j), calendar)
  {
    if fields.key == j {
      LocalForNone(fields.rest, calendar, j);
    } else {
      SuffixApart(fields.key, j);
      LocalForField(fields.rest, calendar, j);
    }
  }

  lemma {:induction false} LocalForNone(fields: Fields, calendar: Calendar, j: string)
    requires !Has(fields, j)
    ensures LocalFor(fields, calendar, j + "_local").None?
  {
    if fields.Field? {
      SuffixApart(fields.key, j);
      LocalForNone(fields.rest, calendar, j);
    }
  }

  lemma SuffixApart(i: string, j: string)
    requires i != j
    ensures i + "_local" != j + "_local"
  {
    assert (i + "_local")[..|i|] == i && (j + "_local")[..|j|] == j;
  }

  ghost predicate LocalHolds(result: Fields, fields: Fields, all: Fields, done: Fields, calendar: Calendar, k: string) {
    if Has(fields, k) then Has(result, k) && At(result, k) == LocalTimes(At(fields, k), calendar)
    else if !Has(all, k) && LocalFor(fields, calendar, k).Some? then
      Has(result, k) && At(result, k) == Str(LocalFor(fields, calendar, k).value)
    else Has(result, k) == Has(done, k) && At(result, k) == At(done, k)
  }

  lemma ShownMeans(done: Fields, all: Fields, key: string, value: Json, calendar: Calendar, k: string)
    requires DistinctKeys(done)
    ensures var next := Shown(Put(done, key, LocalTimes(value, calendar)), all, key, value, calendar);
      && DistinctKeys(next)
      && (if k == key + "_local" && Beside(value, calendar).Some? && !Has(all, k)
          then Has(next, k) && At(next, k) == Str(Beside(value, calendar).value)
          else if k == key then Has(next, k) && At(next, k) == LocalTimes(value, calendar)
          else Has(next, k) == Has(done, k) && At(next, k) == At(done, k))
  {
    var own := Put(done, key, LocalTimes(value, calendar));
    PutKeys(done, key, LocalTimes(value, calendar));
    if Beside(value, calendar).Some? { PutKeys(own, key + "_local", Str(Beside(value, calendar).value)); }
    assert |key + "_local"| > |key|;
  }

  lemma {:induction false} LocalFieldsHold(fields: Fields, all: Fields, done: Fields, calendar: Calendar, k: string)
    requires DistinctKeys(fields) && DistinctKeys(done) && forall key :: Has(fields, key) ==> Has(all, key)
    requires LocalFor(fields, calendar, k).Some? && !Has(all, k) ==> !Has(done, k)
    ensures DistinctKeys(LocalFields(fields, all, done, calendar))
    ensures LocalHolds(LocalFields(fields, all, done, calendar), fields, all, done, calendar, k)
    decreases fields
  {
    if fields.Field? {
      var key, value, rest := fields.key, fields.value, fields.rest;
      var next := Shown(Put(done, key, LocalTimes(value, calendar)), all, key, value, calendar);
      ShownMeans(done, all, key, value, calendar, k);
      if k == key + "_local" { LocalForNone(rest, calendar, key); }
      LocalFieldsHold(rest, all, next, calendar, k);
    }
  }

  /** Timestamps in an object: every field stays, its value shaped in turn, and what reads as a time has its local
      time beside it, unless the object has a field of that name. Nothing else is added. */
  lemma LocalTimesExactly(fields: Fields, calendar: Calendar, k: string)
    requires Document(Obj(fields))
    ensures LocalTimes(Obj(fields), calendar).Obj?
    ensures var result := LocalTimes(Obj(fields), calendar).fields;
      if Has(fields, k) then Has(result, k) && At(result, k) == LocalTimes(At(fields, k), calendar)
      else if LocalFor(fields, calendar, k).Some? then
        Has(result, k) && At(result, k) == Str(LocalFor(fields, calendar, k).value)
      else !Has(result, k)
  {
    LocalFieldsHold(fields, fields, NoField, calendar, k);
  }

  // ---------------------------------------------------------------- supplier names

  /** Python's falsy values. */
  predicate Empty(v: Json) {
    || v == Null || v == Bool(false) || v == Int(0) || (v.Float? && !v.nonzero) || v == Str("") || v == Arr(NoItem)
       || v == Obj(NoField)
  }

  lemma {:induction false} SupplierFieldsAt(fields: Fields, naming: Naming, k: string)
    ensures Has(SupplierFields(fields, naming), k) <==> Has(fields, k)
    ensures Has(fields, k) ==> At(SupplierFields(fields, naming), k) == SupplierNamesIn(At(fields, k), naming)
    ensures DistinctKeys(fields) ==> DistinctKeys(SupplierFields(fields, naming))
  {
    if fields.Field? {
      SupplierFieldsAt(fields.rest, naming, k);
      SupplierFieldsAt(fields.rest, naming, fields.key);
    }
  }

  /** Suppliers in an object: a known supplier id has the name beside it unless one that says something is there;
      every other field stays, its texts renamed. */
  lemma NamesExactly(fields: Fields, naming: Naming, k: string)
    requires Document(Obj(fields))
    ensures SupplierNamesIn(Obj(fields), naming).Obj?
    ensures var result, id := SupplierNamesIn(Obj(fields), naming).fields, At(fields, "supplier_id");
      if k == "supplier_name" && id.Str? && id.text in naming.names && Empty(At(fields, k)) then
        Has(result, k) && At(result, k) == Str(naming.names[id.text])
      else
        Has(result, k) == Has(fields, k) && (Has(fields, k) ==> At(result, k) == SupplierNamesIn(At(fields, k), naming))
  {
    SupplierFieldsAt(fields, naming, k);
    SupplierFieldsAt(fields, naming, "supplier_id");
    var result, id := SupplierFields(fields, naming), At(fields, "supplier_id");
    if id.Str? && id.text in naming.names { PutKeys(result, "supplier_name", Str(naming.names[id.text])); }
  }

  // ---------------------------------------------------------------- lists and leaves

  function Nth(items: Items, i: nat): Option<Json> {
    if items.NoItem? then None else if i == 0 then Some(items.head) else Nth(items.tail, i - 1)
  }

  lemma {:induction false} ListsShaped(items: Items, i: nat, naming: Naming, now: Option<int>, calendar: Calendar)
    ensures Nth(SupplierItems(items, naming), i)
         == if Nth(items, i).Some? then Some(SupplierNamesIn(Nth(items, i).value, naming)) else None
    ensures Nth(VerdictItems(items, now, calendar), i)
         == if Nth(items, i).Some? then Some(DeadlineVerdicts(Nth(items, i).value, now, calendar)) else None
    ensures Nth(LocalItems(items, calendar), i)
         == if Nth(items, i).Some? then Some(LocalTimes(Nth(items, i).value, calendar)) else None
  {
    if items.Item? && i > 0 { ListsShaped(items.tail, i - 1, naming, now, calendar); }
  }

  /** Lists are shaped item by item; texts are renamed, other plain values stay. */
  lemma LeavesStay(v: Json, naming: Naming, now: Option<int>, calendar: Calendar)
    requires !v.Obj?
    ensures v.Arr? ==>
      var named, judged := SupplierNamesIn(v, naming), DeadlineVerdicts(v, now, calendar);
      var local := LocalTimes(v, calendar);
      && named.Arr? && judged.Arr? && local.Arr?
      && forall i: nat ::
           match Nth(v.items, i)
           case None => Nth(named.items, i) == None && Nth(judged.items, i) == None && Nth(local.items, i) == None
           case Some(w) =>
             && Nth(named.items, i) == Some(SupplierNamesIn(w, naming))
             && Nth(judged.items, i) == Some(DeadlineVerdicts(w, now, calendar))
             && Nth(local.items, i) == Some(LocalTimes(w, calendar))
    ensures !v.Arr? ==>
      && DeadlineVerdicts(v, now, calendar) == v && LocalTimes(v, calendar) == v
      && SupplierNamesIn(v, naming) == if v.Str? then Str(naming.renamed(v.text)) else v
  {
    if v.Arr? {
      forall i: nat { ListsShaped(v.items, i, naming, now, calendar); }
    }
  }

  // ---------------------------------------------------------------- no names

  /** Without names no text has one to be renamed to. */
  ghost predicate NamesOnly(naming: Naming) {
    naming.names == map[] ==> forall text :: naming.renamed(text) == text
  }

  lemma {:induction false} NothingNamed(v: Json, naming: Naming)
    requires naming.names == map[] && NamesOnly(naming)
    ensures SupplierNamesIn(v, naming) == v
    decreases v
  {
    match v
    case Obj(fields) => NothingNamedFields(fields, naming);
    case Arr(items) => NothingNamedItems(items, naming);
    case _ =>
  }

  lemma {:induction false} NothingNamedFields(fields: Fields, naming: Naming)
    requires naming.names == map[] && NamesOnly(naming)
    ensures SupplierFields(fields, naming) == fields
    decreases fields
  {
    if fields.Field? {
      NothingNamed(fields.value, naming);
      NothingNamedFields(fields.rest, naming);
    }
  }

  lemma {:induction false} NothingNamedItems(items: Items, naming: Naming)
    requires naming.names == map[] && NamesOnly(naming)
    ensures SupplierItems(items, naming) == items
    decreases items
  {
    if items.Item? {
      NothingNamed(items.head, naming);
      NothingNamedItems(items.tail, naming);
    }
  }

  /** Returning early without names is a shortcut only: naming would change nothing. */
  lemma NoNamesNoChange(v: Json, naming: Naming)
    requires NamesOnly(naming)
    ensures Presentation.Named(v, naming) == SupplierNamesIn(v, naming)
  {
    if naming.names == map[] { NothingNamed(v, naming); }
  }

  // ---------------------------------------------------------------- money facts

  /** A way down a document: to a field of an object or to an item of a list. */
  datatype Way = Key(name: string) | Index(number: nat)

  ghost predicate FieldIn(fields: Fields, key: string, value: Json) {
    fields.Field? && ((fields.key == key && fields.value == value) || FieldIn(fields.rest, key, value))
  }

  ghost predicate Leads(v: Json, way: Way, w: Json) {
    match way
    case Key(name) => v.Obj? && FieldIn(v.fields, name, w)
    case Index(number) => v.Arr? && Nth(v.items, number) == Some(w)
  }

  function PathTo(path: string, way: Way): string {
    match way
    case Key(name) => if path == "" then name else path + "." + name
    case Index(number) => path + "[" + Digits(number) + "]"
  }

  /** A name that says its value is in minor units. */
  ghost predicate NamesMinor(name: string) {
    exists stem :: name == stem + "_minor"
  }

  lemma NamesMinorMeans(name: string)
    ensures NamesMinor(name) <==> EndsWith(name, "_minor")
  {
    if EndsWith(name, "_minor") { assert name == name[..|name| - 6] + "_minor"; }
  }

  /** The way leads to a whole number under such a name. */
  ghost predicate ToMoney(v: Json, path: string, way: Way, fact: Fact) {
    way.Key? && NamesMinor(way.name) && Leads(v, way, Int(fact.minor)) && fact.field == PathTo(path, way)
  }

  /** The ways lead from v, not through what is already displayed, to money. */
  ghost predicate Reaches(v: Json, path: string, ways: seq<Way>, fact: Fact)
    decreases |ways|
  {
    && ways != []
    && if |ways| == 1 then ToMoney(v, path, ways[0], fact)
       else ways[0] != Key("money_display") && exists w ::
         Leads(v, ways[0], w) && Reaches(w, PathTo(path, ways[0]), ways[1..], fact)
  }

  ghost predicate Reachable(v: Json, path: string, fact: Fact) {
    exists ways :: Reaches(v, path, ways, fact)
  }

  /** One step down: to money, or past one way. */
  lemma ReachableUnfolds(v: Json, path: string, fact: Fact)
    ensures Reachable(v, path, fact) <==>
      || (exists way :: ToMoney(v, path, way, fact))
      || (exists way, w :: way != Key("money_display") && Leads(v, way, w) && Reachable(w, PathTo(path, way), fact))
  {
    if Reachable(v, path, fact) {
      var ways :| Reaches(v, path, ways, fact);
      if |ways| > 1 {
        var w :| Leads(v, ways[0], w) && Reaches(w, PathTo(path, ways[0]), ways[1..], fact);
        assert Reachable(w, PathTo(path, ways[0]), fact);
      }
    }
    if way :| ToMoney(v, path, way, fact) { assert Reaches(v, path, [way], fact); }
    if way, w :| way != Key("money_display") && Leads(v, way, w) && Reachable(w, PathTo(path, way), fact) {
      var ways :| Reaches(w, PathTo(path, way), ways, fact);
      assert ([way] + ways)[1..] == ways;
      assert Reaches(v, path, [way] + ways, fact);
    }
  }

  /** The field holds the fact, or ways from it do. */
  ghost predicate FieldGives(key: string, value: Json, path: string, fact: Fact) {
    || (NamesMinor(key) && value == Int(fact.minor) && fact.field == Joined(path, key))
    || (key != "money_display" && Reachable(value, Joined(path, key), fact))
  }

  ghost predicate SomeFieldGives(fields: Fields, path: string, fact: Fact) {
    exists key, value :: FieldIn(fields, key, value) && FieldGives(key, value, path, fact)
  }

  ghost predicate SomeItemGives(items: Items, path: string, index: nat, fact: Fact) {
    exists i: nat :: ItemGives(items, path, index, i, fact)
  }

  ghost predicate ItemGives(items: Items, path: string, index: nat, i: nat, fact: Fact) {
    Nth(items, i).Some? && Reachable(Nth(items, i).value, path + "[" + Digits(index + i) + "]", fact)
  }

  lemma ObjectReaches(fields: Fields, path: string, fact: Fact)
    ensures Reachable(Obj(fields), path, fact) <==> SomeFieldGives(fields, path, fact)
  {
    var v := Obj(fields);
    ReachableUnfolds(v, path, fact);
    if way :| ToMoney(v, path, way, fact) { assert FieldGives(way.name, Int(fact.minor), path, fact); }
    if way, w :| way != Key("money_display") && Leads(v, way, w) && Reachable(w, PathTo(path, way), fact) {
      assert FieldGives(way.name, w, path, fact);
    }
    if key, value :| FieldIn(fields, key, value) && FieldGives(key, value, path, fact) {
      assert Leads(v, Key(key), value);
      assert ToMoney(v, path, Key(key), fact)
        || (Key(key) != Key("money_display") && Reachable(value, PathTo(path, Key(key)), fact));
    }
  }

  lemma ListReaches(items: Items, path: string, fact: Fact)
    ensures Reachable(Arr(items), path, fact) <==> SomeItemGives(items, path, 0, fact)
  {
    var v := Arr(items);
    ReachableUnfolds(v, path, fact);
    if way, w :| way != Key("money_display") && Leads(v, way, w) && Reachable(w, PathTo(path, way), fact) {
      assert ItemGives(items, path, 0, way.number, fact);
    }
    if i: nat :| ItemGives(items, path, 0, i, fact) {
      assert Leads(v, Index(i), Nth(items, i).value) && PathTo(path, Index(i)) == path + "[" + Digits(0 + i) + "]";
    }
  }

  lemma LeafReachesNothing(v: Json, path: string, fact: Fact)
    requires !v.Obj? && !v.Arr?
    ensures !Reachable(v, path, fact)
  {
    ReachableUnfolds(v, path, fact);
  }

  /** A fact is listed exactly when ways lead to it. */
  lemma {:induction false} FactsExactly(v: Json, path: string, fact: Fact)
    ensures fact in MoneyFacts(v, path) <==> Reachable(v, path, fact)
    decreases v, 0
  {
    match v
    case Obj(fields) =>
      FieldFactsExactly(fields, path, fact);
      ObjectReaches(fields, path, fact);
    case Arr(items) =>
      ItemFactsExactly(items, path, 0, fact);
      ListReaches(items, path, fact);
    case _ => LeafReachesNothing(v, path, fact);
  }

  lemma {:induction false} OneFieldExactly(key: string, value: Json, path: string, fact: Fact)
    ensures fact in OneField(key, value, path) <==> FieldGives(key, value, path, fact)
    decreases value, 1
  {
    NamesMinorMeans(key);
    FactsExactly(value, Joined(path, key), fact);
    if value.Int? { LeafReachesNothing(value, Joined(path, key), fact); }
    assert "money_display"[12] != "_minor"[5];
  }

  lemma SomeFieldFirst(fields: Fields, path: string, fact: Fact)
    requires fields.Field?
    ensures SomeFieldGives(fields, path, fact) <==>
      FieldGives(fields.key, fields.value, path, fact) || SomeFieldGives(fields.rest, path, fact)
  {
    if FieldGives(fields.key, fields.value, path, fact) { assert FieldIn(fields, fields.key, fields.value); }
    if key, value :| FieldIn(fields.rest, key, value) && FieldGives(key, value, path, fact) {
      assert FieldIn(fields, key, value);
    }
  }

  lemma {:induction false} FieldFactsExactly(fields: Fields, path: string, fact: Fact)
    ensures fact in FieldFacts(fields, path) <==> SomeFieldGives(fields, path, fact)
    decreases fields, 0
  {
    if fields.Field? {
      OneFieldExactly(fields.key, fields.value, path, fact);
      FieldFactsExactly(fields.rest, path, fact);
      SomeFieldFirst(fields, path, fact);
      assert FieldFacts(fields, path) == OneField(fields.key, fields.value, path) + FieldFacts(fields.rest, path);
    }
  }

  lemma ItemNext(items: Items, path: string, index: nat, next: nat, i: nat, j: nat, fact: Fact)
    requires items.Item? && next == index + 1 && j == i + 1
    ensures ItemGives(items, path, index, j, fact) <==> ItemGives(items.tail, path, next, i, fact)
  {
    assert index + j == next + i;
  }

  lemma SomeItemFirst(items: Items, path: string, index: nat, next: nat, fact: Fact)
    requires items.Item? && next == index + 1
    ensures SomeItemGives(items, path, index, fact) <==>
      Reachable(items.head, path + "[" + Digits(index) + "]", fact) || SomeItemGives(items.tail, path, next, fact)
  {
    assert ItemGives(items, path, index, 0, fact) <==> Reachable(items.head, path + "[" + Digits(index) + "]", fact);
    if i: nat :| ItemGives(items, path, index, i, fact) && i > 0 { ItemNext(items, path, index, next, i - 1, i, fact); }
    if i: nat :| ItemGives(items.tail, path, next, i, fact) { ItemNext(items, path, index, next, i, i + 1, fact); }
  }

  lemma {:induction false} ItemFactsExactly(items: Items, path: string, index: nat, fact: Fact)
    ensures fact in ItemFacts(items, path, index) <==> SomeItemGives(items, path, index, fact)
    decreases items, 0
  {
    if items.Item? {
      FactsExactly(items.head, path + "[" + Digits(index) + "]", fact);
      ItemFactsExactly(items.tail, path, index + 1, fact);
      SomeItemFirst(items, path, index, index + 1, fact);
    }
  }

  lemma FactRowAt(fact: Fact)
    ensures FactRow(fact).Obj?
    ensures var row := FactRow(fact).fields;
      At(row, "field") == Str(fact.field) && At(row, "minor") == Int(fact.minor)
        && At(row, "yuan") == Str(Yuan(fact.minor))
  {
    var row := FactRow(fact).fields;
    assert "minor"[0] != "field"[0] && "yuan"[0] != "field"[0] && "yuan"[0] != "minor"[0];
    assert At(row.rest, "minor") == Int(fact.minor) && At(row.rest.rest, "yuan") == Str(Yuan(fact.minor));
  }

  /** The displayed list: for each fact its field, its amount and the amount as yuan, in order. */
  lemma {:induction false} DisplayExactly(facts: seq<Fact>, i: nat)
    ensures MoneyDisplay(facts).Arr?
    ensures i >= |facts| ==> Nth(MoneyDisplay(facts).items, i).None?
    ensures i < |facts| ==>
      var row := Nth(MoneyDisplay(facts).items, i);
      && row.Some? && row.value.Obj?
      && At(row.value.fields, "field") == Str(facts[i].field) && At(row.value.fields, "minor") == Int(facts[i].minor)
      && At(row.value.fields, "yuan") == Str(Yuan(facts[i].minor))
  {
    if facts != [] {
      FactRowAt(facts[0]);
      if i > 0 { DisplayExactly(facts[1..], i - 1); }
    }
  }
}
