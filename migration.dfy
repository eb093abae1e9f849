/** Loading the document (`load_data`, meal_planner.py:20-67), including the
    one-shot migration of the legacy weekly plan, in which every day maps a
    meal slot to a recipe name, to the current shape, in which every day holds
    a list of timed meals. Reading and writing the JSON file are left to the
    caller: the parsed file is a parameter, and persisting the migrated
    document is not modelled. */
module Migration {
  import opened Text
  import opened Model
  import opened MealOrder

  /** A value of `wochenplan` as the file holds it: the legacy slot
      dictionary (slot name and recipe name, in file order) or the current
      list of meals. */
  datatype DayValue = Slots(slots: seq<(string, string)>) | Meals(meals: seq<Meal>)

  /** A key of `wochenplan` with its value, in file order. */
  datatype RawDay = RawDay(tag: string, value: DayValue)

  type RawPlan = seq<RawDay>

  /** The parsed file. */
  datatype RawDocument = RawDocument(zutaten: map<string, Ingredient>, rezepte: map<string, Recipe>,
                                     wochenplan: RawPlan)

  /** The fixed table from legacy slot to time of day; any other slot gets
      noon (`time_mapping.get(mahlzeit_name, "12:00")`). */
  function SlotTime(slot: string): string {
    if slot == "Frühstück" then "08:00"
    else if slot == "Mittagessen" then "12:00"
    else if slot == "Abendessen" then "18:00"
    else if slot == "Snacks" then "15:00"
    else "12:00"
  }

  /** The meals the inner migration loop appends for one legacy day, before
      sorting: one per slot with a non-empty recipe, in slot order. */
  function SlotEntries(slots: seq<(string, string)>): seq<Meal> {
    if slots == [] then []
    else
      var s := slots[|slots| - 1];
      SlotEntries(slots[..|slots| - 1]) + (if s.1 != "" then [Meal(SlotTime(s.0), s.1)] else [])
  }

  /** One legacy day in the current shape. */
  function ConvertDay(slots: seq<(string, string)>): seq<Meal> {
    SortByZeit(SlotEntries(slots))
  }

  /** The detection rule: the plan is non-empty and its first day is a
      dictionary. */
  predicate IsLegacy(p: RawPlan) {
    |p| > 0 && p[0].value.Slots?
  }

  predicate AllSlots(p: RawPlan) {
    forall i :: 0 <= i < |p| ==> p[i].value.Slots?
  }

  predicate AllMeals(p: RawPlan) {
    forall i :: 0 <= i < |p| ==> p[i].value.Meals?
  }

  /** The plan after migration; `None` when the first day is legacy but some
      later day already is a list, where calling `.items()` on that list
      raises and loading fails. */
  function MigratePlan(p: RawPlan): Option<RawPlan> {
    if !IsLegacy(p) then Some(p)
    else if !AllSlots(p) then None
    else Some(seq(|p|, i requires 0 <= i < |p| => RawDay(p[i].tag, Meals(ConvertDay(p[i].value.slots)))))
  }

  /** The inner migration loop: one meal per slot with a recipe. */
  method CollectEntries(slots: seq<(string, string)>) returns (entries: seq<Meal>)
    ensures entries == SlotEntries(slots)
  {
    entries := [];
    var j := 0;
    while j < |slots|
      invariant 0 <= j <= |slots|
      invariant entries == SlotEntries(slots[..j])
    {
      assert slots[..j + 1][..j] == slots[..j];
      if slots[j].1 != "" {
        entries := entries + [Meal(SlotTime(slots[j].0), slots[j].1)];
      }
      j := j + 1;
    }
    assert slots[..j] == slots;
  }

  /** The migration loop of `load_data`. */
  method Migrate(p: RawPlan) returns (r: Option<RawPlan>)
    ensures r == MigratePlan(p)
  {
    if |p| == 0 || !p[0].value.Slots? {
      return Some(p);
    }
    var converted: RawPlan := [];
    var i := 0;
    while i < |p|
      invariant 0 <= i <= |p|
      invariant forall k :: 0 <= k < i ==> p[k].value.Slots?
      invariant |converted| == i
      invariant forall k :: 0 <= k < i ==> converted[k] == RawDay(p[k].tag, Meals(ConvertDay(p[k].value.slots)))
    {
      if p[i].value.Meals? {
        return None;
      }
      var entries := CollectEntries(p[i].value.slots);
      converted := converted + [RawDay(p[i].tag, Meals(SortByZeit(entries)))];
      i := i + 1;
    }
    assert AllSlots(p);
    assert converted == seq(|p|, i requires 0 <= i < |p| => RawDay(p[i].tag, Meals(ConvertDay(p[i].value.slots))));
    return Some(converted);
  }

  /** The document a first start creates: no ingredients, no recipes, and
      the seven weekdays with empty lists. */
  function DefaultDocument(): (d: RawDocument)
    ensures d.zutaten == map[] && d.rezepte == map[]
    ensures |d.wochenplan| == 7 && forall i :: 0 <= i < 7 ==> d.wochenplan[i] == RawDay(Weekdays[i], Meals([]))
  {
    RawDocument(map[], map[], seq(7, i requires 0 <= i < 7 => RawDay(Weekdays[i], Meals([]))))
  }

  /** The result of `load_data` on the parsed file, `None` when there is
      none. */
  function Load(stored: Option<RawDocument>): Option<RawDocument> {
    if stored.None? then Some(DefaultDocument())
    else match MigratePlan(stored.value.wochenplan)
      case None => None
      case Some(p) => Some(stored.value.(wochenplan := p))
  }

  /** `load_data`: the default document when there is no file, otherwise
      the file's document with its plan migrated. `None` is a load that
      raises. */
  method LoadData(stored: Option<RawDocument>) returns (r: Option<RawDocument>)
    ensures r == Load(stored)
    ensures stored.None? ==> r == Some(DefaultDocument())
    ensures stored.Some? && MigratePlan(stored.value.wochenplan).None? ==> r.None?
    ensures stored.Some? && MigratePlan(stored.value.wochenplan).Some? ==>
              r == Some(stored.value.(wochenplan := MigratePlan(stored.value.wochenplan).value))
  {
    if stored.None? {
      return Some(DefaultDocument());
    }
    var plan := Migrate(stored.value.wochenplan);
    if plan.None? {
      return None;
    }
    return Some(stored.value.(wochenplan := plan.value));
  }

  /** A plan all of whose days are lists, in the shape the rest of the
      program works on. */
  function ToPlan(p: RawPlan): (r: Option<Plan>)
    ensures r.Some? <==> AllMeals(p)
    ensures r.Some? ==> (|r.value| == |p| &&
                         forall i :: 0 <= i < |p| ==> r.value[i] == Day(p[i].tag, p[i].value.meals))
  {
    if AllMeals(p) then Some(seq(|p|, i requires 0 <= i < |p| => Day(p[i].tag, p[i].value.meals)))
    else None
  }

  /** The keys of a JSON object are distinct. */
  predicate DistinctKeys(p: RawPlan) {
    forall i, j :: 0 <= i < j < |p| ==> p[i].tag != p[j].tag
  }

  /** Every weekday is a key of the stored plan. */
  predicate HasRawWeekdays(p: RawPlan) {
    forall t :: t in Weekdays ==> exists i :: 0 <= i < |p| && p[i].tag == t
  }

  // Properties of the migration.

  /** The number of slots with a non-empty recipe. */
  function CountFilled(slots: seq<(string, string)>): nat {
    if slots == [] then 0 else (if slots[0].1 != "" then 1 else 0) + CountFilled(slots[1..])
  }

  lemma {:induction false} SlotEntriesContents(slots: seq<(string, string)>)
    ensures |SlotEntries(slots)| == CountFilled(slots)
    ensures forall m :: m in SlotEntries(slots) <==>
              exists j :: 0 <= j < |slots| && slots[j].1 != "" && m == Meal(SlotTime(slots[j].0), slots[j].1)
  {
    if slots != [] {
      var p, s := slots[..|slots| - 1], slots[|slots| - 1];
      SlotEntriesContents(p);
      CountFilledAppend(p, s);
      assert slots == p + [s];
      forall m
        ensures m in SlotEntries(slots) <==>
                exists j :: 0 <= j < |slots| && slots[j].1 != "" && m == Meal(SlotTime(slots[j].0), slots[j].1)
      {
        if m in SlotEntries(p) {
          var j :| 0 <= j < |p| && p[j].1 != "" && m == Meal(SlotTime(p[j].0), p[j].1);
          assert slots[j] == p[j];
        }
        if exists j :: 0 <= j < |slots| && slots[j].1 != "" && m == Meal(SlotTime(slots[j].0), slots[j].1) {
          var j :| 0 <= j < |slots| && slots[j].1 != "" && m == Meal(SlotTime(slots[j].0), slots[j].1);
          if j < |p| {
            assert p[j] == slots[j];
          }
        }
      }
    }
  }

  lemma {:induction false} CountFilledAppend(p: seq<(string, string)>, s: (string, string))
    ensures CountFilled(p + [s]) == CountFilled(p) + (if s.1 != "" then 1 else 0)
  {
    if p == [] {
      assert p + [s] == [s];
    } else {
      assert (p + [s])[1..] == p[1..] + [s];
      CountFilledAppend(p[1..], s);
    }
  }

  /** A migrated day is sorted by time and holds exactly one meal per slot
      with a non-empty recipe, timed by the slot table; slots with equal
      times keep their file order. */
  lemma ConvertDayCorrect(slots: seq<(string, string)>)
    ensures SortedByZeit(ConvertDay(slots))
    ensures |ConvertDay(slots)| == CountFilled(slots)
    ensures forall m :: m in ConvertDay(slots) <==>
              exists j :: 0 <= j < |slots| && slots[j].1 != "" && m == Meal(SlotTime(slots[j].0), slots[j].1)
    ensures forall t :: WithZeit(ConvertDay(slots), t) == WithZeit(SlotEntries(slots), t)
  {
    SortByZeitCorrect(SlotEntries(slots));
    SlotEntriesContents(slots);
    forall m
      ensures m in ConvertDay(slots) <==> m in SlotEntries(slots)
    {
      assert m in ConvertDay(slots) <==> m in multiset(ConvertDay(slots));
    }
  }

  /** A migrated legacy plan keeps its days, in order, and each day is
      converted as `ConvertDayCorrect` describes; it is no longer legacy. */
  lemma MigrateLegacy(p: RawPlan)
    requires IsLegacy(p) && AllSlots(p)
    ensures MigratePlan(p).Some?
    ensures var q := MigratePlan(p).value;
              |q| == |p| && !IsLegacy(q) && AllMeals(q) &&
              forall i :: 0 <= i < |p| ==> q[i].tag == p[i].tag && SortedByZeit(q[i].value.meals) &&
                                           |q[i].value.meals| == CountFilled(p[i].value.slots)
  {
    var q := MigratePlan(p).value;
    forall i | 0 <= i < |p|
      ensures SortedByZeit(q[i].value.meals) && |q[i].value.meals| == CountFilled(p[i].value.slots)
    {
      ConvertDayCorrect(p[i].value.slots);
    }
  }

  /** Loading fails exactly when the first day is legacy and some day is
      already a list; a plan that is not legacy, an empty one included, is
      returned unchanged. */
  lemma MigrateOutcome(p: RawPlan)
    ensures MigratePlan(p).None? <==> IsLegacy(p) && exists i :: 0 <= i < |p| && p[i].value.Meals?
    ensures !IsLegacy(p) ==> MigratePlan(p) == Some(p)
  {
  }

  /** Migration runs at most once: migrating its result changes nothing. */
  lemma MigrateIdempotent(p: RawPlan)
    requires MigratePlan(p).Some?
    ensures MigratePlan(MigratePlan(p).value) == MigratePlan(p)
  {
    if IsLegacy(p) {
      MigrateLegacy(p);
    }
  }

  lemma SortPair(a: Meal, b: Meal)
    requires Le(a.zeit, b.zeit)
    ensures SortByZeit([a, b]) == [a, b]
  {
    assert [a, b][..1] == [a] && [a][..0] == [] && [a][1..] == [];
    assert SortByZeit([a]) == [a];
    assert !Lt(b.zeit, a.zeit);
    assert InsertByZeit([a], b) == [a] + InsertByZeit([], b);
  }

  lemma SortPairThenEarlier(a: Meal, b: Meal, c: Meal)
    requires Le(a.zeit, b.zeit) && Lt(c.zeit, a.zeit)
    ensures SortByZeit([a, b, c]) == [c, a, b]
  {
    assert [a, b, c][..2] == [a, b];
    SortPair(a, b);
  }

  /** The legacy day of the documentation: the empty lunch slot is dropped. */
  lemma MigrationExample()
    ensures ConvertDay([("Frühstück", "Haferflocken"), ("Mittagessen", ""), ("Abendessen", "Suppe")])
            == [Meal("08:00", "Haferflocken"), Meal("18:00", "Suppe")]
  {
    var s1 := [("Frühstück", "Haferflocken"), ("Mittagessen", ""), ("Abendessen", "Suppe")];
    var oats, soup := Meal("08:00", "Haferflocken"), Meal("18:00", "Suppe");
    assert s1[..2][..1] == [s1[0]] && s1[..1][..0] == [];
    assert SlotEntries(s1[..1]) == [oats];
    assert SlotEntries(s1) == [oats, soup];
    assert Le("08:00", "18:00");
    SortPair(oats, soup);
  }

  /** Lunch and an unknown slot share noon and keep their file order;
      breakfast moves before them. */
  lemma MigrationNoonExample()
    ensures ConvertDay([("Mittagessen", "Salat"), ("Brunch", "Toast"), ("Frühstück", "Müsli")])
            == [Meal("08:00", "Müsli"), Meal("12:00", "Salat"), Meal("12:00", "Toast")]
  {
    var s2 := [("Mittagessen", "Salat"), ("Brunch", "Toast"), ("Frühstück", "Müsli")];
    var salad, toast, muesli := Meal("12:00", "Salat"), Meal("12:00", "Toast"), Meal("08:00", "Müsli");
    assert s2[..2][..1] == [s2[0]] && s2[..1][..0] == [];
    assert SlotEntries(s2[..1]) == [salad];
    assert SlotEntries(s2[..2]) == [salad, toast];
    assert SlotEntries(s2) == [salad, toast, muesli];
    LeReflexive("12:00");
    assert Lt("08:00", "12:00");
    SortPairThenEarlier(salad, toast, muesli);
  }

  /** A stored plan whose days are all of one shape loads: the migration
      keeps its keys, in order, and leaves every day a list. */
  lemma UniformPlanLoads(p: RawPlan)
    requires AllSlots(p) || AllMeals(p)
    ensures MigratePlan(p).Some? && ToPlan(MigratePlan(p).value).Some?
    ensures var q := ToPlan(MigratePlan(p).value).value;
              |q| == |p| && forall i :: 0 <= i < |p| ==> q[i].tag == p[i].tag
  {
    if IsLegacy(p) {
      MigrateLegacy(p);
    }
  }

  /** What a session needs of its plan holds after loading: with no file,
      the seven weekdays with empty lists; with a file of distinct keys that
      names every weekday and whose days are all of one shape, its keys. So
      the loaded plan meets the requirement of `Session.Session`'s
      constructor. */
  lemma LoadedPlanFitsSession(stored: Option<RawDocument>)
    requires stored.Some? ==> var p := stored.value.wochenplan;
                              DistinctKeys(p) && HasRawWeekdays(p) && (AllSlots(p) || AllMeals(p))
    ensures Load(stored).Some? && ToPlan(Load(stored).value.wochenplan).Some?
    ensures var q := ToPlan(Load(stored).value.wochenplan).value;
              DistinctTags(q) && HasWeekdays(q)
              && (stored.None? ==> Tags(q) == Weekdays && forall i :: 0 <= i < |q| ==> q[i].meals == [])
  {
    if stored.None? {
      var q := ToPlan(DefaultDocument().wochenplan).value;
      assert Tags(q) == Weekdays;
      forall t | t in Weekdays
        ensures HasDay(q, t)
      {
        var i :| 0 <= i < 7 && Weekdays[i] == t;
        assert q[i].tag == t;
      }
    } else {
      var p := stored.value.wochenplan;
      UniformPlanLoads(p);
      var q := ToPlan(MigratePlan(p).value).value;
      forall t | t in Weekdays
        ensures HasDay(q, t)
      {
        var i :| 0 <= i < |p| && p[i].tag == t;
        assert q[i].tag == t;
      }
    }
  }
}
