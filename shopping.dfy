/** The shopping list: `generate_shopping_list` (meal_planner.py:90-103), which
    sums the grams of every ingredient over every resolving meal occurrence of
    the week, and the shopping tab's presentation of it (:762-779): grouping
    by category, both levels in name order, and the kg/g display threshold. */
module Shopping {
  import opened Text
  import opened Model

  /** `defaultdict(float)` read at `k`. */
  function Get(m: map<string, real>, k: string): real {
    if k in m then m[k] else 0.0
  }

  /** `for zutat, menge in zutaten.items(): liste[zutat] += menge`. */
  function AddQuantities(liste: map<string, real>, zutaten: map<string, real>): (r: map<string, real>)
    ensures forall k :: k in r <==> k in liste || k in zutaten
    ensures forall k :: k in r ==> r[k] == Get(liste, k) + Get(zutaten, k)
  {
    map k | k in liste.Keys + zutaten.Keys :: Get(liste, k) + Get(zutaten, k)
  }

  /** The ingredient lines of the recipe named `n`; a name that is not a
      recipe, which the loop never reaches, has none. */
  function Lines(n: string, rezepte: map<string, Recipe>): map<string, real> {
    if n in rezepte then rezepte[n].zutaten else map[]
  }

  /** The list for the recipe occurrences `names`, in order. */
  function ShoppingFor(names: seq<string>, rezepte: map<string, Recipe>): map<string, real> {
    if names == [] then map[]
    else AddQuantities(ShoppingFor(names[..|names| - 1], rezepte), Lines(names[|names| - 1], rezepte))
  }

  function ShoppingList(p: Plan, rezepte: map<string, Recipe>): map<string, real> {
    ShoppingFor(ResolvedRecipes(p, rezepte), rezepte)
  }

  /** `generate_shopping_list`: days in plan order, their meals in list
      order, and for each resolving meal every line of its recipe. */
  method GenerateShoppingList(p: Plan, rezepte: map<string, Recipe>) returns (liste: map<string, real>)
    ensures liste == ShoppingList(p, rezepte)
  {
    liste := map[];
    var i := 0;
    while i < |p|
      invariant 0 <= i <= |p|
      invariant liste == ShoppingFor(ResolvedRecipes(p[..i], rezepte), rezepte)
    {
      liste := AddDay(liste, p[i].meals, rezepte, ResolvedRecipes(p[..i], rezepte));
      ResolvedRecipesStep(p, i, rezepte);
      i := i + 1;
    }
    assert p[..i] == p;
  }

  /** The loop over one day's meals: the list so far, for the occurrences
      `done`, extended by every resolving meal of the day. */
  method AddDay(liste: map<string, real>, mahlzeiten: seq<Meal>, rezepte: map<string, Recipe>, ghost done: seq<string>)
    returns (r: map<string, real>)
    requires liste == ShoppingFor(done, rezepte)
    ensures r == ShoppingFor(done + ResolvedInDay(mahlzeiten, rezepte), rezepte)
  {
    r := liste;
    ghost var names := done;
    var j := 0;
    ResolvedInDayPrefix(mahlzeiten, 0, rezepte);
    while j < |mahlzeiten|
      invariant 0 <= j <= |mahlzeiten|
      invariant names == done + ResolvedInDay(mahlzeiten[..j], rezepte)
      invariant r == ShoppingFor(names, rezepte)
    {
      var name := mahlzeiten[j].rezept;
      ResolvedInDayStep(mahlzeiten, j, rezepte);
      if name != "" && name in rezepte {
        r := AddRecipe(r, rezepte[name].zutaten);
        ShoppingForSnoc(names, name, rezepte);
        AppendAssociative(done, ResolvedInDay(mahlzeiten[..j], rezepte), [name]);
        names := names + [name];
      }
      j := j + 1;
    }
    ResolvedInDayPrefix(mahlzeiten, j, rezepte);
  }

  /** The innermost loop: every line of one recipe added to the list. */
  method AddRecipe(liste: map<string, real>, zutaten: map<string, real>) returns (r: map<string, real>)
    ensures r == AddQuantities(liste, zutaten)
  {
    r := liste;
    var remaining := zutaten.Keys;
    while remaining != {}
      invariant remaining <= zutaten.Keys
      invariant forall k :: k in r <==> k in liste || (k in zutaten && k !in remaining)
      invariant forall k :: k in r ==> r[k] == Get(liste, k) + (if k in remaining then 0.0 else Get(zutaten, k))
      decreases |remaining|
    {
      var zutat :| zutat in remaining;
      r := r[zutat := Get(r, zutat) + zutaten[zutat]];
      remaining := remaining - {zutat};
    }
    SameQuantities(r, liste, zutaten);
  }

  lemma SameQuantities(r: map<string, real>, liste: map<string, real>, zutaten: map<string, real>)
    requires forall k :: k in r <==> k in liste || k in zutaten
    requires forall k :: k in r ==> r[k] == Get(liste, k) + Get(zutaten, k)
    ensures r == AddQuantities(liste, zutaten)
  {
  }

  lemma ShoppingForSnoc(names: seq<string>, n: string, rezepte: map<string, Recipe>)
    requires n in rezepte
    ensures ShoppingFor(names + [n], rezepte) == AddQuantities(ShoppingFor(names, rezepte), rezepte[n].zutaten)
  {
    assert (names + [n])[..|names|] == names;
  }

  /** The reference definition: the grams of ingredient `k` over the
      occurrences `names`, counted from the first occurrence on. */
  function GramsOf(names: seq<string>, rezepte: map<string, Recipe>, k: string): real {
    if names == [] then 0.0 else Get(Lines(names[0], rezepte), k) + GramsOf(names[1..], rezepte, k)
  }

  /** Whether some occurrence among `names` uses ingredient `k`. */
  predicate UsedIn(names: seq<string>, rezepte: map<string, Recipe>, k: string) {
    exists i :: 0 <= i < |names| && k in Lines(names[i], rezepte)
  }

  lemma {:induction false} GramsOfSnoc(names: seq<string>, n: string, rezepte: map<string, Recipe>, k: string)
    ensures GramsOf(names + [n], rezepte, k) == GramsOf(names, rezepte, k) + Get(Lines(n, rezepte), k)
    decreases |names|
  {
    if names != [] {
      assert (names + [n])[1..] == names[1..] + [n];
      GramsOfSnoc(names[1..], n, rezepte, k);
    }
  }

  /** The list has exactly the ingredients some resolving occurrence uses,
      and each with the sum of its grams over all occurrences. */
  lemma {:induction false} ShoppingForMeaning(names: seq<string>, rezepte: map<string, Recipe>, k: string)
    ensures k in ShoppingFor(names, rezepte) <==> UsedIn(names, rezepte, k)
    ensures Get(ShoppingFor(names, rezepte), k) == GramsOf(names, rezepte, k)
    decreases |names|
  {
    if names != [] {
      var init, last := names[..|names| - 1], names[|names| - 1];
      ShoppingForMeaning(init, rezepte, k);
      assert names == init + [last];
      GramsOfSnoc(init, last, rezepte, k);
      assert forall i :: 0 <= i < |init| ==> init[i] == names[i];
      if UsedIn(names, rezepte, k) && !(k in Lines(last, rezepte)) {
        var i :| 0 <= i < |names| && k in Lines(names[i], rezepte);
        assert i < |init|;
      }
    }
  }

  lemma ShoppingListMeaning(p: Plan, rezepte: map<string, Recipe>, k: string)
    ensures k in ShoppingList(p, rezepte) <==> UsedIn(ResolvedRecipes(p, rezepte), rezepte, k)
    ensures Get(ShoppingList(p, rezepte), k) == GramsOf(ResolvedRecipes(p, rezepte), rezepte, k)
  {
    ShoppingForMeaning(ResolvedRecipes(p, rezepte), rezepte, k);
  }

  /** With no resolving meal, the list is empty (the tab then shows its
      "plan is empty" note). */
  lemma EmptyPlanEmptyList(p: Plan, rezepte: map<string, Recipe>)
    requires ResolvedRecipes(p, rezepte) == []
    ensures ShoppingList(p, rezepte) == map[]
  {
  }

  /** A recipe with 200 g of rice, scheduled on two days: 400 g on the list. */
  lemma ShoppingExample()
    ensures var rezepte := map["Reispfanne" := Recipe(map["Reis" := 200.0], 2)];
            var p := [Day("Montag", [Meal("12:00", "Reispfanne")]), Day("Dienstag", [Meal("18:00", "Reispfanne")])];
            ShoppingList(p, rezepte) == map["Reis" := 400.0]
  {
    var rezepte := map["Reispfanne" := Recipe(map["Reis" := 200.0], 2)];
    var p := [Day("Montag", [Meal("12:00", "Reispfanne")]), Day("Dienstag", [Meal("18:00", "Reispfanne")])];
    var m1, m2 := [Meal("12:00", "Reispfanne")], [Meal("18:00", "Reispfanne")];
    assert m1[..0] == [] && m2[..0] == [];
    assert ResolvedInDay(m1, rezepte) == ["Reispfanne"];
    assert ResolvedInDay(m2, rezepte) == ["Reispfanne"];
    assert p[..1][..0] == [] && p[..1] == [p[0]];
    assert ResolvedRecipes(p[..1], rezepte) == ["Reispfanne"];
    assert ResolvedRecipes(p, rezepte) == ["Reispfanne", "Reispfanne"];
    var names := ["Reispfanne", "Reispfanne"];
    assert names[..1] == ["Reispfanne"] && names[..1][..0] == [];
    assert ShoppingFor(names[..1], rezepte) == map["Reis" := 200.0];
    assert ShoppingFor(names, rezepte).Keys == {"Reis"};
  }

  /** The list depends on the recipes' ingredient lines, never on their
      serving counts. */
  lemma {:induction false} ShoppingIgnoresPortionen(names: seq<string>, rezepte: map<string, Recipe>, rezepte2: map<string, Recipe>)
    requires rezepte.Keys == rezepte2.Keys
    requires forall n :: n in rezepte ==> rezepte[n].zutaten == rezepte2[n].zutaten
    ensures ShoppingFor(names, rezepte) == ShoppingFor(names, rezepte2)
    decreases |names|
  {
    if names != [] {
      ShoppingIgnoresPortionen(names[..|names| - 1], rezepte, rezepte2);
    }
  }

  // Presentation

  /** The group an ingredient of the list is shown under: its own category
      (`get("kategorie", "Sonstiges")`), or "Unbekannt" when the list names
      an ingredient that no longer exists. */
  function CategoryOf(name: string, zutaten: map<string, Ingredient>): string {
    if name in zutaten then
      match zutaten[name].kategorie
      case Some(k) => k
      case None => "Sonstiges"
    else "Unbekannt"
  }

  datatype Group = Group(kategorie: string, items: seq<(string, real)>)

  predicate StrictlyIncreasing(s: seq<string>) {
    forall i, j :: 0 <= i < j < |s| ==> Lt(s[i], s[j])
  }

  function Names(items: seq<(string, real)>): (r: seq<string>)
    ensures |r| == |items| && forall i :: 0 <= i < |items| ==> r[i] == items[i].0
  {
    seq(|items|, i requires 0 <= i < |items| => items[i].0)
  }

  function Categories(groups: seq<Group>): (r: seq<string>)
    ensures |r| == |groups| && forall i :: 0 <= i < |groups| ==> r[i] == groups[i].kategorie
  {
    seq(|groups|, i requires 0 <= i < |groups| => groups[i].kategorie)
  }

  /** The smallest string of a non-empty set. */
  method MinOf(s: set<string>) returns (m: string)
    requires s != {}
    ensures m in s && forall x :: x in s ==> Le(m, x)
  {
    m :| m in s;
    var rest := s - {m};
    LeReflexive(m);
    while rest != {}
      invariant rest <= s && m in s
      invariant forall x :: x in s && x !in rest ==> Le(m, x)
      decreases |rest|
    {
      var y :| y in rest;
      if Lt(y, m) {
        LtIsStrict(y, m);
        forall x | x in s && x !in rest
          ensures Le(y, x)
        {
          LeTransitive(y, m, x);
        }
        m := y;
        LeReflexive(m);
      }
      rest := rest - {y};
    }
  }

  /** Python's `sorted` on a set of distinct strings. */
  method SortStrings(s: set<string>) returns (r: seq<string>)
    ensures StrictlyIncreasing(r)
    ensures forall x :: x in r <==> x in s
    ensures |r| == |s|
  {
    r := [];
    var rest := s;
    while rest != {}
      invariant rest <= s
      invariant forall x :: x in r <==> x in s && x !in rest
      invariant StrictlyIncreasing(r)
      invariant forall i, y :: 0 <= i < |r| && y in rest ==> Lt(r[i], y)
      invariant |r| + |rest| == |s|
      decreases |rest|
    {
      var m := MinOf(rest);
      forall y | y in rest - {m}
        ensures Lt(m, y)
      {
        LtIsStrict(m, y);
      }
      r := r + [m];
      rest := rest - {m};
    }
  }

  /** What the grouping loop keeps: each category's bucket is non-empty,
      in name order, and holds only entries of the list under that
      category, all of them among `seen`. */
  predicate BucketsValid(buckets: map<string, seq<(string, real)>>, seen: seq<string>,
                         liste: map<string, real>, zutaten: map<string, Ingredient>)
  {
    && (forall c :: c in buckets ==> buckets[c] != [] && StrictlyIncreasing(Names(buckets[c])))
    && (forall c, it :: c in buckets && it in buckets[c]
          ==> it.0 in seen && it.0 in liste && it.1 == liste[it.0] && CategoryOf(it.0, zutaten) == c)
  }

  /** The categorized list the tab shows: one group per category in name
      order, each non-empty with its ingredients in name order, every
      ingredient of the list exactly once with its quantity and under its
      own category. */
  method GroupByCategory(liste: map<string, real>, zutaten: map<string, Ingredient>) returns (groups: seq<Group>)
    ensures StrictlyIncreasing(Categories(groups))
    ensures forall g :: g in groups ==> g.items != [] && StrictlyIncreasing(Names(g.items))
    ensures forall g, it :: g in groups && it in g.items
              ==> it.0 in liste && it.1 == liste[it.0] && CategoryOf(it.0, zutaten) == g.kategorie
    ensures forall n :: n in liste ==> exists g, it :: g in groups && it in g.items && it.0 == n
  {
    var names := SortStrings(liste.Keys);
    var buckets := Bucket(names, liste, zutaten);
    var kategorien := SortStrings(buckets.Keys);
    groups := [];
    var j := 0;
    while j < |kategorien|
      invariant 0 <= j <= |kategorien|
      invariant |groups| == j
      invariant forall a :: 0 <= a < j ==> groups[a] == Group(kategorien[a], buckets[kategorien[a]])
    {
      groups := groups + [Group(kategorien[j], buckets[kategorien[j]])];
      j := j + 1;
    }
    GroupsFromBuckets(groups, kategorien, buckets, names, liste, zutaten);
  }

  /** The groups built from the buckets, one per category in order, have
      the properties `GroupByCategory` promises. */
  lemma GroupsFromBuckets(groups: seq<Group>, kategorien: seq<string>, buckets: map<string, seq<(string, real)>>,
                          names: seq<string>, liste: map<string, real>, zutaten: map<string, Ingredient>)
    requires StrictlyIncreasing(kategorien) && forall c :: c in kategorien <==> c in buckets
    requires |groups| == |kategorien|
    requires forall a :: 0 <= a < |groups| ==> groups[a] == Group(kategorien[a], buckets[kategorien[a]])
    requires BucketsValid(buckets, names, liste, zutaten)
    requires forall n :: n in liste ==> Filed(buckets, n, liste, zutaten)
    ensures StrictlyIncreasing(Categories(groups))
    ensures forall g :: g in groups ==> g.items != [] && StrictlyIncreasing(Names(g.items))
    ensures forall g, it :: g in groups && it in g.items
              ==> it.0 in liste && it.1 == liste[it.0] && CategoryOf(it.0, zutaten) == g.kategorie
    ensures forall n :: n in liste ==> exists g, it :: g in groups && it in g.items && it.0 == n
  {
    assert Categories(groups) == kategorien;
    forall n | n in liste
      ensures exists g, it :: g in groups && it in g.items && it.0 == n
    {
      var c := CategoryOf(n, zutaten);
      var a :| 0 <= a < |kategorien| && kategorien[a] == c;
      assert groups[a] in groups && (n, liste[n]) in groups[a].items;
    }
  }

  /** The loop over `sorted(einkaufsliste.items())` that appends each entry
      to its category's bucket. */
  method Bucket(names: seq<string>, liste: map<string, real>, zutaten: map<string, Ingredient>)
    returns (buckets: map<string, seq<(string, real)>>)
    requires StrictlyIncreasing(names)
    requires forall n :: n in names <==> n in liste
    ensures BucketsValid(buckets, names, liste, zutaten)
    ensures forall n :: n in liste ==> Filed(buckets, n, liste, zutaten)
  {
    buckets := map[];
    var i := 0;
    while i < |names|
      invariant 0 <= i <= |names|
      invariant BucketsValid(buckets, names[..i], liste, zutaten)
      invariant forall k :: 0 <= k < i ==> Filed(buckets, names[k], liste, zutaten)
    {
      var name := names[i];
      var kategorie := CategoryOf(name, zutaten);
      var bucket := if kategorie in buckets then buckets[kategorie] else [];
      ghost var before := buckets;
      BucketStepValid(buckets, names, i, liste, zutaten);
      BucketStepFiled(buckets, names, i, liste, zutaten);
      buckets := buckets[kategorie := bucket + [(name, liste[name])]];
      assert buckets == Filing(before, name, liste, zutaten);
      i := i + 1;
    }
    assert names[..i] == names;
    forall n | n in liste
      ensures Filed(buckets, n, liste, zutaten)
    {
      var k :| 0 <= k < |names| && names[k] == n;
    }
  }

  /** Entry `n` of the list sits in the bucket of its category. */
  predicate Filed(buckets: map<string, seq<(string, real)>>, n: string, liste: map<string, real>, zutaten: map<string, Ingredient>)
    requires n in liste
  {
    CategoryOf(n, zutaten) in buckets && (n, liste[n]) in buckets[CategoryOf(n, zutaten)]
  }

  /** The bucket map after entry `names[i]` is appended to its category. */
  function Filing(buckets: map<string, seq<(string, real)>>, name: string, liste: map<string, real>,
                  zutaten: map<string, Ingredient>): (next: map<string, seq<(string, real)>>)
    requires name in liste
    ensures next.Keys == buckets.Keys + {CategoryOf(name, zutaten)}
    ensures forall c :: c in buckets && c != CategoryOf(name, zutaten) ==> next[c] == buckets[c]
  {
    var kategorie := CategoryOf(name, zutaten);
    var bucket := if kategorie in buckets then buckets[kategorie] else [];
    buckets[kategorie := bucket + [(name, liste[name])]]
  }

  /** One step of the grouping loop keeps the buckets valid. */
  lemma BucketStepValid(buckets: map<string, seq<(string, real)>>, names: seq<string>, i: nat,
                        liste: map<string, real>, zutaten: map<string, Ingredient>)
    requires StrictlyIncreasing(names) && i < |names|
    requires forall n :: n in names <==> n in liste
    requires BucketsValid(buckets, names[..i], liste, zutaten)
    ensures BucketsValid(Filing(buckets, names[i], liste, zutaten), names[..i + 1], liste, zutaten)
  {
    var name := names[i];
    var kategorie := CategoryOf(name, zutaten);
    var bucket := if kategorie in buckets then buckets[kategorie] else [];
    var next := Filing(buckets, name, liste, zutaten);
    AppendInOrder(bucket, names, i, liste[name]);
    assert names[..i + 1] == names[..i] + [name];
    assert next[kategorie] == bucket + [(name, liste[name])];
  }

  /** One step of the grouping loop files the new entry and keeps every
      earlier one filed. */
  lemma BucketStepFiled(buckets: map<string, seq<(string, real)>>, names: seq<string>, i: nat,
                        liste: map<string, real>, zutaten: map<string, Ingredient>)
    requires i < |names|
    requires forall n :: n in names ==> n in liste
    requires forall k :: 0 <= k < i ==> Filed(buckets, names[k], liste, zutaten)
    ensures forall k :: 0 <= k < i + 1 ==> Filed(Filing(buckets, names[i], liste, zutaten), names[k], liste, zutaten)
  {
    var name := names[i];
    var kategorie := CategoryOf(name, zutaten);
    var bucket := if kategorie in buckets then buckets[kategorie] else [];
    var next := Filing(buckets, name, liste, zutaten);
    assert next[kategorie] == bucket + [(name, liste[name])];
    forall k | 0 <= k < i + 1
      ensures Filed(next, names[k], liste, zutaten)
    {
      assert names[k] in names;
    }
  }

  /** Appending the next name of a sorted sequence to a bucket of earlier
      names keeps the bucket in name order. */
  lemma AppendInOrder(bucket: seq<(string, real)>, names: seq<string>, i: nat, menge: real)
    requires StrictlyIncreasing(Names(bucket))
    requires StrictlyIncreasing(names) && i < |names|
    requires forall it :: it in bucket ==> it.0 in names[..i]
    ensures StrictlyIncreasing(Names(bucket + [(names[i], menge)]))
  {
    var b' := bucket + [(names[i], menge)];
    forall a | 0 <= a < |bucket|
      ensures Lt(bucket[a].0, names[i])
    {
      assert bucket[a] in bucket;
      var k :| 0 <= k < i && names[..i][k] == bucket[a].0;
    }
    assert forall a :: 0 <= a < |bucket| ==> b'[a] == bucket[a];
  }

  /** How a quantity is shown: in kilograms from 1000 g on, in grams below. */
  datatype Amount = Kilograms(kg: real) | Grams(g: real)
  {
    function InGrams(): real {
      match this
      case Kilograms(v) => v * 1000.0
      case Grams(v) => v
    }
  }

  function DisplayAmount(menge: real): (a: Amount)
    ensures a.Kilograms? <==> menge >= 1000.0
    ensures a.InGrams() == menge
    ensures a.Kilograms? ==> a.kg >= 1.0
  {
    if menge >= 1000.0 then Kilograms(menge / 1000.0) else Grams(menge)
  }
}
