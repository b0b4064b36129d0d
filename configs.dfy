/** The preset registry of `src/configs/index.js`: the nine predefined
    configurations keyed by id, the filter by category and the sorted list of
    distinct categories. Only the id, the display name and the category of a
    preset are modelled; the registry's logic reads nothing else. */
module Presets {

  datatype Config = Config(id: string, name: string, category: string)

  const FigureEight := Config("figure-eight", "Figure Eight", "stable-orbits")
  const LagrangePoints := Config("lagrange-points", "Lagrange Points", "equilibrium")
  const Butterfly := Config("butterfly", "Butterfly", "chaotic")
  const CircularChain := Config("circular-chain", "Circular Chain", "periodic")
  const Trefoil := Config("trefoil", "Trefoil", "periodic")
  const Broucke := Config("broucke", "Broucke Orbit", "periodic")
  const Goerli := Config("goerli", "Goerli Flower", "periodic")
  const Infinity := Config("infinity", "Infinity Symbol", "periodic")
  const Spiral := Config("spiral", "Spiral Dance", "chaotic")

  /** The presets in the order the registry object lists them; with distinct
      ids this is also the order `Object.values` returns them in. */
  const Registry: seq<Config> :=
    [FigureEight, LagrangePoints, Butterfly, CircularChain, Trefoil, Broucke, Goerli, Infinity, Spiral]

  // ---------------------------------------------------------------------
  // Lookup by id

  predicate DistinctIds(cs: seq<Config>) {
    forall i, j :: 0 <= i < j < |cs| ==> cs[i].id != cs[j].id
  }

  /** An object literal with one computed key per config, later keys
      overwriting earlier ones. */
  function Index(cs: seq<Config>): (m: map<string, Config>)
    ensures m.Keys == set c | c in cs :: c.id
    ensures forall id :: id in m ==> m[id].id == id && m[id] in cs
  {
    if |cs| == 0 then map[]
    else
      var init, last := cs[..|cs| - 1], cs[|cs| - 1];
      assert forall c :: c in cs <==> c in init || c == last;
      Index(init)[last.id := last]
  }

  /** With distinct ids, every config is found under its own id. */
  lemma {:induction false} IndexFindsEach(cs: seq<Config>, k: nat)
    requires DistinctIds(cs) && k < |cs|
    ensures Index(cs)[cs[k].id] == cs[k]
  {
    var init := cs[..|cs| - 1];
    if k < |cs| - 1 {
      IndexFindsEach(init, k);
    }
  }

  lemma RegistryIdsDistinct()
    ensures DistinctIds(Registry)
  {
    var ids := seq(|Registry|, k requires 0 <= k < |Registry| => Registry[k].id);
    assert ids == ["figure-eight", "lagrange-points", "butterfly", "circular-chain", "trefoil",
                   "broucke", "goerli", "infinity", "spiral"];
    assert "trefoil"[0] != "broucke"[0];
    assert "goerli"[0] != "spiral"[0];
  }

  /** `predefinedConfigs`. */
  function PredefinedConfigs(): (m: map<string, Config>)
    ensures m.Keys == set c | c in Registry :: c.id
    ensures forall id :: id in m ==> m[id].id == id && m[id] in Registry
  {
    Index(Registry)
  }

  /** The registry maps exactly the presets' ids, each to its own preset. */
  lemma PredefinedConfigsById()
    ensures PredefinedConfigs().Keys == set c | c in Registry :: c.id
    ensures forall k :: 0 <= k < |Registry| ==> PredefinedConfigs()[Registry[k].id] == Registry[k]
  {
    RegistryIdsDistinct();
    forall k | 0 <= k < |Registry|
      ensures PredefinedConfigs()[Registry[k].id] == Registry[k]
    {
      IndexFindsEach(Registry, k);
    }
  }

  // ---------------------------------------------------------------------
  // Filter by category

  /** The configs of one category, in the order given. */
  function Filter(cs: seq<Config>, category: string): (r: seq<Config>)
    ensures |r| <= |cs|
    ensures forall c :: c in r <==> c in cs && c.category == category
  {
    if |cs| == 0 then []
    else if cs[0].category == category then [cs[0]] + Filter(cs[1..], category)
    else Filter(cs[1..], category)
  }

  /** Filtering keeps the given order: the filter of a concatenation is the
      concatenation of the filters. */
  lemma {:induction false} FilterAppend(a: seq<Config>, b: seq<Config>, category: string)
    ensures Filter(a + b, category) == Filter(a, category) + Filter(b, category)
  {
    if |a| > 0 {
      assert (a + b)[1..] == a[1..] + b;
      FilterAppend(a[1..], b, category);
    } else {
      assert a + b == b;
    }
  }

  /** Filtering keeps each matching config as many times as it occurs and
      drops every other one. */
  lemma {:induction false} FilterCounts(cs: seq<Config>, category: string, c: Config)
    ensures multiset(Filter(cs, category))[c] == if c.category == category then multiset(cs)[c] else 0
  {
    if |cs| > 0 {
      FilterCounts(cs[1..], category, c);
      assert cs == [cs[0]] + cs[1..];
    }
  }

  /** `getConfigsByCategory`. */
  function ByCategory(category: string): (r: seq<Config>)
    ensures |r| <= |Registry|
    ensures forall c :: c in r <==> c in Registry && c.category == category
  {
    Filter(Registry, category)
  }

  // ---------------------------------------------------------------------
  // Lexicographic order on strings

  /** JavaScript's default `sort` order: code unit by code unit, a proper
      prefix first. */
  predicate LessEq(a: string, b: string) {
    |a| == 0 || (|b| > 0 && (a[0] < b[0] || (a[0] == b[0] && LessEq(a[1..], b[1..]))))
  }

  lemma {:induction false} LessEqTotal(a: string, b: string)
    ensures LessEq(a, b) || LessEq(b, a)
  {
    if |a| > 0 && |b| > 0 && a[0] == b[0] {
      LessEqTotal(a[1..], b[1..]);
    }
  }

  lemma {:induction false} LessEqTransitive(a: string, b: string, c: string)
    requires LessEq(a, b) && LessEq(b, c)
    ensures LessEq(a, c)
  {
    if |a| > 0 && a[0] == b[0] && b[0] == c[0] {
      LessEqTransitive(a[1..], b[1..], c[1..]);
    }
  }

  lemma {:induction false} LessEqAntisymmetric(a: string, b: string)
    requires LessEq(a, b) && LessEq(b, a)
    ensures a == b
  {
    if |a| > 0 {
      LessEqAntisymmetric(a[1..], b[1..]);
      assert a == [a[0]] + a[1..] && b == [b[0]] + b[1..];
    }
  }

  /** Each string strictly before the next. */
  predicate StrictlySorted(s: seq<string>) {
    forall i :: 0 < i < |s| ==> LessEq(s[i - 1], s[i]) && s[i - 1] != s[i]
  }

  predicate Distinct(s: seq<string>) {
    forall i, j :: 0 <= i < j < |s| ==> s[i] != s[j]
  }

  /** Insertion into a sorted list before the first element not below it. */
  function Insert(x: string, s: seq<string>): (r: seq<string>)
    ensures |r| == |s| + 1
    ensures forall y :: y in r <==> y == x || y in s
    ensures multiset(r) == multiset(s) + multiset{x}
  {
    if |s| == 0 then [x]
    else if LessEq(x, s[0]) then [x] + s
    else
      assert s == [s[0]] + s[1..];
      [s[0]] + Insert(x, s[1..])
  }

  lemma {:induction false} InsertSorted(x: string, s: seq<string>)
    requires StrictlySorted(s) && x !in s
    ensures StrictlySorted(Insert(x, s))
  {
    if |s| > 0 && !LessEq(x, s[0]) {
      LessEqTotal(x, s[0]);
      InsertSorted(x, s[1..]);
      var r := Insert(x, s[1..]);
      assert Insert(x, s) == [s[0]] + r;
      if |s| > 1 {
        assert r[0] == x || r[0] == s[1];
      }
    }
  }

  /** Insertion sort. */
  function Sort(s: seq<string>): (r: seq<string>)
    ensures |r| == |s|
    ensures forall y :: y in r <==> y in s
    ensures multiset(r) == multiset(s)
  {
    if |s| == 0 then []
    else
      assert s == [s[0]] + s[1..];
      Insert(s[0], Sort(s[1..]))
  }

  /** Sorting distinct strings gives them in strictly increasing order. */
  lemma {:induction false} SortSorted(s: seq<string>)
    requires Distinct(s)
    ensures StrictlySorted(Sort(s))
  {
    if |s| > 0 {
      SortSorted(s[1..]);
      assert s[0] !in s[1..];
      InsertSorted(s[0], Sort(s[1..]));
    }
  }

  /** Strict order between neighbours extends to every pair. */
  lemma {:induction false} StrictlySortedPairs(s: seq<string>, i: nat, j: nat)
    requires StrictlySorted(s) && i < j < |s|
    ensures LessEq(s[i], s[j]) && s[i] != s[j]
    decreases j - i
  {
    if i + 1 < j {
      StrictlySortedPairs(s, i + 1, j);
      LessEqTransitive(s[i], s[i + 1], s[j]);
      if s[i] == s[j] {
        LessEqAntisymmetric(s[i], s[i + 1]);
      }
    }
  }

  // ---------------------------------------------------------------------
  // Categories

  /** `[...new Set(xs)]`: each value once, at its first occurrence. */
  function Dedup(xs: seq<string>): (r: seq<string>)
    ensures Distinct(r)
    ensures forall y :: y in r <==> y in xs
  {
    if |xs| == 0 then []
    else
      var init, last := xs[..|xs| - 1], xs[|xs| - 1];
      assert forall y :: y in xs <==> y in init || y == last;
      var d := Dedup(init);
      if last in d then d else d + [last]
  }

  function CategoryOf(cs: seq<Config>): (r: seq<string>)
    ensures |r| == |cs| && forall k :: 0 <= k < |cs| ==> r[k] == cs[k].category
  {
    seq(|cs|, k requires 0 <= k < |cs| => cs[k].category)
  }

  /** `getCategories`. */
  function Categories(): (r: seq<string>)
    ensures forall c :: c in r <==> exists k :: 0 <= k < |Registry| && Registry[k].category == c
  {
    Sort(Dedup(CategoryOf(Registry)))
  }

  /** The categories are listed once each, in strictly increasing order. */
  lemma CategoriesSorted()
    ensures Distinct(Categories())
    ensures forall i, j :: 0 <= i < j < |Categories()| ==> LessEq(Categories()[i], Categories()[j])
  {
    var cats := Categories();
    SortSorted(Dedup(CategoryOf(Registry)));
    forall i, j | 0 <= i < j < |cats|
      ensures LessEq(cats[i], cats[j]) && cats[i] != cats[j]
    {
      StrictlySortedPairs(cats, i, j);
    }
  }

  /** A category is listed exactly when some preset has it. */
  lemma CategoriesMembers(c: string)
    ensures c in Categories() <==> exists k :: 0 <= k < |Registry| && Registry[k].category == c
  {
    var cats := CategoryOf(Registry);
    if c in cats {
      var k :| 0 <= k < |cats| && cats[k] == c;
      assert Registry[k].category == c;
    }
  }

  /** Every preset is in the list of exactly one listed category: its own. */
  lemma EachPresetInOneCategory(k: nat, c: string)
    requires k < |Registry|
    ensures Registry[k].category in Categories()
    ensures Registry[k] in ByCategory(c) <==> c == Registry[k].category
  {
    CategoriesMembers(Registry[k].category);
  }

  /** Two strictly sorted lists with the same members start alike. */
  lemma SortedHeads(a: seq<string>, b: seq<string>)
    requires StrictlySorted(a) && StrictlySorted(b) && |a| > 0
    requires forall y :: y in a <==> y in b
    ensures |b| > 0 && a[0] == b[0]
  {
    assert a[0] in b;
    var i :| 0 <= i < |b| && b[i] == a[0];
    assert b[0] in a;
    var j :| 0 <= j < |a| && a[j] == b[0];
    if i > 0 && j > 0 {
      StrictlySortedPairs(b, 0, i);
      StrictlySortedPairs(a, 0, j);
      LessEqAntisymmetric(a[0], b[0]);
    }
  }

  /** Without their first element, a strictly sorted list holds every other
      member and only those. */
  lemma SortedTail(a: seq<string>, y: string)
    requires StrictlySorted(a) && |a| > 0
    ensures y in a[1..] <==> y in a && y != a[0]
  {
    if y in a[1..] {
      var k :| 1 <= k < |a| && a[k] == y;
      StrictlySortedPairs(a, 0, k);
    }
    if y in a && y != a[0] {
      var k :| 0 <= k < |a| && a[k] == y;
      assert a[1..][k - 1] == y;
    }
  }

  /** A strictly sorted list is determined by its members. */
  lemma {:induction false} SortedUnique(a: seq<string>, b: seq<string>)
    requires StrictlySorted(a) && StrictlySorted(b)
    requires forall y :: y in a <==> y in b
    ensures a == b
    decreases |a|
  {
    if |a| > 0 {
      assert a[0] in b;
    }
    if |b| > 0 {
      assert b[0] in a;
    }
    if |a| > 0 {
      SortedHeads(a, b);
      forall y
        ensures y in a[1..] <==> y in b[1..]
      {
        SortedTail(a, y);
        SortedTail(b, y);
      }
      SortedUnique(a[1..], b[1..]);
      assert a == [a[0]] + a[1..] && b == [b[0]] + b[1..];
    }
  }

  /** The presets' categories in registry order. */
  lemma CategoryList()
    ensures CategoryOf(Registry) == ["stable-orbits", "equilibrium", "chaotic", "periodic", "periodic",
                                     "periodic", "periodic", "periodic", "chaotic"]
  {
  }

  /** The concrete list the registry yields. */
  lemma CategoriesValue()
    ensures Categories() == ["chaotic", "equilibrium", "periodic", "stable-orbits"]
  {
    var expected := ["chaotic", "equilibrium", "periodic", "stable-orbits"];
    CategoryList();
    SortSorted(Dedup(CategoryOf(Registry)));
    assert LessEq("chaotic", "equilibrium") && LessEq("equilibrium", "periodic");
    assert LessEq("periodic", "stable-orbits");
    assert StrictlySorted(expected);
    SortedUnique(Categories(), expected);
  }
}
