/** The prompt table: keyword categories, the "popular" strip, the choice
    between skeleton, empty state and table, the sorted copy of the list, and
    the effect that turns a store error into a toast. The list is taken as
    prompts; reading `name` of an `undefined` entry is not modelled here. */
module PromptsList {
  import opened Wrappers
  import opened Text
  import opened PromptTypes
  import PromptsStore

  /** The four categories a prompt name falls into. */
  datatype Category = Sales | Support | Demo | Custom

  predicate SalesWord(lowered: string) {
    Contains(lowered, "sales") || Contains(lowered, "sell") || Contains(lowered, "pitch")
  }

  predicate SupportWord(lowered: string) {
    Contains(lowered, "support") || Contains(lowered, "help") || Contains(lowered, "service")
  }

  predicate DemoWord(lowered: string) {
    Contains(lowered, "demo") || Contains(lowered, "presentation") || Contains(lowered, "show")
  }

  /** `getPromptCategory(name)`: keywords are matched in the lowercased name,
      sales before support before demo; a name with none is custom. The card
      carries an identical copy of this function. */
  function CategoryOf(name: string): (r: Category)
    ensures r == Sales <==> SalesWord(Lower(name))
    ensures r == Support <==> !SalesWord(Lower(name)) && SupportWord(Lower(name))
    ensures r == Demo <==> !SalesWord(Lower(name)) && !SupportWord(Lower(name)) && DemoWord(Lower(name))
    ensures r == Custom <==> !SalesWord(Lower(name)) && !SupportWord(Lower(name)) && !DemoWord(Lower(name))
  {
    var lowered := Lower(name);
    if SalesWord(lowered) then Sales
    else if SupportWord(lowered) then Support
    else if DemoWord(lowered) then Demo
    else Custom
  }

  /** The test of the popular strip: three keywords only. */
  predicate PopularName(name: string) {
    var lowered := Lower(name);
    Contains(lowered, "sales") || Contains(lowered, "demo") || Contains(lowered, "support")
  }

  /** `prompts.filter(p => PopularName(p.name))` */
  function FilterPopular(ps: seq<Prompt>): (r: seq<Prompt>)
    ensures |r| <= |ps|
    ensures forall p :: p in r <==> p in ps && PopularName(p.name)
  {
    if ps == [] then []
    else if PopularName(ps[0].name) then [ps[0]] + FilterPopular(ps[1..])
    else FilterPopular(ps[1..])
  }

  /** `getPopularPrompts`: the popular ones among the first three prompts. */
  function PopularPrompts(prompts: seq<Prompt>): (r: seq<Prompt>)
    ensures |r| <= 3
    ensures forall p :: p in r <==> p in prompts[..if |prompts| < 3 then |prompts| else 3] && PopularName(p.name)
  {
    FilterPopular(prompts[..if |prompts| < 3 then |prompts| else 3])
  }

  /** What the filter keeps of one prompt: the prompt itself, or nothing. */
  function Kept(p: Prompt): (r: seq<Prompt>)
    ensures r == [p] <==> PopularName(p.name)
    ensures r == [] <==> !PopularName(p.name)
  {
    if PopularName(p.name) then [p] else []
  }

  /** The filter works prompt by prompt: filtering a concatenation is
      concatenating the filtered parts, so the kept prompts stay in their
      order, each kept once per occurrence. */
  lemma {:induction false} FilterPopularConcat(a: seq<Prompt>, b: seq<Prompt>)
    ensures FilterPopular(a + b) == FilterPopular(a) + FilterPopular(b)
    decreases |a|
  {
    if a != [] {
      assert (a + b)[0] == a[0];
      assert (a + b)[1..] == a[1..] + b;
      FilterPopularConcat(a[1..], b);
    } else {
      assert a + b == b;
    }
  }

  lemma FilterPopularOne(p: Prompt)
    ensures FilterPopular([p]) == Kept(p)
  {
    assert [p][1..] == [];
  }

  lemma FilterPopularTwo(p: Prompt, q: Prompt)
    ensures FilterPopular([p, q]) == Kept(p) + Kept(q)
  {
    assert [p, q] == [p] + [q];
    FilterPopularConcat([p], [q]);
    FilterPopularOne(p);
    FilterPopularOne(q);
  }

  lemma FilterPopularThree(p: Prompt, q: Prompt, o: Prompt)
    ensures FilterPopular([p, q, o]) == Kept(p) + Kept(q) + Kept(o)
  {
    assert [p, q, o] == [p, q] + [o];
    FilterPopularConcat([p, q], [o]);
    FilterPopularTwo(p, q);
    FilterPopularOne(o);
  }

  /** The popular strip, prompt by prompt: among the first three prompts, in
      their order, each popular one once. */
  lemma PopularPromptsInOrder(prompts: seq<Prompt>)
    ensures |prompts| == 0 ==> PopularPrompts(prompts) == []
    ensures |prompts| == 1 ==> PopularPrompts(prompts) == Kept(prompts[0])
    ensures |prompts| == 2 ==> PopularPrompts(prompts) == Kept(prompts[0]) + Kept(prompts[1])
    ensures |prompts| >= 3 ==>
      PopularPrompts(prompts) == Kept(prompts[0]) + Kept(prompts[1]) + Kept(prompts[2])
  {
    if |prompts| == 1 {
      assert prompts[..1] == [prompts[0]];
      FilterPopularOne(prompts[0]);
    } else if |prompts| == 2 {
      assert prompts[..2] == [prompts[0], prompts[1]];
      FilterPopularTwo(prompts[0], prompts[1]);
    } else if |prompts| >= 3 {
      assert prompts[..3] == [prompts[0], prompts[1], prompts[2]];
      FilterPopularThree(prompts[0], prompts[1], prompts[2]);
    }
  }

  /** A name classed as sales only through "sell" or "pitch" is not popular,
      and such names exist. */
  lemma SalesIsNotAlwaysPopular(name: string)
    requires Contains(Lower(name), "pitch") || Contains(Lower(name), "sell")
    requires !Contains(Lower(name), "sales") && !Contains(Lower(name), "demo")
    requires !Contains(Lower(name), "support")
    ensures CategoryOf(name) == Sales && !PopularName(name)
  {
  }

  lemma PitchIsSalesButNotPopular()
    ensures CategoryOf("pitch") == Sales && !PopularName("pitch")
  {
    assert Lower("pitch") == "pitch";
    assert "pitch"[..5] == "pitch";
    assert !Contains("pitch", "sales") by { assert "pitch"[..5][0] != "sales"[0]; }
    assert !Contains("pitch", "demo") by {
      assert "pitch"[..4] == "pitc" && "pitc"[0] != "demo"[0];
      assert "pitch"[1..] == "itch" && "itch"[..4] == "itch" && "itch"[0] != "demo"[0];
      assert "itch"[1..] == "tch";
    }
    assert !Contains("pitch", "support");
    SalesIsNotAlwaysPopular("pitch");
  }

  /** What the component renders. */
  datatype View = Skeleton | EmptyState | Table

  /** The loading skeleton only while the first load is under way; the empty
      state only once loading is over; the table whenever there are prompts. */
  function ViewOf(loading: bool, count: nat): (r: View)
    ensures r == Skeleton <==> loading && count == 0
    ensures r == EmptyState <==> !loading && count == 0
    ensures r == Table <==> count > 0
  {
    if loading && count == 0 then Skeleton
    else if !loading && count == 0 then EmptyState
    else Table
  }

  /** Code-unit order on names, standing for `localeCompare`. */
  predicate NameLeq(a: string, b: string)
    decreases |a|
  {
    a == [] || (b != [] && (a[0] < b[0] || (a[0] == b[0] && NameLeq(a[1..], b[1..]))))
  }

  lemma {:induction false} NameLeqTotal(a: string, b: string)
    ensures NameLeq(a, b) || NameLeq(b, a)
    decreases |a|
  {
    if a != [] && b != [] && a[0] == b[0] {
      NameLeqTotal(a[1..], b[1..]);
    }
  }

  /** Neighbours in name order. */
  predicate SortedByName(ps: seq<Prompt>) {
    forall i :: 0 <= i < |ps| - 1 ==> NameLeq(ps[i].name, ps[i + 1].name)
  }

  /** One insertion step: `p` goes before the first prompt it does not follow. */
  function Insert(p: Prompt, sorted: seq<Prompt>): (r: seq<Prompt>)
    requires SortedByName(sorted)
    ensures SortedByName(r)
    ensures multiset(r) == multiset(sorted) + multiset{p}
    ensures |r| > 0 && (r[0] == p || (sorted != [] && r[0] == sorted[0]))
  {
    if sorted == [] then [p]
    else if NameLeq(p.name, sorted[0].name) then [p] + sorted
    else
      NameLeqTotal(p.name, sorted[0].name);
      assert sorted == [sorted[0]] + sorted[1..];
      var rest := Insert(p, sorted[1..]);
      [sorted[0]] + rest
  }

  /** `[...prompts].sort((a, b) => a.name.localeCompare(b.name))`: a sorted
      permutation of the list, built on a copy. */
  function SortByName(ps: seq<Prompt>): (r: seq<Prompt>)
    ensures SortedByName(r)
    ensures multiset(r) == multiset(ps)
    ensures |r| == |ps|
  {
    if ps == [] then []
    else
      assert ps == [ps[0]] + ps[1..];
      Insert(ps[0], SortByName(ps[1..]))
  }

  /** The effect on a store error: a truthy error is shown once as a toast and
      then cleared; otherwise nothing happens. */
  method ShowErrorEffect(store: PromptsStore.Store) returns (toast: Option<string>)
    modifies store
    ensures Truthy(old(store.error)) ==>
      toast == old(store.error) && store.State() == old(store.State()).(error := None)
    ensures !Truthy(old(store.error)) ==> toast == None && store.State() == old(store.State())
  {
    if Truthy(store.error) {
      toast := store.error;
      store.ClearError();
    } else {
      toast := None;
    }
  }
}
