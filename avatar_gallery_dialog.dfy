/** The avatar gallery dialog: the tab and search filters over the avatar list,
    the per-tab counts, the feature label of a card, and what a click on a
    card does. The list is taken in its declaration order, unsorted. */
module AvatarGalleryDialog {
  import opened Wrappers
  import opened Text
  import opened AvatarGallery
  import opened AvatarList

  /** `xs.filter(keep)` */
  function Filter(xs: seq<Avatar>, keep: Avatar -> bool): (r: seq<Avatar>)
    ensures |r| <= |xs|
  {
    if xs == [] then []
    else if keep(xs[0]) then [xs[0]] + Filter(xs[1..], keep)
    else Filter(xs[1..], keep)
  }

  /** `a` is `b` with some entries dropped, the rest in the same order. */
  predicate Subsequence(a: seq<Avatar>, b: seq<Avatar>)
    decreases |b|
  {
    if a == [] then true
    else if b == [] then false
    else (a[0] == b[0] && Subsequence(a[1..], b[1..])) || Subsequence(a, b[1..])
  }

  lemma {:induction false} FilterMembers(xs: seq<Avatar>, keep: Avatar -> bool)
    ensures forall a :: a in Filter(xs, keep) <==> a in xs && keep(a)
  {
    if xs != [] {
      FilterMembers(xs[1..], keep);
      assert xs == [xs[0]] + xs[1..];
    }
  }

  /** A filter keeps the order of what it keeps. */
  lemma {:induction false} FilterIsSubsequence(xs: seq<Avatar>, keep: Avatar -> bool)
    ensures Subsequence(Filter(xs, keep), xs)
  {
    if xs != [] {
      FilterIsSubsequence(xs[1..], keep);
      if keep(xs[0]) {
        assert ([xs[0]] + Filter(xs[1..], keep))[1..] == Filter(xs[1..], keep);
      }
    }
  }

  lemma {:induction false} SubsequenceTransitive(a: seq<Avatar>, b: seq<Avatar>, c: seq<Avatar>)
    requires Subsequence(a, b) && Subsequence(b, c)
    ensures Subsequence(a, c)
    decreases |c|
  {
    if a != [] && c != [] {
      if Subsequence(b, c[1..]) {
        SubsequenceTransitive(a, b, c[1..]);
      } else if a[0] == b[0] && Subsequence(a[1..], b[1..]) {
        SubsequenceTransitive(a[1..], b[1..], c[1..]);
      } else {
        SubsequenceTransitive(a, b[1..], c[1..]);
      }
    }
  }

  /** Filters commute. */
  lemma {:induction false} FiltersCommute(xs: seq<Avatar>, p: Avatar -> bool, q: Avatar -> bool)
    ensures Filter(Filter(xs, p), q) == Filter(Filter(xs, q), p)
  {
    if xs != [] {
      FiltersCommute(xs[1..], p, q);
    }
  }

  function IsNew(a: Avatar): bool { a.isNew }

  function IsPopular(a: Avatar): bool { a.isPopular }

  /** The search test: the lowercased name contains the lowercased query, as
      typed, surrounding spaces included. */
  predicate Matches(query: string, a: Avatar) {
    Contains(Lower(a.name), Lower(query))
  }

  /** The tab filter: "new" and "popular" narrow the list, any other tab
      leaves it whole. */
  function ByTab(xs: seq<Avatar>, tab: string): seq<Avatar> {
    if tab == "new" then Filter(xs, IsNew)
    else if tab == "popular" then Filter(xs, IsPopular)
    else xs
  }

  /** The search filter, applied only when the trimmed query is non-empty. */
  function ByQuery(xs: seq<Avatar>, query: string): seq<Avatar> {
    if !IsBlank(query) then Filter(xs, a => Matches(query, a)) else xs
  }

  /** `filteredAvatars`: the tab filter, then the search filter. An avatar is
      shown exactly when it is in the list, passes the tab and, for a
      non-blank query, contains the untrimmed query in its name. */
  function FilteredAvatars(xs: seq<Avatar>, tab: string, query: string): (r: seq<Avatar>)
    ensures forall a :: a in r <==>
      a in xs
      && (tab == "new" ==> a.isNew)
      && (tab == "popular" ==> a.isPopular)
      && (!IsBlank(query) ==> Matches(query, a))
  {
    FilterMembers(xs, IsNew);
    FilterMembers(xs, IsPopular);
    FilterMembers(ByTab(xs, tab), a => Matches(query, a));
    ByQuery(ByTab(xs, tab), query)
  }

  /** The shown avatars keep the list's order. */
  lemma FilteredIsSubsequence(xs: seq<Avatar>, tab: string, query: string)
    ensures Subsequence(FilteredAvatars(xs, tab, query), xs)
  {
    var tabbed := ByTab(xs, tab);
    if tab == "new" {
      FilterIsSubsequence(xs, IsNew);
    } else if tab == "popular" {
      FilterIsSubsequence(xs, IsPopular);
    } else {
      SubsequenceReflexive(xs);
    }
    if !IsBlank(query) {
      FilterIsSubsequence(tabbed, a => Matches(query, a));
      SubsequenceTransitive(FilteredAvatars(xs, tab, query), tabbed, xs);
    }
  }

  lemma {:induction false} SubsequenceReflexive(xs: seq<Avatar>)
    ensures Subsequence(xs, xs)
  {
    if xs != [] {
      SubsequenceReflexive(xs[1..]);
    }
  }

  /** For one query, the "new" and "popular" tabs show a part of what the
      "all" tab shows, in the same order. */
  lemma TabsNarrowAll(xs: seq<Avatar>, query: string)
    ensures Subsequence(FilteredAvatars(xs, "new", query), FilteredAvatars(xs, "all", query))
    ensures Subsequence(FilteredAvatars(xs, "popular", query), FilteredAvatars(xs, "all", query))
  {
    var all := FilteredAvatars(xs, "all", query);
    if !IsBlank(query) {
      FiltersCommute(xs, IsNew, a => Matches(query, a));
      FiltersCommute(xs, IsPopular, a => Matches(query, a));
    }
    FilterIsSubsequence(all, IsNew);
    FilterIsSubsequence(all, IsPopular);
  }

  /** The tab labels count the whole list, not the filtered one: "All (13)",
      "New (3)", "Popular (2)". */
  function TabCounts(): (r: (nat, nat, nat))
    ensures r == (13, 3, 2)
  {
    NewCount(Avatars);
    PopularCount(Avatars);
    NoneNewAndPopular();
    NewOnes();
    PopularOnes();
    (|Avatars|, |Filter(Avatars, IsNew)|, |Filter(Avatars, IsPopular)|)
  }

  /** The new avatars are those of the first two classes. */
  lemma {:induction false} NewCount(xs: seq<Avatar>)
    ensures |Filter(xs, IsNew)| == |OfClass(xs, 0)| + |OfClass(xs, 1)|
  {
    if xs != [] {
      NewCount(xs[1..]);
    }
  }

  /** The popular avatars are those of the first and third classes. */
  lemma {:induction false} PopularCount(xs: seq<Avatar>)
    ensures |Filter(xs, IsPopular)| == |OfClass(xs, 0)| + |OfClass(xs, 2)|
  {
    if xs != [] {
      PopularCount(xs[1..]);
    }
  }

  /** A query is not trimmed before matching: " silas" finds no one, though
      "SIL" finds Silas. */
  lemma UntrimmedQuery()
    ensures Matches("SIL", Avatars[10])
    ensures !Matches(" silas", Avatars[10])
  {
    assert Lower(Avatars[10].name) == "silas";
    assert Lower("SIL") == "sil";
    assert "silas"[..3] == "sil";
    assert Lower(" silas") == " silas";
  }

  /** The quick label under a card. */
  function FeatureLabel(a: Avatar): (r: Option<string>)
    ensures r == Some("Featured") <==> a.isNew && a.isPopular
    ensures r == Some("New Release") <==> a.isNew && !a.isPopular
    ensures r == Some("Most Used") <==> !a.isNew && a.isPopular
    ensures r == None <==> !a.isNew && !a.isPopular
  {
    if a.isNew && !a.isPopular then Some("New Release")
    else if a.isPopular && !a.isNew then Some("Most Used")
    else if a.isNew && a.isPopular then Some("Featured")
    else None
  }

  /** What the dialog asks of its parent. */
  datatype Effect = AvatarSelected(avatarId: string) | Closed

  /** `handleAvatarSelect` on a card: the card's avatar is reported, then the
      dialog closes. */
  function CardClick(a: Avatar): (r: seq<Effect>)
    ensures |r| == 2 && r[0] == AvatarSelected(a.avatarId) && r[1] == Closed
  {
    [AvatarSelected(a.avatarId), Closed]
  }
}
