/** The avatar grid: the shipped avatar list and the order the grid shows it in,
    new avatars first, then popular ones, each class in list order. The
    comparator sort is modelled as an insertion sort that places an avatar
    before the first one the comparator does not put ahead of it, which keeps
    equal avatars in their original order as the stable built-in sort does. */
module AvatarGallery {

  /** An entry of `AVATARS`; a missing `isNew`/`isPopular` is `false`. */
  datatype Avatar = Avatar(avatarId: string, name: string, image: string, isNew: bool, isPopular: bool)


  /** The comparator of the grid's sort: -1, 1 or 0. */
  function Compare(a: Avatar, b: Avatar): int {
    if a.isNew && !b.isNew then -1
    else if !a.isNew && b.isNew then 1
    else if a.isPopular && !b.isPopular then -1
    else if !a.isPopular && b.isPopular then 1
    else 0
  }

  /** The class of an avatar in display order: new and popular, new, popular,
      neither. */
  function Class(a: Avatar): (r: nat)
    ensures r < 4
    ensures r <= 1 <==> a.isNew
    ensures r == 0 || r == 2 <==> a.isPopular
  {
    (if a.isNew then 0 else 2) + (if a.isPopular then 0 else 1)
  }

  /** The comparator orders avatars by class, and only by class. */
  lemma CompareByClass(a: Avatar, b: Avatar)
    ensures Compare(a, b) < 0 <==> Class(a) < Class(b)
    ensures Compare(a, b) == 0 <==> Class(a) == Class(b)
    ensures Compare(a, b) > 0 <==> Class(a) > Class(b)
  {
  }

  /** Every avatar is in a class no earlier than its predecessor's. */
  predicate Ordered(xs: seq<Avatar>) {
    forall i :: 0 <= i < |xs| - 1 ==> Class(xs[i]) <= Class(xs[i + 1])
  }

  /** Neighbours in order means every pair in order. */
  lemma {:induction false} OrderedPairs(xs: seq<Avatar>)
    requires Ordered(xs)
    ensures forall i, j :: 0 <= i < j < |xs| ==> Class(xs[i]) <= Class(xs[j])
  {
    if xs != [] {
      var tail := xs[1..];
      assert Ordered(tail) by {
        forall i | 0 <= i < |tail| - 1 ensures Class(tail[i]) <= Class(tail[i + 1]) {
          assert tail[i] == xs[i + 1] && tail[i + 1] == xs[i + 2];
        }
      }
      OrderedPairs(tail);
      forall i, j | 0 <= i < j < |xs| ensures Class(xs[i]) <= Class(xs[j]) {
        if i > 0 {
          assert xs[i] == tail[i - 1] && xs[j] == tail[j - 1];
        } else if j > 1 {
          assert xs[1] == tail[0] && xs[j] == tail[j - 1];
        }
      }
    }
  }

  /** One insertion step: `x` goes before the first avatar the comparator does
      not put ahead of it. */
  function Insert(x: Avatar, sorted: seq<Avatar>): (r: seq<Avatar>)
    requires Ordered(sorted)
    ensures Ordered(r)
    ensures |r| == |sorted| + 1
    ensures |r| > 0 && (r[0] == x || (sorted != [] && r[0] == sorted[0]))
  {
    if sorted == [] then [x]
    else if Compare(x, sorted[0]) <= 0 then
      CompareByClass(x, sorted[0]);
      [x] + sorted
    else
      CompareByClass(x, sorted[0]);
      assert sorted == [sorted[0]] + sorted[1..];
      [sorted[0]] + Insert(x, sorted[1..])
  }

  /** `[...AVATARS].sort(comparator)`: a new list; the argument is not changed. */
  function SortAvatars(xs: seq<Avatar>): (r: seq<Avatar>)
    ensures Ordered(r)
    ensures |r| == |xs|
  {
    if xs == [] then []
    else Insert(xs[0], SortAvatars(xs[1..]))
  }

  /** Insertion adds exactly the inserted avatar. */
  lemma {:induction false} InsertAdds(x: Avatar, sorted: seq<Avatar>)
    requires Ordered(sorted)
    ensures multiset(Insert(x, sorted)) == multiset(sorted) + multiset{x}
  {
    if sorted != [] && Compare(x, sorted[0]) > 0 {
      assert sorted == [sorted[0]] + sorted[1..];
      InsertAdds(x, sorted[1..]);
    }
  }

  /** The sorted list is a permutation of the list: nothing is lost, nothing
      duplicated. */
  lemma {:induction false} SortPermutes(xs: seq<Avatar>)
    ensures multiset(SortAvatars(xs)) == multiset(xs)
  {
    if xs != [] {
      SortPermutes(xs[1..]);
      InsertAdds(xs[0], SortAvatars(xs[1..]));
      assert xs == [xs[0]] + xs[1..];
    }
  }

  /** The avatars of one class, in list order. */
  function OfClass(xs: seq<Avatar>, c: nat): (r: seq<Avatar>)
    ensures |r| <= |xs|
  {
    if xs == [] then []
    else if Class(xs[0]) == c then [xs[0]] + OfClass(xs[1..], c)
    else OfClass(xs[1..], c)
  }

  /** The avatars of a class are exactly the list's avatars in that class. */
  lemma {:induction false} OfClassMembers(xs: seq<Avatar>, c: nat)
    ensures forall a :: a in OfClass(xs, c) <==> a in xs && Class(a) == c
  {
    if xs != [] {
      OfClassMembers(xs[1..], c);
      assert xs == [xs[0]] + xs[1..];
    }
  }

  /** Adding an avatar in front of a list puts it at the head of its class. */
  lemma {:induction false} OfClassCons(x: Avatar, ys: seq<Avatar>, c: nat)
    ensures OfClass([x] + ys, c) == if c == Class(x) then [x] + OfClass(ys, c) else OfClass(ys, c)
  {
    assert ([x] + ys)[1..] == ys;
  }

  /** Filtering a concatenation filters each part. */
  lemma {:induction false} OfClassConcat(xs: seq<Avatar>, ys: seq<Avatar>, c: nat)
    ensures OfClass(xs + ys, c) == OfClass(xs, c) + OfClass(ys, c)
  {
    if xs != [] {
      OfClassConcat(xs[1..], ys, c);
      assert (xs + ys)[0] == xs[0];
      assert (xs + ys)[1..] == xs[1..] + ys;
    } else {
      assert xs + ys == ys;
    }
  }

  /** A list wholly in one class is its own filter for that class. */
  lemma {:induction false} OfClassAll(xs: seq<Avatar>, c: nat)
    requires forall a :: a in xs ==> Class(a) == c
    ensures OfClass(xs, c) == xs
  {
    if xs != [] {
      OfClassAll(xs[1..], c);
    }
  }

  /** A list with no avatar in a class filters to nothing for it. */
  lemma {:induction false} OfClassNone(xs: seq<Avatar>, c: nat)
    requires forall a :: a in xs ==> Class(a) != c
    ensures OfClass(xs, c) == []
  {
    if xs != [] {
      OfClassNone(xs[1..], c);
    }
  }

  lemma {:induction false} OrderedTail(xs: seq<Avatar>)
    requires Ordered(xs) && xs != []
    ensures Ordered(xs[1..])
  {
    var tail := xs[1..];
    forall i | 0 <= i < |tail| - 1 ensures Class(tail[i]) <= Class(tail[i + 1]) {
      assert tail[i] == xs[i + 1] && tail[i + 1] == xs[i + 2];
    }
  }

  /** Inserting an avatar adds it at the head of its own class and leaves the
      other classes alone. */
  lemma {:induction false} OfClassInsert(x: Avatar, sorted: seq<Avatar>, c: nat)
    requires Ordered(sorted)
    ensures OfClass(Insert(x, sorted), c) == if c == Class(x) then [x] + OfClass(sorted, c) else OfClass(sorted, c)
  {
    if sorted == [] {
      OfClassCons(x, [], c);
    } else if Compare(x, sorted[0]) <= 0 {
      OfClassCons(x, sorted, c);
    } else {
      CompareByClass(x, sorted[0]);
      OrderedTail(sorted);
      OfClassInsert(x, sorted[1..], c);
      OfClassCons(sorted[0], Insert(x, sorted[1..]), c);
      OfClassCons(sorted[0], sorted[1..], c);
      assert [sorted[0]] + sorted[1..] == sorted;
    }
  }

  /** The sort is stable: within each class, the sorted list keeps the
      list's order. */
  lemma {:induction false} StableWithinClass(xs: seq<Avatar>, c: nat)
    ensures OfClass(SortAvatars(xs), c) == OfClass(xs, c)
  {
    if xs != [] {
      StableWithinClass(xs[1..], c);
      OfClassInsert(xs[0], SortAvatars(xs[1..]), c);
      OfClassCons(xs[0], xs[1..], c);
      assert [xs[0]] + xs[1..] == xs;
    }
  }

  /** A non-empty list has its head in the head's class. */
  lemma NonEmptyHasClass(xs: seq<Avatar>)
    ensures xs != [] ==> xs[0] in OfClass(xs, Class(xs[0]))
  {
    if xs != [] {
      OfClassMembers(xs, Class(xs[0]));
    }
  }

  /** In an ordered list no class is populated below the head's class. */
  lemma {:induction false} HeadClassIsLeast(xs: seq<Avatar>)
    requires Ordered(xs) && xs != []
    ensures forall c: nat, a :: a in OfClass(xs, c) ==> Class(xs[0]) <= c
  {
    OrderedPairs(xs);
    forall c: nat, a | a in OfClass(xs, c) ensures Class(xs[0]) <= c {
      OfClassMembers(xs, c);
      var j :| 0 <= j < |xs| && xs[j] == a;
      if j > 0 {
        assert Class(xs[0]) <= Class(xs[j]);
      }
    }
  }

  lemma {:induction false} SameHeadClass(r1: seq<Avatar>, r2: seq<Avatar>)
    requires Ordered(r1) && Ordered(r2) && r1 != [] && r2 != []
    requires forall c: nat :: c < 4 ==> OfClass(r1, c) == OfClass(r2, c)
    ensures Class(r1[0]) == Class(r2[0])
  {
    NonEmptyHasClass(r1);
    NonEmptyHasClass(r2);
    HeadClassIsLeast(r1);
    HeadClassIsLeast(r2);
    assert OfClass(r1, Class(r1[0])) == OfClass(r2, Class(r1[0]));
    assert OfClass(r1, Class(r2[0])) == OfClass(r2, Class(r2[0]));
  }

  /** Two ordered lists that agree class by class start with the same
      avatar, and their tails agree class by class. */
  lemma {:induction false} SameHead(r1: seq<Avatar>, r2: seq<Avatar>)
    requires Ordered(r1) && Ordered(r2) && r1 != [] && r2 != []
    requires forall c: nat :: c < 4 ==> OfClass(r1, c) == OfClass(r2, c)
    ensures r1[0] == r2[0]
    ensures forall c: nat :: c < 4 ==> OfClass(r1[1..], c) == OfClass(r2[1..], c)
  {
    var y1, y2, t1, t2 := r1[0], r2[0], r1[1..], r2[1..];
    SameHeadClass(r1, r2);
    assert r1 == [y1] + t1 && r2 == [y2] + t2;
    forall c: nat | c < 4 ensures OfClass(t1, c) == OfClass(t2, c) {
      OfClassCons(y1, t1, c);
      OfClassCons(y2, t2, c);
      if c == Class(y1) {
        assert ([y1] + OfClass(t1, c))[1..] == OfClass(t1, c);
        assert ([y2] + OfClass(t2, c))[1..] == OfClass(t2, c);
      }
    }
    OfClassCons(y1, t1, Class(y1));
    OfClassCons(y2, t2, Class(y1));
    assert ([y1] + OfClass(t1, Class(y1)))[0] == y1;
  }

  /** An ordered list is fixed by its classes: two ordered lists that agree
      class by class are the same list. So the stable order is the only
      order the sort can produce. */
  lemma {:induction false} Determined(r1: seq<Avatar>, r2: seq<Avatar>)
    requires Ordered(r1) && Ordered(r2)
    requires forall c: nat :: c < 4 ==> OfClass(r1, c) == OfClass(r2, c)
    ensures r1 == r2
    decreases |r1|
  {
    if r1 == [] || r2 == [] {
      NonEmptyHasClass(r1);
      NonEmptyHasClass(r2);
    } else {
      SameHead(r1, r2);
      OrderedTail(r1);
      OrderedTail(r2);
      Determined(r1[1..], r2[1..]);
      assert r1 == [r1[0]] + r1[1..] && r2 == [r2[0]] + r2[1..];
    }
  }

  /** The sorted list is the one ordered list that keeps every class in list
      order. */
  lemma SortIsUnique(xs: seq<Avatar>, shown: seq<Avatar>)
    requires Ordered(shown)
    requires OfClass(xs, 0) == OfClass(shown, 0) && OfClass(xs, 1) == OfClass(shown, 1)
    requires OfClass(xs, 2) == OfClass(shown, 2) && OfClass(xs, 3) == OfClass(shown, 3)
    ensures SortAvatars(xs) == shown
  {
    forall c: nat | c < 4 ensures OfClass(SortAvatars(xs), c) == OfClass(shown, c) {
      StableWithinClass(xs, c);
      assert c == 0 || c == 1 || c == 2 || c == 3;
    }
    Determined(SortAvatars(xs), shown);
  }

  /** Every new avatar comes before every avatar that is not new. */
  lemma NewFirst(xs: seq<Avatar>)
    ensures forall i, j :: 0 <= i < j < |SortAvatars(xs)| && SortAvatars(xs)[j].isNew ==> SortAvatars(xs)[i].isNew
  {
    OrderedPairs(SortAvatars(xs));
  }

  /** Among avatars that agree on being new, popular ones come first. */
  lemma PopularNext(xs: seq<Avatar>)
    ensures forall i, j ::
      (0 <= i < j < |SortAvatars(xs)| && SortAvatars(xs)[i].isNew == SortAvatars(xs)[j].isNew
       && SortAvatars(xs)[j].isPopular) ==> SortAvatars(xs)[i].isPopular
  {
    var r := SortAvatars(xs);
    OrderedPairs(r);
    forall i, j | 0 <= i < j < |r| && r[i].isNew == r[j].isNew && r[j].isPopular
      ensures r[i].isPopular
    {
      assert Class(r[i]) <= Class(r[j]);
    }
  }
}
