/** The shipped avatars and the order the grid shows them in. */
module AvatarList {
  import opened AvatarGallery

  const Ann := Avatar("Ann_Therapist_public", "Ann Therapist", "/avatars/ann-therapist.jpg", false, false)
  const Marianne := Avatar("Marianne_Chair_Sitting_public", "Marianne", "/avatars/marianne.jpg", false, false)
  const Katya := Avatar("Katya_Chair_Sitting_public", "Katya", "/avatars/katya.jpg", false, false)
  const Graham := Avatar("Graham_Chair_Sitting_public", "Graham", "/avatars/graham.jpg", false, false)
  const Alessandra := Avatar("Alessandra_Chair_Sitting_public", "Alessandra", "/avatars/alessandra.jpg", false, true)
  const Anastasia := Avatar("Anastasia_Chair_Sitting_public", "Anastasia", "/avatars/anastasia.jpg", false, false)
  const Amina := Avatar("Amina_Chair_Sitting_public", "Amina", "/avatars/amina.jpg", false, false)
  const Santa := Avatar("Santa_Fireplace_Front_public", "Santa", "/avatars/santa.jpg", false, true)
  const Dexter := Avatar("Dexter_Lawyer_Sitting_public", "Dexter", "/avatars/dexter.jpg", false, false)
  const June := Avatar("June_HR_public", "June", "/avatars/june.jpg", false, false)
  const Silas := Avatar("SilasHR_public", "Silas", "/avatars/Silas.jpg", true, false)
  const Pedro := Avatar("Pedro_Chair_Sitting_public", "Pedro", "/avatars/Pedro.jpg", true, false)
  const Bryan := Avatar("Bryan_IT_Sitting_public", "Bryan", "/avatars/Bryan.jpg", true, false)

  /** `AVATARS`, in declaration order. */
  const Avatars: seq<Avatar> :=
    [Ann, Marianne, Katya, Graham, Alessandra, Anastasia, Amina, Santa, Dexter, June, Silas, Pedro, Bryan]

  /** The three new avatars, the two popular ones and the other eight, each in
      list order. */
  const NewAvatars: seq<Avatar> := [Silas, Pedro, Bryan]
  const PopularAvatars: seq<Avatar> := [Alessandra, Santa]
  const OtherAvatars: seq<Avatar> := [Ann, Marianne, Katya, Graham, Anastasia, Amina, Dexter, June]

  /** Silas, Pedro, Bryan, Alessandra, Santa, then the other eight in list
      order. */
  function Shown(): seq<Avatar> {
    NewAvatars + PopularAvatars + OtherAvatars
  }

  /** The shipped list as runs of one class each. */
  lemma ListRuns(c: nat)
    ensures OfClass(Avatars, c) ==
      OfClass([Ann, Marianne, Katya, Graham], c) + OfClass([Alessandra], c) + OfClass([Anastasia, Amina], c)
      + OfClass([Santa], c) + OfClass([Dexter, June], c) + OfClass(NewAvatars, c)
  {
    var r1, r2, r3 := [Ann, Marianne, Katya, Graham], [Alessandra], [Anastasia, Amina];
    var r4, r5, r6 := [Santa], [Dexter, June], NewAvatars;
    assert Avatars == r1 + r2 + r3 + r4 + r5 + r6;
    OfClassConcat(r1 + r2 + r3 + r4 + r5, r6, c);
    OfClassConcat(r1 + r2 + r3 + r4, r5, c);
    OfClassConcat(r1 + r2 + r3, r4, c);
    OfClassConcat(r1 + r2, r3, c);
    OfClassConcat(r1, r2, c);
  }

  /** The display order as runs of one class each. */
  lemma ShownRuns(c: nat)
    ensures OfClass(Shown(), c) == OfClass(NewAvatars, c) + OfClass(PopularAvatars, c) + OfClass(OtherAvatars, c)
  {
    OfClassConcat(NewAvatars + PopularAvatars, OtherAvatars, c);
    OfClassConcat(NewAvatars, PopularAvatars, c);
  }

  /** The display order is ordered by class. */
  lemma ShownOrdered()
    ensures Ordered(Shown())
  {
  }

  /** No shipped avatar is both new and popular. */
  lemma NoneNewAndPopular()
    ensures OfClass(Avatars, 0) == OfClass(Shown(), 0) == []
  {
    NoneInList();
    NoneInShown();
  }

  lemma NoneInList()
    ensures OfClass(Avatars, 0) == []
  {
    ListRuns(0);
    OfClassNone([Ann, Marianne, Katya, Graham], 0);
    OfClassNone([Alessandra], 0);
    OfClassNone([Anastasia, Amina], 0);
    OfClassNone([Santa], 0);
    OfClassNone([Dexter, June], 0);
    OfClassNone(NewAvatars, 0);
  }

  lemma NoneInShown()
    ensures OfClass(Shown(), 0) == []
  {
    ShownRuns(0);
    OfClassNone(NewAvatars, 0);
    OfClassNone(PopularAvatars, 0);
    OfClassNone(OtherAvatars, 0);
  }

  /** The new avatars: Silas, Pedro, Bryan. */
  lemma NewOnes()
    ensures OfClass(Avatars, 1) == OfClass(Shown(), 1) == NewAvatars
  {
    NewInList();
    NewInShown();
  }

  lemma NewInList()
    ensures OfClass(Avatars, 1) == NewAvatars
  {
    ListRuns(1);
    OfClassNone([Ann, Marianne, Katya, Graham], 1);
    OfClassNone([Alessandra], 1);
    OfClassNone([Anastasia, Amina], 1);
    OfClassNone([Santa], 1);
    OfClassNone([Dexter, June], 1);
    OfClassAll(NewAvatars, 1);
  }

  lemma NewInShown()
    ensures OfClass(Shown(), 1) == NewAvatars
  {
    ShownRuns(1);
    OfClassAll(NewAvatars, 1);
    OfClassNone(PopularAvatars, 1);
    OfClassNone(OtherAvatars, 1);
  }

  /** The popular ones: Alessandra, Santa. */
  lemma PopularOnes()
    ensures OfClass(Avatars, 2) == OfClass(Shown(), 2) == PopularAvatars
  {
    PopularInList();
    PopularInShown();
  }

  lemma PopularInList()
    ensures OfClass(Avatars, 2) == PopularAvatars
  {
    ListRuns(2);
    OfClassNone([Ann, Marianne, Katya, Graham], 2);
    OfClassAll([Alessandra], 2);
    OfClassNone([Anastasia, Amina], 2);
    OfClassAll([Santa], 2);
    OfClassNone([Dexter, June], 2);
    OfClassNone(NewAvatars, 2);
    assert [] + [Alessandra] + [] + [Santa] + [] + [] == PopularAvatars;
  }

  lemma PopularInShown()
    ensures OfClass(Shown(), 2) == PopularAvatars
  {
    ShownRuns(2);
    OfClassNone(NewAvatars, 2);
    OfClassAll(PopularAvatars, 2);
    OfClassNone(OtherAvatars, 2);
  }

  /** All the others, in list order. */
  lemma OtherOnes()
    ensures OfClass(Avatars, 3) == OfClass(Shown(), 3) == OtherAvatars
  {
    OtherInList();
    OtherInShown();
  }

  lemma OtherInList()
    ensures OfClass(Avatars, 3) == OtherAvatars
  {
    ListRuns(3);
    OfClassAll([Ann, Marianne, Katya, Graham], 3);
    OfClassNone([Alessandra], 3);
    OfClassAll([Anastasia, Amina], 3);
    OfClassNone([Santa], 3);
    OfClassAll([Dexter, June], 3);
    OfClassNone(NewAvatars, 3);
    assert [Ann, Marianne, Katya, Graham] + [] + [Anastasia, Amina] + [] + [Dexter, June] + [] == OtherAvatars;
  }

  lemma OtherInShown()
    ensures OfClass(Shown(), 3) == OtherAvatars
  {
    ShownRuns(3);
    OfClassNone(NewAvatars, 3);
    OfClassNone(PopularAvatars, 3);
    OfClassAll(OtherAvatars, 3);
  }

  /** The shipped list in display order. */
  lemma ShippedOrder()
    ensures SortAvatars(Avatars) == Shown()
  {
    ShownOrdered();
    NoneNewAndPopular();
    NewOnes();
    PopularOnes();
    OtherOnes();
    SortIsUnique(Avatars, Shown());
  }
}
