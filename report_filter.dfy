/**
 * The five-stage filter the home screen applies to the report store before
 * showing it on the map and in the card list (App.tsx, `filteredPosts`).
 */
module ReportFilter {
  import opened Wrappers
  import opened Text
  import opened Seqs
  import opened Types

  /** The type selector: every report, or only one kind. */
  datatype TypeFilter = AllTypes | OnlyType(kind: PostType)

  /** The filter slots of the home screen. */
  datatype FilterState = FilterState(
    kind: TypeFilter,
    breed: string,
    color: string,
    size: string,
    mineOnly: bool)

  /** The filter slots as the application starts, and as "clear filters" leaves them (with `mineOnly` kept). */
  function Cleared(mineOnly: bool): (f: FilterState)
    ensures f.kind == AllTypes && f.breed == "" && f.color == "" && f.size == "" && f.mineOnly == mineOnly
  {
    FilterState(AllTypes, "", "", "", mineOnly)
  }

  /** Stage 1: the type selector is "all" or names the report's kind. */
  predicate TypeStage(f: FilterState, p: PetPost) {
    f.kind.AllTypes? || f.kind.kind == p.kind
  }

  /** Stage 2: the trimmed breed filter is empty, or the lower-cased breed contains it lower-cased and trimmed. */
  predicate BreedStage(f: FilterState, p: PetPost) {
    Trim(f.breed) == "" || Contains(Lower(p.breed), Trim(Lower(f.breed)))
  }

  /** Stage 3: the colour filter is empty, or the lower-cased colour contains it lower-cased (it is not trimmed). */
  predicate ColorStage(f: FilterState, p: PetPost) {
    f.color == "" || Contains(Lower(p.color), Lower(f.color))
  }

  /** Stage 4: the size filter is empty or equals the size exactly. */
  predicate SizeStage(f: FilterState, p: PetPost) {
    f.size == "" || p.size == f.size
  }

  /** Stage 5: "my reports only" is off, or a user is signed in and wrote the report. */
  predicate OwnerStage(f: FilterState, user: Option<User>, p: PetPost) {
    !f.mineOnly || (user.Some? && p.userId == user.value.uid)
  }

  /** A report passes every stage. */
  predicate Admits(f: FilterState, user: Option<User>, p: PetPost) {
    TypeStage(f, p) && BreedStage(f, p) && ColorStage(f, p) && SizeStage(f, p) && OwnerStage(f, user, p)
  }

  /** The chain of five filters, applied one after the other as the home screen does. */
  function FilteredPosts(posts: seq<PetPost>, f: FilterState, user: Option<User>): seq<PetPost> {
    var s1 := Where(posts, p => TypeStage(f, p));
    var s2 := Where(s1, p => BreedStage(f, p));
    var s3 := Where(s2, p => ColorStage(f, p));
    var s4 := Where(s3, p => SizeStage(f, p));
    Where(s4, p => OwnerStage(f, user, p))
  }

  /** The chain is a single filter by the conjunction of the five stages. */
  lemma FilteredIsOnePass(posts: seq<PetPost>, f: FilterState, user: Option<User>)
    ensures FilteredPosts(posts, f, user) == Where(posts, p => Admits(f, user, p))
  {
    var t := (p: PetPost) => TypeStage(f, p);
    var tb := (p: PetPost) => TypeStage(f, p) && BreedStage(f, p);
    var tbc := (p: PetPost) => TypeStage(f, p) && BreedStage(f, p) && ColorStage(f, p);
    var tbcs := (p: PetPost) => TypeStage(f, p) && BreedStage(f, p) && ColorStage(f, p) && SizeStage(f, p);
    WhereFuse(posts, t, p => BreedStage(f, p), tb);
    WhereFuse(posts, tb, p => ColorStage(f, p), tbc);
    WhereFuse(posts, tbc, p => SizeStage(f, p), tbcs);
    WhereFuse(posts, tbcs, p => OwnerStage(f, user, p), p => Admits(f, user, p));
  }

  /** The shown list keeps the store's order and invents nothing: it is a subsequence of the store. */
  lemma FilteredIsSubsequence(posts: seq<PetPost>, f: FilterState, user: Option<User>)
    ensures IsSubsequence(FilteredPosts(posts, f, user), posts)
  {
    FilteredIsOnePass(posts, f, user);
    WhereIsSubsequence(posts, p => Admits(f, user, p));
  }

  /** A report is shown exactly when it is in the store and passes all five stages. */
  lemma FilteredMembership(posts: seq<PetPost>, f: FilterState, user: Option<User>, p: PetPost)
    ensures p in FilteredPosts(posts, f, user) <==> p in posts && Admits(f, user, p)
  {
    FilteredIsOnePass(posts, f, user);
    WhereMembership(posts, q => Admits(f, user, q), p);
  }

  /** The filter never duplicates: a shown report occurs as often as in the store. */
  lemma FilteredCount(posts: seq<PetPost>, f: FilterState, user: Option<User>, p: PetPost)
    ensures multiset(FilteredPosts(posts, f, user))[p] == if Admits(f, user, p) then multiset(posts)[p] else 0
  {
    FilteredIsOnePass(posts, f, user);
    WhereCount(posts, q => Admits(f, user, q), p);
  }

  /** "My reports only" with nobody signed in shows nothing, whatever the other filters say. */
  lemma MineOnlyWithoutUserIsEmpty(posts: seq<PetPost>, f: FilterState)
    requires f.mineOnly
    ensures FilteredPosts(posts, f, None) == []
  {
    FilteredIsOnePass(posts, f, None);
    WhereNonePass(posts, p => Admits(f, None, p));
  }

  /** With the filters cleared and "my reports only" off, every report is shown, in store order. */
  lemma ClearedShowsAll(posts: seq<PetPost>, user: Option<User>)
    ensures FilteredPosts(posts, Cleared(false), user) == posts
  {
    var f := Cleared(false);
    FilteredIsOnePass(posts, f, user);
    forall i | 0 <= i < |posts|
      ensures Admits(f, user, posts[i])
    {
      assert Trim("") == "";
    }
    WhereAllPass(posts, p => Admits(f, user, p));
  }

  /** A breed filter of only white space filters nothing out. */
  lemma BlankBreedAdmitsAll(f: FilterState, p: PetPost)
    requires AllSpace(f.breed)
    ensures BreedStage(f, p)
  {
    TrimEmptyIffAllSpace(f.breed);
  }

  /** The colour filter is a case-insensitive substring match on the whole string, not a word match. */
  lemma ColorMatchesInsideWords(f: FilterState, p: PetPost)
    requires f.color != "" && Contains(p.color, f.color)
    ensures ColorStage(f, p)
  {
    ContainsLowered(p.color, f.color);
  }
}
