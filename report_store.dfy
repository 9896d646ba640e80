/** The in-memory list of reports and the two ways the application changes it (App.tsx). */
module ReportStore {
  import opened Wrappers
  import opened Seqs
  import opened Types
  import opened ReportFilter

  /** The report with its photo replaced, every other field kept. */
  function WithPhoto(p: PetPost, url: string): (q: PetPost)
    ensures q.photoUrl == url && q.(photoUrl := p.photoUrl) == p
  {
    p.(photoUrl := url)
  }

  /** `posts.map(p => p.id === id ? { ...p, photoUrl: url } : p)`. */
  function ReplacePhoto(posts: seq<PetPost>, id: string, url: string): (r: seq<PetPost>)
    ensures |r| == |posts|
    ensures forall i :: 0 <= i < |posts| ==> r[i].(photoUrl := posts[i].photoUrl) == posts[i]
    ensures forall i :: 0 <= i < |posts| ==> r[i].photoUrl == if posts[i].id == id then url else posts[i].photoUrl
  {
    if posts == [] then []
    else [if posts[0].id == id then WithPhoto(posts[0], url) else posts[0]] + ReplacePhoto(posts[1..], id, url)
  }

  /** Replacing a photo twice with the same URL is replacing it once. */
  lemma ReplacePhotoIdempotent(posts: seq<PetPost>, id: string, url: string)
    ensures ReplacePhoto(ReplacePhoto(posts, id, url), id, url) == ReplacePhoto(posts, id, url)
  {
    var once := ReplacePhoto(posts, id, url);
    var twice := ReplacePhoto(once, id, url);
    forall i | 0 <= i < |posts|
      ensures twice[i] == once[i]
    {
      assert once[i].id == posts[i].id;
    }
  }

  /** No filter stage reads the photo, so the shown list after a replacement is the shown list before it, with the photo replaced. */
  lemma {:induction false} FilterCommutesWithReplacePhoto(posts: seq<PetPost>, f: FilterState, user: Option<User>, id: string, url: string)
    ensures FilteredPosts(ReplacePhoto(posts, id, url), f, user) == ReplacePhoto(FilteredPosts(posts, f, user), id, url)
  {
    FilteredIsOnePass(posts, f, user);
    FilteredIsOnePass(ReplacePhoto(posts, id, url), f, user);
    WhereReplacePhoto(posts, p => Admits(f, user, p), id, url);
  }

  lemma {:induction false} WhereReplacePhoto(posts: seq<PetPost>, keep: PetPost -> bool, id: string, url: string)
    requires forall i :: 0 <= i < |posts| ==> keep(WithPhoto(posts[i], url)) == keep(posts[i])
    ensures Where(ReplacePhoto(posts, id, url), keep) == ReplacePhoto(Where(posts, keep), id, url)
  {
    if posts != [] {
      var rest := posts[1..];
      assert forall i :: 0 <= i < |rest| ==> rest[i] == posts[i + 1];
      WhereReplacePhoto(rest, keep, id, url);
      var head := if posts[0].id == id then WithPhoto(posts[0], url) else posts[0];
      var replaced := ReplacePhoto(posts, id, url);
      assert replaced[0] == head && replaced[1..] == ReplacePhoto(rest, id, url);
      assert keep(head) == keep(posts[0]) by { assert keep(WithPhoto(posts[0], url)) == keep(posts[0]); }
      var kept := if keep(posts[0]) then [posts[0]] else [];
      assert Where(posts, keep) == kept + Where(rest, keep);
      assert ReplacePhoto(kept, id, url) == if keep(head) then [head] else [];
      ReplacePhotoAppend(kept, Where(rest, keep), id, url);
    }
  }

  lemma {:induction false} ReplacePhotoAppend(a: seq<PetPost>, b: seq<PetPost>, id: string, url: string)
    ensures ReplacePhoto(a + b, id, url) == ReplacePhoto(a, id, url) + ReplacePhoto(b, id, url)
  {
    var l, r := ReplacePhoto(a + b, id, url), ReplacePhoto(a, id, url) + ReplacePhoto(b, id, url);
    assert |l| == |r|;
    forall i | 0 <= i < |l|
      ensures l[i] == r[i]
    {
      if i < |a| {
        assert (a + b)[i] == a[i];
      } else {
        assert (a + b)[i] == b[i - |a|];
      }
    }
  }

  /** The candidates offered for a lost report: every found report, in store order. */
  function FoundCandidates(posts: seq<PetPost>): seq<PetPost> {
    Where(posts, (p: PetPost) => p.kind == Found)
  }

  /** The suggested matches shown: the reports whose id the suggestion service returned, in store order. */
  function ShownMatches(posts: seq<PetPost>, ids: seq<string>): seq<PetPost> {
    Where(posts, (p: PetPost) => p.id in ids)
  }

  /** Candidates are exactly the found reports of the store. */
  lemma FoundCandidatesExact(posts: seq<PetPost>, p: PetPost)
    ensures p in FoundCandidates(posts) <==> p in posts && p.kind == Found
  {
    WhereMembership(posts, (q: PetPost) => q.kind == Found, p);
  }

  /** Shown matches are never fabricated: each is a report of the store whose id was returned,
      and every report of the store whose id was returned is shown. */
  lemma ShownMatchesAreReturnedReports(posts: seq<PetPost>, ids: seq<string>, p: PetPost)
    ensures p in ShownMatches(posts, ids) <==> p in posts && p.id in ids
  {
    WhereMembership(posts, (q: PetPost) => q.id in ids, p);
  }

  /** Shown matches keep the store's order. */
  lemma ShownMatchesInStoreOrder(posts: seq<PetPost>, ids: seq<string>)
    ensures IsSubsequence(ShownMatches(posts, ids), posts)
  {
    WhereIsSubsequence(posts, (q: PetPost) => q.id in ids);
  }
}
