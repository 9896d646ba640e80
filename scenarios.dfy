/** Concrete runs of the model on the seed data. */
module Scenarios {
  import opened Wrappers
  import opened Text
  import opened Seqs
  import opened Types
  import opened Seed
  import opened ReportFilter
  import opened ReportStore
  import Gateway
  import opened App

  /** Only a colour filter. */
  function ColorOnly(color: string): (f: FilterState)
    ensures f.color == color && f.kind.AllTypes? && f.breed == "" && f.size == "" && !f.mineOnly
  {
    FilterState(AllTypes, "", color, "", false)
  }

  const Post1ColorLowered := "beige con máscara negra"

  lemma Post1ColorLowers()
    ensures Lower(Post1.color) == Post1ColorLowered
  {
    var l := Lower(Post1.color);
    forall k | 0 <= k < |l|
      ensures l[k] == Post1ColorLowered[k]
    {
      assert l[k] == LowerChar(Post1.color[k]);
      if k == 0 {
        assert Post1.color[0] == 'B';
      } else {
        assert !IsUpperLatin(Post1.color[k]);
      }
    }
  }

  /**
   * The colour filter is a plain substring test: "Negro" does not find the pug
   * "Beige con máscara negra", because the colour contains "negra", not "negro".
   */
  lemma NegroMissesNegra()
    ensures !ColorStage(ColorOnly("Negro"), Post1)
  {
    Post1ColorLowers();
    var hay, needle := Post1ColorLowered, "negro";
    assert Lower("Negro") == needle by {
      assert LowerChar('N') == 'n';
    }
    forall i | 0 <= i <= |hay| - |needle|
      ensures !MatchesAt(hay, needle, i)
    {
      assert hay[i..i + 5][4] == hay[i + 4];
      if i == 3 {
        assert hay[i..i + 5][0] == 'g';
      }
    }
  }

  /** ... while the shared stem "negr" does. */
  lemma NegrFindsNegra()
    ensures ColorStage(ColorOnly("Negr"), Post1)
  {
    Post1ColorLowers();
    assert Lower("Negr") == "negr" by {
      assert LowerChar('N') == 'n';
    }
    assert MatchesAt(Post1ColorLowered, "negr", 18);
  }

  /** A report put in front of the seed reports is no found report. */
  lemma SeedFoundCandidates(x: PetPost)
    requires x.kind == Lost
    ensures FoundCandidates([x] + MockPosts) == [Post2, Post4]
  {
    var keep := (p: PetPost) => p.kind == Found;
    assert ([x] + MockPosts)[1..] == MockPosts;
    assert MockPosts[1..] == [Post2, Post3, Post4];
    assert [Post2, Post3, Post4][1..] == [Post3, Post4];
    assert [Post3, Post4][1..] == [Post4];
    assert Where([Post4], keep) == [Post4];
    assert Where([Post3, Post4], keep) == [Post4];
    assert Where([Post2, Post3, Post4], keep) == [Post2, Post4];
    assert Where(MockPosts, keep) == [Post2, Post4];
  }

  /** With `post_4` the one id returned, the found pug is the one match shown. */
  lemma SeedShownMatches(x: PetPost)
    requires x.id != "post_4"
    ensures ShownMatches([x] + MockPosts, ["post_4"]) == [Post4]
  {
    var keep := (p: PetPost) => p.id in ["post_4"];
    assert ([x] + MockPosts)[1..] == MockPosts;
    assert MockPosts[1..] == [Post2, Post3, Post4];
    assert [Post2, Post3, Post4][1..] == [Post3, Post4];
    assert [Post3, Post4][1..] == [Post4];
    assert Where([Post4], keep) == [Post4];
    assert Where([Post3, Post4], keep) == [Post4];
    assert Where([Post2, Post3, Post4], keep) == [Post4];
    assert Where(MockPosts, keep) == [Post4];
  }

  /** What the suggestion step makes of a lost report put in front of the seed reports when the service answers `post_4`. */
  lemma SeedSuggestion(x: PetPost)
    requires x.kind == Lost && x.id != "post_4"
    ensures var updated := [x] + MockPosts;
      var outcome := Gateway.GetSuggestions(x, FoundCandidates(updated), Gateway.SuggestReplied(Some(["post_4"])));
      && outcome.request == Some(Gateway.SuggestRequest(
           Gateway.SummarizeLost(x), [Gateway.SummarizeFound(Post2), Gateway.SummarizeFound(Post4)]))
      && ShownMatches(updated, outcome.ids) == [Post4]
  {
    SeedFoundCandidates(x);
    SeedShownMatches(x);
    assert Gateway.SummarizeAllFound([Post2, Post4]) == [Gateway.SummarizeFound(Post2), Gateway.SummarizeFound(Post4)];
  }

  /**
   * The lost-pug journey: sign in, report a lost pug; the suggestion service is
   * sent the two seeded found reports in store order and answers with the found
   * pug, which becomes the one suggested match, and the new report heads the store.
   * A clock reading of at least 10 keeps the new id clear of the seeded `post_1`..`post_4`.
   */
  method LostPugJourney(now: nat) returns (shown: seq<PetPost>, request: Option<Gateway.SuggestRequest>, head: PetPost)
    requires now >= 10
    ensures shown == [Post4]
    ensures request == Some(Gateway.SuggestRequest(
      Gateway.SummarizeLost(head), [Gateway.SummarizeFound(Post2), Gateway.SummarizeFound(Post4)]))
    ensures head.id == PostId(now) && head.userId == MockUser.uid && head.userName == "Marc Ewin"
  {
    var app := new ViewController();
    app.HandleLogin();
    assert app.user == Some(MockUser) && app.posts == MockPosts;
    var data := NewPostData(Lost, "Pug", "Negro", "Pequeño", "Perdido cerca de la plaza.",
                            "data:image/png;base64,AAAA", IquiqueCenter);
    head := NewPost(data, MockUser, now);
    assert |head.id| > 6;
    SeedSuggestion(head);
    request := app.HandleCreatePost(data, now, Gateway.SuggestReplied(Some(["post_4"])));
    shown := app.suggestedMatches;
  }
}
