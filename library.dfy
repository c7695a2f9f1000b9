/**
 * The library page: liking and unliking poems in the page's list of liked
 * ids, the results label, the card excerpt and the empty-state hint.
 * Fetching and server-side filtering of the poems, and sharing, are outside
 * the model.
 */
module Library {
  import Seqs

  type PoemId = string

  /** `prev.includes(id) ? prev.filter(x => x !== id) : [...prev, id]` */
  function Toggled(liked: seq<PoemId>, id: PoemId): seq<PoemId>
  {
    if id in liked then Seqs.Filter(liked, (x: PoemId) => x != id) else liked + [id]
  }

  /**
   * Liking an id not in the list appends it at the end; unliking removes
   * every occurrence of it and keeps the others, in their order.
   */
  lemma ToggleMeaning(liked: seq<PoemId>, id: PoemId)
    ensures id !in liked ==> Toggled(liked, id) == liked + [id]
    ensures id in liked ==>
      && id !in Toggled(liked, id)
      && Seqs.IsSubsequence(Toggled(liked, id), liked)
      && (forall x :: x in liked && x != id ==> x in Toggled(liked, id))
  {
    if id in liked {
      Seqs.FilterIsSubsequence(liked, (x: PoemId) => x != id);
    }
  }

  /** Toggling the same id twice restores which ids are liked. */
  lemma ToggleTwiceRestoresMembership(liked: seq<PoemId>, id: PoemId)
    ensures forall x :: x in Toggled(Toggled(liked, id), id) <==> x in liked
  {
  }

  /** Liking then unliking an id that was not liked gives back the very same list. */
  lemma LikeThenUnlike(liked: seq<PoemId>, id: PoemId)
    requires id !in liked
    ensures Toggled(Toggled(liked, id), id) == liked
  {
    var keep := (x: PoemId) => x != id;
    assert id in liked + [id];
    Seqs.FilterAppend(liked, [id], keep);
    Seqs.FilterKeepsAll(liked, keep);
    assert Seqs.Filter([id], keep) == [];
  }

  /** A list with no duplicate ids keeps none after a toggle. */
  lemma ToggleKeepsDistinct(liked: seq<PoemId>, id: PoemId)
    requires Seqs.Distinct(liked)
    ensures Seqs.Distinct(Toggled(liked, id))
  {
    if id in liked {
      Seqs.FilterKeepsDistinct(liked, (x: PoemId) => x != id);
    } else {
      var r := liked + [id];
      forall i, j | 0 <= i < j < |r| ensures r[i] != r[j] {
        if j == |liked| {
          assert r[i] == liked[i];
        } else {
          assert r[i] == liked[i] && r[j] == liked[j];
        }
      }
    }
  }

  datatype Effect = Toast(title: string, description: string, destructive: bool)

  const SignInRequired := Toast("Sign in required", "Please sign in to like poems", true)
  const Removed := Toast("Removed from favorites", "Poem removed from your favorites", false)
  const Added := Toast("Added to favorites", "Poem added to your favorites", false)

  class LibraryPage {
    var likedPoems: seq<PoemId>
    var effects: seq<Effect>

    constructor ()
      ensures likedPoems == [] && effects == []
    {
      likedPoems, effects := [], [];
    }

    /**
     * `toggleLike`: without a user only a toast; otherwise the toggle, with
     * a toast saying which way it went, judged on the list before the toggle.
     */
    method ToggleLike(signedIn: bool, id: PoemId)
      modifies this
      ensures !signedIn ==> likedPoems == old(likedPoems) && effects == old(effects) + [SignInRequired]
      ensures signedIn ==> likedPoems == Toggled(old(likedPoems), id)
      ensures signedIn && id in old(likedPoems) ==> effects == old(effects) + [Removed]
      ensures signedIn && id !in old(likedPoems) ==> effects == old(effects) + [Added]
    {
      if !signedIn {
        effects := effects + [SignInRequired];
        return;
      }
      var wasLiked := id in likedPoems;
      likedPoems := Toggled(likedPoems, id);
      effects := effects + [if wasLiked then Removed else Added];
    }
  }

  /**
   * A signed-in user liking then unliking a poem: the list is back where it
   * started, the first toast says added and the second removed.
   */
  method LikeAndUnlike(start: seq<PoemId>, id: PoemId) returns (liked: seq<PoemId>, toasts: seq<Effect>)
    requires id !in start
    ensures liked == start
    ensures toasts == [Added, Removed]
  {
    var page := new LibraryPage();
    page.likedPoems := start;
    page.ToggleLike(true, id);
    assert id in page.likedPoems;
    page.ToggleLike(true, id);
    LikeThenUnlike(start, id);
    liked, toasts := page.likedPoems, page.effects;
  }

  /** The noun in "`n` poem(s) found": singular exactly when one poem was found. */
  function PoemNoun(count: nat): (r: string)
    ensures r == "poem" <==> count == 1
    ensures r == "poems" <==> count != 1
  {
    "poem" + (if count != 1 then "s" else "")
  }

  /** The card excerpt: the first 150 characters, then "..." whatever the length. */
  function Excerpt(content: string): (r: string)
    ensures |r| == (if |content| < 150 then |content| else 150) + 3
    ensures r[..|r| - 3] == content[..|r| - 3]
    ensures r[|r| - 3..] == "..."
    ensures |content| <= 150 ==> r == content + "..."
  {
    (if |content| < 150 then content else content[..150]) + "..."
  }

  const AdjustFilters := "Try adjusting your search or filter criteria"
  const BeTheFirst := "Be the first to add a poem to the library!"

  /**
   * The hint under "No poems found": it takes the search term and the
   * category only, so the source filter cannot change it.
   */
  function EmptyHint(searchTerm: string, selectedCategory: string): (r: string)
    ensures r == AdjustFilters <==> searchTerm != "" || selectedCategory != "all"
    ensures r == BeTheFirst <==> searchTerm == "" && selectedCategory == "all"
  {
    if searchTerm != "" || selectedCategory != "all" then AdjustFilters else BeTheFirst
  }
}
