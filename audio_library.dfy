/**
 * The audio library page: turning poem rows into audio cards with author,
 * narrator and category fallbacks, the case-insensitive search over them,
 * the featured strip, and which poem is marked as playing. Random like and
 * download counts are outside the model.
 */
module AudioLibrary {
  import opened Wrappers
  import Text
  import Seqs

  type PoemId = string

  /** A row of the `all_poems` view, as far as this page reads it. */
  datatype PoemRow = PoemRow(
    id: PoemId,
    title: string,
    content: Option<string>,
    category: Option<string>,
    externalAuthor: Option<string>,
    sourceType: Option<string>,
    audioUrl: Option<string>)

  /** An audio card. */
  datatype AudioPoem = AudioPoem(
    id: PoemId,
    title: string,
    author: string,
    narrator: string,
    category: string,
    content: Option<string>,
    audioUrl: Option<string>,
    sourceType: Option<string>)

  /**
   * The card for `row`; `fullName` is the signed-in user's full name, if
   * any. The author is the poem's external author, else the user's name,
   * else "Unknown Author"; a poem of source "user" is narrated by the
   * user's name or "You", any other by "AI Narrator"; the category defaults
   * to "general". None of the three is ever empty.
   */
  function ToAudioPoem(row: PoemRow, fullName: Option<string>): (a: AudioPoem)
    ensures a.id == row.id && a.title == row.title && a.content == row.content
    ensures a.audioUrl == row.audioUrl && a.sourceType == row.sourceType
    ensures a.author == (if Text.Truthy(row.externalAuthor) then row.externalAuthor.value
                         else if Text.Truthy(fullName) then fullName.value else "Unknown Author")
    ensures a.narrator == (if row.sourceType == Some("user") then (if Text.Truthy(fullName) then fullName.value else "You")
                           else "AI Narrator")
    ensures a.category == (if Text.Truthy(row.category) then row.category.value else "general")
    ensures a.author != "" && a.narrator != "" && a.category != ""
  {
    AudioPoem(
      row.id,
      row.title,
      Text.OrElse(row.externalAuthor, Text.OrElse(fullName, "Unknown Author")),
      if row.sourceType == Some("user") then Text.OrElse(fullName, "You") else "AI Narrator",
      Text.OrElse(row.category, "general"),
      row.content,
      row.audioUrl,
      row.sourceType)
  }

  /** `audioPoems`: one card per row, in order. */
  function AudioPoems(rows: seq<PoemRow>, fullName: Option<string>): (r: seq<AudioPoem>)
    ensures |r| == |rows|
    ensures forall i :: 0 <= i < |rows| ==> r[i] == ToAudioPoem(rows[i], fullName)
  {
    if rows == [] then [] else [ToAudioPoem(rows[0], fullName)] + AudioPoems(rows[1..], fullName)
  }

  /** The search test: title, author or narrator contains the term, ignoring case. */
  predicate Matches(p: AudioPoem, searchTerm: string) {
    || Text.ContainsIgnoringCase(p.title, searchTerm)
    || Text.ContainsIgnoringCase(p.author, searchTerm)
    || (p.narrator != "" && Text.ContainsIgnoringCase(p.narrator, searchTerm))
  }

  /** `filteredAudio` */
  function FilteredAudio(poems: seq<AudioPoem>, searchTerm: string): seq<AudioPoem>
  {
    Seqs.Filter(poems, (p: AudioPoem) => Matches(p, searchTerm))
  }

  /** The filtered cards are an order-preserving sub-list holding exactly the matching cards. */
  lemma FilteredAudioMeaning(poems: seq<AudioPoem>, searchTerm: string)
    ensures Seqs.IsSubsequence(FilteredAudio(poems, searchTerm), poems)
    ensures forall p :: p in FilteredAudio(poems, searchTerm) <==> p in poems && Matches(p, searchTerm)
  {
    Seqs.FilterIsSubsequence(poems, (p: AudioPoem) => Matches(p, searchTerm));
  }

  /** An empty search keeps every card, in order. */
  lemma EmptySearchKeepsAll(poems: seq<AudioPoem>)
    ensures FilteredAudio(poems, "") == poems
  {
    forall p | p in poems ensures Matches(p, "") {
      Text.EmptyIsContainedIgnoringCase(p.title);
    }
    Seqs.FilterKeepsAll(poems, (p: AudioPoem) => Matches(p, ""));
  }

  /**
   * "Featured Narrations": the first three filtered cards, or all of them
   * when there are fewer; each is a card of the page that matches the search.
   */
  function Featured(poems: seq<AudioPoem>, searchTerm: string): (r: seq<AudioPoem>)
    ensures var f := FilteredAudio(poems, searchTerm);
      && |r| == (if |f| < 3 then |f| else 3)
      && r == f[..|r|]
    ensures forall p :: p in r ==> p in poems && Matches(p, searchTerm)
  {
    var f := FilteredAudio(poems, searchTerm);
    var r := Seqs.Take(f, 3);
    assert r == f[..|r|];
    assert forall p :: p in r ==> p in f;
    r
  }

  class AudioLibraryPage {
    var searchTerm: string
    var currentlyPlaying: Option<PoemId>

    constructor ()
      ensures searchTerm == "" && currentlyPlaying.None?
    {
      searchTerm, currentlyPlaying := "", None;
    }

    /** `handlePlay`: the card with this id is the one marked as playing. */
    method HandlePlay(id: PoemId)
      modifies this`currentlyPlaying
      ensures currentlyPlaying == Some(id)
    {
      currentlyPlaying := Some(id);
    }

    /** `handlePause`: no card is marked as playing. */
    method HandlePause()
      modifies this`currentlyPlaying
      ensures currentlyPlaying.None?
    {
      currentlyPlaying := None;
    }
  }
}
