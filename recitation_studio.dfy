/**
 * The recitation studio: searching the poems to recite, choosing one,
 * saving the recording made of it, and showing recording durations.
 * The database is outside the model: the upsert is recorded as an effect
 * and its success is a parameter.
 */
module RecitationStudio {
  import opened Wrappers
  import Text
  import Seqs
  import Clock

  type PoemId = string
  type UserId = string

  /** A row of the `all_poems` view, as far as this page reads it. */
  datatype PoemRow = PoemRow(
    id: PoemId,
    title: string,
    content: Option<string>,
    category: Option<string>,
    externalAuthor: Option<string>)

  /**
   * The search test: the title contains the term ignoring case, or the
   * poem has an author that does.
   */
  predicate Matches(p: PoemRow, searchTerm: string) {
    || Text.ContainsIgnoringCase(p.title, searchTerm)
    || (Text.Truthy(p.externalAuthor) && Text.ContainsIgnoringCase(p.externalAuthor.value, searchTerm))
  }

  /** `filteredPoems` */
  function FilteredPoems(allPoems: seq<PoemRow>, searchTerm: string): seq<PoemRow>
  {
    Seqs.Filter(allPoems, (p: PoemRow) => Matches(p, searchTerm))
  }

  /**
   * The filtered list is an order-preserving sub-list of all poems, holding
   * exactly the poems that match.
   */
  lemma FilteredPoemsMeaning(allPoems: seq<PoemRow>, searchTerm: string)
    ensures Seqs.IsSubsequence(FilteredPoems(allPoems, searchTerm), allPoems)
    ensures forall p :: p in FilteredPoems(allPoems, searchTerm) <==> p in allPoems && Matches(p, searchTerm)
  {
    Seqs.FilterIsSubsequence(allPoems, (p: PoemRow) => Matches(p, searchTerm));
  }

  /** An empty search keeps every poem, in order. */
  lemma EmptySearchKeepsAll(allPoems: seq<PoemRow>)
    ensures FilteredPoems(allPoems, "") == allPoems
  {
    forall p | p in allPoems ensures Matches(p, "") {
      Text.EmptyIsContainedIgnoringCase(p.title);
    }
    Seqs.FilterKeepsAll(allPoems, (p: PoemRow) => Matches(p, ""));
  }

  /** The row the save mutation upserts into `poems`. */
  datatype RecordingUpsert = RecordingUpsert(
    id: PoemId,
    userId: UserId,
    title: string,
    content: string,
    recordingDuration: nat,
    isRecordingPublic: bool,
    category: string)

  /**
   * The upsert for a recording of `poem`: its own title, content and
   * category where they are non-empty, else "Recorded Poem", "" and
   * "recitation"; always private.
   */
  function Upsert(poem: PoemRow, userId: UserId, duration: nat): (u: RecordingUpsert)
    ensures u.id == poem.id && u.userId == userId && u.recordingDuration == duration
    ensures !u.isRecordingPublic
    ensures u.title == (if poem.title != "" then poem.title else "Recorded Poem")
    ensures u.content == (if Text.Truthy(poem.content) then poem.content.value else "")
    ensures u.category == (if Text.Truthy(poem.category) then poem.category.value else "recitation")
  {
    RecordingUpsert(poem.id, userId, Text.OrElse(Some(poem.title), "Recorded Poem"),
      Text.OrElse(poem.content, ""), duration, false, Text.OrElse(poem.category, "recitation"))
  }

  datatype Effect =
    | DbUpsert(row: RecordingUpsert)
    | Toast(title: string, description: string, destructive: bool)

  const SavedToast := Toast("Recording saved", "Your recitation has been saved successfully", false)
  const FailedToast := Toast("Save failed", "Could not save your recording. Please try again.", true)

  const PoemsTab := "poems"
  const RecordingsTab := "recordings"

  class RecitationPage {
    var searchTerm: string
    var selectedPoem: Option<PoemRow>
    var activeTab: string
    var effects: seq<Effect>

    constructor ()
      ensures searchTerm == "" && selectedPoem.None? && activeTab == PoemsTab && effects == []
    {
      searchTerm, selectedPoem, activeTab, effects := "", None, PoemsTab, [];
    }

    /** "Start Recording" on a poem card. */
    method Select(poem: PoemRow)
      modifies this`selectedPoem
      ensures selectedPoem == Some(poem)
    {
      selectedPoem := Some(poem);
    }

    /** "Back to Poems". */
    method Back()
      modifies this`selectedPoem
      ensures selectedPoem.None?
    {
      selectedPoem := None;
    }

    /**
     * `handleSaveRecording` with the mutation run to completion. Without a
     * selected poem nothing happens. Without a user the mutation fails
     * before writing. Otherwise the upsert is issued; on success the poem is
     * deselected and the recordings tab shown, on failure only a toast.
     */
    method HandleSaveRecording(duration: nat, user: Option<UserId>, upsertSucceeds: bool)
      modifies this`selectedPoem, this`activeTab, this`effects
      ensures old(selectedPoem).None? ==>
        selectedPoem == old(selectedPoem) && activeTab == old(activeTab) && effects == old(effects)
      ensures old(selectedPoem).Some? && user.None? ==>
        selectedPoem == old(selectedPoem) && activeTab == old(activeTab) && effects == old(effects) + [FailedToast]
      ensures old(selectedPoem).Some? && user.Some? && upsertSucceeds ==>
        && selectedPoem.None? && activeTab == RecordingsTab
        && effects == old(effects) + [DbUpsert(Upsert(old(selectedPoem).value, user.value, duration)), SavedToast]
      ensures old(selectedPoem).Some? && user.Some? && !upsertSucceeds ==>
        && selectedPoem == old(selectedPoem) && activeTab == old(activeTab)
        && effects == old(effects) + [DbUpsert(Upsert(old(selectedPoem).value, user.value, duration)), FailedToast]
    {
      if selectedPoem.None? {
        return;
      }
      if user.None? {
        effects := effects + [FailedToast];
        return;
      }
      effects := effects + [DbUpsert(Upsert(selectedPoem.value, user.value, duration))];
      if upsertSucceeds {
        effects := effects + [SavedToast];
        selectedPoem := None;
        activeTab := RecordingsTab;
      } else {
        effects := effects + [FailedToast];
      }
    }
  }

  /**
   * The duration shown on a recording card: `m:ss` of a positive number of
   * seconds, "Unknown" when there is none or it is 0.
   */
  function FormatDuration(recordingDuration: Option<nat>): (r: string)
    ensures r == "Unknown" <==> recordingDuration.None? || recordingDuration.value == 0
    ensures r != "Unknown" ==> Clock.Parse(r) == Some(recordingDuration.value) && Clock.Canonical(r)
  {
    match recordingDuration
    case Some(seconds) =>
      if seconds == 0 then "Unknown"
      else
        Clock.FormatRoundTrip(seconds);
        Clock.FormatShape(seconds);
        Clock.Format(seconds)
    case None => "Unknown"
  }
}
