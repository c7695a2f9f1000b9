/**
 * The writing studio's editor: save validation and the insert-versus-update
 * choice, publish, New, Edit, Delete, template selection, and the word and
 * line counters under the editor.
 *
 * Database calls, toasts, navigation and `confirm` are outside the model:
 * a write or a navigation is appended to `effects`, and the answer of a
 * `confirm` dialog or the success of a database call is a parameter.
 */
module WritingStudio {
  import opened Wrappers
  import Text
  import Seqs

  type PoemId = string
  type UserId = string

  // ---------------------------------------------------------------- counters

  /**
   * `s.split(sep)` for a separator that is one character matching `isSep`:
   * the pieces between separators, so one more piece than separators.
   */
  function Split(s: string, isSep: char -> bool): (r: seq<string>)
    ensures |r| >= 1
  {
    if s == [] then [""]
    else
      var rest := Split(s[1..], isSep);
      if isSep(s[0]) then [""] + rest else [[s[0]] + rest[0]] + rest[1..]
  }

  /** Number of characters of `s` matching `isSep`. */
  function CountWhere(s: string, isSep: char -> bool): nat
  {
    if s == [] then 0 else (if isSep(s[0]) then 1 else 0) + CountWhere(s[1..], isSep)
  }

  lemma {:induction false} SplitLength(s: string, isSep: char -> bool)
    ensures |Split(s, isSep)| == CountWhere(s, isSep) + 1
  {
    if s != [] {
      SplitLength(s[1..], isSep);
    }
  }

  function NonEmpty(w: string): bool { |w| > 0 }

  /**
   * `content.split(/\s+/).filter(word => word.length > 0)`. Splitting at
   * every white-space character rather than at every run of them only adds
   * empty pieces, which the filter drops.
   */
  function Words(content: string): seq<string>
  {
    Seqs.Filter(Split(content, Text.IsSpace), NonEmpty)
  }

  /** The word counter. */
  function WordCount(content: string): nat
  {
    |Words(content)|
  }

  /**
   * Reference count of words: the positions holding a non-space character
   * that starts the text or follows a space (`prevSpace` says whether the
   * character before `s` was a space).
   */
  function RunStarts(s: string, prevSpace: bool): nat
  {
    if s == [] then 0
    else (if !Text.IsSpace(s[0]) && prevSpace then 1 else 0) + RunStarts(s[1..], Text.IsSpace(s[0]))
  }

  /** The first piece of the split is non-empty: `s` starts with a non-space character. */
  function StartsInWord(s: string): bool
  {
    s != [] && !Text.IsSpace(s[0])
  }

  lemma {:induction false} RunStartsCountsPieces(s: string)
    ensures RunStarts(s, true) == |Words(s)|
    ensures RunStarts(s, false) + (if StartsInWord(s) then 1 else 0) == |Words(s)|
  {
    if s != [] {
      var t := s[1..];
      RunStartsCountsPieces(t);
      var rest := Split(t, Text.IsSpace);
      Seqs.FilterAppend([rest[0]], rest[1..], NonEmpty);
      assert [rest[0]] + rest[1..] == rest;
      if Text.IsSpace(s[0]) {
        Seqs.FilterAppend([""], rest, NonEmpty);
      } else {
        var first := [s[0]] + rest[0];
        Seqs.FilterAppend([first], rest[1..], NonEmpty);
        assert rest[0] != "" <==> StartsInWord(t) by {
          if t != [] && !Text.IsSpace(t[0]) {
            assert rest[0][0] == t[0];
          } else if t != [] {
            assert Split(t, Text.IsSpace) == [""] + Split(t[1..], Text.IsSpace);
          }
        }
      }
    }
  }

  /** The word count is the number of maximal runs of non-space characters. */
  lemma WordCountIsRunCount(content: string)
    ensures WordCount(content) == RunStarts(content, true)
  {
    RunStartsCountsPieces(content);
  }

  function IsNewline(c: char): bool { c == '\n' }

  /** `content.split('\n').filter(line => line.trim().length > 0)`. */
  function ContentLines(content: string): seq<string>
  {
    Seqs.Filter(Split(content, IsNewline), Text.HasContent)
  }

  /** The line counter. */
  function LineCount(content: string): nat
  {
    |ContentLines(content)|
  }

  /** Every counted line has visible content, and there are at most one more lines than newlines. */
  lemma LineCountBound(content: string)
    ensures LineCount(content) <= CountWhere(content, IsNewline) + 1
    ensures forall line :: line in ContentLines(content) ==> Text.Trim(line) != ""
  {
    SplitLength(content, IsNewline);
    forall line | line in ContentLines(content) ensures Text.Trim(line) != "" {
      Text.TrimEmptyIffBlank(line);
    }
  }

  // ---------------------------------------------------------------- editor

  /** A row of the user's saved poems as the list hands it to Edit. */
  datatype SavedPoem = SavedPoem(id: PoemId, title: string, content: string, category: Option<string>)

  /** A template button: its name and the category it selects. */
  datatype Template = Template(name: string, structure: string, category: string)

  const Templates: seq<Template> := [
    Template("Sonnet", "14 lines, ABAB CDCD EFEF GG rhyme scheme", "sonnet"),
    Template("Haiku", "3 lines, 5-7-5 syllable pattern", "haiku"),
    Template("Free Verse", "No formal constraints", "free_verse"),
    Template("Limerick", "5 lines, AABBA rhyme scheme", "limerick")
  ]

  const DefaultCategory: string := "free_verse"

  /** The two writes a save can issue. */
  datatype PoemWrite =
    | InsertPoem(title: string, content: string, category: string, userId: UserId, isAudio: bool)
    | UpdatePoem(id: PoemId, title: string, content: string, category: string)

  /** What `handleSave` decides before it touches the database. */
  datatype SaveDecision = SignInFirst | MissingContent | Write(write: PoemWrite)

  /**
   * The validation and payload of `handleSave`: no user sends to sign-in;
   * a title or content that trims to nothing is refused; otherwise the
   * trimmed title and content are written, updating the poem being edited or
   * inserting a new one owned by the user, not audio. Whether it is a draft
   * plays no part.
   */
  function Decide(user: Option<UserId>, title: string, content: string, category: string,
                  editingId: Option<PoemId>): SaveDecision
  {
    if user.None? then SignInFirst
    else if Text.Trim(title) == "" || Text.Trim(content) == "" then MissingContent
    else if Text.Truthy(editingId) then Write(UpdatePoem(editingId.value, Text.Trim(title), Text.Trim(content), category))
    else Write(InsertPoem(Text.Trim(title), Text.Trim(content), category, user.value, false))
  }

  /** What the save decision means in terms of the editor's fields. */
  lemma DecideMeaning(user: Option<UserId>, title: string, content: string, category: string,
                      editingId: Option<PoemId>)
    ensures var d := Decide(user, title, content, category, editingId);
      && (d.SignInFirst? <==> user.None?)
      && (d.MissingContent? <==> user.Some? && (Text.IsBlank(title) || Text.IsBlank(content)))
      && (d.Write? ==>
        && Text.HasContent(d.write.title) && Text.HasContent(d.write.content)
        && d.write.title == Text.Trim(title) && d.write.content == Text.Trim(content)
        && d.write.category == category
        && (d.write.UpdatePoem? <==> Text.Truthy(editingId))
        && (d.write.UpdatePoem? ==> d.write.id == editingId.value)
        && (d.write.InsertPoem? ==> d.write.userId == user.value && !d.write.isAudio))
  {
    Text.TrimEmptyIffBlank(title);
    Text.TrimEmptyIffBlank(content);
    Text.TrimIsInnerPiece(title);
    Text.TrimIsInnerPiece(content);
  }

  datatype Effect =
    | Toast(title: string, description: string)
    | NavigateTo(path: string)
    | DbWrite(write: PoemWrite)
    | DbDelete(id: PoemId)

  const SignInToast := Toast("Please sign in", "You need to be signed in to save poems.")
  const MissingContentToast := Toast("Missing content", "Please add both a title and content to your poem.")
  const SaveErrorToast := Toast("Error saving poem", "There was an error saving your poem. Please try again.")

  /** The toast after a successful write; only here does draft versus publish show. */
  function SavedToast(w: PoemWrite, isDraft: bool): Effect
  {
    if w.UpdatePoem? then Toast("Poem updated!", "Your poem has been updated successfully.")
    else if isDraft then Toast("Poem saved!", "Your poem has been saved as a draft.")
    else Toast("Poem saved!", "Your poem has been published!")
  }

  /**
   * What a save shows and sends: without a user a toast and a redirect to
   * /login, with blank title or content a toast, otherwise the write and
   * the toast for its outcome.
   */
  function SaveEffects(d: SaveDecision, isDraft: bool, writeSucceeds: bool): seq<Effect>
  {
    match d
    case SignInFirst => [SignInToast, NavigateTo("/login")]
    case MissingContent => [MissingContentToast]
    case Write(w) => [DbWrite(w), if writeSucceeds then SavedToast(w, isDraft) else SaveErrorToast]
  }

  class Studio {
    var title: string
    var content: string
    var category: string
    var editingId: Option<PoemId>
    var saving: bool
    var publishing: bool
    var effects: seq<Effect>

    /** Nothing typed: title and content both trim to nothing. */
    predicate EditorBlank()
      reads this
    {
      Text.IsBlank(title) && Text.IsBlank(content)
    }

    /** The state New leaves behind. */
    predicate Fresh()
      reads this
    {
      title == "" && content == "" && category == DefaultCategory && editingId.None?
    }

    /** Save and Publish are disabled while either flag is set. */
    predicate SaveButtonsDisabled()
      reads this
    {
      saving || publishing
    }

    constructor ()
      ensures Fresh() && !saving && !publishing && effects == []
    {
      title, content, category, editingId := "", "", DefaultCategory, None;
      saving, publishing, effects := false, false, [];
    }

    /**
     * `handleSave(isDraft)` run to completion; `writeSucceeds` is the
     * database's answer. Without a user: a toast and a redirect to /login.
     * With blank title or content: a toast. Otherwise the write of
     * `Decide`, then a toast, and `saving` and `publishing` both cleared
     * whatever the outcome. The early returns leave both flags as they were.
     */
    method HandleSave(isDraft: bool, user: Option<UserId>, writeSucceeds: bool)
      modifies this`saving, this`publishing, this`effects
      ensures var d := Decide(user, title, content, category, editingId);
        && effects == old(effects) + SaveEffects(d, isDraft, writeSucceeds)
        && (d.Write? ==> !saving && !publishing)
        && (!d.Write? ==> saving == old(saving) && publishing == old(publishing))
    {
      var d := Decide(user, title, content, category, editingId);
      if d.Write? {
        saving := true;
      }
      effects := effects + SaveEffects(d, isDraft, writeSucceeds);
      if d.Write? {
        saving, publishing := false, false;
      }
    }

    /**
     * `handlePublish` as written: sets `publishing`, then saves as not a
     * draft. When the save returns early, `publishing` stays set, so Save
     * and Publish stay disabled.
     */
    method HandlePublish(user: Option<UserId>, writeSucceeds: bool)
      modifies this`saving, this`publishing, this`effects
      ensures var d := Decide(user, title, content, category, editingId);
        && effects == old(effects) + SaveEffects(d, false, writeSucceeds)
        && (d.Write? ==> !saving && !publishing)
        && (!d.Write? ==> publishing && saving == old(saving))
    {
      publishing := true;
      HandleSave(false, user, writeSucceeds);
    }

    /**
     * `handlePublish` with the flags cleared on every path, as the save's
     * `finally` block intends: afterwards Save and Publish are enabled again.
     */
    method HandlePublishClearingFlags(user: Option<UserId>, writeSucceeds: bool)
      requires !saving
      modifies this`saving, this`publishing, this`effects
      ensures !SaveButtonsDisabled()
      ensures var d := Decide(user, title, content, category, editingId);
        effects == old(effects) + SaveEffects(d, false, writeSucceeds)
    {
      publishing := true;
      HandleSave(false, user, writeSucceeds);
      publishing := false;
    }

    /**
     * `handleNew`: resets the editor when it is blank, or when it is not
     * and the user confirms; otherwise nothing changes.
     */
    method HandleNew(confirmed: bool)
      modifies this`title, this`content, this`category, this`editingId
      ensures (old(EditorBlank()) || confirmed) ==> Fresh()
      ensures !(old(EditorBlank()) || confirmed) ==>
        title == old(title) && content == old(content) && category == old(category) && editingId == old(editingId)
    {
      if Text.HasContent(title) || Text.HasContent(content) {
        if confirmed {
          title, content, category, editingId := "", "", DefaultCategory, None;
        }
      } else {
        title, content, category, editingId := "", "", DefaultCategory, None;
      }
    }

    /** `handleEdit`: loads the poem; a missing or empty category becomes "free_verse". */
    method HandleEdit(poem: SavedPoem)
      modifies this`title, this`content, this`category, this`editingId
      ensures title == poem.title && content == poem.content && editingId == Some(poem.id)
      ensures category == Text.OrElse(poem.category, DefaultCategory)
    {
      title, content := poem.title, poem.content;
      category := Text.OrElse(poem.category, DefaultCategory);
      editingId := Some(poem.id);
    }

    /**
     * `handleDelete`: `confirmDelete` answers the delete dialog,
     * `deleteSucceeds` is the database's answer, and `confirmClear` answers
     * New's dialog if the deleted poem was the one being edited. Deleting
     * another poem leaves the editor untouched.
     */
    method HandleDelete(poemId: PoemId, confirmDelete: bool, deleteSucceeds: bool, confirmClear: bool)
      modifies this`title, this`content, this`category, this`editingId, this`effects
      ensures !confirmDelete ==> effects == old(effects)
      ensures !(confirmDelete && deleteSucceeds && old(editingId) == Some(poemId)) ==>
        title == old(title) && content == old(content) && category == old(category) && editingId == old(editingId)
      ensures confirmDelete && deleteSucceeds && old(editingId) == Some(poemId) && (old(EditorBlank()) || confirmClear) ==>
        Fresh()
      ensures confirmDelete && deleteSucceeds && old(editingId) == Some(poemId) && !(old(EditorBlank()) || confirmClear) ==>
        title == old(title) && content == old(content) && category == old(category) && editingId == old(editingId)
      ensures confirmDelete ==> effects == old(effects) + [DbDelete(poemId),
        if deleteSucceeds then Toast("Poem deleted", "Your poem has been deleted successfully.")
        else Toast("Error deleting poem", "Failed to delete poem.")]
    {
      if !confirmDelete {
        return;
      }
      effects := effects + [DbDelete(poemId)];
      if !deleteSucceeds {
        effects := effects + [Toast("Error deleting poem", "Failed to delete poem.")];
        return;
      }
      effects := effects + [Toast("Poem deleted", "Your poem has been deleted successfully.")];
      if editingId == Some(poemId) {
        HandleNew(confirmClear);
      }
    }

    /** `handleTemplateSelect`: only the category changes. */
    method HandleTemplateSelect(t: Template)
      modifies this`category, this`effects
      ensures category == t.category
      ensures effects == old(effects) + [Toast(t.name + " template selected", t.structure)]
    {
      category := t.category;
      effects := effects + [Toast(t.name + " template selected", t.structure)];
    }
  }

  /**
   * Publishing a poem whose title is blank as written: the save refuses it
   * and returns before its `finally`, so `publishing` stays set and both
   * save buttons stay disabled; with the flags cleared on every path they
   * are enabled again.
   */
  method PublishBlankTitle(user: UserId) returns (disabledAsWritten: bool, disabledWhenCleared: bool)
    ensures disabledAsWritten && !disabledWhenCleared
  {
    var studio := new Studio();
    studio.content := "Some words";
    studio.HandlePublish(Some(user), true);
    disabledAsWritten := studio.SaveButtonsDisabled();
    var fixed := new Studio();
    fixed.content := "Some words";
    fixed.HandlePublishClearingFlags(Some(user), true);
    disabledWhenCleared := fixed.SaveButtonsDisabled();
  }
}
