/**
 * The profile page: the edit form and how it follows the loaded profile,
 * Cancel and Save, and the fallbacks for the heading, the avatar initial
 * and the statistics. The profile query and upsert are outside the model:
 * the loaded profile is a parameter, the upsert is recorded as an effect
 * and its success is a parameter.
 */
module Profile {
  import opened Wrappers
  import Text

  type UserId = string

  /** A row of `user_profiles`, as far as the page reads it. */
  datatype ProfileRow = ProfileRow(
    displayName: Option<string>,
    bio: Option<string>,
    avatarUrl: Option<string>,
    currentStreak: Option<nat>,
    longestStreak: Option<nat>,
    totalPoemsWritten: Option<nat>,
    totalPoemsRecorded: Option<nat>)

  /** The edit form's three fields. */
  datatype EditForm = EditForm(displayName: string, bio: string, avatarUrl: string)

  const EmptyForm := EditForm("", "", "")

  /** The form filled from a profile: each field as stored, a null one as "". */
  function FormOf(profile: ProfileRow): (f: EditForm)
    ensures f.displayName == (if profile.displayName.Some? then profile.displayName.value else "")
    ensures f.bio == (if profile.bio.Some? then profile.bio.value else "")
    ensures f.avatarUrl == (if profile.avatarUrl.Some? then profile.avatarUrl.value else "")
  {
    EditForm(Text.OrElse(profile.displayName, ""), Text.OrElse(profile.bio, ""), Text.OrElse(profile.avatarUrl, ""))
  }

  /** The profile after upserting `form` into `profile`: the three fields replaced, the rest kept. */
  function Stored(profile: ProfileRow, form: EditForm): ProfileRow
  {
    profile.(displayName := Some(form.displayName), bio := Some(form.bio), avatarUrl := Some(form.avatarUrl))
  }

  /** Saving a form and loading the stored profile back fills the form with what was saved. */
  lemma SaveThenSync(profile: ProfileRow, form: EditForm)
    ensures FormOf(Stored(profile, form)) == form
  {
  }

  datatype Effect =
    | DbUpsert(userId: UserId, form: EditForm)
    | Toast(title: string, description: string, destructive: bool)

  const Updated := Toast("Profile updated", "Your profile has been successfully updated.", false)
  const UpdateFailed := Toast("Update failed", "Failed to update your profile. Please try again.", true)

  class ProfilePage {
    var isEditing: bool
    var editForm: EditForm
    var effects: seq<Effect>

    constructor ()
      ensures !isEditing && editForm == EmptyForm && effects == []
    {
      isEditing, editForm, effects := false, EmptyForm, [];
    }

    /** The effect run when the query delivers `profile` (none when there is no row). */
    method Sync(profile: Option<ProfileRow>)
      modifies this`editForm
      ensures profile.Some? ==> editForm == FormOf(profile.value)
      ensures profile.None? ==> editForm == old(editForm)
    {
      if profile.Some? {
        editForm := FormOf(profile.value);
      }
    }

    /** "Edit Profile". */
    method StartEditing()
      modifies this`isEditing
      ensures isEditing
    {
      isEditing := true;
    }

    /** Typing into the form. */
    method Edit(form: EditForm)
      modifies this`editForm
      ensures editForm == form
    {
      editForm := form;
    }

    /** `handleCancel`: leaves editing; the form is restored when there is a profile to restore it from. */
    method HandleCancel(profile: Option<ProfileRow>)
      modifies this`editForm, this`isEditing
      ensures !isEditing
      ensures profile.Some? ==> editForm == FormOf(profile.value)
      ensures profile.None? ==> editForm == old(editForm)
    {
      if profile.Some? {
        editForm := FormOf(profile.value);
      }
      isEditing := false;
    }

    /**
     * `handleSave` with the mutation run to completion. Without a user it
     * fails before writing. Otherwise the form is upserted for the user;
     * success leaves editing mode, failure stays in it. The form itself is
     * not changed.
     */
    method HandleSave(user: Option<UserId>, upsertSucceeds: bool)
      modifies this`isEditing, this`effects
      ensures user.None? ==> isEditing == old(isEditing) && effects == old(effects) + [UpdateFailed]
      ensures user.Some? && upsertSucceeds ==>
        !isEditing && effects == old(effects) + [DbUpsert(user.value, editForm), Updated]
      ensures user.Some? && !upsertSucceeds ==>
        isEditing == old(isEditing) && effects == old(effects) + [DbUpsert(user.value, editForm), UpdateFailed]
    {
      if user.None? {
        effects := effects + [UpdateFailed];
        return;
      }
      effects := effects + [DbUpsert(user.value, editForm)];
      if upsertSucceeds {
        effects := effects + [Updated];
        isEditing := false;
      } else {
        effects := effects + [UpdateFailed];
      }
    }
  }

  /**
   * Editing a loaded profile, cancelling, then editing again and saving
   * successfully: the cancel throws the typed change away, and the save
   * writes the second form and leaves editing mode.
   */
  method EditCancelEditSave(user: UserId, profile: ProfileRow, first: EditForm, second: EditForm)
    returns (afterCancel: EditForm, written: EditForm, editing: bool)
    ensures afterCancel == FormOf(profile)
    ensures written == second && !editing
  {
    var page := new ProfilePage();
    page.Sync(Some(profile));
    page.StartEditing();
    page.Edit(first);
    page.HandleCancel(Some(profile));
    afterCancel := page.editForm;
    page.StartEditing();
    page.Edit(second);
    page.HandleSave(Some(user), true);
    written := page.effects[0].form;
    editing := page.isEditing;
  }

  /** `email.split('@')[0]`: the part of the address before its first '@'. */
  function BeforeAt(email: string): (r: string)
    ensures |r| <= |email| && r == email[..|r|]
    ensures '@' !in r
    ensures |r| < |email| ==> email[|r|] == '@'
  {
    if email == [] || email[0] == '@' then [] else [email[0]] + BeforeAt(email[1..])
  }

  /**
   * The heading: the display name, else the email's part before '@', else
   * "Poetry Lover"; an empty string counts as missing at each step, so the
   * heading is never empty.
   */
  function Heading(profile: Option<ProfileRow>, email: Option<string>): (r: string)
    ensures r != ""
    ensures profile.Some? && Text.Truthy(profile.value.displayName) ==> r == profile.value.displayName.value
    ensures !(profile.Some? && Text.Truthy(profile.value.displayName)) && email.Some? && BeforeAt(email.value) != "" ==>
      r == BeforeAt(email.value)
    ensures !(profile.Some? && Text.Truthy(profile.value.displayName)) && !(email.Some? && BeforeAt(email.value) != "") ==>
      r == "Poetry Lover"
  {
    var name := if profile.Some? then profile.value.displayName else None;
    var local := if email.Some? then Some(BeforeAt(email.value)) else None;
    Text.OrElse(name, Text.OrElse(local, "Poetry Lover"))
  }

  /**
   * The avatar's fallback letter: the upper-cased first character of the
   * display name, else of the email; nothing when there is neither.
   */
  function Initial(profile: Option<ProfileRow>, email: Option<string>): (r: string)
    ensures |r| <= 1
    ensures r != "" ==> !Text.IsLowerLetter(r[0])
    ensures profile.Some? && Text.Truthy(profile.value.displayName) ==>
      r == [Text.UpperChar(profile.value.displayName.value[0])]
    ensures !(profile.Some? && Text.Truthy(profile.value.displayName)) ==>
      r == (if Text.Truthy(email) then [Text.UpperChar(email.value[0])] else "")
  {
    if profile.Some? && Text.Truthy(profile.value.displayName) then [Text.UpperChar(profile.value.displayName.value[0])]
    else if Text.Truthy(email) then [Text.UpperChar(email.value[0])]
    else ""
  }

  /** A statistic as shown: its value, or 0 when it is null. */
  function Stat(value: Option<nat>): (r: nat)
    ensures value.Some? ==> r == value.value
    ensures value.None? ==> r == 0
  {
    if value.Some? && value.value != 0 then value.value else 0
  }
}
