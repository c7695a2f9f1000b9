/**
 * The admin panel's external poem sources: the add-source form with its
 * validation and insert payload, what a successful or failed insert does to
 * the form and dialog, and switching a source on or off. The database is
 * outside the model: requests are recorded as effects and their success is
 * a parameter.
 */
module ExternalSources {
  import opened Wrappers

  type SourceId = string

  /** The add-source form's three text fields. */
  datatype SourceForm = SourceForm(name: string, url: string, apiEndpoint: string)

  const EmptyForm := SourceForm("", "", "")

  /** The row inserted into `external_poem_sources`. */
  datatype SourceInsert = SourceInsert(name: string, url: string, apiEndpoint: Option<string>, isActive: bool)

  /**
   * The insert for a form: name and url as typed, an empty API endpoint
   * stored as null, and the source active.
   */
  function InsertPayload(form: SourceForm): (p: SourceInsert)
    ensures p.name == form.name && p.url == form.url && p.isActive
    ensures p.apiEndpoint.None? <==> form.apiEndpoint == ""
    ensures p.apiEndpoint.Some? ==> p.apiEndpoint.value == form.apiEndpoint
  {
    SourceInsert(form.name, form.url, if form.apiEndpoint == "" then None else Some(form.apiEndpoint), true)
  }

  /** The form a stored row shows again: a null endpoint as the empty string. */
  function FormOf(row: SourceInsert): SourceForm
  {
    SourceForm(row.name, row.url, if row.apiEndpoint.Some? then row.apiEndpoint.value else "")
  }

  /** Normalising the endpoint loses nothing: the form is recovered from its payload. */
  lemma PayloadRoundTrip(form: SourceForm)
    ensures FormOf(InsertPayload(form)) == form
  {
  }

  /** The update sent by a source's switch. */
  datatype StatusUpdate = StatusUpdate(id: SourceId, isActive: bool)

  /** `handleToggleSource`: the given source, with its status negated. */
  function ToggleRequest(id: SourceId, currentStatus: bool): (u: StatusUpdate)
    ensures u.id == id && u.isActive == !currentStatus
  {
    StatusUpdate(id, !currentStatus)
  }

  datatype Effect =
    | DbInsert(row: SourceInsert)
    | DbUpdate(update: StatusUpdate)
    | Toast(title: string, description: string, destructive: bool)

  const MissingFields := Toast("Missing fields", "Please provide both name and URL for the source.", true)
  const SourceAdded := Toast("Source added", "External poem source has been added successfully.", false)
  const AddFailed := Toast("Error", "Failed to add external poem source.", true)
  const SourceUpdated := Toast("Source updated", "Source status has been updated.", false)
  const UpdateFailed := Toast("Error", "Failed to update source status.", true)

  class SourcesManager {
    var newSource: SourceForm
    var isAddingSource: bool
    var effects: seq<Effect>

    constructor ()
      ensures newSource == EmptyForm && !isAddingSource && effects == []
    {
      newSource, isAddingSource, effects := EmptyForm, false, [];
    }

    /** The dialog's open state follows the trigger and the close button. */
    method SetDialogOpen(open: bool)
      modifies this`isAddingSource
      ensures isAddingSource == open
    {
      isAddingSource := open;
    }

    /** Typing into the form. */
    method Edit(form: SourceForm)
      modifies this`newSource
      ensures newSource == form
    {
      newSource := form;
    }

    /**
     * `handleAddSource` with the insert run to completion. An empty name
     * or url is refused with a toast and nothing else. Otherwise the
     * payload is inserted; on success the form is emptied and the dialog
     * closed, on failure form and dialog stay as they were.
     */
    method HandleAddSource(insertSucceeds: bool)
      modifies this`newSource, this`isAddingSource, this`effects
      ensures old(newSource.name) == "" || old(newSource.url) == "" ==>
        newSource == old(newSource) && isAddingSource == old(isAddingSource) &&
        effects == old(effects) + [MissingFields]
      ensures old(newSource.name) != "" && old(newSource.url) != "" && insertSucceeds ==>
        newSource == EmptyForm && !isAddingSource &&
        effects == old(effects) + [DbInsert(InsertPayload(old(newSource))), SourceAdded]
      ensures old(newSource.name) != "" && old(newSource.url) != "" && !insertSucceeds ==>
        newSource == old(newSource) && isAddingSource == old(isAddingSource) &&
        effects == old(effects) + [DbInsert(InsertPayload(old(newSource))), AddFailed]
    {
      if newSource.name == "" || newSource.url == "" {
        effects := effects + [MissingFields];
        return;
      }
      effects := effects + [DbInsert(InsertPayload(newSource))];
      if insertSucceeds {
        newSource := EmptyForm;
        isAddingSource := false;
        effects := effects + [SourceAdded];
      } else {
        effects := effects + [AddFailed];
      }
    }

    /** `handleToggleSource`: one update, for that source only, then a toast. */
    method HandleToggleSource(id: SourceId, currentStatus: bool, updateSucceeds: bool)
      modifies this`effects
      ensures effects == old(effects) + [DbUpdate(ToggleRequest(id, currentStatus)),
        if updateSucceeds then SourceUpdated else UpdateFailed]
    {
      effects := effects + [DbUpdate(ToggleRequest(id, currentStatus)),
        if updateSucceeds then SourceUpdated else UpdateFailed];
    }
  }

  /**
   * An admin adds a source twice with the same name and url and no
   * endpoint, the first insert failing and the second succeeding: both
   * inserts carry the same payload, and only after the second is the form
   * empty and the dialog closed.
   */
  method AddRetried(name: string, url: string) returns (first: SourceInsert, second: SourceInsert, formAfter: SourceForm, openAfter: bool)
    requires name != "" && url != ""
    ensures first == second == SourceInsert(name, url, None, true)
    ensures formAfter == EmptyForm && !openAfter
  {
    var m := new SourcesManager();
    m.SetDialogOpen(true);
    m.Edit(SourceForm(name, url, ""));
    m.HandleAddSource(false);
    assert m.effects == [DbInsert(InsertPayload(SourceForm(name, url, ""))), AddFailed];
    first := m.effects[0].row;
    m.HandleAddSource(true);
    second := m.effects[2].row;
    formAfter, openAfter := m.newSource, m.isAddingSource;
  }
}
