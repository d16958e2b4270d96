/** The add/edit dustbin dialog: its form fields, the reset that pre-selects an
    admin's institution, and the submit that validates, then updates the
    edited row or inserts a new one. */
module DustbinDialog {
  import opened Common
  import opened Tables

  const Required := "Please fill in all required fields"

  /** The dialog's form state and what it has told its parent. */
  class DialogForm {
    var dustbinId: string
    var institutionId: string
    var latitude: string
    var longitude: string
    var locationName: string
    var loading: bool
    /** The parent's `open` flag, which the dialog clears through `onOpenChange(false)`. */
    var open: bool
    var toasts: seq<Toast>
    /** How many times `onSuccess` was called. */
    var successCount: nat

    constructor (open: bool)
      ensures dustbinId == "" && institutionId == "" && latitude == "" && longitude == "" && locationName == ""
      ensures !loading && this.open == open && toasts == [] && successCount == 0
    {
      dustbinId, institutionId, latitude, longitude, locationName := "", "", "", "", "";
      loading := false;
      this.open := open;
      toasts := [];
      successCount := 0;
    }

    /** `resetForm`: empty fields, except that an admin gets their profile's institution (or ""). */
    method ResetForm(role: Option<Role>, profileInstitution: Option<string>)
      modifies this`dustbinId, this`institutionId, this`latitude, this`longitude, this`locationName
      ensures dustbinId == "" && latitude == "" && longitude == "" && locationName == ""
      ensures role == Some(Admin) && profileInstitution.Some? ==> institutionId == profileInstitution.value
      ensures !(role == Some(Admin) && profileInstitution.Some?) ==> institutionId == ""
    {
      dustbinId := "";
      institutionId := if role == Some(Admin) && profileInstitution.Some? then profileInstitution.value else "";
      latitude := "";
      longitude := "";
      locationName := "";
    }

    /** The effect run when the dialog opens: an edited dustbin's values, or a reset.
        `show` is the number-to-text conversion of the coordinates. */
    method Load(editing: Option<Dustbin>, show: real -> string, role: Option<Role>, profileInstitution: Option<string>)
      modifies this`dustbinId, this`institutionId, this`latitude, this`longitude, this`locationName
      ensures editing.Some? ==>
                var d := editing.value;
                && dustbinId == d.dustbinId && institutionId == d.institutionId
                && latitude == show(d.latitude) && longitude == show(d.longitude)
                && locationName == (if d.locationName.Some? then d.locationName.value else "")
      ensures editing.None? ==>
                && dustbinId == "" && latitude == "" && longitude == "" && locationName == ""
                && institutionId == (if role == Some(Admin) && profileInstitution.Some? then profileInstitution.value else "")
    {
      match editing {
        case Some(d) =>
          dustbinId := d.dustbinId;
          institutionId := d.institutionId;
          latitude := show(d.latitude);
          longitude := show(d.longitude);
          locationName := if d.locationName.Some? then d.locationName.value else "";
        case None =>
          ResetForm(role, profileInstitution);
      }
    }

    /** `handleSubmit`. `parse` is `parseFloat`; `newId` the key the store gives an inserted row;
        `writeError` the store's error, if any. */
    method HandleSubmit(table: DustbinTable, editing: Option<Dustbin>, parse: string -> real, newId: string,
                        writeError: Option<string>, role: Option<Role>, profileInstitution: Option<string>)
      modifies this, table
      // A missing required field: a validation toast, no store write, nothing else changes.
      ensures old(dustbinId == "" || institutionId == "" || latitude == "" || longitude == "") ==>
                && table.rows == old(table.rows)
                && toasts == old(toasts) + [Toast(true, "Validation Error", Required)]
                && dustbinId == old(dustbinId) && institutionId == old(institutionId)
                && latitude == old(latitude) && longitude == old(longitude) && locationName == old(locationName)
                && open == old(open) && successCount == old(successCount) && loading == old(loading)
      ensures !old(dustbinId == "" || institutionId == "" || latitude == "" || longitude == "") ==>
                var stored := Dustbin("", old(dustbinId), old(institutionId), parse(old(latitude)), parse(old(longitude)),
                                      if old(locationName) == "" then None else Some(old(locationName)));
                && !loading
                // A store error: an error toast; the form keeps its values and stays open.
                && (writeError.Some? ==>
                      && table.rows == old(table.rows)
                      && toasts == old(toasts) + [Toast(true, "Error", writeError.value)]
                      && dustbinId == old(dustbinId) && institutionId == old(institutionId)
                      && latitude == old(latitude) && longitude == old(longitude) && locationName == old(locationName)
                      && open == old(open) && successCount == old(successCount))
                // Success: the edited row (every row with its id) is rewritten, or one row is appended;
                // then onSuccess, close, reset.
                && (writeError.None? ==>
                      && (editing.Some? ==>
                            table.rows == UpdateWhereId(old(table.rows), editing.value.id, (d: Dustbin) => stored.(id := d.id)))
                      && (editing.None? ==> table.rows == old(table.rows) + [stored.(id := newId)])
                      && toasts == old(toasts) + [Toast(false, "Success",
                           if editing.Some? then "Dustbin updated successfully" else "Dustbin created successfully")]
                      && successCount == old(successCount) + 1 && !open
                      && dustbinId == "" && latitude == "" && longitude == "" && locationName == ""
                      && institutionId == (if role == Some(Admin) && profileInstitution.Some? then profileInstitution.value else ""))
    {
      if dustbinId == "" || institutionId == "" || latitude == "" || longitude == "" {
        toasts := toasts + [Toast(true, "Validation Error", Required)];
        return;
      }
      loading := true;
      var stored := Dustbin("", dustbinId, institutionId, parse(latitude), parse(longitude),
                            if locationName == "" then None else Some(locationName));
      if writeError.Some? {
        toasts := toasts + [Toast(true, "Error", writeError.value)];
        loading := false;
        return;
      }
      match editing {
        case Some(edited) =>
          table.rows := UpdateWhereId(table.rows, edited.id, (d: Dustbin) => stored.(id := d.id));
          toasts := toasts + [Toast(false, "Success", "Dustbin updated successfully")];
        case None =>
          table.rows := table.rows + [stored.(id := newId)];
          toasts := toasts + [Toast(false, "Success", "Dustbin created successfully")];
      }
      successCount := successCount + 1;
      open := false;
      ResetForm(role, profileInstitution);
      loading := false;
    }
  }
}
