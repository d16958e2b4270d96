/** Rows of the hosted database tables the core reads and writes
    (`dustbins`, `readings`, `user_roles`, `audit_logs`, `profiles`), reduced
    to the columns the modelled code touches. */
module Tables {
  import opened Common

  /** A `dustbins` row: `id` is the primary key, `dustbinId` the human-readable
      code a device reports (column `dustbin_id`). */
  datatype Dustbin = Dustbin(
    id: string,
    dustbinId: string,
    institutionId: string,
    latitude: real,
    longitude: real,
    locationName: Option<string>)

  /** A `readings` row; `dustbinRef` holds the owning dustbin's `id`. */
  datatype Reading = Reading(dustbinRef: string, fillPercentage: real, sensor1: real, sensor2: real)

  datatype UserRoleRow = UserRoleRow(userId: string, role: Role)

  /** An `audit_logs` row; `detailsRole` is the `role` entry of its `details` object. */
  datatype AuditLog = AuditLog(userId: string, action: string, resourceType: string, resourceId: string, detailsRole: Role)

  datatype Profile = Profile(id: string, username: string, institutionId: Option<string>)

  /** A `dustbins` row as selected by the list and map views, with the
      `fill_percentage` of its embedded `readings`, in the order the store returns them. */
  datatype DustbinWithReadings = DustbinWithReadings(row: Dustbin, readings: seq<real>)

  /** The `dustbins` table, which the dialog and the map write. */
  class DustbinTable {
    var rows: seq<Dustbin>

    constructor (rows: seq<Dustbin>)
      ensures this.rows == rows
    {
      this.rows := rows;
    }
  }

  /** `rows` with every row whose `id` is `id` rewritten by `update`, and the others untouched
      (a store `.update(...).eq('id', id)`). */
  function UpdateWhereId(rows: seq<Dustbin>, id: string, update: Dustbin -> Dustbin): (r: seq<Dustbin>)
    ensures |r| == |rows|
    ensures forall i :: 0 <= i < |rows| ==> r[i] == if rows[i].id == id then update(rows[i]) else rows[i]
  {
    seq(|rows|, i requires 0 <= i < |rows| => if rows[i].id == id then update(rows[i]) else rows[i])
  }
}
