/**
 * The record types of internal/db/models.go and the constraints that the
 * schema tags put on the `sensor_metadata` table.
 */
module Models {

  /** A row's primary key; `NilId` is the all-zero UUID a fresh Go struct carries. */
  type Uuid = nat
  const NilId: Uuid := 0

  /** A clock reading; 0 is the zero `time.Time`. */
  type Time = int

  /** A latitude or longitude. Only equality (with zero) matters to the service. */
  type Coordinate = real

  datatype Location = Location(latitude: Coordinate, longitude: Coordinate)

  /** The zero value `Location{}`, which the handlers read as "no location given". */
  const ZeroLocation := Location(0.0, 0.0)

  datatype SensorMetadata = SensorMetadata(
    id: Uuid,
    name: string,
    description: string,
    location: Location,
    tags: seq<string>,
    createdAt: Time,
    updatedAt: Time)

  /** `varchar(255)` on the name column. */
  const MaxNameLength := 255

  /** What the column types demand of one row: a generated key and a name that fits. */
  predicate RowFits(row: SensorMetadata)
  {
    row.id != NilId && |row.name| <= MaxNameLength
  }

  /** The table as the schema admits it: every row fits, and the primary key, the
      name and the description are each unique across rows. */
  predicate TableInvariant(rows: seq<SensorMetadata>)
  {
    && (forall i :: 0 <= i < |rows| ==> RowFits(rows[i]))
    && (forall i, j :: 0 <= i < j < |rows| ==>
          && rows[i].id != rows[j].id
          && rows[i].name != rows[j].name
          && rows[i].description != rows[j].description)
  }

  /** Any two rows of a well-formed table that agree on the id, the name or the
      description are the same row. */
  lemma KeysIdentifyRows(rows: seq<SensorMetadata>, i: nat, j: nat)
    requires TableInvariant(rows)
    requires i < |rows| && j < |rows|
    requires rows[i].id == rows[j].id || rows[i].name == rows[j].name
             || rows[i].description == rows[j].description
    ensures i == j
  {
  }
}
