/**
 * The storage gateway of internal/db/db-impl.go: create, fetch-by-name and save
 * on the `sensor_metadata` table. The ORM and the database engine are not part
 * of this model; what is modelled is the contract they give the gateway: an
 * INSERT that the primary key, the unique columns and `varchar(255)` can reject,
 * an exact `name = ?` query, and a save that overwrites the row with the same key.
 */
module Store {
  import opened Wrappers
  import opened Models

  datatype Column = IdColumn | NameColumn | DescriptionColumn

  /** The errors a store call can return. `RecordNotFound` is `gorm.ErrRecordNotFound`. */
  datatype DbError =
    | RecordNotFound
    | UniqueViolation(column: Column)
    | ValueTooLong
    | ConnectionError

  /** The text of `err.Error()`; the engine's exact wording is not part of the model. */
  function ErrorText(e: DbError): string
  {
    match e
    case RecordNotFound => "record not found"
    case UniqueViolation(IdColumn) => "duplicate key value violates unique constraint on id"
    case UniqueViolation(NameColumn) => "duplicate key value violates unique constraint on name"
    case UniqueViolation(DescriptionColumn) => "duplicate key value violates unique constraint on description"
    case ValueTooLong => "value too long for type character varying(255)"
    case ConnectionError => "connection refused"
  }

  /** One call made on the store, with its argument (the interface of db-interface.go). */
  datatype StoreCall =
    | CreateCall(sensor: SensorMetadata)
    | GetByNameCall(name: string)
    | UpdateCall(sensor: SensorMetadata)

  /** Index of the first row whose name is exactly `name` (a case-sensitive match). */
  function FindByName(rows: seq<SensorMetadata>, name: string): (r: Option<nat>)
    ensures r.Some? ==> r.value < |rows| && rows[r.value].name == name
    ensures r.Some? ==> forall j :: 0 <= j < r.value ==> rows[j].name != name
    ensures r.None? <==> forall j :: 0 <= j < |rows| ==> rows[j].name != name
  {
    if rows == [] then None
    else if rows[0].name == name then Some(0)
    else match FindByName(rows[1..], name)
      case Some(i) => Some(i + 1)
      case None => None
  }

  /** Index of the row whose primary key is `id`. */
  function FindById(rows: seq<SensorMetadata>, id: Uuid): (r: Option<nat>)
    ensures r.Some? ==> r.value < |rows| && rows[r.value].id == id
    ensures r.Some? ==> forall j :: 0 <= j < r.value ==> rows[j].id != id
    ensures r.None? <==> forall j :: 0 <= j < |rows| ==> rows[j].id != id
  {
    if rows == [] then None
    else if rows[0].id == id then Some(0)
    else match FindById(rows[1..], id)
      case Some(i) => Some(i + 1)
      case None => None
  }

  /** The key a created row gets: the client's one if it sent one, else a generated one. */
  function AssignId(sensor: SensorMetadata, generated: Uuid): (stored: SensorMetadata)
    ensures stored == sensor.(id := stored.id)
    ensures sensor.id != NilId ==> stored.id == sensor.id
    ensures sensor.id == NilId ==> stored.id == generated
  {
    if sensor.id == NilId then sensor.(id := generated) else sensor
  }

  /** Why the engine rejects inserting `row`, if it does: the column type first,
      then the primary key and the two unique columns. */
  function InsertViolation(rows: seq<SensorMetadata>, row: SensorMetadata): (r: Option<DbError>)
    ensures r.Some? ==> r.value.ValueTooLong? || r.value.UniqueViolation?
    ensures TableInvariant(rows) && row.id != NilId ==> (r.None? <==> TableInvariant(rows + [row]))
  {
    if |row.name| > MaxNameLength then
      assert !RowFits((rows + [row])[|rows|]);
      Some(ValueTooLong)
    else if FindById(rows, row.id).Some? then
      var k := FindById(rows, row.id).value;
      assert (rows + [row])[k].id == (rows + [row])[|rows|].id;
      Some(UniqueViolation(IdColumn))
    else if FindByName(rows, row.name).Some? then
      var k := FindByName(rows, row.name).value;
      assert (rows + [row])[k].name == (rows + [row])[|rows|].name;
      Some(UniqueViolation(NameColumn))
    else if exists j :: 0 <= j < |rows| && rows[j].description == row.description then
      var k :| 0 <= k < |rows| && rows[k].description == row.description;
      assert (rows + [row])[k].description == (rows + [row])[|rows|].description;
      Some(UniqueViolation(DescriptionColumn))
    else None
  }

  /** The table after writing `row` by key: the row with its id is replaced, or
      `row` is appended when there is none. */
  function Upsert(rows: seq<SensorMetadata>, row: SensorMetadata): (r: seq<SensorMetadata>)
    ensures |r| == if FindById(rows, row.id).Some? then |rows| else |rows| + 1
    ensures row in r
    ensures forall j :: 0 <= j < |rows| && rows[j].id != row.id ==> r[j] == rows[j]
    ensures forall j :: 0 <= j < |r| ==> r[j] == row || r[j] in rows
  {
    match FindById(rows, row.id)
    case Some(i) => assert rows[i := row][i] == row; rows[i := row]
    case None => rows + [row]
  }

  /** Why the engine rejects overwriting the row keyed by `row.id` with `row`, if it
      does: only rows with another key can clash on the unique columns. */
  function OverwriteViolation(rows: seq<SensorMetadata>, row: SensorMetadata): (r: Option<DbError>)
    ensures r.Some? ==> r.value.ValueTooLong? || r.value.UniqueViolation?
    ensures r.None? <==> |row.name| <= MaxNameLength && !ClashesWithOther(rows, row)
  {
    if |row.name| > MaxNameLength then Some(ValueTooLong)
    else if exists j :: 0 <= j < |rows| && rows[j].id != row.id && rows[j].name == row.name then
      Some(UniqueViolation(NameColumn))
    else if exists j :: 0 <= j < |rows| && rows[j].id != row.id && rows[j].description == row.description then
      Some(UniqueViolation(DescriptionColumn))
    else None
  }

  /** Some row with another key has the same name or description as `row`. */
  predicate ClashesWithOther(rows: seq<SensorMetadata>, row: SensorMetadata)
  {
    exists j :: 0 <= j < |rows| && rows[j].id != row.id &&
                (rows[j].name == row.name || rows[j].description == row.description)
  }

  /** On a well-formed table, an overwrite is accepted exactly when the table after it
      is still well-formed. */
  lemma OverwriteViolationExact(rows: seq<SensorMetadata>, row: SensorMetadata)
    requires TableInvariant(rows) && row.id != NilId
    ensures OverwriteViolation(rows, row).None? <==> TableInvariant(Upsert(rows, row))
  {
    var r := Upsert(rows, row);
    var p := if FindById(rows, row.id).Some? then FindById(rows, row.id).value else |rows|;
    assert p < |r| && r[p] == row;
    assert others: forall j :: 0 <= j < |r| && j != p ==> j < |rows| && r[j] == rows[j] && rows[j].id != row.id by {
      forall j | 0 <= j < |r| && j != p
        ensures j < |rows| && r[j] == rows[j] && rows[j].id != row.id
      {
        if FindById(rows, row.id).Some? {
          KeysDistinct(rows, j, p);
        }
      }
    }
    if OverwriteViolation(rows, row).None? {
      forall a, b | 0 <= a < b < |r|
        ensures r[a].id != r[b].id && r[a].name != r[b].name && r[a].description != r[b].description
      {
        if a != p && b != p {
          KeysDistinct(rows, a, b);
        }
      }
    } else if |row.name| <= MaxNameLength {
      var j :| 0 <= j < |rows| && rows[j].id != row.id &&
               (rows[j].name == row.name || rows[j].description == row.description);
      assert j != p && r[j] == rows[j];
    }
  }

  /** Two different positions of a well-formed table hold different keys, names and descriptions. */
  lemma KeysDistinct(rows: seq<SensorMetadata>, a: nat, b: nat)
    requires TableInvariant(rows) && a < |rows| && b < |rows| && a != b
    ensures rows[a].id != rows[b].id && rows[a].name != rows[b].name
            && rows[a].description != rows[b].description
  {
    if a > b {
      KeysDistinct(rows, b, a);
    }
  }

  /** What `CreateSensorMetadata(sensor)` returns on a table in the given state. */
  function CreateOutcome(rows: seq<SensorMetadata>, nextId: Uuid, connected: bool,
                         sensor: SensorMetadata): (r: Option<DbError>)
    ensures r == Some(ConnectionError) <==> !connected
    ensures connected && TableInvariant(rows) && nextId != NilId ==>
              (r.None? <==> TableInvariant(rows + [AssignId(sensor, nextId)]))
  {
    if !connected then Some(ConnectionError) else InsertViolation(rows, AssignId(sensor, nextId))
  }

  /** What `UpdateSensorMetadata(sensor)` returns: a key-less record is created, a keyed one overwrites. */
  function SaveOutcome(rows: seq<SensorMetadata>, nextId: Uuid, connected: bool,
                       sensor: SensorMetadata): (r: Option<DbError>)
    ensures r == Some(ConnectionError) <==> !connected
    ensures r.Some? && connected ==> r.value == ValueTooLong || r.value.UniqueViolation?
  {
    if !connected then Some(ConnectionError)
    else if sensor.id == NilId then InsertViolation(rows, AssignId(sensor, nextId))
    else OverwriteViolation(rows, sensor)
  }

  /** On a well-formed table whose keys are all below the generator, a save succeeds
      exactly when the table after it still satisfies the schema's constraints. */
  lemma SaveOutcomeExact(rows: seq<SensorMetadata>, nextId: Uuid, sensor: SensorMetadata)
    requires TableInvariant(rows) && nextId != NilId
    requires forall j :: 0 <= j < |rows| ==> rows[j].id < nextId
    ensures SaveOutcome(rows, nextId, true, sensor).None? <==>
              TableInvariant(Upsert(rows, AssignId(sensor, nextId)))
  {
    var stored := AssignId(sensor, nextId);
    if sensor.id == NilId {
      FreshKeyAppends(rows, stored, nextId);
    } else {
      OverwriteViolationExact(rows, stored);
    }
  }

  /** What `GetSensorMetadataByName(name)` returns on a table in the given state. */
  function LookupOutcome(rows: seq<SensorMetadata>, connected: bool, name: string)
    : (r: Result<SensorMetadata, DbError>)
    ensures r.Success? ==> r.value in rows && r.value.name == name
    ensures r == Failure(RecordNotFound) <==> connected && forall j :: 0 <= j < |rows| ==> rows[j].name != name
    ensures r.Failure? ==> r.error == RecordNotFound || r.error == ConnectionError
    ensures r == Failure(ConnectionError) <==> !connected
    ensures connected && FindByName(rows, name).Some? ==> r == Success(rows[FindByName(rows, name).value])
  {
    if !connected then Failure(ConnectionError)
    else match FindByName(rows, name)
      case Some(i) => Success(rows[i])
      case None => Failure(RecordNotFound)
  }

  /** The largest key in the table, `NilId` for an empty one. */
  function MaxId(rows: seq<SensorMetadata>): (m: Uuid)
    ensures forall j :: 0 <= j < |rows| ==> rows[j].id <= m
  {
    if rows == [] then NilId
    else
      var m := MaxId(rows[1..]);
      assert forall j :: 1 <= j < |rows| ==> rows[j] == rows[1..][j - 1];
      if rows[0].id > m then rows[0].id else m
  }

  /** The key generator after a row with key `used` was stored. */
  function NextIdAfter(nextId: Uuid, used: Uuid): Uuid
  {
    if used < nextId then nextId else used + 1
  }

  /** `SensorMetadataDBImpl`: the table behind the `db` handle. */
  class SensorMetadataDB {
    /** The rows of `sensor_metadata`, in insertion order. */
    var rows: seq<SensorMetadata>
    /** Stands in for `uuid_generate_v4()`: larger than every key in the table. */
    var nextId: Uuid
    /** False while the database cannot be reached; every call then fails. */
    var connected: bool
    /** Every call made on the store, oldest first. */
    ghost var calls: seq<StoreCall>

    ghost predicate Valid()
      reads this`rows, this`nextId
    {
      && TableInvariant(rows)
      && nextId != NilId
      && forall j :: 0 <= j < |rows| ==> rows[j].id < nextId
    }

    /** Wraps an existing table, which may already hold rows (the seed data, say). */
    constructor (rows0: seq<SensorMetadata>, connected: bool)
      requires TableInvariant(rows0)
      ensures Valid()
      ensures rows == rows0 && this.connected == connected && calls == []
    {
      rows := rows0;
      nextId := MaxId(rows0) + 1;
      this.connected := connected;
      calls := [];
    }

    /** INSERT of `sensor`: on success the table gains exactly that row (with its key). */
    method CreateSensorMetadata(sensor: SensorMetadata) returns (err: Option<DbError>)
      requires Valid()
      modifies this
      ensures Valid()
      ensures calls == old(calls) + [CreateCall(sensor)]
      ensures connected == old(connected)
      ensures err == CreateOutcome(old(rows), old(nextId), old(connected), sensor)
      ensures rows == if err.None? then old(rows) + [AssignId(sensor, old(nextId))] else old(rows)
      ensures nextId == if err.None? then NextIdAfter(old(nextId), AssignId(sensor, old(nextId)).id)
                        else old(nextId)
    {
      calls := calls + [CreateCall(sensor)];
      if !connected {
        return Some(ConnectionError);
      }
      var stored := AssignId(sensor, nextId);
      err := InsertViolation(rows, stored);
      if err.None? {
        rows := rows + [stored];
        nextId := NextIdAfter(nextId, stored.id);
      }
    }

    /** `WHERE name = ? ... First`: the row with exactly this name, or `RecordNotFound`. */
    method GetSensorMetadataByName(name: string) returns (r: Result<SensorMetadata, DbError>)
      requires Valid()
      modifies this`calls
      ensures calls == old(calls) + [GetByNameCall(name)]
      ensures r == LookupOutcome(rows, connected, name)
    {
      calls := calls + [GetByNameCall(name)];
      if !connected {
        return Failure(ConnectionError);
      }
      var i := FindByName(rows, name);
      if i.Some? {
        r := Success(rows[i.value]);
      } else {
        r := Failure(RecordNotFound);
      }
    }

    /** `Save(sensor)`: overwrites the whole row with the same key; no version check. */
    method UpdateSensorMetadata(sensor: SensorMetadata) returns (err: Option<DbError>)
      requires Valid()
      modifies this
      ensures Valid()
      ensures calls == old(calls) + [UpdateCall(sensor)]
      ensures connected == old(connected)
      ensures err == SaveOutcome(old(rows), old(nextId), old(connected), sensor)
      ensures rows == if err.None? then Upsert(old(rows), AssignId(sensor, old(nextId))) else old(rows)
      ensures nextId == if err.None? then NextIdAfter(old(nextId), AssignId(sensor, old(nextId)).id)
                        else old(nextId)
    {
      calls := calls + [UpdateCall(sensor)];
      if !connected {
        return Some(ConnectionError);
      }
      var stored := AssignId(sensor, nextId);
      if sensor.id == NilId {
        err := InsertViolation(rows, stored);
        FreshKeyAppends(rows, stored, nextId);
      } else {
        err := OverwriteViolation(rows, stored);
        OverwriteViolationExact(rows, stored);
      }
      if err.None? {
        rows := Upsert(rows, stored);
        nextId := NextIdAfter(nextId, stored.id);
      }
    }
  }

  /** A key no row has yet is appended by `Upsert`. */
  lemma FreshKeyAppends(rows: seq<SensorMetadata>, row: SensorMetadata, nextId: Uuid)
    requires forall j :: 0 <= j < |rows| ==> rows[j].id < nextId
    requires row.id == nextId
    ensures Upsert(rows, row) == rows + [row]
  {
  }
}
