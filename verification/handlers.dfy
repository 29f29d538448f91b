/**
 * The three HTTP handlers of internal/handlers/handlers.go. Each takes what the
 * framework would hand it (the parsed body, the `:name` path parameter, the clock)
 * and returns the status it sets together with the JSON envelope it writes,
 * calling the store along the way.
 */
module Handlers {
  import opened Wrappers
  import opened Models
  import opened Store

  const StatusOK := 200
  const StatusCreated := 201
  const StatusBadRequest := 400
  const StatusNotFound := 404
  const StatusInternalServerError := 500

  /** The outcome of `c.BodyParser`: it fails, or it fills a zero-initialised record. */
  datatype Body = Malformed | Parsed(sensor: SensorMetadata)

  /** The `payload` member of the envelope. */
  datatype Payload =
    | Message(message: string)
    | Error(error: string)
    | Record(sensor: SensorMetadata)

  /** The status passed to `c.Status` and the envelope `{code, payload}` passed to `c.JSON`. */
  datatype Response = Response(status: int, code: int, payload: Payload)

  /** The one response shape the handlers use: the envelope's code is the status. */
  function Respond(status: int, payload: Payload): Response
  {
    Response(status, status, payload)
  }

  /** The response for a failed fetch, shared by the get and update handlers. */
  function FetchFailed(e: DbError): (r: Response)
    ensures r.code == r.status && r.payload.Error?
    ensures r.status == StatusNotFound <==> e == RecordNotFound
    ensures r.status == StatusInternalServerError <==> e != RecordNotFound
  {
    if e == RecordNotFound then Respond(StatusNotFound, Error("sensor metadata not found"))
    else Respond(StatusInternalServerError, Error("failed to fetch sensor metadata"))
  }

  // ---------------------------------------------------------------------------
  // Lower-casing of the lookup key (`strings.ToLower`, on ASCII letters)

  predicate IsUpper(c: char)
  {
    'A' <= c <= 'Z'
  }

  function LowerChar(c: char): (d: char)
    ensures !IsUpper(d)
    ensures IsUpper(c) ==> d as int == c as int + 32
    ensures !IsUpper(c) ==> d == c
  {
    if IsUpper(c) then (c as int + 32) as char else c
  }

  predicate IsLowerCase(s: string)
  {
    forall i :: 0 <= i < |s| ==> !IsUpper(s[i])
  }

  function ToLower(s: string): (r: string)
    ensures |r| == |s|
    ensures forall i :: 0 <= i < |s| ==> r[i] == LowerChar(s[i])
  {
    if s == [] then [] else [LowerChar(s[0])] + ToLower(s[1..])
  }

  /** Lower-casing leaves exactly the lower-case strings alone, and yields one. */
  lemma ToLowerFixesExactlyLowerCase(s: string)
    ensures IsLowerCase(ToLower(s))
    ensures ToLower(s) == s <==> IsLowerCase(s)
    ensures ToLower(ToLower(s)) == ToLower(s)
  {
    if ToLower(s) == s {
      forall i | 0 <= i < |s| ensures !IsUpper(s[i]) {
        assert s[i] == ToLower(s)[i];
      }
    }
    if IsLowerCase(s) {
      assert forall i :: 0 <= i < |s| ==> ToLower(s)[i] == s[i];
    }
    assert forall i :: 0 <= i < |s| ==> ToLower(ToLower(s))[i] == ToLower(s)[i];
  }

  // ---------------------------------------------------------------------------
  // Create

  /** The create-time check: a name and a non-zero location; the description is not checked. */
  predicate HasRequiredFields(sensor: SensorMetadata)
  {
    sensor.name != "" && sensor.location != ZeroLocation
  }

  /** `CreateSensorMetadataHandler`: validate, stamp both timestamps with server time, insert. */
  method CreateSensorMetadataHandler(database: SensorMetadataDB, body: Body, now: Time)
    returns (resp: Response)
    requires database.Valid()
    modifies database
    ensures database.Valid()
    ensures resp.code == resp.status
    ensures database.connected == old(database.connected)
    ensures body.Malformed? ==> resp == Respond(StatusBadRequest, Error("invalid JSON"))
    ensures body.Parsed? && !HasRequiredFields(body.sensor) ==>
              resp == Respond(StatusBadRequest, Error("sensor name and location are required"))
    ensures body.Malformed? || !HasRequiredFields(body.sensor) ==> unchanged(database)
    ensures body.Parsed? && HasRequiredFields(body.sensor) ==>
              var stamped := body.sensor.(createdAt := now, updatedAt := now);
              var err := CreateOutcome(old(database.rows), old(database.nextId), old(database.connected), stamped);
              && database.calls == old(database.calls) + [CreateCall(stamped)]
              && database.rows == (if err.None? then old(database.rows) + [AssignId(stamped, old(database.nextId))]
                                   else old(database.rows))
              && resp == (if err.None? then Respond(StatusCreated, Message("successfully inserted sensor metadata"))
                          else Respond(StatusInternalServerError,
                                       Error("failed to insert sensor metadata: " + ErrorText(err.value))))
  {
    if body.Malformed? {
      return Respond(StatusBadRequest, Error("invalid JSON"));
    }
    var sensor := body.sensor;
    if sensor.name == "" || sensor.location == ZeroLocation {
      return Respond(StatusBadRequest, Error("sensor name and location are required"));
    }
    sensor := sensor.(createdAt := now);
    sensor := sensor.(updatedAt := now);
    var err := database.CreateSensorMetadata(sensor);
    if err.Some? {
      return Respond(StatusInternalServerError, Error("failed to insert sensor metadata: " + ErrorText(err.value)));
    }
    resp := Respond(StatusCreated, Message("successfully inserted sensor metadata"));
  }

  // ---------------------------------------------------------------------------
  // Get

  /** `GetSensorMetadataHandler`: look the lower-cased path name up and return the row. */
  method GetSensorMetadataHandler(database: SensorMetadataDB, pathName: string) returns (resp: Response)
    requires database.Valid()
    modifies database`calls
    ensures resp.code == resp.status
    ensures database.calls == old(database.calls) + [GetByNameCall(ToLower(pathName))]
    ensures var fetched := LookupOutcome(database.rows, database.connected, ToLower(pathName));
            resp == match fetched
                    case Success(sensor) => Respond(StatusOK, Record(sensor))
                    case Failure(e) => FetchFailed(e)
    ensures resp.status == StatusOK <==>
              database.connected && FindByName(database.rows, ToLower(pathName)).Some?
    ensures resp.status == StatusNotFound <==>
              database.connected && FindByName(database.rows, ToLower(pathName)).None?
  {
    var sn := ToLower(pathName);
    var fetched := database.GetSensorMetadataByName(sn);
    if fetched.Failure? {
      if fetched.error == RecordNotFound {
        return Respond(StatusNotFound, Error("sensor metadata not found"));
      }
      return Respond(StatusInternalServerError, Error("failed to fetch sensor metadata"));
    }
    resp := Respond(StatusOK, Record(fetched.value));
  }

  /** A row whose name has an upper-case letter is never what the get handler returns,
      since the key it looks up is lower case and the match is exact. */
  lemma GetNeverReturnsMixedCaseName(rows: seq<SensorMetadata>, connected: bool, pathName: string)
    ensures var fetched := LookupOutcome(rows, connected, ToLower(pathName));
            fetched.Success? ==> IsLowerCase(fetched.value.name)
  {
    ToLowerFixesExactlyLowerCase(pathName);
  }

  /** Create followed by get: a row inserted into a well-formed table is found again by
      its own name, and by the lower-cased path name exactly when that name is lower case. */
  lemma CreatedRowFetchedByLowerCaseName(rows: seq<SensorMetadata>, row: SensorMetadata, pathName: string)
    requires TableInvariant(rows) && row.id != NilId
    requires InsertViolation(rows, row).None?
    ensures LookupOutcome(rows + [row], true, row.name) == Success(row)
    ensures IsLowerCase(row.name) ==> LookupOutcome(rows + [row], true, ToLower(row.name)) == Success(row)
    ensures !IsLowerCase(row.name) ==> LookupOutcome(rows + [row], true, ToLower(pathName)) != Success(row)
  {
    var table := rows + [row];
    assert table[|rows|] == row;
    var i := FindByName(table, row.name);
    assert i.Some?;
    KeysIdentifyRows(table, i.value, |rows|);
    ToLowerFixesExactlyLowerCase(row.name);
    GetNeverReturnsMixedCaseName(table, true, pathName);
  }

  // ---------------------------------------------------------------------------
  // Update

  /** The update merge: name, location and tags are taken from the body when it
      carries a non-empty value; the rest of the stored row is kept; `UpdatedAt` is now. */
  function Merged(stored: SensorMetadata, incoming: SensorMetadata, now: Time): SensorMetadata
  {
    stored.(name := if incoming.name != "" then incoming.name else stored.name,
            location := if incoming.location != ZeroLocation then incoming.location else stored.location,
            tags := if |incoming.tags| > 0 then incoming.tags else stored.tags,
            updatedAt := now)
  }

  /** The merge step of the update handler, overwriting the fetched record field by field. */
  method ApplyUpdate(stored: SensorMetadata, updatedSensor: SensorMetadata, now: Time)
    returns (sensor: SensorMetadata)
    ensures sensor == Merged(stored, updatedSensor, now)
  {
    sensor := stored;
    if updatedSensor.name != "" {
      sensor := sensor.(name := updatedSensor.name);
    }
    if updatedSensor.location != ZeroLocation {
      sensor := sensor.(location := updatedSensor.location);
    }
    if |updatedSensor.tags| > 0 {
      sensor := sensor.(tags := updatedSensor.tags);
    }
    sensor := sensor.(updatedAt := now);
  }

  /** Merging keeps the row's identity and creation time and marks it updated now. */
  lemma MergeKeepsIdentity(stored: SensorMetadata, incoming: SensorMetadata, now: Time)
    ensures var m := Merged(stored, incoming, now);
            && m.id == stored.id && m.description == stored.description
            && m.createdAt == stored.createdAt && m.updatedAt == now
            && (stored.createdAt <= now ==> m.createdAt <= m.updatedAt)
  {
  }

  /** A body that only carries tags changes the tags and the update time, nothing else. */
  lemma MergeTagsOnly(stored: SensorMetadata, tags: seq<string>, now: Time)
    requires |tags| > 0
    ensures Merged(stored, SensorMetadata(NilId, "", "", ZeroLocation, tags, 0, 0), now)
            == stored.(tags := tags, updatedAt := now)
  {
  }

  /** A body with no usable field only refreshes the update time; merging twice is merging once. */
  lemma MergeEmptyAndIdempotent(stored: SensorMetadata, incoming: SensorMetadata, now: Time)
    ensures incoming.name == "" && incoming.location == ZeroLocation && incoming.tags == [] ==>
              Merged(stored, incoming, now) == stored.(updatedAt := now)
    ensures Merged(Merged(stored, incoming, now), incoming, now) == Merged(stored, incoming, now)
  {
  }

  /** The update handler's write goes through INSERT with the fetched row's key, which the
      table already holds: on a well-formed table that write is always rejected. */
  lemma UpdateWriteAlwaysConflicts(rows: seq<SensorMetadata>, nextId: Uuid, i: nat,
                                   incoming: SensorMetadata, now: Time)
    requires TableInvariant(rows) && i < |rows|
    ensures var merged := Merged(rows[i], incoming, now);
            && CreateOutcome(rows, nextId, true, merged).Some?
            && (|merged.name| <= MaxNameLength ==>
                  CreateOutcome(rows, nextId, true, merged) == Some(UniqueViolation(IdColumn)))
  {
    var merged := Merged(rows[i], incoming, now);
    assert AssignId(merged, nextId) == merged;
    assert FindById(rows, merged.id).Some? by {
      assert rows[i].id == merged.id;
    }
  }

  /** `UpdateSensorMetadataHandler` as written: fetch by lower-cased name, parse, merge,
      then persist through `CreateSensorMetadata`. */
  method UpdateSensorMetadataHandler(database: SensorMetadataDB, pathName: string, body: Body, now: Time)
    returns (resp: Response)
    requires database.Valid()
    modifies database
    ensures database.Valid()
    ensures resp.code == resp.status
    ensures database.connected == old(database.connected)
    ensures database.rows == old(database.rows)
    ensures resp.status != StatusOK
    ensures var key := ToLower(pathName);
            var fetched := LookupOutcome(old(database.rows), old(database.connected), key);
            && (fetched.Failure? ==>
                  && database.calls == old(database.calls) + [GetByNameCall(key)]
                  && resp == FetchFailed(fetched.error))
            && (fetched.Success? && body.Malformed? ==>
                  && database.calls == old(database.calls) + [GetByNameCall(key)]
                  && resp == Respond(StatusBadRequest, Error("invalid JSON")))
            && (fetched.Success? && body.Parsed? ==>
                  var merged := Merged(fetched.value, body.sensor, now);
                  var err := CreateOutcome(old(database.rows), old(database.nextId), true, merged);
                  && database.calls == old(database.calls) + [GetByNameCall(key), CreateCall(merged)]
                  && err.Some?
                  && resp == Respond(StatusInternalServerError, Error("failed to update sensor metadata")))
  {
    var sensorName := ToLower(pathName);
    var fetched := database.GetSensorMetadataByName(sensorName);
    if fetched.Failure? {
      if fetched.error == RecordNotFound {
        return Respond(StatusNotFound, Error("sensor metadata not found"));
      }
      return Respond(StatusInternalServerError, Error("failed to fetch sensor metadata"));
    }
    var sensor := fetched.value;
    if body.Malformed? {
      return Respond(StatusBadRequest, Error("invalid JSON"));
    }
    var updatedSensor := body.sensor;
    sensor := ApplyUpdate(sensor, updatedSensor, now);

    ghost var i := FindByName(database.rows, sensorName).value;
    UpdateWriteAlwaysConflicts(database.rows, database.nextId, i, updatedSensor, now);
    var err := database.CreateSensorMetadata(sensor);
    if err.Some? {
      return Respond(StatusInternalServerError, Error("failed to update sensor metadata"));
    }
    resp := Respond(StatusOK, Message("successfully updated sensor metadata"));
  }

  /** Overwriting a row with its merge cannot clash when the merge keeps the row's name:
      the key, the name and the description are then the row's own. */
  lemma MergeWithoutRenameFits(rows: seq<SensorMetadata>, i: nat, incoming: SensorMetadata, now: Time)
    requires TableInvariant(rows) && i < |rows|
    requires incoming.name == "" || incoming.name == rows[i].name
    ensures var merged := Merged(rows[i], incoming, now);
            && OverwriteViolation(rows, merged).None?
            && Upsert(rows, merged) == rows[i := merged]
  {
    var merged := Merged(rows[i], incoming, now);
    var k := FindById(rows, merged.id);
    assert k.Some?;
    KeysIdentifyRows(rows, i, k.value);
  }

  /** The update handler persisting through `UpdateSensorMetadata` (a save by key)
      instead of `CreateSensorMetadata`; otherwise the same steps as the original. */
  method UpdateSensorMetadataHandlerCorrected(database: SensorMetadataDB, pathName: string, body: Body, now: Time)
    returns (resp: Response)
    requires database.Valid()
    modifies database
    ensures database.Valid()
    ensures resp.code == resp.status
    ensures database.connected == old(database.connected)
    ensures var key := ToLower(pathName);
            var fetched := LookupOutcome(old(database.rows), old(database.connected), key);
            && (fetched.Failure? ==>
                  && unchanged(database`rows, database`nextId)
                  && database.calls == old(database.calls) + [GetByNameCall(key)]
                  && resp == FetchFailed(fetched.error))
            && (fetched.Success? && body.Malformed? ==>
                  && unchanged(database`rows, database`nextId)
                  && database.calls == old(database.calls) + [GetByNameCall(key)]
                  && resp == Respond(StatusBadRequest, Error("invalid JSON")))
            && (fetched.Success? && body.Parsed? ==>
                  var merged := Merged(fetched.value, body.sensor, now);
                  var err := OverwriteViolation(old(database.rows), merged);
                  && database.calls == old(database.calls) + [GetByNameCall(key), UpdateCall(merged)]
                  && database.rows == (if err.None? then Upsert(old(database.rows), merged) else old(database.rows))
                  && resp == (if err.None? then Respond(StatusOK, Message("successfully updated sensor metadata"))
                              else Respond(StatusInternalServerError, Error("failed to update sensor metadata"))))
  {
    var sensorName := ToLower(pathName);
    var fetched := database.GetSensorMetadataByName(sensorName);
    if fetched.Failure? {
      if fetched.error == RecordNotFound {
        return Respond(StatusNotFound, Error("sensor metadata not found"));
      }
      return Respond(StatusInternalServerError, Error("failed to fetch sensor metadata"));
    }
    var sensor := fetched.value;
    if body.Malformed? {
      return Respond(StatusBadRequest, Error("invalid JSON"));
    }
    var updatedSensor := body.sensor;
    sensor := ApplyUpdate(sensor, updatedSensor, now);

    assert sensor.id == fetched.value.id != NilId;
    assert AssignId(sensor, database.nextId) == sensor;
    assert SaveOutcome(database.rows, database.nextId, true, sensor) == OverwriteViolation(database.rows, sensor);
    var err := database.UpdateSensorMetadata(sensor);
    if err.Some? {
      return Respond(StatusInternalServerError, Error("failed to update sensor metadata"));
    }
    resp := Respond(StatusOK, Message("successfully updated sensor metadata"));
  }
}
