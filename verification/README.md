# Sensor metadata service — a Dafny model

This project models the logic of a small CRUD service for sensor metadata records,
which has an HTTP API in Go and a React form. A sensor record has an id, a name,
a description, a location (latitude and longitude), tags and two timestamps. The
model covers four pieces:

- **Records and table constraints** (`models.dfy`, module `Models`). `SensorMetadata`
  and `Location` are datatypes. `TableInvariant` states what the schema tags demand
  of the `sensor_metadata` table: the id is the primary key, name and description
  are each unique across rows, and a name is at most 255 characters. The zero
  location `Location{}` is `ZeroLocation`.
- **The storage gateway** (`store.dfy`, module `Store`). `SensorMetadataDB` is a
  class whose fields are the table rows, a key generator standing in for
  `uuid_generate_v4()`, a connectivity flag and a ghost log of every call made on
  it. Its three methods implement the gateway interface. Create is an INSERT that
  the primary key, the unique columns and `varchar(255)` can reject. The lookup is an
  exact, case-sensitive `name = ?`. Save overwrites the row that has the same key.
  Each method's result and new state are tied to pure functions of the old state
  (`CreateOutcome`, `LookupOutcome`, `SaveOutcome`, `Upsert`). On a reachable store
  with a well-formed table, a write succeeds exactly when the table afterwards still
  satisfies `TableInvariant`: for an insert this is the contract of `InsertViolation`
  and `CreateOutcome`, for a save the lemmas `OverwriteViolationExact` and
  `SaveOutcomeExact`.
- **The three request handlers** (`handlers.dfy`, module `Handlers`). Each handler
  is a method. It takes the store, the parsed body (`Malformed` or a record), the
  path name and a clock value, and returns the status together with the
  `{code, payload}` envelope. The handlers contain the business rules: create-time
  validation, lower-casing of the lookup key, the partial-update merge
  (`Merged`, applied step by step by `ApplyUpdate`), and the fixed map from store
  outcome to status. The contracts also say which store calls were made, with
  which arguments, through the store's call log.
- **The form state updates** (`sensor_form.dfy`, module `SensorForm`). These are
  pure functions computing the next form state from the previous one:
  - `HandleChange`, `HandleReset` and `AfterSubmit`, where `AfterSubmit` takes the
    submit outcome as an input;
  - the tag text rules `split(',')`, then `trim` (`ParseTags`), and `join(', ')`
    (`DisplayTags`);
  - the class of the status message (`MessageClass`).

Wrapper types `Option` and `Result` are in `wrappers.dfy`.

Behaviour of the code that the model follows:
- Lookup lower-cases only the requested name, and names are stored as sent. So a
  record created with an upper-case letter in its name is never returned by the
  get handler (`GetNeverReturnsMixedCaseName`, `CreatedRowFetchedByLowerCaseName`).
- The create handler reads the clock twice in a row, once per timestamp; the model
  uses one clock value for both (see "Left out"). The update handler reads it once.
- The update handler writes the merged record through `CreateSensorMetadata`, the
  insert. The consequence is shown under "Findings".
- `UpdateSensorMetadata` is the ORM's save. A key-less record is inserted. A keyed
  record overwrites the row with its key, or is inserted when there is none. It
  never reports "not found".
- The schema makes the id, the name and the description each unique across rows.

## Model

| member | source | states |
|---|---|---|
| Models.TableInvariant | sensor-metadata-api/internal/db/models.go:11-13 | the constraints of the schema tags as a definition: every row has a non-nil key and a name of at most 255 characters, and no two rows share an id, a name or a description (used by `KeysIdentifyRows`, `KeysDistinct` and the store contracts) |
| Models.KeysIdentifyRows | sensor-metadata-api/internal/db/models.go:11-13 | in a well-formed table, two rows that agree on id, name or description are the same row |
| Store.FindByName | sensor-metadata-api/internal/db/db-impl.go:20-25 | returns a row whose name equals the argument exactly, the first such in table order, and none exactly when no row has that name. The ORM's `First` orders by primary key instead, but names are unique in a well-formed table, so at most one row matches and the two orders pick the same row |
| Store.FindById | sensor-metadata-api/internal/db/db-impl.go:28-30 | returns the row holding the given primary key; returns none exactly when no row holds it |
| Store.AssignId | sensor-metadata-api/internal/db/models.go:11 | a created row keeps a key the client sent and gets a generated one otherwise; nothing else changes |
| Store.InsertViolation | sensor-metadata-api/internal/db/models.go:11-13 | on a well-formed table, an INSERT is rejected (too-long name or duplicate id, name or description) exactly when the table with the new row would break the schema's constraints |
| Store.Upsert | sensor-metadata-api/internal/db/db-impl.go:28-30 | a save by key replaces the row with that key, or appends the record when no row has the key; rows with other keys are unchanged |
| Store.OverwriteViolationExact | sensor-metadata-api/internal/db/db-impl.go:28-30 | on a well-formed table, an overwrite is rejected exactly when the table after `Upsert` would break the schema's constraints |
| Store.SaveOutcomeExact | sensor-metadata-api/internal/db/db-impl.go:28-30 | on a reachable store with a well-formed table, a save by key succeeds exactly when the table after it (an append for a key-less record, an overwrite or append for a keyed one) still satisfies the schema's constraints |
| Store.KeysDistinct | sensor-metadata-api/internal/db/models.go:11-13 | in a well-formed table, two different rows differ in id, in name and in description |
| Store.CreateOutcome | sensor-metadata-api/internal/db/db-impl.go:15-17 | an insert fails with a connection error exactly when the database is unreachable; on a reachable store with a well-formed table, it succeeds exactly when the table with the new (keyed) row still satisfies the schema's constraints |
| Store.SaveOutcome | sensor-metadata-api/internal/db/db-impl.go:28-30 | a save fails with a connection error exactly when the database is unreachable; otherwise the only errors are a too-long name and a uniqueness violation, never not-found |
| Store.LookupOutcome | sensor-metadata-api/internal/db/db-impl.go:20-25 | a connection error is returned exactly when the database is unreachable; on a reachable store, a row with the requested name is returned whenever one exists, and not-found exactly when none does; a returned row is in the table and has exactly the requested name |
| Store.FreshKeyAppends | sensor-metadata-api/internal/db/models.go:11 | a generated key is new, so writing a record with it adds a row |
| Store.SensorMetadataDB.constructor | sensor-metadata-api/internal/db/db-impl.go:11-13 | the gateway wraps an existing well-formed table (for example one already holding the seed rows), keeps its rows as they are, has the given connectivity and no calls yet, and its key generator is above every stored key |
| Store.SensorMetadataDB.CreateSensorMetadata | sensor-metadata-api/internal/db/db-impl.go:15-17 | on success the table gains exactly the new row (keyed) and keeps every other row; on a duplicate id, name or description, or a too-long name, the table is unchanged and the error is returned; the table stays well-formed |
| Store.SensorMetadataDB.GetSensorMetadataByName | sensor-metadata-api/internal/db/db-impl.go:20-25 | returns the row with exactly that name, or not-found; the table is never modified |
| Store.SensorMetadataDB.UpdateSensorMetadata | sensor-metadata-api/internal/db/db-impl.go:28-30 | overwrites the whole row with the record's key, with no version check, and leaves rows with other keys unchanged; the table stays well-formed |
| Handlers.FetchFailed | sensor-metadata-api/internal/handlers/handlers.go:75-86 | a failed fetch gives 404 exactly when the record was not found and 500 for every other error, with an error payload and the code equal to the status |
| Handlers.LowerChar | sensor-metadata-api/internal/handlers/handlers.go:72 | maps an ASCII capital to its lower-case letter and leaves every other character alone |
| Handlers.ToLower | sensor-metadata-api/internal/handlers/handlers.go:72 | lower-casing keeps the length and maps each character independently |
| Handlers.ToLowerFixesExactlyLowerCase | sensor-metadata-api/internal/handlers/handlers.go:111 | the lookup key is lower case; lower-casing leaves exactly the lower-case names unchanged, and applying it twice is the same as once |
| Handlers.HasRequiredFields | sensor-metadata-api/internal/handlers/handlers.go:34 | the create-time check as a definition: a non-empty name and a location other than the zero location; the description is not checked (used by `CreateSensorMetadataHandler`'s contract) |
| Handlers.CreateSensorMetadataHandler | sensor-metadata-api/internal/handlers/handlers.go:24-56 | a malformed body gives 400 "invalid JSON" and a body with no name or with location (0,0) gives 400; neither touches the store. The description is not checked. Otherwise both timestamps are set to server time, whatever the client sent, and Create is called exactly once. The result is 201 on success and 500 with the store's error text on failure. The envelope code always equals the status |
| Handlers.GetSensorMetadataHandler | sensor-metadata-api/internal/handlers/handlers.go:69-93 | the store is asked once, for the lower-cased path name. The result is 200 with the fetched record, 404 exactly when no row has that name, and 500 on any other store error. The code always equals the status |
| Handlers.GetNeverReturnsMixedCaseName | sensor-metadata-api/internal/handlers/handlers.go:71-74 | the get handler never returns a record whose name contains an upper-case letter |
| Handlers.CreatedRowFetchedByLowerCaseName | sensor-metadata-api/internal/handlers/handlers.go:44-74 | a row that was inserted successfully is found by its exact name. The lower-cased path name finds it exactly when that name is already lower case |
| Handlers.Merged | sensor-metadata-api/internal/handlers/handlers.go:135-145 | the update merge as a definition: name, location and tags come from the body when non-empty or non-zero, everything else from the stored row, and the update time is now; its properties are `MergeKeepsIdentity`, `MergeTagsOnly` and `MergeEmptyAndIdempotent` |
| Handlers.ApplyUpdate | sensor-metadata-api/internal/handlers/handlers.go:135-145 | the field-by-field overwrite of the fetched record computes the update merge `Merged` |
| Handlers.MergeKeepsIdentity | sensor-metadata-api/internal/handlers/handlers.go:135-145 | the merge keeps the stored id, description and creation time and sets the update time to now; creation time is then no later than update time when the clock has not gone back |
| Handlers.MergeTagsOnly | sensor-metadata-api/internal/handlers/handlers.go:141-145 | a body carrying only tags changes the tags and the update time and nothing else |
| Handlers.MergeEmptyAndIdempotent | sensor-metadata-api/internal/handlers/handlers.go:135-145 | a body with empty name, zero location and no tags only refreshes the update time; merging the same body twice is merging once |
| Handlers.UpdateWriteAlwaysConflicts | sensor-metadata-api/internal/handlers/handlers.go:147 | persisting a merged, fetched row through Create is always rejected on a well-formed table; the rejection is a duplicate primary key whenever the name fits |
| Handlers.UpdateSensorMetadataHandler | sensor-metadata-api/internal/handlers/handlers.go:108-159 | the handler fetches by the lower-cased name before it parses the body. A failed fetch gives 404 (not found) or 500, with no write. A malformed body after a fetch gives 400, with no write. Otherwise the merged record is passed to Create, and the result is 500, so the table never changes. The code always equals the status |
| Handlers.MergeWithoutRenameFits | sensor-metadata-api/internal/handlers/handlers.go:135-147 | overwriting a row with a merge that keeps its name cannot clash, and it replaces that row in place |
| Handlers.UpdateSensorMetadataHandlerCorrected | sensor-metadata-api/internal/handlers/handlers.go:108-159 | the update handler with the write done by key-based save has the same fetch and parse outcomes. A successful save replaces the fetched row by the merge and gives 200; a clash gives 500 and leaves the table unchanged. That a body which does not rename the sensor always succeeds is proved in `Handlers.MergeWithoutRenameFits` |
| SensorForm.IsWhitespace | sensor-metadata-ui/src/sensor/SensorForm.tsx:46 | the characters `trim` strips, as a definition: ECMAScript's WhiteSpace and LineTerminator code points |
| SensorForm.LeadingWhitespace | sensor-metadata-ui/src/sensor/SensorForm.tsx:46 | the length of the whitespace run at the start of a text |
| SensorForm.TrailingWhitespace | sensor-metadata-ui/src/sensor/SensorForm.tsx:46 | the length of the whitespace run at the end of a text |
| SensorForm.Trim | sensor-metadata-ui/src/sensor/SensorForm.tsx:46 | a trimmed text neither starts nor ends with whitespace and is no longer than the input |
| SensorForm.TrimAround | sensor-metadata-ui/src/sensor/SensorForm.tsx:46 | trim removes exactly the surrounding whitespace: a trimmed text with whitespace around it trims back to itself |
| SensorForm.Join | sensor-metadata-ui/src/sensor/SensorForm.tsx:127 | `join` as a definition: the parts with the separator between neighbours, "" for no parts; `Split` and `SplitJoin` prove it inverse to `split` |
| SensorForm.Split | sensor-metadata-ui/src/sensor/SensorForm.tsx:46 | splitting at a character gives one piece more than there are separators. No piece contains the separator, and joining the pieces with it gives the input back |
| SensorForm.SplitWithoutSeparator | sensor-metadata-ui/src/sensor/SensorForm.tsx:46 | a text without the separator splits into itself alone |
| SensorForm.SplitAtFirst | sensor-metadata-ui/src/sensor/SensorForm.tsx:46 | the text before the first separator is the first piece, and the remaining pieces are those of the rest |
| SensorForm.SplitJoin | sensor-metadata-ui/src/sensor/SensorForm.tsx:46 | splitting a joined non-empty list gives the list back when no part contains the separator |
| SensorForm.ParseTags | sensor-metadata-ui/src/sensor/SensorForm.tsx:45-46 | the tag list has the comma count plus one entries; an empty input gives `[""]`, never an empty list; every tag is trimmed and contains no comma (which tag is which is `ParseTagsPieces`) |
| SensorForm.ParseTagsPieces | sensor-metadata-ui/src/sensor/SensorForm.tsx:46 | for any text written as comma-free, trimmed tags, each surrounded by comma-free whitespace and joined by commas, parsing gives exactly those tags: the i-th tag is the i-th comma-separated piece with its surrounding whitespace removed |
| SensorForm.DisplayTags | sensor-metadata-ui/src/sensor/SensorForm.tsx:127 | the tags input's shown value as a definition: the tags joined by ", " |
| SensorForm.DisplayIsCommaJoin | sensor-metadata-ui/src/sensor/SensorForm.tsx:127 | the shown text is the tags joined by commas, every tag but the first preceded by one space |
| SensorForm.DisplayRoundTrip | sensor-metadata-ui/src/sensor/SensorForm.tsx:46-127 | reading the displayed text back through split-and-trim returns the same tags, for a non-empty list with no comma and no surrounding whitespace in any tag; an instance of `ParseTagsPieces` |
| SensorForm.EmptyTagsDoNotRoundTrip | sensor-metadata-ui/src/sensor/SensorForm.tsx:127 | the empty tag list is displayed as "", which reads back as one empty tag |
| SensorForm.HandleChange | sensor-metadata-ui/src/sensor/SensorForm.tsx:42-66 | a tags change sets the tags to the parsed list. A latitude or longitude change sets only that coordinate. A name or description change sets that field to the raw value. Every other field keeps its previous value |
| SensorForm.HandleReset | sensor-metadata-ui/src/sensor/SensorForm.tsx:68-79 | reset gives the initial state, whatever was entered: empty name and description, no tags, location (0,0), and an empty message |
| SensorForm.MessageClass | sensor-metadata-ui/src/sensor/SensorForm.tsx:165 | no message is shown exactly when the message is empty. A message is shown as an error exactly when it starts with "An error" |
| SensorForm.AfterSubmit | sensor-metadata-ui/src/sensor/SensorForm.tsx:84-92 | after a successful submit the data is the initial data and the message is shown as a success. After a failed submit the data is unchanged and the message is shown as an error |

## Findings

| source | as written | input that shows it | evidently intended | confidence | as-written member | corrected member |
|---|---|---|---|---|---|---|
| sensor-metadata-api/internal/handlers/handlers.go:147 | the update handler stores the merged, fetched record with `CreateSensorMetadata`, an INSERT, and that record still carries its stored primary key | `PUT /sensor-metadata/proximity` with body `{"tags":["x"]}` when a row named `proximity` exists: the INSERT repeats the existing key, so the response is 500 and the row is unchanged | overwrite the stored row (`UpdateSensorMetadata`) and answer 200 | medium; not executed; this relies on the ORM's Create issuing a plain INSERT of a record whose key is set | Handlers.UpdateWriteAlwaysConflicts | Handlers.UpdateSensorMetadataHandlerCorrected |

## Left out

- Store.FindByName: picks the first match in table order rather than the match with the smallest key, which agrees with the ORM's `First` because names are unique.
- Process bootstrap, configuration loading, graceful shutdown, route registration, CORS, Swagger, the monitor endpoint, logging, database connection set-up, migration and seed data are not modelled. They are wiring over the web framework, the ORM and the logger.
- JSON decoding is not modelled. A body is either `Malformed` or a complete record in which missing fields hold their zero values. The exact rules of the framework's decoder are not captured.
- CreateSensorMetadataHandler: the two consecutive `time.Now()` readings are one clock value `now`. So the model sets `CreatedAt == UpdatedAt`, while in the source `UpdatedAt` can be later by the time between the two calls.
- ToLower: only ASCII letters are lower-cased. The Unicode case tables of `strings.ToLower` are not part of this model.
- Coordinates are exact reals. Floating-point rounding is not modelled; only equality with zero matters to the handlers.
- The key generator is a counter that is larger than every stored key. A random v4 UUID's collision probability is not modelled.
- ErrorText: the database engine's error messages are stand-in texts. Only their presence and the prefix that the create handler adds are modelled.
- The ORM's automatic timestamping is not modelled. The store keeps the timestamps it is given, so a save does not re-stamp `UpdatedAt` itself.
- Concurrency is not modelled. The model is sequential, so the race between the update handler's read and its write is outside it.
- The database may be unreachable. This is modelled by the `connected` flag, under which every call fails. Which other engine failures can happen is not modelled.
- The form's rendering, the five-second timer that clears the message, the POST request and the console output are not modelled. A submit's outcome is an input to `AfterSubmit`.
- HandleChange: changes are modelled only for the names of the five rendered inputs. The source, called with any other input name, would add a new property to the form data; that case is not modelled.
- HandleChange: `parseFloat` is a function parameter, so the model does not capture which texts parse to which numbers, or NaN.
