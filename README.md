# Charging-station import pipeline — a Dafny model

This project models the import pipeline of a point-of-interest service for
electric-vehicle charging stations. Stations come from the Open Charge Map
catalog (OCM). An import for one country fetches the catalog's raw records
and submits one queue job per record. A queue worker projects each raw
record onto the canonical `Poi` schema and upserts it keyed by the catalog's
id (`ocmId`). The worker reports `created`, `updated` or `no_change`.

Also modelled:

- the schema invariants of the `pois` collection (`ocmId` required and
  unique, `_id` unique and assigned once);
- the two request validators: the import `countryCode` and the listing's
  `limit`/`skip`.

Files, one module each:

| file | module | models |
|---|---|---|
| wrappers.dfy | Wrappers | `Option` (absent/`undefined`), `Result` (value or thrown error) |
| poi_schema.dfy | Schemas | `src/schemas/poi.schema.ts` |
| ocm_record.dfy | OcmRecord | the raw catalog record the worker reads |
| poi_store.dfy | PoiStore | the `pois` collection under `updateOne(..., {upsert: true})` |
| job_queue.dfy | JobQueue | the `poi-import` queue's `add` |
| importer_processor.dfy | Jobs | `src/job/importer.processor.ts` |
| importer_service.dfy | Importer | `src/importer/importer.service.ts` |
| import_query.dfy | ImportQuery | `src/importer/model/import-query.dto.ts` |
| get_pois_query.dfy | GetPoisQuery | `src/poi/dto/get-pois-query.dto.ts` |

Outside influences are parameters:

- The HTTP answer is an `HttpResponse`: an array body, a non-array body, or a
  transport failure.
- The broker's refusals are a `seq<bool>`: position `i` refused or not.
- A transient store failure is an `Option<StoreError>` fault.
- The uuid the `_id` default would generate is a `freshId` string.

The store is a `map<int, Poi>` keyed by `ocmId`. Being a map, it holds at
most one record per `ocmId`. `StoreInvariant` adds that the key equals the
record's `ocmId` and that `_id` values are distinct. A missing `ocmId` is a
`ValidationError`, because the schema marks the field required. A fresh
`_id` already in use is a `DuplicateKey` error, because the unique index
refuses it. `strict: true` holds by construction: `Poi` has no fields
beyond the schema's.

The importer's loop is specified by `Admitted(pois, refusals)`: the records
at the positions the broker did not refuse, in order. The loop invariant
says that after `i` iterations:

- `requests` holds one job for each of the first `i` records;
- `jobs` holds `Admitted` of the first `i` records.

## Model

| member | source | states |
|---|---|---|
| `Schemas.NewPoi` | src/schemas/poi.schema.ts:57-84 | an inserted record carries the given `_id` and exactly the written schema fields |
| `Schemas.SetFields` | src/job/importer.processor.ts:48-52 | `$set` overwrites every written field, `ocmId` included, and keeps `_id`; the record is unchanged iff it already carried those fields |
| `PoiStore.Upsert` | src/schemas/poi.schema.ts:58-72 | a missing `ocmId` is a validation error; an injected fault is thrown unchanged; on success only the `ocmId` key changes, the record there carries the written fields, `_id` is kept or set to the fresh id on insert, `upsertedCount > 0` iff the key was new, `modifiedCount > 0` iff an existing record changed, at most one of the two, and `ocmId`/`_id` uniqueness is preserved |
| `PoiStore.UpsertIdempotent` | src/job/importer.processor.ts:48-52 | repeating a successful upsert changes nothing and reports zero inserts and zero modifications |
| `PoiStore.PoiModel.UpdateOne` | src/job/importer.processor.ts:48-52 | the collection becomes the result of `Upsert`, or stays as it was when the store throws; the store invariant is kept |
| `Jobs.TitleOf` | src/job/importer.processor.ts:26 | `x?.Title` is present iff the object and its title are, and is then that title |
| `Jobs.ToPoiAddress` | src/job/importer.processor.ts:29-38 | a missing `AddressInfo` gives an address with every field absent; otherwise each field is the matching subfield and `country` is `Country.Title` |
| `Jobs.ToPoiConnection` | src/job/importer.processor.ts:41-44 | each connection field is the matching raw field, with types read through their `Title` |
| `Jobs.ToPoiConnections` | src/job/importer.processor.ts:40-45 | the mapped list has the raw list's length and order, element by element |
| `Jobs.ToPoiUpdate` | src/job/importer.processor.ts:24-46 | the projection is total; `ocmId` is the raw `ID`; status, date, address and connections follow the raw fields; absent `Connections` gives `[]` |
| `Jobs.Classify` | src/job/importer.processor.ts:54-63 | `created` iff `upsertedCount > 0`; `updated` iff no insert and `modifiedCount > 0`; `no_change` iff neither |
| `Jobs.Process` | src/job/importer.processor.ts:17-69 | a store error is re-thrown unchanged (a missing `ID` gives the validation error); on success the returned `ocmId` is the raw `ID`, only that key changes, the record carries the projected fields, and `created`/`updated`/`no_change` hold iff the key was new / the record changed / the record was already identical |
| `Jobs.ProcessAgainIsNoChange` | src/job/importer.processor.ts:48-63 | delivering a job again after it succeeded reports `no_change` and leaves the collection unchanged |
| `Jobs.CreatedThenNoChange` | src/job/importer.processor.ts:48-63 | a record with a new `ID` is first `created` with the fresh `_id`, then `no_change` |
| `Jobs.SampleStationIsCreated` | src/importer/importer.processor.spec.ts:61-98 | the unit test's station, processed against an empty collection, is `created` under 12345 with every field projected |
| `Jobs.PartialRecordIsTolerated` | src/importer/importer.processor.spec.ts:144-185 | a record with only an `ID`, an address title and null connections is stored with all other fields absent and no connections |
| `Jobs.ImporterProcessor.constructor` | src/job/importer.processor.ts:12-14 | the worker keeps the injected collection |
| `Jobs.ImporterProcessor.HandleImport` | src/job/importer.processor.ts:17-69 | the worker's result and the new collection are those of `Process`; on an error the collection is unchanged and the error is returned as thrown |
| `JobQueue.Queue.Add` | src/importer/importer.service.ts:60-63 | every call is recorded; an accepted job is appended to the queue with its payload and options, a refused one is not and the broker's error is returned |
| `Importer.FetchPoisByCountry` | src/importer/importer.service.ts:23-56 | an array body is returned as it is, even empty; any other body gives `[]`; only a transport failure is an error, with the message `Failed to process country <code>` |
| `Importer.JobsFor` | src/importer/importer.service.ts:81-83 | one job per record, same order, each with the record as payload and the import options |
| `Importer.Admitted` | src/importer/importer.service.ts:58-68 | what the queue gains from one import: no more jobs than records, each with a fetched record as payload and the import options |
| `Importer.KeptPositions` | src/importer/importer.service.ts:59-67 | the positions whose submission the broker accepted: each below the record count and not refused, strictly increasing, and every unrefused position is among them |
| `Importer.AdmittedCount` | src/importer/importer.service.ts:58-68 | the accepted jobs number the fetched records minus the refused submissions |
| `Importer.AdmittedWithoutRefusals` | src/importer/importer.service.ts:81-83 | without refusals every record becomes a job, in list order |
| `Importer.AdmittedAreFetched` | src/importer/importer.service.ts:58-68 | the j-th accepted job is the record at the j-th unrefused position, with `attempts: 3` and `removeOnComplete: true`, so the accepted jobs keep the records' order |
| `Importer.OneRefusalSkipsOne` | src/test/importer.service.spec.ts:126-141 | when exactly one submission is refused, every other record is still queued, in order |
| `Importer.QueuedIsExactIffNoRefusal` | src/importer/importer.service.ts:81-86 | the reported `queued` equals the number of accepted jobs iff the broker refused nothing |
| `Importer.ImporterService.constructor` | src/importer/importer.service.ts:14-21 | the service keeps the configured URL, key and queue |
| `Importer.ImporterService.AddPoiToQueue` | src/importer/importer.service.ts:58-68 | one submission is made with the import options; a refusal is swallowed and only leaves the job out |
| `Importer.ImporterService.ImportPoisByCountry` | src/importer/importer.service.ts:70-87 | a fetch failure is thrown with the country in the message and submits nothing; an empty result returns `no_data`/0 and submits nothing; otherwise every record is submitted once, in order, the accepted jobs are `Admitted`, and the result is `success` with `queued` = the fetched count |
| `ImportQuery.TrimStart` | src/importer/model/import-query.dto.ts:10 | only leading white space is removed, and the result does not start with white space |
| `ImportQuery.TrimEnd` | src/importer/model/import-query.dto.ts:10 | only trailing white space is removed, and the result does not end with white space |
| `ImportQuery.Trim` | src/importer/model/import-query.dto.ts:10 | the result is the slice of the input that starts after its leading white space and is followed only by white space, and it has no white space at either end |
| `ImportQuery.ToUpperCase` | src/importer/model/import-query.dto.ts:11 | same length, each character upper-cased |
| `ImportQuery.Normalize` | src/importer/model/import-query.dto.ts:10-11 | the two transforms together leave no white space at either end and no lower-case letter, and the result is the upper case of the trimmed input, so the order of the two transforms does not matter |
| `ImportQuery.TrimCommutesWithUpperCase` | src/importer/model/import-query.dto.ts:10-11 | trimming and upper-casing commute, so the order of the two transforms does not matter |
| `ImportQuery.NormalizeIdempotent` | src/importer/model/import-query.dto.ts:10-11 | a normalized code has no white space at its ends and no lower-case letter, and normalizing it again leaves it unchanged |
| `ImportQuery.ValidateCountryCode` | src/importer/model/import-query.dto.ts:6-12 | accepted iff the value is a string whose normalized form has exactly 2 characters; the accepted value is that form; a missing value fails exactly the string, non-empty and length checks; a string fails exactly non-empty and length when its normalized form is empty, else exactly length; a non-string makes the transform throw |
| `GetPoisQuery.ValidatePoisQuery` | src/poi/dto/get-pois-query.dto.ts:4-25 | accepted iff each given parameter is an integer in range (`limit` in [1,100], `skip` ≥ 0); absent ones take 20 and 0; a rejection names exactly the failed checks |
| `GetPoisQuery.EmptyQueryIsValid` | src/poi/dto/get-pois-query.dto.ts:11-25 | an empty query is valid and yields `limit` 20, `skip` 0 |

## Left out

- The HTTP request itself is not modelled: URL, key, `maxresults`, `compact`, user-agent and the 30 s timeout. The exchange is the `HttpResponse` parameter.
- Bull queue internals are not modelled: delivery, retries up to `attempts`, backoff, dead-lettering, the worker pool and job ids. Concurrency of workers is not modelled either. Each job is processed atomically against the map.
- How Mongo computes its counts is not modelled. `Upsert` is an abstract store whose counts the classification consumes.
- Whether Mongoose runs the `required` validator on `updateOne` is not modelled. A missing `ocmId` is modelled as the validation error that the schema's `required` flag and the worker's unit test describe.
- Type casts by the ORM are not modelled, such as a non-numeric `ID` or an unparseable `DateLastStatusUpdate` string. `ocmId` is an `int` and the date an opaque string.
- The `updatedAt`/`createdAt` timestamps (`timestamps: true`) are not modelled. Against a real collection every `updateOne` also sets `updatedAt`, so a repeated upsert reports `modifiedCount` 1 and `no_change` is practically never returned. `PoiStore.UpsertIdempotent`, `Jobs.ProcessAgainIsNoChange` and `Jobs.CreatedThenNoChange` hold of the abstract store only.
- uuid generation is not modelled: the new `_id` is the `freshId` parameter.
- Latitude, longitude, `PowerKW` and `Quantity` are JavaScript doubles. They are carried as `real` and only copied.
- `Schemas.SetFields`: an absent projected field overwrites the stored one with "absent". How the ORM treats `undefined` inside `$set` is not modelled.
- Raw payloads that are not objects are not modelled (a `null` array element, or a non-array truthy `Connections`). In the worker such a payload throws a TypeError that reaches the queue, which retries the job. In the importer a `null` or `undefined` element is still submitted, and then reading its `ID` for the log message throws, both after the submission and again inside the `catch`. That error escapes `importPoisByCountry`: later records are never submitted and the call rejects instead of returning `success`.
- Importer.ImporterService.ImportPoisByCountry: promises swallow-and-continue and `success` only for records that are objects; the rejection on a `null` or `undefined` element is not modelled.
- Importer.ImporterService.AddPoiToQueue: the throw from logging a `null` or `undefined` record's `ID` is not modelled; a refusal is always swallowed.
- `ImportQuery.ToUpperCase`: only ASCII letters are upper-cased. Full Unicode case mapping is not modelled, including mappings that change a string's length. `Length(2, 2)` is taken over Dafny characters (Unicode scalar values), which count a surrogate pair as one character as the length check does; unlike the length check, the model also counts the variation selectors U+FE0E and U+FE0F.
- `ImportQuery.ValidateCountryCode`: the parameter arrives after the validation pipe's implicit string conversion, as `Missing`, `Text` or `NonText`. `NonText` stands for a value such as an array of repeated parameters.
- `GetPoisQuery.ValidatePoisQuery`: the parameters arrive after implicit `Number()` conversion, as a finite value or NaN. Infinities are not modelled.
- The import endpoint reads `countryCode` as a plain path parameter and does not apply `ImportQueryDto`. The validator is modelled on its own.
- Logging is not modelled.
- The read-side service (`find`/`limit`/`skip`/`countDocuments`), the controllers, bootstrap, Swagger and module wiring are not modelled.
- Reading configuration with `getOrThrow` is not modelled. The URL and key are constructor parameters.
