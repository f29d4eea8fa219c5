# Land registry contract, verified model

This project models `lib/assetTransfer.js`, a Hyperledger Fabric chaincode
that keeps land-title records in the ledger's world state. It models the
class `AssetTransfer` with `createLand`, `landExists`, `readLand`,
`transferLand`, `getAllLands` and `GetQueryResultForQueryString`.

A land record is a JavaScript object with fifteen string properties, from
`SiteId` to `DocumentHash`. `createLand` stores it under the site id in
canonical form: keys sorted, written by `json-stringify-deterministic`. It
returns plain `JSON.stringify` of the record in property order.
`transferLand` parses the stored text, edits the owner properties in place
and writes `JSON.stringify` of the result back. The two queries drain an
iterator into a list of `{Key, Record}` entries. An entry whose stored text
does not parse keeps the raw text as its record.

Modules, in dependency order:

- `Wrappers` (`wrappers.dfy`): `Option`.
- `JsonObject` (`json_object.dfy`): a JavaScript object of string values, as a sequence of members in insertion order. It defines property read (`Get`), property assignment (`Set`), and assignment of a value that may be `undefined` (`Assign`, which drops the property when the value is `undefined`).
- `JsonCodec` (`json_codec.dfy`): `JSON.stringify` of such an object (ECMA-262, section 25.5.2, with the QuoteJSONString escapes). It also defines `JSON.parse` following the grammar of RFC 8259, restricted to flat objects of string values. The two are proved to round-trip.
- `CanonicalJson` (`canonical.dfy`): `sortKeysRecursive` as insertion sort by key, and the canonical text `Canonical(o) = Stringify(SortKeys(o))`. The sort is proved to be a permutation and sorted. The canonical text depends on the members only, never on their insertion order.
- `LandRecord` (`land_record.dfy`): the fifteen-field `Land`, the literal the contract builds, and the owner edits of `transferLand`. The edits appear as written (`Transferred`) and as evidently intended (`Rotated`).
- `Registry` (`registry.dfy`): the world state, the lookups, the query loop, and the class `AssetTransfer`, whose methods update the world state in place.

`Describes(o, l)` says that reading any property of `o` gives what reading
it from the literal of `l` gives. Named facts such as
`CurrentOwnerName == currentOwnerName` follow from it through the `Holds…`
lemmas.

Two places where the code does not do what it evidently intends:

- The comment at lib/assetTransfer.js:11 and the error text at line 14 say `createLand` refuses a land that already exists. The check at line 12 looks at `surveryId`, but line 34 writes under `siteId`.
- The property names at lines 57-59 (`previousOwner*` taking `currentOwner*`) say a transfer moves the current owner into the previous one. They are lower-case, and no created record has them, so `PreviousOwner*` never changes.

Both behaviours are modelled as written and listed under Findings with a
corrected variant.

## Model

| member | source | states |
|---|---|---|
| JsonObject.Get | lib/assetTransfer.js:57-59 | a property read is `undefined` exactly when no member has that name |
| JsonObject.Set | lib/assetTransfer.js:60-62 | property assignment `o[k] = v` of a string: an existing property keeps its place and takes v, a new one is appended last |
| JsonObject.SetReads | lib/assetTransfer.js:60-62 | after `o[k] = v`, reading k gives v and every other name reads as before |
| JsonObject.SetNew | lib/assetTransfer.js:60-62 | assigning a name the object lacks appends it after all existing properties (insertion order) |
| JsonObject.SetExisting | lib/assetTransfer.js:60-62 | assigning an existing name keeps every property in its place |
| JsonObject.SetDistinct | lib/assetTransfer.js:60-62 | assignment never creates a duplicate property |
| JsonObject.Remove | lib/assetTransfer.js:57-59 | the property is gone, every other name reads as before, and nothing changes when it was absent |
| JsonObject.Assign | lib/assetTransfer.js:57-59 | `o[k] = v`, with v possibly `undefined`: reading k gives v, other names are unaffected, and no duplicate property appears |
| JsonCodec.Parse | lib/assetTransfer.js:56 | a parsed object never has two properties with the same name |
| JsonCodec.QuoteParses | lib/assetTransfer.js:82 | a string written as a JSON literal reads back as the same string, whatever follows it |
| JsonCodec.Stringify | lib/assetTransfer.js:35 | `JSON.stringify` of a flat object: `{`, the members in insertion order as quoted name, colon and quoted value, separated by commas, then `}`; also the writes at lines 63 and 82 |
| JsonCodec.StringifyOpens | lib/assetTransfer.js:34 | an object's text opens with `{` and is never empty |
| JsonCodec.ParseStringify | lib/assetTransfer.js:56-63 | `JSON.parse(JSON.stringify(o))` gives back o, order included, for every object without duplicate names |
| CanonicalJson.SortKeys | lib/assetTransfer.js:34 | `sortKeysRecursive` of a flat object: its members reordered by ascending key, as an insertion sort |
| CanonicalJson.Canonical | lib/assetTransfer.js:34 | the text createLand stores: `stringify` of the key-sorted object |
| CanonicalJson.LessIrreflexive | lib/assetTransfer.js:34 | no key sorts before itself |
| CanonicalJson.LessTransitive | lib/assetTransfer.js:34 | the key order is transitive |
| CanonicalJson.LessTotal | lib/assetTransfer.js:34 | any two different keys are ordered one way or the other |
| CanonicalJson.InsertPermutes | lib/assetTransfer.js:34 | one insertion step adds exactly the inserted member |
| CanonicalJson.SortKeysPermutes | lib/assetTransfer.js:34 | sorting keeps exactly the members it is given (a permutation) |
| CanonicalJson.InsertSorted | lib/assetTransfer.js:34 | inserting a new key into a sorted object keeps it sorted |
| CanonicalJson.SortKeysSorted | lib/assetTransfer.js:34 | sorting an object with distinct names gives strictly ascending keys |
| CanonicalJson.SortedUnique | lib/assetTransfer.js:34 | two sorted objects with the same members are equal |
| CanonicalJson.SortedSameReads | lib/assetTransfer.js:34 | two sorted objects that read alike on every name are equal |
| CanonicalJson.SortKeysReads | lib/assetTransfer.js:34 | sorting keeps every property's value |
| CanonicalJson.SortKeysOfSorted | lib/assetTransfer.js:34 | sorting an already sorted object changes nothing |
| CanonicalJson.CanonicalOrderInvariant | lib/assetTransfer.js:33-34 | the stored text is deterministic: objects with the same members give the same canonical text, whatever their insertion order |
| CanonicalJson.CanonicalParses | lib/assetTransfer.js:34 | parsing the canonical text gives the sorted object, which reads like the original |
| CanonicalJson.StringifySortedIsCanonical | lib/assetTransfer.js:34 | plain `JSON.stringify` of a sorted object is its canonical text |
| LandRecord.LandObject | lib/assetTransfer.js:16-32 | the object literal of createLand: fifteen properties from `SiteId` to `DocumentHash`, in source order, each holding its argument |
| LandRecord.LandObjectAt | lib/assetTransfer.js:16-32 | the literal has fifteen properties, the i-th named by the i-th field name and holding the i-th argument |
| LandRecord.LandObjectReads | lib/assetTransfer.js:16-32 | the literal has distinct names, reads each field name as its argument, and has no other property |
| LandRecord.HoldsSite | lib/assetTransfer.js:16-32 | a record of a land reads `SiteId`, `SurveryId`, `SiteAddress`, `Latitude` and `Longitude` as the supplied values |
| LandRecord.HoldsMeasures | lib/assetTransfer.js:28-31 | a record of a land reads `Area`, `Length`, `Breadth` and `DocumentHash` as the supplied values |
| LandRecord.HoldsCurrentOwner | lib/assetTransfer.js:22-24 | a record of a land reads `CurrentOwnerName`, `CurrentOwnerAadhar` and `CurrentOwnerPan` as the supplied values |
| LandRecord.HoldsPreviousOwner | lib/assetTransfer.js:19-21 | a record of a land reads `PreviousOwnerName`, `PreviousOwnerAadhar` and `PreviousOwnerPan` as the supplied values |
| LandRecord.HoldsNothingElse | lib/assetTransfer.js:16-32 | a record of a land has no property beyond the fifteen |
| LandRecord.LowerCaseAbsent | lib/assetTransfer.js:57-59 | no record of a land has a property whose name starts with a lower-case letter |
| LandRecord.StoredRecord | lib/assetTransfer.js:34 | the text createLand stores parses to the record sorted by key, which describes the land |
| LandRecord.ReturnedRecord | lib/assetTransfer.js:35 | the text createLand returns parses to the record in property order, which reads each field name as its argument and has no other property |
| LandRecord.RotateReads | lib/assetTransfer.js:57-62 | after the six edits, each `to` property holds the old `from` value, each `current` property holds the new owner, and every other name reads as before |
| LandRecord.Transferred | lib/assetTransfer.js:57-62 | the six edits as written: lower-case `currentOwner*` copied into lower-case `previousOwner*`, then the new owner written into `CurrentOwner*` |
| LandRecord.Rotated | lib/assetTransfer.js:57-62 | the six edits as evidently intended: `CurrentOwner*` copied into `PreviousOwner*`, then the new owner written into `CurrentOwner*` |
| LandRecord.TransferredReads | lib/assetTransfer.js:56-62 | on any parsed object, the as-written edits set `CurrentOwner*` to the new owner and copy the lower-case `currentOwner*` into the lower-case `previousOwner*`; nothing else changes |
| LandRecord.CopiesFindNothing | lib/assetTransfer.js:57-59 | on a record of a land the lower-case copies change nothing, so the transfer only writes `CurrentOwner*` |
| LandRecord.TransferOnRecord | lib/assetTransfer.js:56-62 | on a sorted record of a land the transfer gives a sorted record of the land with the new current owner and every other field unchanged |
| LandRecord.TransferOnStoredRecord | lib/assetTransfer.js:56-63 | transferring a stored record writes exactly the canonical text of the land with the new current owner |
| LandRecord.TransferKeepsPreviousOwner | lib/assetTransfer.js:57-62 | after the as-written transfer of a stored record, `PreviousOwner*` still hold the creation-time values |
| LandRecord.RotatedOwners | lib/assetTransfer.js:57-62 | the corrected edits put the old current owner into `PreviousOwner*` and the new owner into `CurrentOwner*` |
| LandRecord.RotatedDescribes | lib/assetTransfer.js:57-62 | the corrected edits on a record of a land give a record of the handed-over land |
| LandRecord.RotatedOnStoredRecord | lib/assetTransfer.js:56-63 | the corrected transfer of a stored record writes exactly the canonical text of the handed-over land |
| LandRecord.RotatedTwice | lib/assetTransfer.js:57-62 | two corrected transfers chain the lineage: owner one becomes previous, owner two current |
| Registry.GetState | lib/assetTransfer.js:39 | `getState`: the stored value, or the empty value for a key never written; also the reads at lines 44 and 52 |
| Registry.NoEmptyValues | lib/assetTransfer.js:39-40 | a world state in which every stored value is non-empty, as Fabric keeps it; the class keeps it as `Valid()` |
| Registry.LandExists | lib/assetTransfer.js:38-41 | true exactly when a value is stored under the key and it is non-empty |
| Registry.ReadLand | lib/assetTransfer.js:43-49 | fails with does-not-exist exactly when nothing non-empty is stored; otherwise returns the stored text unchanged |
| Registry.RecordOf | lib/assetTransfer.js:73-78 | the record of one entry: the parsed object, or the raw text when `JSON.parse` throws |
| Registry.IsRangeScan | lib/assetTransfer.js:68 | what `getStateByRange('', '')` yields: every stored key once, in ascending order, with its stored value |
| Registry.IsQueryAnswer | lib/assetTransfer.js:87 | what `getQueryResult` yields: stored key/value pairs with distinct keys |
| Registry.ResultsJson | lib/assetTransfer.js:82 | `JSON.stringify(allResults)`: a JSON array of `{"Key":…,"Record":…}` objects, in list order; also line 101 |
| Registry.Entries | lib/assetTransfer.js:69-81 | one entry per iterator item, same length and order, each keyed by its item's key |
| Registry.Collect | lib/assetTransfer.js:69-81 | the loop builds exactly the entry list: each record is the parsed value, or the raw text when parsing fails |
| Registry.AssetTransfer.CreateLand | lib/assetTransfer.js:10-36 | when `surveryId` holds a land: fails with already-exists and leaves the state unchanged; otherwise changes only the `siteId` entry, to the canonical text of the fifteen-field record, and returns its `JSON.stringify` |
| Registry.AssetTransfer.CreateLandChecked | lib/assetTransfer.js:12-15 | the guard on the key written: the same outcomes, and a stored land is never replaced |
| Registry.AssetTransfer.TransferLand | lib/assetTransfer.js:51-64 | fails with no write when nothing is stored or the text does not parse; otherwise writes back only `siteId`, as `JSON.stringify` of the edited record |
| Registry.AssetTransfer.TransferLandRotating | lib/assetTransfer.js:57-62 | the same outcomes with the corrected owner rotation |
| Registry.AssetTransfer.GetAllLands | lib/assetTransfer.js:66-83 | over the full-range scan of the state, returns the JSON text of the entry list; no write |
| Registry.AssetTransfer.GetQueryResultForQueryString | lib/assetTransfer.js:85-102 | over the query's answer, returns the JSON text of the entry list; no write |
| Registry.Created | lib/assetTransfer.js:34 | the world state after a successful createLand: the site id maps to the canonical text of the record, every other key unchanged |
| Registry.ReadAfterCreate | lib/assetTransfer.js:43-49 | after createLand the land exists, and readLand returns the canonical text, which parses to a sorted record of the land |
| Registry.CreateTwiceFails | lib/assetTransfer.js:12-15 | after createLand, the key it wrote counts as an existing land, so the guard of a second createLand with that survey id fires |
| Registry.CreateTwice | lib/assetTransfer.js:12-35 | on an empty world state, a first createLand returns the record's text; a second whose survey id is the first site id fails with already-exists and writes nothing |
| Registry.TransferAfterCreate | lib/assetTransfer.js:51-63 | transferLand on a created land finds it, parses it, and writes the canonical text of the land with the new current owner |
| Registry.RotatingTransferAfterCreate | lib/assetTransfer.js:51-63 | the corrected transfer on a created land writes the canonical text of the handed-over land |
| Registry.StoredRecordReturned | lib/assetTransfer.js:71-79 | a stored land record comes back as the parsed record, and is written out as the very text that was stored |
| Registry.RawValueReturned | lib/assetTransfer.js:73-78 | a value that does not parse comes back raw, as a JSON string that reads back as the value |
| Registry.ScanFindsKey | lib/assetTransfer.js:68 | a full-range scan yields every stored key with its stored value |
| Registry.ScanFindsCreatedLand | lib/assetTransfer.js:66-83 | getAllLands lists a created land under its site id with its parsed record |
| Registry.ScanListsKeysOnce | lib/assetTransfer.js:68-81 | getAllLands lists each stored key once, and one entry per stored key |
| Registry.ScanCoversState | lib/assetTransfer.js:68 | the keys of a full-range scan are exactly the stored keys |
| Registry.StoredTextNonEmpty | lib/assetTransfer.js:34 | createLand writes a non-empty value, so the state stays one Fabric can hold |
| Registry.StoredMeansExists | lib/assetTransfer.js:38-41 | in such a state, landExists holds exactly for the stored keys |
| Registry.CreateReplacesStored | lib/assetTransfer.js:12-34 | for every state where a land is stored under the site id and none under the survey id, createLand as written replaces the stored record |
| Registry.CreateGuardMissesSiteId | lib/assetTransfer.js:12-34 | the concrete state and land under which createLand, as written, passes its guard and replaces a stored record |

## Left out

- The `Contract` base class, `ctx` and `ctx.stub`: the world state is the field `state` of the class, and `getState` of a missing key reads as empty.
- `async`/`await`, endorsement and ordering: each method is one sequential step.
- `Buffer` and UTF-8: the state holds text, and comparisons are on characters. `console.log` of a parse error has no effect on the result.
- Iterators are given to the query methods as the sequence of items they yield. For `getStateByRange('', '')`, `IsRangeScan` requires every stored key once, in ascending order. Fabric's exclusion of composite keys from range scans is not modelled. The CouchDB selector semantics of `queryString` are not modelled either: `IsQueryAnswer` only requires stored pairs with distinct keys.
- Registry.AssetTransfer.GetAllLands: its precondition says what the iterator yields. Its result is stated through `Entries` and the JSON text of the list, and the `Scan…` lemmas say what that list holds for a given state. No parser for the result text is written, so nothing is proved about reading that text back.
- `JSON.parse` for anything other than a flat object of string values: arrays, numbers, nested objects, `null` and `\u` surrogate pairs count as parse failures. The queries then return such a value as a raw string, where JavaScript would return the parsed value. `transferLand` returns a syntax error for them. JavaScript throws a `TypeError` for a parsed primitive (class code is strict, so assigning a property of a number, string, boolean or `null` throws), and it edits a parsed array or nested object. For primitives both give an error and no write.
- JavaScript's property order puts integer-like names first. The model keeps insertion order for every name. All fifteen record names are ordinary.
- `sortKeysRecursive` compares UTF-16 code units, and the model compares characters (code points). The two orders agree on the Basic Multilingual Plane and on the fifteen record names.
- Error message texts: an error carries only its kind and the id.
- Checks Fabric makes on keys in `putState`. Fabric's rule that an empty value is a deletion is kept as `NoEmptyValues`: it is the class invariant `Valid()`, which the constructor establishes and every write requires and keeps.

## Findings

| source | as written | input that shows it | evidently intended | confidence | as-written member | corrected member |
|---|---|---|---|---|---|---|
| lib/assetTransfer.js:12 | the existence check reads `surveryId`, but line 34 writes under `siteId` | state with `"plot-1"` holding `"x"`; createLand with siteId `"plot-1"` and surveryId `"survey-9"` passes the check and replaces the stored record | check the key that is written, so a stored land is never overwritten | not executed | Registry.CreateReplacesStored | Registry.AssetTransfer.CreateLandChecked |
| lib/assetTransfer.js:57-59 | copies lower-case `currentOwner*` into lower-case `previousOwner*`; a created record has neither | create with previous owner `"A"` and current owner `"B"`, transfer to `"C"`: `PreviousOwnerName` stays `"A"` instead of `"B"` | `PreviousOwner*` take the old `CurrentOwner*` before the new owner is written | not executed | LandRecord.TransferKeepsPreviousOwner | LandRecord.RotatedOnStoredRecord |

The class keeps `CreateLand` and `TransferLand` as written, because they are
what the contract does. `CreateLandChecked` and `TransferLandRotating` sit
beside them with the corrected behaviour. `RotatedTwice` and
`RotatingTransferAfterCreate` prove the intended lineage for the corrected
transfer.
