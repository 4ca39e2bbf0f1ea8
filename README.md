# Observable-property cache update and DescribeSensor format negotiation

A Dafny model of two parts of a Sensor Observation Service backed by a
relational store.

**Observable-property cache update.** One pass reads the property hierarchy:
each observable property and its direct children. It writes into the shared
contents cache:

- human-readable names;
- the offerings and procedures associated with each property;
- which properties are composite phenomena;
- the parent/child links in both directions.

A schema probe picks one of two strategies:

- **Bulk path:** uses the observation-constellation records, grouped by
  property. Hidden children get no associations of their own.
- **Fallback path:** runs one offering lookup and one procedure lookup per
  property. Each lookup that fails is caught on its own and appended to the
  task's error list.

**DescribeSensor data access.** This part covers:

- normalising a procedure description format name;
- pairing the MIME-type and URL spellings of the SensorML output format;
- building the set of stored formats that may answer a request, from the
  format registry and the converters;
- deciding when a stored description must be converted;
- the branch and error rules for collecting the descriptions of a
  procedure: one per valid procedure time, or a single one.

Files:

- `results.dfy`: `Option` and `Result`.
- `contents_cache.dfy`: the contents cache, a class with one method per
  mutation the update calls, and the set-valued map helpers.
- `observable_properties.dfy`: the update task as a class.
  - `Execute` and its two loops are proved against two specification
    functions, one per path: `BulkUpdate` and `FallbackUpdate`/`FallbackErrors`.
  - The lemmas state what those functions guarantee.
- `describe_sensor.dfy`: format names, accepted spellings, possible formats,
  conversion, and the description flow.

The store queries, the schema probes, the description factory and the
converters are parameters: function values or plain values.

## Model

Source paths are relative to the repository root.

| member | source | states |
|---|---|---|
| ContentsCaches.ContentsCache.AddObservablePropertyIdentifierHumanReadableName | hibernate/dao/src/main/java/org/n52/sos/ds/hibernate/cache/base/ObservablePropertiesCacheUpdate.java:93 | the name is recorded under the identifier, overwriting a previous one; nothing else in the cache changes |
| ContentsCaches.ContentsCache.SetOfferingsForObservableProperty | hibernate/dao/src/main/java/org/n52/sos/ds/hibernate/cache/base/ObservablePropertiesCacheUpdate.java:99 | the property's offering set is replaced by the given set; nothing else changes |
| ContentsCaches.ContentsCache.SetProceduresForObservableProperty | hibernate/dao/src/main/java/org/n52/sos/ds/hibernate/cache/base/ObservablePropertiesCacheUpdate.java:100 | the property's procedure set is replaced by the given set; nothing else changes |
| ContentsCaches.ContentsCache.AddCompositePhenomenon | hibernate/dao/src/main/java/org/n52/sos/ds/hibernate/cache/base/ObservablePropertiesCacheUpdate.java:105 | the identifier joins the composite phenomena; nothing else changes |
| ContentsCaches.ContentsCache.AddCompositePhenomenonForObservableProperty | hibernate/dao/src/main/java/org/n52/sos/ds/hibernate/cache/base/ObservablePropertiesCacheUpdate.java:107 | the parent is added to the child's set of composite phenomena; the other sets are kept |
| ContentsCaches.ContentsCache.AddObservablePropertyForCompositePhenomenon | hibernate/dao/src/main/java/org/n52/sos/ds/hibernate/cache/base/ObservablePropertiesCacheUpdate.java:108 | the child is added to the parent's set of member properties; the other sets are kept |
| ContentsCaches.AddTo | hibernate/dao/src/main/java/org/n52/sos/ds/hibernate/cache/base/ObservablePropertiesCacheUpdate.java:107-108 | adding to a set-valued map creates the key if missing; the key's members grow by exactly the value; every other key keeps its members |
| ContentsCaches.AddLinksUnion | hibernate/dao/src/main/java/org/n52/sos/ds/hibernate/cache/base/ObservablePropertiesCacheUpdate.java:106-109 | adding two sets of links one after the other equals adding their union at once, so links accumulate independently of the order of the parents that contribute them |
| ContentsCaches.AddLinksInsert | hibernate/dao/src/main/java/org/n52/sos/ds/hibernate/cache/base/ObservablePropertiesCacheUpdate.java:106-109 | adding links one at a time, in any order, equals adding the whole set at once |
| ObservablePropertiesCacheUpdate.RecordsOf | hibernate/dao/src/main/java/org/n52/sos/ds/hibernate/cache/base/ObservablePropertiesCacheUpdate.java:85 | a property's group holds exactly the records about that property |
| ObservablePropertiesCacheUpdate.GroupByProperty | hibernate/dao/src/main/java/org/n52/sos/ds/hibernate/cache/base/ObservablePropertiesCacheUpdate.java:85 | the grouping has a key exactly for each property that has a record, holding that property's records |
| ObservablePropertiesCacheUpdate.ObservablePropertiesCacheUpdate.Execute | hibernate/dao/src/main/java/org/n52/sos/ds/hibernate/cache/base/ObservablePropertiesCacheUpdate.java:83-129 | with the schema probe true, the cache becomes the bulk result for the whole hierarchy and no error is added; otherwise the cache becomes the fallback result and the errors are the old list followed by the lookup failures in iteration order |
| ObservablePropertiesCacheUpdate.ObservablePropertiesCacheUpdate.UpdateFromConstellations | hibernate/dao/src/main/java/org/n52/sos/ds/hibernate/cache/base/ObservablePropertiesCacheUpdate.java:87-112 | the loop over the hierarchy's keys, in any iteration order, leaves the cache equal to the bulk result for all keys |
| ObservablePropertiesCacheUpdate.ObservablePropertiesCacheUpdate.VisitProperty | hibernate/dao/src/main/java/org/n52/sos/ds/hibernate/cache/base/ObservablePropertiesCacheUpdate.java:88-111 | one iteration: name if set; associations if not hidden and the group is non-empty; composite phenomenon and links if the property has children |
| ObservablePropertiesCacheUpdate.ObservablePropertiesCacheUpdate.LinkChildren | hibernate/dao/src/main/java/org/n52/sos/ds/hibernate/cache/base/ObservablePropertiesCacheUpdate.java:106-109 | every child is linked to the parent in both directions, and only those links are added |
| ObservablePropertiesCacheUpdate.ObservablePropertiesCacheUpdate.UpdateByLookups | hibernate/dao/src/main/java/org/n52/sos/ds/hibernate/cache/base/ObservablePropertiesCacheUpdate.java:116-128 | after the loop, each property holds the sets of its successful lookups; the error list is extended by exactly the failures, in iteration order |
| ObservablePropertiesCacheUpdate.ObservablePropertiesCacheUpdate.LookUpProperty | hibernate/dao/src/main/java/org/n52/sos/ds/hibernate/cache/base/ObservablePropertiesCacheUpdate.java:117-127 | the two lookups are handled independently: each success is written, each failure is appended, offering error first |
| ObservablePropertiesCacheUpdate.BulkRecordsNames | hibernate/dao/src/main/java/org/n52/sos/ds/hibernate/cache/base/ObservablePropertiesCacheUpdate.java:92-94 | every property whose name is set has that name recorded, whether it is hidden or a parent |
| ObservablePropertiesCacheUpdate.BulkSkipsHiddenChildren | hibernate/dao/src/main/java/org/n52/sos/ds/hibernate/cache/base/ObservablePropertiesCacheUpdate.java:96-102 | a hidden child's own offering and procedure entries are left exactly as they were |
| ObservablePropertiesCacheUpdate.BulkAssociationsFromRecords | hibernate/dao/src/main/java/org/n52/sos/ds/hibernate/cache/base/ObservablePropertiesCacheUpdate.java:96-101 | a visible property with records gets exactly the offerings and procedures named by its own records; a property without records gets no write |
| ObservablePropertiesCacheUpdate.BulkWritesOnlyKnownProperties | hibernate/dao/src/main/java/org/n52/sos/ds/hibernate/cache/base/ObservablePropertiesCacheUpdate.java:96-101 | new offering and procedure entries appear only under identifiers of the hierarchy |
| ObservablePropertiesCacheUpdate.BulkComposites | hibernate/dao/src/main/java/org/n52/sos/ds/hibernate/cache/base/ObservablePropertiesCacheUpdate.java:104-105 | an identifier is a composite phenomenon afterwards if and only if it was one before or its property has a non-empty child set |
| ObservablePropertiesCacheUpdate.BulkLeafIsNotComposite | hibernate/dao/src/main/java/org/n52/sos/ds/hibernate/cache/base/ObservablePropertiesCacheUpdate.java:89-90 | a property with no children is not made a composite phenomenon, even when it is some property's child |
| ObservablePropertiesCacheUpdate.BulkLinks | hibernate/dao/src/main/java/org/n52/sos/ds/hibernate/cache/base/ObservablePropertiesCacheUpdate.java:106-109 | every (parent, child) pair is linked child-to-parent and parent-to-child, and every new link in either map comes from such a pair |
| ObservablePropertiesCacheUpdate.BulkIdempotent | hibernate/dao/src/main/java/org/n52/sos/ds/hibernate/cache/base/ObservablePropertiesCacheUpdate.java:87-112 | running the bulk path twice over the same hierarchy and records gives the same cache as running it once |
| ObservablePropertiesCacheUpdate.FallbackUpdate | hibernate/dao/src/main/java/org/n52/sos/ds/hibernate/cache/base/ObservablePropertiesCacheUpdate.java:113-129 | the fallback path leaves names, composite phenomena and both link maps unchanged |
| ObservablePropertiesCacheUpdate.FallbackIsolation | hibernate/dao/src/main/java/org/n52/sos/ds/hibernate/cache/base/ObservablePropertiesCacheUpdate.java:118-127 | a successful lookup is written whatever the other lookup did; a failed one leaves its entry untouched; one failure alone yields exactly that one error |
| ObservablePropertiesCacheUpdate.FallbackErrorsBound | hibernate/dao/src/main/java/org/n52/sos/ds/hibernate/cache/base/ObservablePropertiesCacheUpdate.java:118-127 | at most two errors per visited property, and no error if and only if every lookup succeeds |
| ObservablePropertiesCacheUpdate.FallbackErrorsAreFailures | hibernate/dao/src/main/java/org/n52/sos/ds/hibernate/cache/base/ObservablePropertiesCacheUpdate.java:120-126 | an error is in the list if and only if some property's offering or procedure lookup failed with it |
| ObservablePropertiesCacheUpdate.FallbackErrorsPerProperty | hibernate/dao/src/main/java/org/n52/sos/ds/hibernate/cache/base/ObservablePropertiesCacheUpdate.java:116-128 | one fallback pass adds at most twice as many errors as the hierarchy has properties |
| ObservablePropertiesCacheUpdate.StrategiesAgree | hibernate/dao/src/main/java/org/n52/sos/ds/hibernate/cache/base/ObservablePropertiesCacheUpdate.java:83-129 | assume no property is hidden, every property has records, and the lookups return what the records say; then both paths write the same offerings and procedures |
| ObservablePropertiesCacheUpdate.ExampleComposites | hibernate/dao/src/main/java/org/n52/sos/ds/hibernate/cache/base/ObservablePropertiesCacheUpdate.java:104-105 | for the hierarchy {A: {B, C}, B: {}, C: {}}, only A becomes a composite phenomenon |
| ObservablePropertiesCacheUpdate.ExampleLinks | hibernate/dao/src/main/java/org/n52/sos/ds/hibernate/cache/base/ObservablePropertiesCacheUpdate.java:106-109 | in the same example, A's members are exactly B and C, and each of them has exactly A as composite phenomenon |
| ObservablePropertiesCacheUpdate.ExampleAssociations | hibernate/dao/src/main/java/org/n52/sos/ds/hibernate/cache/base/ObservablePropertiesCacheUpdate.java:96-101 | with records (A, p1, o1) and (B, p2, o1): A gets {o1}/{p1}, B gets {o1}/{p2}, and C, without records, gets nothing |
| DescribeSensorDao.ToLower | hibernate/handler/src/main/java/org/n52/sos/ds/hibernate/dao/DescribeSensorDao.java:236 | a capital becomes the lower-case letter at the same position in the alphabet; every other character is kept; whitespace stays whitespace |
| DescribeSensorDao.RemoveWhitespace | hibernate/handler/src/main/java/org/n52/sos/ds/hibernate/dao/DescribeSensorDao.java:236 | a character occurs in the result exactly when it occurs in the input and is not whitespace; the result is no longer than the input |
| DescribeSensorDao.RemoveWhitespaceConcat | hibernate/handler/src/main/java/org/n52/sos/ds/hibernate/dao/DescribeSensorDao.java:236 | removing whitespace from a concatenation concatenates the two results, so the kept characters stay in their order |
| DescribeSensorDao.RemoveWhitespaceFixed | hibernate/handler/src/main/java/org/n52/sos/ds/hibernate/dao/DescribeSensorDao.java:236 | a string without whitespace is returned unchanged |
| DescribeSensorDao.MatchingString | hibernate/handler/src/main/java/org/n52/sos/ds/hibernate/dao/DescribeSensorDao.java:234-237 | the normalised name contains neither whitespace nor upper-case letters |
| DescribeSensorDao.MatchingStringFixed | hibernate/handler/src/main/java/org/n52/sos/ds/hibernate/dao/DescribeSensorDao.java:234-237 | a name without whitespace and capitals is its own normalised form, so distinct such names stay distinct |
| DescribeSensorDao.MatchingStringIdempotent | hibernate/handler/src/main/java/org/n52/sos/ds/hibernate/dao/DescribeSensorDao.java:234-237 | normalising a normalised name returns it unchanged |
| DescribeSensorDao.MatchingIgnoresCase | hibernate/handler/src/main/java/org/n52/sos/ds/hibernate/dao/DescribeSensorDao.java:236 | names equal up to case have the same normalised form |
| DescribeSensorDao.MatchingIgnoresWhitespace | hibernate/handler/src/main/java/org/n52/sos/ds/hibernate/dao/DescribeSensorDao.java:236 | deleting a whitespace character from a name does not change its normalised form |
| DescribeSensorDao.AcceptedSpellings | hibernate/handler/src/main/java/org/n52/sos/ds/hibernate/dao/DescribeSensorDao.java:240-249 | the result always holds the input and only SensorML spellings besides it. The URL is added when the input equals the MIME type ignoring case. The MIME type is added when the input equals the URL ignoring case and not the MIME type. Otherwise the result is exactly the input |
| DescribeSensorDao.CheckForUrlVsMimeType | hibernate/handler/src/main/java/org/n52/sos/ds/hibernate/dao/DescribeSensorDao.java:240-249 | the set built by insertion is exactly the accepted spellings |
| DescribeSensorDao.SpellingsArePaired | hibernate/handler/src/main/java/org/n52/sos/ds/hibernate/dao/DescribeSensorDao.java:243-247 | when the two SensorML spellings differ, each one's accepted spellings are exactly the pair |
| DescribeSensorDao.FlattenMembers | hibernate/handler/src/main/java/org/n52/sos/ds/hibernate/dao/DescribeSensorDao.java:218-219 | a format is among the flattened registry values exactly when some registry entry holds it |
| DescribeSensorDao.PossibleFormats | hibernate/handler/src/main/java/org/n52/sos/ds/hibernate/dao/DescribeSensorDao.java:215-224 | a format is possible exactly when it is an accepted spelling, a registered format with the same normalised name, or the source of a converter to the requested format; the requested format itself is always possible |
| DescribeSensorDao.AddMatching | hibernate/handler/src/main/java/org/n52/sos/ds/hibernate/dao/DescribeSensorDao.java:218-221 | the loop over one registry entry adds exactly the entry's formats whose normalised name matches |
| DescribeSensorDao.GetPossibleProcedureDescriptionFormats | hibernate/handler/src/main/java/org/n52/sos/ds/hibernate/dao/DescribeSensorDao.java:215-224 | the set built entry by entry equals the union of the three sets above |
| DescribeSensorDao.ConvertProcedureDescription | hibernate/handler/src/main/java/org/n52/sos/ds/hibernate/dao/DescribeSensorDao.java:251-271 | the description is returned unchanged when the requested format is an accepted spelling of its own format. Otherwise, when a converter covers the pair, the result is the converter's output, and a converter failure becomes a conversion failure with the converter's cause. "No converter found" comes exactly when the format is not accepted and no converter covers the pair |
| DescribeSensorDao.ConverterSourcesConvert | hibernate/handler/src/main/java/org/n52/sos/ds/hibernate/dao/DescribeSensorDao.java:255-268 | a description stored in a format that a converter turns into the requested one is never refused for want of a converter |
| DescribeSensorDao.RegisteredSpellingMayNeedConverter | hibernate/handler/src/main/java/org/n52/sos/ds/hibernate/dao/DescribeSensorDao.java:255-268 | a registered spelling variant ("S L" for a request of "sl") is a possible format, yet a description stored in it is refused when no converter covers the pair |
| DescribeSensorDao.GetProcedureDescription | hibernate/handler/src/main/java/org/n52/sos/ds/hibernate/dao/DescribeSensorDao.java:146-159 | the request is refused as "procedure is null" exactly when no procedure has the identifier. For a found procedure, the answer is what the factory made of it, possibly nothing, and a factory failure becomes a description failure with its cause |
| DescribeSensorDao.FailureIsFinal | hibernate/handler/src/main/java/org/n52/sos/ds/hibernate/dao/DescribeSensorDao.java:181-191 | once describing a prefix of the valid times fails, the whole collection fails with that error |
| DescribeSensorDao.DescribeEachInOrder | hibernate/handler/src/main/java/org/n52/sos/ds/hibernate/dao/DescribeSensorDao.java:181-191 | the collection succeeds if and only if every valid time can be described. It then holds one description per valid time, each the one for that time, in order |
| DescribeSensorDao.DescribeEachFirstFailure | hibernate/handler/src/main/java/org/n52/sos/ds/hibernate/dao/DescribeSensorDao.java:181-191 | a failed collection fails with the error of the first valid time that could not be described; all earlier ones succeeded |
| DescribeSensorDao.DescribeValidTimes | hibernate/handler/src/main/java/org/n52/sos/ds/hibernate/dao/DescribeSensorDao.java:181-191 | the loop that fills the list returns exactly the collection over the valid times, stopping at the first failure |
| DescribeSensorDao.GetProcedureDescriptions | hibernate/handler/src/main/java/org/n52/sos/ds/hibernate/dao/DescribeSensorDao.java:170-205 | returns exactly the descriptions the request yields where valid procedure times exist |
| DescribeSensorDao.FoundProcedureDescriptions | hibernate/handler/src/main/java/org/n52/sos/ds/hibernate/dao/DescribeSensorDao.java:177-191 | when a procedure is stored in a possible format, a successful answer has one description per valid procedure time of that procedure, in order |
| DescribeSensorDao.NotFoundProcedureDescriptions | hibernate/handler/src/main/java/org/n52/sos/ds/hibernate/dao/DescribeSensorDao.java:192-202 | when no procedure is stored in a possible format: an unknown procedure is refused; a found description is the only answer; a missing one is refused without a valid time and gives an empty answer with one |
| DescribeSensorDao.QueryDescriptions | hibernate/handler/src/main/java/org/n52/sos/ds/hibernate/dao/DescribeSensorDao.java:125-133 | without valid procedure times, a success is exactly the single description lookup's result, possibly absent, and a failure is that lookup's own error. With them, it succeeds exactly when the collection does, holds the same descriptions in order, and fails with the collection's own error |

## Left out

- Sessions (DescribeSensorDao.java:112-123): acquiring, returning and
  wrapping store exceptions is I/O plumbing. The same holds for
  `getSession()` in the cache update. `querySensorDescriptions` is not part
  of this model beyond `queryDescriptions`.
- Store queries become inputs:
  - the hierarchy and the constellation records are given values;
  - the offering and procedure lookups are functions returning a `Result`;
  - the procedure, TProcedure and valid-procedure-time queries are fields
    of `Store`;
  - the schema probes (`isEntitySupported`) are booleans.
- The procedure converter and `Converter.convert` are opaque function
  values that may fail. The version and locale they are also given are not
  modelled.
- The SensorML MIME-type and URL constants are not shown in the source. They
  are a parameter (`SensorMlFormats`), so every property holds for any two
  spellings.
- `getFromNamespaceConverterTo` and `getConverter` of the converter
  repository are not part of this model. The converters are a map from
  (source format, target format) pairs. `getFromNamespaceConverterTo(f)` is
  taken to return the source formats of the converters whose target is `f`.
- The format registry's map keys are not modelled. The registry is the
  sequence of its value sets in iteration order.
- Case folding and `\s` are ASCII only. Full Unicode
  `toLowerCase(Locale.ROOT)` and `equalsIgnoreCase` are not modelled.
- A converter returning null is not modelled. A converted description is
  always present.
- `createSosProcedureDescriptionFromValidProcedureTime` is taken never to
  return null: `createFromValidProcedureTime` yields a description or a
  failure. `createSosProcedureDescription` may yield no description, which
  the single-description branch handles. A null from the per-time factory
  would be dereferenced when the description is converted
  (DescribeSensorDao.java:185-190, 255); that case is not modelled.
- `mapByObservableProperty`, `getAllOfferingIdentifiersFromObservationConstellationInfos`
  and `getAllProcedureIdentifiersFromObservationConstellationInfos` are not
  part of this model. They are taken as:
  - grouping the records by property identifier in record order;
  - the set of the group's offering fields;
  - the set of the group's procedure fields.
- `ObservableProperty.isSetName` is not part of this model. It is taken as
  "the name is present and not empty".
- The contents cache implementation is not part of this model. It is taken
  to behave as follows:
  - `addObservablePropertyIdentifierHumanReadableName` puts the name under
    the identifier, overwriting an earlier name;
  - the `set…` operations replace the stored set;
  - `addCompositePhenomenon` inserts into the set of composite phenomena;
  - the two link operations insert into the key's stored set, creating it
    when missing.
- ObservablePropertiesCacheUpdate.ObservablePropertiesCacheUpdate.Execute:
  requires distinct properties to have distinct identifiers. Two distinct
  property entities sharing an identifier would make the result depend on
  iteration order; the store's unique identifier column rules this out.
- The iteration order of the hierarchy's key set is a parameter (`keys`,
  each key exactly once). The cache contents are proved independent of it.
  The error list follows it.
- Logging, the stopwatch, the commented-out child collection code and the
  thread pool that runs the update are not modelled: a single sequential
  pass is modelled.
