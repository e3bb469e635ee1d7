# OpenTrials tidy engine — a Dafny model

The OpenTrials client fetches trial records from the OpenTrials API. Before
handing a record to the caller, `ot.tidy` cleans it up:

- **Keys.** Every mapping with an underscored key has all its keys
  camel-cased.
- **Dates.** Every leaf stored under a configured date key becomes a `Date`.
- **Population.** When `tidy.populate` is on, `ot.populate` expands each
  `{url: ...}` reference found under a `tidy.populateKeys` field. It fetches
  the URL, tidies the body, and splices the result back at the reference's
  index. It announces every expansion with `prePopulate` and `postPopulate`
  events.

`ot.count` reduces a raw search response to its `total_count`.

The project has five files:

- `document.dfy` (module `Document`): the JSON-shaped document and the field
  accessors the engine uses: `_.has`, `obj[k]`, `obj[k] = v`, and
  truthiness.
- `normalize.dfy` (module `Normalizer`):
  - the `traverse(obj).map(...)` visitor, as the recursive function
    `Normalize`;
  - `Tidied`, an independent node-by-node description of a normalized tree;
  - the lemmas that connect the two: shape preservation, the effect of each
    switch, idempotence, and the default date keys.
- `transport.dfy` (module `Transport`): the GET's outcome, the error cases,
  and the `res.body.error` test.
- `populate.dfy` (module `Populate`):
  - `TidyRun`, `PopulateRun`, `KeysRun`, `KeyStep`, `ItemsRun` and
    `ItemStep`: specification functions for `tidy` and `populate`;
  - `Tidy`, `Populate`, `ResolveItems` and `ResolveItem`: the imperative
    engine, with the source's two nested loops, each proved equal to its
    specification function;
  - lemmas on ordering, the in-place splice, the keys that are left alone,
    the rules for emitting events, and short-circuiting on the first error.
- `count.dfy` (module `Count`): the settings adjustment and the
  `total_count` extraction of `ot.count`.

Collaborators that the model cannot see are parameters:

- `Foreign.camelCase` is lodash's `_.camelCase`.
- `Foreign.parseDate` is `new Date(value)`.
- `Env.fetch` is `request.get(url).end(...)`.

Lemmas that need a fact about `_.camelCase` or `new Date` take it as a
precondition:

- `CamelDropsUnderscores`: the result contains no `_`.
- `DateParseStable`: `new Date(d)` of a date `d` is `d`.

### Behaviour of the source that the model keeps

- **Visit order.** The visitor runs pre-order, because that is what
  `traverse(...).map` does. A node is renamed before its children are
  visited. Each child is therefore matched against `dateKeys` under its
  camel-cased key: `registration_date` becomes `registrationDate` and is
  parsed (`Normalizer.RenamedKeyIsCoerced`). A post-order description would
  differ here.
- **Leaves.** A leaf is what traverse's `isLeaf` says: a scalar, or an empty
  mapping or sequence. So an empty `{}` stored under a date key is replaced
  by `new Date({})`.
- **What the date rule sees.** The root is visited with an undefined key, so
  a string entry never matches it, while a pattern is tested against
  `"undefined"`. Sequence elements are visited under their decimal index.
- **Array-like mappings.** The rename guard is lodash's `_.some` over the
  mapping. `_.some` treats a mapping as array-like when its `length` field is
  an integer from 0 to 2^53 − 1, and then scans only the indices. So the
  guard is false for such a mapping and its keys are kept:
  `{length: 1, study_title: "X"}` is not renamed
  (`Normalizer.ArrayLikeKeepsKeys`). If `length` is also a date key, the
  first pass turns `length` into a `Date`, and a second pass does rename.
  Normalization is not idempotent there
  (`Normalizer.LengthDateKeyBreaksIdempotence`).
- **Key collisions.** Two keys of one mapping that camel-case to the same
  name collide in `_.mapKeys`. The later value wins, at the first key's
  position, and the mapping loses a field (`Normalizer.CollidingKeysMerge`).
  So "normalization never drops a field" holds only for trees without such
  collisions (`CollisionFree`).
- **Error in a fetched body.** In `populate`, an `error` in a fetched body
  calls the outer callback directly (index.js:188). The element loop's own
  completion callback is then never reached, so the field is not written
  back through it. Sibling fetches already in flight still finish, write
  their results back and emit `postPopulate`. The model ends the call with
  that first error, as it does for a transport error.

## Model

| member | source | states |
|---|---|---|
| Document.IndexOf | index.js:180 | the position returned holds the key and no earlier position does; `None` exactly when no field has the key |
| Document.Field | index.js:180-182 | `obj[key]` is defined exactly when `_.has(obj, key)`, and is the value of a field with that key |
| Document.Assign | index.js:191 | assigning an existing key replaces its value in place and keeps every other field; a new key is appended |
| Document.SetFieldFrame | index.js:191 | writing back a present field keeps the keys and their order, changes no other field, and reading the field gives the new value |
| Document.IndexKey | index.js:149 | the key of a sequence element is a non-empty string of decimal digits |
| Normalizer.MapKeys | index.js:142 | `_.mapKeys` never produces more pairs than it was given, and a non-empty node stays non-empty |
| Normalizer.MapKeysValues | index.js:142 | every value that `_.mapKeys` produces is one of the input values |
| Normalizer.RenamedEntries | index.js:142 | the rebuilt node's values are children of the node being visited |
| Normalizer.MapKeysDistinct | index.js:142 | when no two keys camel-case to the same name, `_.mapKeys` renames pair by pair, keeping values and order |
| Normalizer.SequencesNotRenamed | index.js:138-140 | no sequence has an underscored key, so the key rule never rewrites a sequence |
| Normalizer.NormalizeTidied | index.js:134-154 | the visitor meets the node-by-node description. A leaf becomes `parseDate(value)` exactly when dates are on and its key matches a `dateKeys` entry, and is kept otherwise. Each mapping keeps its size and key order; each key is camel-cased exactly when keys are on and `_.some` finds an underscored key: the mapping is not array-like and some key has an underscore. Each sequence keeps its length. Every child is visited under its new key |
| Normalizer.NormalizePreservesShape | index.js:134-154 | without key collisions, normalization keeps the nesting: leaves stay leaves, mappings and sequences keep their number of children |
| Normalizer.KeysOffKeepsKeys | index.js:136-143 | with `tidy.keys` off, every mapping keeps exactly its keys in the same order, at every depth |
| Normalizer.DatesOffKeepsLeaves | index.js:146-152 | with `tidy.dates` off (and no key collisions), every leaf stays as it was, in its place |
| Normalizer.AllOffIdentity | index.js:134-154 | with both rules off, the result is the input |
| Normalizer.NormalizeIdempotent | index.js:134-154 | normalizing a normalized tree changes nothing, given that camel-casing removes underscores, re-parsing a date gives the same date, and `length` is not a date key. Key collisions are allowed |
| Normalizer.MapKeysNoUnderscore | index.js:142 | when camel-casing removes underscores, no key produced by `_.mapKeys` has an underscore |
| Normalizer.IndexOfSameKeys | index.js:140 | two mappings with the same keys in the same order find a key at the same position |
| Normalizer.ObjectSettles | index.js:134-154 | a normalized non-empty mapping normalizes to itself, whether it was renamed, had no underscored key, or is array-like |
| Normalizer.DefaultsKeepLength | index.js:17 | the default `dateKeys` do not match `length`, so the defaults meet the idempotence precondition |
| Normalizer.ArrayLikeKeepsKeys | index.js:140 | `{length: 1, study_title: "X"}` with keys on is returned unchanged: `_.some` sees only its indices |
| Normalizer.LengthDateKeyBreaksIdempotence | index.js:134-154 | with `length` as a date key, `{length: 1, a_b: 1}` keeps `a_b` on the first pass, and a second pass changes the result |
| Normalizer.DefaultDateKeys | index.js:17 | under the default `dateKeys`, a key is a date key exactly when it ends in `Date` or is `createdAt`, `updatedAt`, `metaCreated` or `metaUpdated` |
| Normalizer.DefaultDateKeysSkipRootAndIndices | index.js:149 | under the default `dateKeys`, neither the root (key undefined) nor a sequence element (a decimal index) is a date key |
| Normalizer.StudyExample | index.js:134-154 | `{study_title: "X", registrationDate: s}` with `dateKeys: [/Date$/]` becomes `{studyTitle: "X", registrationDate: new Date(s)}` |
| Normalizer.RenamedKeyIsCoerced | index.js:134-154 | the child of a renamed mapping is matched under its new key: `registration_date` is parsed as `registrationDate` |
| Normalizer.KeysOffExample | index.js:136-143 | `{a_b: 1}` with `tidy.keys` off is returned unchanged |
| Normalizer.CollidingKeysMerge | index.js:142 | `{a_b: x, aB: y}` becomes `{aB: y}`: colliding keys lose a field |
| Transport.BodyError | index.js:188 | the reported error is the body's `error` field and is truthy; no error is reported exactly when the field is absent or falsy |
| Populate.ItemsRun | index.js:182-197 | a successful pass over the elements keeps the sequence's length |
| Populate.Tidy | index.js:133-158 | `tidy` is its specification `TidyRun`: the normalized tree with no events when `tidy.populate` is off, and otherwise `populate` of the normalized tree |
| Populate.Populate | index.js:178-202 | the loop over `populateKeys` gives exactly the result and the event trace of `PopulateRun` |
| Populate.ResolveItems | index.js:181-197 | the loop over `obj[key]` writes each result back at its own index and gives exactly `ItemsRun` |
| Populate.ResolveItem | index.js:183-195 | the per-element callback gives exactly `ItemStep` |
| Populate.ItemsErrorSticks | index.js:187-188 | once an element fails, no later element is fetched and nothing more is emitted |
| Populate.KeysErrorSticks | index.js:197-200 | once a populate key fails, later keys are not visited |
| Populate.ItemStepRules | index.js:183-192 | an element without `url` is kept and emits nothing. One with `url` emits `prePopulate(item)` first. It succeeds exactly when the fetch has no transport error, the body has no truthy `error`, and the nested tidy succeeds. A success is the tidied body and ends with `postPopulate(item, tidied)`. A failure emits no `postPopulate` for the element |
| Populate.ItemsRunFirstFailure | index.js:182-197 | on success every element step succeeded and the events are theirs in index order; on failure the error is that of the first failing element and the events stop with it |
| Populate.ItemsRunAllSteps | index.js:182-197 | a successful pass over the elements means every element step succeeded, and the events are theirs in index order |
| Populate.ItemsFailureAt | index.js:187-188 | a failed pass names the first failing element: the elements before it succeeded, its step gave the error, and the events end with its own |
| Populate.ItemsRunFrame | index.js:191 | a successful pass keeps the length, leaves the unvisited positions alone and puts at each visited index what its own step produced |
| Populate.ResolvedSequence | index.js:182-195 | after a successful pass, elements without `url` are unchanged and each element with `url` is replaced, at its index, by the tidied document fetched from its url |
| Populate.AbsentKeysSkipped | index.js:180 | populate keys that are absent (or not sequences) change nothing and emit nothing |
| Populate.KeysRunFrame | index.js:179-198 | a successful pass over the first populate keys keeps the document's keys and their order, and changes no field whose key is not among them |
| Populate.PopulateKeepsOtherFields | index.js:178-202 | a successful `populate` of a mapping keeps its keys, their order and every field that is not a populate key |
| Populate.SkippedKey | index.js:180 | one step over a populate key that is absent or not a sequence leaves the result and the events as they were |
| Populate.KeysRunSucceeds | index.js:179-201 | the pass over the first populate keys succeeds exactly when every visited key gave a sequence on which every element step succeeded |
| Populate.KeyResolvedStep | index.js:179-198 | one more populate key succeeds exactly when the keys before it did and every element it reaches resolves |
| Populate.PopulateSucceeds | index.js:178-202 | `populate` succeeds exactly when every element step on every present populate key succeeded |
| Populate.KeysRunFailure | index.js:187-188 | a failed `populate` failed on one element of one present populate key, whose own step reported that error; the keys before it succeeded |
| Populate.SourceBodyTidiesToItself | index.js:133-158 | a fetched `{sourceData: n}` tidies to itself with no events under the defaults |
| Populate.TwoReferencesExample | index.js:178-202 | `{records: [{url: "U1"}, {url: "U2"}]}` with a stub GET: both elements are replaced in order, and the trace is `pre(U1), post(U1), pre(U2), post(U2)` |
| Count.SearchRaw | index.js:73-75 | the search passes on a transport error and a truthy body `error`, and otherwise, with `rawResponse` on, returns the response body |
| Count.CountFrom | index.js:112-116 | built on `SearchRaw`: the count is returned exactly when the search succeeded, the body has no truthy `error` and has `total_count`, and it is that field. A transport error and a body error are passed on. A missing `total_count` is the "No count found" error exactly when there is no other error |
| Count.SearchSettings.PrepareForCount | index.js:109-110 | the search settings get `rawResponse` on and `pageLimit` 10; `page` is kept |
| Count.Count | index.js:107-116 | `count` adjusts the settings as above and returns `CountFrom` of the raw response |

## Left out

- HTTP transport (`superagent`): network I/O. The GET is the parameter `Env.fetch`, and the raw search response is a parameter of `Count.Count`.
- URL templating with `mustache`: a string substitution done by a foreign library. In `ot.count`'s call into `ot.search`, the URL and the request are left out. The settings it passes, the checks `search` makes of the response (`Count.SearchRaw`), and the callback `count` installs are modelled.
- The `ot.get` and `ot.search` wrappers: I/O dispatch around `tidy`. `search` also collects its items in completion order, which depends on scheduling.
- Concurrency: both loops of `populate` are async-chainable `forEach` calls, over `populateKeys` and over each key's elements, and run their bodies in parallel. `setTimeout` defers `tidy` to the next tick. The model is sequential: keys in the order of `populateKeys`, and within a key the elements in index order. That order is the model's choice. In the source, events of different keys and of different elements can interleave, in the order in which fetches complete.
- The double callback: after an `error` in a fetched body, the source leaves sibling fetches in flight and may call back again. The model reports the first failure only.
- A populate failure leaves the caller's object partly updated in the source. The model returns only the error.
- `argy` argument parsing, lodash `defaultsDeep` merging (including its position-wise merge of arrays such as `dateKeys`), and the `EventEmitter` base: foreign library calls. The options arrive as one `TidyOptions` value. Events are returned as an ordered trace, not broadcast to listeners.
- lodash `_.camelCase` and `new Date` are uninterpreted functions. Properties that need facts about them take those facts as preconditions.
- JavaScript regular expressions: only literal patterns with optional `^`/`$` anchors are modelled. This covers the default `/Date$/`.
- Numbers are integers. Floating point, `NaN` and JavaScript's ordering of integer-like keys before other keys are not modelled. A mapping's fields keep the order of the field list.
- A document with a repeated key: lookups use the first occurrence.
- `Populate.KeyStep`: a populate key whose value is not a sequence is skipped. In the source, async-chainable would iterate a mapping's values, and a string would be fed to `forEach`.
- `Normalizer.NormalizeIdempotent`: requires that `length` is not a date key, because the source is not idempotent otherwise (`Normalizer.LengthDateKeyBreaksIdempotence`). The defaults meet it (`Normalizer.DefaultsKeepLength`).
- `Populate.ItemStep`: the model stops after a fixed number of nested `tidy` levels with `OutOfFuel`. The source has no such bound and can recurse forever when a fetched body refers back to itself.
- A response without a body makes the source throw on `res.body.error`. The model always has a body.
- Cyclic documents: not expressible in the model.
- `ot.new`: constructs a fresh instance; there is no logic in it.
- The test suite: it calls the live API.
