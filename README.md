# Cruton Cassandra driver core, modelled in Dafny

Cruton keeps a three-level inventory: entities, the environments inside an
entity and the devices inside an environment. Its Cassandra driver
(`cruton/data_store/drivers/cassandra/utils.py`) holds a small search and
write engine under its storage calls. This project models that engine and
proves properties of it:

- **the deep matcher** (`deep_search`, module `DeepSearch`): does a criterion
  occur anywhere inside a nested value, compared exactly or fuzzily
  (case-insensitive substring)? Lists match through any element. Dicts match
  through their values only. A dict string holding a comma or a newline is
  split into lowercased tokens. A dict int matches only by equality.
- **the record normaliser** (`convert_from_json`, module `Normalize`): each
  `vars` entry becomes its JSON decoding when it decodes, and stays the raw
  string otherwise.
- **the search dispatcher** (`_get_search`, `_search`, `get_*`, modules
  `Search` and `Driver`): pops the five field hints (`tag`, `port`, `var`,
  `link`, `contact`) and `fuzzy` from the request. With an identifier given
  and `fuzzy` off, it fetches one record directly. Otherwise it scans the
  candidates and keeps those in which some filter key deep-matches (OR
  across keys, input order kept).
- **the write merger** (`_update_tags`, `_put_item`, module `WriteMerge`):
  unions the stored and incoming tags, which also chooses update versus
  create. It JSON-encodes structured `vars` values, stamps `updated_at`,
  and on create also sets `created_at` and the identifiers.
- **the link stamper and the write sequence** (`_put_links`, `put_device`,
  `put_environment`, `put_entity`, modules `WriteMerge`, `Driver` and
  `WriteProperties`): checks the ancestors (412), writes the child, then
  stamps a link on the parent. A fault gives 400 and success gives 200.

Values are `Value = Str | Int | List | Dict`. A dict is an association list
that keeps its insertion order, and a record is a `map<string, Value>`.

The three tables are sequences of records, and a full scan returns them in
sequence order; a created row goes at the end (see "Left out"). A query filter is a set of column = value constraints (`Store.Where`,
`Store.FirstWhere`). Both Cassandra's `UPDATE` and its `INSERT` act as an
upsert of the named columns. They differ on map columns (`vars`, `links`):
an insert (`query.create`, `Store.Insert`) replaces a named map whole,
while an update (`query.update`, `Store.Update`) writes it one entry at a
time, so the stored map gains the written entries and keeps the others
(`Store.DictMerge`); an update that writes an empty map assigns it and so
clears the column (`Store.EmptyMapUpdateClears`). `_put_item` takes the update path when `_update_tags`
found the row (`Store.Write`, `Driver.ItemStored`), and the link stamp is
always an update.

The class `Driver.Driver` holds the request map (`self.query`), the three
tables and the endpoint. Its methods are proved against the pure outcome functions
`Driver.PutEntityOutcome`, `Driver.PutEnvironmentOutcome`,
`Driver.PutDeviceOutcome` and `Search.SearchResult`.

External collaborators become parameters:

- JSON decoding is the partial function `decode`, and encoding is `encode`.
- The clock is `now`.
- A backend fault during a write or a link stamp is an `Outcome`
  (`itemFault`, `linkFault`).
- A fault of the direct fetch is `fetch`.

An empty string stands for an identifier that was not given, since `None`
and `""` are both falsy to the source.

Behaviour of the code that the model keeps, and proves, as written:

- `put_device` checks the environment by `env_id` alone but stamps the link
  on the row addressed by `env_id` and `ent_id`. When the environment id
  exists only under another entity, the stamp adds a new environment row
  (`WriteProperties.DeviceLinkMayAddEnvironment`,
  `WriteProperties.EnvironmentUnderAnotherEntity`).
- The direct fetch uses `get()`, which raises unless exactly one row fits.
  So `get_environment(ent)` without `fuzzy`, on an entity with two or more
  environments, returns the empty list (`Search.DirectFetchOfSeveralIsEmpty`).
- "Exact implies fuzzy" holds only when no int sits outside a dict. A bare
  int in a list matches exactly but never fuzzily
  (`DeepSearch.ExactImpliesFuzzy`, `DeepSearch.BareIntBreaksMonotonicity`).
- Normalising twice is not defined. After one pass a `vars` value may no
  longer be text, and `json.loads` on it raises
  (`Normalize.SecondPassLeavesDomain`).

## Model

| member | source | states |
|---|---|---|
| Values.LowerIdempotent | cruton/data_store/drivers/cassandra/utils.py:110-111 | lowercasing twice is lowercasing once |
| Values.TokensCover | cruton/data_store/drivers/cassandra/utils.py:128 | the split tokens, joined, are the string with its commas and newlines removed; no token is empty or holds a separator |
| Values.TokensAtSep | cruton/data_store/drivers/cassandra/utils.py:128 | splitting a word, a separator and a rest gives the word followed by the tokens of the rest |
| Values.TokensOfWord | cruton/data_store/drivers/cassandra/utils.py:128 | a non-empty string without a comma or newline splits into itself alone |
| Values.TokensSkipSep | cruton/data_store/drivers/cassandra/utils.py:128 | a leading comma or newline yields no token, so runs of separators yield no empty token |
| Values.ContainsIff | cruton/data_store/drivers/cassandra/utils.py:112 | the substring test `c in v` holds exactly when the needle occurs at some position of the haystack |
| DeepSearch.CriteriaInValue | cruton/data_store/drivers/cassandra/utils.py:107-116 | the leaf comparison: equality in exact mode; in fuzzy mode both sides must be strings, and the lowercased criterion equals or occurs in the lowercased value. Characterised by `Values.ContainsIff`, `DeepSearch.FuzzyIgnoresCriterionCase`, `DeepSearch.BareIntBreaksMonotonicity` and `DeepSearch.ContainerCriterionNeverMatches` |
| DeepSearch.Matches | cruton/data_store/drivers/cassandra/utils.py:95-140 | `deep_search`: a list matches through an element, a dict through a value, anything else as a leaf. Characterised by `DeepSearch.EmptyContainersNeverMatch`, `DeepSearch.KeysNeverCompared`, `DeepSearch.ExactImpliesFuzzy` and `DeepSearch.IntCriterionModesAgree` |
| DeepSearch.ValueMatches | cruton/data_store/drivers/cassandra/utils.py:122-136 | one dict value: containers are searched, a string with a separator matches through its lowercased tokens, an int only by `==`, any other string as a leaf. Characterised by `DeepSearch.TokenMakesDictMatch`, `DeepSearch.ExactSplitNeedsLowercase` and `DeepSearch.IntCriterionModesAgree` |
| DeepSearch.EmptyContainersNeverMatch | cruton/data_store/drivers/cassandra/utils.py:118-140 | an empty list or dict matches no criterion in either mode |
| DeepSearch.KeysNeverCompared | cruton/data_store/drivers/cassandra/utils.py:122-136 | two dicts with the same values in the same order match the same criteria, whatever their keys |
| DeepSearch.ExactSplitNeedsLowercase | cruton/data_store/drivers/cassandra/utils.py:127-129 | in exact mode a criterion with an upper-case letter never matches a split dict string, because its tokens are lowercased |
| DeepSearch.ContainerCriterionNeverMatches | cruton/data_store/drivers/cassandra/utils.py:107-138 | a list or dict criterion matches nothing, in either mode: fuzzy mode gives "no match" on a non-string operand instead of raising |
| DeepSearch.ExactImpliesFuzzy | cruton/data_store/drivers/cassandra/utils.py:107-138 | when no int sits outside a dict, an exact match is also a fuzzy match |
| DeepSearch.BareIntBreaksMonotonicity | cruton/data_store/drivers/cassandra/utils.py:107-121 | `[1]` matches `1` exactly but not fuzzily |
| DeepSearch.IntCriterionModesAgree | cruton/data_store/drivers/cassandra/utils.py:131-133 | with an int criterion, and no int outside a dict, both modes give the same answer: dict ints compare by `==` in both |
| DeepSearch.FuzzyIgnoresCriterionCase | cruton/data_store/drivers/cassandra/utils.py:108-112 | in fuzzy mode a criterion and its lowercase form match the same values |
| DeepSearch.TokenMakesDictMatch | cruton/data_store/drivers/cassandra/utils.py:127-130 | a dict whose string value has a separator matches when one of its lowercased tokens does |
| DeepSearch.FuzzyFindsTokenInCommaList | cruton/data_store/drivers/cassandra/utils.py:127-130 | a fuzzy search for "BET" finds `{"note": "alpha,beta,gamma"}` |
| Normalize.NormalizedRecord | cruton/data_store/drivers/cassandra/utils.py:86-92 | normalising keeps every key and every field other than `vars`; each `vars` entry keeps its key and position and becomes its decoding when it decodes, and the raw string otherwise |
| Normalize.ConvertFromJson | cruton/data_store/drivers/cassandra/utils.py:79-92 | the in-place loop over `vars` yields the normalised record |
| Normalize.SecondPassLeavesDomain | cruton/data_store/drivers/cassandra/utils.py:86-90 | once an entry decodes to a non-string, the result is no longer a stored record, so a second pass is outside what the normaliser accepts |
| Normalize.UndecodableIsFixed | cruton/data_store/drivers/cassandra/utils.py:87-90 | a record none of whose `vars` decode comes back unchanged |
| Store.Where | cruton/data_store/drivers/cassandra/utils.py:183-190 | a filtered query returns exactly the table's rows that fit the filter, in table order, each as many times as the table holds it |
| Store.FirstWhere | cruton/data_store/drivers/cassandra/utils.py:390-393 | `limit(1).get()` finds a row exactly when some row fits, and what it finds is a fitting row of the table |
| Store.Insert | cruton/data_store/drivers/cassandra/utils.py:320-328 | `query.create`: the fitting rows have the named columns replaced whole, or the filter plus the fields is appended. Characterised by `Store.InsertThenFetch`, `Store.InsertFrame`, `Store.InsertKeepsStored` and `Store.CreateAddsRow` |
| Store.InsertThenFetch | cruton/data_store/drivers/cassandra/utils.py:321-328 | after a create, a fetch by the same filter returns the first fitting row with each named column replaced by its written value, or the new row when none fitted |
| Store.InsertFrame | cruton/data_store/drivers/cassandra/utils.py:321-328 | a create changes no row outside its filter and adds at most one row |
| Store.InsertKeepsStored | cruton/data_store/drivers/cassandra/utils.py:321-328 | creates whose `vars` hold only text keep every stored `vars` text-only |
| Store.WriteLands | cruton/data_store/drivers/cassandra/utils.py:318-328 | after a write the mapper accepts, the row a fetch by its filter finds shows every written column (plain and set columns equal the written value; a map column gives every written key its written value); after an update of an existing row it also keeps every unnamed column and, in each map column written with at least one entry, every entry under a key not written |
| Store.FirstWhereIsHeadOfWhere | cruton/data_store/drivers/cassandra/utils.py:183-190 | the first fitting row is the head of the list of fitting rows |
| Store.CreateAddsRow | cruton/data_store/drivers/cassandra/utils.py:320-328 | a create that names every key column, when no row has that key, appends exactly the written row |
| Store.DictPutGet | cruton/data_store/drivers/cassandra/utils.py:319 | one map-entry statement makes the map give the written value under its key and what it gave before under every other key |
| Store.DictMergeGet | cruton/data_store/drivers/cassandra/utils.py:319 | a map column after an update gives the written value under every written key and its earlier value under every other key |
| Store.MergeFields | cruton/data_store/drivers/cassandra/utils.py:319 | what `query.update` sets on a row it reaches: a non-empty written map is merged key by key, an empty one is assigned, other named columns are replaced. Characterised by `Store.MergeFieldsShowsWrite` and `Store.MergeFieldsStored` |
| Store.Update | cruton/data_store/drivers/cassandra/utils.py:319 | `query.update`: every fitting row is merged with the fields, or the filter plus the fields is appended. Characterised by `Store.UpdateThenFetch`, `Store.UpdateFrame` and `Store.EmptyMapUpdateClears` |
| Store.Write | cruton/data_store/drivers/cassandra/utils.py:318-328 | the `if update` dispatch between `query.update` and `query.create`. Characterised by `Store.WriteLands` and `Store.WriteKeepsStored` |
| Store.MergeFieldsShowsWrite | cruton/data_store/drivers/cassandra/utils.py:319 | an updated row shows every written column and keeps every unnamed column and, in each map column written with at least one entry, every entry under a key not written |
| Store.MergeFieldsStored | cruton/data_store/drivers/cassandra/utils.py:319 | merging text-only `vars` into text-only `vars` keeps them text-only |
| Store.UpdateThenFetch | cruton/data_store/drivers/cassandra/utils.py:319 | after an update that names no key column, a fetch by the same filter returns the first fitting row merged with the written columns, or the new row when none fitted |
| Store.UpdateFrame | cruton/data_store/drivers/cassandra/utils.py:319 | an update changes no row outside its filter and adds at most one row |
| Store.EmptyMapUpdateClears | cruton/data_store/drivers/cassandra/utils.py:319 | an update that writes an empty map leaves that column empty on every row it reaches, whatever it held |
| Store.WriteKeepsStored | cruton/data_store/drivers/cassandra/utils.py:318-328 | updates and creates whose `vars` hold only text keep every stored `vars` text-only |
| Search.LookupParamsShape | cruton/data_store/drivers/cassandra/utils.py:194-238 | the filter map `_search` evaluates holds none of the popped keys; holds each truthy hint under its record field (`tag`→`tags`, `port`→`ports`, `var`→`vars`, `link`→`links`, `contact`→`contacts`); and keeps every other request key as it was |
| Search.WithItemsAppend | cruton/data_store/drivers/cassandra/utils.py:146-149 | writing the search items in two batches is writing them in one |
| Search.LookupParams | cruton/data_store/drivers/cassandra/utils.py:194-238 | the filter map `_search` evaluates: `self.query` after the pops, with the truthy hints written under their record fields. Characterised by `Search.LookupParamsShape` and `Search.LookupParamsIsHinted` |
| Search.LookupParamsIsHinted | cruton/data_store/drivers/cassandra/utils.py:194-238 | the filter map is the request without the popped keys, with the truthy hints written in order |
| Search.Filtered | cruton/data_store/drivers/cassandra/utils.py:151-164 | the scan keeps exactly those candidates that the filter map selects: it is empty, or some key holds a truthy value in the candidate that deep-matches |
| Search.KeyHits | cruton/data_store/drivers/cassandra/utils.py:157-160 | one filter key selects a candidate when the candidate's value there is truthy and deep-matches. Characterised through `Search.SelectItem` |
| Search.Selected | cruton/data_store/drivers/cassandra/utils.py:152-161 | a candidate is kept when the filter map is empty or some key hits. Characterised by `Search.SelectItem`, `Search.FilteredAppend` and `Search.EmptyLookupKeepsAll` |
| Search.FilteredAppend | cruton/data_store/drivers/cassandra/utils.py:151-161 | scanning one more candidate appends it exactly when it is selected |
| Search.FilteredKeepsOrder | cruton/data_store/drivers/cassandra/utils.py:151-164 | the scan's result is a subsequence of its input: input order is kept and no candidate is repeated |
| Search.EmptyLookupKeepsAll | cruton/data_store/drivers/cassandra/utils.py:152-155 | with an empty filter map every candidate is returned |
| Search.SearchRows | cruton/data_store/drivers/cassandra/utils.py:143-164 | `_search`'s loops write the truthy items into the filter map and return the filtered, normalised candidates |
| Search.AddSearchItems | cruton/data_store/drivers/cassandra/utils.py:146-149 | the first loop writes each truthy search item into the filter map, later items winning |
| Search.SelectItem | cruton/data_store/drivers/cassandra/utils.py:152-161 | the key loop keeps a candidate exactly when the filter map is empty or some key hits |
| Search.FilterRows | cruton/data_store/drivers/cassandra/utils.py:151-164 | the candidate loop returns exactly the selected candidates, in order |
| Search.DirectFetchIgnoresFilters | cruton/data_store/drivers/cassandra/utils.py:226-229 | with an identifier and `fuzzy` off, the result has at most one record and does not depend on the other filter keys |
| Search.DirectFetchOfSeveralIsEmpty | cruton/data_store/drivers/cassandra/utils.py:226-232 | a direct fetch with two or more fitting rows returns the empty list |
| Search.ScanSelectsInOrder | cruton/data_store/drivers/cassandra/utils.py:233-240 | the scan path returns the normalised candidates the filter map selects, in table order and each once |
| Search.ScanWithoutFiltersReturnsAll | cruton/data_store/drivers/cassandra/utils.py:233-240 | a scan with no filter left returns every normalised candidate |
| Search.DirectFetchOfOnlyRow | cruton/data_store/drivers/cassandra/utils.py:226-229 | a direct fetch over a single row that fits the identifiers returns that row, normalised |
| Search.IdFilterAllGiven | cruton/data_store/drivers/cassandra/utils.py:217-223 | with all three identifiers given, the lookup names exactly the three id columns |
| Search.SearchResult | cruton/data_store/drivers/cassandra/utils.py:167-240 | `_get_search`: the direct path gives the one fitting row normalised, or the empty list when the fetch fails or not exactly one row fits; the scan path gives the selected normalised candidates. Characterised by `Search.DirectFetchIgnoresFilters`, `Search.DirectFetchOfSeveralIsEmpty`, `Search.DirectFetchOfOnlyRow`, `Search.ScanSelectsInOrder`, `Search.ScanWithoutFiltersReturnsAll` and `Driver.Driver.GetSearch` |
| WriteMerge.Dedup | cruton/data_store/drivers/cassandra/utils.py:343 | `set(...)` keeps exactly the elements of its input, each once |
| WriteMerge.DedupSnoc | cruton/data_store/drivers/cassandra/utils.py:343 | adding an element to the input adds it at the end of the duplicate-free list unless it is already there |
| WriteMerge.DedupExample | cruton/data_store/drivers/cassandra/utils.py:343 | the duplicate-free list of `[a, b, b, c]` is `[a, b, c]` |
| WriteMerge.UpdateTags | cruton/data_store/drivers/cassandra/utils.py:332-348 | the update flag is set exactly when the stored record is found and both tag collections can be listed and hashed; then the tags are stored ∪ incoming, each once, and nothing else changes; otherwise the payload is unchanged, or has only lost its popped `tags` |
| WriteMerge.TagUnionExample | cruton/data_store/drivers/cassandra/utils.py:343 | updating tags {a, b} with {b, c} stores {a, b, c} |
| WriteMerge.EncodedVars | cruton/data_store/drivers/cassandra/utils.py:313-315 | each dict or list in `vars` becomes its JSON text, and a `vars` that is not a dict fails with the `.items()` error. Characterised by `WriteMerge.PreparedItem` and `WriteMerge.PrepareItem` |
| WriteMerge.Stamped | cruton/data_store/drivers/cassandra/utils.py:320-327 | the create stamps: `created_at` copies `updated_at`, and each given identifier is set. Characterised by `WriteMerge.PreparedItem` |
| WriteMerge.PreparedItem | cruton/data_store/drivers/cassandra/utils.py:300-329 | a non-dict `vars` raises. Otherwise `updated_at` is `now`. Each dict or list `vars` value is encoded and the rest are kept. An update adds `updated_at` and nothing else. A create adds exactly `updated_at`, `created_at` (equal to it) and the id columns whose id was given, each set to that id; an id column of the payload whose id was not given keeps its payload value; no other field changes |
| WriteMerge.PrepareItem | cruton/data_store/drivers/cassandra/utils.py:313-329 | the in-place loop and stamps yield the prepared payload |
| WriteMerge.LinkFor | cruton/data_store/drivers/cassandra/utils.py:365-369 | the link is the endpoint when it already ends with the child id, otherwise endpoint + "/" + id; either way it ends with the child id |
| WriteMerge.LinkExamples | cruton/data_store/drivers/cassandra/utils.py:365-369 | `https://x/dev` for `dev` stays as it is; `https://x/env` for `dev1` becomes `https://x/env/dev1` |
| WriteMerge.LinkFields | cruton/data_store/drivers/cassandra/utils.py:363-371 | the parent update sets exactly `links`, a one-entry map from the child id to its link, and `updated_at`, copied from the child |
| Driver.Writable | cruton/data_store/drivers/cassandra/utils.py:318-328 | what the mapper accepts for `query.update` or `query.create`: text-only `vars`, no key column on an update, every key column with the addressed value on a create. Characterised by `Driver.Written`, whose success holds exactly when the prepared payload passes it; every accepted write meets the precondition of `Store.WriteLands` |
| Driver.Written | cruton/data_store/drivers/cassandra/utils.py:300-348 | the child write succeeds exactly when payload preparation succeeds on the tag-merged arguments, the mapper accepts the payload for the path `_update_tags` chose, and no fault occurs; the payload then carries `updated_at = now` |
| Driver.PutEntityOutcome | cruton/data_store/drivers/cassandra/utils.py:499-530 | `put_entity` answers 200 exactly when the child write succeeds, returning the payload and storing it by update or create as `_update_tags` chose, with no other table touched; otherwise 400 with the error and no change; stored tables stay stored |
| Driver.PutEnvironmentOutcome | cruton/data_store/drivers/cassandra/utils.py:443-496 | `put_environment` answers 412 exactly when the entity is missing, with the "Entity [..] was not found" body and no change; 200 exactly when the entity exists, the environment write succeeds and the link stamp meets no fault, with the environment stored and the link merged into the entity by an update; a failed environment write answers 400 with no change; a failed link stamp answers 400 with the environment already written; devices never change |
| Driver.PutDeviceOutcome | cruton/data_store/drivers/cassandra/utils.py:374-440 | `put_device` answers 412 exactly when the environment id or the entity is missing, checking the environment first, with the "Environment [..] was not found" or "Entity [..] was not found" body accordingly and no change; 200 exactly when both exist, the device write succeeds and the link stamp meets no fault, with the device stored and the link merged into the environment addressed by both parent ids; a failed device write answers 400 with no change; a failed link stamp answers 400 with the device already written; entities never change |
| Driver.Driver.Pop | cruton/data_store/drivers/cassandra/utils.py:194-215 | `dict.pop(key, None)` returns the value under the key, if any, and removes the key |
| Driver.Driver.PopHint | cruton/data_store/drivers/cassandra/utils.py:194-215 | popping one hint yields its search item when the value is truthy and removes the hint |
| Driver.Driver.PopSearchItems | cruton/data_store/drivers/cassandra/utils.py:194-215 | the five pops yield the search items in the order tag, port, var, link, contact and remove exactly the five hints |
| Driver.Driver.IdLookup | cruton/data_store/drivers/cassandra/utils.py:217-223 | the identifier lookup holds exactly the truthy ids under their column names |
| Driver.Driver.GetSearch | cruton/data_store/drivers/cassandra/utils.py:167-240 | `_get_search` returns the dispatcher's result; the request map loses the hints and `fuzzy`, and on the scan path gains the rekeyed hints |
| Driver.Driver.GetEntity | cruton/data_store/drivers/cassandra/utils.py:284-297 | `get_entity` searches the entities by `ent_id` |
| Driver.Driver.GetEnvironment | cruton/data_store/drivers/cassandra/utils.py:265-281 | `get_environment` searches the environments by `ent_id` and `env_id` |
| Driver.Driver.GetDevice | cruton/data_store/drivers/cassandra/utils.py:243-262 | `get_device` searches the devices by all three ids |
| Driver.Driver.WriteItem | cruton/data_store/drivers/cassandra/utils.py:413-427 | tag coalescing and payload preparation against the addressed row produce the child write and the update-or-create choice |
| Driver.Driver.PutEntity | cruton/data_store/drivers/cassandra/utils.py:499-530 | `put_entity` yields the response and the entity table its outcome function gives, keeping every table stored |
| Driver.Driver.PutEnvironment | cruton/data_store/drivers/cassandra/utils.py:443-496 | `put_environment` yields the response and the tables its outcome function gives, changing only entities and environments |
| Driver.Driver.PutDevice | cruton/data_store/drivers/cassandra/utils.py:374-440 | `put_device` yields the response and the tables its outcome function gives, changing only environments and devices |
| Driver.Driver.StoreDevice | cruton/data_store/drivers/cassandra/utils.py:407-440 | once both parents are found, the device write and the link stamp yield the response and tables `PutDeviceOutcome` gives |
| WriteProperties.LinkLands | cruton/data_store/drivers/cassandra/utils.py:363-371 | after a link stamp the parent found by its filter maps the child id to its link and carries the child's time, and keeps every other link and every other column it had |
| WriteProperties.SecondLinkKeepsFirst | cruton/data_store/drivers/cassandra/utils.py:363-371 | two link stamps on one entity leave both links in its `links` map |
| WriteProperties.PutEntityThenFetch | cruton/data_store/drivers/cassandra/utils.py:509-530 | after a 200 from `put_entity`, fetching the entity shows every field of the response, with `updated_at = now`; on the update path the entity keeps every column and `vars` entry the response does not overwrite |
| WriteProperties.PutEnvironmentThenFetch | cruton/data_store/drivers/cassandra/utils.py:456-496 | after a 200 from `put_environment`, the environment reads back as `put_entity` does, and the entity's `links` maps `env_id` to its link next to every link it had, with the environment's `updated_at` |
| WriteProperties.PutDeviceThenFetch | cruton/data_store/drivers/cassandra/utils.py:389-440 | after a 200 from `put_device`, the device reads back as `put_entity` does, and the environment addressed by both parent ids maps `dev_id` to its link next to every link it had, with the device's `updated_at` |
| WriteProperties.PutDeviceRowLands | cruton/data_store/drivers/cassandra/utils.py:407-428 | after a 200 from `put_device` the device row fetched by its three ids carries `now`, shows the response, and on update keeps what was not overwritten |
| WriteProperties.PutDeviceLinkLands | cruton/data_store/drivers/cassandra/utils.py:429-435 | after a 200 from `put_device` the environment with both parent ids maps `dev_id` to its link stamped with the device's time, next to its earlier links |
| WriteProperties.UpdateCoalescesTags | cruton/data_store/drivers/cassandra/utils.py:341-348 | on the update path the written tags are the stored and incoming tags, each once |
| WriteProperties.PutDeviceAccumulatesTags | cruton/data_store/drivers/cassandra/utils.py:407-427 | a `put_device` update keeps every stored tag of the device and adds the incoming ones |
| WriteProperties.FirstDeviceWrite | cruton/data_store/drivers/cassandra/utils.py:407-428 | into an empty device table, a successful `put_device` adds exactly the response body as the one row, and that row carries all three ids |
| WriteProperties.FirstDeviceIsFoundById | cruton/data_store/drivers/cassandra/utils.py:226-229 | the first device written under an environment is what a direct fetch by its three ids returns, normalised |
| WriteProperties.DeviceLinkMayAddEnvironment | cruton/data_store/drivers/cassandra/utils.py:389-435 | when no environment row has both parent ids, a successful `put_device` appends one holding only the keys, `links` and `updated_at` |
| WriteProperties.EnvironmentUnderAnotherEntity | cruton/data_store/drivers/cassandra/utils.py:389-402 | the existence checks pass while no environment has both parent ids: the environment id exists only under another entity |

## Left out

- Connection setup, authentication and closing (`_auth_provider`, `setup`, `close`): cluster plumbing.
- Query building: `objects`, `filter`, `allow_filtering`, `limit`, `get`, `update` and `create` become operations on in-memory tables. An update or create sets exactly the named columns. Rows that no filter distinguishes are not merged.
- Column types are not modelled: a written `Dict` counts as a map column, a `List` as a set or list column. Cassandra returns a map's entries in key order; the model keeps them in write order, and a rewritten key moves to the end.
- The object mapper's validation is modelled only as `Driver.Writable`:
  - `vars` must hold only text;
  - an update must not name any key column, even with its current value;
  - a create must give each key column it names the addressed value, and name every key column.
  Other refusals (unknown columns, wrong column types, empty key values) fall under the `itemFault` parameter. The mapper's own error texts are not modelled: a refused write answers 400 with one fixed message.
- The JSON grammar: `json.loads` and `json.dumps` are opaque parameters, and no round-trip law is assumed. A decoding to `null`, a float or a boolean is not representable, since `Value` has no such leaves.
- `None`, floats and booleans as dict values, which make `deep_search` raise: they are not in `Value`.
- Python `set` and `tuple` values are folded into `List`. A set's iteration order is not modelled: the coalesced tags are a duplicate-free list in first-seen order.
- Unicode lowercasing: `Lower` is ASCII lowercasing.
- `datetime.utcnow` is the parameter `now`; time is an `int`.
- Logging and the debug print in `_search`.
- `self.convert` and `self._friendly_return` are treated as the identity, and `self.endpoint` is the `endpoint` field.
- Exceptions raised inside `_search`'s scan, which runs outside the `try`. Only faults of the direct fetch are modelled (`fetch`).
- Exceptions other than `DoesNotExist` from the ancestor checks in `put_device` and `put_environment`: they propagate uncaught in the source and are not modelled.
- A backend error while `_update_tags` fetches the stored record is not modelled: an existing row is updated unless its tags or the incoming tags cannot be listed and hashed. The source then creates over the existing row (resetting `created_at`, replacing `vars` and `links` whole, dropping stored tags the payload lacks); the model reaches that create-over-an-existing-row path only when `_update_tags` fails on the stored or the incoming tags.
- Row placement: Cassandra's full scan returns rows in partition-token order, while the model appends a created row at the end of its table. Where a created row appears in later scans (`Store.CreateAddsRow`, `WriteProperties.DeviceLinkMayAddEnvironment`, and "in table order" in `Search.ScanSelectsInOrder` after a create) is therefore not modelled.
- Repeated keys in a `Dict`: every dict the program sees has distinct keys, but the association list does not enforce it. On a list with a repeated key the matcher reads every entry while `Store.DictGet` reads the last one; no lemma relies on such a list.
- Concurrency, and the non-atomic child-write-then-link sequence, including tag updates lost to racing writers.
- Normaliser idempotence: it does not hold, because a second pass is outside the normaliser's domain (`Normalize.SecondPassLeavesDomain`).
