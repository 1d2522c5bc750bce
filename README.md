# Stardew Valley traveling-merchant seed cracker, modelled in Dafny

The program recovers the game seed of a Stardew Valley save from the ten
items the traveling merchant (the cart) offers on one day. It replays the
cart's stock generation for every 32-bit seed and keeps the seeds whose
replay gives exactly the entered stock. This project models the core of
that program and proves properties of the model:

- `prng.dfy` (module `Prng`): the JKISS generator. `Jkiss` is a class whose
  four words `x`, `y`, `z`, `c` change in place on every draw, tied to the
  pure step `Next`. `Generator<S>` is a value with three functions: seeding,
  range draw and float draw. The replay is written against any such
  generator, and `JkissGenerator` is the instance for the JKISS generator.
- `catalog.dfy` (module `Catalog`): the build-time tables. It covers
  - parsing the `/`-separated object records;
  - the list of ids sorted by `(name, id)`;
  - the first filter (missing or off-limit ids) and the second filter (ids the cart never stocks);
  - the fast-exclude table, which maps every id to the next id cyclically that neither filter holds.
- `merchant.dfy` (module `Merchant`): `seed_valid` and `possible_prices`.
  `Replay` is the stock the cart generates for a seed. `SeedValid` walks the
  stock, and its result is exactly "the entered stock equals the replay".
- `agent.dfy` (module `Agent`): the worker.
  - Each `Start` or `Continue` message checks one batch of 2^24 seeds,
    `start, start + add, …`.
  - It answers with a found seed (made relative to the entered date), an error, progress, or "not found".
  - `Sweep` is the whole dialogue. Over all inputs, `Sweep` answers "not found" exactly when no seed of the worker's residue class matches.
- `app.dfy` (module `App`): the coordinator.
  - It hands each worker the residue class `index mod workerCount`.
  - It counts running workers, accumulates progress and records the outcome.
- `date.dfy` (module `DateComponent`) and `item.dfy` (module `ItemComponent`):
  the input components.
  - The date component parses year, season and day and reports the day
    number `112 * (year - 1) + 28 * (season - 1) + day`.
  - The item component keeps one stock slot. It also lists the catalog
    suggestions (the first five ids, in name order, whose names start with the text, ignoring case)
    and the possible prices of the chosen item.
- `decimal.dfy`, `ints.dfy`, `sorting.dfy`, `wrappers.dfy`: support modules.
  - `decimal.dfy`: decimal text to numbers, as Rust's `parse::<u16>`, `parse::<u8>` and `parse::<i16>` do it.
  - `ints.dfy`: the fixed-width integer types and the `as` casts between `i32` and `u32`.
  - `sorting.dfy`: insertion sort, used as the reference for "sorted".
  - `wrappers.dfy`: `Option` and `Result`.

Floating point is modelled exactly. The float draw is the rational
`D / 2^53` for a 53-bit integer `D`. The literal `0.1f64` is the double
nearest to one tenth, `3602879701896397 / 2^55`.

## Model

| member | source | states |
|---|---|---|
| Ints.I32AsU32 | src/prng.rs:43 | `seed as u32` is the value itself or the value plus 2^32, and is at most `i32::MAX` exactly for non-negative seeds |
| Ints.U32AsI32 | src/agent.rs:63 | `seed as i32` is the inverse of the `i32`-to-`u32` cast |
| Ints.WrapI32 | src/agent.rs:67 | the `i32` subtraction result agrees with the exact difference modulo 2^32 and is the exact difference when that fits |
| Prng.SeedState | src/prng.rs:41-48 | seeding sets `x = 314527869 * seed + 1234567 mod 2^32` and the three constant words |
| Prng.MwcNoOverflow | src/prng.rs:28-29 | the multiply-with-carry product plus carry never exceeds 0xfffa28490005d7b6 < 2^64, and it reaches that bound |
| Prng.NextWords | src/prng.rs:21-34 | one step is the LCG on `x`, the xorshift on `y` and the multiply-with-carry on `(z, c)`, and the output is their sum modulo 2^32 |
| Prng.RangeDraw | src/prng.rs:50-61 | an empty range is an error, and otherwise the draw lies in `[start, end)` |
| Prng.DeciderDraw | src/prng.rs:63-67 | the float numerator is below 2^53 and consumes two steps |
| Prng.DeciderBits | src/prng.rs:64-67 | the numerator is the top 26 bits of the first output followed by the top 26 bits of the second |
| Prng.FloatDraw | src/prng.rs:63-68 | the float draw lies in `[0, 1)` |
| Prng.JkissRangeSound | src/prng.rs:50-61 | the JKISS range draw stays in every non-empty range |
| Prng.Jkiss.FromSeed | src/prng.rs:41-48 | the new generator's words are the seeded state |
| Prng.Jkiss.Gen | src/prng.rs:21-34 | the in-place update and its output are one step of the pure generator |
| Prng.Jkiss.GenRange | src/prng.rs:50-61 | an empty range fails and leaves the state alone; otherwise the result and new state are the pure range draw |
| Prng.Jkiss.GenFloat | src/prng.rs:63-68 | the result and new state are the pure float draw |
| Decimal.DigitChar | build.rs:46 | each digit character stands for its value |
| Decimal.ToDecimal | build.rs:46 | the decimal rendering is non-empty and all digits |
| Decimal.ParseUnsigned | build.rs:46 | an accepted unsigned text is non-empty, holds a digit and is within the type's maximum |
| Decimal.ParseSigned | build.rs:47 | an accepted signed text lies in the type's range |
| Decimal.ToSignedDecimal | build.rs:47 | the signed rendering is non-empty |
| Decimal.DigitsValueOfToDecimal | build.rs:46 | the value of the rendering of `n` is `n` |
| Decimal.ParseToDecimal | build.rs:46 | parsing the rendering of any `n` up to the maximum gives back `n` |
| Decimal.ParseToSignedDecimal | build.rs:47 | parsing the signed rendering of any in-range `n` gives back `n` |
| Sorting.Insert | src/traveling_merchant.rs:140 | inserting into a strictly sorted sequence keeps it strictly sorted and adds exactly the element |
| Sorting.SortBy | build.rs:60-69 | the result is strictly sorted and a permutation of the input |
| Catalog.Split | build.rs:41 | splitting yields at least one part and no part holds the separator |
| Catalog.JoinSplit | build.rs:41 | joining the parts with the separator gives back the record |
| Catalog.SplitPrefix | build.rs:41 | a separator-free prefix joins the first part |
| Catalog.SplitJoin | build.rs:41 | splitting separator-free parts joined by the separator gives back the parts |
| Catalog.ParseRecord | build.rs:41-51 | a record parses exactly when it has six fields, a `u16` price and an `i16` edibility, and then each field lands in its place |
| Catalog.ParseFormatRecord | build.rs:41-51 | parsing a well-formed record of an object gives back the object |
| Catalog.MapOfKeys | build.rs:34-53 | the map holds exactly the keys of the parsed entries |
| Catalog.MapOfLast | build.rs:42-52 | a later insert with the same key replaces an earlier one |
| Catalog.LoadObjects | build.rs:34-53 | loading fails exactly when some entry does not parse, and otherwise gives the map of the parsed entries in order |
| Catalog.BuildFirstFilter | build.rs:71-76 | the first filter is exactly the ids below 790 that are missing or off limits |
| Catalog.BuildSecondFilter | build.rs:83-98 | the second filter is exactly the present, allowed ids below 790 that meet the exclusion rule, and it is disjoint from the first |
| Catalog.CyclicShift | build.rs:110-111 | stepping `k` ids, then `j` ids, is stepping `k + j` ids around the 790 ids |
| Catalog.OffsetTo | build.rs:108-116 | every id is reached from any other within 790 steps |
| Catalog.FirstOutside | build.rs:109-116 | the walk stops at the first id outside the excluded set and passes only excluded ids |
| Catalog.FirstOutsideUnique | build.rs:109-116 | the first stop is unique |
| Catalog.WalkTerminates | build.rs:109-116 | the walk stops within 790 steps exactly when some id is outside the excluded set |
| Catalog.BuildFastExclude | build.rs:106-119 | the table covers exactly the ids below 790 and maps each to the first id cyclically after it that is in neither filter |
| Catalog.WalkFrom | build.rs:108-116 | the inner loop computes that first id |
| Catalog.FastExcludeSkipsFiltered | build.rs:106-119 | each table entry is an eligible id, and every id it skips is filtered |
| Catalog.LexLessIrreflexive | build.rs:64 | string order is irreflexive |
| Catalog.LexLessTransitive | build.rs:64 | string order is transitive |
| Catalog.LexLessTotal | build.rs:64 | distinct strings are ordered |
| Catalog.KeyLessOrder | build.rs:64 | the `(name, id)` key is a strict total order |
| Catalog.SortedByNameDistinct | build.rs:60-69 | the sorted id list has no repeats |
| Catalog.CollectEntries | build.rs:61-62 | the `(name, id)` pairs are exactly the map's entries, one per id |
| Catalog.SortedEntriesGiveIds | build.rs:63-68 | the ids of the sorted pairs list every object once in `(name, id)` order |
| Catalog.SortedIds | build.rs:60-69 | the sorted id list holds every object once, in `(name, id)` order |
| Catalog.StockableIsEligible | build.rs:71-98 | a catalog with one stockable object leaves some id in neither filter |
| Catalog.BuildTables | src/codegen.rs:1-9 | the generated tables meet every table invariant the replay relies on |
| Merchant.DrawMultipliers | src/traveling_merchant.rs:72-74 | the constant multiplier lies in 1..10 and the variable one in 3..5 |
| Merchant.PriceInPriceSet | src/traveling_merchant.rs:102-105 | every drawn price is one of the prices offered for the item |
| Merchant.ValidTablesReady | src/codegen.rs:1-9 | valid tables give the replay what it needs |
| Merchant.FreeExists | src/traveling_merchant.rs:55-112 | while fewer ids are used than are eligible, the scan finds a free id within 790 steps |
| Merchant.Scan | src/traveling_merchant.rs:55-112 | the scan stops at the first free id cyclically after the raw draw, with multipliers in range |
| Merchant.ScanCommitsFirstFree | src/traveling_merchant.rs:41-112 | the id the scan commits is the id the fast-exclude walk finds |
| Merchant.NextSlot | src/traveling_merchant.rs:39-112 | one slot draws a free id and in-range multipliers |
| Merchant.SlotItem | src/traveling_merchant.rs:92-105 | the slot's item has its id and an offered price, with quantity 5 exactly when the decider is below 0.1 and 1 otherwise |
| Merchant.Replay | src/traveling_merchant.rs:38-113 | the replayed stock has the requested length, and its ids are eligible, unused before, and pairwise distinct |
| Merchant.VerdictStep | src/traveling_merchant.rs:38-113 | the verdict on one item is "slot matches item", then the verdict on the rest |
| Merchant.VerdictMeaning | src/traveling_merchant.rs:33-116 | the item-by-item verdict holds exactly when the stock equals the replay |
| Merchant.JumpStep | src/traveling_merchant.rs:42-49 | each fast-exclude jump moves strictly forward to an unfiltered id without passing the first free id, and it stops there exactly when the id is unused |
| Merchant.ResolveFastExclude | src/traveling_merchant.rs:41-49 | the fast-exclude loop ends at the first free id cyclically after the raw draw |
| Merchant.ScanOne | src/traveling_merchant.rs:56-111 | one scan iteration either commits the scan's slot or hands the scan on to the next id |
| Merchant.ScanForSlot | src/traveling_merchant.rs:55-112 | the scan loop computes the scan's slot |
| Merchant.CheckItem | src/traveling_merchant.rs:39-112 | one item matches exactly when it equals the slot's item, and then the used set and generator advance |
| Merchant.SeedValid | src/traveling_merchant.rs:33-116 | the answer is true exactly when the entered stock equals the stock the seed generates |
| Merchant.JkissQuantityThreshold | src/traveling_merchant.rs:92 | for JKISS, `decider < 0.1f64` holds exactly when the 53-bit numerator is below 900719925474100 |
| Merchant.U16LessOrder | src/traveling_merchant.rs:140 | `<` on `u16` is a strict total order |
| Merchant.PriceSetMinimum | src/traveling_merchant.rs:123 | the minimum is an offered price and no offered price is below it |
| Merchant.PriceSetSplit | src/traveling_merchant.rs:123-138 | the offered prices are the multiples of 100 and of the base price from the two loops that reach the minimum |
| Merchant.PossiblePrices | src/traveling_merchant.rs:119-143 | an unknown id is an error; otherwise the list is strictly ascending and holds exactly the prices the replay can produce |
| Agent.StepAnswers | src/agent.rs:48-102 | with a request in hand, one message answers for the batch search from the first seed |
| Agent.BatchSeedMonotone | src/agent.rs:59-61 | the seeds of a batch increase |
| Agent.SearchOutcome | src/agent.rs:59-78 | the batch search is exhausted exactly when every seed of the batch checks invalid, and otherwise stops at the first decisive seed |
| Agent.SearchStep | src/agent.rs:63-77 | one seed either passes the search on or decides it |
| Agent.SearchBatch | src/agent.rs:59-78 | the loop computes the batch search |
| Agent.BatchSeedGrowth | src/agent.rs:59-60 | the k-th seed is at least `start + k` |
| Agent.BatchSeedStrict | src/agent.rs:59-60 | the seeds of a batch are strictly increasing |
| Agent.SeedsPastBatch | src/agent.rs:79-87 | a seed of the class left after the batch belongs to the advanced request, and the advance then cannot overflow |
| Agent.SeedsOfAdvanced | src/agent.rs:79-87 | the advanced request's seeds are exactly the class's seeds that are not in the batch |
| Agent.BatchTiling | src/agent.rs:57-95 | the class's seeds split into the batch and the advanced request's seeds, or the batch is all of them when the advance overflows |
| Agent.StepAnswersOnce | src/agent.rs:48-102 | a message is answered exactly when there is a request, and the request is kept exactly when the answer is `Progress` |
| Agent.AllInvalidUnion | src/agent.rs:63-77 | "every seed invalid" distributes over a union of seed sets |
| Agent.BatchAnswers | src/agent.rs:59-77 | every checked seed of the batch is invalid exactly when the batch's seed set is all invalid |
| Agent.SweepDecided | src/agent.rs:63-77 | a decisive seed means the dialogue does not end "not found" and some seed of the class is not invalid |
| Agent.SweepContinues | src/agent.rs:85-88 | after progress the dialogue goes on with the advanced request for the same merchant |
| Agent.InvalidBatchTiles | src/agent.rs:79-95 | an exhausted batch is all invalid, so the whole class is all invalid exactly when the rest of it is |
| Agent.SweepEnds | src/agent.rs:89-92 | an exhausted batch whose advance overflows ends "not found" |
| Agent.SweepMeaning | src/agent.rs:47-102 | the worker answers "not found" exactly when every seed of its residue class checks invalid |
| Agent.Agent.constructor | src/agent.rs:42-44 | a new worker holds no request |
| Agent.Agent.HandleInput | src/agent.rs:48-102 | the in-place handler's new request and answer are the pure step |
| Agent.Agent.AnswerBatch | src/agent.rs:63-101 | a found seed gives `SeedFound(seed - date)` and clears the request, an error clears it, and an exhausted batch advances it or ends "not found" |
| App.Starts | src/app.rs:113-121 | `Run` sends one `Start` per worker |
| App.UpdateKeepsBounds | src/app.rs:73-171 | progress stays in `[0, PROGRESS_MAX]`, the stock keeps its slots and the worker count does not change |
| App.FieldUpdateOnlyFlips | src/app.rs:75-89 | a field update changes only that field, and it re-renders exactly when whether `Run` is enabled changes |
| App.RunStartsEveryWorker | src/app.rs:90-127 | `Run` while workers run does nothing; otherwise every worker `i` gets `start = i`, `add = worker count`, the date and the entered merchant, and the run state resets |
| App.NotFoundOnlyWhenAllDone | src/app.rs:139-153 | "not found" is recorded only from the last running worker's "not found" before any seed was found |
| App.FoundFromWorker | src/app.rs:133-138 | a newly recorded found seed is the one a worker reported, with the progress full and one fewer worker running |
| App.ErrorChangesNothing | src/app.rs:129-132 | a worker error leaves the page as it is and does not re-render |
| App.RunPartitionsSeeds | src/app.rs:111-121 | every 32-bit seed belongs to exactly one worker's class, namely `seed mod workerCount` |
| App.NotFoundCoversAllSeeds | src/app.rs:111-153 | when every worker ends "not found", every 32-bit seed checks invalid |
| App.App.constructor | src/app.rs:43-71 | the page starts empty with ten unset stock slots, nothing running and status `NotRun` |
| App.App.Update | src/app.rs:73-171 | the in-place update's new state, render flag and sent messages are the pure update |
| DateComponent.DateBounds | src/date_component.rs:76-80 | the reported day number is positive and fits an `i32` |
| DateComponent.DateRoundTrip | src/date_component.rs:77-79 | year, season and day are recovered from the day number |
| DateComponent.DateInjective | src/date_component.rs:77-79 | distinct dates give distinct day numbers |
| DateComponent.ParsedYear | src/date_component.rs:38-49 | an accepted year is positive |
| DateComponent.ParsedDay | src/date_component.rs:60-71 | an accepted day lies in 1..28 |
| DateComponent.ParsedYearAccepts | src/date_component.rs:38-49 | the decimal text of every positive `u16` year is accepted, with or without a leading `+` |
| DateComponent.ParsedDayAccepts | src/date_component.rs:60-71 | the decimal text of a `u8` day is accepted exactly when it lies in 1..28 |
| DateComponent.ReportedDate | src/date_component.rs:36-88 | a date is reported exactly when all three fields are set, and its parts are those fields |
| DateComponent.SeasonFocusOnly | src/date_component.rs:50-52 | focus changes only the focus flag and not the report |
| DateComponent.DateComponent.constructor | src/date_component.rs:27-34 | a new component has no fields set |
| DateComponent.DateComponent.Update | src/date_component.rs:36-88 | the in-place update is the pure step, and it reports the date of the new state |
| DateComponent.DateComponent.YearField | src/date_component.rs:38-49 | the year field parse is the accepted year |
| DateComponent.DateComponent.DayField | src/date_component.rs:60-71 | the day field parse is the accepted day |
| DateComponent.DateComponent.Emitted | src/date_component.rs:74-85 | the emitted value is the reported date |
| ItemComponent.IconOffset | src/item_component.rs:14 | the icon's sprite offset is a grid cell of 16 pixels within a 24-icon row |
| ItemComponent.IconOffsetRoundTrip | src/item_component.rs:14 | the item id is recovered from its sprite offset |
| ItemComponent.Lower | src/item_component.rs:128 | lowercasing keeps the length and lowercases each character |
| ItemComponent.NameOrderedTail | src/item_component.rs:126 | a tail of a name-ordered list is name-ordered |
| ItemComponent.Suggestions | src/item_component.rs:126-144 | at most `limit` suggestions, each a catalog item whose lowercased name starts with the lowercased text; fewer than `limit` means every match is listed |
| ItemComponent.Matching | src/item_component.rs:126-143 | the filtered list holds exactly the ids of the sorted list whose names match |
| ItemComponent.SuggestionsTakeMatching | src/item_component.rs:126-144 | the suggestions are exactly the first `limit` entries of the filtered list, as `filter_map` then `take` give |
| ItemComponent.SuggestionsDistinct | src/item_component.rs:126-144 | a sorted list without repeats gives suggestions without repeats |
| ItemComponent.SuggestionsFirstMatches | src/item_component.rs:126-144 | a match is left out only when every suggestion comes before it in the sorted list |
| ItemComponent.SuggestionsInNameOrder | src/item_component.rs:126-144 | the suggestions keep the catalog's name order |
| ItemComponent.CatalogSuggestions | src/item_component.rs:126-144 | on the generated catalog, the suggestions are the first five matches in name order, each once, and all matches when fewer than five |
| ItemComponent.ReportedItem | src/item_component.rs:90-104 | an item is reported exactly when id, price and quantity are all set, and it is made of them |
| ItemComponent.PickingResets | src/item_component.rs:70-75 | picking an item shows its name and clears price and quantity, so nothing is reported |
| ItemComponent.OnlyOwnField | src/item_component.rs:63-88 | focus and text messages change only their own field and not the report |
| ItemComponent.ItemComponent.constructor | src/item_component.rs:50-60 | a new component has nothing chosen |
| ItemComponent.ItemComponent.Update | src/item_component.rs:62-107 | the in-place update is the pure step, and it reports the item of the new state |
| ItemComponent.ItemComponent.PriceChoices | src/item_component.rs:161-166 | the price menu is empty without an item, and otherwise is the item's offered prices in ascending order |

## Left out

- Rendering (`view` functions, HTML, CSS classes, icons beyond their offset arithmetic), the platform component, console logging and the deploy script: they are presentation or tooling, not logic.
- Worker transport: bridges, `respond` and `send` are messages the model returns as values (`Agent.Step`'s answer, `App.UpdateOf`'s sent list). Which worker an answer comes from is the `worker` field. Concurrency and message interleaving are not modelled.
- `get_prng` and the PC generator (`src/prng.rs` beyond JKISS): the replay takes any `Generator<S>` whose range draw stays in range. Which generator a platform selects is a parameter, and the PC generator is not part of this model.
- JSON reading, file I/O and the `phf_codegen` output of `build.rs`: the catalog arrives as `(key, record)` string pairs. The generated static tables are the `Tables` value `BuildTables` returns.
- Catalog.LoadObjects: the build script panics on a malformed key or record. The model returns an error instead, naming no entry.
- Merchant.SeedValid: returns `bool`, not `Result<bool>`. The fast-exclude and object lookups cannot fail on tables that meet `TablesValid`, and the three range draws are non-empty. Its error paths are therefore not modelled.
- Merchant.SeedValid: requires the price times 5 of every id the cart can stock (below 790 and outside both filters) to fit a `u16` (`PricesFit`). The source's `u16` multiplication would otherwise overflow, which panics in a debug build and wraps in a release build.
- Merchant.PossiblePrices: requires the same `u16` bound, for the chosen item only, for the same reason.
- Agent.Agent.HandleInput: requires `1 <= add < 256`. That is what the coordinator sends: the worker count is a `u8`, and `add = 0` makes `step_by` panic. It keeps `add * 2^24` inside `u32`, so the source's unchecked multiplication is not modelled.
- Agent.Agent.HandleInput: the seed checker is a parameter (`Checker`), so `Sweep` and its lemmas hold for any checker, `SeedValid` on the JKISS generator included. Linking the two is not stated as a lemma.
- Agent.Agent.AnswerBatch: `seed as i32 - date` wraps modulo 2^32 (`WrapI32`), as in a release build. The debug-build overflow panic is not modelled.
- App.App.constructor: the worker count (`hardware_concurrency() as u8`, or 4 without a window) is a constructor parameter.
- App.App.Update: requires what the source's `unwrap`s, array index and `u8` decrements demand (`Demands`). The panics those would raise are not modelled.
- ItemComponent.Lower: lowercases ASCII letters only. Rust's `to_lowercase` also folds non-ASCII letters.
- ItemComponent.ItemComponent.PriceChoices: requires the chosen item to be in the catalog and its prices to fit a `u16`. The `possible_prices(...).unwrap()` panic is not modelled.
