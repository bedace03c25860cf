# mikado, modelled in Dafny

mikado is a hook DLL for SOUND VOLTEX. It intercepts the game's
`property_destroy` call, and when the property is a score save
(`sv6_save_m`) or a profile save (`sv6_save`) it builds an import for the
Tachi score tracker. It also rewrites the game's `music` score tree, merging
the player's Tachi personal bests into the local "cloud" score records.

This project models the core of that behaviour and proves properties of it:

- **Score record** (`CloudTypes`): the chart key `(song id, difficulty)` and
  the 21-field record. Fields 17, 18 and 19 are the cloud score, clear lamp
  and grade.
- **Serialiser** (`CloudExt`): the record map written back as `info/param`
  rows. Fields 0 and 1 are stamped from the key.
- **Reconciler** (`Cloudlink`):
  - builds the `chartID -> chart` table;
  - parses the local rows into a map;
  - merges every remote personal best into the map, with the lamp
    downgrade and the grade cap;
  - returns the `response/game/music` tree.

  The pure left folds `BuildChartTable`, `ParseRows` and `MergePbs` specify
  it. The imperative `ProcessPbs` runs the two loops over a mutable map
  (`ParseLocalRows`, `MergeRemotePbs`), each proved to compute its fold.
- **Enumerations and import payload** (`Tachi`): skill level, lamp and
  difficulty, each with a discriminant, a total conversion from `u32` with a
  default variant, and a wire label. Also the default import metadata.
- **Capability gate** (`GameProps`): the feature flags derived from the
  game's version fingerprint, the prioritised "not supported" verdict, and
  both text forms.
- **Submission builders**:
  - `ScoresHandler`: the guest, card and whitelist gates, then one import
    score per track.
  - `ClassUpdate`: the whitelist gate on the save's own card, then a class
    import. `process_save` and `process_course` have the same body and are
    modelled by this one function.
- **Hook** (`Hook`): a method over a `HostProperty` object whose answers are
  fixed up front (`Replies`). The property's flags and the trace of what the
  hook did are the state. `PropertyDestroyHook` is proved equal to the pure
  trace `HookEvents`. Lemmas then state the source's promises:
  - the original function is called once, and last;
  - the flags are restored;
  - only the selected methods are processed;
  - the UTF-8 checks never change the decision.

Helper modules:

- `Wrappers`: `Option` and `Result`.
- `Ints`: the fixed-width integers, and the `as u8` / `as u32` truncations.
- `Decimal`: `u64::to_string` and `u64::from_str`.
- `Utf8`: `str::from_utf8` well-formedness per Table 3-7 of the Unicode
  Standard, and NUL removal.
- `Kbin`: the decoded property tree.
- `Seqs`: enumerations of a key set.
- `Config`: the `[general]` defaults, the timeout cap and the whitelist gate.
- `Game`: the decoded game payloads.
- `Submission`: what a builder decides.

Errors in the reconciliation are fatal:

- A personal best whose chart id is not in the table aborts the whole
  reconciliation with "Could not find chart"; it is not skipped.
- A malformed chart entry also aborts the whole reconciliation, and so does
  a malformed local row.

Some inputs are abstracted into parameters:

- The remote lamp and difficulty labels (`TachiLamp`, `TachiDifficulty`)
  are given by their numeric codes. The remote lamp is
  `MaxxiveClear(code) | OtherLamp(code) | UnknownLamp`, and the remote
  difficulty is `KnownDifficulty(code) | UnknownDifficulty`.
- The current card (`helpers::get_current_card_id`) is a parameter.
- The card whitelist is a list-of-strings parameter.

The score handler tests `ref_id.is_none()` and fills `ex_score` with an
`Option`. The model follows the handler: `GameScores.refId` and
`HitMeta.exScore` are options.

## Model

| member | source | states |
|---|---|---|
| CloudTypes.ChartEquality | src/types/cloudlink.rs:3-7 | chart keys are equal exactly when song id and difficulty are equal |
| CloudTypes.DefaultScore | src/types/cloudlink.rs:9-12 | the default record has all 21 fields zero |
| CloudTypes.FromCloud | src/types/cloudlink.rs:15-22 | score, clear and grade sit at 17, 18 and 19; every other field is 0 |
| CloudTypes.FromSlice | src/types/cloudlink.rs:24-32 | fails exactly when the slice is shorter than 21; otherwise the record is the first 21 values, the rest ignored |
| CloudTypes.WithCloudScore | src/types/cloudlink.rs:34-36 | writing the cloud score changes field 17 only |
| CloudTypes.WithCloudClear | src/types/cloudlink.rs:38-40 | writing the cloud clear changes field 18 only |
| CloudTypes.WithCloudGrade | src/types/cloudlink.rs:42-44 | writing the cloud grade changes field 19 only |
| CloudTypes.ToProperty | src/types/cloudlink.rs:46-48 | the vector always has 21 values, the record's fields |
| CloudTypes.ToPropertyFromSlice | src/types/cloudlink.rs:24-48 | writing out a record read from a slice gives the slice's first 21 values |
| CloudTypes.FromSliceToProperty | src/types/cloudlink.rs:24-48 | reading back a written-out record gives the same record |
| CloudExt.Row | src/cloudlink/ext.rs:13-15 | an emitted row has 21 values: field 0 is the song id, field 1 the difficulty, fields 2 to 20 the record's |
| CloudExt.ToProperties | src/cloudlink/ext.rs:10-26 | one `info` node per listed key, in listing order, each holding that key's row |
| CloudExt.EmittedRowShape | src/cloudlink/ext.rs:17-22 | each emitted node is `info` with a single `param` child holding a 21-value U32 array stamped from its key |
| CloudExt.InfoNodeInjective | src/cloudlink/ext.rs:13-22 | different keys give different nodes, so no two entries collapse |
| CloudExt.OneRowPerEntry | src/cloudlink/ext.rs:10-26 | exactly one node per map entry: as many nodes as entries, all distinct, every entry's node present, no other node |
| CloudExt.OrderIrrelevant | src/cloudlink/ext.rs:11 | any two iteration orders emit the same multiset of nodes |
| Ints.AsU8 | src/cloudlink/mod.rs:72 | `as u8` keeps a value below 256 that differs from the input by a multiple of 256 |
| Ints.AsU32 | src/cloudlink/mod.rs:43-45 | `as u32` keeps a value below 2^32 that differs from the input by a multiple of 2^32 |
| Cloudlink.BuildChartTable | src/cloudlink/mod.rs:37-59 | a failed table is always caused by some malformed entry and carries its error; a built table has at most one id per entry |
| Cloudlink.DifficultyKey | src/cloudlink/mod.rs:46-50 | an unparsable difficulty becomes 3; otherwise it is the difficulty's value truncated to 8 bits |
| Cloudlink.ChartTableSucceeds | src/cloudlink/mod.rs:37-59 | the table is built exactly when every chart entry has a chart id and an in-game id |
| Cloudlink.ChartTableFirstError | src/cloudlink/mod.rs:39-45 | otherwise the whole call fails with the error of the first malformed entry; no partial table |
| Cloudlink.ChartTableKeys | src/cloudlink/mod.rs:51-59 | an id is in the table exactly when some entry carries it |
| Cloudlink.ChartTableLastWins | src/cloudlink/mod.rs:43-59 | an id maps to `(in-game id as u32, difficulty key)` of the last entry carrying it |
| Cloudlink.ChartTableFailurePersists | src/cloudlink/mod.rs:59 | an error in a prefix of the chart list is the error of the whole list |
| Cloudlink.ParseRow | src/cloudlink/mod.rs:63-78 | no child gives "Could not find param node", a child without value "Could not find value in param node", a value of another type skips the row, a U32 array shorter than 21 gives "Could not parse score", each exactly; a parsed row's key is `(value[0], value[1] as u8)` and its record is the first 21 values |
| Cloudlink.ParseRowAsWritten | src/cloudlink/mod.rs:67-77 | as written, the row parser panics exactly on U32 arrays shorter than two values |
| Cloudlink.ParseRowCorrection | src/cloudlink/mod.rs:67-77 | the corrected parser agrees with the code on every other row; on short arrays it reports "Could not parse score" |
| Cloudlink.EmptyRowPanics | src/cloudlink/mod.rs:71 | an `info` row with an empty `param` array panics as written, and fails with the score error when corrected |
| Cloudlink.ParseRows | src/cloudlink/mod.rs:61-80 | a failure is always some row's own error; the local map has at most one key per row |
| Cloudlink.ParseRowsSucceeds | src/cloudlink/mod.rs:62-80 | the local map is built exactly when every row parses; a row with a value of another type is skipped |
| Cloudlink.ParseRowsFirstError | src/cloudlink/mod.rs:63-77 | a row without children, without a value or with fewer than 21 values fails the call with the first such row's error |
| Cloudlink.ParseRowsKeys | src/cloudlink/mod.rs:62-80 | a key is in the local map exactly when some row parses to it |
| Cloudlink.ParseRowsLastWins | src/cloudlink/mod.rs:78 | a later row with the same key replaces an earlier one |
| Cloudlink.ParseRowsFailurePersists | src/cloudlink/mod.rs:62-80 | an error in a prefix of the rows is the error of all the rows |
| Cloudlink.ParseRowsOfToProperties | src/cloudlink/ext.rs:10-26 | the serialised rows parse back to the map they came from, with fields 0 and 1 stamped from the key |
| Cloudlink.LampValue | src/cloudlink/mod.rs:92-106 | MAXXIVE CLEAR becomes EXCESSIVE CLEAR (3) unless the game is known to support it; other lamps keep their value; an unparsable lamp gives 0 |
| Cloudlink.LocalGrade | src/cloudlink/mod.rs:107-113 | the local grade is the remote grade plus one, capped at 10 |
| Cloudlink.ApplyCloud | src/cloudlink/mod.rs:115-127 | an existing record changes only fields 17 to 19, to score, lamp and grade; a missing one is created from the triplet with every other field 0; no other chart changes |
| Cloudlink.MergePb | src/cloudlink/mod.rs:83-127 | one personal best fails exactly when it does not resolve, with the first missing item's error in the order id, chart, score, grade; otherwise the keys grow by its chart only |
| Cloudlink.MergePbs | src/cloudlink/mod.rs:82-128 | a successful merge keeps every local key and adds at most one key per personal best |
| Cloudlink.MergePbsSucceeds | src/cloudlink/mod.rs:82-128 | the merge succeeds exactly when every personal best has a chart id known to the table, a score and a grade |
| Cloudlink.MergePbsFirstError | src/cloudlink/mod.rs:83-111 | the first unresolved personal best aborts the merge with its error; an unknown chart gives "Could not find chart" and is never skipped |
| Cloudlink.MergePbsPreserves | src/cloudlink/mod.rs:115-127 | the merged keys are the local keys plus the targeted charts; untargeted records are unchanged; fields outside 17 to 19 are local or 0 |
| Cloudlink.MergePbsLastWins | src/cloudlink/mod.rs:115-127 | the last personal best on a chart sets its score, lamp (through `u8` when it created the record) and grade |
| Cloudlink.MergePbsFailurePersists | src/cloudlink/mod.rs:82-128 | an error in a prefix of the personal bests is the error of the whole list |
| Cloudlink.Reconcile | src/cloudlink/mod.rs:37-128 | the reconciliation succeeds exactly when the chart table builds, the local rows parse and every personal best resolves; it keeps every local chart and has at most one chart per row and per personal best |
| Cloudlink.BuildResponseBase | src/cloudlink/mod.rs:14-22 | the tree is `response`, and its `game/music` node holds exactly the rows |
| Cloudlink.ParseLocalRows | src/cloudlink/mod.rs:61-80 | the loop over the local rows computes the local map, or the first row's error |
| Cloudlink.MergeRemotePbs | src/cloudlink/mod.rs:82-128 | the loop over the personal bests computes the merge, or the first error |
| Cloudlink.StoreCloud | src/cloudlink/mod.rs:115-127 | the in-place entry update computes `ApplyCloud`: an occupied entry gets the triplet, a vacant one a `from_cloud` record |
| Cloudlink.ListKeys | src/cloudlink/ext.rs:11 | the map's iteration lists every key exactly once |
| Cloudlink.ProcessPbs | src/cloudlink/mod.rs:37-133 | the result is the first error, or the response tree holding one row per reconciled chart in some listing of the keys |
| Cloudlink.ExampleExistingRecord | src/cloudlink/mod.rs:115-122 | a local record on chart (10, NOV) with a CLEAR best of 1234567 at grade 3 gets 1234567, 2, 4 in fields 17 to 19 and nothing else changes |
| Cloudlink.ExampleMaxxiveDowngrade | src/cloudlink/mod.rs:92-126 | a MAXXIVE CLEAR best on a game without maxxive support creates a record with lamp 3 and grade capped at 10, on difficulty 3 when the label does not parse |
| Tachi.SkillLevelCode | src/types/tachi.rs:35-63 | skill level discriminants are 1 to 12 |
| Tachi.SkillLevelFrom | src/types/tachi.rs:35-40 | 1 to 12 give the variant with that discriminant; anything else gives the first dan |
| Tachi.SkillLevelRoundTrip | src/types/tachi.rs:35-63 | converting a variant's discriminant back gives the variant |
| Tachi.SkillLevelLabelInjective | src/types/tachi.rs:39-61 | different skill levels have different wire labels |
| Tachi.LampCode | src/types/tachi.rs:80-94 | lamp discriminants are 1 to 5 |
| Tachi.LampFrom | src/types/tachi.rs:80-85 | 1 to 5 give the matching lamp; anything else gives FAILED |
| Tachi.LampRoundTrip | src/types/tachi.rs:80-94 | converting a lamp's discriminant back gives the lamp |
| Tachi.LampLabelInjective | src/types/tachi.rs:84-92 | different lamps have different wire labels |
| Tachi.DifficultyCode | src/types/tachi.rs:96-110 | difficulty discriminants are 0 to 4 |
| Tachi.DifficultyFrom | src/types/tachi.rs:96-101 | 0 to 4 give the matching difficulty; anything else gives NOV |
| Tachi.DifficultyRoundTrip | src/types/tachi.rs:96-110 | converting a difficulty's discriminant back gives the difficulty |
| Tachi.DifficultyLabelInjective | src/types/tachi.rs:100-108 | different difficulties have different wire labels |
| Tachi.DefaultMeta | src/types/tachi.rs:20-28 | the default metadata is game `sdvx`, play type `Single`, service `Mikado` |
| GameProps.FromFingerprint | src/types/mod.rs:29-56 | a profile exists exactly when all five reads succeed; an unparsable build becomes 0; the flags are derived from spec and build |
| GameProps.UltimateImpliesMaxxive | src/types/mod.rs:43-44 | ultimate support implies maxxive support |
| GameProps.UnparsableBuildIsTooOld | src/types/mod.rs:38-40 | an unparsable build on a KFC profile outside O and X is reported as too old with build 0 |
| GameProps.IsNotSupported | src/types/mod.rs:90-100 | model first, then region O/X, then age; no verdict exactly when the model is KFC, the region is neither O nor X, and the build is at least 2022083000 |
| GameProps.Display | src/types/mod.rs:103-119 | the text starts with `model:dest:spec:rev:ext`, and its length is the header's plus 11, 18 and 19 for each flag that is set |
| GameProps.DisplayDeterminesFlags | src/types/mod.rs:103-119 | two profiles with the same header display the same text only when all three flags agree |
| GameProps.DisplayShowsValkyrie | src/types/mod.rs:109-111 | right after the header, ` (Valkyrie)` appears exactly when the profile is a Valkyrie model |
| GameProps.DisplayShowsMaxxive | src/types/mod.rs:112-114 | after the header and any Valkyrie suffix, ` (Maxxive support)` appears exactly when maxxive support is set |
| GameProps.SuffixesInjective | src/types/mod.rs:109-117 | the suffix text determines the three flags |
| GameProps.DisplayShowsUltimate | src/types/mod.rs:103-119 | the text ends with the Ultimate suffix exactly when ultimate support is set |
| GameProps.ReasonMessage | src/types/mod.rs:122-132 | the three verdict messages differ at their sixth character |
| GameProps.ReasonMessageInjective | src/types/mod.rs:122-132 | different verdicts print different messages |
| Decimal.ParseU64OfNatToString | src/types/mod.rs:38-40 | parsing a printed number gives back the number |
| Decimal.NatToStringInjective | src/handlers/scores.rs:46 | different numbers print differently |
| Config.ReadGeneral | src/configuration.rs:28-46 | a missing `enable` is on, a missing `export_class` or `inject_cloud_pbs` is off, a missing `timeout` is 3000 ms; a present key is taken as written |
| Config.DefaultRequestTimeout | src/helpers.rs:15-16 | with no timeout configured, requests use 3000 ms |
| Config.EffectiveTimeout | src/helpers.rs:15-16 | the timeout used is the configured one, capped at 10000 ms |
| ScoresHandler.TrackList | src/handlers/scores.rs:30-33 | a single track becomes a one-element list; a list is kept as it is |
| ScoresHandler.ToImportScore | src/handlers/scores.rs:42-65 | the identifier is the music id's canonical decimal text (digits only, no leading zero) and reads back as the music id; the score, counters, fast (`judge[0]`), slow (`judge[6]`) and max combo are copied; lamp and difficulty come from the conversions; the match type is `sdvxInGameID`; the ex score is present exactly when non-zero |
| ScoresHandler.ImportScores | src/handlers/scores.rs:40-66 | exactly one import score per track, in track order, all with the same time |
| ScoresHandler.ProcessScores | src/handlers/scores.rs:8-72 | a guest play, a missing card or a card outside a non-empty whitelist skips the submission; otherwise the import has default meta, no classes and the tracks' scores |
| ScoresHandler.EmptyWhitelistAdmitsAll | src/handlers/scores.rs:14 | with an empty whitelist every non-guest play with a card is submitted |
| ScoresHandler.SubmittedScoresFollowTracks | src/handlers/scores.rs:40-66 | the i-th submitted score belongs to the i-th track and carries the shared time |
| ScoresHandler.IdentifiersSeparateSongs | src/handlers/scores.rs:46 | tracks of different songs get different identifiers |
| ScoresHandler.SingleTrackIsOneElementList | src/handlers/scores.rs:30-33 | a single track and the one-element list of it submit the same import |
| ClassUpdate.ProcessClassUpdate | src/handlers/save.rs:7-26 | the gate is the save's own card: outside a non-empty whitelist nothing is sent; otherwise the import has default meta, the dan from the skill level and no scores; `src/save.rs:7-26` (the course handler) is the same code and the same member models it |
| ClassUpdate.EmptyWhitelistSends | src/handlers/save.rs:9 | an empty whitelist always proceeds to the import |
| ClassUpdate.DanCarriesSkillLevel | src/handlers/save.rs:14-20 | a skill level from 1 to 12 is carried exactly as the dan; any other becomes the first dan |
| Utf8.AsciiIsValid | src/mikado.rs:143 | ASCII bytes, NUL included, always pass the UTF-8 check |
| Utf8.RemoveNul | src/mikado.rs:174 | removing NUL characters leaves no zero byte and keeps every other byte with its multiplicity |
| Utf8.RemoveNulAppend | src/mikado.rs:174 | NUL removal works piecewise on a concatenation, so the kept bytes stay in order |
| Utf8.RemoveNulByte | src/mikado.rs:174 | a single byte is dropped exactly when it is NUL |
| Utf8.RemoveNulAscii | src/mikado.rs:167-175 | if the NUL-free text is ASCII, so was the field |
| Hook.Route | src/mikado.rs:208-232 | `sv6_save_m` goes to score processing exactly for a score save, and `sv6_save` to save processing exactly for a profile save; the other kind of save is refused and an undecodable property is only reported, each exactly |
| Hook.HookEvents | src/mikado.rs:126-234 | the trace of a non-null property has one to four events and ends with the original call; it starts by clearing the error exactly when the game node is missing, and by raising the flags exactly when it is longer than two events |
| Hook.SelectedEvents | src/mikado.rs:181-234 | after selection the trace raises then restores the flags and ends with the original call; it holds a processing step exactly when the size and write succeed and the payload is well-formed UTF-8 |
| Hook.HostProperty.Search | src/mikado.rs:130 | the search finds `/call/game` exactly when the host has it |
| Hook.HostProperty.ClearError | src/mikado.rs:132 | clearing the error leaves the flags and records the clear |
| Hook.HostProperty.NodeName | src/mikado.rs:136-137 | the node name is written over the start of the buffer and the host's status is returned |
| Hook.HostProperty.NodeRefer | src/mikado.rs:155-162 | the `method@` attribute is written over the start of the same buffer and the host's status is returned |
| Hook.HostProperty.QuerySize | src/mikado.rs:183 | the serialised size is the host's answer |
| Hook.HostProperty.MemWrite | src/mikado.rs:189-190 | the serialised property is written over the zeroed buffer and the host's status is returned |
| Hook.HostProperty.SetFlag | src/mikado.rs:181 | setting flags lowers the cleared bits, raises the set bits, and records the change |
| Hook.HostProperty.CallOriginal | src/mikado.rs:234 | the original function's result is returned, and the call is recorded |
| Hook.PropertyDestroyHook | src/mikado.rs:124-235 | a null property gives 0 and nothing else; otherwise the hook returns the original's result, its trace is `HookEvents`, and the flags are what the trace leaves |
| Hook.SerialiseAndProcess | src/mikado.rs:181-234 | after selection, the property is serialised with 0x800 raised and 0x008 lowered, the flags are restored on every path, and the original is called |
| Hook.DelegatesOnceAtEnd | src/mikado.rs:126-234 | every call on a non-null property calls the original exactly once, as its last action |
| Hook.FlagsRestored | src/mikado.rs:181-193 | the flags are raised exactly when they are restored, and end with 0x008 up, 0x800 down and every other bit as before |
| Hook.MethodCheckIsBytewise | src/mikado.rs:167-179 | the method is selected exactly when its 11 bytes, NULs removed, are `sv6_save_m`, or `sv6_save` with class export on; the UTF-8 check never changes that |
| Hook.NameCheckIsBytewise | src/mikado.rs:142-153 | the name passes exactly when its first 4 bytes are `game` |
| Hook.ProcessedExactlyWhenSelected | src/mikado.rs:130-207 | processing happens exactly when the game node exists, its name is `game`, its method is selected, and the property serialises to well-formed UTF-8 |
| Hook.UnselectedCallsDelegate | src/mikado.rs:136-179 | a node not named `game` or a method not selected goes straight to the original, with no flag change |
| Hook.ProfileSaveNeedsExportClass | src/mikado.rs:177 | without class export a profile save is never processed |
| Hook.MissingGameNodeClearsError | src/mikado.rs:130-134 | without a `/call/game` node the hook clears the error and calls the original |

## Left out

- HTTP and remote access are not modelled: `request`, `call_tachi`, `request_tachi`, `send_import`, and the status check and detour set-up of `hook_init` and `hook_release`. The reconciler receives the remote `charts` and `pbs` lists already read from the JSON body. The builders stop at the import they would send, so network errors are not modelled. The hook only logs such errors.
- Codecs are not modelled: JSON and kbin encoding and decoding. The hook's JSON decoder is the parameter `Env.decode`. The reconciler works on already-decoded trees and already-extracted fields.
- Host FFI is not modelled. The host's answers are fixed per property (`Replies`), and `src/sys.rs` is not part of this model.
- `GameProps.FromFingerprint`: the five node reads of `from_ea3_node` are given as their results.
- Logging, reading the configuration file, the lazy statics, URL building and `build.rs` are not modelled. The configuration values are parameters.
- The clock and floating point are not modelled. `time_achieved` is a parameter, so the clock error of `process_scores` is not modelled. The `gauge` (a float) is not modelled.
- Cloudlink.LocalGrade: does not model the u64 overflow of `grade + 1` when the remote grade is 2^64-1 (a panic or a wrap to 0, depending on the build profile).
- Cloudlink.ProcessPbs: the map's iteration order is modelled as some enumeration of its keys, chosen by `ListKeys`. `CloudExt.OrderIrrelevant` shows that the emitted rows do not depend on that choice.
- CloudTypes: the `cloud_*_mut` writes through a mutable reference are modelled as value updates of the record, because the record is a copied value in the source's map.
- ScoresHandler.ProcessScores: the card is only logged, so it is not part of the import.
- Hook.PropertyDestroyHook: `debug!` and `error!` logging and the `unreachable!` arm are not modelled. That arm cannot be reached, because the dispatch lets only the two methods through.

## Findings

| source | as written | input that shows it | evidently intended | confidence | as-written member | corrected member |
|---|---|---|---|---|---|---|
| src/cloudlink/mod.rs:71-77 | `value[0]` and `value[1]` are read before `Score::from_slice` checks the length, so a local `param` U32 array with fewer than two values panics inside `process_pbs` | an `info` row whose `param` child holds an empty U32 array | the row fails with "Could not parse score", like any row shorter than 21 values | not executed; the index out of bounds follows from the code | Cloudlink.ParseRowAsWritten | Cloudlink.ParseRow |
