# the-anna-project/context in Dafny

A model of the Go package `github.com/the-anna-project/context` and its field
packages. A context is a marshallable, string-keyed store of values. Each field
package owns one key (or one key plus a backup key). It offers a typed
`FromContext` read and a `NewContext` write, often `Disable`/`Restore`/`IsDisabled`,
and a reducer `NewContextFromContexts` that merges one field from a list of
source contexts into a target context. The reducers come in two kinds:

- equality reducers: every source must agree with the first, or the merge fails
  with an invalid-execution error;
- concatenation reducers: every source's list is appended, in source order.

`merge/merge.go` runs nine reducers in a fixed order on one shared target.
`NewFromContexts` in `context.go` is the older, strict merge into a brand-new
context. Every scalar field must be present in every source and equal to the
first source's value, and the two source lists are concatenated.

Dafny layout:

- `values.dfy` (`Values`): errors, `Result`/`Option`, Go string slices
  (`Strings`, which keeps nil apart from empty), every field package's value
  type, and the dynamic value `Val` a storage slot holds.
- `container.dfy` (`Container`): `Config`, `DefaultConfig`, `New`, and the class
  `Context` with the `storage` map, `SetValue`, `DeleteValue` and `Value`.
- `reduce.dfy` (`Reduce`): the equality merge over the values read from the
  sources, and Go's `append` folded over a list of slices.
- One file per field package with disable/restore and a reducer:
  - `first_behaviour.dfy`
  - `current_source.dfy`
  - `current_destination.dfy`
  - `current_trial.dfy`, which also holds the scenarios of its test file
  - `current_clg_tree.dfy`
  - `current_expectation.dfy`
- One file per simple accessor:
  - `expectation.dfy`
  - `current_behaviour_input_types.dfy`
  - `current_behaviour_name.dfy`
  - `first_behaviour_name.dfy`
  - `source_names.dfy`
  - `destination_id.dfy`
  - `source_ids.dfy`
- `other_scalar_fields.dfy` and `other_reducers.dfy`: stand-ins for the field
  packages that the two merges call but whose source is not part of this model.
- `merge.dfy` (`MergeChain`) and `legacy_merge.dfy` (`LegacyMerge`).

`SetValue` and `DeleteValue` are methods of the class `Context`. The field
packages' `NewContext`, `Disable`, `Restore` and reducers, and the two merges,
are module-level methods that take a `Context` and change its `storage` in
place. Each one states its new storage as a function of the old one, such as
`Stored`, `Disabled`, `Restored` or `Run`. The properties are proved as lemmas
about those functions. Each merge loop is a read-only method proved equal to a
specification function (`Reference`, `Gather`, `Agreed`, `Collected`,
`ExpectationAgreed`).

`Restore` undoes `Disable` only for a field that is present. `Disable` on an
absent field backs up the zero value (nil for the expectation), so a later
`Restore` leaves the field present with the zero value (the `DisableTwice`,
`RestoreWithoutDisable` and `DisableAbsent` lemmas). The model follows the
code here; a law that restore always undoes disable is not claimed.

The foreign `expectation.Expectation` interface is an opaque handle. Its
`Equals` method is a parameter `eq` of type `EqualsFn`. The legacy merge calls
`Equals` on whatever it reads: when a source has no expectation, Go calls the
method on a nil interface and panics. `LegacyMerge.NewFromContexts` follows the
code as written and returns the error `NilDereference` there. The comment above
that loop promises something else; see "## Findings".

## Model

| member | source | states |
|---|---|---|
| Container.DefaultConfig | context.go:36-43 | The default configuration carries a native context, so `New` on it cannot fail |
| Container.New | context.go:46-61 | A nil native context is an invalid-config error and yields no context; otherwise a fresh context with empty storage around the given native context |
| Container.Context.constructor | context.go:52-58 | A new context starts with empty storage and keeps its native context |
| Container.Context.SetValue | context.go:318-320 | The key now holds the value, replacing any earlier one; every other key reads as before |
| Container.Context.DeleteValue | spec.go:25 | The key is gone and reads as nil; every other key reads as before; deleting an absent key changes nothing |
| Container.Context.Value | context.go:322-329 | The stored value, or nil for a key never set |
| Values.Append | context.go:232 | Go's `append`: the elements are joined; the result is nil only when the first slice is nil and nothing is appended |
| Reduce.EqualityMergeAgreement | first/behaviour/context.go:102-118 | The equality merge succeeds exactly when all values read from the sources are pairwise equal, and fails only with invalid-execution |
| Reduce.EqualityMergeValue | first/behaviour/context.go:103-115 | A successful equality merge yields the value every source carries, and the zero value for no sources |
| Reduce.FlattenSnoc | current/source/context.go:91-95 | Flattening a list of slices with one more at the end appends that slice's elements |
| Reduce.ConcatAllItems | current/source/context.go:91-95 | Appending the sources' slices one by one yields exactly their elements in source order |
| Reduce.ConcatAllNil | current/source/context.go:91-95 | The appended result stays nil exactly when no source contributes an element |
| Reduce.ConcatAllSnoc | current/source/context.go:93-94 | One more loop turn appends one more source's slice to the accumulator |
| Reduce.FlattenSkipsEmpty | current/source/context.go:93 | An empty slice anywhere among the sources does not change the flattened elements |
| Reduce.StringsEqual | first/behaviour/context.go:37 | Two slices with the same elements and the same nil-ness are the same Go slice value |
| Reduce.NoElementsSkip | current/source/context.go:93 | An empty slice anywhere does not change whether the sources contribute any element |
| Reduce.ConcatAllSkipsEmpty | current/source/context.go:93 | An empty slice anywhere among the sources does not change the appended result, nil-ness included |
| FirstBehaviourContext.Equals | first/behaviour/context.go:31-45 | Holds exactly when ID, input types (as Go slices) and name all match, which is value equality |
| FirstBehaviourContext.FromContext | first/behaviour/context.go:69-73 | True with the stored value exactly when the key holds a first-behaviour value; otherwise the zero value and false |
| FirstBehaviourContext.Stored | first/behaviour/context.go:92-97 | After `NewContext` the value reads back present, the zero value included; no other key changes |
| FirstBehaviourContext.Disabled | first/behaviour/context.go:60-67 | After `Disable` the primary key is gone and the backup holds the value read before (zero if absent); no other key changes |
| FirstBehaviourContext.Restored | first/behaviour/context.go:120-127 | After `Restore` the backup (zero if absent) reads back present and the backup key is gone; no other key changes |
| FirstBehaviourContext.NewContext | first/behaviour/context.go:92-97 | Writes the value into the given context in place and returns that context |
| FirstBehaviourContext.Disable | first/behaviour/context.go:60-67 | Backs up and removes the value in place and returns the same context |
| FirstBehaviourContext.IsDisabled | first/behaviour/context.go:75-90 | Disabled exactly when the primary key holds no first behaviour and the backup key holds one |
| FirstBehaviourContext.Restore | first/behaviour/context.go:120-127 | Moves the backup back in place and returns the same context |
| FirstBehaviourContext.Column | first/behaviour/context.go:105-106 | Element `i` is what source `i`'s read yields, zero where the field is absent |
| FirstBehaviourContext.Reference | first/behaviour/context.go:103-113 | The loop yields the first source's value when every source equals it, and invalid-execution at a mismatch |
| FirstBehaviourContext.NewContextFromContexts | first/behaviour/context.go:99-118 | On a mismatch the error is returned and the target is untouched; otherwise the merged value is written into the target |
| FirstBehaviourContext.NeverSet | first/behaviour/context.go:69-90 | A field never set reads as zero and false and is not disabled |
| FirstBehaviourContext.StoredReadsBack | first/behaviour/context.go:92-97 | A written value reads back, the zero value included, and the field is not disabled |
| FirstBehaviourContext.DisableThenRestore | first/behaviour/context.go:60-127 | `Disable` hides the field and sets `IsDisabled`; `Restore` then brings the value back and clears `IsDisabled`; other keys are untouched |
| FirstBehaviourContext.DisableTwice | first/behaviour/context.go:60-67 | A second `Disable` backs up the zero value, so a following `Restore` yields zero |
| FirstBehaviourContext.MergeOutcome | first/behaviour/context.go:99-118 | No sources give zero; success exactly when every source equals the first, yielding the first's value; otherwise invalid-execution |
| FirstBehaviourContext.MergedReadsOwnKey | first/behaviour/context.go:105-106 | The merge depends only on the sources' own key |
| CurrentSourceContext.Equals | current/source/context.go:25-34 | Holds exactly when IDs and names match as Go slices |
| CurrentSourceContext.FromContext | current/source/context.go:58-61 | True with the stored value exactly when the key holds a source value; otherwise both lists nil and false |
| CurrentSourceContext.Stored | current/source/context.go:82-85 | After `NewContext` the value reads back present; no other key changes |
| CurrentSourceContext.Disabled | current/source/context.go:50-55 | After `Disable` the primary key is gone and the backup holds the old value; no other key changes |
| CurrentSourceContext.Restored | current/source/context.go:115-120 | After `Restore` the backup reads back present and the backup key is gone |
| CurrentSourceContext.IsDisabled | current/source/context.go:65-78 | Disabled exactly when the primary key holds no source and the backup key holds one |
| CurrentSourceContext.NewContext | current/source/context.go:82-85 | Writes in place and returns the same context |
| CurrentSourceContext.Disable | current/source/context.go:50-55 | Backs up and removes in place and returns the same context |
| CurrentSourceContext.Restore | current/source/context.go:115-120 | Restores in place and returns the same context |
| CurrentSourceContext.Column | current/source/context.go:92-100 | Element `i` is source `i`'s ID list or name list, nil where the field is absent |
| CurrentSourceContext.Gather | current/source/context.go:91-101 | Each accumulation loop yields the sources' lists appended in order, starting from nil |
| CurrentSourceContext.NewContextFromContexts | current/source/context.go:90-111 | Never fails; overwrites the target with the concatenated IDs and names |
| CurrentSourceContext.DisableThenRestore | current/source/context.go:50-120 | `Restore` after `Disable` brings the value back and clears `IsDisabled` |
| CurrentSourceContext.MergeConcatenates | current/source/context.go:91-108 | The merged IDs and names are the sources' elements in source order, written over whatever the target held |
| CurrentSourceContext.AbsentSourceContributesNothing | current/source/context.go:91-101 | A source without the field, wherever it stands, changes nothing in the merge |
| CurrentSourceContext.ColumnsSplit | current/source/context.go:92-100 | The lists of two runs of sources are the lists of each run, one after the other |
| CurrentSourceContext.MergedReadsOwnKey | current/source/context.go:92-100 | The merge depends only on the sources' own key |
| CurrentDestinationContext.Equals | current/destination/context.go:20-29 | Holds exactly when ID and name match |
| CurrentDestinationContext.FromContext | current/destination/context.go:55-58 | True with the stored value exactly when the key holds a destination value; otherwise zero and false |
| CurrentDestinationContext.Stored | current/destination/context.go:79-82 | After `NewContext` the value reads back present; no other key changes |
| CurrentDestinationContext.Disabled | current/destination/context.go:47-52 | After `Disable` the primary key is deleted and the backup holds the old value |
| CurrentDestinationContext.IsDisabled | current/destination/context.go:62-75 | Disabled exactly when the primary key holds no destination and the backup key holds one |
| CurrentDestinationContext.Restored | current/destination/context.go:107-112 | After `Restore` the backup is in the primary key and the backup key is deleted |
| CurrentDestinationContext.NewContext | current/destination/context.go:79-82 | Writes in place and returns the same context |
| CurrentDestinationContext.Disable | current/destination/context.go:47-52 | Backs up and deletes in place and returns the same context |
| CurrentDestinationContext.Restore | current/destination/context.go:107-112 | Restores in place and returns the same context |
| CurrentDestinationContext.Column | current/destination/context.go:90-91 | Element `i` is what source `i`'s read yields |
| CurrentDestinationContext.Reference | current/destination/context.go:88-98 | The loop yields the first source's value when all agree, and invalid-execution at the first mismatch |
| CurrentDestinationContext.NewContextFromContexts | current/destination/context.go:87-103 | On a mismatch the error is returned and the target is untouched; otherwise the reference is written |
| CurrentDestinationContext.NeverSet | current/destination/context.go:55-75 | A field never set reads as zero and false and is not disabled |
| CurrentDestinationContext.StoredReadsBack | current/destination/context.go:79-82 | A written value reads back and the field is not disabled |
| CurrentDestinationContext.DisableThenRestore | current/destination/context.go:47-112 | `Disable` deletes the primary and sets `IsDisabled`; `Restore` brings the value back and deletes the backup |
| CurrentDestinationContext.MergeOutcome | current/destination/context.go:87-103 | Success exactly when all sources equal the first, yielding its value; otherwise invalid-execution |
| CurrentDestinationContext.MergedReadsOwnKey | current/destination/context.go:90-91 | The merge depends only on the sources' own key |
| CurrentDestinationContext.BackupKeyDistinct | current/destination/context.go:36-42 | The backup key is the primary key plus `/restore`, so it never overwrites the primary slot |
| CurrentTrialContext.Equals | current/trial/context.go:21-27 | Holds exactly when the scopes match |
| CurrentTrialContext.FromContext | current/trial/context.go:51-54 | True with the stored value exactly when the key holds a trial value; otherwise zero and false |
| CurrentTrialContext.Stored | current/trial/context.go:75-78 | After `NewContext` the value reads back present; no other key changes |
| CurrentTrialContext.Disabled | current/trial/context.go:43-48 | After `Disable` the primary key is gone and the backup holds the old value |
| CurrentTrialContext.IsDisabled | current/trial/context.go:58-71 | Disabled exactly when the primary key holds no trial and the backup key holds one |
| CurrentTrialContext.Restored | current/trial/context.go:103-108 | After `Restore` the backup reads back present and the backup key is gone |
| CurrentTrialContext.NewContext | current/trial/context.go:75-78 | Writes in place and returns the same context |
| CurrentTrialContext.Disable | current/trial/context.go:43-48 | Backs up and removes in place and returns the same context |
| CurrentTrialContext.Restore | current/trial/context.go:103-108 | Restores in place and returns the same context |
| CurrentTrialContext.Column | current/trial/context.go:86-87 | Element `i` is what source `i`'s read yields |
| CurrentTrialContext.Reference | current/trial/context.go:84-94 | The loop yields the first source's value when all agree, and invalid-execution at a mismatch |
| CurrentTrialContext.NewContextFromContexts | current/trial/context.go:83-99 | On a mismatch the error is returned and the target is untouched; otherwise the reference is written |
| CurrentTrialContext.NeverSet | current/trial/context_test.go:16-24 | On a fresh context the field reads as absent and is not disabled |
| CurrentTrialContext.StoredReadsBack | current/trial/context_test.go:26-35 | After `NewContext` the value reads back and the field is not disabled |
| CurrentTrialContext.DisableThenRestore | current/trial/context_test.go:37-57 | `Disable` hides the value and sets `IsDisabled`; `Restore` brings it back and clears `IsDisabled` |
| CurrentTrialContext.MergeOutcome | current/trial/context.go:83-99 | Success exactly when all sources equal the first, yielding its value, zero for none; otherwise invalid-execution |
| CurrentTrialContext.MergedReadsOwnKey | current/trial/context.go:86-87 | The merge depends only on the sources' own key |
| CurrentTrialContext.NewContexts | current/trial/context_test.go:175-185 | Three fresh, distinct contexts with empty storage |
| CurrentTrialContext.SourcesCarrying | current/trial/context_test.go:145-151 | Three contexts that each carry the given value |
| CurrentClgTreeContext.Equals | current/clg/tree/context.go:18-24 | Holds exactly when the IDs match |
| CurrentClgTreeContext.FromContext | current/clg/tree/context.go:48-51 | True with the stored value exactly when the key holds a tree value; otherwise zero and false |
| CurrentClgTreeContext.Stored | current/clg/tree/context.go:72-75 | After `NewContext` the value reads back present; no other key changes |
| CurrentClgTreeContext.Disabled | current/clg/tree/context.go:40-45 | After `Disable` the value is in the backup key and the primary is deleted |
| CurrentClgTreeContext.IsDisabled | current/clg/tree/context.go:55-68 | Disabled exactly when the primary key holds no clg tree and the backup key holds one |
| CurrentClgTreeContext.Restored | current/clg/tree/context.go:100-105 | After `Restore` the backup is in the primary and the backup key is removed |
| CurrentClgTreeContext.NewContext | current/clg/tree/context.go:72-75 | Writes in place and returns the same context |
| CurrentClgTreeContext.Disable | current/clg/tree/context.go:40-45 | Backs up and deletes in place and returns the same context |
| CurrentClgTreeContext.Restore | current/clg/tree/context.go:100-105 | Restores in place and returns the same context |
| CurrentClgTreeContext.Column | current/clg/tree/context.go:83-84 | Element `i` is what source `i`'s read yields |
| CurrentClgTreeContext.Reference | current/clg/tree/context.go:81-91 | The loop yields the first source's value when all agree, and invalid-execution at a mismatch |
| CurrentClgTreeContext.NewContextFromContexts | current/clg/tree/context.go:80-96 | On a mismatch the error is returned and the target is untouched; otherwise the reference is written |
| CurrentClgTreeContext.NeverSet | current/clg/tree/context.go:48-68 | A field never set reads as zero and false and is not disabled |
| CurrentClgTreeContext.StoredReadsBack | current/clg/tree/context.go:72-75 | A written value reads back and the field is not disabled |
| CurrentClgTreeContext.DisableThenRestore | current/clg/tree/context.go:40-105 | `Disable` sets `IsDisabled`; `Restore` brings the original value back and removes the backup |
| CurrentClgTreeContext.RestoreWithoutDisable | current/clg/tree/context.go:100-105 | `Restore` on a field never disabled writes the zero value, which reads as present |
| CurrentClgTreeContext.MergeOutcome | current/clg/tree/context.go:80-96 | Success exactly when all sources equal the first, yielding its value; otherwise invalid-execution |
| CurrentClgTreeContext.MergedReadsOwnKey | current/clg/tree/context.go:83-84 | The merge depends only on the sources' own key |
| CurrentExpectationContext.ToVal | current/expectation/context.go:59-62 | A nil expectation is stored as nil, any other as itself |
| CurrentExpectationContext.FromContext | current/expectation/context.go:35-38 | The stored expectation exactly when the key holds one; nil otherwise, a stored nil included |
| CurrentExpectationContext.Backup | current/expectation/context.go:49 | The backup read succeeds exactly when the backup key holds an expectation |
| CurrentExpectationContext.Stored | current/expectation/context.go:59-62 | The key is written even for nil, and the value reads back; no other key changes |
| CurrentExpectationContext.Disabled | current/expectation/context.go:27-32 | The current read, nil if absent, is in the backup key and the primary is deleted |
| CurrentExpectationContext.Restored | current/expectation/context.go:90-95 | The backup read, nil if absent, is in the primary key and the backup is deleted |
| CurrentExpectationContext.NewContext | current/expectation/context.go:59-62 | Writes in place and returns the same context |
| CurrentExpectationContext.Disable | current/expectation/context.go:27-32 | Backs up and deletes in place and returns the same context |
| CurrentExpectationContext.Restore | current/expectation/context.go:90-95 | Restores in place and returns the same context |
| CurrentExpectationContext.Column | current/expectation/context.go:71 | Element `i` is source `i`'s expectation, nil where absent |
| CurrentExpectationContext.Reference | current/expectation/context.go:68-81 | The loop yields the first source's expectation (nil for none) when every source agrees with it, and invalid-execution otherwise |
| CurrentExpectationContext.NewContextFromContexts | current/expectation/context.go:67-86 | On disagreement the error is returned and the target is untouched; otherwise the reference, nil included, is written |
| CurrentExpectationContext.IsDisabled | current/expectation/context.go:42-55 | Disabled exactly when the primary key holds no expectation and the backup key holds one |
| CurrentExpectationContext.DisableThenRestore | current/expectation/context.go:27-95 | For a present expectation, `Restore` after `Disable` brings it back and clears `IsDisabled` |
| CurrentExpectationContext.DisableAbsent | current/expectation/context.go:27-55 | `Disable` of an absent expectation backs up nil, so the field is not disabled; a following `Restore` stores nil |
| CurrentExpectationContext.MergeFailsOnMissing | current/expectation/context.go:75-77 | The first source has an expectation and a later one has none: invalid-execution |
| CurrentExpectationContext.MergeFailsOnUnequal | current/expectation/context.go:78-80 | An expectation that does not `Equals` the reference: invalid-execution |
| CurrentExpectationContext.MergeWithoutExpectations | current/expectation/context.go:67-86 | No source has an expectation: success, and the stored nil reads as absent |
| CurrentExpectationContext.MergeOutcome | current/expectation/context.go:67-86 | Success exactly when every source agrees with the first, yielding the first's expectation; otherwise invalid-execution |
| CurrentExpectationContext.MergedReadsOwnKey | current/expectation/context.go:71 | The merge depends only on the sources' own key |
| ExpectationField.NewContext | expectation/expectation.go:23-33 | A nil expectation leaves the storage unchanged; otherwise only the `expectation` key is written |
| ExpectationField.FromContext | expectation/expectation.go:36-39 | The stored expectation exactly when the key holds one, nil otherwise |
| ExpectationField.ReadBack | expectation/expectation.go:23-39 | A non-nil write reads back; a nil write adds nothing |
| ExpectationField.OtherTypeReadsAbsent | expectation/expectation.go:37 | A value of another type under the key reads as absent |
| CurrentBehaviourInputTypes.NewContext | current/behaviour/input/types/types.go:20-30 | A list of length 0, nil or empty, leaves the storage unchanged; otherwise only the types key is written |
| CurrentBehaviourInputTypes.FromContext | current/behaviour/input/types/types.go:33-36 | The list and true exactly when the key holds a list; nil and false otherwise |
| CurrentBehaviourInputTypes.ReadBack | current/behaviour/input/types/types.go:20-36 | A non-empty list reads back; a nil or empty write changes nothing |
| CurrentBehaviourInputTypes.OtherTypeReadsAbsent | current/behaviour/input/types/types.go:34 | A value of another type under the key reads as absent |
| CurrentBehaviourName.NewContext | current/behaviour/name/name.go:20-30 | `""` leaves the storage unchanged; otherwise only the name key is written |
| CurrentBehaviourName.FromContext | current/behaviour/name/name.go:33-36 | The name and true exactly when the key holds a string; `""` and false otherwise |
| CurrentBehaviourName.ReadBack | current/behaviour/name/name.go:20-36 | A non-empty name reads back; writing `""` leaves an absent field absent |
| CurrentBehaviourName.OtherTypeReadsAbsent | current/behaviour/name/name.go:34 | A value of another type under the key reads as absent |
| FirstBehaviourName.Stored | first/behaviour/name/name.go:20-32 | `""` leaves the storage unchanged; otherwise only the name key is set |
| FirstBehaviourName.NewContext | first/behaviour/name/name.go:20-32 | Sets the key in place, or does nothing for `""`, and returns the same context |
| FirstBehaviourName.FromContext | first/behaviour/name/name.go:35-38 | The name and true exactly when the key holds a string; `""` and false otherwise |
| FirstBehaviourName.ReadBack | first/behaviour/name/name.go:20-38 | A non-empty name reads back; writing `""` changes nothing |
| FirstBehaviourName.OtherTypeReadsAbsent | first/behaviour/name/name.go:36 | A value of another type under the key reads as absent |
| SourceNames.NewContext | source/names/names.go:20-30 | Only a nil list leaves the storage unchanged; otherwise only the names key is written |
| SourceNames.FromContext | source/names/names.go:33-36 | The list and true exactly when the key holds a list; nil and false otherwise |
| SourceNames.ReadBack | source/names/names.go:20-36 | Any non-nil list, an empty one included, reads back present; a nil write changes nothing |
| SourceNames.OtherTypeReadsAbsent | source/names/names.go:34 | A value of another type under the key reads as absent |
| DestinationId.Stored | destination/id/id.go:20-32 | `""` leaves the storage unchanged; otherwise only the id key is set |
| DestinationId.NewContext | destination/id/id.go:20-32 | Sets the key in place, or does nothing for `""`, and returns the same context |
| DestinationId.FromContext | destination/id/id.go:35-38 | The id and true exactly when the key holds a string; `""` and false otherwise |
| DestinationId.ReadBack | destination/id/id.go:20-38 | A non-empty id reads back; writing `""` changes nothing |
| DestinationId.OtherTypeReadsAbsent | destination/id/id.go:36 | A value of another type under the key reads as absent |
| SourceIds.NewContext | source/ids/ids.go:20-30 | Only a nil list leaves the storage unchanged; otherwise only the ids key is written |
| SourceIds.FromContext | source/ids/ids.go:33-36 | The list and true exactly when the key holds a list; nil and false otherwise |
| SourceIds.ReadBack | source/ids/ids.go:20-36 | Any non-nil list, an empty one included, reads back present; a nil write changes nothing |
| SourceIds.OtherTypeReadsAbsent | source/ids/ids.go:34 | A value of another type under the key reads as absent |
| OtherScalarFields.NewContext | context.go:250-260 | `""` leaves the storage unchanged; otherwise only the field's key is written |
| OtherScalarFields.FromContext | context.go:73 | The value and true exactly when the key holds a string; `""` and false otherwise |
| OtherReducers.FromContext | merge/merge.go:25-35 | True with the stored record exactly when the key holds one; otherwise zero and false |
| OtherReducers.Stored | merge/merge.go:25-35 | After the write the record reads back present; no other key changes |
| OtherReducers.NewContext | merge/merge.go:25-35 | Writes in place and returns the same context |
| OtherReducers.Column | merge/merge.go:25-35 | Element `i` is what source `i`'s read yields |
| OtherReducers.Reference | merge/merge.go:25-35 | The equality loop yields the agreed record or invalid-execution |
| OtherReducers.NewContextFromContexts | merge/merge.go:25-35 | On a mismatch the error is returned and the target is untouched; otherwise the agreed record is written |
| OtherReducers.MergedReadsOwnKey | merge/merge.go:25-35 | The merge depends only on the sources' own key |
| MergeChain.Keys | merge/merge.go:25-35 | Element `j` is the key reducer `j` writes |
| MergeChain.Modifiers | merge/merge.go:25-35 | The nine reducers of the `modifiers` list, in the order the loop runs them |
| MergeChain.Apply | merge/merge.go:38 | One reducer call: on error the target is untouched; otherwise that reducer's value is written under its key |
| MergeChain.NewContextFromContexts | merge/merge.go:22-45 | The target ends as the specification run leaves it; the same context on success, the stopping reducer's error otherwise, even when the target is among the sources |
| MergeChain.StepKeepsUnread | merge/merge.go:37-38 | A reducer's write to the target leaves, in every source, the keys of the reducers still to run as they were at the start |
| MergeChain.WrittenReadsOwnKey | merge/merge.go:38 | A reducer's outcome depends only on its own key in the sources |
| MergeChain.ModifierKeysDistinct | merge/merge.go:25-35 | The nine reducers write nine distinct keys, and every kind of reducer is in the list |
| MergeChain.RunFrame | merge/merge.go:37-42 | A run leaves every key outside the reducers' keys as it was |
| MergeChain.RunSucceeds | merge/merge.go:37-44 | A run succeeds exactly when every reducer succeeds on the sources |
| MergeChain.RunWrites | merge/merge.go:37-44 | After a successful run each reducer's value is under its key |
| MergeChain.RunStopsAtFirstError | merge/merge.go:37-42 | The first failing reducer's error is the run's error, and the target holds only what the reducers before it wrote |
| MergeChain.PartialCommit | merge/merge.go:37-42 | On a failure the earlier reducers' writes remain in the target and the later reducers' keys are untouched |
| MergeChain.WrittenErrors | merge/merge.go:26-34 | A reducer fails only with invalid-execution, and the source reducer never fails |
| MergeChain.StoredAt | merge/merge.go:37-44 | After a successful run, reducer `j`'s value is under its key |
| MergeChain.TreeStored | merge/merge.go:27 | After a successful run the target's clg tree is the merged one |
| MergeChain.DestinationStored | merge/merge.go:28 | After a successful run the target's destination is the merged one |
| MergeChain.ExpectationStored | merge/merge.go:29 | After a successful run the target's expectation is the merged one, nil included |
| MergeChain.SourceStored | merge/merge.go:31 | After a successful run the target's source lists are the concatenated ones |
| MergeChain.FirstBehaviourStored | merge/merge.go:33 | After a successful run the target's first behaviour is the merged one |
| LegacyMerge.Reads | context.go:72-73 | Element `i` is the field read of source `i` |
| LegacyMerge.Agreed | context.go:71-83 | The check loop of one required field yields its agreed value, or invalid-context at the first absent or differing source |
| LegacyMerge.IdsLists | context.go:227-228 | Element `i` is source `i`'s source-ids list |
| LegacyMerge.IdsStep | context.go:226-233 | One loop turn: a present list extends the accumulator by it; an absent one makes the whole merge fail with invalid-context |
| LegacyMerge.Collected | context.go:226-242 | The accumulation loop yields the sources' source-ids lists appended in order, or invalid-context if one is missing |
| LegacyMerge.Expectations | context.go:157 | Element `i` is source `i`'s expectation, nil where absent |
| LegacyMerge.ExpectationAgreed | context.go:155-168 | The expectation loop yields the first source's expectation, a nil dereference on a source without one, or invalid-context on a mismatch |
| LegacyMerge.IdentityChecked | context.go:71-153 | The first six check loops run in order; the first failing one decides the error |
| LegacyMerge.LaterChecked | context.go:155-242 | The remaining check loops run in order; the names loop reads the source-ids key |
| LegacyMerge.Build | context.go:244-262 | A fresh context whose storage is the thirteen writes applied in order, each empty value skipped; with `AssembleReadsBack` every field reads back |
| LegacyMerge.NewFromContexts | context.go:70-265 | The first failing check's error, or a fresh context whose fields read back the first source's values and whose two lists read back all sources' IDs in order |
| LegacyMerge.ConsensusOutcome | context.go:71-83 | A required field passes exactly when every source carries it with the first's value; it yields that value, and fails only with invalid-context |
| LegacyMerge.ScanOutcome | context.go:155-168 | The expectation loop passes exactly when every source has an expectation that `Equals` the reference; a failure is a nil dereference or invalid-context |
| LegacyMerge.IdentityOutcome | context.go:71-153 | The first six checks pass exactly when every source carries those fields with the first's values, and yield those values |
| LegacyMerge.LaterOutcome | context.go:155-242 | The later checks pass exactly when all expectations are present and equal, the later fields agree, and every source has source-ids |
| LegacyMerge.LegacyOutcome | context.go:70-265 | The merge succeeds exactly for compatible sources; the fields are then the first source's, and both lists are all sources' IDs in order |
| LegacyMerge.ExpectationAbsentPanics | context.go:155-168 | Once the earlier checks pass, a first source without an expectation ends in a nil dereference |
| LegacyMerge.MissingTreeIdFails | context.go:72-76 | Any source without a clg tree id: invalid-context |
| LegacyMerge.UnequalTypesFail | context.go:99-111 | Input types differing from the first source's, compared as Go slices, fail with invalid-context once the earlier checks pass |
| LegacyMerge.NoSourcesGiveEmptyContext | context.go:244-262 | Merging no contexts succeeds with every field zero, and the new context is empty |
| LegacyMerge.Writes | context.go:250-261 | There are thirteen writes, write `i` being the `i`-th `NewContext` call |
| LegacyMerge.StageStep | context.go:250-261 | One more `NewContext` call takes the storage from one stage to the next |
| LegacyMerge.StagesKeep | context.go:250-261 | Writes to other keys leave a key as it was |
| LegacyMerge.StageHoldsWrite | context.go:250-261 | With distinct keys, after all writes each key holds what its write stored, or is absent when that write was skipped |
| LegacyMerge.StageOtherKeyAbsent | context.go:250-261 | A key no write uses is absent from the new context |
| LegacyMerge.WriteKeysDistinct | context.go:250-261 | The thirteen writes go to thirteen distinct keys |
| LegacyMerge.AssembleHoldsOnlyWrites | context.go:244-262 | The new context holds a key only where one of the writes stored a value |
| LegacyMerge.AssembleReadsBack | context.go:244-262 | Every merged field reads back from the new context; an empty string or a nil list or expectation, which is skipped, reads back as that same empty value |
| LegacyMerge.LegacyContextReadsBack | context.go:226-262 | A successful merge's context reads back the first source's fields, and both lists read back all sources' IDs in order |
| LegacyMerge.IntendedScanOutcome | context.go:158-161 | The check the comment describes passes exactly when every source is nil against a nil reference or `Equals` a present one; it fails only with invalid-context |
| LegacyMerge.AbsentExpectationsDisagree | context.go:155-168 | Sources without any expectation: the code as written ends in a nil dereference, the intended check passes with nil |
| LegacyMerge.MixedExpectationsFail | context.go:158-161 | Under the intended check, a mix of present and absent expectations fails with invalid-context |

## Left out

- Deadline, Done and Err (context.go:275-285) forward to Go's native context and its cancellation channels; the native context is an opaque `Signal`.
- MarshalJSON and UnmarshalJSON (context.go:287-316) rely on reflection-driven JSON encoding; no byte-level format is modelled.
- DeleteValue is declared in spec.go:25 but not implemented in context.go; it is modelled as removing the key. The `Create`/`Search`/`Delete` calls of current/destination and current/expectation are treated as `SetValue`/`Value`/`DeleteValue`.
- `context.WithValue` is not defined in any file of this model; the accessors that call it are modelled as a map update of the storage. In `LegacyMerge.Build` this is an update of the new context's storage field.
- `gopkg.String()` keys: the package path of the calling package is assumed, and the backup key is that path plus `/restore`.
- The packages clg/tree/id, current/behaviour/id, destination/name, first/behaviour/id, first/information/id and session/id are not part of this model. `OtherScalarFields` assumes they follow current/behaviour/name, with key names after the same pattern.
- The reducers current/behaviour, current/session, current/stage and first/information are not part of this model. `OtherReducers` assumes they are equality reducers over an opaque record, like current/trial.
- The foreign `expectation.Expectation` and its `Equals` are an opaque handle and the parameter `eq`.
- `reflect.DeepEqual` and slice equality are modelled on `Strings`, which tells a nil slice from an empty one, as Go does.
- Go's typed `key string` keys are modelled as plain strings; all key strings in the model are distinct.
- LegacyMerge.NewFromContexts: the error branch of `New(DefaultConfig())` (context.go:245-248) cannot be taken and is not modelled; the distinct error messages are folded into the error kinds.
- MergeChain.NewContextFromContexts returns the error alone where Go returns a nil context with it; the target keeps the earlier reducers' writes, as in Go.
- The scenarios of current/trial/context_test.go are methods without contracts (`DisableRestoreScenario`, `MergeNoneScenario`, `MergeAllScenario`, `MergeFirstOnlyScenario`) whose assertions are checked on fixed inputs.
- spec.go and spec/context.go only declare interfaces.
- LegacyMerge.NewFromContexts keeps the expectation check as written, which fails on sources without an expectation; the intended check is modelled beside it (`IntendedExpectationConsensus`) but not used by the merge.

## Findings

| source | as written | input that shows it | evidently intended | confidence | as-written member | corrected member |
|---|---|---|---|---|---|---|
| context.go:155-168 | `e.Equals(expectationRef)` is called on the expectation read from each source, also when that read found none, so `Equals` is called on a nil interface | any sources that agree on every other field and carry no expectation | per the comment at context.go:158-161: all sources without an expectation pass with none, and a mix of present and absent fails with invalid-context | not executed | LegacyMerge.AbsentExpectationsDisagree | LegacyMerge.IntendedScanOutcome |
