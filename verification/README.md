# Renga material-volumes plugin: model of the toolbar handlers

The plugin adds three toolbar actions to the Renga BIM application. Each
action reads model objects or layered materials through the host API, then
aggregates them and shows the result in a message box. This project models the
aggregation inside the three handlers. Host objects are plain records:

- `Renga.ModelObject(id, objectType, volume, materialId)` is a selected object
  with its type GUID, its net volume in m³ (as `real`) and the integer value of
  its layered-material-style parameter.
- `Renga.LayeredMaterial(id, name, layerCount)` is a layered material.
- `Renga.MaterialManager` is a `map<int, LayeredMaterial>`. An id that is not a
  key is one for which the host's manager returns null.
- `Renga.ObjectType` lists the fourteen kinds the plugin names. Every other
  type GUID is `Unlisted(guid)`.

Modules:

- `ObjectTypeNames`: the type-to-display-name table filled in at start-up.
- `ElementsAction`: counts the selected objects per type. It warns when nothing
  is selected and otherwise reports one line per type that has a name.
- `VolumesAction`: adds each eligible object's net volume to the bucket of its
  material id. Eligible means the object's type is in the allow-list. If no
  object is eligible, the action lists the allowed categories instead.
- `MaterialsAction`: scans material ids 0..999 and splits the materials it
  finds into single-layer and multi-layer lists.
- `Sums`: the sum over a finite map's values, independent of key order, and
  how it changes when one key is taken out.

The loops of the elements and volumes handlers are left folds over the
selection, in selection order. Each is proved equal to an independent reference definition: `Count` for the tally
and `VolumeOf` for the volume buckets. The source enumerates a .NET
`Dictionary` to build its report, and that order is not specified. So the
report lines are modelled as maps keyed by type or by material id.

The source reads the material id with `GetIntValue()`, which returns a plain
integer. There is no separate "unspecified material" key. The model follows
the code: objects whose parameter carries the same integer share a bucket,
whatever that integer is.

## Model

| member | source | states |
|---|---|---|
| ObjectTypeNames.NamedKinds | RengaPlugin.cs:45-63 | The display-name table names exactly the fourteen listed object kinds and no other type GUID. |
| ElementsAction.Bump | RengaPlugin.cs:117-120 | One tally step raises the count of the object's own type by exactly one. Every other type's count is unchanged. The key set grows by that type only. |
| ElementsAction.Tally | RengaPlugin.cs:110-121 | The tally's keys are exactly the types of the selected objects, and every count is positive. |
| ElementsAction.TallyCounts | RengaPlugin.cs:113-121 | For every type, the tally holds the number of selected objects of that type. A type is a key iff at least one selected object has it. |
| ElementsAction.TallySum | RengaPlugin.cs:113-121 | The counts of the tally add up to the number of selected objects. |
| ElementsAction.ElementsReport | RengaPlugin.cs:123-140 | The "select elements first" warning is shown iff the selection is empty. Otherwise there is one line per type that has a display name and occurs in the selection, and the line carries that name and the type's count. Unnamed types get no line. |
| ElementsAction.UnnamedOnlySelection | RengaPlugin.cs:124-137 | A non-empty selection made only of unnamed types passes the emptiness check and yields a report with no lines. |
| VolumesAction.Accumulate | RengaPlugin.cs:192-195 | One summing step adds the object's volume to the bucket of its material id, creating that bucket holding the volume when it is missing. Every other bucket is unchanged, and the key set grows by that id only. |
| VolumesAction.MaterialVolumes | RengaPlugin.cs:180-198 | The buckets are keyed by exactly the material ids of the selected objects whose type is in the allow-list. An empty selection yields no buckets. |
| VolumesAction.MaterialVolumesExact | RengaPlugin.cs:186-195 | Each bucket holds the total volume of the eligible objects with that material id. Each object counts once. An id without a bucket has no eligible volume. |
| VolumesAction.MaterialVolumesTotal | RengaPlugin.cs:186-195 | The bucket values add up to the total volume of the eligible objects. |
| VolumesAction.IneligibleIgnored | RengaPlugin.cs:168-197 | Removing every object whose type is not in the allow-list leaves the buckets unchanged. |
| VolumesAction.MaterialVolumesPermutation | RengaPlugin.cs:182-198 | Any reordering of the selection yields the same buckets. |
| VolumesAction.AllowedCategories | RengaPlugin.cs:203-205 | The message lists every allowed type in allow-list order, numbered from 1, under its display name. Every allowed type has a display name, so the table lookup cannot fail. |
| VolumesAction.VolumesReport | RengaPlugin.cs:200-223 | The allowed-categories message is shown iff no selected object is eligible. Otherwise there is one line per material id of an eligible object. The line holds that id's total eligible volume and the material's name, or "не задан" when the manager has no material for the id. |
| VolumesAction.WallsAndDoor | RengaPlugin.cs:168-198 | Two walls of material 7 (2.5 and 1.5 m³) and a door of material 3 give the single bucket 7 ↦ 4.0. The door's category is not allowed. |
| MaterialsAction.Scan | RengaPlugin.cs:151-158 | Both lists are strictly ascending in material id. An id is in the single-layer list iff it is below the bound, the manager has a material for it, and that material has exactly one layer. An id is in the multi-layer list iff the same holds with a layer count other than one, zero included. |
| MaterialsAction.ScanCount | RengaPlugin.cs:151-158 | Every material present below the bound lands in exactly one list, so the two lists together are as long as the number of such materials. |
| MaterialsAction.BeyondLimitIgnored | RengaPlugin.cs:151 | A material with id 1000 or above is never listed. |
| MaterialsAction.MaterialsReport | RengaPlugin.cs:143-161 | The report follows the scan line for line: the j-th single-layer line shows the id and name of the j-th id in `Scan`'s single-layer list, and the j-th multi-layer line also shows that material's layer count. By `Scan`'s contract there is exactly one line per material present among ids 0..999, in ascending id order, with no repeats. Each single-layer line shows a material with exactly one layer, and each multi-layer line a material whose layer count is not one. The two lists together are as long as the number of present materials. |

## Left out

- Host API calls are not modelled: `Renga.Application`, selection retrieval, `GetObjects`/`GetById`, quantity and parameter lookup, and the material manager. They are a closed COM API, and their answers are the fields of the input records.
- Plugin set-up and tear-down are not modelled: `Initialize`, `InitButtons`, icon loading, action and event wiring, `Stop`. They are UI plumbing.
- Message boxes are not modelled. The handlers' results are datatypes (`ElementsOutcome`, `VolumesOutcome`, `MaterialsOutcome`), not shown text.
- Line text formatting is not modelled: the interpolated strings, the `#.000` volume format, and the extra newline chosen with `materialVolumes.Last()`. These are presentation details, and the last one depends on `Dictionary` enumeration order.
- Volumes are exact `real` numbers. The rounding of `double` accumulation is not modelled, so the order-independence lemma holds exactly in the model but only up to rounding in the source.
- Exceptions are not modelled: the `catch` blocks in `Initialize` and `VolumesAction_Triggered`, and null dereferences from host lookups. An object or parameter that the host cannot resolve is outside the model.
