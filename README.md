# Per-instance material property overrides — a Dafny model

This project models the core of a Unity component that lets one mesh
renderer override some of its shared material's shader parameters without
copying the material. The component stores a list of named, typed override
entries (`MaterialProperty`). A custom inspector keeps that list in step with
the parameters the current shader declares. At runtime the component writes
the enabled entries into one lazily created `MaterialPropertyBlock` and binds
that block to the renderer.

Files:

- `wrappers.dfy` — `Option`, standing for nullable references.
- `engine.dfy` — the engine types the core uses. Colours, vectors and texture
  handles are opaque values. A shader is its parameter table
  (`seq<ShaderProperty>`). A material is a set of total lookups per parameter
  name. `MaterialPropertyBlock` is a class over a `map<string, Value>`.
  `MeshRenderer` is a class holding the shared material and the bound
  override values (`Option<map<...>>`).
- `material_instanced_properties.dfy` — the entry record and its four
  constructors. `Payload` gives the write one entry makes during a sync, and
  `Written` gives the whole block a sync produces. The component is the class
  `MaterialInstancedProperties` with `SetMaterialPropertyBlock`, `OnDestroy`,
  `Awake` and `Update`.
- `shader_util_extensions.dfy` — the two name queries over a shader's
  parameter table.
- `material_instanced_properties_editor.dfy` — reconciliation (`Reconcile`,
  and the editor method `PopulatePropertiesFromShader` that runs it as a loop),
  the editing view, the float-as-toggle rule, and the inspector's edits of
  one entry.

The editing view is a sequence of positions in the stored list, because each
inspector row refers to a slot of that list. "Stable" then has a precise
meaning. The view is strictly ordered by the pair (declaration index of the
entry's name, stored position).

Behaviours of the code worth knowing:

- A sync with an empty list neither clears nor rebinds the block
  (MaterialInstancedProperties.cs:49). The earlier values stay bound.
- The editing view keeps every stored entry whose name the shader declares,
  enabled or not (MaterialInstancedPropertiesEditor.cs:47-60).
- A stored float reads as a toggle that is on exactly when it is greater than
  0 (MaterialInstancedPropertiesEditor.cs:110-111). The value is clamped to
  [0,1] and then any non-zero value counts as true.
- Stored entries whose `Type` differs from the shader's current type are kept
  (MaterialInstancedPropertiesEditor.cs:150) and shown in the view
  (MaterialInstancedPropertiesEditor.cs:54), because only names are compared.

## Model

| member | source | states |
|---|---|---|
| `InstancedProperties.NewColorProperty` | MaterialInstancedProperties.cs:87-102 | copies name and description, stamps `Type` "Color", stores the colour, leaves `Change` false and the other payloads at white / null / 0 / zero vector |
| `InstancedProperties.NewTextureProperty` | MaterialInstancedProperties.cs:104-110 | copies name and description, stamps "Texture", stores the (possibly null) texture, other fields at their initialisers |
| `InstancedProperties.NewFloatProperty` | MaterialInstancedProperties.cs:112-118 | copies name and description, stamps "Float", stores the float, other fields at their initialisers |
| `InstancedProperties.NewVectorProperty` | MaterialInstancedProperties.cs:120-126 | copies name and description, stamps "Vector", stores the vector, other fields at their initialisers |
| `InstancedProperties.Payload` | MaterialInstancedProperties.cs:55-74 | a disabled entry, an enabled "Texture" entry with a null texture, and an entry with an unrecognised type tag write nothing; every enabled entry with a recognised tag (and, for "Texture", a non-null texture) does write; any write carries the payload field that the type tag selects |
| `InstancedProperties.ConstructedEntriesWriteTheirPayload` | MaterialInstancedProperties.cs:57-74 | each constructor's type tag is one the sync dispatch recognises; once enabled, the entry writes exactly the payload it was built with; a fresh entry writes nothing |
| `InstancedProperties.Written` | MaterialInstancedProperties.cs:51-76 | the block the clear-then-write loop leaves, starting from empty; it only ever holds names of list entries |
| `InstancedProperties.WrittenKeys` | MaterialInstancedProperties.cs:49-76 | after a sync the block holds a key exactly when some entry of that name is enabled and writable; nothing from before the clear survives |
| `InstancedProperties.WrittenLastWins` | MaterialInstancedProperties.cs:53-76 | writes happen in list order; when several enabled entries share a name, the block holds the last one's value |
| `InstancedProperties.DisablingRemovesKey` | MaterialInstancedProperties.cs:51-56 | turning an entry's override off removes its key at the next sync, unless another entry of that name still writes |
| `InstancedProperties.MaterialInstancedProperties.SetMaterialPropertyBlock` | MaterialInstancedProperties.cs:38-81 | creates the block only when the cached renderer or block is missing, seeded from what the renderer has bound, and reuses it afterwards; with a non-empty list the block and the renderer's binding become exactly `Written(Properties)`, so syncing twice gives the same binding; with an empty list the binding is untouched |
| `InstancedProperties.MaterialInstancedProperties.OnDestroy` | MaterialInstancedProperties.cs:18-29 | caches the renderer if needed and binds "none" whether or not a block was ever created; nothing happens when there is no renderer |
| `InstancedProperties.MaterialInstancedProperties.Awake` | MaterialInstancedProperties.cs:13-16 | runs a sync, like `SetMaterialPropertyBlock`: reuses the existing block when the cached renderer and block are set and creates a fresh one otherwise; the shared material is untouched; with a non-empty list block and binding become `Written(Properties)`, with an empty one the binding is untouched |
| `InstancedProperties.MaterialInstancedProperties.Update` | MaterialInstancedProperties.cs:32-35 | runs a sync on every editor tick, like `SetMaterialPropertyBlock`: reuses the existing block when the cached renderer and block are set and creates a fresh one otherwise; the shared material is untouched; with a non-empty list block and binding become `Written(Properties)`, with an empty one the binding is untouched; two ticks in a row use the same block |
| `InstancedProperties.MaterialInstancedProperties.constructor` | MaterialInstancedProperties.cs:9-11 | a new component has an empty list and no cached renderer or block |
| `ShaderUtilExtensions.GetShaderPropertyNames` | MaterialInstancedPropertiesEditor.cs:208-222 | returns all `count` parameter names in index order |
| `ShaderUtilExtensions.HasShaderProperty` | MaterialInstancedPropertiesEditor.cs:227-238 | true iff some index below the count has exactly that name (ordinal, case-sensitive) |
| `InstancedPropertiesEditor.IndexOf` | MaterialInstancedPropertiesEditor.cs:60 | `List.IndexOf`: the first position of the name, or -1 exactly when it is absent |
| `InstancedPropertiesEditor.NewEntry` | MaterialInstancedPropertiesEditor.cs:152-174 | Color → "Color", TexEnv → "Texture", Vector → "Vector", Float, Range and any other type → "Float"; the value is seeded from the material for that name; the entry is disabled |
| `InstancedPropertiesEditor.AddIfMissing` | MaterialInstancedPropertiesEditor.cs:148-176 | one loop step: afterwards the row's name is stored; the list is unchanged when the name was already stored, otherwise exactly `NewEntry` is appended |
| `InstancedPropertiesEditor.Reconcile` | MaterialInstancedPropertiesEditor.cs:146-177 | the list after visiting every row in index order: the old list is its prefix and at most one entry per row is added |
| `InstancedPropertiesEditor.ReconcileSpec` | MaterialInstancedPropertiesEditor.cs:146-177 | the old list stays as the prefix; after it comes exactly one new entry per name that was not stored, built from that name's first table row and ordered by row index; afterwards every declared name is stored |
| `InstancedPropertiesEditor.ReconcileKeepsStoredEntries` | MaterialInstancedPropertiesEditor.cs:150-176 | no stored entry is removed or rewritten, including undeclared ones and ones whose type no longer matches |
| `InstancedPropertiesEditor.ReconcileCoveredIsIdentity` | MaterialInstancedPropertiesEditor.cs:150 | a list that already stores every declared name is left unchanged |
| `InstancedPropertiesEditor.ReconcileIdempotent` | MaterialInstancedPropertiesEditor.cs:146-177 | reconciling twice gives the same list as reconciling once |
| `InstancedPropertiesEditor.ReconcileKeepsNamesDistinct` | MaterialInstancedPropertiesEditor.cs:150 | no duplicate name is introduced, even when the table repeats a name, because the check runs against the growing list |
| `InstancedPropertiesEditor.MaterialInstancedPropertiesEditor.PopulatePropertiesFromShader` | MaterialInstancedPropertiesEditor.cs:138-181 | with no shader the list is unchanged; otherwise the loop leaves exactly `Reconcile(table, material, old list)` |
| `InstancedPropertiesEditor.MaterialInstancedPropertiesEditor.OnEnable` | MaterialInstancedPropertiesEditor.cs:20-32 | takes the renderer's shared material when there is one, keeps the previous one otherwise, then reconciles |
| `InstancedPropertiesEditor.DeclaredEntries` | MaterialInstancedPropertiesEditor.cs:47-59 | the filter loop keeps exactly the stored positions whose name the shader declares, in list order |
| `InstancedPropertiesEditor.InsertByDeclaration` | MaterialInstancedPropertiesEditor.cs:60 | inserting a position adds exactly that position (as a multiset) |
| `InstancedPropertiesEditor.OrderByDeclaration` | MaterialInstancedPropertiesEditor.cs:60 | the sort is a permutation of its input |
| `InstancedPropertiesEditor.OrderByDeclarationSorts` | MaterialInstancedPropertiesEditor.cs:60 | the sort orders positions by declaration index and keeps list order among equal indices (stability) |
| `InstancedPropertiesEditor.BuildEditingView` | MaterialInstancedPropertiesEditor.cs:45-60 | the view holds exactly the stored positions whose name the shader declares, each once, ordered by declaration index and then by stored position |
| `InstancedPropertiesEditor.Clamp01` | MaterialInstancedPropertiesEditor.cs:111 | `Mathf.Clamp01`: the result lies in [0,1], values already there are unchanged, and it is 0 exactly for inputs at or below 0 and 1 exactly for inputs at or above 1 |
| `InstancedPropertiesEditor.ToggleState` | MaterialInstancedPropertiesEditor.cs:110-111 | a stored float shown as a toggle is on iff, once clamped to [0,1], it is non-zero, i.e. iff it is greater than 0 |
| `InstancedPropertiesEditor.ToggleValue` | MaterialInstancedPropertiesEditor.cs:110-111 | a toggle edit stores exactly 1.0 or 0.0, and that value reads back as the same toggle state |
| `InstancedPropertiesEditor.HasToggleAttribute` | MaterialInstancedPropertiesEditor.cs:110 | `Contains("Toggle", OrdinalIgnoreCase)`: some attribute equals "Toggle" ignoring case; a match is always a six-character attribute, so longer words such as "Toggled" do not match |
| `InstancedPropertiesEditor.ToggleAttributeIgnoresCase` | MaterialInstancedPropertiesEditor.cs:110 | for every attribute list and every position, upper-casing that attribute does not change whether the toggle attribute is found |
| `InstancedPropertiesEditor.EditedEntry` | MaterialInstancedPropertiesEditor.cs:88-126 | a value edit changes only the payload field that the entry's type selects; name, description, type and override flag are kept; a toggled float stores 0 or 1 and a plain float stores the field's value |
| `InstancedPropertiesEditor.MaterialInstancedPropertiesEditor.SetOverride` | MaterialInstancedPropertiesEditor.cs:80-84 | clicking the tick box changes only that entry's `Change` flag |
| `InstancedPropertiesEditor.MaterialInstancedPropertiesEditor.CommitValue` | MaterialInstancedPropertiesEditor.cs:88-126 | a reported edit replaces only that entry, with `EditedEntry` |
| `InstancedPropertiesEditor.TintAndGlowScenario` | MaterialInstancedPropertiesEditor.cs:146-177 | with a shader declaring colour Tint and toggled float Glow, an empty list gains two disabled entries seeded from the material; the later syncs bind {Tint}, then {Tint, Glow = 1.0}, then {Glow = 1.0} |

## Left out

- IMGUI drawing and layout, change-check scopes and disabled groups are not modelled. The per-row edits are modelled as `SetOverride` and `CommitValue`, which run when a widget reports a change. `CommitValue` does not require the override to be on, although the greyed-out field cannot be edited when it is off.
- The `SerializedObject` / `SerializedProperty` plumbing is not modelled: entries are records and a view row is a position in the list. The `$"{type}Value"` field lookup becomes the type switch in `EditedEntry`.
- `ShaderUtilExtensions.GetShaderPropertyAttributes` resolves a non-public engine method by reflection and caches it. It is not part of this model: the attribute list is a parameter.
- Engine calls (`GetComponent`, `ShaderUtil.*`, `Material.Get*`, `MeshRenderer.Get/SetPropertyBlock`) are stand-ins in `engine.dfy`. `GetComponent<MeshRenderer>()` is the constant field `renderer`. The block's first contents are whatever the renderer has bound.
- `InstancedProperties.MaterialInstancedProperties.SetMaterialPropertyBlock`: requires a renderer, because the source dereferences it unchecked on first use and the required-component attribute guarantees one.
- A null `Properties` list is modelled as an empty sequence; the sync treats both the same way.
- Floats are modelled as reals: no 32-bit rounding and no NaN. With NaN, `Clamp01` would behave differently.
- HasToggleAttribute: case-insensitive comparison folds ASCII letters only; ordinal-ignore-case upper-casing of other characters is not modelled.
- Unity lifecycle scheduling (`ExecuteInEditMode`, when `Awake`, `Update` and `OnDestroy` run) is not modelled. The callbacks are plain method calls.
