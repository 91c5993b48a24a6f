# typemon generator core, modelled in Dafny

typemon turns a declarative description of a split ergonomic keyboard into the
data that its OpenSCAD templates consume. This project models the in-memory
logic between the parsed configuration and the template rendering:

- **Vector composition** (`vec.dfy`, module `Vectors`): componentwise addition of
  offset and rotation triples, which never mixes the two kinds.
- **Switch-module repository** (`switch_repo.dfy`, module `SwitchRepo`): a class
  whose `modules` map is updated in place by guarded registration
  (`AddModule`), the start-up loop that registers every loaded module and skips
  the ones refused, lookup (`GetModule`), and the specialisation of a module by
  extra-argument overrides (`OverrideModule`, specified by `Specialize`).
- **Keywell modifier resolver** (`key_matrix.dfy`, module `KeyMatrix`):
  `MatrixModifier` fills a `cols × rows` matrix column by column. Each column
  base is the selected finger layer plus the column override. Each cell is that
  base plus the row override. The method is proved against the per-cell
  specification `ResolveKey`, and lemmas give the closed form of a cell.
- **Template-data assembler** (`template_data.dfy`, module `Templates`): the
  unit and layout guards, the resolution of switch types into a fresh
  repository, the three-slot thumb-cluster view, the derived listings, and the
  all-or-nothing `NewTemplateData`.
- **Generated file names** (`generated_names.dfy`, module `GeneratedNames`): the
  `.g.scad` / `.g.stl` suffixes, the three output names of one configuration,
  and the suffix test of the artefact cleanup command.

The records come from `internal/config` (`config.dfy`, module `Config`). The
error values of the Go code, including the context each `errors.Join` adds,
are the constructors of `Errors.Error` (`errors.dfy`).

Modelling choices:
- `float64` is `real`.
- `Offset` and `Rotation` are the two constructors of one datatype. The subset
  types of the same names keep them apart.
- An extra-argument value is the opaque type `ArgValue`.
- A Go `*T` reference that may be nil is an `Option`.
- The file-system check of `AddModule` is a parameter `statNotExist`: the set of
  paths for which `os.Stat` reports "does not exist".
- A loop over a Go map picks its next key with `:|`. Its contracts therefore
  hold for every iteration order.

Finger selection is modelled as `template_data.go` computes it. Lines 34-35
set the slot to `indexFingerStartColumn - col`, which is negative for every
column after the start column. No case of the `switch` at lines 42-51 matches a
negative slot, so those columns get the zero `FingerModifier`. The cap at lines
37-39 never fires. Every column up to the start column reads the index-finger
layer, and the middle, ring and pinky layers are never read.
`KeyMatrix.ColumnFinger` states this. With start column 3, column 5 gets no
finger contribution.

## Model

| member | source | states |
|---|---|---|
| `Vectors.AddVectors` | internal/generator/utils/vec.go:5-26 | the sum has the operands' kind (offset in, offset out; rotation in, rotation out) and components `a.x+b.x`, `a.y+b.y`, `a.z+b.z` |
| `Vectors.AddZeroRight` | internal/generator/utils/vec.go:19-22 | adding the zero vector of the same kind returns the operand unchanged |
| `Vectors.AddZeroLeft` | internal/generator/utils/vec.go:19-22 | adding an operand to the zero vector returns the operand unchanged |
| `Vectors.AddCommutative` | internal/generator/utils/vec.go:19-22 | addition of same-kind vectors is commutative |
| `Vectors.AddAssociative` | internal/generator/utils/vec.go:19-22 | addition over reals is associative |
| `GeneratedNames.GeneratedOutExtension` | internal/generator/main.go:35-37 | the generated-source suffix is `.g.scad` |
| `GeneratedNames.GeneratedRenderExtension` | internal/generator/main.go:38-40 | the generated-model suffix is `.g.stl` |
| `GeneratedNames.GeneratedOutConfigFilename` | internal/generator/main.go:42-44 | the config output name is `n + ".config.g.scad"`: it starts with the config name and ends with the generated suffix |
| `GeneratedNames.LeftOutFilename` | internal/generator/main.go:122 | the left output name is `n + ".left.g.scad"`: it starts with the config name and ends with the generated suffix |
| `GeneratedNames.RightOutFilename` | internal/generator/main.go:140 | the right output name is `n + ".right.g.scad"`: it starts with the config name and ends with the generated suffix |
| `GeneratedNames.RemovedByCleanup` | cmd/clear_artefacts.go:28 | the cleanup removes a file exactly when its name ends in `.g.scad` |
| `GeneratedNames.TaggedName` | internal/generator/main.go:42-44 | any name built as config name, tag and generated suffix starts with the config name and ends with `.g.scad` |
| `GeneratedNames.ConfigFilenameShape` | internal/generator/main.go:42-44 | the config output is `n + ".config.g.scad"`: prefix `n`, suffix the generated extension |
| `GeneratedNames.CleanupRemovesEveryOutput` | cmd/clear_artefacts.go:27-28 | the config, left and right outputs (main.go:100, 122, 140) all pass the cleanup's suffix test |
| `GeneratedNames.RenderExtensionNotCleanedAsSource` | cmd/clear_artefacts.go:28 | a name ending in `.g.stl` never passes the `.g.scad` suffix test |
| `GeneratedNames.OutputNamesDistinct` | internal/generator/main.go:27-29 | for one config name, the config, left and right output names are pairwise distinct |
| `GeneratedNames.ConfigFilenameInjective` | internal/generator/main.go:42-44 | two config names with the same config output name are equal |
| `SwitchRepo.SwitchRepository.constructor` | internal/generator/switch_repo.go:26 | a new repository holds no modules |
| `SwitchRepo.SwitchRepository.GetModule` | internal/generator/switch_repo.go:36-42 | succeeds iff the name is bound (even to nil) and then returns the stored entry; otherwise fails with not-found naming it; reads only |
| `SwitchRepo.ModulePath` | internal/generator/switch_repo.go:52 | the footprint file is looked up under `scad/modules/switches/` |
| `SwitchRepo.SwitchRepository.AddModule` | internal/generator/switch_repo.go:43-58 | succeeds iff the name is not bound to a non-nil module, Filename and Module are non-empty and the footprint path exists; failures keep the map and report duplicate, invalid or missing file in that order; success binds exactly `name` and every other lookup is unchanged |
| `SwitchRepo.LoadSwitchRepository` | internal/generator/switch_repo.go:26-33 | the loop never aborts: the fresh repository holds exactly the loaded modules that registration accepts, each under its own name |
| `SwitchRepo.Specialize` | internal/generator/switch_repo.go:60-80 | the specialised module keeps Filename, Module and MinKeycapSize; its argument keys are the base's plus the override keys; overridden keys take the override value and the others keep the base value |
| `SwitchRepo.OverrideModule` | internal/generator/switch_repo.go:60-80 | fails iff some override key is not declared by the base, naming such a key; otherwise returns `Specialize(base, overrides)`; builds a new map and never touches the base |
| `SwitchRepo.SpecializeKeepsKeys` | internal/generator/switch_repo.go:67-78 | a successful override leaves the argument key set equal to the base's |
| `SwitchRepo.SpecializeNothing` | internal/generator/switch_repo.go:61-78 | with no overrides the result equals the base |
| `SwitchRepo.SpecializeIdempotent` | internal/generator/switch_repo.go:67-78 | applying the same overrides twice gives the same module as applying them once |
| `KeyMatrix.FingerIndex` | internal/generator/template_data.go:32-39 | a column up to the start column gets slot 0; a later column gets `start - col`, which is negative, so the cap at 3 never fires |
| `KeyMatrix.SelectFinger` | internal/generator/template_data.go:41-51 | slots 0 to 3 select the index, middle, ring and pinky layers; any other slot leaves the zero finger modifier |
| `KeyMatrix.ColumnBase` | internal/generator/template_data.go:53-67 | a column's base is "regular"; its offset is the finger offset plus the column override's offset (if any); its rotation is (finger tilt + column tilt, 0, 0) |
| `KeyMatrix.ResolveKey` | internal/generator/template_data.go:68-83 | a cell keeps its column base's type and rotation X and Z; the row override adds only its tilt to rotation Y (nothing if the row has no override) |
| `KeyMatrix.ColumnFinger` | internal/generator/template_data.go:32-51 | a column up to the start column uses the index-finger layer; a later column gets the zero finger modifier; middle, ring and pinky are never read |
| `KeyMatrix.MatrixModifier` | internal/generator/template_data.go:26-87 | the matrix has exactly `numCols` columns of `numRows` cells, and every cell equals the resolved modifier of its position |
| `KeyMatrix.ResolveKeyClosedForm` | internal/generator/template_data.go:53-84 | every cell is "regular"; its offset is finger + column (if present) + row (if present) offset; rotation X is finger tilt + column tilt, Y the row tilt, Z zero; absent overrides contribute nothing |
| `KeyMatrix.RowsWithoutOverrideShareColumnBase` | internal/generator/template_data.go:58-78 | within a column, every row without a row override gets the same value, the column base |
| `Templates.TemplateThumbCluster.Keys` | internal/generator/template_data.go:109-123 | always three keys; key `i` is the configured slot `i` if present and a zero-offset, zero-rotation "regular" key otherwise; other slots are ignored |
| `Templates.TemplateData.AllSwitchTypes` | internal/generator/template_data.go:144-150 | every switch-type name exactly once |
| `Templates.TemplateData.AllSwitchIncludes` | internal/generator/template_data.go:152-158 | one footprint Filename per switch type: the list has one entry per type, and each file name occurs exactly as often as there are types using it |
| `Templates.ValidateUnits` | internal/generator/template_data.go:160-168 | succeeds iff length is "mm" and angle is "deg"; the length error takes precedence |
| `Templates.ValidateLayout` | internal/generator/template_data.go:170-178 | succeeds iff rows > 1 and cols > 4; the rows error takes precedence |
| `Templates.ResolvedSwitchTypes` | internal/generator/template_data.go:180-203 | the specialised repository has exactly the switch-type names as keys, each with its base module's argument keys |
| `Templates.ValidateSwitchTypes` | internal/generator/template_data.go:180-203 | on success returns a freshly allocated repository; succeeds iff every switch type names a registered non-nil module, overrides only declared keys and passes registration; then the new repository maps each name to `Specialize(base, overrides)`; a failure names a failing switch type, with the error its first failing check gives |
| `Templates.NewTemplateKeywell` | internal/generator/template_data.go:89-100 | keywell geometry is copied and the matrix is the resolved matrix for the layout |
| `Templates.NewTemplateData` | internal/generator/template_data.go:205-228 | units, then layout, then switch types are checked, and the first failure is returned wrapped with its stage; success iff all three pass, and then the aggregate carries the configuration, the resolved switch types, the resolved key matrix and the thumb cluster |

## Left out

- YAML reading and decoding, and the directory listing of `LoadSwitchModules`: the loaded module map is an input of `LoadSwitchRepository`, and its load error path is not modelled.
- The file system: `os.Stat` is the parameter `statNotExist`. A stat error other than "does not exist" lets registration succeed, as in the source.
- `filepath.Join` path cleaning: `ModulePath` joins `scad`, `modules/switches` and the file name with `/` and does not clean the result.
- The log line printed when the load loop skips a module.
- Template parsing and execution, `os.Create`, the `generator` struct, `New`, `Generate`, `Render` and `ConfigPath`: these are text templating and file I/O. Only the output-name expressions are modelled.
- The command-line commands, the file-watch loop and file deletion. Only the suffix test of the cleanup command is modelled, as `RemovedByCleanup`.
- IEEE float64 rounding: components are reals, so associativity holds in the model and not necessarily in the program.
- The `Matrix` modifier layer and its ignore flags: nothing in the resolver reads them, so `KeywellModifiers` omits them.
- Reference identity and aliasing. Modules, thumb keys and the specialised repository held by `TemplateData` are values. The key matrix is a sequence value updated cell by cell. Nothing in the source mutates any of them after construction.
- `AddModule` with a nil module: Go would panic on the field access. The model's argument is a value, so this case cannot arise.
- Go's `int` width and allocation limits for very large layouts.
- `newTemplateThumbCluster` is a field copy and is inlined in `NewTemplateData`.
- `Templates.ValidateSwitchTypes`: when several switch types fail, which one is reported depends on map order. The contract only says that the reported one fails. For an unknown override key it names a key only up to membership.
