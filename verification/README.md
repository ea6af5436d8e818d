# mosaic-chains: directory layout and mosaic config, in Dafny

A model of the two cooperating pieces of the mosaic-chains tool:

- **Directory** (`directory.dfy`, module `Directory`): the deterministic path functions
  of `src/Directory.ts`. They give the user data directory `~/.mosaic`, the publish
  directory `~/.mosaic/configs`, the project root, and the project's `utility_chains`,
  `utility_chains/utility_chain_<id>`, `mosaic_configs` and `src/Graph` directories.
  `Sanitize` expands a leading `~` and makes relative paths absolute. The home directory,
  the working directory and the module's own directory (`os.homedir()`, `process.cwd()`,
  `__dirname`) are the explicit `Env`. `path.join` is modelled by `Join`, which drops an
  empty side, inserts a separator when neither side supplies one at the junction, and
  drops one separator when both sides supply one.
- **Config** (`config.dfy`, module `Config`): the records of `src/Config/MosaicConfig.ts`
  as classes with default-populating constructors, and loading and saving by chain name.
  A field the original leaves `undefined` is an `Option` or a nullable reference. So a
  record taken from parsed JSON may lack a nested part, while a constructed record never
  does. Loading is the pure branch decision `MosaicConfig.Decide` plus the method
  `MosaicConfig.From`, which builds the config. The file system is a `map<Path, string>`.
  The JSON parser and the schema validator are function-valued inputs (`parse`,
  `validate`), so the model covers every outcome a `ParseResult` and a `Validation` can express.
- `wrappers.dfy` (module `Wrappers`) holds `Option`, `Result` and `Outcome`.

Two details of the source shape the model:

- Only a file of length zero counts as empty (`config && config.length > 0`,
  src/Config/MosaicConfig.ts:132). A whitespace-only file is handed to the JSON parser,
  which rejects it.
- The two steps of `sanitize` are separate `if`s (src/Directory.ts:95-105). When the home
  directory is itself relative, the tilde-expanded path is also placed under the working
  directory (`SanitizeRelativeHome`). With an absolute home, only one step fires.

## Model

| member | source | states |
|---|---|---|
| Directory.DefaultMosaicDataDir | src/Directory.ts:12-17 | the data directory lies under the home directory, ends in `.mosaic`, and is absolute when home is |
| Directory.PublishMosaicConfigDir | src/Directory.ts:22-27 | the publish directory lies under the data directory, ends in `configs`, and is absolute when home is |
| Directory.UserDataLayout | src/Directory.ts:12-27 | for a home without a trailing separator, the two directories are exactly `<home>/.mosaic` and `<home>/.mosaic/configs` |
| Directory.ProjectRoot | src/Directory.ts:32-37 | is `<moduleDir>/..` for a module directory without a trailing separator, the entry one level above it; it is absolute when the module directory is |
| Directory.ProjectUtilityChainsDir | src/Directory.ts:42-47 | the utility-chains directory is `<projectRoot>/utility_chains` |
| Directory.ProjectUtilityChainDir | src/Directory.ts:54-63 | fails with `EmptyChainId` exactly when the id is empty; otherwise returns `<projectRoot>/utility_chains/utility_chain_<id>` |
| Directory.UtilityChainDirsDistinct | src/Directory.ts:59-62 | two different non-empty chain ids without a separator get different directories |
| Directory.ProjectMosaicConfigDir | src/Directory.ts:68-73 | the config directory is `<projectRoot>/mosaic_configs` |
| Directory.ProjectGraphDir | src/Directory.ts:78-84 | the Graph directory is `<projectRoot>/src/Graph` |
| Directory.Sanitize | src/Directory.ts:92-108 | an absolute input comes back unchanged; with an absolute home, `~rest` becomes `join(home, rest)` and is not re-prefixed; any other input becomes `join(cwd, input)`; with absolute home and cwd the result is absolute |
| Directory.SanitizeIdempotent | src/Directory.ts:92-108 | with absolute home and cwd, sanitising twice equals sanitising once |
| Directory.SanitizeRelativeHome | src/Directory.ts:95-105 | with a relative home, both steps fire: `~rest` becomes `join(cwd, join(home, rest))` |
| Directory.SanitizeEmpty | src/Directory.ts:100-105 | the empty string sanitises to the working directory |
| Directory.SanitizeExamples | src/Directory.ts:92-108 | `~/foo` gives `<home>/foo`, `bar/baz` gives `<cwd>/bar/baz`, and `/abs/path` is unchanged |
| Config.OriginLibraries.constructor | src/Config/MosaicConfig.ts:14-24 | a new record has none of its five addresses assigned |
| Config.OriginChain.constructor | src/Config/MosaicConfig.ts:29-37 | a new origin chain has no name yet and a fresh, non-null, unassigned `contractAddresses` |
| Config.OriginContracts.constructor | src/Config/MosaicConfig.ts:42-50 | a new record has none of its four addresses assigned |
| Config.AuxiliaryContracts.constructor | src/Config/MosaicConfig.ts:55-71 | a new record has none of its eight addresses assigned |
| Config.ContractAddresses.constructor | src/Config/MosaicConfig.ts:76-85 | a new record has both `origin` and `auxiliary`, fresh and unassigned |
| Config.AuxiliaryChain.constructor | src/Config/MosaicConfig.ts:90-103 | a new auxiliary chain has `bootNodes == []` and a fresh default `contractAddresses` |
| Config.MosaicConfig.constructor | src/Config/MosaicConfig.ts:115-118 | a present `originChain` is kept as the very object given and a present `auxiliaryChains` as an equal map value; an absent one becomes a fresh `OriginChain` or the empty map |
| Config.MosaicConfig.ValidateSchema | src/Config/MosaicConfig.ts:145-152 | passes exactly when the validator accepts; otherwise throws `InvalidMosaicConfigException` with the validator's message |
| Config.MosaicConfig.Decide | src/Config/MosaicConfig.ts:130-138 | defaults exactly when the file is absent or has length zero; a parse error (with the parser's message) exactly when non-empty text fails to parse; the invalid-config exception (with the validator's message) exactly when it parses but violates the schema; a build from the parsed object exactly when it conforms |
| Config.MosaicConfig.From | src/Config/MosaicConfig.ts:125-139 | reads the file at `ConfigFilePath(chain)`; returns a config with a new default origin chain and new address record, a new config built from the parsed object (whose defaulted origin chain and address record are new), or the decision's error, in which case no config is built |
| Config.MosaicConfig.WriteToMosaicConfigDirectory | src/Config/MosaicConfig.ts:157-170 | writes the serialised config to `ConfigFilePath(originChain.chain)`, with `undefined` for a missing name, and leaves every other file alone |
| Config.ConfigFilePath | src/Config/MosaicConfig.ts:126-129 | the config file lies under the config directory; for a relative chain name it is `<projectRoot>/mosaic_configs/<chain>.json` |
| Config.ConfigPathsDistinct | src/Config/MosaicConfig.ts:126-129 | different chain names without a separator have different config files |
| Config.AbsoluteChainNameAliases | src/Config/MosaicConfig.ts:126-129 | `/dev` and `dev` name the same config file, because `path.join` collapses the junction |
| Config.CallMember | src/Config/MosaicConfig.ts:127 | calling a member value succeeds exactly when it is a method, and then yields the method's path |
| Config.ConfigFilePathAsWritten | src/Config/MosaicConfig.ts:126-129 | as written, computing the path throws for every environment and chain name |
| Config.CallingAMethodYieldsConfigFilePath | src/Config/MosaicConfig.ts:158-163 | with a method in place of the getter, the call yields exactly `ConfigFilePath` |
| Config.SaveThenLoad | src/Config/MosaicConfig.ts:160-163 | after saving for chain `c`, `from(c)` decides on exactly the saved text |
| Config.SaveLeavesOtherChainsAlone | src/Config/MosaicConfig.ts:160-169 | saving for one chain name without a separator leaves the decision of `from` for every other such name unchanged |
| Config.DefaultConfigSavesToUndefined | src/Config/MosaicConfig.ts:160-163 | a config with no origin-chain name is saved to `<projectRoot>/mosaic_configs/undefined.json` |

## Left out

- File system I/O (`existsSync`, `readFileSync`, `ensureDirSync`, `writeFileSync`): the files are a map value. Directory creation and I/O failures are not modelled.
- `JSON.parse`, `JSON.stringify` and the `jsonschema` validator with its schema file: parsing and validation are inputs, and the serialised text of a save is a parameter. The byte-level round trip and idempotence of saved files are therefore not stated.
- Parsed JSON is modelled only through the two keys the constructor reads. A parse result that is not an object, or that has a falsy non-object value at those keys, is not represented; the schema is expected to reject those.
- The objects `JSON.parse` allocates are supplied by the `parse` input, which returns references to existing objects.
- ProjectRoot: the model's root is the string `<moduleDir>/..`, not the resolved parent directory that `path.join` returns. Its clauses that the root extends the module directory and never ends in a separator hold of that string only: the real parent is a prefix of the module directory, and `path.join('/dist', '..')` is `/`.
- `Join` does not resolve dot segments or repeated separators away from the junction, so `ProjectRoot` is `<moduleDir>/..` rather than the parent directory.
- UtilityChainDirsDistinct, ConfigPathsDistinct and SaveLeavesOtherChainsAlone speak only of names without a separator. `path.join` maps names such as `./dev`, `a//b` or `x/../dev` to the same file as a simpler name, and `Join` does not reproduce that aliasing.
- `bootNodes` (a JavaScript array) and `auxiliaryChains` (a JavaScript object) are `seq` and `map` values. So the sharing by reference between a `MosaicConfig` and the object it was built from, and updates in place through either, are not captured.
- `os.homedir()`, `process.cwd()` and `__dirname` are the fields of `Env`.
- `Logger.info` is an observability side effect only.
- The `genesis` record is an opaque string map, and addresses are opaque strings. `chainId` is an unbounded integer, not a floating-point number.
- Concurrent saves and last-writer-wins behaviour are not modelled.

## Findings

| source | as written | input that shows it | evidently intended | confidence | as-written member | corrected member |
|---|---|---|---|---|---|---|
| src/Config/MosaicConfig.ts:126-129 | `Directory.getProjectMosaicConfigDir()` calls the value of a static getter (src/Directory.ts:68), which is a string, so it throws a TypeError. Line 158 does the same, so neither `from` nor `writeToMosaicConfigDirectory` reaches the file system | any call, e.g. `MosaicConfig.from("dev")` | read the getter without calling it, as the other callers in src/Directory.ts do | high; not executed | Config.ConfigFilePathAsWritten | Config.ConfigFilePath |
