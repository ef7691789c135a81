# maker-clowd.squirrel: converting the version and building the `pack` command line

This project models the two pieces of the Electron Forge maker for Clowd.Squirrel
that compute something.

- `convertVersion` keeps a version's numeric core and strips the dots from its
  pre-release suffix. For example, `1.2.3-beta.1` becomes `1.2.3-beta1`.
- `MakerClowdSquirrel.make` destructures the maker configuration with defaults.
  It then builds the argument list it hands to `Squirrel.exe`: `pack`, followed
  by one `args.push` per option.

Modules:

- `Wrappers`: `Option`, standing for an unset (`undefined`) configuration field.
- `Version`: JavaScript `split`, `join` and `replace(/\./g, '')` on strings,
  `ConvertVersion`, and what it does to any version.
- `CommandLine`: the flags, their tokens, the `Opt` option (a lone switch or a
  flag with its value), `Flatten` from options to tokens, `Parse` back, and
  `Occurrences` (the options of one flag). Flattening and parsing are proved
  inverse.
- `MakerArgs`:
  - the configuration (`Config`), and what the host hands to `make` (`Host`:
    manifest name, version and author, the packaged directory, the packager's
    `executableName`, and `appName`);
  - `Resolve`: the destructuring with defaults;
  - `Options` / `PackArgs`: the argument list as a specification;
  - `BuildArgs`: the push sequence, proved equal to `PackArgs`;
  - lemmas stating, for every flag and in terms of the configuration, which
    options appear. Together with the push order these determine the whole
    list (`OptionsCharacterized`).

The model follows the code of `src/MakerClowdSquirrel.ts` as written, including:

- `outPath` is computed (line 101) but never passed to the tool; there is no
  `--releaseDir`.
- The options are pushed in one fixed order: `--baseUrl` through `--icon` come
  first, then one `--mainExe` per executable, then `--appIcon` and `--msi`, and
  finally the five pack pairs.
- An unset `packVersion` defaults to the manifest's version unconverted.
  `convertVersion` is applied only to the logged package version (line 157).
- `includePdb`, `releaseNotes`, `signParams` and `signTemplate` are part of
  the configuration type but never passed to the tool.
- `--debugSetupExe` is pushed twice (lines 133-134).

JavaScript truthiness is modelled as "set and not empty". For the optional
values without a default (`baseUrl`, `addSearchPath`, `debugSetupExe`,
`framework`, `splashImage`, `icon`, `appIcon`, `msi`) an empty string
therefore behaves like an unset field: nothing is pushed. `noDelta` is
different: unset, it defaults to `true` and `--noDelta` is pushed, while an
empty string pushes nothing. A destructuring default replaces only an unset
field, so an explicitly empty `packId` stays empty and is passed as it is.

## Model

| member | source | states |
|---|---|---|
| Version.IndexOf | src/MakerClowdSquirrel.ts:41 | the first occurrence of the separator, or none exactly when the string lacks it |
| Version.Join | src/MakerClowdSquirrel.ts:45 | `parts.join(sep)`: the parts with one separator between neighbours; specified by `Version.JoinSplit`, joining a split gives the input back |
| Version.Split | src/MakerClowdSquirrel.ts:41 | `split` always gives at least one part, and no part holds the separator |
| Version.RemoveDots | src/MakerClowdSquirrel.ts:45 | the result holds no `.` and is no longer than the input |
| Version.IndexOfFirst | src/MakerClowdSquirrel.ts:41 | a separator with no separator before it is the position `split` cuts at |
| Version.JoinSplit | src/MakerClowdSquirrel.ts:41-45 | joining the parts of a split with the same separator gives the input back |
| Version.SplitSingle | src/MakerClowdSquirrel.ts:41-44 | a version splits into one part exactly when it has no `-`, and that part is the version |
| Version.RemoveDotsAppend | src/MakerClowdSquirrel.ts:45 | removing dots distributes over concatenation |
| Version.RemoveDotsCounts | src/MakerClowdSquirrel.ts:45 | every character but `.` keeps its count; no `.` remains |
| Version.RemoveDotsNoDots | src/MakerClowdSquirrel.ts:45 | a string without dots is unchanged |
| Version.ConvertVersion | src/MakerClowdSquirrel.ts:40-49 | `convertVersion` as written; its behaviour is stated by `Version.ConvertVersionNoDash` (no `-`: unchanged) and `Version.ConvertVersionDash` (closed form after the first `-`) |
| Version.ConvertVersionNoDash | src/MakerClowdSquirrel.ts:46-47 | a version without `-` (the empty one included) is returned unchanged |
| Version.ConvertVersionDash | src/MakerClowdSquirrel.ts:40-49 | with the first `-` at position i, the result is the input up to and including it, then the remainder with its dots removed |
| Version.ConvertVersionPrefix | src/MakerClowdSquirrel.ts:40-49 | the input up to its first `-`, dots included, begins the output, and no `.` follows it in the output |
| Version.ConvertVersionDashCount | src/MakerClowdSquirrel.ts:40-49 | the number of `-` characters never changes |
| Version.DashesKept | src/MakerClowdSquirrel.ts:45 | keeping a prefix and stripping the dots of the rest keeps every `-` |
| Version.ConvertVersionIdempotent | src/MakerClowdSquirrel.ts:40-49 | converting twice is the same as converting once |
| Version.ConvertVersionFixed | src/MakerClowdSquirrel.ts:40-49 | a version is unchanged exactly when no `.` follows its first `-` (both directions) |
| Version.ConvertVersionExamplesPlain | src/MakerClowdSquirrel.ts:46-47 | "" and "1.2.3" are kept |
| Version.ConvertVersionOfParts | src/MakerClowdSquirrel.ts:41-45 | a dash-free core, a `-` and any suffix: the core and the dash stay, the suffix loses its dots |
| Version.ConvertVersionExampleBeta | src/MakerClowdSquirrel.ts:40-49 | "1.2.3-beta.1" becomes "1.2.3-beta1" |
| Version.ConvertVersionExampleBuild | src/MakerClowdSquirrel.ts:40-49 | "1.0.0-rc.2-build.5" becomes "1.0.0-rc2-build5": every later segment loses its dots and the dashes stay |
| Version.RemoveDotBetween | src/MakerClowdSquirrel.ts:45 | a dot between two dot-free parts is removed and the parts are joined |
| CommandLine.Token | src/MakerClowdSquirrel.ts:131-150 | the flag literals pushed by `make`; each is `--` followed by a name, and `CommandLine.FlagOfToken` shows no two flags share one |
| CommandLine.FlagOf | src/MakerClowdSquirrel.ts:131-150 | a recognised token is exactly the token of the flag returned |
| CommandLine.FlagOfToken | src/MakerClowdSquirrel.ts:131-150 | every flag's token is recognised as that flag, so no two flags share a token |
| CommandLine.Occurrences | src/MakerClowdSquirrel.ts:131-150 | the picked options all have the flag and are no more than the list |
| CommandLine.FlattenAppend | src/MakerClowdSquirrel.ts:128-150 | the tokens of two option lists side by side are their token lists side by side |
| CommandLine.OccurrencesAppend | src/MakerClowdSquirrel.ts:131-150 | picking one flag's options commutes with concatenation |
| CommandLine.OccurrencesOfUniform | src/MakerClowdSquirrel.ts:131-150 | a list of one flag's options is picked whole by that flag and not at all by any other |
| CommandLine.ParseFlatten | src/MakerClowdSquirrel.ts:131-150 | a well-formed option list is read back exactly from its tokens |
| CommandLine.FlattenParse | src/MakerClowdSquirrel.ts:131-150 | whatever parses is well formed and flattens back to exactly the tokens read |
| MakerArgs.Truthy | src/MakerClowdSquirrel.ts:131 | JavaScript truthiness of an optional string: set and not empty; its effect on the arguments is stated by `MakerArgs.ReleasifyOptions` |
| MakerArgs.DefaultExe | src/MakerClowdSquirrel.ts:104 | the packager's `executableName` when truthy, else `appName`, plus `.exe`: the name always ends in `.exe`; with nothing configured it is the only `--mainExe` (`MakerArgs.PackArgsAllUnset`) |
| MakerArgs.Resolve | src/MakerClowdSquirrel.ts:105-125 | the destructuring with defaults; what it gives each option is stated by `MakerArgs.ReleasifyOptions` and `MakerArgs.PackOptions` |
| MakerArgs.Optional | src/MakerClowdSquirrel.ts:131 | `if (v) args.push(flag, v)` as options; implemented by `MakerArgs.PushIfTruthy` |
| MakerArgs.NoDeltaOpts | src/MakerClowdSquirrel.ts:135 | `if (noDelta) args.push('--noDelta')` as options; implemented by `MakerArgs.PushNoDelta` |
| MakerArgs.MainExeOpts | src/MakerClowdSquirrel.ts:139-141 | one `--mainExe` pair per executable, in order; implemented by `MakerArgs.PushMainExes` |
| MakerArgs.Segment | src/MakerClowdSquirrel.ts:131-150 | what each push site contributes; `MakerArgs.SegmentShape` and `MakerArgs.OccurrencesOfOptions` state that each site pushes only its own flag and that this is all the list holds for that flag |
| MakerArgs.Options | src/MakerClowdSquirrel.ts:130-150 | all options pushed after `pack`; pinned down by `MakerArgs.OptionsShape`, `MakerArgs.ReleasifyOptions`, `MakerArgs.PackOptions` and `MakerArgs.OptionsCharacterized` |
| MakerArgs.PackArgs | src/MakerClowdSquirrel.ts:128-150 | the argument list; `MakerArgs.BuildArgs` computes it, `MakerArgs.PackArgsParse` and `MakerArgs.PackArgsTail` state its shape |
| MakerArgs.Slot | src/MakerClowdSquirrel.ts:131-150 | every flag has one of the fifteen push sites |
| MakerArgs.SlotFlag | src/MakerClowdSquirrel.ts:131-150 | the flag pushed at a site has that site |
| MakerArgs.SlotFlagOfSlot | src/MakerClowdSquirrel.ts:131-150 | a flag's site pushes that flag, so sites and flags correspond one to one |
| MakerArgs.BuildArgs | src/MakerClowdSquirrel.ts:128-150 | the pushes leave exactly `PackArgs` of the configuration and the host |
| MakerArgs.PushIfTruthy | src/MakerClowdSquirrel.ts:131 | the flag and its value are appended when the value is truthy, and nothing otherwise |
| MakerArgs.PushNoDelta | src/MakerClowdSquirrel.ts:135 | `--noDelta` is appended exactly when the resolved `noDelta` is truthy |
| MakerArgs.PushMainExes | src/MakerClowdSquirrel.ts:139-141 | one `--mainExe` pair is appended per executable, in order |
| MakerArgs.PushPair | src/MakerClowdSquirrel.ts:146 | the flag and its value are appended unconditionally |
| MakerArgs.MainExeOptsSnoc | src/MakerClowdSquirrel.ts:139-141 | one more executable adds one more pair at the end |
| MakerArgs.OptionsInPushOrder | src/MakerClowdSquirrel.ts:130-150 | the option list is the sites' contributions in the order of the pushes, with `--debugSetupExe` twice |
| MakerArgs.SegmentShape | src/MakerClowdSquirrel.ts:131-150 | a push site only pushes its own flag, and always in the right form |
| MakerArgs.OccurrencesUpTo | src/MakerClowdSquirrel.ts:131-150 | the first k sites give a flag exactly its own site's options if that site is among them, and none otherwise |
| MakerArgs.OccurrencesOfOptions | src/MakerClowdSquirrel.ts:131-150 | in the full list every flag has exactly the options its site pushes |
| MakerArgs.ReleasifyOptions | src/MakerClowdSquirrel.ts:105-143 | per releasify flag, stated on the configuration: a truthy value appears once (`--debugSetupExe` twice); `--noDelta` appears unless set to ""; there is one `--mainExe` per configured executable, or only the default executable |
| MakerArgs.PackOptions | src/MakerClowdSquirrel.ts:119-150 | each pack flag appears exactly once, empty or not; unset, its value is the package name, the packaged directory, the raw manifest version, the id, or the manifest author |
| MakerArgs.OptionsUpToShape | src/MakerClowdSquirrel.ts:130-150 | the first k sites give a well-formed list in push order, all from sites below k |
| MakerArgs.ShapeAppend | src/MakerClowdSquirrel.ts:130-150 | appending the next site's options keeps the list well formed and in push order |
| MakerArgs.OptionsShape | src/MakerClowdSquirrel.ts:130-150 | the option list is well formed and in the order of the pushes |
| MakerArgs.OccurrencesEmpty | src/MakerClowdSquirrel.ts:131-150 | a flag picks nothing exactly when no option has it |
| MakerArgs.PushOrderUnique | src/MakerClowdSquirrel.ts:130-150 | two lists in push order with the same options per flag are equal |
| MakerArgs.OptionsCharacterized | src/MakerClowdSquirrel.ts:130-150 | the option list is the only list in push order with those per-flag options |
| MakerArgs.PackArgsParse | src/MakerClowdSquirrel.ts:128-150 | the arguments are `pack` and then tokens that parse back to exactly the option list |
| MakerArgs.PackArgsTail | src/MakerClowdSquirrel.ts:146-150 | the last ten arguments are the five pack pairs in their fixed order |
| MakerArgs.PackSitesUnfold | src/MakerClowdSquirrel.ts:146-150 | the last five push sites are the five pack pairs |
| MakerArgs.FlattenPackPairs | src/MakerClowdSquirrel.ts:146-150 | the five pack pairs give their ten tokens in order |
| MakerArgs.PackArgsAllUnset | src/MakerClowdSquirrel.ts:104-150 | with nothing configured the arguments are `pack --noDelta --mainExe <default exe>` and the pack pairs from the manifest, the title being the package name |
| MakerArgs.OptionsAllUnset | src/MakerClowdSquirrel.ts:104-150 | the option list with nothing configured |
| MakerArgs.UnemittedFieldsIgnored | src/MakerClowdSquirrel.ts:105-125 | `includePdb`, `releaseNotes`, `signParams` and `signTemplate` never change the arguments |
| MakerArgs.Make | src/MakerClowdSquirrel.ts:127-157 | the command is `Squirrel.exe`, the arguments are `PackArgs`, and the package version is `ConvertVersion` of the manifest version |
| MakerArgs.PackVersionAgainstNupkgVersion | src/MakerClowdSquirrel.ts:121 | with `packVersion` unset, `--packVersion` gets the raw manifest version, which equals the converted one exactly when no `.` follows the first `-` |

## Left out

- Spawning the process and logging (src/MakerClowdSquirrel.ts:152-158) are I/O. `Make` returns the command, the arguments and the converted version instead.
- Creating the output directory and resolving `outPath` (src/MakerClowdSquirrel.ts:101-102) are file-system I/O. `makeDir` and `targetArch` feed only that path.
- Platform support, `name`, `defaultPlatforms` and the `MakerBase` machinery (src/MakerClowdSquirrel.ts:84-91) belong to Electron Forge, not to this maker's logic.
- The returned artifact list (src/MakerClowdSquirrel.ts:160-169) is always empty. It is not modelled as data.
- `async`/`Promise` are not modelled: the model is a sequential computation.
- The framework and MSI string unions (src/MakerClowdSquirrel.ts:6-38) are plain strings, because the code passes them through unchanged.
- `noDelta` is declared a string. A non-string value, such as a boolean `false` from untyped JavaScript, is not modelled. The model treats only "" as falsy, so `"false"` still pushes `--noDelta`.
- `packageJSON.author` can be an object in a manifest. The model takes it as a string.
- `package`, from the releasify option type, is omitted from the pack options by the type and never read. It is not modelled.
