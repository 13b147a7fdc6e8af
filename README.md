# Site-extension operation tracking (Kudu), modelled in Dafny

This project models how the Kudu site-extension API tracks asynchronous
install and uninstall operations. It has two parts.

- **The per-extension operation record, `SiteExtensionArmSettings`** (module
  `ArmSettings`). It is a small JSON object with `provisioningState`,
  `comment`, `Operation` and `Status`. It is stored in the file
  `<root>\<id>\SiteExtensionSetting.json`. Each instance keeps an in-memory
  copy (`cache`) that it loads from that file. The setters change only the
  cache; `SaveArmSettings` writes the whole cache back; `RefreshArmSettingsCache`
  reloads it; `RemoveArmSettings` deletes the file. The file system is a
  `FileStore` object holding a `map` from path to record, so a change that is
  made but not yet saved differs visibly from a persisted one.
- **The response logic of `SiteExtensionController`** (module `Controller`).
  `LocalExtensionOutcome` is a pure function. It takes the live lookup
  result, the request mode (`isArm`) and the stored record. It returns the
  response (status, body, restart header) and says whether the record's
  `Operation` is cleared and saved. The method `GetLocalExtension` does the
  settings read and write the way the controller does, and is proved
  against that function. `InstallExtension` and `UninstallExtension` give
  201/202 for ARM requests, and 200 or an error for plain requests. They
  also report the calls they make on the extension manager and whether each
  call is awaited.

The .NET routines the code relies on are modelled in module `NetText`:
`string.Equals` with `OrdinalIgnoreCase`, `string.IsNullOrWhiteSpace`, and
`Path.Combine` with .NET Framework semantics on Windows. Module `Contracts`
holds the descriptor `SiteExtensionInfo`, the constants and the status
codes. Nullable strings are `Option<string>` (module `Nullable`).

Three behaviours of the code are worth stating, because the resource-manager
polling convention suggests otherwise. A fourth point concerns a declared
type:

- `CreateSettingInstance` does not reset the record. It loads the existing
  file, sets only `provisioningState` to `Created` and saves. The prior
  comment, operation and status survive.
- The controller never deletes a record. A poll that observes a finished
  operation only clears `Operation` and saves.
- An ARM poll that finds no installed extension, while the record tracks any
  non-blank operation, answers with the record's status and state. It then
  clears the operation. It does this whatever the provisioning state is,
  including a state that has not finished yet. The second such poll answers
  404.
- `ISiteExtensionManager.UninstallExtension` is declared to return `bool`.
  The controller, however, reads `ProvisioningState` and `Comment` from its
  result. The model follows the controller: the uninstall result is a
  descriptor.

Settings paths: distinct ids under one root map to distinct path strings
when the ids contain no `\`, `/` or `:` (`DistinctIdsDistinctPaths`).
`Path.Combine` adds no separator after a part that already ends in one, so
a non-empty plain id and the same id followed by `\` (such as `a` and `a\`)
share a path string (`TrailingSeparatorSharesFile`). A rooted id
discards the settings root (`RootedIdIgnoresRoot`).

Assumptions about code that is not part of this model:

- `JsonSettings.Read` is taken to yield an empty object when the file does
  not exist. `GetLocalExtension` reads `Operation` from the settings of every
  id, including ids that have never had a record, and this only works if
  the read returns an empty object rather than null.
- The values of the `Constants` members are taken as `Created`, `Succeeded`,
  `Failed` and `Install`.
- The code that reads the `Status` property is not part of this model. When
  a record stores no status, the model gives it the code `Unrecorded`
  instead of guessing a default.

## Model

| member | source | states |
|---|---|---|
| `NetText.CombineTwo` | Kudu.Core/SiteExtensions/SiteExtensionArmSettings.cs:99 | the combined path ends with the second part; unless that part is rooted, it starts with the first part; a rooted second part replaces a non-empty first part |
| `NetText.Combine` | Kudu.Core/SiteExtensions/SiteExtensionArmSettings.cs:99 | the three-part combined path ends with the last part, and starts with the first part unless a later part is rooted |
| `ArmSettings.GetFilePath` | Kudu.Core/SiteExtensions/SiteExtensionArmSettings.cs:97-100 | every settings path ends with the fixed file name `SiteExtensionSetting.json` |
| `ArmSettings.DistinctIdsDistinctPaths` | Kudu.Core/SiteExtensions/SiteExtensionArmSettings.cs:97-100 | under one root, two different ids with no separator characters get different settings path strings |
| `ArmSettings.TrailingSeparatorSharesFile` | Kudu.Core/SiteExtensions/SiteExtensionArmSettings.cs:97-100 | for every root, a non-empty plain id and the same id followed by `\` get the same settings path string |
| `ArmSettings.TrailingSeparatorExample` | Kudu.Core/SiteExtensions/SiteExtensionArmSettings.cs:97-100 | for every root, ids `a` and `a\` get the same settings path string |
| `ArmSettings.RootedIdIgnoresRoot` | Kudu.Core/SiteExtensions/SiteExtensionArmSettings.cs:97-100 | a rooted id gets the same settings path string whatever the root |
| `ArmSettings.SiteExtensionArmSettings.constructor` | Kudu.Core/SiteExtensions/SiteExtensionArmSettings.cs:47-52 | a new instance is bound to its path and its cache holds what the store has at that path |
| `ArmSettings.SiteExtensionArmSettings.ProvisioningState` | Kudu.Core/SiteExtensions/SiteExtensionArmSettings.cs:23-26 | the provisioning state held in the cache (null when absent); the setter rows state the read-back |
| `ArmSettings.SiteExtensionArmSettings.Comment` | Kudu.Core/SiteExtensions/SiteExtensionArmSettings.cs:36-39 | the comment held in the cache (null when absent); the setter rows state the read-back |
| `ArmSettings.SiteExtensionArmSettings.Operation` | Kudu.Services/SiteExtensions/SiteExtensionController.cs:62 | the operation held in the cache (null when absent), which the controller compares and clears |
| `ArmSettings.SiteExtensionArmSettings.Status` | Kudu.Services/SiteExtensions/SiteExtensionController.cs:86 | the status held in the cache (`Unrecorded` when absent), which the controller answers with |
| `ArmSettings.SiteExtensionArmSettings.SetProvisioningState` | Kudu.Core/SiteExtensions/SiteExtensionArmSettings.cs:21-32 | reading back gives the value just set; comment, operation, status and the store are unchanged |
| `ArmSettings.SiteExtensionArmSettings.SetComment` | Kudu.Core/SiteExtensions/SiteExtensionArmSettings.cs:34-45 | reading back gives the value just set; provisioning state, operation, status and the store are unchanged |
| `ArmSettings.SiteExtensionArmSettings.SetOperation` | Kudu.Services/SiteExtensions/SiteExtensionController.cs:67 | reading back gives the value just set; the other fields and the store are unchanged |
| `ArmSettings.SiteExtensionArmSettings.CreateSettingInstance` | Kudu.Core/SiteExtensions/SiteExtensionArmSettings.cs:54-60 | the cache and the stored record at the id's path are the previously stored record (or the empty one) with provisioning state `Created`; no other file changes |
| `ArmSettings.SiteExtensionArmSettings.GetSettings` | Kudu.Core/SiteExtensions/SiteExtensionArmSettings.cs:62-65 | a fresh instance at the id's path whose cache is what the store holds there; the store is unchanged |
| `ArmSettings.SiteExtensionArmSettings.RefreshArmSettingsCache` | Kudu.Core/SiteExtensions/SiteExtensionArmSettings.cs:67-70 | the cache becomes the stored record, and the store is unchanged |
| `ArmSettings.SiteExtensionArmSettings.SaveArmSettings` | Kudu.Core/SiteExtensions/SiteExtensionArmSettings.cs:72-75 | the whole cache is stored at the instance's path; every other path keeps its record |
| `ArmSettings.SiteExtensionArmSettings.FillSiteExtensionInfo` | Kudu.Core/SiteExtensions/SiteExtensionArmSettings.cs:77-81 | the descriptor gets exactly the cached provisioning state and comment; its id, version and feed are kept |
| `ArmSettings.SiteExtensionArmSettings.ReadSiteExtensionInfo` | Kudu.Core/SiteExtensions/SiteExtensionArmSettings.cs:83-87 | the cache takes the descriptor's provisioning state and comment; operation, status and the store are unchanged |
| `ArmSettings.SiteExtensionArmSettings.RemoveArmSettings` | Kudu.Core/SiteExtensions/SiteExtensionArmSettings.cs:89-95 | the instance's file is absent afterwards (removing an absent file changes nothing) and every other file is kept |
| `ArmSettings.CreateThenGet` | Kudu.Core/SiteExtensions/SiteExtensionArmSettings.cs:54-65 | after creation a fresh load reads `Created`, with the comment, operation and status stored before |
| `ArmSettings.SetThenSave` | Kudu.Core/SiteExtensions/SiteExtensionArmSettings.cs:41-75 | a setter leaves the stored record as it was; after saving, the stored record is the old cache with the new comment |
| `ArmSettings.SaveThenRefresh` | Kudu.Core/SiteExtensions/SiteExtensionArmSettings.cs:67-75 | refreshing right after saving leaves the cache unchanged |
| `ArmSettings.SetThenRefresh` | Kudu.Core/SiteExtensions/SiteExtensionArmSettings.cs:21-70 | refreshing throws away an unsaved setter change: the cache equals the store, which the setter never touched |
| `ArmSettings.ReadThenFill` | Kudu.Core/SiteExtensions/SiteExtensionArmSettings.cs:77-87 | reading one descriptor in and filling another gives the second descriptor the first one's provisioning state and comment, and nothing else changes |
| `ArmSettings.RemoveTwice` | Kudu.Core/SiteExtensions/SiteExtensionArmSettings.cs:89-95 | a second removal is a no-op; records at other paths are untouched |
| `Controller.NotFoundError` | Kudu.Services/SiteExtensions/SiteExtensionController.cs:95 | a 404 error response without the restart header |
| `Controller.LocalExtensionOutcome` | Kudu.Services/SiteExtensions/SiteExtensionController.cs:51-100 | found: 200 in both modes, with the restart header and the clearing of Operation together, exactly when ARM, state `Succeeded` and operation `Install` (ignoring case). Not found under ARM with a blank operation: 404 with a fresh descriptor holding only the id, no write. Not found under ARM with an operation: the record's status, state and comment over the id, and the operation is cleared. Not found in plain mode: a 404 error and no write. Clearing happens only under ARM and only when the record has an operation |
| `Controller.AfterLocal` | Kudu.Services/SiteExtensions/SiteExtensionController.cs:67-89 | the record GetLocalExtension saves: the operation is null when the decision clears it, and state, comment and status are kept |
| `Controller.RestartHeaderDeliveredOnce` | Kudu.Services/SiteExtensions/SiteExtensionController.cs:60-69 | once a poll has sent the restart header and cleared the operation, no later poll of the saved record sends it again or writes again |
| `Controller.MissingExtensionReportedOnce` | Kudu.Services/SiteExtensions/SiteExtensionController.cs:76-90 | an ARM poll that finds no extension reports the tracked operation once; the next poll is a 404 with the bare id |
| `Controller.PollResponses` | Kudu.Services/SiteExtensions/SiteExtensionController.cs:51-100 | successive polls give one response each; the record they leave has the same state, comment and status, and its operation is the original one or null |
| `Controller.NoRestartWithoutInstall` | Kudu.Services/SiteExtensions/SiteExtensionController.cs:60-69 | polls of a record that does not track an Install never send the restart header |
| `Controller.RestartHeaderAtMostOnce` | Kudu.Services/SiteExtensions/SiteExtensionController.cs:60-69 | over any sequence of polls with no other write to the record, the restart header is sent at most once |
| `Controller.GetLocalExtension` | Kudu.Services/SiteExtensions/SiteExtensionController.cs:51-100 | the response is the one `LocalExtensionOutcome` decides from the stored record; when the operation is cleared, the file existed and is rewritten with `Operation` null; otherwise the store is unchanged |
| `Controller.PollLocalExtension` | Kudu.Services/SiteExtensions/SiteExtensionController.cs:51-100 | successive GetLocalExtension calls with no other writer return exactly the `PollResponses` responses and leave its record in the store, so the restart header is sent at most once |
| `Controller.RemoteExtensionOutcome` | Kudu.Services/SiteExtensions/SiteExtensionController.cs:32-42 | a found catalog entry is returned with 200; a missing one is a 404 error naming the id |
| `Controller.InstallExtension` | Kudu.Services/SiteExtensions/SiteExtensionController.cs:103-135 | init is always called first; the install gets the request's version and feed (null for a missing body) and is awaited only for plain requests; ARM: 201 with the init result in an ARM envelope; plain `Failed` (ignoring case): an error at the stored status carrying the result's comment; otherwise 200 with the result |
| `Controller.UninstallExtension` | Kudu.Services/SiteExtensions/SiteExtensionController.cs:138-164 | the uninstall is awaited only for plain requests; ARM: 202 with an enveloped descriptor holding only the id; plain `Failed`: an error at the stored status with the result's comment; otherwise 200 with a flag that is true exactly when the result `Succeeded` (ignoring case) |

## Left out

- The detached background install and uninstall tasks, and concurrency in general. The manager's results are parameters. Races between concurrent writers of one settings file, and the missing file locking, are not modelled.
- The extension manager (`ISiteExtensionManager`) is not part of this model. This includes `InitInstallSiteExtension`, which creates the settings record. Its results are non-null descriptors: a null result, which the controller would dereference, is not modelled.
- `ArmUtils.IsArmRequest` is the `isArm` flag. `ArmUtils.AddEnvelopeOnArmRequest` is the `armEnvelope` flag of a descriptor body. `CreateResponse`, `CreateErrorResponse` and `HttpResponseException` become a `Response` value. A thrown error response and a returned one are not told apart.
- The pass-through list endpoints `GetRemoteExtensions` and `GetLocalExtensions` have no logic of their own.
- The JSON file codec (`JsonSettings.Read`/`Save`), `FileSystemHelpers` and the `OperationManager.Attempt` retry are abstracted as the map-backed `FileStore`. Failures of the file system are not modelled.
- The HTTP client helpers of `Kudu.Client` are transport plumbing and are left out.
- `NetText.EqualsIgnoreCase` folds only ASCII letters. The other Unicode case pairs of .NET's ordinal case-insensitive comparison are not modelled. The constants compared against are ASCII.
- `NetText.Combine` does not model the argument checks of `Path.Combine`: null arguments and invalid path characters throw in .NET.
- `FileStore` compares paths as exact strings, with no case-insensitive or `.`-segment normalisation of Windows file names. Ids such as `Foo` and `foo`, or `a` and `a.`, name one file on Windows but two records here.
- `SiteExtensionInfo` fields other than id, version, feed URL, provisioning state and comment are not modelled. The core neither reads nor writes them.
- `ArmSettings.SiteExtensionArmSettings.FillSiteExtensionInfo` returns the filled descriptor instead of writing into the caller's object. Its only caller fills a descriptor it has just created, so no other reference can observe the difference.
