# Installation plan, progress steps and bundle selection of the Clear Linux installer

This project models three sequential pieces of the Clear Linux OS installer (`clr-installer`), written in Go, and proves properties about them:

1. **The installation plan (`SystemInstall`) and its mutation API.** Bundles, user bundles, users and target media are slices used as sets. An add is a no-op when an equal element is already present. Users are compared by login. Block devices are compared structurally, which makes `BlockDevice` a datatype. The kernel-argument holder and the telemetry holder start out nil and are allocated on first use, so they are modelled as `Option`. The registry of test device aliases and the positional naming of partitions under an alias (`sda` → `sda1`, `sda2`, …) are modelled too. The Go file that implements this API is not part of this model. The behaviour stated here is the behaviour the model package's tests pin down, and `ModelTests` restates each of those tests as a client method whose postconditions are the test's assertions.
2. **The progress-step tracker of the graphical install and pre-check pages.** A `selection` counter starts at -1, and a map goes from step index to the row widget shown for that step. `Desc` opens a new step and finalises the previous one. `Success` and `Failure` mark the current step. The tracker is specified once, by the `Progress.StepState` datatype, and both page classes are proved against it. After the worker returns, each page's `ResetChanges` reduces the outcome to an info text, a label style, button states and, for the pre-check page, one success signal.
3. **The text-mode bundle page.** `Activate` sets each checkbox from the plan. The confirm handler adds the checked bundles, removes the unchecked ones and sets the page's done flag. `GetConfiguredValue` builds the summary line. `newBundlePage` appends the loaded bundles to the package-level list.

Modules: `Wrappers` (Option, Result), `Collections` (slices as sets), `Text` (first line, join/split, decimal numbers), `Storage` (block devices and alias naming), `Model` (the plan and the alias registry), `ModelTests` (the plan's test scenarios), `Progress` (the step tracker), `Pages` (the two GTK pages and the controller), `Tui` (the bundle page).

Foreign calls are parameters. This covers the plan's validation, the installer, the pre-check and the bundle catalogue loader: each method receives the error (or the list) the call returns. Translation lookups are the identity, so every message is its English text. The controller is modelled as a record of the button states set and the pre-check signals sent.

## Model

| member | source | states |
|---|---|---|
| Collections.Contains | model/model_test.go:157-170 | the membership test behind `ContainsBundle`: true exactly when the element is in the slice |
| Collections.AddUnique | model/model_test.go:174-179 | de-duplicating add: the element is present afterwards, nothing else is added, the old entries keep their order, no duplicates are introduced, and the length grows only when the element was absent |
| Collections.Without | model/model_test.go:167-172 | removal: the element is gone, every other element keeps its membership, no duplicates are introduced, nothing is added, and an absent element leaves the slice unchanged |
| Collections.WithoutConcat | model/model_test.go:167-172 | removal distributes over concatenation, so the kept elements stay in their original order |
| Collections.WithoutSingle | model/model_test.go:167-172 | a one-element slice keeps its element exactly when it is not the removed one; with `WithoutConcat` this fixes the result of every removal |
| Collections.AddAll | model/model_test.go:288-316 | adding a list: the result holds exactly the old elements and the new ones, keeps the old ones as a prefix, introduces no duplicates and grows by at most the list's length |
| Collections.AddAllPresent | model/model_test.go:308-315 | adding elements that are all already present changes nothing |
| Collections.AddAllIdempotent | model/model_test.go:308-315 | adding the same argument list twice gives the same list as adding it once |
| Collections.AddAllDistinct | model/model_test.go:298-306 | distinct arguments added to an empty list give exactly that list, so its length is the argument count |
| Text.FirstLine | gui/pages/install.go:189 | `strings.Split(msg, "\n")[0]`: a newline-free prefix of the message that stops at the first newline or at the end |
| Text.FirstLineOfLines | gui/pages/install.go:185-189 | a newline-free line followed by a newline and anything has that line as its first line |
| Text.Join | tui/bundle.go:38 | `strings.Join`: the empty list joins to the empty string, a one-element list to exactly its element, and a non-empty join starts with the first element; with `JoinAppend` this fixes every join |
| Text.JoinAppend | tui/bundle.go:38 | joining a non-empty list with one more element appends the separator and that element, so the elements appear in list order with one separator between neighbours |
| Text.SplitJoin | tui/bundle.go:38 | the ", "-joined list splits back into the list when no name contains ", " |
| Text.NatToString | model/model_test.go:95 | the decimal rendering of a number (`%d`): only digits, one digit exactly for numbers below ten, no leading zero for a positive number, and ending in the last decimal digit |
| Text.DecimalValueOfNatToString | model/model_test.go:95 | reading the rendering back as a decimal number gives the number, so the rendering is the decimal notation of `i+1` |
| Text.NatToStringInjective | model/model_test.go:94-104 | different numbers render differently |
| Storage.BlockDevice.GetDeviceFile | model/model_test.go:90-91 | a device's file is its name under "/dev/" |
| Storage.AliasName | model/model_test.go:84-91 | an alias under "/dev/" denotes the name after that directory, and "/dev/" followed by the name gives the alias back |
| Storage.ChildName | model/model_test.go:95 | the name of child i is the disk's name followed by the decimal rendering of i+1 |
| Storage.ChildNamesDistinct | model/model_test.go:94-104 | children at different positions get different names |
| Storage.ExpandAlias | model/model_test.go:84-105 | expansion names the disk after the alias and child i after the disk followed by i+1; every other attribute is kept |
| Storage.ExpandedDeviceFiles | model/model_test.go:90-104 | an expanded disk's device file is the alias, and child i's is the alias followed by i+1 |
| Storage.ExpandedChildrenDistinct | model/model_test.go:94-104 | the children of an expanded disk have pairwise distinct device files |
| Model.WithUser | model/model_test.go:238-252 | adding a user keeps logins unique and leaves the login present; when the login was taken the list is unchanged, otherwise the old users are kept in order and the new user is appended as the last entry |
| Model.KernelArgumentsOrNew | model/model_test.go:292-296 | the kernel-argument mutators work on the existing holder, or on a fresh one with empty add and remove lists when the plan has none |
| Model.TestAliases.constructor | model/model_test.go:63-64 | the test-alias registry starts empty |
| Model.TestAliases.IsTestAlias | model/model_test.go:63-74 | `isTestAlias` is true exactly when the name is registered |
| Model.TestAliases.ExpandTestAlias | model/model_test.go:76-105 | a disk named through a registered alias under "/dev/" is expanded, with the alias as its device file and the alias followed by i+1 for child i; for any other alias the result is `None`, meaning this model does not resolve it |
| Model.SystemInstall.constructor | model/model_test.go:109 | `&SystemInstall{}` has empty collections, no kernel-argument holder and no telemetry holder |
| Model.SystemInstall.IsTelemetryEnabled | model/model_test.go:108-113 | an absent telemetry holder reads as disabled and does not fail; otherwise the holder's flag is returned |
| Model.SystemInstall.EnableTelemetry | model/model_test.go:115-123 | allocates the holder if needed, after which telemetry is enabled exactly when asked |
| Model.SystemInstall.ContainsBundle | model/model_test.go:157-170 | true exactly when the bundle is in the plan |
| Model.SystemInstall.AddBundle | model/model_test.go:161-179 | the bundles become the old ones with the bundle added unless present; no duplicates |
| Model.SystemInstall.RemoveBundle | model/model_test.go:167-172 | the bundles become the old ones without the bundle, in order |
| Model.SystemInstall.ContainsUserBundle | tui/bundle.go:48 | true exactly when the bundle is a user bundle |
| Model.SystemInstall.AddUserBundle | tui/bundle.go:98 | the user bundles become the old ones with the bundle added unless present |
| Model.SystemInstall.RemoveUserBundle | tui/bundle.go:101 | the user bundles become the old ones without the bundle, in order |
| Model.SystemInstall.AddTargetMedia | model/model_test.go:190-210 | the target media become the old ones with the device appended unless a structurally equal one is present |
| Model.SystemInstall.AddUser | model/model_test.go:236-252 | the users become the old ones with the user appended unless its login is taken |
| Model.SystemInstall.RemoveAllUsers | model/model_test.go:254-257 | the user list becomes empty |
| Model.SystemInstall.AddExtraKernelArguments | model/model_test.go:288-316 | allocates the holder if absent; the list of arguments to add becomes the old one with each argument added unless present; the remove list is kept |
| Model.SystemInstall.RemoveKernelArguments | model/model_test.go:318-346 | allocates the holder if absent; the list of arguments to remove becomes the old one with each argument added unless present; the add list is kept |
| ModelTests.IsTestAliasScenario | model/model_test.go:63-74 | false for an empty registry, true once "/dev/sda" is appended |
| ModelTests.BlockDevicesAliasScenario | model/model_test.go:76-105 | under alias "/dev/sda" the disk is "sda" with file "/dev/sda", and child i is "sda{i+1}" with file "/dev/sda{i+1}" |
| ModelTests.EnableTelemetryScenario | model/model_test.go:108-124 | telemetry is off by default; enabling allocates the holder and turns it on |
| ModelTests.BundleScenario | model/model_test.go:154-180 | a bundle is absent before its add, present after it and absent after its remove; the other bundle is kept; two adds of one name leave one entry |
| ModelTests.AddTargetMediaScenario | model/model_test.go:182-211 | one disk gives length 1, re-adding it keeps length 1, and a renamed copy gives length 2 |
| ModelTests.UserScenario | model/model_test.go:228-259 | users with distinct logins grow the list by one per add; re-adding the first is a no-op; removing all empties it |
| ModelTests.AddExtraKernelArgumentsScenario | model/model_test.go:288-316 | on a fresh plan the holder is allocated, the add list has one entry per distinct argument and holds all of them, and a second call does not grow it |
| ModelTests.RemoveKernelArgumentsScenario | model/model_test.go:318-346 | on a fresh plan the holder is allocated, the remove list has one entry per distinct argument and holds all of them, and a second call does not grow it |
| Progress.NewInstallWidget | gui/pages/install.go:226 | a new step row carries its description and is neither finalised nor marked |
| Progress.StepState.Desc | gui/pages/install.go:216-230 | the selection grows by one and the rows stay exactly steps 0..selection; the new step gets a fresh row; the previous step is finalised only if one exists; earlier rows are unchanged |
| Progress.StepState.Mark | gui/pages/install.go:241-249 | with a step described, only the current row changes, and it gets the success or failure mark |
| Progress.Replay | gui/pages/install.go:216-230 | after n descriptions from a new page the selection is n-1 and the rows are exactly steps 0..selection |
| Progress.ReplayRows | gui/pages/install.go:216-230 | after n descriptions the rows are exactly 0..n-1 in description order; all but the last are finalised and none is marked |
| Progress.FirstDescMarksNothing | gui/pages/install.go:220-223 | the first `Desc` finalises nothing: the only row is the new one |
| Pages.StepSequenceScenario | gui/pages/install.go:216-249 | a worker reporting `Desc("A")`, `Desc("B")`, `Success()` to a new install page leaves two rows: A finalised and unmarked, B marked succeeded and not finalised |
| Pages.Controller.SetButtonState | gui/pages/install.go:208 | records the button's new enabled state |
| Pages.Controller.SetPreCheckChannel | gui/pages/pre_check.go:177 | records one more pre-check signal |
| Pages.FailureText | gui/pages/install.go:185-189 | a failure message is the fixed sentence, a newline, and the error's first line, which is a newline-free prefix of the error |
| Pages.FailureTextLines | gui/pages/install.go:185-189 | a failure message is the fixed sentence, one newline, and the error's first line: the first line of the message is the sentence, the rest is a newline-free prefix of the error, and the message has no other newline |
| Pages.InstallPage.constructor | gui/pages/install.go:44-49 | a new install page has selection -1 and no rows |
| Pages.InstallPage.Desc | gui/pages/install.go:216-239 | the page's steps become `Desc` of the old steps |
| Pages.InstallPage.Failure | gui/pages/install.go:241-244 | with a step described, the steps become the old ones with the current step marked failed |
| Pages.InstallPage.Success | gui/pages/install.go:246-249 | with a step described, the steps become the old ones with the current step marked succeeded |
| Pages.InstallPage.ResetChanges | gui/pages/install.go:155-211 | a validation error stops before the install and leaves the in-progress text and the buttons alone; otherwise the install runs, and its error gives "Installation failed." plus a newline plus the error's first line in warning style, while no error gives the success text; Quit is enabled in both cases |
| Pages.PreCheckPage.constructor | gui/pages/pre_check.go:41-46 | a new pre-check page has selection -1 and no rows |
| Pages.PreCheckPage.Desc | gui/pages/pre_check.go:181-205 | the page's steps become `Desc` of the old steps |
| Pages.PreCheckPage.Failure | gui/pages/pre_check.go:207-210 | with a step described, the steps become the old ones with the current step marked failed |
| Pages.PreCheckPage.Success | gui/pages/pre_check.go:212-215 | with a step described, the steps become the old ones with the current step marked succeeded |
| Pages.PreCheckPage.ResetChanges | gui/pages/pre_check.go:146-179 | exactly one signal is sent, true exactly when the check returned no error; on failure the text is "Prerequisites for installation are not met." plus a newline plus the error's first line in warning style and the buttons are untouched; on success the success text is shown and Exit is disabled |
| Tui.AnyChecked | tui/bundle.go:95-105 | true exactly when some checkbox has state 1 |
| Tui.Activated | tui/bundle.go:45-53 | every checkbox gets state 1 if its bundle is a user bundle and 0 otherwise; the bundles are kept |
| Tui.Confirmed | tui/bundle.go:96-104 | confirming keeps the user bundles free of duplicates |
| Tui.ConfirmedMembership | tui/bundle.go:94-105 | with distinct bundle names, a listed bundle is selected after confirming exactly when its box is checked, and unlisted bundles keep their membership |
| Tui.LastState | tui/bundle.go:96-104 | the state of the last checkbox carrying a name: absent exactly when no box carries it, otherwise the state of a box with that name that no later box shares |
| Tui.ConfirmedLastBoxWins | tui/bundle.go:96-104 | for any list of boxes, duplicates included, confirming selects a bundle exactly when its last box is checked, and a bundle with no box keeps its earlier selection |
| Tui.ConfirmActivated | tui/bundle.go:42-104 | confirming the boxes exactly as `Activate` set them leaves the user bundles unchanged |
| Tui.BundleList.constructor | tui/bundle.go:26-28 | the package-level bundle list starts empty |
| Tui.BundlePage.constructor | tui/bundle.go:57 | a new bundle page is not done |
| Tui.BundlePage.GetConfiguredValue | tui/bundle.go:31-39 | "No bundles selected" when there are no user bundles; otherwise the user bundles joined by ", " |
| Tui.ConfiguredValueRoundTrip | tui/bundle.go:31-39 | the summary of a non-empty selection splits at ", " back into the user bundles, in order, when no name contains ", " |
| Tui.BundlePage.Activate | tui/bundle.go:42-54 | the checkboxes become `Activated` of the old ones against the user bundles |
| Tui.BundlePage.Confirm | tui/bundle.go:93-107 | the user bundles become `Confirmed` of the old ones, with duplicates still excluded, and done is whether any box was checked |
| Tui.NewBundlePage | tui/bundle.go:56-83 | a loading error is returned with the list untouched; otherwise every loaded bundle is appended after the existing ones, in order, and every checkbox starts unchecked |

## Left out

- The plan's implementation file (model/model.go) is not part of this model. The mutators' bodies are rebuilt from what the tests require: a linear membership test, append-if-absent and an order-keeping filter.
- Loading and writing descriptors (`LoadFile`, `WriteFile`, YAML parsing) and the tests of them: this is file I/O and deserialisation whose code is not shown. The alias tests' `LoadFile` is replaced by `ExpandTestAlias` applied to the loaded disk.
- `Validate`: its rules are not shown. Its result is a parameter of `Pages.InstallPage.ResetChanges`.
- `AddNetworkInterface`: the network-interface type is not shown, and its test only checks one add to an empty plan.
- Telemetry settings other than the enabled flag are not modelled.
- `Partial` and `Step`: they compute a floating-point fraction and pulse the progress bar. The progress bar's `SetFraction(1.0)` after the worker returns is not modelled either.
- Goroutines, the process-wide `progress.Set` register, `time.Sleep` pacing, `LoopWaitDuration` and `network.DownloadInstallerMessage`. The worker runs to completion inside `ResetChanges`, and only its returned error is modelled.
- The progress calls the worker makes while it runs are not replayed inside `ResetChanges`. They are covered by `Desc`, `Success` and `Failure` on their own.
- Pages.InstallPage.ResetChanges: assumes the info label's style context is always available. When GTK fails to return it, the source only logs a warning and keeps the old style.
- Pages.PreCheckPage.ResetChanges: assumes the same for the style context.
- GTK and clui widget construction, the `panic` when a step widget cannot be created, and list selection and scrolling in `Desc`. The trivial page getters (`IsRequired`, `IsDone`, `GetID`, titles, icons) and the Cancel handler's navigation are left out as well.
- Buttons are a datatype, and each call sets a single button. The source's bit-flag `Button` values, where one call may combine several flags, are not modelled.
- Tui.NewBundlePage: the checkbox is nil between the append loop and the loop that creates the checkboxes; the model treats it as an unchecked box. Checkbox labels and layout are not modelled.
- Translations (`utils.Locale.Get`) are the identity.
- Storage.BlockDevice: only the name, mount point, file-system type, size and children are kept, and structural equality compares exactly these. The device type, label and boot/root flags are not modelled. The plan's `TargetMedias` and `Users` slices hold pointers in the source, so two entries may alias one object; the model stores values, so it does not capture aliasing or later mutation through a shared pointer.
- Model.TestAliases.ExpandTestAlias: only a registered alias under "/dev/" is resolved. The registry lookup for unregistered names, where a name is its own device file, is not modelled: `None` means the model does not resolve that name, not that the source fails. The lookup code is in model/model.go, which is not part of this model.
- Storage.BlockDevice.GetDeviceFile: the device file is "/dev/" followed by the name, by plain concatenation. The tests build the expected file with `filepath.Join`, which differs for an empty name and for names that contain "/" or "..".
- Tui.ConfiguredValueRoundTrip: says nothing when a selected bundle name contains ", ", because such a summary does not split back into the selection.
- Printing the validation error to standard output in `ResetChanges` (gui/pages/install.go:163) is I/O and is not modelled; only the early return is.
- The confirm handler's navigation back to the menu page (`GotoPage(TuiPageMenu)`, tui/bundle.go:106) is not modelled; `Confirm` ends with the done flag set.
