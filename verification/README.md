# app-decorators-cli installer, modelled in Dafny

This project models the install orchestrator of `appdec`, the command-line
tool that scaffolds a new app-decorators component. `Install.Install`
creates `<RootPath>/<Name>`, runs the package manager there, removes the
generated `package.json`, writes `<CliName>.json` with `{name, version}`
and copies every entry of `node_modules/app-decorators` into the new
directory. Every step can end the run, and nothing is rolled back.

The outside world is abstract:

- `FileSystem` holds a value `Tree`: directories with their permission bits, files with their bytes, and the working directory. The class `Os` holds that state. Its methods `Chdir`, `Mkdir` and `Remove` are the `Chder`, `Mkder` and `Remover` capabilities of the `Oser` interface, with the real `os` package as their contract. `WriteFile` stands for `ioutil.WriteFile`. `ReadFiles` and `CopyFile` stand for the `osX` helpers. An operation fails for the operating system's own reason (the target is missing or already exists) or because the environment injects a `Fault` for it.
- `Exec.Commands` is the process runner. It logs every list of commands it is given. What the package manager does is an oracle `Response`: the files it writes and whether it reports success.
- `Json.Stringifyer` is the serializer: a deterministic encoding that may fail.

`Install.Installer.Simulate` is the reference definition of one run. Its
postconditions say, exit by exit, what the run returns, which steps ran,
which commands were issued and what the filesystem is afterwards. The method
`Install.Installer.Install` does the work step by step on the `Os` and
`Commands` objects, with a loop for the copies. Its postcondition says that
it agrees with `Simulate`. The lemmas in `InstallProperties` state what a
whole run leaves behind.

A call ends in one of two ways. It returns `(code, error)`, modelled as
`Returned(code, err)`. Or the process halts through `log.Fatal` when the
runner fails, modelled as `Halted`. `ErrKind` names each exit: the three
errors the orchestrator builds itself (`NoModuleName`, `ReservedName`,
`AppPathExists`) and one kind per collaborator failure, carrying the path
involved.

Four behaviours of the code are worth stating plainly:

- A failing package manager halts the process through `log.Fatal` (install/install.go:129-131). No error is returned.
- Only the empty name is rejected as missing (install/install.go:93). A whitespace-only name goes through.
- When the target already exists, the working directory has moved into it, because the probe is a successful `Chdir` (install/install.go:104).
- The copy loop copies every listed entry (install/install.go:168-177). That includes the dependency's own `package.json`, so a successful run leaves a manifest exactly when the dependency lists one (`SuccessLayout`). An entry named `<CliName>.json` replaces the configuration file.

`SuccessLayout` assumes three things: the tool name has no `/`, the
configuration file is not named `package.json`, and listed entries are
plain names. The CLI passes `appdec`, and directory listings hold base
names.

## Model

| member | source | states |
|---|---|---|
| `FileSystem.Os.Chdir` | install/install.go:27-29 | succeeds exactly when the path is a directory that can be entered; then only the working directory changes, otherwise nothing does |
| `FileSystem.Os.Mkdir` | install/install.go:31-33 | succeeds exactly when nothing exists at the path and no fault is injected; then the directory is added with the given permission bits, otherwise nothing changes |
| `FileSystem.Os.Remove` | install/install.go:35-37 | succeeds exactly on a file or an empty directory when no fault is injected; then that path is gone, otherwise nothing changes |
| `FileSystem.Os.WriteFile` | install/install.go:155 | succeeds unless the path is a directory or faulted; then the file holds exactly the given bytes, otherwise nothing changes |
| `FileSystem.Os.ReadFiles` | install/install.go:167 | returns the listing of the directory, or an empty list with failure when it cannot be listed |
| `FileSystem.Os.CopyFile` | install/install.go:173 | succeeds exactly when the source is a file, the destination is not a directory and no fault is injected; the destination then holds the source's bytes, and nothing else changes |
| `Exec.Commands.Run` | install/install.go:123-127 | appends the command list to the runner's log, reports the runner's success, and adds what the package manager wrote |
| `Install.CheckName` | install/install.go:93-99 | no error exactly when the name is non-empty and not `commands` or `osx` (case-sensitive); empty gives `NoModuleName`, otherwise `ReservedName(name)` |
| `Install.ReservedMessageQuotesName` | install/install.go:98 | the "reserved" error text quotes the rejected name |
| `Install.ExistsMessageGivesRemedy` | install/install.go:105-108 | the "already created" error text quotes the name and contains `appdec delete --name=<name>` |
| `Install.Installer.Simulate` | install/install.go:82-182 | per exit: a bad name or an existing target issues no command and changes nothing but, for an existing target, the working directory; code is 1 exactly when there is no error, else -1; the runner is called at most once, with exactly `npm init -y`, `npm install app-decorators@<Version>`, `npm install babel-cli@6.24.1`, and only after `<RootPath>/<Name>` was made with 0755 and entered; a runner failure halts before cleanup; each later error leaves exactly the state of the steps before it; success or a copy error come only after cleanup, encoding and the config write succeeded |
| `Install.Installer.SimulateSteps` | install/install.go:93-177 | which failing step leads to which exit, in step order: a refused mkdir gives `CreateAppPathFailed`, a refused chdir into the new directory `CantChangeToAppPath`; once these succeed the three commands are issued, a failing runner halts, then a refused removal gives `CleanupFailed`, a failed encoding `StringifyFailed`, a refused write `WriteConfigFailed`, and otherwise the outcome is the copy loop's (1 with no error, or -1 with its error) |
| `Install.Installer.Install` | install/install.go:82-182 | the step-by-step orchestrator returns what `Simulate` returns, leaves the filesystem `Simulate` gives, and adds `Simulate`'s command lists to the runner's log |
| `Install.CopyAll` | install/install.go:164-177 | the copy loop keeps directories and the working directory, only adds files at `<dst>/<entry>` for listed entries, keeps every other file, and on failure names a listed entry's source and destination |
| `Install.CopyAllSticks` | install/install.go:173-176 | once a copy has failed, later entries change nothing: they are never attempted |
| `Install.CopyAllEvery` | install/install.go:168-177 | when the loop completes and no source is a destination, every listed entry's destination holds its source's bytes |
| `Install.CopyAllStops` | install/install.go:173-176 | a failed loop failed at one entry k: entries before k all copied, the filesystem is the one they left, and the error names entry k |
| `InstallProperties.CoreEntryKept` | install/install.go:136-157 | removing `package.json` and writing `<CliName>.json` never touch an entry below `node_modules/app-decorators` |
| `InstallProperties.CopyPhaseEntries` | install/install.go:164-177 | a completed copy loop, started after the config write, leaves each listed entry holding the installed bytes, keeps the directories and the working directory, and adds only the listed destinations |
| `InstallProperties.CopyPhaseOthers` | install/install.go:136-177 | after a completed copy loop the config file keeps the encoded bytes unless an entry of its name was copied, `package.json` exists exactly when the dependency lists one, and no other file was created or changed |
| `InstallProperties.SuccessLayout` | install/install.go:116-181 | after success: the new directory (mode 0755) is the working directory; each listed core entry holds the installed bytes; the config file holds the encoded `{name, version}` unless a core entry of that name replaced it; `package.json` exists exactly when the dependency lists one; no other file was created or changed |
| `InstallProperties.ReinstallRejected` | install/install.go:104-111 | running again with the same name after a success returns `AppPathExists` and changes nothing |
| `InstallProperties.CopyFailureKeepsEarlier` | install/install.go:164-176 | after a copy error the config was written, the entries before the failing one hold their sources' bytes, and the filesystem is what those copies left |

## Left out

- `Install.Run`, the `Os` method bodies and `New` are one-line pass-throughs to the real `os` package and collaborators. `New` also sets the `AppPath` field, which `Install` never reads, and `Debug`, which only `Run` uses. Both fields are dropped.
- The CLI in `appdec.go` (flags, dispatch, lower-casing the name, the other subcommands) is not part of this model.
- How `exec.Run`, `json.Stringify`, `osX.ReadFiles` and `osX.CopyFile` work inside is not part of this model. They are oracles: the runner's `Response`, the serializer's `encode`, a listing per directory, and copy success from the filesystem state and the injected faults. The JSON byte layout is not modelled.
- Exec.Commands.Run: the runner's dry-run mode and its stopping at the first failed command are folded into the oracle `Response`. Directories the package manager creates are not recorded.
- FileSystem.Os.ReadFiles: the listing is an oracle and is not derived from the files in the tree. Its order is the listing order the oracle gives.
- FileSystem.Os.CopyFile: a copy that fails leaves no partial destination file.
- FileSystem.Os.WriteFile: a failed write changes nothing. `ioutil.WriteFile` creates or truncates the file before writing, so a real write or close error can leave an empty or partial `<CliName>.json`. The `WriteConfigFailed` exit of `Install.Installer.Simulate` is therefore stated as leaving the cleaned tree with no configuration file.
- FileSystem.Os.Mkdir: a missing parent directory and permission errors are injected faults. Parents are not derived from the path.
- Permission bits: only directory modes are recorded. `WriteFile`'s 0755 and the mode `CopyFile` gives are not.
- Paths are exact strings joined with `/`. That is what `filepath.Join` and `filepath.Clean` give for a clean absolute root other than `/` and a name of one segment. Other names (`a/b`, `.`, `..`) and OS path aliasing are not modelled.
- Error values carry the failing step and path, not the operating system's error detail. Messages are modelled only for the three errors the orchestrator writes itself.
- Progress output through `fmt.Println`.
- The race between the existence check and `Mkdir`: the model is sequential.
