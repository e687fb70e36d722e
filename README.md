# Release signing of the BrowserOS OTA binaries, in Dafny

This project models `build/modules/ota/sign_binary.py`, the step of the
BrowserOS build that signs the binaries shipped by over-the-air updates:

- `sign_macos_binary` signs with `codesign` and a certificate identity;
- `verify_macos_signature` checks the result with `codesign --verify`;
- `notarize_macos_binary` zips the binary with `ditto`, stores the
  notarization credentials under a keychain profile, submits the zip with
  `notarytool submit --wait`, reads the verdict, and always deletes the zip;
- `sign_windows_binary` signs with SSL.com's CodeSignTool into a staging
  directory, moves the signed file over the original, and checks its
  Authenticode status on Windows;
- `get_entitlements_path` finds the entitlements plist.

The environment is a `Machine.Host` object: the set of paths that exist,
the log of tools started, and the answers those tools will give. Every
`subprocess.run` is an oracle call that completes with an exit status,
standard output, standard error and the files the tool wrote, or raises.
The platform (`IS_MACOS()`, `IS_WINDOWS()`), the configuration fields and
the path `mkstemp` hands out are inputs.

Each Python function is an imperative method over the host
(`sign_binary.dfy`), proved to perform exactly the run described by a
function of the inputs and the tools' answers (`SignMacos`, `VerifyMacos`,
`Notarize`, `SignWindows`): how the run ends, which tools it starts in
which order, and which paths exist afterwards. The properties of those runs
are lemmas in `sign_binary_properties.dfy`. `text.dfy` holds the substring
test, the space-joined command line and Python's `str.split(" ")`, `paths.dfy` the parts of
`pathlib.Path` used, `machine.dfy` the host.

The model keeps these details of `sign_binary.py`:

- `sign_windows_binary` has no platform guard; it runs on any system and only
  the final Authenticode check depends on `IS_WINDOWS()`.
- CodeSignTool's exit status is never read: failure is only `Error:` in its
  standard output (or an exception).
- store-credentials is ignored only when it completes; when starting it
  raises, the exception handler makes notarization fail.
- Every function returns a boolean. The reason a run ended (`SignBinary.Exit`)
  is part of the model only, standing for the message each path logs;
  signing off Windows is told apart from a verified signature only there.

## Model

| member | source | states |
|---|---|---|
| SignBinary.SignMacosBinary | packages/browseros/build/modules/ota/sign_binary.py:20-74 | performs exactly the run `SignMacos` describes: result, calls started, files afterwards, answers consumed |
| SignBinary.VerifyMacosSignature | packages/browseros/build/modules/ota/sign_binary.py:77-91 | performs exactly the run `VerifyMacos` describes |
| SignBinary.SubmitForNotarization | packages/browseros/build/modules/ota/sign_binary.py:139-191 | the zip, store-credentials and submit steps perform the run `NotarizeSteps` describes, consuming one answer per tool |
| SignBinary.NotarizeMacosBinary | packages/browseros/build/modules/ota/sign_binary.py:94-194 | performs the run `Notarize` describes; a fresh temporary path does not exist when it returns |
| SignBinary.ReplaceWithSigned | packages/browseros/build/modules/ota/sign_binary.py:265-273 | moves the staged output over the binary when it exists and tries to remove the staging directory, starting no tool |
| SignBinary.RunCodeSignTool | packages/browseros/build/modules/ota/sign_binary.py:253-294 | the tool call, error scan, move, clean-up and Authenticode check perform the run `SignWindowsSteps` describes |
| SignBinary.SignWindowsBinary | packages/browseros/build/modules/ota/sign_binary.py:197-294 | performs the run `SignWindows` describes, with the command built word by word equal to `CodeSignToolArgs` |
| SignBinary.GetEntitlementsPath | packages/browseros/build/modules/ota/sign_binary.py:297-308 | returns None exactly when no candidate exists, otherwise the first existing candidate in list order |
| SignBinaryProperties.SignMacosGuards | packages/browseros/build/modules/ota/sign_binary.py:35-45 | off macOS or with an empty certificate name: failure, no tool started, no file changed |
| SignBinaryProperties.CodesignShape | packages/browseros/build/modules/ota/sign_binary.py:49-61 | the codesign words: `--sign cert`, `--force`, `--timestamp`, `--identifier com.browseros.<stem>`, `--options runtime`, optional entitlements pair, binary last |
| SignBinaryProperties.SignMacosCommand | packages/browseros/build/modules/ota/sign_binary.py:49-64 | exactly one codesign call; it ends with the binary and carries `--entitlements <path>` exactly when a path was given and exists |
| SignBinaryProperties.SignMacosSucceedsIff | packages/browseros/build/modules/ota/sign_binary.py:63-74 | signing succeeds exactly when on macOS, a certificate is named and codesign exits 0; an exception is a failure |
| SignBinaryProperties.IdentifierExample | packages/browseros/build/modules/ota/sign_binary.py:54 | the binary `dist/server` gets identifier `com.browseros.server` |
| SignBinaryProperties.IdentifierDropsSuffix | packages/browseros/build/modules/ota/sign_binary.py:54 | the identifier is the prefix plus the name without its last suffix, earlier dots kept |
| SignBinaryProperties.VerifyMacosSucceedsIff | packages/browseros/build/modules/ota/sign_binary.py:79-91 | verification succeeds exactly on macOS with exit status 0; off macOS no tool runs |
| SignBinaryProperties.NotarizeGuards | packages/browseros/build/modules/ota/sign_binary.py:109-128 | off macOS or with any of Apple ID, team ID, password empty: failure with no tool call and no file change |
| SignBinaryProperties.NotarizeStopsAtZip | packages/browseros/build/modules/ota/sign_binary.py:139-147 | when ditto does not exit 0 the run fails and neither store-credentials nor submit is started |
| SignBinaryProperties.NotarizeIgnoresStore | packages/browseros/build/modules/ota/sign_binary.py:152-162 | any two completed store-credentials answers give the same outcome and the same calls |
| SignBinaryProperties.NotarizeSucceedsIff | packages/browseros/build/modules/ota/sign_binary.py:109-187 | success exactly when all guards pass, the zip is made, store-credentials completes, and submit exits 0 with `status: Accepted` in its output |
| SignBinaryProperties.NotarizeRejectsOtherVerdicts | packages/browseros/build/modules/ota/sign_binary.py:181-184 | exit status 0 without the acceptance marker is a rejection |
| SignBinaryProperties.InvalidVerdictExample | packages/browseros/build/modules/ota/sign_binary.py:181-184 | submit answering `status: Invalid` with status 0 is not accepted |
| SignBinaryProperties.NotarizeOrder | packages/browseros/build/modules/ota/sign_binary.py:139-174 | the calls are a prefix of zip, store, submit, each reached only if the previous step let the run go on; submit sends the packed zip under the stored profile |
| SignBinaryProperties.NotarizeRemovesZip | packages/browseros/build/modules/ota/sign_binary.py:132-194 | a freshly created temporary zip does not exist after notarization, on every path |
| SignBinaryProperties.NotarizeFiles | packages/browseros/build/modules/ota/sign_binary.py:132-194 | notarization deletes no path but the zip, adds only what the tools wrote, and the zip is gone whenever it was created |
| SignBinaryProperties.ResolveToolChoice | packages/browseros/build/modules/ota/sign_binary.py:213-220 | the tool is the direct path if set, else `CodeSignTool.bat` in the tool directory, else none |
| SignBinaryProperties.SignWindowsSoftSkip | packages/browseros/build/modules/ota/sign_binary.py:213-220 | with no tool configured: success, no call, no file change |
| SignBinaryProperties.SignWindowsGuards | packages/browseros/build/modules/ota/sign_binary.py:222-228 | a missing tool file or a missing username, password or TOTP secret: failure before any call |
| SignBinaryProperties.CodeSignToolCredentialId | packages/browseros/build/modules/ota/sign_binary.py:236-251 | `-credential_id <id>` is among the words exactly when the id is set; tool first, binary and staging directory in place, `-override` last |
| SignBinaryProperties.CodeSignToolLine | packages/browseros/build/modules/ota/sign_binary.py:253-259 | the shell line is the words joined by spaces, and `split(" ")` of it gives them back when none holds a space |
| SignBinaryProperties.SignWindowsErrorMarker | packages/browseros/build/modules/ota/sign_binary.py:261-263 | `Error:` in the tool's output fails the run whatever its exit status, and nothing else runs |
| SignBinaryProperties.SignWindowsIgnoresExitCode | packages/browseros/build/modules/ota/sign_binary.py:253-263 | the tool's exit status never changes the run |
| SignBinaryProperties.SignWindowsSucceedsIff | packages/browseros/build/modules/ota/sign_binary.py:213-290 | the outcome without reference to the staging directory: moving the output and removing the directory, or failing to, never change it; on Windows `Valid` is required |
| SignBinaryProperties.SignWindowsUnverifiedOffWindows | packages/browseros/build/modules/ota/sign_binary.py:287-290 | off Windows a success is the unverified kind and only the tool ran |
| SignBinaryProperties.SignWindowsVerifiedOnWindows | packages/browseros/build/modules/ota/sign_binary.py:276-286 | on Windows a success ran the Authenticode check after the tool |
| SignBinaryProperties.StagedOutputDiffers | packages/browseros/build/modules/ota/sign_binary.py:233-265 | the staged output path is never the binary's path |
| SignBinaryProperties.AfterSigningReplaces | packages/browseros/build/modules/ota/sign_binary.py:265-273 | the signed output, when written, replaces the binary; no path but the staged output and staging directory goes |
| Machine.Host.Run | packages/browseros/build/modules/ota/sign_binary.py:63-64 | a tool call is appended to the log, gets the next scripted answer (an exception when none is left), and adds the files the tool wrote |
| Machine.Host.Create | packages/browseros/build/modules/ota/sign_binary.py:132-137 | `mkstemp` and `mkdir(exist_ok=True)` leave the path existing and change nothing else |
| Machine.Host.Unlink | packages/browseros/build/modules/ota/sign_binary.py:192-194 | `unlink` removes the path and changes nothing else |
| Machine.Host.Move | packages/browseros/build/modules/ota/sign_binary.py:265-268 | `shutil.move` of an existing file: the source is gone, the destination exists, nothing else changes |
| Machine.Host.RemoveDir | packages/browseros/build/modules/ota/sign_binary.py:270-273 | `rmdir` removes the directory exactly when it exists and nothing lies beneath it |
| Text.ContainsIff | packages/browseros/build/modules/ota/sign_binary.py:181 | `marker in text` holds exactly when the marker occurs at some index |
| Text.SplitJoinWords | packages/browseros/build/modules/ota/sign_binary.py:254 | Python's `split(" ")` of the space-joined words gives them back when none holds a space |
| Paths.JoinParts | packages/browseros/build/modules/ota/sign_binary.py:217 | `dir / child` has name `child` and parent `dir` |
| Paths.StemIsPrefix | packages/browseros/build/modules/ota/sign_binary.py:54 | the stem is a prefix of the name; when shorter, a dot follows it and no dot comes later |

## Left out

- Tool internals: what codesign, ditto, notarytool, CodeSignTool and PowerShell do. Each call is an answer taken from `Host.replies`; a call with no answer left raises.
- The notarization wait: `--wait` blocks until Apple answers; the model has no time.
- Logging: every `log_*` call is dropped; `SignBinary.Exit` names the path instead.
- The configuration loader `EnvConfig()` and platform detection: both are inputs, and an unset variable is the empty string.
- Path formatting: paths are strings joined with `/`; `Path(...)` normalisation, Windows separators and `str(path)` details are not modelled. `Parent` of a name without separator is `.`, of `/x` is the empty string.
- `mkstemp`: the path it returns is an input (None when it raises); its uniqueness is only assumed where a lemma requires the path to be new.
- Failures of `mkdir`, `shutil.move` and `unlink`: they always succeed. `rmdir` fails exactly when the directory is missing or not empty.
- The shell's handling of the CodeSignTool line: quote removal (the password is passed wrapped in double quotes), metacharacters and the argument parsing of `cmd.exe` are not modelled. `Text.SplitWords` is Python's `str.split(" ")`, not the shell's splitting, so it does not give the argument vector the tool receives.
- The caller that runs signing, notarization and verification one after the other is not part of this model.
- The `chromium_patches` files: declarative diffs of Chromium sources that are not part of this model.
