/**
 * Release signing of the OTA binaries (`build/modules/ota/sign_binary.py`):
 * codesign on macOS, notarization with `notarytool`, SSL.com CodeSignTool for
 * Windows, signature verification and the entitlements lookup.
 *
 * Each operation is a method over a `Host` that does what the Python function
 * does, step by step, and a function that describes the whole run (how it
 * ends, which tools it starts, which paths exist afterwards) from the inputs
 * and the tools' answers. The methods are proved to perform exactly the run
 * their function describes; the properties of the runs are lemmas in
 * sign_binary_properties.dfy.
 */
module SignBinary {
  import opened Wrappers
  import opened Text
  import opened Paths
  import opened Machine

  /** The host operating system, which `IS_MACOS()` and `IS_WINDOWS()` ask about. */
  datatype Platform = MacOS | Windows | Linux

  /** The configuration fields the signing code reads; an unset variable is the empty string. */
  datatype EnvConfig = EnvConfig(
    macosCertificateName: string,
    notarizationAppleId: string,
    notarizationTeamId: string,
    notarizationPassword: string,
    codeSignToolExe: string,
    codeSignToolPath: string,
    esignerUsername: string,
    esignerPassword: string,
    esignerTotpSecret: string,
    esignerCredentialId: string)

  /** The return statement a run ends at; the Python functions report only whether it succeeded. */
  datatype Exit =
    | Done                  // signed, notarized or verified
    | DoneUnverified        // Windows signing off Windows: the signature check is skipped
    | SkippedUnconfigured   // no CodeSignTool configured: signing is skipped
    | WrongPlatform
    | MissingCertificate
    | MissingCredentials
    | ToolNotFound
    | ToolFailed
    | ExceptionCaught
    | ZipFailed
    | SubmitFailed
    | NotAccepted
    | VerifyFailed
  {
    /** The boolean the Python function returns. */
    predicate Succeeded() {
      Done? || DoneUnverified? || SkippedUnconfigured?
    }
  }

  /** A whole run: where it ended, the tools it started in order, and the paths that exist afterwards. */
  datatype Trace = Trace(exit: Exit, calls: seq<Invocation>, files: set<Path>)

  /** The host went through run `t`, starting from call log `log0` and answers `replies0`, and returned `ok`. */
  ghost predicate Performed(t: Trace, ok: bool, h: Host, log0: seq<Invocation>, replies0: seq<Reply>)
    reads h
  {
    && ok == t.exit.Succeeded()
    && h.files == t.files
    && h.log == log0 + t.calls
    && h.replies == Drop(replies0, |t.calls|)
  }

  const IdentifierPrefix := "com.browseros."
  const NotaryProfile := "notarytool-profile"
  const AcceptedMarker := "status: Accepted"
  const ErrorMarker := "Error:"
  const ValidMarker := "Valid"
  const ToolLauncher := "CodeSignTool.bat"
  const StagingDirName := "signed_temp"
  const EntitlementsFile := "browseros-executable-entitlements.plist"

  // ---------------------------------------------------------------- commands

  /** The bundle identifier codesign embeds for a binary. */
  function Identifier(bin: Path): string
  {
    IdentifierPrefix + Stem(Name(bin))
  }

  /** The codesign command line; `ent` is the entitlements file that will be attached, if any. */
  function CodesignArgs(cert: string, bin: Path, ent: Option<Path>): seq<string>
  {
    ["codesign", "--sign", cert, "--force", "--timestamp", "--identifier", Identifier(bin), "--options", "runtime"]
    + (if ent.Some? then ["--entitlements", ent.value] else [])
    + [bin]
  }

  function VerifyArgs(bin: Path): seq<string>
  {
    ["codesign", "--verify", "--verbose=2", bin]
  }

  function DittoArgs(bin: Path, zip: Path): seq<string>
  {
    ["ditto", "-c", "-k", "--keepParent", bin, zip]
  }

  function StoreCredentialsArgs(appleId: string, teamId: string, password: string): seq<string>
  {
    ["xcrun", "notarytool", "store-credentials", NotaryProfile,
     "--apple-id", appleId, "--team-id", teamId, "--password", password]
  }

  function SubmitArgs(zip: Path): seq<string>
  {
    ["xcrun", "notarytool", "submit", zip, "--keychain-profile", NotaryProfile, "--wait"]
  }

  /** Where CodeSignTool is looked for: the direct path, else the launcher in the tool directory. */
  function ResolveTool(env: EnvConfig): Option<Path>
  {
    if env.codeSignToolExe != "" then Some(env.codeSignToolExe)
    else if env.codeSignToolPath != "" then Some(Join(env.codeSignToolPath, ToolLauncher))
    else None
  }

  /** The directory CodeSignTool writes the signed binary to. */
  function StagingDir(bin: Path): Path
  {
    Join(Parent(bin), StagingDirName)
  }

  /** The CodeSignTool words, joined by spaces into one shell command line. */
  function CodeSignToolArgs(tool: Path, env: EnvConfig, bin: Path, staging: Path): seq<string>
  {
    [tool, "sign", "-username", env.esignerUsername, "-password", "\"" + env.esignerPassword + "\""]
    + (if env.esignerCredentialId != "" then ["-credential_id", env.esignerCredentialId] else [])
    + ["-totp_secret", env.esignerTotpSecret, "-input_file_path", bin,
       "-output_dir_path", staging, "-override"]
  }

  function AuthenticodeArgs(bin: Path): seq<string>
  {
    ["powershell", "-Command", "(Get-AuthenticodeSignature '" + bin + "').Status"]
  }

  /** The entitlements files looked for under the repository root, in the order they are tried. */
  function EntitlementCandidates(root: Path): seq<Path>
  {
    [Join(Join(Join(root, "resources"), "entitlements"), EntitlementsFile),
     Join(Join(Join(Join(Join(root, "packages"), "browseros"), "resources"), "entitlements"), EntitlementsFile)]
  }

  // ------------------------------------------------------------------- runs

  /** A run of `sign_macos_binary`, given the answer `r` codesign would give. */
  function SignMacos(platform: Platform, env: EnvConfig, bin: Path, ent: Option<Path>,
                     files: set<Path>, r: Reply): Trace
  {
    if platform != MacOS then Trace(WrongPlatform, [], files)
    else if env.macosCertificateName == "" then Trace(MissingCertificate, [], files)
    else
      var attached := if ent.Some? && ent.value in files then ent else None;
      var call := Argv(CodesignArgs(env.macosCertificateName, bin, attached));
      match r
      case Raised(_) => Trace(ExceptionCaught, [call], files)
      case Exited(code, _, _, w) => Trace(if code == 0 then Done else ToolFailed, [call], files + w)
  }

  /** A run of `verify_macos_signature`. */
  function VerifyMacos(platform: Platform, bin: Path, files: set<Path>, r: Reply): Trace
  {
    if platform != MacOS then Trace(WrongPlatform, [], files)
    else
      var call := Argv(VerifyArgs(bin));
      match r
      case Raised(_) => Trace(ExceptionCaught, [call], files)
      case Exited(code, _, _, w) => Trace(if code == 0 then Done else VerifyFailed, [call], files + w)
  }

  /**
   * The protected part of `notarize_macos_binary`, once the zip exists: pack,
   * store the credentials, submit and wait, read the verdict. `r1`, `r2`, `r3`
   * are the answers of ditto, store-credentials and submit.
   */
  function NotarizeSteps(env: EnvConfig, bin: Path, zip: Path, files: set<Path>,
                         r1: Reply, r2: Reply, r3: Reply): Trace
  {
    var pack := Argv(DittoArgs(bin, zip));
    var store := Argv(StoreCredentialsArgs(env.notarizationAppleId, env.notarizationTeamId, env.notarizationPassword));
    var submit := Argv(SubmitArgs(zip));
    if r1.Raised? then Trace(ExceptionCaught, [pack], files)
    else if r1.code != 0 then Trace(ZipFailed, [pack], files + r1.writes)
    else if r2.Raised? then Trace(ExceptionCaught, [pack, store], files + r1.writes)
    else
      var f := files + r1.writes + r2.writes;
      if r3.Raised? then Trace(ExceptionCaught, [pack, store, submit], f)
      else if r3.code != 0 then Trace(SubmitFailed, [pack, store, submit], f + r3.writes)
      else if !Contains(r3.stdout, AcceptedMarker) then Trace(NotAccepted, [pack, store, submit], f + r3.writes)
      else Trace(Done, [pack, store, submit], f + r3.writes)
  }

  /**
   * A run of `notarize_macos_binary`. `tmp` is the file `mkstemp` creates
   * (None when it raises); the final clause removes it whatever the steps did.
   */
  function Notarize(platform: Platform, env: EnvConfig, bin: Path, tmp: Option<Path>, files: set<Path>,
                    r1: Reply, r2: Reply, r3: Reply): Trace
  {
    if platform != MacOS then Trace(WrongPlatform, [], files)
    else if env.notarizationAppleId == "" || env.notarizationTeamId == "" || env.notarizationPassword == "" then
      Trace(MissingCredentials, [], files)
    else if tmp.None? then Trace(ExceptionCaught, [], files)
    else
      var zip := tmp.value;
      var t := NotarizeSteps(env, bin, zip, files + {zip}, r1, r2, r3);
      Trace(t.exit, t.calls, t.files - {zip})
  }

  /** The paths after moving the signed output over the binary and trying to remove the staging directory. */
  function AfterSigning(files: set<Path>, bin: Path, staging: Path): set<Path>
  {
    var signed := Join(staging, Name(bin));
    var moved := if signed in files then files - {signed} + {bin} else files;
    if Removable(moved, staging) then moved - {staging} else moved
  }

  /** The protected part of `sign_windows_binary`, once the staging directory exists. */
  function SignWindowsSteps(platform: Platform, bin: Path, staging: Path, call: Invocation,
                            files: set<Path>, r1: Reply, r2: Reply): Trace
  {
    if r1.Raised? then Trace(ExceptionCaught, [call], files)
    else if Contains(r1.stdout, ErrorMarker) then Trace(ToolFailed, [call], files + r1.writes)
    else
      var f := AfterSigning(files + r1.writes, bin, staging);
      if platform != Windows then Trace(DoneUnverified, [call], f)
      else
        var verify := Argv(AuthenticodeArgs(bin));
        match r2
        case Raised(_) => Trace(ExceptionCaught, [call, verify], f)
        case Exited(_, out, _, w) =>
          Trace(if Contains(out, ValidMarker) then Done else VerifyFailed, [call, verify], f + w)
  }

  /** A run of `sign_windows_binary`; `r1` answers CodeSignTool, `r2` the PowerShell check. */
  function SignWindows(platform: Platform, env: EnvConfig, bin: Path, files: set<Path>,
                       r1: Reply, r2: Reply): Trace
  {
    match ResolveTool(env)
    case None => Trace(SkippedUnconfigured, [], files)
    case Some(tool) =>
      if tool !in files then Trace(ToolNotFound, [], files)
      else if env.esignerUsername == "" || env.esignerPassword == "" || env.esignerTotpSecret == "" then
        Trace(MissingCredentials, [], files)
      else
        var staging := StagingDir(bin);
        var call := Shell(JoinWords(CodeSignToolArgs(tool, env, bin, staging)), Parent(tool));
        SignWindowsSteps(platform, bin, staging, call, files + {staging}, r1, r2)
  }

  // ---------------------------------------------------------------- methods

  /** `sign_macos_binary`. */
  method SignMacosBinary(h: Host, platform: Platform, env: EnvConfig, bin: Path, ent: Option<Path>)
    returns (ok: bool)
    modifies h
    ensures Performed(SignMacos(platform, env, bin, ent, old(h.files), ReplyAt(old(h.replies), 0)),
                      ok, h, old(h.log), old(h.replies))
  {
    if platform != MacOS {
      return false;
    }
    var cert := env.macosCertificateName;
    if cert == "" {
      return false;
    }
    var cmd := ["codesign", "--sign", cert, "--force", "--timestamp",
                "--identifier", IdentifierPrefix + Stem(Name(bin)), "--options", "runtime"];
    if ent.Some? && ent.value in h.files {
      cmd := cmd + ["--entitlements", ent.value];
    }
    cmd := cmd + [bin];
    assert cmd == CodesignArgs(cert, bin, if ent.Some? && ent.value in h.files then ent else None);
    var r := h.Run(Argv(cmd));
    ok := r.ExitedZero();
  }

  /** `verify_macos_signature`. */
  method VerifyMacosSignature(h: Host, platform: Platform, bin: Path) returns (ok: bool)
    modifies h
    ensures Performed(VerifyMacos(platform, bin, old(h.files), ReplyAt(old(h.replies), 0)),
                      ok, h, old(h.log), old(h.replies))
  {
    if platform != MacOS {
      return false;
    }
    var r := h.Run(Argv(VerifyArgs(bin)));
    ok := r.ExitedZero();
  }

  /** The `try` block of `notarize_macos_binary` after `mkstemp`. */
  method SubmitForNotarization(h: Host, env: EnvConfig, bin: Path, zip: Path) returns (ok: bool)
    modifies h
    ensures Performed(NotarizeSteps(env, bin, zip, old(h.files), ReplyAt(old(h.replies), 0),
                                    ReplyAt(old(h.replies), 1), ReplyAt(old(h.replies), 2)),
                      ok, h, old(h.log), old(h.replies))
  {
    ghost var replies0 := h.replies;
    DropNext(replies0, 1);
    DropNext(replies0, 2);
    var r := h.Run(Argv(DittoArgs(bin, zip)));
    if r.Raised? || r.code != 0 {
      return false;
    }
    // The answer of store-credentials is not looked at; only an exception ends the run.
    r := h.Run(Argv(StoreCredentialsArgs(env.notarizationAppleId, env.notarizationTeamId, env.notarizationPassword)));
    if r.Raised? {
      return false;
    }
    r := h.Run(Argv(SubmitArgs(zip)));
    if r.Raised? || r.code != 0 {
      return false;
    }
    ok := Contains(r.stdout, AcceptedMarker);
  }

  /** `notarize_macos_binary`; `tmp` is the path `mkstemp` hands out, None when it raises. */
  method NotarizeMacosBinary(h: Host, platform: Platform, env: EnvConfig, bin: Path, tmp: Option<Path>)
    returns (ok: bool)
    modifies h
    ensures Performed(Notarize(platform, env, bin, tmp, old(h.files), ReplyAt(old(h.replies), 0),
                               ReplyAt(old(h.replies), 1), ReplyAt(old(h.replies), 2)),
                      ok, h, old(h.log), old(h.replies))
    ensures tmp.Some? && tmp.value !in old(h.files) ==> tmp.value !in h.files
  {
    if platform != MacOS {
      return false;
    }
    if env.notarizationAppleId == "" || env.notarizationTeamId == "" || env.notarizationPassword == "" {
      return false;
    }
    if tmp.None? {
      return false;
    }
    var zip := tmp.value;
    h.Create(zip);
    ok := SubmitForNotarization(h, env, bin, zip);
    // finally: the zip goes, however the steps ended
    if zip in h.files {
      h.Unlink(zip);
    }
  }

  /** Moves CodeSignTool's output over the binary, then tries to remove the staging directory. */
  method ReplaceWithSigned(h: Host, bin: Path, staging: Path)
    modifies h
    ensures h.files == AfterSigning(old(h.files), bin, staging)
    ensures h.log == old(h.log) && h.replies == old(h.replies)
  {
    var signed := Join(staging, Name(bin));
    if signed in h.files {
      h.Move(signed, bin);
    }
    // Removing the staging directory is best-effort: its outcome is ignored.
    var removed := h.RemoveDir(staging);
  }

  /** The `try` block of `sign_windows_binary` after the staging directory is made. */
  method RunCodeSignTool(h: Host, platform: Platform, bin: Path, staging: Path, call: Invocation)
    returns (ok: bool)
    modifies h
    ensures Performed(SignWindowsSteps(platform, bin, staging, call, old(h.files),
                                       ReplyAt(old(h.replies), 0), ReplyAt(old(h.replies), 1)),
                      ok, h, old(h.log), old(h.replies))
  {
    ghost var replies0, log0, files0 := h.replies, h.log, h.files;
    ghost var t := SignWindowsSteps(platform, bin, staging, call, files0, ReplyAt(replies0, 0), ReplyAt(replies0, 1));
    DropNext(replies0, 1);
    var r := h.Run(call);
    if r.Raised? || Contains(r.stdout, ErrorMarker) {
      assert t.calls == [call] && h.files == t.files;
      return false;
    }
    ghost var f := AfterSigning(files0 + r.writes, bin, staging);
    ReplaceWithSigned(h, bin, staging);
    assert h.files == f;
    if platform == Windows {
      var v := h.Run(Argv(AuthenticodeArgs(bin)));
      assert v == ReplyAt(replies0, 1);
      assert t.calls == [call, Argv(AuthenticodeArgs(bin))];
      ok := v.Exited? && Contains(v.stdout, ValidMarker);
    } else {
      ok := true;
    }
  }

  /** `sign_windows_binary`. */
  method SignWindowsBinary(h: Host, platform: Platform, env: EnvConfig, bin: Path) returns (ok: bool)
    modifies h
    ensures Performed(SignWindows(platform, env, bin, old(h.files), ReplyAt(old(h.replies), 0),
                                  ReplyAt(old(h.replies), 1)),
                      ok, h, old(h.log), old(h.replies))
  {
    var tool: Path;
    if env.codeSignToolExe != "" {
      tool := env.codeSignToolExe;
    } else if env.codeSignToolPath != "" {
      tool := Join(env.codeSignToolPath, ToolLauncher);
    } else {
      return true;
    }
    if tool !in h.files {
      return false;
    }
    if env.esignerUsername == "" || env.esignerPassword == "" || env.esignerTotpSecret == "" {
      return false;
    }
    var staging := Join(Parent(bin), StagingDirName);
    h.Create(staging);
    var cmd := [tool, "sign", "-username", env.esignerUsername, "-password", "\"" + env.esignerPassword + "\""];
    if env.esignerCredentialId != "" {
      cmd := cmd + ["-credential_id", env.esignerCredentialId];
    }
    cmd := cmd + ["-totp_secret", env.esignerTotpSecret, "-input_file_path", bin,
                  "-output_dir_path", staging, "-override"];
    assert cmd == CodeSignToolArgs(tool, env, bin, staging);
    ok := RunCodeSignTool(h, platform, bin, staging, Shell(JoinWords(cmd), Parent(tool)));
  }

  /** The first existing candidate is at index `k`. */
  ghost predicate FirstExisting(candidates: seq<Path>, files: set<Path>, k: int)
  {
    0 <= k < |candidates| && candidates[k] in files
    && forall j :: 0 <= j < k ==> candidates[j] !in files
  }

  /** `get_entitlements_path`: the first candidate that exists, or None when none does. */
  method GetEntitlementsPath(h: Host, root: Path) returns (r: Option<Path>)
    ensures r.None? <==> forall k :: 0 <= k < |EntitlementCandidates(root)| ==> EntitlementCandidates(root)[k] !in h.files
    ensures r.Some? ==> exists k :: FirstExisting(EntitlementCandidates(root), h.files, k)
                                   && EntitlementCandidates(root)[k] == r.value
  {
    var candidates := EntitlementCandidates(root);
    for i := 0 to |candidates|
      invariant forall j :: 0 <= j < i ==> candidates[j] !in h.files
    {
      if candidates[i] in h.files {
        assert FirstExisting(candidates, h.files, i);
        return Some(candidates[i]);
      }
    }
    return None;
  }
}
