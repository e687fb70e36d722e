/**
 * What the runs of sign_binary.dfy guarantee: which guards stop a run before
 * any tool is started, the shape of every command, how each outcome is
 * decided, and that the temporary zip never outlives notarization.
 */
module SignBinaryProperties {
  import opened Wrappers
  import opened Text
  import opened Paths
  import opened Machine
  import opened SignBinary

  // ------------------------------------------------------------ macOS signing

  /** Off macOS, or without a certificate name, signing fails before any tool is started. */
  lemma SignMacosGuards(platform: Platform, env: EnvConfig, bin: Path, ent: Option<Path>,
                        files: set<Path>, r: Reply)
    requires platform != MacOS || env.macosCertificateName == ""
    ensures var t := SignMacos(platform, env, bin, ent, files, r);
      !t.exit.Succeeded() && t.calls == [] && t.files == files
    ensures platform != MacOS ==> SignMacos(platform, env, bin, ent, files, r).exit == WrongPlatform
  {
  }

  /** The fixed shape of the codesign command line. */
  lemma CodesignShape(cert: string, bin: Path, ent: Option<Path>)
    ensures var a := CodesignArgs(cert, bin, ent);
      && a[0] == "codesign" && a[1] == "--sign" && a[2] == cert
      && a[3] == "--force" && a[4] == "--timestamp"
      && a[5] == "--identifier" && a[6] == IdentifierPrefix + Stem(Name(bin))
      && a[7] == "--options" && a[8] == "runtime"
      && a[|a| - 1] == bin
      && (ent.None? ==> |a| == 10)
      && (ent.Some? ==> |a| == 12 && a[9] == "--entitlements" && a[10] == ent.value)
  {
  }

  /**
   * Once the guards pass, exactly one codesign call is made; it ends with the
   * binary and carries `--entitlements <path>` exactly when a path was given
   * and that file exists.
   */
  lemma SignMacosCommand(platform: Platform, env: EnvConfig, bin: Path, ent: Option<Path>,
                         files: set<Path>, r: Reply)
    requires platform == MacOS && env.macosCertificateName != ""
    ensures var t := SignMacos(platform, env, bin, ent, files, r);
      && |t.calls| == 1 && t.calls[0].Argv?
      && var a := t.calls[0].args;
      && a[|a| - 1] == bin
      && a[5] == "--identifier" && a[6] == Identifier(bin)
      && (|a| == 12 <==> ent.Some? && ent.value in files)
      && (|a| == 12 ==> a[9] == "--entitlements" && a[10] == ent.value)
  {
    var attached := if ent.Some? && ent.value in files then ent else None;
    CodesignShape(env.macosCertificateName, bin, attached);
  }

  /** Signing succeeds exactly when the guards pass and codesign exits 0; an exception is a failure. */
  lemma SignMacosSucceedsIff(platform: Platform, env: EnvConfig, bin: Path, ent: Option<Path>,
                             files: set<Path>, r: Reply)
    ensures SignMacos(platform, env, bin, ent, files, r).exit.Succeeded()
            <==> platform == MacOS && env.macosCertificateName != "" && r.ExitedZero()
    ensures platform == MacOS && env.macosCertificateName != "" && r.Raised? ==>
            SignMacos(platform, env, bin, ent, files, r).exit == ExceptionCaught
  {
  }

  /** Signing `dist/server` embeds the identifier `com.browseros.server`. */
  lemma IdentifierExample()
    ensures Identifier("dist/server") == "com.browseros.server"
  {
    JoinParts("dist", "server");
    assert Join("dist", "server") == "dist/server";
    StemSuffix("server");
  }

  /** The identifier keeps the binary's name up to its last suffix; earlier dots stay. */
  lemma IdentifierDropsSuffix(dir: Path, stem: string, ext: string)
    requires '/' !in stem && '/' !in ext && '.' !in ext
    requires stem != "" && ext != ""
    ensures Identifier(Join(dir, stem + "." + ext)) == IdentifierPrefix + stem
  {
    var name := stem + "." + ext;
    assert '/' !in name by {
      forall k | 0 <= k < |name| ensures name[k] != '/' {
        if k < |stem| { assert name[k] == stem[k]; }
        else if k > |stem| { assert name[k] == ext[k - |stem| - 1]; }
      }
    }
    JoinParts(dir, name);
    assert Name(Join(dir, name)) == name;
    assert name[|stem|] == '.';
    forall j | |stem| < j < |name|
      ensures name[j] != '.'
    {
      assert name[j] == ext[j - |stem| - 1];
    }
    LastIndexAt(name, '.', |stem|);
    assert name[..|stem|] == stem;
  }

  // ------------------------------------------------------- macOS verification

  /** Verification succeeds exactly on macOS when `codesign --verify` exits 0; off macOS nothing runs. */
  lemma VerifyMacosSucceedsIff(platform: Platform, bin: Path, files: set<Path>, r: Reply)
    ensures VerifyMacos(platform, bin, files, r).exit.Succeeded() <==> platform == MacOS && r.ExitedZero()
    ensures platform != MacOS ==> VerifyMacos(platform, bin, files, r).calls == []
    ensures platform == MacOS ==> VerifyMacos(platform, bin, files, r).calls == [Argv(VerifyArgs(bin))]
  {
  }

  // ------------------------------------------------------------ notarization

  /** All three notarization credentials are set. */
  predicate HasNotaryCredentials(env: EnvConfig)
  {
    env.notarizationAppleId != "" && env.notarizationTeamId != "" && env.notarizationPassword != ""
  }

  /** Off macOS, or with any credential missing, notarization fails before any tool or temp file. */
  lemma NotarizeGuards(platform: Platform, env: EnvConfig, bin: Path, tmp: Option<Path>,
                       files: set<Path>, r1: Reply, r2: Reply, r3: Reply)
    requires platform != MacOS || !HasNotaryCredentials(env)
    ensures var t := Notarize(platform, env, bin, tmp, files, r1, r2, r3);
      !t.exit.Succeeded() && t.calls == [] && t.files == files
  {
  }

  /** A failed zip ends the run: neither store-credentials nor submit is started. */
  lemma NotarizeStopsAtZip(platform: Platform, env: EnvConfig, bin: Path, zip: Path,
                           files: set<Path>, r1: Reply, r2: Reply, r3: Reply)
    requires platform == MacOS && HasNotaryCredentials(env)
    requires !r1.ExitedZero()
    ensures var t := Notarize(platform, env, bin, Some(zip), files, r1, r2, r3);
      !t.exit.Succeeded() && t.calls == [Argv(DittoArgs(bin, zip))]
    ensures r1.Exited? ==> Notarize(platform, env, bin, Some(zip), files, r1, r2, r3).exit == ZipFailed
  {
  }

  /** What store-credentials answers never changes the outcome or the calls, as long as it does not raise. */
  lemma NotarizeIgnoresStore(platform: Platform, env: EnvConfig, bin: Path, tmp: Option<Path>,
                             files: set<Path>, r1: Reply, r2: Reply, r2': Reply, r3: Reply)
    requires r2.Exited? && r2'.Exited?
    ensures Notarize(platform, env, bin, tmp, files, r1, r2, r3).exit
            == Notarize(platform, env, bin, tmp, files, r1, r2', r3).exit
    ensures Notarize(platform, env, bin, tmp, files, r1, r2, r3).calls
            == Notarize(platform, env, bin, tmp, files, r1, r2', r3).calls
  {
  }

  /**
   * Notarization succeeds exactly when every guard passes, the zip is made,
   * store-credentials completes, and submit exits 0 with the acceptance
   * marker in its output.
   */
  lemma NotarizeSucceedsIff(platform: Platform, env: EnvConfig, bin: Path, tmp: Option<Path>,
                            files: set<Path>, r1: Reply, r2: Reply, r3: Reply)
    ensures Notarize(platform, env, bin, tmp, files, r1, r2, r3).exit.Succeeded()
            <==> && platform == MacOS && HasNotaryCredentials(env) && tmp.Some?
                 && r1.ExitedZero() && r2.Exited?
                 && r3.ExitedZero() && Contains(r3.stdout, AcceptedMarker)
  {
  }

  /** A verdict without the acceptance marker is a rejection even when submit exits 0. */
  lemma NotarizeRejectsOtherVerdicts(platform: Platform, env: EnvConfig, bin: Path, zip: Path,
                                     files: set<Path>, r1: Reply, r2: Reply, out: string, err: string, w: set<Path>)
    requires platform == MacOS && HasNotaryCredentials(env)
    requires r1.ExitedZero() && r2.Exited?
    requires !Contains(out, AcceptedMarker)
    ensures Notarize(platform, env, bin, Some(zip), files, r1, r2, Exited(0, out, err, w)).exit == NotAccepted
  {
  }

  /** Submit answering `status: Invalid` with exit status 0 is not accepted. */
  lemma InvalidVerdictExample(env: EnvConfig, bin: Path, zip: Path, files: set<Path>, r1: Reply, r2: Reply)
    requires HasNotaryCredentials(env) && r1.ExitedZero() && r2.Exited?
    ensures Notarize(MacOS, env, bin, Some(zip), files, r1, r2, Exited(0, "status: Invalid", "", {})).exit
            == NotAccepted
  {
    assert !Contains("status: Invalid", AcceptedMarker);
  }

  /**
   * The tools run in a fixed order, each only after the previous one let the
   * run go on; submit sends the zip that ditto packed, under the profile that
   * store-credentials wrote.
   */
  lemma NotarizeOrder(platform: Platform, env: EnvConfig, bin: Path, zip: Path,
                      files: set<Path>, r1: Reply, r2: Reply, r3: Reply)
    requires platform == MacOS && HasNotaryCredentials(env)
    ensures var t := Notarize(platform, env, bin, Some(zip), files, r1, r2, r3);
      && 1 <= |t.calls|
      && t.calls <= [Argv(DittoArgs(bin, zip)),
                     Argv(StoreCredentialsArgs(env.notarizationAppleId, env.notarizationTeamId, env.notarizationPassword)),
                     Argv(SubmitArgs(zip))]
      && (|t.calls| >= 2 ==> r1.ExitedZero())
      && (|t.calls| == 3 ==> r2.Exited?)
    ensures DittoArgs(bin, zip)[5] == SubmitArgs(zip)[3] == zip
    ensures StoreCredentialsArgs(env.notarizationAppleId, env.notarizationTeamId, env.notarizationPassword)[3]
            == SubmitArgs(zip)[5] == NotaryProfile
  {
  }

  /**
   * The temporary zip does not exist after notarization, on every path:
   * success, each failure and each exception. A path mkstemp has just created
   * did not exist before, so in that case nothing is left behind at all.
   */
  lemma NotarizeRemovesZip(platform: Platform, env: EnvConfig, bin: Path, zip: Path,
                           files: set<Path>, r1: Reply, r2: Reply, r3: Reply)
    requires zip !in files
    ensures zip !in Notarize(platform, env, bin, Some(zip), files, r1, r2, r3).files
  {
  }

  /** Notarization removes nothing but the zip, and adds only what the tools wrote. */
  lemma NotarizeFiles(platform: Platform, env: EnvConfig, bin: Path, zip: Path,
                      files: set<Path>, r1: Reply, r2: Reply, r3: Reply)
    ensures var t := Notarize(platform, env, bin, Some(zip), files, r1, r2, r3);
      && files - {zip} <= t.files
      && t.files <= files + r1.Written() + r2.Written() + r3.Written()
    ensures platform == MacOS && HasNotaryCredentials(env) ==>
      zip !in Notarize(platform, env, bin, Some(zip), files, r1, r2, r3).files
  {
  }

  // ----------------------------------------------------------- Windows signing

  /** The eSigner username, password and TOTP secret are all set. */
  predicate HasEsignerCredentials(env: EnvConfig)
  {
    env.esignerUsername != "" && env.esignerPassword != "" && env.esignerTotpSecret != ""
  }

  /** The tool path: the direct path when set, else the launcher in the tool directory, else none. */
  lemma ResolveToolChoice(env: EnvConfig)
    ensures env.codeSignToolExe != "" ==> ResolveTool(env) == Some(env.codeSignToolExe)
    ensures env.codeSignToolExe == "" && env.codeSignToolPath != "" ==>
      && ResolveTool(env).Some?
      && Name(ResolveTool(env).value) == ToolLauncher
      && Parent(ResolveTool(env).value) == env.codeSignToolPath
    ensures ResolveTool(env).None? <==> env.codeSignToolExe == "" && env.codeSignToolPath == ""
  {
    if env.codeSignToolExe == "" && env.codeSignToolPath != "" {
      assert '/' !in ToolLauncher;
      JoinParts(env.codeSignToolPath, ToolLauncher);
    }
  }

  /** With no tool configured, signing is skipped and reported as success, with no call and no file change. */
  lemma SignWindowsSoftSkip(platform: Platform, env: EnvConfig, bin: Path, files: set<Path>, r1: Reply, r2: Reply)
    requires env.codeSignToolExe == "" && env.codeSignToolPath == ""
    ensures var t := SignWindows(platform, env, bin, files, r1, r2);
      t.exit == SkippedUnconfigured && t.exit.Succeeded() && t.calls == [] && t.files == files
  {
  }

  /** A configured tool that does not exist, or missing eSigner credentials, fail before any call. */
  lemma SignWindowsGuards(platform: Platform, env: EnvConfig, bin: Path, files: set<Path>, r1: Reply, r2: Reply)
    requires ResolveTool(env).Some?
    requires ResolveTool(env).value !in files || !HasEsignerCredentials(env)
    ensures var t := SignWindows(platform, env, bin, files, r1, r2);
      !t.exit.Succeeded() && t.calls == [] && t.files == files
    ensures ResolveTool(env).value !in files ==> SignWindows(platform, env, bin, files, r1, r2).exit == ToolNotFound
  {
  }

  /** `-credential_id` is passed exactly when a credential id is set. */
  lemma CodeSignToolCredentialId(tool: Path, env: EnvConfig, bin: Path, staging: Path)
    ensures var a := CodeSignToolArgs(tool, env, bin, staging);
      && |a| == (if env.esignerCredentialId != "" then 15 else 13)
      && (a[6] == "-credential_id" <==> env.esignerCredentialId != "")
      && (env.esignerCredentialId != "" ==> a[7] == env.esignerCredentialId)
      && a[0] == tool && a[1] == "sign" && a[|a| - 1] == "-override"
      && a[|a| - 4] == bin && a[|a| - 2] == staging
  {
  }

  /**
   * The shell line is the tool path, then `sign`, then the remaining words;
   * when no word holds a space, `split(" ")` of the line gives back exactly
   * the words (the shell's own quote removal is a different matter).
   */
  lemma CodeSignToolLine(tool: Path, env: EnvConfig, bin: Path, staging: Path)
    ensures var a := CodeSignToolArgs(tool, env, bin, staging);
      JoinWords(a) == tool + " " + "sign" + " " + JoinWords(a[2..])
    ensures var a := CodeSignToolArgs(tool, env, bin, staging);
      (forall k :: 0 <= k < |a| ==> ' ' !in a[k]) ==> SplitWords(JoinWords(a)) == a
  {
    var a := CodeSignToolArgs(tool, env, bin, staging);
    assert a[1..][1..] == a[2..];
    if forall k :: 0 <= k < |a| ==> ' ' !in a[k] {
      SplitJoinWords(a);
    }
  }

  /** `Error:` in CodeSignTool's output is a failure whatever its exit status; nothing else runs. */
  lemma SignWindowsErrorMarker(platform: Platform, env: EnvConfig, bin: Path, files: set<Path>,
                               code: int, out: string, err: string, w: set<Path>, r2: Reply)
    requires ResolveTool(env).Some? && ResolveTool(env).value in files && HasEsignerCredentials(env)
    requires Contains(out, ErrorMarker)
    ensures var t := SignWindows(platform, env, bin, files, Exited(code, out, err, w), r2);
      t.exit == ToolFailed && |t.calls| == 1
  {
  }

  /** CodeSignTool's exit status is never looked at. */
  lemma SignWindowsIgnoresExitCode(platform: Platform, env: EnvConfig, bin: Path, files: set<Path>,
                                   code: int, code': int, out: string, err: string, w: set<Path>, r2: Reply)
    ensures SignWindows(platform, env, bin, files, Exited(code, out, err, w), r2)
            == SignWindows(platform, env, bin, files, Exited(code', out, err, w), r2)
  {
  }

  /**
   * The outcome of Windows signing, decided without reference to the staging
   * directory: moving the signed output and removing the directory (or
   * failing to) never change it. On Windows the signature must read `Valid`.
   */
  lemma SignWindowsSucceedsIff(platform: Platform, env: EnvConfig, bin: Path, files: set<Path>, r1: Reply, r2: Reply)
    ensures SignWindows(platform, env, bin, files, r1, r2).exit.Succeeded()
            <==> || ResolveTool(env).None?
                 || (&& ResolveTool(env).value in files && HasEsignerCredentials(env)
                     && r1.Exited? && !Contains(r1.stdout, ErrorMarker)
                     && (platform == Windows ==> r2.Exited? && Contains(r2.stdout, ValidMarker)))
  {
  }

  /** Off Windows a signed binary is reported as unverified, distinct from a verified one, with no check run. */
  lemma SignWindowsUnverifiedOffWindows(platform: Platform, env: EnvConfig, bin: Path, files: set<Path>, r1: Reply, r2: Reply)
    requires platform != Windows && ResolveTool(env).Some?
    requires SignWindows(platform, env, bin, files, r1, r2).exit.Succeeded()
    ensures SignWindows(platform, env, bin, files, r1, r2).exit == DoneUnverified
    ensures |SignWindows(platform, env, bin, files, r1, r2).calls| == 1
  {
  }

  /** On Windows a successful signing run always ran the Authenticode check after the tool. */
  lemma SignWindowsVerifiedOnWindows(env: EnvConfig, bin: Path, files: set<Path>, r1: Reply, r2: Reply)
    ensures var t := SignWindows(Windows, env, bin, files, r1, r2);
      t.exit.Succeeded() && ResolveTool(env).Some? ==>
        t.exit == Done && |t.calls| == 2 && t.calls[1] == Argv(AuthenticodeArgs(bin))
  {
  }

  /** The staged output never has the binary's own path. */
  lemma StagedOutputDiffers(bin: Path)
    ensures Join(StagingDir(bin), Name(bin)) != bin
  {
    var i := LastIndexOf(bin, '/');
    assert |Name(bin)| == |bin| - i - 1;
    NameHasNoSeparator(bin);
    assert |Parent(bin)| == if i < 0 then 1 else i;
  }

  /**
   * After signing, the signed output (when the tool wrote one) has replaced
   * the binary, and the only other path that may go is the staging directory.
   */
  lemma AfterSigningReplaces(files: set<Path>, bin: Path)
    requires Name(bin) != StagingDirName
    ensures var staging := StagingDir(bin);
            var signed := Join(staging, Name(bin));
            var f := AfterSigning(files, bin, staging);
      && (signed in files ==> bin in f && signed !in f)
      && files - {signed, staging} <= f
      && f <= files + {bin}
  {
    StagedOutputDiffers(bin);
    assert '/' !in StagingDirName;
    JoinParts(Parent(bin), StagingDirName);
    assert StagingDir(bin) != bin;
  }
}
