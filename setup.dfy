/**
 * The underwater camera Pi's setup: the cached apt-get update and MediaMTX checks, the
 * MediaMTX release names, and the two installers, which stop at the first failing step. The
 * outcomes of the commands, the directory listing and the file system's answers are inputs;
 * the commands run are recorded on a Shell.
 */
module Setup {
  import opened Text
  import opened Shell
  import opened Verify

  const APT_UPDATE: Command := Run(["sudo", "apt-get", "update"])
  const APT_INSTALL_FFMPEG: Command := Run(["sudo", "apt-get", "install", "ffmpeg", "-y"])

  /** The three files a MediaMTX installation directory must hold. */
  const REQUIRED_FILES: set<string> := {"LICENSE", "mediamtx", "mediamtx.yml"}

  const DEFAULT_MEDIAMTX_VERSION: string := "1.11.3"
  const RELEASES_URL: string := "https://github.com/bluenviron/mediamtx/releases/download/"

  /** The configuration install_mediamtx writes: accept any stream a publisher pushes. */
  const MEDIAMTX_CONFIG: string := "paths:\n\tall:\n\t\tsource: publisher\n"

  /** One entry of a directory listing: its name and whether it is a regular file. */
  datatype DirEntry = DirEntry(name: string, isFile: bool)

  // ---------------------------------------------------------------------------------------
  // Release names

  /** construct_tar_filename: the release tarball of a version. */
  function TarFilename(version: string): (t: string)
    ensures |t| == 10 + |version| + 19
    ensures t[..10] == "mediamtx_v" && t[10..10 + |version|] == version
    ensures t[10 + |version|..] == "_linux_amd64.tar.gz"
  {
    "mediamtx_v" + version + "_linux_amd64.tar.gz"
  }

  /** construct_release_link: the GitHub download link of a version's tarball. */
  function ReleaseLink(version: string): (link: string)
    ensures |link| == |RELEASES_URL| + 1 + |version| + 1 + |TarFilename(version)|
    ensures link[..|RELEASES_URL|] == RELEASES_URL
    ensures link[|RELEASES_URL|..] == "v" + version + "/" + TarFilename(version)
  {
    RELEASES_URL + ("v" + version + "/" + TarFilename(version))
  }

  /** Distinct versions name distinct tarballs. */
  lemma TarFilenameInjective(a: string, b: string)
    requires TarFilename(a) == TarFilename(b)
    ensures a == b
  {
    assert a == TarFilename(a)[10..10 + |a|];
  }

  /** Distinct versions have distinct links, and a link ends in its tarball's name. */
  lemma ReleaseLinkNamesTarball(a: string, b: string)
    ensures ReleaseLink(a) == ReleaseLink(b) ==> a == b
    ensures var link := ReleaseLink(a); var t := TarFilename(a);
      |t| <= |link| && link[|link| - |t|..] == t
  {
    if ReleaseLink(a) == ReleaseLink(b) {
      var la := ReleaseLink(a);
      var lb := ReleaseLink(b);
      assert |a| == |b|;
      var n := |RELEASES_URL| + 1;
      assert la[n..n + |a|] == ("v" + a + "/" + TarFilename(a))[1..1 + |a|] == a;
      assert lb[n..n + |b|] == ("v" + b + "/" + TarFilename(b))[1..1 + |b|] == b;
    }
  }

  // ---------------------------------------------------------------------------------------
  // Is MediaMTX installed?

  /** Some entry of the listing is a regular file called name. */
  predicate HasFile(entries: seq<DirEntry>, name: string) {
    exists e :: e in entries && e.name == name && e.isFile
  }

  /** Every required file is present as a regular file. */
  predicate MediamtxPresent(entries: seq<DirEntry>) {
    forall name :: name in REQUIRED_FILES ==> HasFile(entries, name)
  }

  /**
   * is_mediamtx_installed over the directory's listing: strike each required name found as a
   * regular file; installed when none is left.
   */
  method IsMediamtxInstalled(entries: seq<DirEntry>) returns (installed: bool)
    ensures installed <==> MediamtxPresent(entries)
  {
    var required := REQUIRED_FILES;
    for i := 0 to |entries|
      invariant required <= REQUIRED_FILES
      invariant forall name :: name in REQUIRED_FILES ==>
        (name !in required <==> HasFile(entries[..i], name))
    {
      var entry := entries[i];
      ghost var before := required;
      assert entries[..i + 1] == entries[..i] + [entry];
      if entry.name in required && entry.isFile {
        required := required - {entry.name};
      }
      assert required <= before;
    }
    assert entries[..|entries|] == entries;
    installed := |required| == 0;
  }

  /** Extra entries never make an installation incomplete, and order does not matter. */
  lemma MediamtxPresentKept(entries: seq<DirEntry>, more: seq<DirEntry>)
    ensures MediamtxPresent(entries) ==> MediamtxPresent(entries + more)
    ensures MediamtxPresent(entries + more) <==> MediamtxPresent(more + entries)
  {
    forall name | HasFile(entries, name)
      ensures HasFile(entries + more, name)
    {
      var e :| e in entries && e.name == name && e.isFile;
      assert e in entries + more;
    }
    forall name
      ensures HasFile(entries + more, name) <==> HasFile(more + entries, name)
    {
      if HasFile(entries + more, name) {
        var e :| e in entries + more && e.name == name && e.isFile;
        assert e in more + entries;
      }
      if HasFile(more + entries, name) {
        var e :| e in more + entries && e.name == name && e.isFile;
        assert e in entries + more;
      }
    }
  }

  /**
   * A listing is an installation exactly when LICENSE, mediamtx and mediamtx.yml each appear
   * as a regular file: one of them missing, or present only as a directory, means not installed.
   */
  lemma MediamtxNeedsFiles(entries: seq<DirEntry>)
    ensures MediamtxPresent(entries) <==>
      HasFile(entries, "LICENSE") && HasFile(entries, "mediamtx") && HasFile(entries, "mediamtx.yml")
  {
    if HasFile(entries, "LICENSE") && HasFile(entries, "mediamtx") && HasFile(entries, "mediamtx.yml") {
      forall name | name in REQUIRED_FILES
        ensures HasFile(entries, name)
      {
        assert name == "LICENSE" || name == "mediamtx" || name == "mediamtx.yml";
      }
    }
    assert "LICENSE" in REQUIRED_FILES && "mediamtx" in REQUIRED_FILES && "mediamtx.yml" in REQUIRED_FILES;
  }

  // ---------------------------------------------------------------------------------------
  // The setup checks and installers

  /** The ping verify_internet_connection runs with its default arguments. */
  const DEFAULT_PING: Command := System(PingLine("8.8.8.8", 4, 3))

  /**
   * The commands install_ffmpeg runs from the linux check on: each later step runs only when
   * the steps before it passed, and each cached check runs its probe only while unchecked.
   */
  function InstallSteps(linux: bool, internet: bool, updated: bool, installed: bool,
                        internetStatus: VerificationStatus, aptStatus: VerificationStatus,
                        ffmpegStatus: VerificationStatus): (cmds: seq<Command>)
    ensures |cmds| <= 4
    ensures APT_INSTALL_FFMPEG in cmds <==> linux && internet && updated
  {
    if !linux then []
    else
      ProbeRun(internetStatus, DEFAULT_PING)
      + (if !internet then []
         else
           ProbeRun(aptStatus, APT_UPDATE)
           + (if !updated then []
              else [APT_INSTALL_FFMPEG] + (if installed then ProbeRun(ffmpegStatus, FFMPEG_VERSION) else [])))
  }

  /** The setup script's own VS_* statuses, beside the shared installation checks. */
  class CameraSetup {
    const checks: Verification
    var aptgetUpdated: VerificationStatus
    var mediamtxInstalled: VerificationStatus

    constructor (checks: Verification)
      ensures this.checks == checks
      ensures aptgetUpdated == NotChecked && mediamtxInstalled == NotChecked
    {
      this.checks := checks;
      aptgetUpdated := NotChecked;
      mediamtxInstalled := NotChecked;
    }

    /** verify_aptget_updated, where update is how `sudo apt-get update` ends. */
    method VerifyAptgetUpdated(sh: Shell, update: Exit) returns (r: bool)
      modifies this`aptgetUpdated, sh
      ensures aptgetUpdated == Settle(old(aptgetUpdated), update.Succeeded())
      ensures r == (aptgetUpdated == Verified)
      ensures sh.history == old(sh.history) + ProbeRun(old(aptgetUpdated), APT_UPDATE)
    {
      if aptgetUpdated == Verified {
        return true;
      }
      if aptgetUpdated == Failed {
        return false;
      }
      sh.Execute(APT_UPDATE);
      if update.Succeeded() {
        aptgetUpdated := Verified;
        r := true;
      } else {
        aptgetUpdated := Failed;
        r := false;
      }
    }

    /**
     * verify_mediamtx_installed, with the listing of the path it is given. A cached answer
     * ignores the path.
     */
    method VerifyMediamtxInstalled(entries: seq<DirEntry>) returns (r: bool)
      modifies this`mediamtxInstalled
      ensures mediamtxInstalled == Settle(old(mediamtxInstalled), MediamtxPresent(entries))
      ensures r == (mediamtxInstalled == Verified)
    {
      if mediamtxInstalled == Verified {
        return true;
      }
      if mediamtxInstalled == Failed {
        return false;
      }
      var installed := IsMediamtxInstalled(entries);
      if !installed {
        mediamtxInstalled := Failed;
        return false;
      }
      mediamtxInstalled := Verified;
      r := true;
    }

    /**
     * install_ffmpeg. Inputs: how `ffmpeg --version` ends before and after the install, the
     * platform, the ping's exit status, and how the apt-get update and install end. The steps
     * run in order (linux, internet, apt-get update, install, final check) and the first one
     * that fails ends the call with False and nothing later attempted. An ffmpeg found at the
     * start only primes the ffmpeg check; it does not end the call.
     */
    method InstallFfmpeg(sh: Shell, ffmpegBefore: Exit, platform: string, pingStatus: int,
                         update: Exit, install: Exit, ffmpegAfter: Exit)
      returns (r: bool)
      modifies checks, this, sh
      ensures
        var primed := if ffmpegBefore.Exited? then Settle(old(checks.ffmpegInstalled), true)
                      else old(checks.ffmpegInstalled);
        var linux := Settle(old(checks.usingLinux), IsUsingLinux(platform)) == Verified;
        var internet := old(checks.internetConnection) == NotChecked
                        || Settle(old(checks.internetConnection), pingStatus == 0) == Verified;
        var updated := Settle(old(aptgetUpdated), update.Succeeded()) == Verified;
        var installed := install.Succeeded();
        var found := Settle(primed, ffmpegAfter.Exited?) == Verified;
        && r == (linux && internet && updated && installed && found)
        && checks.usingLinux == Settle(old(checks.usingLinux), IsUsingLinux(platform))
        && checks.internetConnection
           == (if linux then Settle(old(checks.internetConnection), pingStatus == 0)
               else old(checks.internetConnection))
        && aptgetUpdated
           == (if linux && internet then Settle(old(aptgetUpdated), update.Succeeded())
               else old(aptgetUpdated))
        && checks.ffmpegInstalled
           == (if linux && internet && updated && installed then Settle(primed, ffmpegAfter.Exited?)
               else primed)
        && checks.pythonVersion == old(checks.pythonVersion)
        && mediamtxInstalled == old(mediamtxInstalled)
        && sh.history
           == old(sh.history)
              + [FFMPEG_VERSION]
              + (if ffmpegBefore.Exited? then ProbeRun(old(checks.ffmpegInstalled), FFMPEG_VERSION) else [])
              + InstallSteps(linux, internet, updated, installed, old(checks.internetConnection),
                             old(aptgetUpdated), primed)
    {
      var present := Verification.IsFfmpegInstalled(sh, ffmpegBefore);
      if present {
        var _ := checks.VerifyFfmpegInstalled(sh, ffmpegBefore);
      }
      assert checks.ffmpegInstalled
             == if ffmpegBefore.Exited? then Settle(old(checks.ffmpegInstalled), true)
                else old(checks.ffmpegInstalled);
      assert sh.history
             == old(sh.history) + [FFMPEG_VERSION]
                + (if ffmpegBefore.Exited? then ProbeRun(old(checks.ffmpegInstalled), FFMPEG_VERSION)
                   else []);
      assert checks.usingLinux == old(checks.usingLinux);
      assert checks.internetConnection == old(checks.internetConnection);
      assert aptgetUpdated == old(aptgetUpdated);
      r := InstallFfmpegAfterProbe(sh, platform, pingStatus, update, install, ffmpegAfter);
    }

    /** install_ffmpeg from the linux check on, once the ffmpeg check has been primed. */
    method InstallFfmpegAfterProbe(sh: Shell, platform: string, pingStatus: int,
                                   update: Exit, install: Exit, ffmpegAfter: Exit)
      returns (r: bool)
      modifies checks, this, sh
      ensures
        var linux := Settle(old(checks.usingLinux), IsUsingLinux(platform)) == Verified;
        var internet := old(checks.internetConnection) == NotChecked
                        || Settle(old(checks.internetConnection), pingStatus == 0) == Verified;
        var updated := Settle(old(aptgetUpdated), update.Succeeded()) == Verified;
        var installed := install.Succeeded();
        var found := Settle(old(checks.ffmpegInstalled), ffmpegAfter.Exited?) == Verified;
        && r == (linux && internet && updated && installed && found)
        && checks.usingLinux == Settle(old(checks.usingLinux), IsUsingLinux(platform))
        && checks.internetConnection
           == (if linux then Settle(old(checks.internetConnection), pingStatus == 0)
               else old(checks.internetConnection))
        && aptgetUpdated
           == (if linux && internet then Settle(old(aptgetUpdated), update.Succeeded())
               else old(aptgetUpdated))
        && checks.ffmpegInstalled
           == (if linux && internet && updated && installed
               then Settle(old(checks.ffmpegInstalled), ffmpegAfter.Exited?)
               else old(checks.ffmpegInstalled))
        && checks.pythonVersion == old(checks.pythonVersion)
        && mediamtxInstalled == old(mediamtxInstalled)
        && sh.history
           == old(sh.history)
              + InstallSteps(linux, internet, updated, installed, old(checks.internetConnection),
                             old(aptgetUpdated), old(checks.ffmpegInstalled))
    {
      ghost var h0, internet0, apt0, ffmpeg0 :=
        sh.history, checks.internetConnection, aptgetUpdated, checks.ffmpegInstalled;
      var linux := checks.VerifyUsingLinux(platform);
      if !linux {
        return false;
      }
      var internet := checks.VerifyInternetConnection(sh, pingStatus);
      ghost var ping := ProbeRun(internet0, DEFAULT_PING);
      assert sh.history == h0 + ping;
      if !internet {
        return false;
      }
      var updated := VerifyAptgetUpdated(sh, update);
      ghost var aptRun := ProbeRun(apt0, APT_UPDATE);
      assert sh.history == h0 + ping + aptRun;
      if !updated {
        return false;
      }
      sh.Execute(APT_INSTALL_FFMPEG);
      assert sh.history == h0 + (ping + (aptRun + [APT_INSTALL_FFMPEG]));
      if !install.Succeeded() {
        return false;
      }
      var found := checks.VerifyFfmpegInstalled(sh, ffmpegAfter);
      ghost var probe := ProbeRun(ffmpeg0, FFMPEG_VERSION);
      assert sh.history == h0 + (ping + (aptRun + ([APT_INSTALL_FFMPEG] + probe)));
      if !found {
        return false;
      }
      r := true;
    }

    /**
     * install_mediamtx for the directory at path. Inputs: the directory's listing before and
     * after the install, whether path exists, whether it is a directory once created, how the
     * download and the extraction end, and whether the configuration file can be written.
     * The steps run in order and the first failure ends the call with False; True needs the
     * final (cached) MediaMTX check to pass.
     */
    method InstallMediamtx(sh: Shell, path: string, listingBefore: seq<DirEntry>, pathExists: bool,
                           isDir: bool, download: Exit, extract: Exit, configWritable: bool,
                           listingAfter: seq<DirEntry>, version: string := DEFAULT_MEDIAMTX_VERSION)
      returns (r: bool)
      modifies this`mediamtxInstalled, sh
      ensures
        var primed := if MediamtxPresent(listingBefore) then Settle(old(mediamtxInstalled), true)
                      else old(mediamtxInstalled);
        var tarball := TarFilename(version);
        var reached := isDir && download.Succeeded() && extract.Succeeded() && configWritable;
        && r == (reached && Settle(primed, MediamtxPresent(listingAfter)) == Verified)
        && mediamtxInstalled
           == (if reached then Settle(primed, MediamtxPresent(listingAfter)) else primed)
        && sh.history
           == old(sh.history)
              + (if pathExists then [] else [MakeDir(path)])
              + (if isDir then [Run(["wget", ReleaseLink(version)])] else [])
              + (if isDir && download.Succeeded() then [Run(["tar", "-xf", tarball, "-C", path])]
                 else [])
              + (if isDir && download.Succeeded() && extract.Succeeded()
                 then [Run(["rm", tarball])] else [])
              + (if reached then [WriteFile(path + "/mediamtx.yml", MEDIAMTX_CONFIG)] else [])
    {
      var present := IsMediamtxInstalled(listingBefore);
      if present {
        var _ := VerifyMediamtxInstalled(listingBefore);
      }
      if !pathExists {
        sh.Execute(MakeDir(path));
      }
      if !isDir {
        return false;
      }
      sh.Execute(Run(["wget", ReleaseLink(version)]));
      if !download.Succeeded() {
        return false;
      }
      sh.Execute(Run(["tar", "-xf", TarFilename(version), "-C", path]));
      if !extract.Succeeded() {
        return false;
      }
      sh.Execute(Run(["rm", TarFilename(version)]));
      if !configWritable {
        return false;
      }
      sh.Execute(WriteFile(path + "/mediamtx.yml", MEDIAMTX_CONFIG));
      r := VerifyMediamtxInstalled(listingAfter);
    }
  }
}
