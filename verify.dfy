/**
 * The installation checks: each verify_* call consults its probe (the platform string, a ping,
 * `python3 --version`, `ffmpeg --version`) only while its status is NotChecked, then caches
 * Verified or Failed for the rest of the run. Probe outcomes are inputs; the commands the
 * checks run are recorded on a Shell.
 */
module Verify {
  import opened Wrappers
  import opened Text
  import opened Shell

  datatype VerificationStatus = NotChecked | Verified | Failed

  /**
   * The status after one verify_* call whose probe, if it runs, reports passed: the first call
   * decides, and a decided status never changes again.
   */
  function Settle(status: VerificationStatus, passed: bool): (s: VerificationStatus)
    ensures s != NotChecked
    ensures status != NotChecked ==> s == status
    ensures status == NotChecked ==> (s == Verified <==> passed)
  {
    if status != NotChecked then status
    else if passed then Verified
    else Failed
  }

  /** The probe command a verify_* call runs: only while nothing is cached. */
  function ProbeRun(status: VerificationStatus, cmd: Command): (cmds: seq<Command>)
    ensures |cmds| <= 1
    ensures cmds != [] <==> status == NotChecked
  {
    if status == NotChecked then [cmd] else []
  }

  // ---------------------------------------------------------------------------------------
  // Repeated calls

  /**
   * What successive calls of a verify_* function return, where call i's probe would report
   * probes[i] if it ran.
   */
  function Answers(status: VerificationStatus, probes: seq<bool>): (r: seq<bool>)
    ensures |r| == |probes|
    decreases probes
  {
    if probes == [] then []
    else
      var next := Settle(status, probes[0]);
      [next == Verified] + Answers(next, probes[1..])
  }

  /** A cached status answers every later call the same way, whatever the probes would say. */
  lemma {:induction false} AnswersOfSettled(status: VerificationStatus, probes: seq<bool>)
    requires status != NotChecked
    ensures forall i :: 0 <= i < |probes| ==> Answers(status, probes)[i] == (status == Verified)
  {
    if probes != [] {
      AnswersOfSettled(status, probes[1..]);
    }
  }

  /** From NotChecked, the first probe decides every answer of the run. */
  lemma FirstProbeDecides(probes: seq<bool>)
    requires probes != []
    ensures forall i :: 0 <= i < |probes| ==> Answers(NotChecked, probes)[i] == probes[0]
  {
    AnswersOfSettled(Settle(NotChecked, probes[0]), probes[1..]);
  }

  /**
   * What successive verify_internet_connection calls return: the first call answers True
   * whatever the ping says, later calls answer from the cache.
   */
  function InternetAnswers(status: VerificationStatus, pings: seq<bool>): (r: seq<bool>)
    ensures |r| == |pings|
    decreases pings
  {
    if pings == [] then []
    else
      var next := Settle(status, pings[0]);
      [status == NotChecked || next == Verified] + InternetAnswers(next, pings[1..])
  }

  /** Once decided, the internet check answers like every other check. */
  lemma {:induction false} InternetAnswersOfSettled(status: VerificationStatus, pings: seq<bool>)
    requires status != NotChecked
    ensures InternetAnswers(status, pings) == Answers(status, pings)
  {
    if pings != [] {
      InternetAnswersOfSettled(status, pings[1..]);
    }
  }

  /**
   * The internet check's quirk: when the first ping fails, the first call still answers True and
   * every later call answers False.
   */
  lemma InternetQuirk(pings: seq<bool>)
    requires pings != [] && !pings[0]
    ensures InternetAnswers(NotChecked, pings)[0]
    ensures forall i :: 1 <= i < |pings| ==> !InternetAnswers(NotChecked, pings)[i]
  {
    InternetAnswersOfSettled(Failed, pings[1..]);
    AnswersOfSettled(Failed, pings[1..]);
  }

  // ---------------------------------------------------------------------------------------
  // Probes

  /** is_using_linux: 'linux' is a substring of the platform string. */
  predicate IsUsingLinux(platform: string) {
    Contains(platform, "linux")
  }

  /**
   * Any platform with "linux" in it counts as Linux; a platform without an 'l', such as
   * "darwin" or "win32", does not.
   */
  lemma LinuxPlatform(before: string, after: string, other: string)
    ensures IsUsingLinux(before + "linux" + after)
    ensures 'l' !in other ==> !IsUsingLinux(other)
    ensures !IsUsingLinux("darwin") && !IsUsingLinux("win32")
  {
    var p := before + "linux" + after;
    assert p[|before|..|before| + 5] == "linux";
    assert OccursAt(p, "linux", |before|);
    forall q: string, i: nat | 'l' !in q && i <= |q|
      ensures !OccursAt(q, "linux", i)
    {
      if i + 5 <= |q| {
        assert q[i..i + 5][0] == q[i];
      }
    }
    assert 'l' !in "darwin" && 'l' !in "win32";
  }

  /** The os.system line of the internet check. */
  function PingLine(testHost: string, attempts: int, timeoutSeconds: int): string {
    "ping " + testHost + " -c " + IntToString(attempts) + " -t " + IntToString(timeoutSeconds)
    + " > /dev/null 2>&1"
  }

  const PYTHON_VERSION: Command := Run(["python3", "--version"])
  const FFMPEG_VERSION: Command := Run(["ffmpeg", "--version"])

  /**
   * int(stdout.strip().split()[-1].split('.')[1]): the number after the first '.' of the last
   * word of the output; None where Python raises (no word, no '.', not an integer).
   */
  function ParseMinorVersion(stdout: string): (r: Option<int>)
    ensures (forall i :: 0 <= i < |stdout| ==> IsSpace(stdout[i])) ==> r.None?
  {
    StripIsSlice(stdout);
    var words := SplitWhitespace(Strip(stdout));
    if words == [] then None
    else
      var parts := Split(words[|words| - 1], '.');
      if |parts| < 2 then None else ParseInt(parts[1])
  }

  /** The banner `python3 --version` prints. */
  function PythonBanner(minor: nat, patch: nat): string {
    "Python" + " " + ("3." + NatToString(minor) + "." + NatToString(patch)) + "\n"
  }

  /** The parse reads the minor version back from the banner. */
  lemma ParseMinorVersionOfBanner(minor: nat, patch: nat)
    ensures ParseMinorVersion(PythonBanner(minor, patch)) == Some(minor)
  {
    var m := NatToString(minor);
    var p := NatToString(patch);
    var v := "3." + m + "." + p;
    assert NoSpace(v) by {
      assert forall i :: 0 <= i < |v| ==> v[i] == '3' || v[i] == '.' || IsDigit(v[i]);
    }
    WordsOfLine("Python", v);
    assert '.' !in m by {
      assert forall i :: 0 <= i < |m| ==> IsDigit(m[i]);
    }
    assert v == "3" + ['.'] + (m + ['.'] + p);
    SplitAtFirst("3", '.', m + ['.'] + p);
    SplitAtFirst(m, '.', p);
    IntToStringRoundTrip(minor);
  }

  /**
   * Whatever the output, the version is read from its last word: the number between that
   * word's first '.' and the next '.' (or the word's end); a word without '.' gives none.
   */
  lemma ParseMinorVersionMeaning(stdout: string)
    ensures var words := SplitWhitespace(Strip(stdout));
      words != [] ==>
        var w := words[|words| - 1];
        ParseMinorVersion(stdout)
        == if '.' in w then var u := w[IndexOf(w, '.') + 1..]; ParseInt(u[..IndexOf(u, '.')])
           else None
  {
    var words := SplitWhitespace(Strip(stdout));
    if words != [] {
      var w := words[|words| - 1];
      SplitHasTwoPieces(w, '.');
      if '.' in w {
        assert w[..|w|] == w;
        SplitFirstPiece(w, '.');
        SplitFirstPiece(w[IndexOf(w, '.') + 1..], '.');
      }
    }
  }

  /** A one-word banner without a '.' gives no version. */
  lemma ParseMinorVersionFails(w: string)
    requires w != [] && NoSpace(w) && '.' !in w
    ensures ParseMinorVersion(w + "\n") == None
  {
    WordOfLine(w);
    SplitWithoutSeparator(w, '.');
  }

  /** The python check passes when the version runs and its minor version is high enough. */
  predicate PythonAcceptable(run: Exit, minimumVersion: int) {
    && run.Exited?
    && ParseMinorVersion(run.stdout).Some?
    && ParseMinorVersion(run.stdout).value >= minimumVersion
  }

  /** A Python 3.m banner passes exactly when m reaches the minimum. */
  lemma PythonBannerAcceptable(minor: nat, patch: nat, code: int, minimumVersion: int)
    ensures PythonAcceptable(Exited(code, PythonBanner(minor, patch)), minimumVersion)
            <==> minor >= minimumVersion
  {
    ParseMinorVersionOfBanner(minor, patch);
  }

  // ---------------------------------------------------------------------------------------
  // The cached checks

  /** The module's VS_* statuses. */
  class Verification {
    var usingLinux: VerificationStatus
    var internetConnection: VerificationStatus
    var pythonVersion: VerificationStatus
    var ffmpegInstalled: VerificationStatus

    /** At import every check is NotChecked. */
    constructor ()
      ensures usingLinux == NotChecked && internetConnection == NotChecked
      ensures pythonVersion == NotChecked && ffmpegInstalled == NotChecked
    {
      usingLinux := NotChecked;
      internetConnection := NotChecked;
      pythonVersion := NotChecked;
      ffmpegInstalled := NotChecked;
    }

    /** verify_using_linux, with sys.platform as platform. */
    method VerifyUsingLinux(platform: string) returns (r: bool)
      modifies this`usingLinux
      ensures usingLinux == Settle(old(usingLinux), IsUsingLinux(platform))
      ensures r == (usingLinux == Verified)
    {
      if usingLinux == Verified {
        return true;
      }
      if usingLinux == Failed {
        return false;
      }
      if IsUsingLinux(platform) {
        usingLinux := Verified;
        r := true;
      } else {
        usingLinux := Failed;
        r := false;
      }
    }

    /**
     * verify_internet_connection, where pingStatus is what os.system returns for the ping line.
     * A failing ping is cached as Failed but the call that ran it still answers True.
     */
    method VerifyInternetConnection(sh: Shell, pingStatus: int, testHost: string := "8.8.8.8",
                                    attempts: int := 4, timeoutSeconds: int := 3)
      returns (r: bool)
      modifies this`internetConnection, sh
      ensures internetConnection == Settle(old(internetConnection), pingStatus == 0)
      ensures r == (old(internetConnection) == NotChecked || internetConnection == Verified)
      ensures sh.history == old(sh.history)
        + ProbeRun(old(internetConnection), System(PingLine(testHost, attempts, timeoutSeconds)))
    {
      if internetConnection == Verified {
        return true;
      }
      if internetConnection == Failed {
        return false;
      }
      sh.Execute(System(PingLine(testHost, attempts, timeoutSeconds)));
      var success := pingStatus == 0;
      if success {
        internetConnection := Verified;
        r := true;
      } else {
        internetConnection := Failed;
        r := true;
      }
    }

    /**
     * verify_python_installed, where run is how `python3 --version` ends. A cached status
     * answers whatever minimumVersion is passed later.
     */
    method VerifyPythonInstalled(sh: Shell, run: Exit, minimumVersion: int := 7) returns (r: bool)
      modifies this`pythonVersion, sh
      ensures pythonVersion == Settle(old(pythonVersion), PythonAcceptable(run, minimumVersion))
      ensures r == (pythonVersion == Verified)
      ensures sh.history == old(sh.history) + ProbeRun(old(pythonVersion), PYTHON_VERSION)
    {
      if pythonVersion == Verified {
        return true;
      }
      if pythonVersion == Failed {
        return false;
      }
      sh.Execute(PYTHON_VERSION);
      if run.Raised? {
        pythonVersion := Failed;
        return false;
      }
      var parsed := ParseMinorVersion(run.stdout);
      if parsed.None? {
        pythonVersion := Failed;
        return false;
      }
      if parsed.value < minimumVersion {
        pythonVersion := Failed;
        return false;
      }
      pythonVersion := Verified;
      r := true;
    }

    /** is_ffmpeg_installed: `ffmpeg --version` runs without raising, whatever its exit code. */
    static method IsFfmpegInstalled(sh: Shell, run: Exit) returns (r: bool)
      modifies sh
      ensures r == run.Exited?
      ensures sh.history == old(sh.history) + [FFMPEG_VERSION]
    {
      sh.Execute(FFMPEG_VERSION);
      r := !run.Raised?;
    }

    /** verify_ffmpeg_installed, where run is how `ffmpeg --version` ends. */
    method VerifyFfmpegInstalled(sh: Shell, run: Exit) returns (r: bool)
      modifies this`ffmpegInstalled, sh
      ensures ffmpegInstalled == Settle(old(ffmpegInstalled), run.Exited?)
      ensures r == (ffmpegInstalled == Verified)
      ensures sh.history == old(sh.history) + ProbeRun(old(ffmpegInstalled), FFMPEG_VERSION)
    {
      if ffmpegInstalled == Verified {
        return true;
      }
      if ffmpegInstalled == Failed {
        return false;
      }
      var installed := IsFfmpegInstalled(sh, run);
      if installed {
        ffmpegInstalled := Verified;
        r := true;
      } else {
        ffmpegInstalled := Failed;
        r := false;
      }
    }
  }
}
