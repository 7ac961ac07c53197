# MATE-2024 ROV control and camera tooling, modelled in Dafny

This project models three parts of the MST Robotics MATE-2024 underwater-vehicle software:

- **MAVLink link and controller** (`src/mavlink/`). `MavlinkSocket` opens a UDP connection,
  waits for the vehicle's heartbeat and records when the connection was established.
  `MavlinkController` turns high-level commands into MAVLink messages: arm, disarm, flight
  mode, position/velocity/acceleration setpoints, yaw, camera pitch and lights. The model
  encodes each command (`Controller.Intent`) as a message (`Mavlink.Msg`) and decodes it back.
  It proves that encoding is a bijection onto the messages the controller can send. The
  `pymavlink` master is a `Socket.Master` object whose `log` records every message sent.
- **v4l2 camera summary** (`diagnostic/cameras/summary.py`, its identical copy
  `scripts/cameras/summary.py`, and `diagnostic/uw_camera_pi/v4l2_summary.py`). The output of
  `v4l2-ctl --list-devices` is split into blocks of non-empty lines. Each block becomes a
  `Camera` with a name, a platform and its `/dev/video*` devices. For each device, the fields
  of interest are read from the last line of `v4l2-ctl --all` that mentions them. The model
  proves what the blocks are and that they keep every non-empty line. It proves that a field's
  value comes from the last line mentioning it. It proves that the JSON form of a camera reads
  back to the camera.
- **Installation checks** (`diagnostic/verify.py`, its identical copy
  `scripts/installation/verify.py`, and `diagnostic/uw_camera_pi/setup.py`). Each
  `verify_*` check runs its probe once and caches `Verified` or `Failed`. The model proves that
  the first probe decides every later answer. It also proves the internet check's quirk: the
  call that sees a failed ping still answers `True`. The setup steps (`install_ffmpeg`,
  `install_mediamtx`) are methods whose contracts give the exact command sequence they run
  and the statuses they leave behind.

Commands the installation checks and the setup steps run (`subprocess.run`, `os.system`, file
writes, directory creation in `verify.py` and `setup.py`) are recorded on a `Shell.Shell`
object as a history of `Shell.Command` values. How each command ends (`Shell.Exit`: raised,
or exited with a code and its stdout) is a parameter of the method that runs it. The camera
summary's two `v4l2-ctl` commands are not recorded: the listing's outcome is the `listing`
parameter of `ListCameras`, and the per-device report is the `probe` function from device
name to stdout. The clock is an integer `now` parameter in milliseconds.

Files: `wrappers.dfy` (Option/Result/Outcome), `text.dfy` (the Python string operations used:
strip, split, split(), splitlines, `in`, int(), str()), `shell.dfy`, `mavlink_messages.dfy`,
`mavlink_socket.dfy`, `mavlink_controller.dfy`, `camera_summary.dfy`, `verify.dfy`, `setup.dfy`.

## Model

| member | source | states |
|---|---|---|
| Mavlink.MavlinkError.ToString | src/mavlink/error.py:17-25 | the string is "MavlinkError: " followed by exactly the message |
| Mavlink.ToStringInjective | src/mavlink/error.py:17-25 | two errors with the same string form carry the same message |
| Socket.Master.constructor | src/mavlink/socket.py:47-53 | a fresh master has no target yet and has sent nothing |
| Socket.MavlinkSocket.constructor | src/mavlink/socket.py:15-36 | a new socket keeps its hostname and port (defaults 0.0.0.0 and 14550), is neither listening nor established, has no start time and no master |
| Socket.MavlinkSocket.Listen | src/mavlink/socket.py:38-53 | opening succeeds and sets listening with a fresh master; an unresolvable host or a port out of range fails with the matching MavlinkError and leaves the socket as it was |
| Socket.MavlinkSocket.AwaitHeartbeat | src/mavlink/socket.py:55-70 | before listening it fails with the "Must be listening on a port before awaiting a heartbeat." error (its line break and indentation kept) and changes nothing; otherwise the master targets the heartbeat's system and component, and the socket is established with the start time now |
| Socket.TruncDiv | src/mavlink/socket.py:91 | integer division truncating toward zero, bounded on both sides, as Python's int() of a quotient |
| Socket.MavlinkSocket.AgeOfConnection | src/mavlink/socket.py:72-91 | fails with the "established" error exactly when no start time exists; otherwise the age in ms added to the start time gives now; in seconds it is the ms/1000 age truncated toward zero, for a negative age too (the wall clock may step back); never negative when now is not before the start |
| Socket.MavlinkSocket.TargetSystem | src/mavlink/socket.py:93-103 | present exactly when established, and then it is the master's target system |
| Socket.MavlinkSocket.TargetComponent | src/mavlink/socket.py:105-115 | present exactly when established, and then it is the master's target component |
| Socket.MavlinkSocket.CnxStr | src/mavlink/socket.py:117-126 | the string is "udp:" then the hostname, then ":" and the port in decimal |
| Socket.NoColonInIntToString | src/mavlink/socket.py:126 | a printed port never contains ':' |
| Socket.CnxStrRoundTrip | src/mavlink/socket.py:117-126 | for a hostname without ':', parsing the connection string gives back the hostname and the port |
| Controller.Motion.Order | src/mavlink/controller.py:214-217 | the order of position, velocity and acceleration is 0, 1 or 2 |
| Controller.TypeMask | src/mavlink/controller.py:212 | the mask picked for a motion never ignores the triplet that motion sets, and leaves bit 9 (FORCE_SET) clear, so acceleration values are read as accelerations, not forces |
| Controller.MotionOfOrder | src/mavlink/controller.py:194-217 | orders 0..2 name the motion whose order they are |
| Controller.TypeMaskBits | src/mavlink/controller.py:212 | each type mask ignores every x/y/z triplet except its own, and ignores yaw and yaw rate |
| Controller.SetpointValues | src/mavlink/controller.py:214-217 | the nine setpoint values hold the vector in the chosen triplet and 0 everywhere else |
| Controller.Encode | src/mavlink/controller.py:30-228 | each command is sent under the message id the controller uses (COMMAND_LONG, SET_MODE, SET_POSITION_TARGET_LOCAL_NED), to the target system, with confirmation 0 or the custom-mode flag; a setpoint carries the type mask of its motion, its coordinate frame, and its vector in the motion's triplet with zeros elsewhere |
| Controller.DecodeEncode | src/mavlink/controller.py:30-228 | decoding a message the controller sends gives back the command it encodes |
| Controller.DecodeSetpointValues | src/mavlink/controller.py:212-228 | a setpoint message decodes to its motion, its three values and its frame |
| Controller.EncodeDecode | src/mavlink/controller.py:30-228 | every message that decodes is exactly the encoding of what it decodes to |
| Controller.CommandParamsOfIntent | src/mavlink/controller.py:186-192 | a COMMAND_LONG that decodes carries exactly the command id and the seven params its command sends |
| Controller.SetpointOfValues | src/mavlink/controller.py:219-228 | a setpoint that decodes carries exactly the type mask and the nine values its motion sends |
| Controller.EncodeInjective | src/mavlink/controller.py:30-228 | two commands encoded to the same target and time are the same command |
| Controller.TypeMaskNamesMotion | src/mavlink/controller.py:212 | the three type masks are distinct |
| Controller.MavlinkController.constructor | src/mavlink/controller.py:12-28 | the controller keeps the established connection and its master |
| Controller.MavlinkController.Create | src/mavlink/controller.py:12-28 | construction fails exactly when the connection is not established, with "Provided connection hasn't been established!" |
| Controller.MavlinkController.SendLongCommand | src/mavlink/controller.py:157-192 | fewer or more than seven parameters fail with "Long command requires seven parameters!" and send nothing; seven send one COMMAND_LONG with them |
| Controller.MavlinkController.Arm | src/mavlink/controller.py:30-45 | sends the arm command (component arm/disarm, param1 1) and, when asked, then waits for the motors to arm |
| Controller.MavlinkController.Disarm | src/mavlink/controller.py:47-60 | sends the disarm command (param1 0) and, when asked, then waits for the motors to disarm |
| Controller.MavlinkController.SetMode | src/mavlink/controller.py:62-81 | an unknown mode fails with a KeyError and sends nothing; a known one sends SET_MODE with the custom-mode flag and its mode number |
| Controller.MavlinkController.SetPositionTargetLocalNed | src/mavlink/controller.py:194-228 | sends one setpoint message with the motion's type mask, the vector in its triplet, the frame and the boot time |
| Controller.MavlinkController.SetPosition | src/mavlink/controller.py:83-101 | sends a position setpoint in the body-offset NED frame |
| Controller.MavlinkController.SetVelocity | src/mavlink/controller.py:103-118 | sends a velocity setpoint in the body-offset NED frame |
| Controller.MavlinkController.SetAcceleration | src/mavlink/controller.py:120-135 | sends an acceleration setpoint in the body-offset NED frame |
| Controller.MavlinkController.SetYaw | src/mavlink/controller.py:137-141 | sends CONDITION_YAW with angle, speed, direction and the relative flag as 1 or 0 |
| Controller.MavlinkController.SetCameraPitch | src/mavlink/controller.py:143-147 | sends the gimbal-manager pitch/yaw command with pitch and speed |
| Controller.MavlinkController.Lights | src/mavlink/controller.py:149-155 | sends DO_SET_SERVO for servo 10 with pulse width 1500 when on and 0 when off |
| Shell.Shell.Execute | diagnostic/verify.py:91-96 | running a command appends it to the history and changes nothing else |
| Text.LStripIsSuffix | diagnostic/cameras/summary.py:83 | str.lstrip removes exactly the leading run of whitespace |
| Text.RStripIsPrefix | diagnostic/cameras/summary.py:83 | str.rstrip removes exactly the trailing run of whitespace |
| Text.StripIsSlice | diagnostic/cameras/summary.py:119 | str.strip gives the slice between the leading and the trailing whitespace, and that slice neither starts nor ends with whitespace |
| Text.IndexOf | diagnostic/cameras/summary.py:119 | the index of the first occurrence of a character, or the length when there is none |
| Text.Split | diagnostic/cameras/summary.py:82 | str.split(sep) gives at least one piece, no piece holds the separator, and joining the pieces with it gives the text back |
| Text.SplitFirstPiece | scripts/cameras/summary.py:119 | the first piece is the text before the first separator, and the rest is the split of the text after it |
| Text.SplitHasTwoPieces | diagnostic/cameras/summary.py:120 | str.split(sep) has a piece at index 1 exactly when the separator occurs, so `[1]` raises IndexError exactly on a text without it |
| Text.JoinSplitTail | diagnostic/cameras/summary.py:82 | joining all pieces but the first gives the text after the first separator |
| Text.SplitAtFirst | diagnostic/verify.py:100 | splitting a text at its first separator peels off the text before it |
| Text.SplitWithoutSeparator | diagnostic/verify.py:100 | a text without the separator splits into itself alone |
| Text.SplitWhitespace | diagnostic/verify.py:100 | str.split() gives only non-empty words without whitespace, and no word at all exactly when the text is all whitespace |
| Text.SplitWhitespaceSkipsSpace | diagnostic/verify.py:100 | whitespace before the first word is skipped; with SplitLeadingWord this fixes str.split() on every text |
| Text.WordsOfLine | diagnostic/verify.py:100 | a line of two words separated by a blank splits into those two words |
| Text.WordOfLine | scripts/installation/verify.py:100 | a line of one word splits into that word |
| Text.SplitLines | diagnostic/cameras/summary.py:78 | str.splitlines gives lines without '\n'; no line exactly for empty text; joined with '\n' they give the text back, plus a final '\n' exactly when the text ends in one |
| Text.SplitLastPiece | diagnostic/cameras/summary.py:78 | the last piece of a split is empty exactly when the text is empty or ends in the separator |
| Text.NatToString | src/mavlink/socket.py:126 | str(n) of a natural number is a non-empty digit string without a leading zero |
| Text.NatToStringIsDigitGroups | diagnostic/verify.py:100 | the digits of a number are accepted by int() and start with no sign |
| Text.IntToStringRoundTrip | diagnostic/verify.py:100 | int(str(n)) == n for every integer n |
| CameraSummary.ParseFieldValue | diagnostic/cameras/summary.py:80-83 | a line without ':' gives ""; every value is stripped: it neither starts nor ends with whitespace |
| CameraSummary.ParseFieldValueMeaning | diagnostic/cameras/summary.py:80-83 | for a line with ':', the value is the stripped text after the first ':', later colons kept |
| CameraSummary.LastIndex | scripts/cameras/summary.py:85-88 | the index of the last line mentioning a field, absent exactly when no line mentions it |
| CameraSummary.ScanLine | diagnostic/cameras/summary.py:86-88 | checking one line against a list of fields adds no key outside the fields already set and that list |
| CameraSummary.FieldsOf | diagnostic/cameras/summary.py:69-88 | the fields scanned from a report's lines are only ever fields of interest |
| CameraSummary.ScanLineMeaning | diagnostic/cameras/summary.py:85-88 | one line records exactly the fields of interest it mentions, with its parsed value, and keeps the others |
| CameraSummary.FieldsOfLastIndex | diagnostic/cameras/summary.py:69-88 | a field is recorded exactly when it is of interest and some line mentions it; its value is parsed from the last such line |
| CameraSummary.FieldsOfLastLineWins | diagnostic/uw_camera_pi/v4l2_summary.py:68-87 | stated without LastIndex: some line mentions the field, and no later line does |
| CameraSummary.ScanFields | diagnostic/uw_camera_pi/v4l2_summary.py:84-87 | the loop over the output lines builds exactly the field map of the specification |
| CameraSummary.RunLength | diagnostic/cameras/summary.py:101-115 | the length of the leading run of non-empty lines |
| CameraSummary.BlocksAreRuns | diagnostic/cameras/summary.py:101-115 | every camera block is a non-empty run of non-empty lines |
| CameraSummary.BlocksOfText | diagnostic/cameras/summary.py:114-115 | output whose last line is not empty yields at least one block (the open camera is kept) |
| CameraSummary.RunLengthIs | scripts/cameras/summary.py:101-115 | the run length is the one a run ending at an empty line or at the end describes |
| CameraSummary.BlocksOfRun | scripts/cameras/summary.py:101-115 | lines without a blank line form a single block |
| CameraSummary.BlocksOfRunThen | scripts/cameras/summary.py:101-115 | a leading run closed by an empty line is the first block, followed by the blocks of the rest |
| CameraSummary.AddLineCons | diagnostic/cameras/summary.py:104-113 | one more line only touches the last block |
| CameraSummary.BlocksOfRunBefore | scripts/cameras/summary.py:104-113 | a run of non-empty lines in front of an empty line is a block of its own |
| CameraSummary.BlocksSnocWholeRun | scripts/cameras/summary.py:104-113 | a line after a single run either ends it (empty line) or extends it |
| CameraSummary.BlocksSnocAfterRun | scripts/cameras/summary.py:104-113 | a line after several runs only affects the runs after the first |
| CameraSummary.BlocksSnoc | diagnostic/cameras/summary.py:104-113 | the line-by-line split of the source and the run-by-run definition agree after each line |
| CameraSummary.SplitCameras | diagnostic/uw_camera_pi/v4l2_summary.py:100-114 | the loop's blocks are the blocks of the output's lines |
| CameraSummary.NonEmptyLinesAppend | diagnostic/cameras/summary.py:104-113 | dropping empty lines distributes over concatenation |
| CameraSummary.NonEmptyLinesOfRun | diagnostic/cameras/summary.py:104-113 | a run of non-empty lines keeps every line |
| CameraSummary.BlocksKeepLines | diagnostic/cameras/summary.py:101-115 | the blocks, put back together, are exactly the non-empty lines in order: nothing lost, nothing reordered |
| CameraSummary.RunCountSkipsRun | scripts/cameras/summary.py:101-115 | counting runs from inside a run gives the count after that run |
| CameraSummary.BlocksCount | scripts/cameras/summary.py:101-115 | there is one block per maximal run of non-empty lines |
| CameraSummary.ParseCameraId | diagnostic/cameras/summary.py:117-120 | the header fails (Python's IndexError) exactly when it has no '(' |
| CameraSummary.ParseCameraIdMeaning | diagnostic/cameras/summary.py:119-120 | for a header with '(', the name is the stripped text before the first '(' and the platform the stripped text after it up to the next ')' or '(' |
| CameraSummary.PlatformPiece | diagnostic/cameras/summary.py:120 | the platform piece never contains ')' or '(' and stops at the first of them |
| CameraSummary.DeviceNames | diagnostic/cameras/summary.py:121 | the device names are the stripped device lines, none of them a /dev/media line |
| CameraSummary.DeviceNamesAppend | diagnostic/cameras/summary.py:121 | the device names of two line lists are the names of each, in order |
| CameraSummary.DeviceNamesOfLine | scripts/cameras/summary.py:121 | a /dev/media line gives no device; any other line gives its stripped text |
| CameraSummary.DevicesOf | diagnostic/cameras/summary.py:34 | one device per name, in order, each probed under its own name |
| CameraSummary.NewDevice | diagnostic/cameras/summary.py:51-55 | a device is its name and the fields parsed from its own probe output |
| CameraSummary.NewCamera | diagnostic/uw_camera_pi/v4l2_summary.py:30-33 | a camera holds its name, platform and one device per name, built in a loop |
| CameraSummary.ParseCamera | diagnostic/cameras/summary.py:117-122 | parsing a block gives the camera the specification describes, or the IndexError of a header without '(' |
| CameraSummary.CollectMeaning | diagnostic/cameras/summary.py:124-126 | the list comprehension succeeds exactly when every element does, and then holds their values in order |
| CameraSummary.CollectFirstFailure | diagnostic/cameras/summary.py:124-126 | the first failing element is the error raised |
| CameraSummary.CollectAll | scripts/cameras/summary.py:124-126 | when every element succeeds, the list is their values |
| CameraSummary.Parsed | scripts/cameras/summary.py:126 | one parse result per block |
| CameraSummary.ParsedAt | scripts/cameras/summary.py:126 | the k-th result is the parse of the k-th block |
| CameraSummary.ParseCameras | diagnostic/uw_camera_pi/v4l2_summary.py:123-125 | the loop parses the blocks in order and stops at the first failure, as the comprehension does |
| CameraSummary.ListCameras | diagnostic/cameras/summary.py:91-126 | a failing or raising v4l2-ctl gives an empty list; otherwise the cameras are those of the output's blocks |
| CameraSummary.CamerasOfMeaning | diagnostic/uw_camera_pi/v4l2_summary.py:90-125 | the listing succeeds exactly when every block has a '(' header, and then camera k is the parse of block k |
| CameraSummary.DeviceToJson | diagnostic/cameras/summary.py:57-61 | a device's JSON form keeps its name and every field with its value: it reads back to the device |
| CameraSummary.CameraToJson | diagnostic/cameras/summary.py:36-41 | a camera's JSON form keeps its name, its platform and its devices in order and number: it reads back to the camera |
| CameraSummary.DevicesToJson | diagnostic/cameras/summary.py:40 | one JSON object per device, in order |
| CameraSummary.DevicesFromJsonOfItems | diagnostic/cameras/summary.py:40 | an array whose every item reads back as a device reads back as those devices, in order |
| CameraSummary.DevicesJsonRoundTrip | scripts/cameras/summary.py:40 | a device list's JSON form reads back to the list |
| Verify.Settle | diagnostic/verify.py:10-13 | after a check the status is decided; a decided status never changes; from NotChecked it is Verified exactly when the probe passed |
| Verify.ProbeRun | diagnostic/verify.py:57-64 | the probe runs at most once, exactly while nothing is cached |
| Verify.Answers | scripts/installation/verify.py:27-42 | one answer per call |
| Verify.AnswersOfSettled | diagnostic/verify.py:27-42 | a cached status answers every later call the same way, whatever the probe would now say |
| Verify.FirstProbeDecides | scripts/installation/verify.py:134-149 | from NotChecked, the first probe decides every answer |
| Verify.InternetAnswers | diagnostic/verify.py:52-72 | one answer per internet check |
| Verify.InternetAnswersOfSettled | diagnostic/verify.py:57-60 | once decided, the internet check answers from its cache like the other checks |
| Verify.InternetQuirk | diagnostic/verify.py:69-72 | when the first ping fails, the first call still answers True and every later call answers False |
| Verify.IsUsingLinux | diagnostic/verify.py:23-24 | the platform counts as Linux exactly when "linux" is a substring of it (its partner is LinuxPlatform) |
| Verify.LinuxPlatform | diagnostic/verify.py:23-24 | any platform string containing "linux" counts as Linux; one without an 'l' ("darwin", "win32") does not |
| Verify.ParseMinorVersion | diagnostic/verify.py:100-104 | output that is empty or all whitespace gives no version, where Python's `split()[-1]` raises IndexError |
| Verify.ParseMinorVersionMeaning | diagnostic/verify.py:100 | for any output with a word, the version is int() of the text between the last word's first '.' and the next '.' or the word's end; a last word without '.' gives none |
| Verify.ParseMinorVersionOfBanner | diagnostic/verify.py:99-104 | the minor version read from a "Python 3.m.p" banner is m |
| Verify.ParseMinorVersionFails | scripts/installation/verify.py:99-104 | output whose only word has no '.' gives no version (Python raises there) |
| Verify.PythonBannerAcceptable | diagnostic/verify.py:107-116 | a Python 3.m banner passes exactly when m reaches the minimum |
| Verify.Verification.constructor | diagnostic/verify.py:20 | every check starts NotChecked |
| Verify.Verification.VerifyUsingLinux | diagnostic/verify.py:27-42 | the status settles on whether the platform mentions linux, and the answer is whether it is Verified |
| Verify.Verification.VerifyInternetConnection | diagnostic/verify.py:52-72 | the status settles on whether ping exits 0; the answer is True on the first call and the cached verdict afterwards; the ping line runs only on the first call |
| Verify.Verification.VerifyPythonInstalled | diagnostic/verify.py:82-116 | the status settles on whether python3 runs and its minor version reaches the minimum; the version command runs only while unchecked |
| Verify.Verification.IsFfmpegInstalled | diagnostic/verify.py:126-131 | ffmpeg counts as installed exactly when `ffmpeg --version` runs without raising, whatever its exit code |
| Verify.Verification.VerifyFfmpegInstalled | diagnostic/verify.py:134-149 | the status settles on whether ffmpeg runs; the probe runs only while unchecked |
| Setup.TarFilename | diagnostic/uw_camera_pi/setup.py:132-133 | the archive name is "mediamtx_v", the version, then "_linux_amd64.tar.gz" |
| Setup.ReleaseLink | diagnostic/uw_camera_pi/setup.py:135-137 | the link is the releases URL, "v", the version, "/" and the archive name |
| Setup.TarFilenameInjective | diagnostic/uw_camera_pi/setup.py:132-133 | different versions give different archive names |
| Setup.ReleaseLinkNamesTarball | diagnostic/uw_camera_pi/setup.py:135-146 | different versions give different links, and the link ends in the archive that is then extracted and removed |
| Setup.IsMediamtxInstalled | diagnostic/uw_camera_pi/setup.py:93-100 | installed exactly when LICENSE, mediamtx and mediamtx.yml are all files of the directory |
| Setup.MediamtxPresentKept | diagnostic/uw_camera_pi/setup.py:93-100 | extra directory entries never hide an installation, and entry order does not matter |
| Setup.MediamtxNeedsFiles | diagnostic/uw_camera_pi/setup.py:93-100 | for any listing: installed exactly when LICENSE, mediamtx and mediamtx.yml each appear as a regular file, so a missing or non-file mediamtx.yml means not installed |
| Setup.CameraSetup.constructor | diagnostic/uw_camera_pi/setup.py:22 | the apt and mediamtx checks start NotChecked |
| Setup.CameraSetup.VerifyAptgetUpdated | diagnostic/uw_camera_pi/setup.py:25-42 | the status settles on whether `apt-get update` exits 0; it runs only while unchecked |
| Setup.CameraSetup.VerifyMediamtxInstalled | diagnostic/uw_camera_pi/setup.py:103-118 | the status settles on whether the three mediamtx files are present |
| Setup.CameraSetup.InstallFfmpeg | diagnostic/uw_camera_pi/setup.py:50-83 | an ffmpeg found at the start only primes the ffmpeg check; then no Linux, no internet, a failed apt update or a failed `apt-get install` returns False and runs nothing later; otherwise the answer is the (cached) ffmpeg check; the exact commands run and every status left are given |
| Setup.InstallSteps | diagnostic/uw_camera_pi/setup.py:55-80 | `sudo apt-get install ffmpeg -y` runs exactly when Linux, internet and the apt update all passed; at most four commands follow the linux check |
| Setup.CameraSetup.InstallFfmpegAfterProbe | diagnostic/uw_camera_pi/setup.py:54-83 | from the linux check on: each step's status settles in turn, the first failing step ends the call with False, and the commands run are exactly the steps reached |
| Setup.CameraSetup.InstallMediamtx | diagnostic/uw_camera_pi/setup.py:121-173 | a mediamtx found at the start only primes the check; it creates the path if missing; a path that is not a directory returns False; then it downloads the release, extracts it into the path, removes the archive and writes the config, stopping with False at the first failure; the answer is the (cached) final check; the exact commands run are given |

## Left out

- MAVLink framing, checksums, the UDP transport and `pymavlink` are not modelled: a sent message is a `Mavlink.Msg` value appended to the master's log.
- Floating-point parameters are `real`; rounding is not modelled.
- The wall clock is the integer parameter `now` in milliseconds. `time_boot_ms` is `now` minus the connection's start time.
- `motors_armed_wait` and `motors_disarmed_wait` block until the vehicle reports; the model only logs that the wait was requested.
- Controller.MavlinkController.SetPositionTargetLocalNed: requires a three-element vector and an order in 0..2. Orders 3 and above, where `[3576, 3527, 3135][order]` raises IndexError, and vectors of other lengths, where the indexing or pymavlink fails, are not modelled. Negative orders are excluded by the `nat` type: Python picks mask 3135, 3527 or 3576 for orders -1, -2 and -3, matches none of the three branches, and sends a setpoint of nine zeros; the model does not capture that.
- Controller.MavlinkController.SetMode: the mode mapping is a parameter. Fetching it from pymavlink, and a missing mapping, are not modelled.
- Socket.MavlinkSocket.Listen: the outcome of opening the connection (opened, unresolvable host, port out of range) is an input rather than derived from the hostname and port.
- The device probe (`v4l2-ctl --device=<name> --all`) is a function from device name to stdout. A probe that exits non-zero is covered: the error is logged and its stdout is still scanned. A `subprocess.run` that itself raises (v4l2-ctl missing, say) leaves `result` unbound, and the next line raises UnboundLocalError; that case is not modelled.
- `str.splitlines` splits only at '\n'. Whitespace means the ten ASCII characters `str.isspace()` accepts (space, '\t', '\n', '\r', '\x0b', '\x0c' and '\x1c' to '\x1f'); non-ASCII whitespace is not modelled. `int()` accepts an optional sign and decimal digits with single underscores, and no other bases.
- JSON key order and `json.dump` formatting are not modelled. The JSON value is a tree of objects, arrays and strings.
- `__str__` and `__repr__` of Camera and Device, the command-line `__main__` blocks, logging and console output are not modelled.
- Setup.CameraSetup.InstallFfmpeg: the two `is_ffmpeg_installed` calls before installing are assumed to see the same outcome.
- Setup.CameraSetup.InstallMediamtx: `mkdir(exist_ok=True, parents=True)` is assumed not to raise. It is outside any try, so in the source an OSError from it (a PermissionError, say) escapes install_mediamtx; the model always completes it, and a path that is still not a directory returns False. The `rm` of the archive is assumed not to raise either; it sits inside the extraction's try, where a raise would return False, and its exit code is not checked. The path is a string assumed already normalised (no trailing '/', no '//' or '.' parts): the source builds the config path with pathlib (`mediamtx_path / 'mediamtx.yml'`) and hands `str(mediamtx_path)` to tar, both of which normalise it, while the model uses `path` as given for tar's `-C` and `path + "/mediamtx.yml"` for the config. The source lists the directory twice before installing, once in `is_mediamtx_installed` and again inside `verify_mediamtx_installed`; the model assumes both listings are the same and feeds `listingBefore` to both.
- The streaming, installation and repository-copy scripts (`stream.py`, `install.py`, `scp_repo.py`) are not part of this model.
- A header line's platform is the text after the first '(' up to the next ')' or '(', as the code splits it. This is narrower than a description of it as "the text in parentheses".
