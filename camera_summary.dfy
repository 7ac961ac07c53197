/**
 * The camera summary built from `v4l2-ctl` output: the device listing is cut into
 * blank-line-separated blocks, one per camera; each block's first line names the camera and
 * its platform, the remaining lines are its devices; each device's `--all` report is scanned
 * for four fields of interest. The outputs of the two `v4l2-ctl` commands are inputs.
 */
module CameraSummary {
  import opened Wrappers
  import opened Text
  import opened Shell

  const FIELDS_OF_INTEREST: seq<string> :=
    ["Width/Height", "Pixel Format", "Colorspace", "Frames per second"]

  /** Device lines holding this text are media controllers, not video devices. */
  const MEDIA_DEVICE: string := "/dev/media"

  datatype Device = Device(name: string, fields: map<string, string>)

  datatype Camera = Camera(name: string, platform: string, devices: seq<Device>)

  /** The IndexError Python raises for a camera block whose first line has no '('. */
  datatype CameraError = IndexError

  // ---------------------------------------------------------------------------------------
  // Fields of a device report

  /**
   * parse_field_value: the stripped text after the first ':' of the line (later colons kept),
   * or "" when the line has none.
   */
  function ParseFieldValue(line: string): (value: string)
    ensures ':' !in line ==> value == ""
    ensures value == [] || (!IsSpace(value[0]) && !IsSpace(value[|value| - 1]))
  {
    var rest := Join(Split(line, ':')[1..], ':');
    SplitHasTwoPieces(line, ':');
    StripIsSlice(rest);
    Strip(rest)
  }

  /** With a ':', the value is the stripped rest of the line after the first ':'. */
  lemma ParseFieldValueMeaning(line: string)
    requires ':' in line
    ensures ParseFieldValue(line) == Strip(line[IndexOf(line, ':') + 1..])
  {
    JoinSplitTail(line, ':');
  }

  /** The index of the last line containing field, if any. */
  function LastIndex(lines: seq<string>, field: string): (r: Option<nat>)
    ensures r.None? <==> forall i :: 0 <= i < |lines| ==> !Contains(lines[i], field)
    ensures r.Some? ==>
      && r.value < |lines| && Contains(lines[r.value], field)
      && forall j :: r.value < j < |lines| ==> !Contains(lines[j], field)
  {
    if lines == [] then None
    else if Contains(lines[|lines| - 1], field) then Some(|lines| - 1)
    else LastIndex(lines[..|lines| - 1], field)
  }

  /**
   * The fields after one line has been checked for each field of todo in turn: a field the
   * line contains gets the value parsed from that line.
   */
  function ScanLine(fields: map<string, string>, line: string, todo: seq<string>): (r: map<string, string>)
    ensures forall f :: f in r ==> f in fields || f in todo
  {
    if todo == [] then fields
    else
      var before := ScanLine(fields, line, todo[..|todo| - 1]);
      var f := todo[|todo| - 1];
      if Contains(line, f) then before[f := ParseFieldValue(line)] else before
  }

  /** The fields of interest a report's lines give, scanning the lines in order; no other field is set. */
  function FieldsOf(lines: seq<string>): (fields: map<string, string>)
    ensures forall f :: f in fields ==> f in FIELDS_OF_INTEREST
  {
    if lines == [] then map[]
    else ScanLine(FieldsOf(lines[..|lines| - 1]), lines[|lines| - 1], FIELDS_OF_INTEREST)
  }

  /** A line's scan sets exactly the fields of todo the line contains, to the line's value. */
  lemma {:induction false} ScanLineMeaning(fields: map<string, string>, line: string, todo: seq<string>, f: string)
    ensures f in ScanLine(fields, line, todo) <==> f in fields || (f in todo && Contains(line, f))
    ensures f in ScanLine(fields, line, todo) ==>
      ScanLine(fields, line, todo)[f]
      == if f in todo && Contains(line, f) then ParseFieldValue(line) else fields[f]
  {
    if todo != [] {
      var init := todo[..|todo| - 1];
      ScanLineMeaning(fields, line, init, f);
      assert todo == init + [todo[|todo| - 1]];
      assert f in todo <==> f in init || f == todo[|todo| - 1];
    }
  }

  /**
   * The scanned fields are exactly the fields of interest some line contains, and each one's
   * value is parsed from the last line containing it.
   */
  lemma {:induction false} FieldsOfLastIndex(lines: seq<string>, f: string)
    ensures f in FieldsOf(lines) <==> f in FIELDS_OF_INTEREST && LastIndex(lines, f).Some?
    ensures f in FieldsOf(lines) ==> FieldsOf(lines)[f] == ParseFieldValue(lines[LastIndex(lines, f).value])
  {
    if lines != [] {
      var init := lines[..|lines| - 1];
      FieldsOfLastIndex(init, f);
      ScanLineMeaning(FieldsOf(init), lines[|lines| - 1], FIELDS_OF_INTEREST, f);
      if !Contains(lines[|lines| - 1], f) && LastIndex(init, f).Some? {
        assert lines[LastIndex(init, f).value] == init[LastIndex(init, f).value];
      }
    }
  }

  /**
   * The same, with the last matching line named: a field is scanned iff it is of interest and
   * some line contains it, and its value comes from a line containing it after which no line does.
   */
  lemma FieldsOfLastLineWins(lines: seq<string>, f: string)
    ensures f in FieldsOf(lines) <==>
      f in FIELDS_OF_INTEREST && exists i :: 0 <= i < |lines| && Contains(lines[i], f)
    ensures f in FieldsOf(lines) ==>
      exists i :: && 0 <= i < |lines| && Contains(lines[i], f)
                  && FieldsOf(lines)[f] == ParseFieldValue(lines[i])
                  && forall j :: i < j < |lines| ==> !Contains(lines[j], f)
  {
    FieldsOfLastIndex(lines, f);
    if f in FieldsOf(lines) {
      var i := LastIndex(lines, f).value;
      assert Contains(lines[i], f);
    }
  }

  /**
   * Device._parse_fields_of_interest over the report text: for every line, in order, and
   * every field of interest it contains, record the field's value from that line.
   */
  method ScanFields(output: string) returns (fields: map<string, string>)
    ensures fields == FieldsOf(SplitLines(output))
  {
    var lines := SplitLines(output);
    fields := map[];
    for i := 0 to |lines|
      invariant fields == FieldsOf(lines[..i])
    {
      var line := lines[i];
      assert lines[..i + 1][..i] == lines[..i];
      for j := 0 to |FIELDS_OF_INTEREST|
        invariant fields == ScanLine(FieldsOf(lines[..i]), line, FIELDS_OF_INTEREST[..j])
      {
        var field := FIELDS_OF_INTEREST[j];
        assert FIELDS_OF_INTEREST[..j + 1][..j] == FIELDS_OF_INTEREST[..j];
        if Contains(line, field) {
          fields := fields[field := ParseFieldValue(line)];
        }
      }
      assert FIELDS_OF_INTEREST[..|FIELDS_OF_INTEREST|] == FIELDS_OF_INTEREST;
    }
    assert lines[..|lines|] == lines;
  }

  // ---------------------------------------------------------------------------------------
  // Cutting the device listing into camera blocks

  /** The number of leading non-empty lines. */
  function RunLength(lines: seq<string>): (n: nat)
    ensures n <= |lines|
    ensures forall i :: 0 <= i < n ==> lines[i] != ""
    ensures n < |lines| ==> lines[n] == ""
  {
    if lines == [] || lines[0] == "" then 0 else 1 + RunLength(lines[1..])
  }

  /** The maximal runs of consecutive non-empty lines, in order. */
  function Blocks(lines: seq<string>): seq<seq<string>>
    decreases |lines|
  {
    if lines == [] then []
    else if lines[0] == "" then Blocks(lines[1..])
    else
      var n := RunLength(lines);
      [lines[..n]] + Blocks(lines[n..])
  }

  /** Every block is a non-empty run of non-empty lines. */
  lemma {:induction false} BlocksAreRuns(lines: seq<string>)
    ensures forall k :: 0 <= k < |Blocks(lines)| ==>
      Blocks(lines)[k] != [] && forall i :: 0 <= i < |Blocks(lines)[k]| ==> Blocks(lines)[k][i] != ""
    decreases |lines|
  {
    if lines == [] {
    } else if lines[0] == "" {
      BlocksAreRuns(lines[1..]);
    } else {
      BlocksAreRuns(lines[RunLength(lines)..]);
    }
  }

  /** A listing whose last line is not empty has at least one block. */
  lemma {:induction false} BlocksOfText(lines: seq<string>)
    requires EndsInText(lines)
    ensures Blocks(lines) != []
    decreases |lines|
  {
    if lines[0] == "" {
      BlocksOfText(lines[1..]);
    }
  }

  /** The blocks after one more line: it is dropped if empty, else extends or starts a block. */
  function AddLine(blocks: seq<seq<string>>, afterText: bool, line: string): seq<seq<string>> {
    if line == "" then blocks
    else if afterText && blocks != [] then
      blocks[..|blocks| - 1] + [blocks[|blocks| - 1] + [line]]
    else blocks + [[line]]
  }

  /** Whether the last of lines is non-empty (so a next non-empty line continues its block). */
  predicate EndsInText(lines: seq<string>) {
    lines != [] && lines[|lines| - 1] != ""
  }

  lemma RunLengthIs(lines: seq<string>, n: nat)
    requires n <= |lines|
    requires forall i :: 0 <= i < n ==> lines[i] != ""
    requires n < |lines| ==> lines[n] == ""
    ensures RunLength(lines) == n
  {
  }

  /** A run of non-empty lines is one block. */
  lemma BlocksOfRun(lines: seq<string>)
    requires lines != [] && forall i :: 0 <= i < |lines| ==> lines[i] != ""
    ensures Blocks(lines) == [lines]
  {
    RunLengthIs(lines, |lines|);
    assert lines[..|lines|] == lines && lines[|lines|..] == [];
  }

  /** A run of non-empty lines followed by an empty line and more. */
  lemma BlocksOfRunThen(lines: seq<string>, n: nat)
    requires 0 < n < |lines| && lines[n] == ""
    requires forall i :: 0 <= i < n ==> lines[i] != ""
    ensures Blocks(lines) == [lines[..n]] + Blocks(lines[n..])
  {
    RunLengthIs(lines, n);
  }

  /** Adding a line after a block in front is adding it to the blocks behind it. */
  lemma AddLineCons(x: seq<string>, blocks: seq<seq<string>>, afterText: bool, line: string)
    requires afterText && line != "" ==> blocks != []
    ensures AddLine([x] + blocks, afterText, line) == [x] + AddLine(blocks, afterText, line)
  {
    if afterText && line != "" {
      var all := [x] + blocks;
      assert all[..|all| - 1] == [x] + blocks[..|blocks| - 1];
      assert all[|all| - 1] == blocks[|blocks| - 1];
    }
  }

  /** A line after a listing that is one run of non-empty lines. */
  lemma BlocksSnocWholeRun(lines: seq<string>, line: string)
    requires lines != [] && RunLength(lines) == |lines|
    ensures Blocks(lines + [line]) == AddLine(Blocks(lines), EndsInText(lines), line)
  {
    var s := lines + [line];
    var n := |lines|;
    BlocksOfRun(lines);
    if line == "" {
      BlocksOfRunThen(s, n);
      assert s[..n] == lines && s[n..] == [""];
      assert Blocks([""]) == Blocks([""][1..]);
    } else {
      BlocksOfRun(s);
    }
  }

  /** A run of non-empty lines in front of a listing that starts with an empty line. */
  lemma BlocksOfRunBefore(first: seq<string>, rest: seq<string>)
    requires first != [] && forall i :: 0 <= i < |first| ==> first[i] != ""
    requires rest != [] && rest[0] == ""
    ensures Blocks(first + rest) == [first] + Blocks(rest)
  {
    var lines := first + rest;
    assert lines[|first|] == rest[0];
    BlocksOfRunThen(lines, |first|);
    assert lines[..|first|] == first && lines[|first|..] == rest;
  }

  /** A line after a listing whose first run ends before its last line. */
  lemma BlocksSnocAfterRun(first: seq<string>, rest: seq<string>, line: string)
    requires first != [] && forall i :: 0 <= i < |first| ==> first[i] != ""
    requires rest != [] && rest[0] == ""
    requires Blocks(rest + [line]) == AddLine(Blocks(rest), EndsInText(rest), line)
    ensures Blocks(first + rest + [line])
            == AddLine(Blocks(first + rest), EndsInText(first + rest), line)
  {
    var afterText := EndsInText(rest);
    assert EndsInText(first + rest) == afterText by {
      assert (first + rest)[|first + rest| - 1] == rest[|rest| - 1];
    }
    if afterText {
      BlocksOfText(rest);
    }
    calc {
      Blocks(first + rest + [line]);
    == { assert first + rest + [line] == first + (rest + [line]);
         BlocksOfRunBefore(first, rest + [line]); }
      [first] + Blocks(rest + [line]);
    ==
      [first] + AddLine(Blocks(rest), afterText, line);
    == { AddLineCons(first, Blocks(rest), afterText, line); }
      AddLine([first] + Blocks(rest), afterText, line);
    == { BlocksOfRunBefore(first, rest); }
      AddLine(Blocks(first + rest), afterText, line);
    }
  }

  /** Blocks of lines with one more line appended. */
  lemma {:induction false} BlocksSnoc(lines: seq<string>, line: string)
    ensures Blocks(lines + [line]) == AddLine(Blocks(lines), EndsInText(lines), line)
    decreases |lines|
  {
    if lines == [] {
      assert lines + [line] == [line];
      if line != "" {
        BlocksOfRun([line]);
      }
    } else if lines[0] == "" {
      var s := lines + [line];
      assert s[0] == "" && s[1..] == lines[1..] + [line];
      BlocksSnoc(lines[1..], line);
      assert EndsInText(lines[1..]) == EndsInText(lines);
    } else {
      var n := RunLength(lines);
      if n == |lines| {
        BlocksSnocWholeRun(lines, line);
      } else {
        BlocksSnoc(lines[n..], line);
        BlocksSnocAfterRun(lines[..n], lines[n..], line);
        assert lines[..n] + lines[n..] == lines;
      }
    }
  }

  /**
   * split_cameras: walk the lines of the listing, collecting non-empty lines into the current
   * camera and closing it at an empty line; a camera still open at the end is kept.
   */
  method SplitCameras(output: string) returns (cameras: seq<seq<string>>)
    ensures cameras == Blocks(SplitLines(output))
  {
    var lines := SplitLines(output);
    cameras := [];
    var camera: seq<string> := [];
    for i := 0 to |lines|
      invariant cameras + (if camera == [] then [] else [camera]) == Blocks(lines[..i])
      invariant camera != [] <==> EndsInText(lines[..i])
    {
      var line := lines[i];
      assert lines[..i + 1] == lines[..i] + [line];
      BlocksSnoc(lines[..i], line);
      if |line| > 0 {
        if camera != [] {
          assert (cameras + [camera])[..|cameras|] == cameras;
          assert AddLine(cameras + [camera], true, line) == cameras + [camera + [line]];
        } else {
          assert AddLine(cameras, false, line) == cameras + [[line]];
          assert camera + [line] == [line];
        }
        camera := camera + [line];
      } else if |camera| > 0 {
        cameras := cameras + [camera];
        camera := [];
      }
    }
    if |camera| > 0 {
      cameras := cameras + [camera];
    }
    assert lines[..|lines|] == lines;
  }

  function Flatten(blocks: seq<seq<string>>): seq<string> {
    if blocks == [] then [] else blocks[0] + Flatten(blocks[1..])
  }

  /** The non-empty lines, in order. */
  function NonEmptyLines(lines: seq<string>): seq<string> {
    if lines == [] then []
    else (if lines[0] == "" then [] else [lines[0]]) + NonEmptyLines(lines[1..])
  }

  lemma {:induction false} NonEmptyLinesAppend(a: seq<string>, b: seq<string>)
    ensures NonEmptyLines(a + b) == NonEmptyLines(a) + NonEmptyLines(b)
  {
    assert a == [] ==> a + b == b;
    if a != [] {
      assert (a + b)[0] == a[0] && (a + b)[1..] == a[1..] + b;
      NonEmptyLinesAppend(a[1..], b);
    }
  }

  lemma {:induction false} NonEmptyLinesOfRun(lines: seq<string>)
    requires forall i :: 0 <= i < |lines| ==> lines[i] != ""
    ensures NonEmptyLines(lines) == lines
  {
    if lines != [] {
      NonEmptyLinesOfRun(lines[1..]);
    }
  }

  /** Concatenating the blocks gives back exactly the non-empty lines, in order. */
  lemma {:induction false} BlocksKeepLines(lines: seq<string>)
    ensures Flatten(Blocks(lines)) == NonEmptyLines(lines)
    decreases |lines|
  {
    if lines != [] {
      if lines[0] == "" {
        BlocksKeepLines(lines[1..]);
      } else {
        var n := RunLength(lines);
        var b := [lines[..n]] + Blocks(lines[n..]);
        assert b[1..] == Blocks(lines[n..]);
        BlocksKeepLines(lines[n..]);
        assert lines == lines[..n] + lines[n..];
        NonEmptyLinesAppend(lines[..n], lines[n..]);
        NonEmptyLinesOfRun(lines[..n]);
      }
    }
  }

  /**
   * The number of runs of non-empty lines that start in lines; afterText says whether the
   * line just before them was non-empty (so a run at the front continues, not starts).
   */
  function RunCount(lines: seq<string>, afterText: bool): nat {
    if lines == [] then 0
    else (if lines[0] != "" && !afterText then 1 else 0) + RunCount(lines[1..], lines[0] != "")
  }

  lemma {:induction false} RunCountSkipsRun(lines: seq<string>, k: nat)
    requires 1 <= k <= RunLength(lines)
    ensures RunCount(lines[k..], true) == RunCount(lines[RunLength(lines)..], false)
    decreases RunLength(lines) - k
  {
    var n := RunLength(lines);
    if k < n {
      assert lines[k..][1..] == lines[k + 1..];
      RunCountSkipsRun(lines, k + 1);
    } else if lines[k..] != [] {
      assert lines[k..][1..] == lines[k + 1..];
    }
  }

  /** There is one block per run of consecutive non-empty lines. */
  lemma {:induction false} BlocksCount(lines: seq<string>)
    ensures |Blocks(lines)| == RunCount(lines, false)
    decreases |lines|
  {
    if lines != [] {
      if lines[0] == "" {
        BlocksCount(lines[1..]);
      } else {
        var n := RunLength(lines);
        BlocksCount(lines[n..]);
        RunCountSkipsRun(lines, 1);
      }
    }
  }

  // ---------------------------------------------------------------------------------------
  // One camera block

  /**
   * The name and platform on a camera's first line, split at '(' and ')' as parse_camera does;
   * None where Python raises IndexError.
   */
  function ParseCameraId(line: string): (r: Option<(string, string)>)
    ensures r.None? <==> '(' !in line
  {
    var parts := Split(line, '(');
    SplitHasTwoPieces(line, '(');
    if |parts| < 2 then None
    else Some((Strip(parts[0]), Strip(Split(parts[1], ')')[0])))
  }

  /**
   * The name is the stripped text before the first '('; the platform is the stripped text
   * after it up to the next ')' or '(', whichever comes first. A line without '(' fails.
   */
  lemma ParseCameraIdMeaning(line: string)
    ensures ParseCameraId(line).Some? ==>
      var p := IndexOf(line, '(');
      var u := line[p + 1..];
      var close := IndexOf(u, ')');
      var open := IndexOf(u, '(');
      && ParseCameraId(line).value.0 == Strip(line[..p])
      && ParseCameraId(line).value.1 == Strip(u[..if close < open then close else open])
  {
    if '(' in line {
      var p := IndexOf(line, '(');
      assert line[..|line|] == line;
      assert p < |line|;
      SplitFirstPiece(line, '(');
      var u := line[p + 1..];
      var parts := Split(line, '(');
      assert parts[1..] == Split(u, '(');
      PlatformPiece(u);
    }
  }

  /** After the '(', the platform piece runs to the next ')' or '(', whichever comes first. */
  lemma PlatformPiece(u: string)
    ensures var close := IndexOf(u, ')');
      var open := IndexOf(u, '(');
      Split(Split(u, '(')[0], ')')[0] == u[..if close < open then close else open]
  {
    var open := IndexOf(u, '(');
    SplitFirstPiece(u, '(');
    var w := u[..open];
    SplitFirstPiece(w, ')');
    IndexOfPrefix(u, open, ')');
  }

  /**
   * The device names of a camera: its later lines, stripped, in order, except those naming a
   * media controller.
   */
  function DeviceNames(lines: seq<string>): (names: seq<string>)
    ensures |names| <= |lines|
    ensures forall i :: 0 <= i < |names| ==> !Contains(names[i], MEDIA_DEVICE)
  {
    if lines == [] then []
    else
      var rest := DeviceNames(lines[1..]);
      if Contains(lines[0], MEDIA_DEVICE) then rest
      else
        assert !Contains(Strip(lines[0]), MEDIA_DEVICE) by {
          if Contains(Strip(lines[0]), MEDIA_DEVICE) {
            ContainsOfStrip(lines[0], MEDIA_DEVICE);
          }
        }
        [Strip(lines[0])] + rest
  }

  /** Device names distribute over consecutive stretches of lines: order is kept. */
  lemma {:induction false} DeviceNamesAppend(a: seq<string>, b: seq<string>)
    ensures DeviceNames(a + b) == DeviceNames(a) + DeviceNames(b)
  {
    assert a == [] ==> a + b == b;
    if a != [] {
      assert (a + b)[0] == a[0] && (a + b)[1..] == a[1..] + b;
      DeviceNamesAppend(a[1..], b);
    }
  }

  /** One line contributes its stripped text, unless it names a media controller. */
  lemma DeviceNamesOfLine(line: string)
    ensures DeviceNames([line]) == if Contains(line, MEDIA_DEVICE) then [] else [Strip(line)]
  {
    assert [line][1..] == [];
  }

  /** Device(name): the device with the fields of interest of its `--all` report. */
  function DeviceOf(name: string, probe: string -> string): Device {
    Device(name, FieldsOf(SplitLines(probe(name))))
  }

  /** The device of each name, in order. */
  function DevicesOf(names: seq<string>, probe: string -> string): (ds: seq<Device>)
    ensures |ds| == |names| && forall i :: 0 <= i < |names| ==> ds[i] == DeviceOf(names[i], probe)
  {
    if names == [] then [] else [DeviceOf(names[0], probe)] + DevicesOf(names[1..], probe)
  }

  /** The camera a block describes, or the IndexError its first line raises. */
  function CameraOf(block: seq<string>, probe: string -> string): Result<Camera, CameraError> {
    if block == [] then Failure(IndexError)
    else
      match ParseCameraId(block[0])
      case None => Failure(IndexError)
      case Some(id) =>
        var names := DeviceNames(block[1..]);
        Success(Camera(id.0, id.1, DevicesOf(names, probe)))
  }

  /**
   * Device.__init__: record the name and scan the device's `--all` report, which probe gives
   * for each device name.
   */
  method NewDevice(name: string, probe: string -> string) returns (d: Device)
    ensures d == DeviceOf(name, probe)
  {
    var fields := ScanFields(probe(name));
    d := Device(name, fields);
  }

  /** Camera.__init__: build one device per name, in order. */
  method NewCamera(name: string, platform: string, deviceNames: seq<string>, probe: string -> string)
    returns (c: Camera)
    ensures c == Camera(name, platform, DevicesOf(deviceNames, probe))
  {
    var devices: seq<Device> := [];
    for i := 0 to |deviceNames|
      invariant |devices| == i
      invariant forall k :: 0 <= k < i ==> devices[k] == DeviceOf(deviceNames[k], probe)
    {
      var d := NewDevice(deviceNames[i], probe);
      devices := devices + [d];
    }
    c := Camera(name, platform, devices);
    assert devices == DevicesOf(deviceNames, probe);
  }

  /** parse_camera: the camera a block describes, or IndexError. */
  method ParseCamera(block: seq<string>, probe: string -> string) returns (r: Result<Camera, CameraError>)
    ensures r == CameraOf(block, probe)
  {
    if |block| == 0 {
      return Failure(IndexError);
    }
    var id := ParseCameraId(block[0]);
    if id.None? {
      return Failure(IndexError);
    }
    var names := DeviceNames(block[1..]);
    var c := NewCamera(id.value.0, id.value.1, names, probe);
    r := Success(c);
  }

  /**
   * A list comprehension over calls that may raise: the values in order, or the error of the
   * first call that raises.
   */
  function Collect<T, E>(rs: seq<Result<T, E>>): Result<seq<T>, E> {
    if rs == [] then Success([])
    else if rs[0].Failure? then Failure(rs[0].error)
    else
      match Collect(rs[1..])
      case Failure(e) => Failure(e)
      case Success(vs) => Success([rs[0].value] + vs)
  }

  /**
   * A comprehension succeeds exactly when every call succeeds, and then holds each call's value
   * at that call's position.
   */
  lemma {:induction false} CollectMeaning<T, E>(rs: seq<Result<T, E>>)
    ensures Collect(rs).Success? <==> forall k :: 0 <= k < |rs| ==> rs[k].Success?
    ensures Collect(rs).Success? ==>
      |Collect(rs).value| == |rs| && forall k :: 0 <= k < |rs| ==> Collect(rs).value[k] == rs[k].value
  {
    if rs != [] {
      CollectMeaning(rs[1..]);
      assert forall k :: 1 <= k < |rs| ==> rs[k] == rs[1..][k - 1];
    }
  }

  /** A comprehension whose first failing call is call k reports that call's error. */
  lemma {:induction false} CollectFirstFailure<T, E>(rs: seq<Result<T, E>>, k: nat)
    requires k < |rs| && rs[k].Failure?
    requires forall j :: 0 <= j < k ==> rs[j].Success?
    ensures Collect(rs) == Failure(rs[k].error)
  {
    if k > 0 {
      assert forall j :: 0 <= j < k - 1 ==> rs[1..][j] == rs[j + 1];
      CollectFirstFailure(rs[1..], k - 1);
    }
  }

  /** A comprehension whose every call succeeds gives the calls' values. */
  lemma {:induction false} CollectAll<T, E>(rs: seq<Result<T, E>>, vs: seq<T>)
    requires |vs| == |rs| && forall j :: 0 <= j < |rs| ==> rs[j] == Success(vs[j])
    ensures Collect(rs) == Success(vs)
  {
    if rs != [] {
      CollectAll(rs[1..], vs[1..]);
      assert vs == [vs[0]] + vs[1..];
    }
  }

  /** The camera, or the error, each block gives, in order. */
  function Parsed(blocks: seq<seq<string>>, probe: string -> string): (rs: seq<Result<Camera, CameraError>>)
    ensures |rs| == |blocks|
  {
    if blocks == [] then [] else [CameraOf(blocks[0], probe)] + Parsed(blocks[1..], probe)
  }

  /** Entry k of the parsed list is what block k gives. */
  lemma {:induction false} ParsedAt(blocks: seq<seq<string>>, probe: string -> string, k: nat)
    requires k < |blocks|
    ensures Parsed(blocks, probe)[k] == CameraOf(blocks[k], probe)
  {
    if k > 0 {
      ParsedAt(blocks[1..], probe, k - 1);
    }
  }

  /** The cameras of the blocks, in order, or the first IndexError. */
  function CamerasOf(blocks: seq<seq<string>>, probe: string -> string): Result<seq<Camera>, CameraError> {
    Collect(Parsed(blocks, probe))
  }

  /** The comprehension of list_cameras: parse every block in order, stopping at an IndexError. */
  method ParseCameras(blocks: seq<seq<string>>, probe: string -> string)
    returns (r: Result<seq<Camera>, CameraError>)
    ensures r == CamerasOf(blocks, probe)
  {
    ghost var rs := Parsed(blocks, probe);
    var cameras: seq<Camera> := [];
    for k := 0 to |blocks|
      invariant |cameras| == k
      invariant forall j :: 0 <= j < k ==> rs[j] == Success(cameras[j])
    {
      var c := ParseCamera(blocks[k], probe);
      ParsedAt(blocks, probe, k);
      if c.Failure? {
        CollectFirstFailure(rs, k);
        return Failure(c.error);
      }
      cameras := cameras + [c.value];
    }
    CollectAll(rs, cameras);
    r := Success(cameras);
  }

  /**
   * list_cameras: no cameras when the listing command fails; otherwise the camera of every
   * block of its output, in order (an IndexError from a block propagates).
   */
  method ListCameras(listing: Exit, probe: string -> string) returns (r: Result<seq<Camera>, CameraError>)
    ensures !listing.Succeeded() ==> r == Success([])
    ensures listing.Succeeded() ==> r == CamerasOf(Blocks(SplitLines(listing.stdout)), probe)
  {
    if !listing.Succeeded() {
      return Success([]);
    }
    var blocks := SplitCameras(listing.stdout);
    r := ParseCameras(blocks, probe);
  }

  /**
   * The list succeeds exactly when every block describes a camera, and then holds the camera of
   * each block at that block's position.
   */
  lemma CamerasOfMeaning(blocks: seq<seq<string>>, probe: string -> string)
    ensures CamerasOf(blocks, probe).Success? <==>
      forall k :: 0 <= k < |blocks| ==> CameraOf(blocks[k], probe).Success?
    ensures CamerasOf(blocks, probe).Success? ==>
      var cs := CamerasOf(blocks, probe).value;
      |cs| == |blocks| && forall k :: 0 <= k < |blocks| ==> cs[k] == CameraOf(blocks[k], probe).value
  {
    CollectMeaning(Parsed(blocks, probe));
    forall k | 0 <= k < |blocks|
      ensures Parsed(blocks, probe)[k] == CameraOf(blocks[k], probe)
    {
      ParsedAt(blocks, probe, k);
    }
  }

  // ---------------------------------------------------------------------------------------
  // JSON

  datatype Json = JString(str: string) | JArray(items: seq<Json>) | JObject(members: map<string, Json>)

  /**
   * Device.to_json: {"name": ..., "fields": {...}}. It keeps the name and every field with its
   * value: the device reads back from it.
   */
  function DeviceToJson(d: Device): (j: Json)
    ensures DeviceFromJson(j) == Some(d)
  {
    var fields := map k | k in d.fields :: JString(d.fields[k]);
    assert (map k | k in fields :: fields[k].str) == d.fields;
    JObject(map["name" := JString(d.name), "fields" := JObject(fields)])
  }

  /**
   * Camera.to_json: {"name": ..., "platform": ..., "devices": [...]}. It keeps the name, the
   * platform and the devices in order and number: the camera reads back from it.
   */
  function CameraToJson(c: Camera): (j: Json)
    ensures CameraFromJson(j) == Some(c)
  {
    DevicesJsonRoundTrip(c.devices);
    JObject(map["name" := JString(c.name),
                "platform" := JString(c.platform),
                "devices" := JArray(DevicesToJson(c.devices))])
  }

  /** The JSON form of each device, in order. */
  function DevicesToJson(devices: seq<Device>): (items: seq<Json>)
    ensures |items| == |devices| && forall i :: 0 <= i < |devices| ==> items[i] == DeviceToJson(devices[i])
  {
    if devices == [] then [] else [DeviceToJson(devices[0])] + DevicesToJson(devices[1..])
  }

  /** A device read back from its JSON form. */
  function DeviceFromJson(j: Json): Option<Device> {
    if j.JObject? && "name" in j.members && "fields" in j.members
       && j.members["name"].JString? && j.members["fields"].JObject?
       && forall k :: k in j.members["fields"].members ==> j.members["fields"].members[k].JString?
    then
      var fields := j.members["fields"].members;
      Some(Device(j.members["name"].str, map k | k in fields :: fields[k].str))
    else None
  }

  /** Devices read back from a JSON array, in order. */
  function DevicesFromJson(items: seq<Json>): Option<seq<Device>> {
    if items == [] then Some([])
    else
      match (DeviceFromJson(items[0]), DevicesFromJson(items[1..]))
      case (Some(d), Some(ds)) => Some([d] + ds)
      case _ => None
  }

  /** A camera read back from its JSON form. */
  function CameraFromJson(j: Json): Option<Camera> {
    if j.JObject? && "name" in j.members && "platform" in j.members && "devices" in j.members
       && j.members["name"].JString? && j.members["platform"].JString?
       && j.members["devices"].JArray?
    then
      match DevicesFromJson(j.members["devices"].items)
      case Some(devices) => Some(Camera(j.members["name"].str, j.members["platform"].str, devices))
      case None => None
    else None
  }

  /** An array whose every item reads back as a device reads back as those devices, in order. */
  lemma {:induction false} DevicesFromJsonOfItems(items: seq<Json>, devices: seq<Device>)
    requires |items| == |devices|
    requires forall i :: 0 <= i < |items| ==> DeviceFromJson(items[i]) == Some(devices[i])
    ensures DevicesFromJson(items) == Some(devices)
  {
    if items != [] {
      DevicesFromJsonOfItems(items[1..], devices[1..]);
      assert devices == [devices[0]] + devices[1..];
    }
  }

  /** A list of devices reads back from its JSON array, in order. */
  lemma DevicesJsonRoundTrip(devices: seq<Device>)
    ensures DevicesFromJson(DevicesToJson(devices)) == Some(devices)
  {
    var items := DevicesToJson(devices);
    DevicesFromJsonOfItems(items, devices);
  }
}
