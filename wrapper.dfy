/**
 * The Python wrapper `deface_wrapper.py`: it reads its positional arguments,
 * builds the argument vector of the `deface` tool by appending and extending
 * a list, runs the tool and passes its failure on as the exit status.
 *
 * The tool run is an input (`ToolResult`); what the script prints and how it
 * ends are results (`WrapperRun`).
 */
module DefaceWrapper {
  import opened Text

  // ---------------------------------------------------------------------
  // Argument parsing
  // ---------------------------------------------------------------------

  /** `int(s)` on base-10 text: an optional sign and at least one ASCII digit. */
  function ParseInt(s: string): (r: Option<int>)
    ensures r.Some? ==> s != [] && (r.value < 0 ==> s[0] == '-')
  {
    if s == [] then None
    else if s[0] == '-' || s[0] == '+' then
      var digits := s[1..];
      if digits != [] && AllDigits(digits) then
        Some(if s[0] == '-' then -(DigitsValue(digits) as int) else DigitsValue(digits))
      else None
    else if AllDigits(s) then Some(DigitsValue(s))
    else None
  }

  /** What Python's `str(n)` prints, `int` reads back. */
  lemma ParseIntOfIntToString(n: int)
    ensures ParseInt(IntToString(n)) == Some(n)
  {
    var m: nat := if n < 0 then -n else n;
    var digits := NatToString(m);
    DigitsValueOfNatToString(m);
    assert IsDigit(digits[0]);
    if n < 0 {
      var s := "-" + digits;
      assert s[1..] == digits;
      assert ParseInt(s) == Some(-(DigitsValue(digits) as int));
    } else {
      assert ParseInt(digits) == Some(DigitsValue(digits));
    }
  }

  /** Text with a character other than a sign or a digit is refused (`ValueError`). */
  lemma ParseIntRefusesNonNumeric(s: string, k: nat)
    requires k < |s| && !IsDigit(s[k]) && (k > 0 || (s[0] != '-' && s[0] != '+'))
    ensures ParseInt(s) == None
  {
    if s[0] == '-' || s[0] == '+' {
      assert s[1..][k - 1] == s[k];
    }
  }

  function LowerAsciiChar(c: char): (l: char)
    ensures 'A' <= c <= 'Z' ==> l as int == c as int + 32
    ensures !('A' <= c <= 'Z') ==> l == c
  {
    if 'A' <= c <= 'Z' then (c as int + 32) as char else c
  }

  /** `s.lower()` on the letters A to Z. */
  function LowerAscii(s: string): (l: string)
    ensures |l| == |s| && forall i :: 0 <= i < |s| ==> l[i] == LowerAsciiChar(s[i])
  {
    seq(|s|, i requires 0 <= i < |s| => LowerAsciiChar(s[i]))
  }

  /** `sys.argv[4].lower() == 'true'`. */
  predicate KeepAudioFlag(s: string) {
    LowerAscii(s) == "true"
  }

  /** The flag holds exactly for the four letters of "true" in any mix of cases. */
  lemma KeepAudioFlagCharacterized(s: string)
    ensures KeepAudioFlag(s) <==>
      |s| == 4 && s[0] in {'t', 'T'} && s[1] in {'r', 'R'} && s[2] in {'u', 'U'} && s[3] in {'e', 'E'}
  {
    if |s| == 4 && s[0] in {'t', 'T'} && s[1] in {'r', 'R'} && s[2] in {'u', 'U'} && s[3] in {'e', 'E'} {
      assert LowerAscii(s) == "true";
    }
    if KeepAudioFlag(s) {
      var l := LowerAscii(s);
      assert l[0] == 't' && l[1] == 'r' && l[2] == 'u' && l[3] == 'e';
    }
  }

  /** "1", "yes" and "on" do not keep the audio; "True" and "TRUE" do. */
  lemma KeepAudioFlagExamples()
    ensures KeepAudioFlag("True") && KeepAudioFlag("TRUE") && KeepAudioFlag("true")
    ensures !KeepAudioFlag("1") && !KeepAudioFlag("yes") && !KeepAudioFlag("on") && !KeepAudioFlag("false")
  {
    KeepAudioFlagCharacterized("True");
    KeepAudioFlagCharacterized("TRUE");
    KeepAudioFlagCharacterized("true");
    KeepAudioFlagCharacterized("1");
    KeepAudioFlagCharacterized("yes");
    KeepAudioFlagCharacterized("on");
    KeepAudioFlagCharacterized("false");
  }

  // ---------------------------------------------------------------------
  // The tool's argument vector
  // ---------------------------------------------------------------------

  /** `json.dumps({'fps': fps})`. */
  function FpsJson(fps: int): (j: string)
    ensures |j| > 0 && j[0] == '{'
  {
    "{\"fps\": " + IntToString(fps) + "}"
  }

  /** The argument vector the script hands to `subprocess.run`. */
  function DefaceArgv(input: string, output: string, maskType: string, keepAudio: bool, fps: int): (cmd: seq<string>)
    ensures |cmd| == if keepAudio then 11 else 10
    ensures cmd[..4] == ["deface", input, "-o", output]
    ensures (cmd[4] == "-k") == keepAudio
    ensures cmd[|cmd| - 6..] == ["--replacewith", maskType, "--mask-scale", "1.3", "--ffmpeg-config", FpsJson(fps)]
  {
    ["deface", input, "-o", output] + (if keepAudio then ["-k"] else []) +
    ["--replacewith", maskType, "--mask-scale", "1.3"] + ["--ffmpeg-config", FpsJson(fps)]
  }

  /**
   * `cmd = [...]`, then `cmd.append('-k')` when the audio is kept, then the
   * two `cmd.extend(...)` calls.
   */
  method BuildCmd(input: string, output: string, maskType: string, keepAudio: bool, fps: int)
    returns (cmd: seq<string>)
    ensures cmd == DefaceArgv(input, output, maskType, keepAudio, fps)
  {
    cmd := ["deface", input, "-o", output];
    if keepAudio {
      cmd := cmd + ["-k"];
    }
    cmd := cmd + ["--replacewith", maskType, "--mask-scale", "1.3"];
    cmd := cmd + ["--ffmpeg-config", FpsJson(fps)];
  }

  /**
   * When none of the three free arguments is itself "-k", the flag occurs in
   * the vector exactly when the audio is kept.
   */
  lemma KeepFlagIffKeepAudio(input: string, output: string, maskType: string, keepAudio: bool, fps: int)
    requires input != "-k" && output != "-k" && maskType != "-k"
    ensures "-k" in DefaceArgv(input, output, maskType, keepAudio, fps) <==> keepAudio
  {
    var cmd := DefaceArgv(input, output, maskType, keepAudio, fps);
    if !keepAudio {
      assert FpsJson(fps) != "-k";
      assert forall i :: 0 <= i < |cmd| ==> cmd[i] != "-k" by {
        forall i | 0 <= i < |cmd|
          ensures cmd[i] != "-k"
        {
          if i < 4 {
            assert cmd[i] == cmd[..4][i];
          } else {
            assert cmd[i] == cmd[|cmd| - 6..][i - 4];
          }
        }
      }
    }
  }

  // ---------------------------------------------------------------------
  // main
  // ---------------------------------------------------------------------

  const UsageLine := "Usage: deface_wrapper.py <input_path> <output_path> <mask_type> <keep_audio> <fps> <resolution>"

  /** How `subprocess.run` ended: the tool ran with a return code and captured output, or was not found. */
  datatype ToolResult = ToolRan(returnCode: int, stdout: string, stderr: string) | ToolNotFound

  /** How the script ends: `sys.exit` with a status, or an uncaught exception (Python then exits with 1). */
  datatype Termination = Exited(status: nat) | Raised(exception: string)

  datatype WrapperRun = WrapperRun(stdout: string, stderr: string, end: Termination)

  /** The status a process sees after `sys.exit(code)`: the low eight bits. */
  function ExitStatus(code: int): (s: nat)
    ensures s < 256
    ensures 0 <= code < 256 ==> s == code
  {
    code % 256
  }

  /** "Running command: " and the vector joined with spaces, as printed before the run. */
  function RunningLine(cmd: seq<string>): string {
    "Running command: " + JoinWith(cmd, " ") + "\n"
  }

  /**
   * The argument vector `main` runs for `sys.argv`, or None when it stops
   * before the run (usage, a missing index, a non-numeric fps).
   */
  function PlannedArgv(argv: seq<string>): Option<seq<string>> {
    if |argv| < 7 then None
    else match ParseInt(argv[5])
      case None => None
      case Some(fps) => Some(DefaceArgv(argv[1], argv[2], argv[3], KeepAudioFlag(argv[4]), fps))
  }

  /**
   * `main`. With fewer than five entries it prints the usage line and exits
   * with 1. The guard lets five and six entries through although `argv[5]`
   * and `argv[6]` are read, so those raise IndexError; a non-numeric fps
   * raises ValueError (the fps is parsed before `argv[6]` is read). Otherwise
   * the command is printed and run; a non-zero return code is printed to
   * stderr after "Error: " and becomes the exit status, a zero one prints the
   * tool's output.
   */
  method RunWrapper(argv: seq<string>, tool: ToolResult) returns (run: WrapperRun, ran: Option<seq<string>>)
    ensures ran == PlannedArgv(argv)
    ensures |argv| < 5 ==> run == WrapperRun(UsageLine + "\n", "", Exited(1))
    ensures |argv| == 5 ==> run == WrapperRun("", "", Raised("IndexError"))
    ensures |argv| >= 6 && ParseInt(argv[5]).None? ==> run == WrapperRun("", "", Raised("ValueError"))
    ensures |argv| == 6 && ParseInt(argv[5]).Some? ==> run == WrapperRun("", "", Raised("IndexError"))
    ensures ran.Some? && tool.ToolNotFound? ==>
      run == WrapperRun(RunningLine(ran.value), "", Raised("FileNotFoundError"))
    ensures ran.Some? && tool.ToolRan? && tool.returnCode != 0 ==>
      run == WrapperRun(RunningLine(ran.value), "Error: " + tool.stderr + "\n", Exited(ExitStatus(tool.returnCode)))
    ensures ran.Some? && tool.ToolRan? && tool.returnCode == 0 ==>
      run == WrapperRun(RunningLine(ran.value) + tool.stdout + "\n", "", Exited(0))
  {
    ran := None;
    if |argv| < 5 {
      run := WrapperRun(UsageLine + "\n", "", Exited(1));
      return;
    }
    var inputPath := argv[1];
    var outputPath := argv[2];
    var maskType := argv[3];
    var keepAudio := KeepAudioFlag(argv[4]);
    if |argv| == 5 {
      run := WrapperRun("", "", Raised("IndexError"));
      return;
    }
    var fps := ParseInt(argv[5]);
    if fps.None? {
      run := WrapperRun("", "", Raised("ValueError"));
      return;
    }
    if |argv| == 6 {
      run := WrapperRun("", "", Raised("IndexError"));
      return;
    }
    var resolution := argv[6];

    var cmd := BuildCmd(inputPath, outputPath, maskType, keepAudio, fps.value);
    ran := Some(cmd);
    var stdout := RunningLine(cmd);
    match tool
    case ToolNotFound =>
      run := WrapperRun(stdout, "", Raised("FileNotFoundError"));
    case ToolRan(returnCode, toolOut, toolErr) =>
      if returnCode != 0 {
        run := WrapperRun(stdout, "Error: " + toolErr + "\n", Exited(ExitStatus(returnCode)));
      } else {
        run := WrapperRun(stdout + toolOut + "\n", "", Exited(0));
      }
  }

  /** The resolution argument is read but never changes what is run. */
  lemma ResolutionNeverAffectsArgv(argv: seq<string>, resolution: string)
    requires |argv| >= 7
    ensures PlannedArgv(argv[6 := resolution]) == PlannedArgv(argv)
  {
  }

  /** Every run that gets past the argument checks passes the fps through as JSON and the mask scale 1.3. */
  lemma PlannedArgvCarriesFps(argv: seq<string>, fps: int)
    requires |argv| >= 7 && argv[5] == IntToString(fps)
    ensures PlannedArgv(argv).Some?
    ensures var cmd := PlannedArgv(argv).value;
      cmd[|cmd| - 1] == FpsJson(fps) && cmd[|cmd| - 3] == "1.3"
  {
    ParseIntOfIntToString(fps);
    var cmd := PlannedArgv(argv).value;
    assert cmd[|cmd| - 1] == cmd[|cmd| - 6..][5];
    assert cmd[|cmd| - 3] == cmd[|cmd| - 6..][3];
  }

  /** A failing tool never makes the script report success: the status is non-zero unless the code is a multiple of 256. */
  lemma FailureStatusIsNonZero(code: int)
    requires code != 0 && -256 < code < 256
    ensures ExitStatus(code) != 0
  {
  }
}
