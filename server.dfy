/**
 * The `POST /api/deface` route of the backend: upload acceptance, naming of the
 * stored upload and of the processed output, configuration overlay, lookups
 * with fallback, shell escaping, command assembly, and the mapping of the
 * precondition checks and the tool's exit to a response and a cleanup.
 *
 * File-system state, clocks, random numbers and the external process are
 * inputs (`Environment`); the files the handler creates and deletes are
 * results.
 */
module DefaceServer {
  import opened Text
  import opened JsValue

  // ---------------------------------------------------------------------
  // Upload acceptance (multer with a file filter and a size limit)
  // ---------------------------------------------------------------------

  const MaxUploadBytes: nat := 100 * 1024 * 1024

  /** A file part of the multipart body, as multer sees it. */
  datatype FilePart = FilePart(fieldName: string, mimeType: string, size: nat, originalName: string)

  /** Whether multer stores the part, refuses the request, or skips the part as carrying no file. */
  datatype UploadVerdict = Accepted | Refused(reason: string) | Skipped

  /**
   * multer for `upload.single('video')`: a part with an empty file name is
   * skipped as no file at all; otherwise a file under another field name is
   * unexpected, then the file filter checks the declared MIME type, then the
   * size limit applies while the body streams in.
   */
  function CheckUpload(part: FilePart): (v: UploadVerdict)
    ensures v.Skipped? <==> part.originalName == ""
    ensures v.Accepted? <==>
      part.originalName != "" && part.fieldName == "video" && "video/" <= part.mimeType && part.size <= MaxUploadBytes
    ensures part.originalName != "" && part.fieldName != "video" ==> v == Refused("Unexpected field")
    ensures part.originalName != "" && part.fieldName == "video" && !("video/" <= part.mimeType) ==>
      v == Refused("Only video files are allowed")
    ensures part.originalName != "" && part.fieldName == "video" && "video/" <= part.mimeType && part.size > MaxUploadBytes ==>
      v == Refused("File too large")
  {
    if part.originalName == "" then Skipped
    else if part.fieldName != "video" then Refused("Unexpected field")
    else if !("video/" <= part.mimeType) then Refused("Only video files are allowed")
    else if part.size > MaxUploadBytes then Refused("File too large")
    else Accepted
  }

  // ---------------------------------------------------------------------
  // Paths (POSIX `path.basename`, `path.extname`, `path.dirname`)
  // ---------------------------------------------------------------------

  function StripTrailingSlashes(p: string): (r: string)
    ensures r <= p
    ensures r == [] || r[|r| - 1] != '/'
  {
    if p != [] && p[|p| - 1] == '/' then StripTrailingSlashes(p[..|p| - 1]) else p
  }

  /** The text after the last '/'. */
  function LastSegment(p: string): (r: string)
    ensures '/' !in r
    ensures |r| <= |p| && r == p[|p| - |r|..]
  {
    if p == [] || p[|p| - 1] == '/' then [] else LastSegment(p[..|p| - 1]) + [p[|p| - 1]]
  }

  lemma {:induction false} LastSegmentWithoutSlash(p: string)
    requires '/' !in p
    ensures LastSegment(p) == p
  {
    if p != [] {
      assert p[..|p| - 1] + [p[|p| - 1]] == p;
      LastSegmentWithoutSlash(p[..|p| - 1]);
    }
  }

  function Basename(p: string): (r: string)
    ensures '/' !in r
  {
    LastSegment(StripTrailingSlashes(p))
  }

  /** The position of the last occurrence of `c`, if any (the scans for '.' and '/' in `path`). */
  function LastIndexOf(s: string, c: char): (k: Option<nat>)
    ensures k.Some? ==> k.value < |s| && s[k.value] == c && forall j :: k.value < j < |s| ==> s[j] != c
    ensures k.None? ==> c !in s
  {
    if s == [] then None else if s[|s| - 1] == c then Some(|s| - 1) else LastIndexOf(s[..|s| - 1], c)
  }

  /**
   * `path.extname` of a last path segment: from the last '.' to the end,
   * except when there is no dot, when the only leading dot starts the name
   * (".bashrc") or when the name is "..".
   */
  function ExtOfSegment(b: string): (e: string)
    ensures e == [] || (e[0] == '.' && '.' !in e[1..])
    ensures |e| <= |b| && e == b[|b| - |e|..]
  {
    match LastIndexOf(b, '.')
    case None => ""
    case Some(k) =>
      if k == 0 || b == ".." then ""
      else
        assert b[k..][1..] == b[k + 1..];
        b[k..]
  }

  function ExtName(p: string): (e: string)
    ensures '/' !in e
  {
    ExtOfSegment(Basename(p))
  }

  /**
   * `path.dirname`: everything before the slash that precedes the last
   * segment, trailing slashes ignored and repeated slashes before the
   * segment kept; "." without such a slash, "/" for a rooted one-segment
   * path, and "//" when the path starts with exactly that before the segment.
   */
  function Dirname(p: string): string {
    var q := StripTrailingSlashes(p);
    if q == [] then (if p == [] then "." else "/")
    else match LastIndexOf(q, '/')
      case None => "."
      case Some(k) =>
        if k == 0 then "/"
        else if k == 1 && q[0] == '/' then "//"
        else q[..k]
  }

  /** Node's results for the cases its `dirname` treats specially. */
  lemma DirnameExamples()
    ensures Dirname("a//b") == "a/" && Dirname("a/b//c") == "a/b/"
    ensures Dirname("/a") == "/" && Dirname("//a") == "//" && Dirname("///a") == "//"
    ensures Dirname("a/b/") == "a" && Dirname("a") == "." && Dirname("") == "." && Dirname("/") == "/"
  {
  }

  // ---------------------------------------------------------------------
  // Directories and names
  // ---------------------------------------------------------------------

  /** The server's own directory (`__dirname`) is `root`, an absolute path without a trailing '/'. */
  function UploadsDir(root: string): string { root + "/uploads" }
  function ProcessedDir(root: string): string { root + "/public/processed" }
  function DefacePath(root: string): string { root + "/venv/bin/deface" }
  function ActivatePath(root: string): string { root + "/venv/bin/activate" }
  function ConfigPath(root: string, stamp: nat): string { root + "/config-" + NatToString(stamp) + ".json" }

  /** The upload's name on disk: `Date.now()`, '-', a random integer, the original extension. */
  function StoredName(stamp: nat, random: nat, originalName: string): string {
    NatToString(stamp) + "-" + NatToString(random) + ExtName(originalName)
  }

  function InputPath(root: string, stored: string): string { UploadsDir(root) + "/" + stored }
  function OutputFileName(stored: string): string { "processed-" + Basename(stored) }
  function OutputPath(root: string, stored: string): string { ProcessedDir(root) + "/" + OutputFileName(stored) }
  function ProcessedVideoUrl(stored: string): string { "/processed/" + OutputFileName(stored) }

  lemma StoredNameHasNoSlash(stamp: nat, random: nat, originalName: string)
    ensures '/' !in StoredName(stamp, random, originalName)
  {
    DigitsHaveNoSeparator(stamp);
    DigitsHaveNoSeparator(random);
    assert '/' !in "-";
  }

  /** A decimal numeral contains neither '/' nor '.'. */
  lemma DigitsHaveNoSeparator(n: nat)
    ensures '/' !in NatToString(n) && '.' !in NatToString(n)
  {
    var s := NatToString(n);
    assert forall i :: 0 <= i < |s| ==> IsDigit(s[i]);
  }

  lemma BasenameOfSlashFree(p: string)
    requires '/' !in p
    ensures Basename(p) == p
  {
    assert StripTrailingSlashes(p) == p;
    LastSegmentWithoutSlash(p);
  }

  /** The last occurrence in a concatenation: in the second part if it has one, else in the first. */
  lemma {:induction false} LastIndexOfConcat(x: string, y: string, c: char)
    ensures LastIndexOf(x + y, c) ==
      (if LastIndexOf(y, c).Some? then Some(|x| + LastIndexOf(y, c).value) else LastIndexOf(x, c))
    decreases |y|
  {
    var z := x + y;
    if y == [] {
      assert z == x;
    } else {
      assert z[..|z| - 1] == x + y[..|y| - 1];
      if y[|y| - 1] != c {
        LastIndexOfConcat(x, y[..|y| - 1], c);
      }
    }
  }

  /** A non-empty dot-free stem followed by an extension has exactly that extension. */
  lemma ExtOfStemAndExtension(stem: string, ext: string)
    requires |stem| >= 1 && '.' !in stem
    requires ext == [] || (ext[0] == '.' && '.' !in ext[1..])
    ensures ExtOfSegment(stem + ext) == ext
  {
    LastIndexOfConcat(stem, ext, '.');
    if ext == [] {
      assert stem + ext == stem;
    } else {
      assert ext == "." + ext[1..];
      LastIndexOfConcat(".", ext[1..], '.');
      assert LastIndexOf(ext, '.') == Some(0);
      assert (stem + ext)[|stem|..] == ext;
      assert stem + ext != ".." by {
        if |stem + ext| == 2 { assert (stem + ext)[0] == stem[0]; }
      }
    }
  }

  /** A slash-free name under a directory that does not end in '/' has that directory as dirname. */
  lemma DirnameOfChild(dir: string, name: string)
    requires dir != [] && dir[|dir| - 1] != '/'
    requires name != [] && '/' !in name
    ensures Dirname(dir + "/" + name) == dir
  {
    var p := dir + "/" + name;
    assert p[|p| - 1] == name[|name| - 1];
    assert StripTrailingSlashes(p) == p;
    assert p == dir + ("/" + name);
    LastIndexOfConcat(dir, "/" + name, '/');
    LastIndexOfConcat("/", name, '/');
    assert p[..|dir|] == dir;
  }

  /** The stored name keeps the original extension and is its own basename. */
  lemma StoredNameKeepsExtension(stamp: nat, random: nat, originalName: string)
    ensures var stored := StoredName(stamp, random, originalName);
      Basename(stored) == stored && ExtName(stored) == ExtName(originalName)
  {
    var stem := NatToString(stamp) + "-" + NatToString(random);
    DigitsHaveNoSeparator(stamp);
    DigitsHaveNoSeparator(random);
    assert '.' !in "-";
    assert '.' !in stem;
    StoredNameHasNoSlash(stamp, random, originalName);
    BasenameOfSlashFree(StoredName(stamp, random, originalName));
    ExtOfStemAndExtension(stem, ExtName(originalName));
  }

  /** A slash-free stored name puts the output directly in the processed directory. */
  lemma OutputLiesInProcessedDir(root: string, stored: string)
    requires '/' !in stored && stored != []
    ensures OutputFileName(stored) == "processed-" + stored
    ensures ProcessedVideoUrl(stored) == "/processed/processed-" + stored
    ensures Dirname(OutputPath(root, stored)) == ProcessedDir(root)
  {
    BasenameOfSlashFree(stored);
    ProcessedDirEndsWithName(root);
    OutputNameHasNoSlash(stored);
    DirnameOfChild(ProcessedDir(root), "processed-" + stored);
  }

  lemma ProcessedDirEndsWithName(root: string)
    ensures ProcessedDir(root) != [] && ProcessedDir(root)[|ProcessedDir(root)| - 1] != '/'
  {
    var dir := ProcessedDir(root);
    assert dir[|dir| - 1] == "/public/processed"[16];
  }

  lemma OutputNameHasNoSlash(stored: string)
    requires '/' !in stored
    ensures '/' !in "processed-" + stored
  {
    var name := "processed-" + stored;
    assert forall i :: 0 <= i < |name| ==> name[i] == if i < 10 then "processed-"[i] else stored[i - 10];
  }

  // ---------------------------------------------------------------------
  // Configuration overlay
  // ---------------------------------------------------------------------

  type Config = map<string, JsonValue>

  function ServerDefaults(): Config {
    map["fps" := JNum(Decimal(60, 0)), "maskType" := JStr("blur"),
        "keepAudio" := JBool(true), "resolution" := JStr("720p")]
  }

  /** The `config` text field: not sent, or sent with the result of `JSON.parse` (None when it throws). */
  datatype ConfigField = NotSent | Sent(text: string, parsed: Option<JsonValue>)

  /** A field that overrides: present, non-empty text (a truthy string), and parseable. */
  predicate Overrides(field: ConfigField) {
    field.Sent? && field.text != "" && field.parsed.Some?
  }

  /** `{ ...defaults, ...clientConfig }` when the field parses, the defaults otherwise. */
  function ResolveConfig(defaults: Config, field: ConfigField): (config: Config)
    ensures !Overrides(field) ==> config == defaults
    ensures Overrides(field) ==>
      var client := SpreadProperties(field.parsed.value);
      && config.Keys == defaults.Keys + client.Keys
      && (forall k :: k in client ==> config[k] == client[k])
      && (forall k :: k in defaults && k !in client ==> config[k] == defaults[k])
  {
    if Overrides(field) then defaults + SpreadProperties(field.parsed.value) else defaults
  }

  /** A configuration object sent by the client (as `JSON.stringify` of an object) overrides key by key. */
  lemma ClientObjectOverridesKeyByKey(defaults: Config, text: string, client: Config, k: string)
    requires text != ""
    ensures var config := ResolveConfig(defaults, Sent(text, Some(JObject(client))));
      && (k in client ==> k in config && config[k] == client[k])
      && (k !in client ==> (k in config <==> k in defaults) && (k in defaults ==> config[k] == defaults[k]))
  {
  }

  function Get(config: Config, key: string): Option<JsonValue> {
    if key in config then Some(config[key]) else None
  }

  // ---------------------------------------------------------------------
  // Resolution and mask-type lookups with fallback
  // ---------------------------------------------------------------------

  datatype Dimensions = Dimensions(width: nat, height: nat)

  const ResolutionTable: map<string, Dimensions> :=
    map["480p" := Dimensions(854, 480), "720p" := Dimensions(1280, 720), "1080p" := Dimensions(1920, 1080)]

  /** What `resolutionMap[config.resolution]` finds on the object literal: an own entry or an inherited member. */
  datatype ResolutionLookup = Size(dims: Dimensions) | InheritedResolution(name: string)

  /**
   * `resolutionMap[config.resolution] || resolutionMap['720p']`. The map is an
   * ordinary object literal, so a name inherited from Object.prototype finds
   * that member, which is truthy and skips the fallback.
   */
  function ResolutionFor(v: Option<JsonValue>): (r: ResolutionLookup)
    ensures PropertyKey(v) == "480p" ==> r == Size(Dimensions(854, 480))
    ensures PropertyKey(v) == "720p" ==> r == Size(Dimensions(1280, 720))
    ensures PropertyKey(v) == "1080p" ==> r == Size(Dimensions(1920, 1080))
    ensures PropertyKey(v) in ObjectPrototypeNames ==> r == InheritedResolution(PropertyKey(v))
    ensures PropertyKey(v) !in ResolutionTable && PropertyKey(v) !in ObjectPrototypeNames
            ==> r == Size(Dimensions(1280, 720))
  {
    var key := PropertyKey(v);
    if key in ResolutionTable then Size(ResolutionTable[key])
    else if key in ObjectPrototypeNames then InheritedResolution(key)
    else Size(ResolutionTable["720p"])
  }

  const MaskStyles: set<string> := {"blur", "solid", "mosaic"}

  /** What `maskTypeMap[config.maskType]` finds on the object literal: an own entry or an inherited member. */
  datatype MaskLookup = Style(name: string) | InheritedMember(name: string)

  /**
   * The lookup as written: `maskTypeMap` is an ordinary object literal, so a
   * key such as "toString" finds a member inherited from Object.prototype.
   * It is truthy, the `|| 'blur'` fallback is skipped, and that member, not a
   * mask style, is interpolated into the command.
   */
  function MaskTypeAsWritten(v: Option<JsonValue>): MaskLookup {
    var key := PropertyKey(v);
    if key in MaskStyles then Style(key)
    else if key in ObjectPrototypeNames then InheritedMember(key)
    else Style("blur")
  }

  /** The lookup as intended: a known style maps to itself, anything else to "blur". */
  function MaskTypeFor(v: Option<JsonValue>): (m: string)
    ensures m in MaskStyles
    ensures PropertyKey(v) in MaskStyles ==> m == PropertyKey(v)
    ensures PropertyKey(v) !in MaskStyles ==> m == "blur"
  {
    var key := PropertyKey(v);
    if key in MaskStyles then key else "blur"
  }

  /** Input that shows the discrepancy: `{"maskType": "toString"}` never falls back to "blur". */
  lemma InheritedMaskNameSkipsFallback()
    ensures MaskTypeAsWritten(Some(JStr("toString"))) == InheritedMember("toString")
    ensures MaskTypeFor(Some(JStr("toString"))) == "blur"
  {
  }

  /** Away from the inherited names, the code as written and the intended lookup agree. */
  lemma MaskLookupAgreesOffPrototype(v: Option<JsonValue>)
    requires PropertyKey(v) !in ObjectPrototypeNames
    ensures MaskTypeAsWritten(v) == Style(MaskTypeFor(v))
  {
  }

  // ---------------------------------------------------------------------
  // Threshold, mask scale and audio: JavaScript truthiness
  // ---------------------------------------------------------------------

  const DefaultThreshold: JsonValue := JNum(Decimal(19, 2))
  const DefaultMaskScale: JsonValue := JNum(Decimal(13, 1))

  /** `v || fallback`, with `undefined` for a missing property. */
  function OrElse(v: Option<JsonValue>, fallback: JsonValue): (r: JsonValue)
    ensures Truthy(fallback) ==> Truthy(r)
    ensures v.Some? && Truthy(v.value) ==> r == v.value
    ensures (v.None? || !Truthy(v.value)) ==> r == fallback
  {
    if v.Some? && Truthy(v.value) then v.value else fallback
  }

  function Threshold(config: Config): JsonValue { OrElse(Get(config, "threshold"), DefaultThreshold) }
  function MaskScale(config: Config): JsonValue { OrElse(Get(config, "maskScale"), DefaultMaskScale) }
  predicate KeepsAudio(config: Config) { "keepAudio" in config && Truthy(config["keepAudio"]) }

  /** An explicit 0 (or false, "" or null) from the client still yields the defaults 0.19 and 1.3. */
  lemma FalsyOverridesYieldDefaults(config: Config, v: JsonValue, w: JsonValue)
    requires !Truthy(v) && !Truthy(w)
    ensures JsString(Threshold(config["threshold" := v])) == "0.19"
    ensures JsString(MaskScale(config["maskScale" := w])) == "1.3"
  {
    assert Threshold(config["threshold" := v]) == DefaultThreshold;
    assert MaskScale(config["maskScale" := w]) == DefaultMaskScale;
    DefaultThresholdText();
    DefaultMaskScaleText();
  }

  /** The default threshold is written into the command as 0.19. */
  lemma DefaultThresholdText()
    ensures JsString(DefaultThreshold) == "0.19"
  {
    assert Pow10(2) == 100;
    assert NatToString(0) == "0";
    assert PaddedDigits(19, 2) == "19";
  }

  /** The default mask scale is written into the command as 1.3. */
  lemma DefaultMaskScaleText()
    ensures JsString(DefaultMaskScale) == "1.3"
  {
    assert Pow10(1) == 10;
    assert NatToString(1) == "1";
    assert PaddedDigits(3, 1) == "3";
  }

  // ---------------------------------------------------------------------
  // Shell escaping
  // ---------------------------------------------------------------------

  predicate NoQuote(s: string) { '\'' !in s }

  /** `s.replace(/'/g, "'\\''")`: each single quote becomes quote, backslash, quote, quote. */
  function Escape(s: string): string {
    if s == [] then [] else EscapeChar(s[0]) + Escape(s[1..])
  }

  function EscapeChar(c: char): string {
    if c == '\'' then "'\\''" else [c]
  }

  lemma {:induction false} EscapeWithoutQuotes(s: string)
    requires NoQuote(s)
    ensures Escape(s) == s
  {
    if s != [] {
      assert s == [s[0]] + s[1..];
      EscapeWithoutQuotes(s[1..]);
    }
  }

  function QuoteCount(s: string): nat {
    if s == [] then 0 else (if s[0] == '\'' then 1 else 0) + QuoteCount(s[1..])
  }

  lemma {:induction false} EscapeLength(s: string)
    ensures |Escape(s)| == |s| + 3 * QuoteCount(s)
  {
    if s != [] {
      EscapeLength(s[1..]);
    }
  }

  lemma {:induction false} EscapeConcat(x: string, y: string)
    ensures Escape(x + y) == Escape(x) + Escape(y)
  {
    if x == [] {
      assert x + y == y;
    } else {
      assert (x + y)[0] == x[0];
      assert (x + y)[1..] == x[1..] + y;
      EscapeConcat(x[1..], y);
    }
  }

  function Prepend(s: string, r: Option<string>): Option<string> {
    match r
    case None => None
    case Some(t) => Some(s + t)
  }

  /**
   * How a POSIX shell reads one word made of single-quoted runs, backslash
   * escapes and ordinary characters (quote removal, as in section 2.2 of the
   * POSIX Shell Command Language): inside quotes every character but ' is
   * literal; outside, ' opens a quote and \c stands for c. None when a quote
   * is left open or a backslash ends the word.
   */
  function ShellRead(w: string, quoted: bool): Option<string>
    decreases |w|
  {
    if w == [] then (if quoted then None else Some(""))
    else if quoted then
      if w[0] == '\'' then ShellRead(w[1..], false) else Prepend([w[0]], ShellRead(w[1..], true))
    else if w[0] == '\'' then ShellRead(w[1..], true)
    else if w[0] == '\\' then (if |w| == 1 then None else Prepend([w[1]], ShellRead(w[2..], false)))
    else Prepend([w[0]], ShellRead(w[1..], false))
  }

  /** Inside a single-quoted word, the escaped text reads back as the original, whatever follows. */
  lemma {:induction false} EscapeReadsBack(s: string, rest: string)
    ensures ShellRead(Escape(s) + rest, true) == Prepend(s, ShellRead(rest, true))
  {
    if s == [] {
      assert Escape(s) + rest == rest;
      PrependNothing(ShellRead(rest, true));
    } else {
      var after := Escape(s[1..]) + rest;
      EscapeReadsBack(s[1..], rest);
      assert Escape(s) + rest == EscapeChar(s[0]) + after;
      ReadEscapedChar(s[0], after);
      assert s == [s[0]] + s[1..];
      PrependTwice([s[0]], s[1..], ShellRead(rest, true));
    }
  }

  /** Inside quotes, each escaped character reads back as itself. */
  lemma ReadEscapedChar(c: char, after: string)
    ensures ShellRead(EscapeChar(c) + after, true) == Prepend([c], ShellRead(after, true))
  {
    if c == '\'' {
      ReadEscapedQuote(after);
    } else {
      ReadPlainChar(c, after);
    }
  }

  /** The four characters an escaped quote becomes read back, inside quotes, as one quote. */
  lemma ReadEscapedQuote(after: string)
    ensures ShellRead("'\\''" + after, true) == Prepend("'", ShellRead(after, true))
  {
    var w := "'\\''" + after;
    assert w[1..] == "\\''" + after;
    assert w[3..] == "'" + after;
    assert w[4..] == after;
    assert ShellRead(w, true) == ShellRead(w[1..], false);
    assert ShellRead(w[1..], false) == Prepend(['\''], ShellRead(w[3..], false));
    assert ShellRead(w[3..], false) == ShellRead(after, true);
  }

  /** Inside quotes, any character but a quote stands for itself. */
  lemma ReadPlainChar(c: char, after: string)
    requires c != '\''
    ensures ShellRead([c] + after, true) == Prepend([c], ShellRead(after, true))
  {
    assert ([c] + after)[1..] == after;
  }

  lemma PrependNothing(r: Option<string>)
    ensures Prepend("", r) == r
  {
    match r
    case None =>
    case Some(t) => assert "" + t == t;
  }

  lemma PrependTwice(a: string, b: string, r: Option<string>)
    ensures Prepend(a, Prepend(b, r)) == Prepend(a + b, r)
  {
    match r
    case None =>
    case Some(t) => assert a + (b + t) == a + b + t;
  }

  /** A word '<escaped s>' reads back as s, for every s. */
  lemma QuotedEscapeReadsBack(s: string)
    ensures ShellRead("'" + Escape(s) + "'", false) == Some(s)
  {
    var w := "'" + Escape(s) + "'";
    assert w[1..] == Escape(s) + "'";
    EscapeReadsBack(s, "'");
    assert ShellRead("'", true) == Some("");
    assert s + "" == s;
  }

  // ---------------------------------------------------------------------
  // Command assembly
  // ---------------------------------------------------------------------

  /** One function per template literal of the command, in source order. */
  function SourceActivate(activate: string): string { "source \"" + activate + "\" && " }
  function ToolAndFiles(deface: string, input: string, output: string): string {
    "\"" + deface + "\" \"" + input + "\" -o \"" + output + "\" "
  }
  function ReplaceWithArg(maskType: string): string { "--replacewith " + maskType + " " }
  function MaskScaleArg(maskScale: string): string { "--mask-scale " + maskScale + " " }
  function ThreshArg(threshold: string): string { "--thresh " + threshold + " " }
  function FfmpegConfigArg(configPath: string): string { "--ffmpeg-config \"$(cat \"" + configPath + "\")\"" }

  /** The two command templates, selected by `config.keepAudio`. */
  function BuildCommand(activate: string, deface: string, input: string, output: string,
                        maskType: string, maskScale: string, threshold: string,
                        configPath: string, keepAudio: bool): string
  {
    if keepAudio then
      "/bin/bash -c '" + SourceActivate(activate) +
      (ToolAndFiles(deface, input, output) + "-k ") +
      ReplaceWithArg(maskType) +
      MaskScaleArg(maskScale) +
      ThreshArg(threshold) +
      FfmpegConfigArg(configPath) + "'"
    else
      "/bin/bash -c '" + SourceActivate(activate) +
      ToolAndFiles(deface, input, output) +
      ReplaceWithArg(maskType) +
      MaskScaleArg(maskScale) +
      ThreshArg(threshold) +
      FfmpegConfigArg(configPath) + "'"
  }

  /** The command for a resolved configuration: only the four paths are escaped. */
  function CommandFor(root: string, inputPath: string, outputPath: string, configPath: string, config: Config): string {
    BuildCommand(Escape(ActivatePath(root)), Escape(DefacePath(root)), Escape(inputPath), Escape(outputPath),
                 MaskTypeFor(Get(config, "maskType")), JsString(MaskScale(config)), JsString(Threshold(config)),
                 configPath, KeepsAudio(config))
  }

  /** Everything after the audio flag: style, scale, threshold and encoder configuration. */
  function ToolOptions(maskType: string, maskScale: string, threshold: string, configPath: string): string {
    ReplaceWithArg(maskType) + MaskScaleArg(maskScale) + ThreshArg(threshold) + FfmpegConfigArg(configPath)
  }

  /** The two templates differ only by "-k " right after the quoted output path. */
  lemma CommandVariantsDifferOnlyByKeepFlag(activate: string, deface: string, input: string, output: string,
                                             maskType: string, maskScale: string, threshold: string, configPath: string)
    ensures var head := "/bin/bash -c '" + SourceActivate(activate) + ToolAndFiles(deface, input, output);
      var tail := ToolOptions(maskType, maskScale, threshold, configPath) + "'";
      && BuildCommand(activate, deface, input, output, maskType, maskScale, threshold, configPath, true) == head + "-k " + tail
      && BuildCommand(activate, deface, input, output, maskType, maskScale, threshold, configPath, false) == head + tail
  {
  }

  /** The program `bash -c` is meant to run, with the paths as they are on disk. */
  function BashProgram(activate: string, deface: string, input: string, output: string,
                       maskType: string, maskScale: string, threshold: string,
                       configPath: string, keepAudio: bool): string
  {
    SourceActivate(activate) + ToolAndFiles(deface, input, output) + (if keepAudio then "-k " else "") +
    ToolOptions(maskType, maskScale, threshold, configPath)
  }

  lemma EscapeSourceActivate(activate: string)
    ensures Escape(SourceActivate(activate)) == SourceActivate(Escape(activate))
  {
    assert NoQuote("source \"") && NoQuote("\" && ");
    EscapeBetween("source \"", activate, "\" && ");
  }

  lemma EscapeToolAndFiles(deface: string, input: string, output: string)
    ensures Escape(ToolAndFiles(deface, input, output)) == ToolAndFiles(Escape(deface), Escape(input), Escape(output))
  {
    var q, qq, qo, qs := "\"", "\" \"", "\" -o \"", "\" ";
    assert NoQuote(q) && NoQuote(qq) && NoQuote(qo) && NoQuote(qs);
    EscapeThreeValues(q, deface, qq, input, qo, output, qs);
  }

  /** Three values separated by quote-free text: only the values are escaped. */
  lemma EscapeThreeValues(s0: string, x: string, s1: string, y: string, s2: string, z: string, s3: string)
    requires NoQuote(s0) && NoQuote(s1) && NoQuote(s2) && NoQuote(s3)
    ensures Escape(s0 + x + s1 + y + s2 + z + s3) == s0 + Escape(x) + s1 + Escape(y) + s2 + Escape(z) + s3
  {
    EscapeWithoutQuotes(s0);
    EscapeWithoutQuotes(s1);
    EscapeWithoutQuotes(s2);
    EscapeWithoutQuotes(s3);
    EscapeConcat(s0 + x + s1 + y + s2 + z, s3);
    EscapeConcat(s0 + x + s1 + y + s2, z);
    EscapeConcat(s0 + x + s1 + y, s2);
    EscapeConcat(s0 + x + s1, y);
    EscapeConcat(s0 + x, s1);
    EscapeConcat(s0, x);
  }

  /** Quote-free text around a value is left alone; only the value is escaped. */
  lemma EscapeBetween(before: string, value: string, after: string)
    requires NoQuote(before) && NoQuote(after)
    ensures Escape(before + value + after) == before + Escape(value) + after
  {
    EscapeWithoutQuotes(before);
    EscapeWithoutQuotes(after);
    EscapeConcat(before + value, after);
    EscapeConcat(before, value);
  }

  /** Escaping the program escapes exactly its four paths when the other values are quote-free. */
  lemma EscapeProgram(activate: string, deface: string, input: string, output: string,
                      maskType: string, maskScale: string, threshold: string,
                      configPath: string, keepAudio: bool)
    requires NoQuote(maskType) && NoQuote(maskScale) && NoQuote(threshold) && NoQuote(configPath)
    ensures Escape(BashProgram(activate, deface, input, output, maskType, maskScale, threshold, configPath, keepAudio))
         == BashProgram(Escape(activate), Escape(deface), Escape(input), Escape(output),
                        maskType, maskScale, threshold, configPath, keepAudio)
  {
    var k: string := if keepAudio then "-k " else "";
    assert NoQuote(k);
    ToolOptionsQuoteFree(maskType, maskScale, threshold, configPath);
    EscapeSourceActivate(activate);
    EscapeToolAndFiles(deface, input, output);
    EscapeTwoThenQuoteFree(SourceActivate(activate), ToolAndFiles(deface, input, output), k,
                           ToolOptions(maskType, maskScale, threshold, configPath));
  }

  lemma ToolOptionsQuoteFree(maskType: string, maskScale: string, threshold: string, configPath: string)
    requires NoQuote(maskType) && NoQuote(maskScale) && NoQuote(threshold) && NoQuote(configPath)
    ensures NoQuote(ToolOptions(maskType, maskScale, threshold, configPath))
  {
  }

  lemma EscapeTwoThenQuoteFree(a: string, f: string, k: string, t: string)
    requires NoQuote(k) && NoQuote(t)
    ensures Escape(a + f + k + t) == Escape(a) + Escape(f) + k + t
  {
    EscapeWithoutQuotes(t);
    EscapeWithoutQuotes(k);
    EscapeConcat(a + f + k, t);
    EscapeConcat(a + f, k);
    EscapeConcat(a, f);
  }

  /** Each command template is the program wrapped in single quotes after `/bin/bash -c`. */
  lemma CommandQuotesProgram(activate: string, deface: string, input: string, output: string,
                             maskType: string, maskScale: string, threshold: string,
                             configPath: string, keepAudio: bool)
    ensures BuildCommand(activate, deface, input, output, maskType, maskScale, threshold, configPath, keepAudio)
         == "/bin/bash -c " + ("'" + BashProgram(activate, deface, input, output, maskType, maskScale, threshold, configPath, keepAudio) + "'")
  {
    var h, q := "/bin/bash -c ", "'";
    assert "/bin/bash -c '" == h + q;
    var a, t := SourceActivate(activate), ToolAndFiles(deface, input, output);
    var r, m, th, f := ReplaceWithArg(maskType), MaskScaleArg(maskScale), ThreshArg(threshold), FfmpegConfigArg(configPath);
    if keepAudio {
      RegroupCommand(h, q, a, t, "-k ", r, m, th, f);
    } else {
      assert t + "" == t;
      RegroupCommand(h, q, a, t, "", r, m, th, f);
    }
  }

  /** The command's concatenation, regrouped as prefix, quoted program and closing quote. */
  lemma RegroupCommand(h: string, q: string, a: string, t: string, k: string,
                       r: string, m: string, th: string, f: string)
    ensures (h + q) + a + (t + k) + r + m + th + f + q == h + (q + (a + t + k + (r + m + th + f)) + q)
  {
  }

  /**
   * With the paths escaped and no quote in the unescaped values, the command
   * is `/bin/bash -c '<escaped program>'`, and the shell that `exec` starts
   * hands `bash -c` exactly the intended program, paths unaltered.
   */
  lemma OuterShellPassesProgram(activate: string, deface: string, input: string, output: string,
                                maskType: string, maskScale: string, threshold: string,
                                configPath: string, keepAudio: bool)
    requires NoQuote(maskType) && NoQuote(maskScale) && NoQuote(threshold) && NoQuote(configPath)
    ensures var program := BashProgram(activate, deface, input, output, maskType, maskScale, threshold, configPath, keepAudio);
      && BuildCommand(Escape(activate), Escape(deface), Escape(input), Escape(output),
                      maskType, maskScale, threshold, configPath, keepAudio)
         == "/bin/bash -c " + ("'" + Escape(program) + "'")
      && ShellRead("'" + Escape(program) + "'", false) == Some(program)
  {
    EscapeProgram(activate, deface, input, output, maskType, maskScale, threshold, configPath, keepAudio);
    CommandQuotesProgram(Escape(activate), Escape(deface), Escape(input), Escape(output),
                         maskType, maskScale, threshold, configPath, keepAudio);
    QuotedEscapeReadsBack(BashProgram(activate, deface, input, output, maskType, maskScale, threshold, configPath, keepAudio));
  }

  /** A number never contains a quote, so numeric thresholds and scales keep the quoting intact. */
  lemma NumbersAreQuoteFree(d: Decimal)
    ensures NoQuote(DecimalToString(d))
  {
    var s := DecimalToString(d);
    assert forall i :: 0 <= i < |s| ==> IsNumberChar(s[i]) && s[i] != '\'';
  }

  /** Both templates carry the scale and threshold arguments as they are given. */
  lemma BuildCommandCarriesScaleAndThreshold(activate: string, deface: string, input: string, output: string,
                                             maskType: string, maskScale: string, threshold: string,
                                             configPath: string, keepAudio: bool)
    ensures var cmd := BuildCommand(activate, deface, input, output, maskType, maskScale, threshold, configPath, keepAudio);
      IsInfix(MaskScaleArg(maskScale), cmd) && IsInfix(ThreshArg(threshold), cmd)
  {
    var head := if keepAudio then
        "/bin/bash -c '" + SourceActivate(activate) + (ToolAndFiles(deface, input, output) + "-k ") + ReplaceWithArg(maskType)
      else
        "/bin/bash -c '" + SourceActivate(activate) + ToolAndFiles(deface, input, output) + ReplaceWithArg(maskType);
    var scaled := head + MaskScaleArg(maskScale);
    var thresholded := scaled + ThreshArg(threshold);
    var configured := thresholded + FfmpegConfigArg(configPath);
    assert BuildCommand(activate, deface, input, output, maskType, maskScale, threshold, configPath, keepAudio)
        == configured + "'";
    InfixAtEnd(head, MaskScaleArg(maskScale));
    InfixOfExtension(MaskScaleArg(maskScale), scaled, ThreshArg(threshold));
    InfixOfExtension(MaskScaleArg(maskScale), thresholded, FfmpegConfigArg(configPath));
    InfixOfExtension(MaskScaleArg(maskScale), configured, "'");
    InfixAtEnd(scaled, ThreshArg(threshold));
    InfixOfExtension(ThreshArg(threshold), thresholded, FfmpegConfigArg(configPath));
    InfixOfExtension(ThreshArg(threshold), configured, "'");
  }

  /** The client's threshold and mask scale reach the command as they are, quotes included. */
  lemma ClientValuesReachCommandVerbatim(root: string, inputPath: string, outputPath: string, configPath: string,
                                         config: Config, t: string, m: string)
    requires t != "" && m != ""
    ensures var c := config["threshold" := JStr(t)]["maskScale" := JStr(m)];
      && IsInfix(ThreshArg(t), CommandFor(root, inputPath, outputPath, configPath, c))
      && IsInfix(MaskScaleArg(m), CommandFor(root, inputPath, outputPath, configPath, c))
  {
    var c := config["threshold" := JStr(t)]["maskScale" := JStr(m)];
    assert JsString(Threshold(c)) == t;
    assert JsString(MaskScale(c)) == m;
    BuildCommandCarriesScaleAndThreshold(Escape(ActivatePath(root)), Escape(DefacePath(root)), Escape(inputPath),
                                         Escape(outputPath), MaskTypeFor(Get(c, "maskType")), m, t,
                                         configPath, KeepsAudio(c));
  }

  /** The resolved resolution is computed but never reaches the command. */
  lemma ResolutionNeverReachesCommand(root: string, inputPath: string, outputPath: string, configPath: string,
                                      config: Config, v: JsonValue)
    ensures CommandFor(root, inputPath, outputPath, configPath, config["resolution" := v])
         == CommandFor(root, inputPath, outputPath, configPath, config)
  {
    var c := config["resolution" := v];
    assert Get(c, "maskType") == Get(config, "maskType");
    assert Get(c, "threshold") == Get(config, "threshold");
    assert Get(c, "maskScale") == Get(config, "maskScale");
  }

  /** The encoder-configuration file: `JSON.stringify({ fps: config.fps })`, fps and nothing else. */
  function ConfigFileFor(config: Config): (file: JsonValue)
    ensures file.JObject? && file.fields.Keys <= {"fps"}
    ensures "fps" in config <==> "fps" in file.fields
    ensures "fps" in config ==> file.fields["fps"] == config["fps"]
  {
    if "fps" in config then JObject(map["fps" := config["fps"]]) else JObject(map[])
  }

  // ---------------------------------------------------------------------
  // The handler: checks, execution and cleanup
  // ---------------------------------------------------------------------

  datatype Response =
    | Processed(message: string, processedVideoUrl: string)     // 200
    | BadRequest(message: string)                                // 400
    | ProcessingError(message: string, error: string, command: Option<string>)  // 500
    | UnhandledError(error: string)                              // 500, Express's default error handler

  function StatusCode(r: Response): int {
    match r
    case Processed(_, _) => 200
    case BadRequest(_) => 400
    case ProcessingError(_, _, _) => 500
    case UnhandledError(_) => 500
  }

  datatype ExecResult = ExecFailed(errorMessage: string) | ExecSucceeded(stdout: string, stderr: string)

  datatype Request = Request(video: Option<FilePart>, config: ConfigField)

  /**
   * Everything the handler learns from outside: the server directory, the
   * clock and random values used for names, file existence at each check and
   * at cleanup, and how the external process ended.
   */
  datatype Environment = Environment(
    root: string, uploadStamp: nat, uploadRandom: nat, configStamp: nat,
    defaceInstalled: bool, inputPresent: bool, outputDirPresent: bool,
    exec: ExecResult,
    uploadPresentAtCleanup: bool, configPresentAtCleanup: bool)

  /** `req.file` is set: a part was sent and multer did not skip it. */
  predicate FileReceived(req: Request) {
    req.video.Some? && !CheckUpload(req.video.value).Skipped?
  }

  predicate UploadAccepted(req: Request) {
    req.video.Some? && CheckUpload(req.video.value).Accepted?
  }

  function StoredNameOf(req: Request, env: Environment): string
    requires req.video.Some?
  {
    StoredName(env.uploadStamp, env.uploadRandom, req.video.value.originalName)
  }

  /** All three precondition checks pass. */
  predicate ChecksPass(env: Environment) {
    env.defaceInstalled && env.inputPresent && env.outputDirPresent
  }

  const ErrorMessage := "Error processing video"

  /**
   * The route: a missing upload (or a part without a file name, which
   * multer skips) gets 400, a refused one never reaches the
   * route (multer passes its error to Express, which answers 500), an
   * accepted one is processed. Returns the response, the files the request
   * created, the files it deleted, the config file's content and the command
   * it ran.
   */
  method HandleDeface(req: Request, env: Environment)
    returns (resp: Response, created: set<string>, deleted: set<string>,
             configFile: Option<JsonValue>, ran: Option<string>)
    ensures !FileReceived(req) ==>
      resp == BadRequest("No video file provided") && created == {} && configFile == None && ran == None
    ensures FileReceived(req) && !UploadAccepted(req) ==>
      resp == UnhandledError(CheckUpload(req.video.value).reason) && created == {} && configFile == None && ran == None
    ensures UploadAccepted(req) ==>
      var stored := StoredNameOf(req, env);
      && created == {InputPath(env.root, stored), ConfigPath(env.root, env.configStamp)}
      && configFile == Some(ConfigFileFor(ResolveConfig(ServerDefaults(), req.config)))
      && AcceptedOutcome(req.config, env, stored, resp, deleted, ran)
    ensures UploadAccepted(req) ==>
      var stored := StoredNameOf(req, env);
      && ExtName(stored) == ExtName(req.video.value.originalName)
      && Dirname(OutputPath(env.root, stored)) == ProcessedDir(env.root)
      && (resp.Processed? ==> resp.processedVideoUrl == "/processed/processed-" + stored)
    ensures resp.Processed? <==> UploadAccepted(req) && ChecksPass(env) && env.exec.ExecSucceeded?
    ensures !resp.Processed? ==> deleted == {}
    ensures deleted <= created
  {
    if req.video.None? {
      return BadRequest("No video file provided"), {}, {}, None, None;
    }
    var verdict := CheckUpload(req.video.value);
    if verdict.Skipped? {
      return BadRequest("No video file provided"), {}, {}, None, None;
    }
    if verdict.Refused? {
      return UnhandledError(verdict.reason), {}, {}, None, None;
    }
    var stored := StoredName(env.uploadStamp, env.uploadRandom, req.video.value.originalName);
    StoredNameKeepsExtension(env.uploadStamp, env.uploadRandom, req.video.value.originalName);
    StoredNameHasNoSlash(env.uploadStamp, env.uploadRandom, req.video.value.originalName);
    OutputLiesInProcessedDir(env.root, stored);
    var config := OverlayClientConfig(req.config);
    var command := CommandFor(env.root, InputPath(env.root, stored), OutputPath(env.root, stored),
                              ConfigPath(env.root, env.configStamp), config);
    var file;
    resp, created, deleted, file, ran := ProcessAccepted(config, env, stored, command);
    configFile := Some(file);
  }

  /**
   * What follows acceptance: checks in the order tool, input, output
   * directory, each failure answered with 500 and its own message and no
   * command; an exec error answered with 500, its message and the command;
   * success answered with the URL of the output and followed by cleanup.
   */
  ghost predicate AcceptedOutcome(field: ConfigField, env: Environment, stored: string,
                                  resp: Response, deleted: set<string>, ran: Option<string>)
  {
    && CheckFailures(env, stored, resp, ran)
    && (ran.Some? ==>
          ran.value == CommandFor(env.root, InputPath(env.root, stored), OutputPath(env.root, stored),
                                  ConfigPath(env.root, env.configStamp), ResolveConfig(ServerDefaults(), field)))
    && ExecOutcome(env, stored, resp, deleted, ran)
  }

  /** The three checks, in order, each failure answered with its own message and no command run. */
  predicate CheckFailures(env: Environment, stored: string, resp: Response, ran: Option<string>) {
    && (!env.defaceInstalled ==>
          resp == ProcessingError(ErrorMessage, "Deface command not found at path: " + DefacePath(env.root), None))
    && (env.defaceInstalled && !env.inputPresent ==>
          resp == ProcessingError(ErrorMessage, "Input video file not found at path: " + InputPath(env.root, stored), None))
    && (env.defaceInstalled && env.inputPresent && !env.outputDirPresent ==>
          resp == ProcessingError(ErrorMessage, "Output directory not found: " + Dirname(OutputPath(env.root, stored)), None))
    && (ran.Some? <==> ChecksPass(env))
  }

  /** After the checks: an exec error carries the command; success carries the URL and cleans up. */
  predicate ExecOutcome(env: Environment, stored: string, resp: Response, deleted: set<string>, ran: Option<string>) {
    && (ran.Some? && env.exec.ExecFailed? ==> resp == ProcessingError(ErrorMessage, env.exec.errorMessage, ran))
    && (resp.Processed? <==> ran.Some? && env.exec.ExecSucceeded?)
    && (resp.Processed? ==> resp == Processed("Video processed successfully", ProcessedVideoUrl(stored)))
    && (resp.Processed? ==> deleted == CleanedUp(env, stored))
    && (!resp.Processed? ==> deleted == {})
  }

  /**
   * The files the success path removes: the upload, then the config file if it
   * still exists; both unlinks share one `try`, so a failure to remove the
   * upload skips the config file.
   */
  function CleanedUp(env: Environment, stored: string): set<string> {
    if !env.uploadPresentAtCleanup then {}
    else if env.configPresentAtCleanup then {InputPath(env.root, stored), ConfigPath(env.root, env.configStamp)}
    else {InputPath(env.root, stored)}
  }

  /** The `if (req.body.config)` block: parse, spread over the defaults, keep the defaults when parsing throws. */
  method OverlayClientConfig(field: ConfigField) returns (config: Config)
    ensures config == ResolveConfig(ServerDefaults(), field)
  {
    config := ServerDefaults();
    if field.Sent? && field.text != "" {
      match field.parsed
      case Some(clientConfig) =>
        config := config + SpreadProperties(clientConfig);
      case None =>
    }
  }

  /**
   * Everything after the configuration and the command line are settled:
   * names, config file, checks, exec, cleanup. The command is the one
   * `HandleDeface` assembles with `CommandFor`.
   */
  method ProcessAccepted(config: Config, env: Environment, stored: string, command: string)
    returns (resp: Response, created: set<string>, deleted: set<string>, configFile: JsonValue, ran: Option<string>)
    ensures created == {InputPath(env.root, stored), ConfigPath(env.root, env.configStamp)}
    ensures configFile == ConfigFileFor(config)
    ensures CheckFailures(env, stored, resp, ran)
    ensures ran.Some? ==> ran.value == command
    ensures ExecOutcome(env, stored, resp, deleted, ran)
    ensures deleted <= created
  {
    var inputPath := InputPath(env.root, stored);
    var outputPath := OutputPath(env.root, stored);

    var configPath := ConfigPath(env.root, env.configStamp);
    configFile := ConfigFileFor(config);
    created := {inputPath, configPath};
    deleted, ran := {}, None;

    if !env.defaceInstalled {
      resp := ProcessingError(ErrorMessage, "Deface command not found at path: " + DefacePath(env.root), None);
      return;
    }
    if !env.inputPresent {
      resp := ProcessingError(ErrorMessage, "Input video file not found at path: " + inputPath, None);
      return;
    }
    if !env.outputDirPresent {
      resp := ProcessingError(ErrorMessage, "Output directory not found: " + Dirname(outputPath), None);
      return;
    }

    ran := Some(command);
    if env.exec.ExecFailed? {
      resp := ProcessingError(ErrorMessage, env.exec.errorMessage, Some(command));
      return;
    }
    resp := Processed("Video processed successfully", ProcessedVideoUrl(stored));
    if env.uploadPresentAtCleanup {
      if env.configPresentAtCleanup {
        deleted := {inputPath, configPath};
      } else {
        deleted := {inputPath};
      }
    }
  }

  /** A response carries a command only when the checks passed and the process failed. */
  lemma CommandOnlyAfterExecFailure(field: ConfigField, env: Environment, stored: string,
                                    resp: Response, deleted: set<string>, ran: Option<string>)
    requires AcceptedOutcome(field, env, stored, resp, deleted, ran)
    requires resp.ProcessingError? && resp.command.Some?
    ensures ChecksPass(env) && env.exec.ExecFailed?
    ensures resp == ProcessingError(ErrorMessage, env.exec.errorMessage, ran)
  {
  }

  /**
   * Every failure after acceptance leaves both the stored upload and the
   * config file behind: the config file is written before the checks, and
   * only the success path cleans up.
   */
  method FailuresLeaveFilesBehind(req: Request, env: Environment) returns (leftBehind: set<string>)
    requires UploadAccepted(req) && !(ChecksPass(env) && env.exec.ExecSucceeded?)
    ensures leftBehind == {InputPath(env.root, StoredNameOf(req, env)), ConfigPath(env.root, env.configStamp)}
  {
    var resp, created, deleted, configFile, ran := HandleDeface(req, env);
    leftBehind := created - deleted;
  }
}
