# Video face-anonymisation service: a Dafny model

This project models the logic of a small web application. The backend
anonymises faces in uploaded videos by shelling out to the `deface` tool, and
the frontend is a React site. Four parts are modelled and proved in Dafny:

- **`backend/server.js`, the `POST /api/deface` route** (module `DefaceServer`,
  file `server.dfy`):
  - which uploads the upload middleware accepts;
  - how the stored upload, the processed output and the success URL are named;
  - the overlay of the client's JSON options on the server defaults;
  - the resolution and mask-type lookups with fallback;
  - the `||` defaults for threshold and mask scale;
  - single-quote escaping and the assembly of the `/bin/bash -c '…'` command;
  - the mapping of the three precondition checks and of the process's outcome
    to a response, and the cleanup that follows success.

  The handler is a method that returns the response, the files it created and
  deleted, the encoder-configuration file and the command it ran. The file
  system's answers, the clock, the random suffix and the process's outcome are
  inputs.
- **`backend/deface_wrapper.py`, `main`** (module `DefaceWrapper`, file
  `wrapper.dfy`):
  - the argument-count guard;
  - parsing of the fps and of the keep-audio flag;
  - the argument vector, built by `append` and `extend` in a method and proved
    equal to a specification function;
  - what the script prints and the status it exits with.
- **`frontend/src/Deface.jsx`, the Deface page** (module `DefaceClient`, file
  `client.dfy`). A class `DefacePage` holds the page's state and has one
  method per handler: file selection, processing, option change and export.
  Processing and export each split at their `await` into a start, which turns
  processing on and disables export and the controls, and a finish, which
  turns it off again.
  The reply of the HTTP request and the outcome of the download are
  parameters. `ReplyFor` says which reply each server response becomes, so
  lemmas can connect the server's outcomes to the error text the page shows.
- **`frontend/src/App.jsx`** (module `HomePage`, file `home.dfy`):
  - the pinned-first ordering of posts, as a stable insertion sort by the
    page's comparator, proved equal to "pinned posts, then the others, each
    group in its original order";
  - the divider rule;
  - the connection count of a graph node.

`text.dfy` (module `Text`) holds decimal rendering and parsing helpers.
`jsvalue.dfy` (module `JsValue`) models JSON values with three JavaScript
operations on them: truthiness, `String(v)` and object spread. A number is
the finite decimal that is the shortest rendering of a binary64 double, and
it is printed the way JavaScript prints it in plain notation.

The threshold and mask scale sent by the client are interpolated into the
command without escaping (`ClientValuesReachCommandVerbatim`). The quoting
argument (`OuterShellPassesProgram`) therefore holds only when those values
contain no single quote. Every number meets that condition
(`NumbersAreQuoteFree`); a string sent by a client need not.

Two consequences of the code are worth stating outright:

- **Refused uploads.** An upload refused by the upload middleware (wrong
  field, non-video MIME type, over 100 MiB) never reaches the route. Multer
  passes its error to Express, which answers 500 with an HTML page
  (`UnhandledError`). Only a request without a file gets the 400; a part
  with an empty file name counts as none, because multer skips it.
- **Cleanup.** Only the success path deletes files. Every failure after
  acceptance leaves the stored upload and the config file on disk
  (`FailuresLeaveFilesBehind`).

## Model

| member | source | states |
|---|---|---|
| DefaceServer.CheckUpload | backend/server.js:52-62 | a part with an empty file name is skipped as no file; otherwise an upload is accepted iff it comes under field "video", its MIME type starts with "video/" and it is at most 100·1024·1024 bytes; a wrong type is refused with "Only video files are allowed", an oversize file with "File too large", another field with "Unexpected field" |
| DefaceServer.StoredName | backend/server.js:47-48 | the stored name is `<time>-<random>` followed by `path.extname` of the original name; it has no slash (`StoredNameHasNoSlash`) and keeps the extension (`StoredNameKeepsExtension`) |
| DefaceServer.ExtName | backend/server.js:48 | `path.extname`: the last segment from its last dot on, always a dot followed by dot-free text, or empty when the segment has no dot, only a leading one, or is ".."; of a dot-free stem plus an extension it is that extension (`ExtOfStemAndExtension`) |
| DefaceServer.Basename | backend/server.js:71 | `path.basename`: the last segment after trailing slashes are stripped; a slash-free name is its own basename (`BasenameOfSlashFree`) |
| DefaceServer.ExtOfStemAndExtension | backend/server.js:48 | `path.extname` of a non-empty dot-free stem followed by an extension is exactly that extension |
| DefaceServer.StoredNameKeepsExtension | backend/server.js:47-48 | the stored name `<time>-<random><ext>` is its own basename and has the original file's extension |
| DefaceServer.DirnameOfChild | backend/server.js:72 | `path.dirname` of `<dir>/<name>` with a slash-free name is `<dir>` |
| DefaceServer.Dirname | backend/server.js:176-177 | `path.dirname`: trailing slashes ignored, the path up to the slash before its last segment with repeated slashes kept ("a//b" gives "a/"), "." without such a slash, "/" or "//" at the root (`DirnameExamples`); of `<dir>/<name>` with a slash-free name it is `<dir>` (`DirnameOfChild`) |
| DefaceServer.OutputFileName | backend/server.js:71 | "processed-" + the stored name's basename; it contains no slash (`OutputNameHasNoSlash`) |
| DefaceServer.ProcessedVideoUrl | backend/server.js:200 | "/processed/" + the output name, the public URL of the file written into the processed directory (`OutputLiesInProcessedDir`) |
| DefaceServer.OutputLiesInProcessedDir | backend/server.js:71-72 | the output name is "processed-" + stored name, the success URL is "/processed/processed-" + stored name, and the output's directory is the processed directory |
| DefaceServer.LastIndexOfConcat | backend/server.js:48 | the last occurrence of a character ('.' for `path.extname`, '/' for `path.dirname`) in a concatenation lies in the second part if it has one, else in the first |
| DefaceServer.ResolveConfig | backend/server.js:75-90 | without a truthy, parseable config field the configuration is exactly the defaults; otherwise its keys are the defaults' plus the client's, each client key wins and every other default is kept |
| DefaceServer.OverlayClientConfig | backend/server.js:75-90 | the `if`/`try` overlay on the defaults yields the resolved configuration |
| DefaceServer.ClientObjectOverridesKeyByKey | backend/server.js:84-87 | a client object overrides key by key: its keys take its values, others keep the default or stay absent |
| JsValue.SpreadProperties | backend/server.js:86 | spreading an object copies its fields; spreading null, a boolean or a number copies nothing |
| DefaceServer.ResolutionFor | backend/server.js:93-99 | "480p", "720p" and "1080p" give 854×480, 1280×720 and 1920×1080; a name inherited from Object.prototype finds that member and skips the fallback; any other value gives 1280×720 |
| DefaceServer.MaskTypeFor | backend/server.js:101-108 | the mask style is always blur, solid or mosaic: a known style maps to itself, anything else to "blur" |
| DefaceServer.MaskTypeAsWritten | backend/server.js:101-108 | the lookup as written: an own key gives its style, an inherited Object.prototype name gives that member (`InheritedMaskNameSkipsFallback`), anything else "blur"; off the prototype names it agrees with `MaskTypeFor` (`MaskLookupAgreesOffPrototype`) |
| DefaceServer.InheritedMaskNameSkipsFallback | backend/server.js:108 | as written, the maskType "toString" finds an inherited member and skips the "blur" fallback, where the intended lookup gives "blur" |
| DefaceServer.MaskLookupAgreesOffPrototype | backend/server.js:101-108 | for every key that is not an inherited Object.prototype name, the lookup as written agrees with the intended one |
| DefaceServer.OrElse | backend/server.js:138-139 | `v \|\| fallback` is v when v is present and truthy and the fallback otherwise; with a truthy fallback the result is truthy |
| JsValue.Truthy | backend/server.js:138-141 | JavaScript truthiness: null, false, 0 and "" are falsy, every other string, number, array and object truthy; with it `\|\|` keeps a truthy value and replaces a falsy one (`OrElse`, `FalsyOverridesYieldDefaults`) |
| DefaceServer.Threshold | backend/server.js:138 | `config.threshold \|\| 0.19`: a falsy or missing threshold renders as "0.19" (`FalsyOverridesYieldDefaults`, `DefaultThresholdText`) |
| DefaceServer.MaskScale | backend/server.js:139 | `config.maskScale \|\| 1.3`: a falsy or missing scale renders as "1.3" (`FalsyOverridesYieldDefaults`, `DefaultMaskScaleText`) |
| DefaceServer.KeepsAudio | backend/server.js:141 | `if (config.keepAudio)`: a present, truthy keepAudio selects the template with "-k "; the two templates differ only there (`CommandVariantsDifferOnlyByKeepFlag`) |
| JsValue.JsString | backend/server.js:143-155 | `String(v)` as a template literal interpolates it: a number never contains a quote (`NumbersAreQuoteFree`), 0.19 and 1.3 print as "0.19" and "1.3" (`DefaultThresholdText`, `DefaultMaskScaleText`), a string is itself |
| DefaceServer.FalsyOverridesYieldDefaults | backend/server.js:138-139 | a falsy threshold or mask scale (0, false, "", null) still renders as "0.19" and "1.3" |
| DefaceServer.DefaultThresholdText | backend/server.js:138 | the default threshold is written into the command as "0.19" |
| DefaceServer.DefaultMaskScaleText | backend/server.js:139 | the default mask scale is written into the command as "1.3" |
| DefaceServer.Escape | backend/server.js:127-130 | `replace(/'/g, "'\\''")`: every single quote becomes quote, backslash, quote, quote; its properties are the four lemmas below |
| DefaceServer.EscapeWithoutQuotes | backend/server.js:127-130 | escaping changes nothing in text without a single quote |
| DefaceServer.EscapeLength | backend/server.js:127-130 | escaping adds exactly three characters per single quote |
| DefaceServer.EscapeConcat | backend/server.js:127-130 | escaping distributes over concatenation |
| DefaceServer.EscapeReadsBack | backend/server.js:127-130 | inside single quotes, a POSIX shell reads the escaped text back as the original, whatever follows |
| DefaceServer.QuotedEscapeReadsBack | backend/server.js:127-130 | the word `'<escaped s>'` reads back as s for every s |
| DefaceServer.BuildCommand | backend/server.js:141-157 | the two templates; `CommandQuotesProgram`, `CommandVariantsDifferOnlyByKeepFlag`, `BuildCommandCarriesScaleAndThreshold` and `OuterShellPassesProgram` state their shape |
| DefaceServer.CommandFor | backend/server.js:127-157 | the command for a resolved configuration, only the four paths escaped and the mask style taken from the corrected lookup `MaskTypeFor`: the client's threshold and scale appear verbatim (`ClientValuesReachCommandVerbatim`) and the resolution never matters (`ResolutionNeverReachesCommand`) |
| DefaceServer.CommandVariantsDifferOnlyByKeepFlag | backend/server.js:141-157 | the two command templates are equal except for "-k " right after the quoted output path |
| DefaceServer.EscapeSourceActivate | backend/server.js:129-143 | escaping the activation line escapes just the activation path |
| DefaceServer.EscapeToolAndFiles | backend/server.js:127-144 | escaping the tool-and-files line escapes just the three paths |
| DefaceServer.EscapeProgram | backend/server.js:127-157 | with quote-free options, escaping the whole program equals escaping just its four paths |
| DefaceServer.CommandQuotesProgram | backend/server.js:141-157 | each template is `/bin/bash -c '` + the program + `'` |
| DefaceServer.OuterShellPassesProgram | backend/server.js:127-157 | with quote-free options the command is `/bin/bash -c '<escaped program>'`, and the quoted word reads back as exactly the intended program, paths unaltered |
| DefaceServer.NumbersAreQuoteFree | backend/server.js:138-139 | a numeric threshold or scale never contains a quote |
| DefaceServer.BuildCommandCarriesScaleAndThreshold | backend/server.js:141-157 | both templates contain the `--mask-scale` and `--thresh` arguments with the values exactly as given |
| DefaceServer.ClientValuesReachCommandVerbatim | backend/server.js:138-155 | a client string threshold or mask scale occurs verbatim in the command, unescaped |
| DefaceServer.ResolutionNeverReachesCommand | backend/server.js:99-157 | changing the resolution never changes the command |
| DefaceServer.ConfigFileFor | backend/server.js:133-135 | the config file holds fps and nothing else, equal to the configuration's fps when present |
| DefaceServer.HandleDeface | backend/server.js:65-216 | no file, or a part with an empty file name, gives 400 "No video file provided"; a refused upload gives Express's 500 with the middleware's message; an accepted one creates exactly the stored upload and the config file, keeps the original extension and has its outcome described by `AcceptedOutcome`; it answers 200 exactly when the upload is accepted, the three checks pass and the process succeeds; only success deletes, and only files it created |
| DefaceServer.ProcessAccepted | backend/server.js:70-216 | checks in the order tool, input, output directory, each failure with its own message and no command; the command it is given runs iff all pass; an exec error returns its message and the command; success returns the processed URL and removes the upload, then the config file if it still exists |
| DefaceServer.CommandOnlyAfterExecFailure | backend/server.js:162-185 | a response carries a command only when the checks passed and the process failed |
| DefaceServer.FailuresLeaveFilesBehind | backend/server.js:133-216 | every failure after acceptance leaves both the stored upload and the config file behind |
| DefaceWrapper.ParseInt | backend/deface_wrapper.py:16 | a parsed integer comes from non-empty text, and a negative one from text starting with "-" |
| DefaceWrapper.ParseIntOfIntToString | backend/deface_wrapper.py:16 | `int(str(n)) == n` for every integer n |
| DefaceWrapper.ParseIntRefusesNonNumeric | backend/deface_wrapper.py:16 | the model's `ParseInt` refuses text with a character other than a leading sign or an ASCII digit |
| DefaceWrapper.KeepAudioFlag | backend/deface_wrapper.py:15 | `argv[4].lower() == 'true'`, characterised by the two lemmas below |
| DefaceWrapper.KeepAudioFlagCharacterized | backend/deface_wrapper.py:15 | the audio is kept iff the argument is the four letters of "true" in any mix of cases |
| DefaceWrapper.KeepAudioFlagExamples | backend/deface_wrapper.py:15 | "True", "TRUE" and "true" keep the audio; "1", "yes", "on" and "false" do not |
| DefaceWrapper.DefaceArgv | backend/deface_wrapper.py:25-34 | the vector has 11 entries with the flag and 10 without; it starts with deface, input, -o, output; entry 4 is "-k" iff the audio is kept; it ends with --replacewith, the mask, --mask-scale, 1.3, --ffmpeg-config and the fps JSON |
| DefaceWrapper.BuildCmd | backend/deface_wrapper.py:25-34 | building by append and extend yields the specified vector |
| DefaceWrapper.PlannedArgv | backend/deface_wrapper.py:8-34 | the vector `main` runs, absent when the usage check, a missing index or a non-numeric fps stops it first; it is what `RunWrapper` runs, it carries the fps (`PlannedArgvCarriesFps`) and ignores the resolution (`ResolutionNeverAffectsArgv`) |
| DefaceWrapper.KeepFlagIffKeepAudio | backend/deface_wrapper.py:27-28 | when no free argument is itself "-k", "-k" occurs in the vector iff the audio is kept |
| DefaceWrapper.RunWrapper | backend/deface_wrapper.py:7-46 | fewer than five entries print the usage and exit 1; five entries raise IndexError; a non-numeric fps raises ValueError; six entries raise IndexError; otherwise the planned vector runs; a non-zero return code is printed after "Error: " on stderr and becomes the exit status; zero prints the tool's output |
| DefaceWrapper.ExitStatus | backend/deface_wrapper.py:42-44 | the exit status is below 256 and equals the return code when that is in 0..255 |
| DefaceWrapper.FailureStatusIsNonZero | backend/deface_wrapper.py:42-44 | a non-zero return code in -255..255 exits with a non-zero status |
| DefaceWrapper.ResolutionNeverAffectsArgv | backend/deface_wrapper.py:17-34 | the resolution argument never changes the planned vector |
| DefaceWrapper.PlannedArgvCarriesFps | backend/deface_wrapper.py:16-34 | a printed integer fps reaches the tool as its JSON, with the mask scale 1.3 |
| DefaceClient.DefacePage.constructor | frontend/src/Deface.jsx:63-79 | no input, no output, no error, not processing, progress 0 and the options fps 60, solid mask, kept audio, 720p, threshold 0.19, scale 1.3 |
| DefaceClient.DefacePage.SelectFile | frontend/src/Deface.jsx:85-94 | a video file sets the input and clears the output and the error; any other file, or none, only sets "Please select a valid video file" |
| DefaceClient.DefacePage.StartProcessing | frontend/src/Deface.jsx:100-115 | without an input it sets "Please select a video to process" and starts nothing; otherwise processing is on, progress 0, the error cleared, export and the controls disabled, and the form carries the picked file and the options |
| DefaceClient.DefacePage.FinishProcessing | frontend/src/Deface.jsx:157-177 | success sets progress 100 and the output to the base URL + the processed URL; failure sets the failure message and keeps the output; processing is off afterwards, the controls are enabled and export is enabled iff an output is present |
| DefaceClient.DefacePage.ProcessVideo | frontend/src/Deface.jsx:100-178 | the start followed by the finish: without an input it sets "Please select a video to process" and starts nothing; otherwise it sends the picked file and the options; success sets progress 100 and the output to the base URL + the processed URL; failure sets the failure message and keeps the output; processing is off afterwards and export is enabled iff an output is present |
| DefaceClient.DetailLine | frontend/src/Deface.jsx:170-174 | the details or command line is empty exactly when the body field is missing or falsy |
| DefaceClient.FailureMessage | frontend/src/Deface.jsx:169-174 | the catch block's error text; `BadRequestShown`, `ProcessingErrorShown`, `CommandLineShown` and `RefusedUploadShown` give it for each kind of failure |
| DefaceClient.DefacePage.CanExport | frontend/src/Deface.jsx:537 | the export button is enabled iff an output is present and nothing is processing: it is off while processing or downloading (`StartProcessing`, `StartExport`) and, afterwards, on iff an output is present |
| DefaceClient.DefacePage.ControlsEnabled | frontend/src/Deface.jsx:417 | the upload button and the option controls are enabled iff nothing is processing: off after `StartProcessing` and `StartExport`, on after `FinishProcessing` and `FinishExport` |
| DefaceClient.DefacePage.ChangeConfig | frontend/src/Deface.jsx:216-218 | exactly one option changes; every other option and the rest of the state are unchanged |
| DefaceClient.DefacePage.StartExport | frontend/src/Deface.jsx:180-184 | with an output present, processing is turned on (export and the controls disabled); without one nothing changes |
| DefaceClient.DefacePage.FinishExport | frontend/src/Deface.jsx:186-212 | a fetched video is saved as "defaced-video.mp4"; a bad status or a fetch error sets the download error; processing is off afterwards |
| DefaceClient.DefacePage.Export | frontend/src/Deface.jsx:180-214 | the start followed by the finish: without an output nothing happens; otherwise the video is saved as "defaced-video.mp4" or the download error is set, and processing is off afterwards |
| DefaceClient.ReplyFor | frontend/src/Deface.jsx:157-174 | the request resolves iff the server processed the video; otherwise it rejects with the response's status |
| DefaceClient.BadRequestShown | frontend/src/Deface.jsx:169-174 | a missing upload is shown as "Error processing video: " + the server's message |
| DefaceClient.ProcessingErrorShown | frontend/src/Deface.jsx:169-174 | a processing failure shows the message, a details line with the error, and a command line exactly when a non-empty command was sent |
| DefaceClient.CommandLineShown | frontend/src/Deface.jsx:171-174 | the command line of a processing failure appears exactly when the server sent a non-empty command |
| DefaceClient.RefusedUploadShown | frontend/src/Deface.jsx:169-174 | a refused upload is shown only as "Error processing video: Request failed with status code 500" |
| DefaceClient.SuccessGivesOutputUrl | frontend/src/Deface.jsx:168 | the output becomes the API base URL followed by the server's processed URL |
| DefaceClient.ClientDefaultsReplaceServerDefaults | frontend/src/Deface.jsx:72-79 | every key of the server's defaults is among the client's defaults, so the resolved configuration is the client's object as sent |
| DefaceClient.DefaultClientConfigText | frontend/src/Deface.jsx:72-79 | the client's defaults give the solid mask, scale "1.3", threshold "0.19", kept audio and a config file holding fps 60 only |
| DefaceClient.DefaultClientConfigOnServer | frontend/src/Deface.jsx:72-79 | the client's defaults, resolved on the server, select the solid mask (the server default is blur), scale 1.3, threshold 0.19, kept audio and a config file with fps 60 only |
| HomePage.Compare | frontend/src/App.jsx:382 | the comparator is positive exactly when only the second post is pinned, and negative exactly when only the first is |
| HomePage.Insert | frontend/src/App.jsx:382 | a stable insertion from the end, one element longer; a pinned post moves past the unpinned ones (`InsertPinnedPastUnpinned`) |
| HomePage.SortPosts | frontend/src/App.jsx:381-382 | the stable sort of the copy; it is the pinned posts followed by the unpinned ones (`SortIsPinnedFirst`, `OrderedPostsProperties`) |
| HomePage.InsertPinnedPastUnpinned | frontend/src/App.jsx:382 | a pinned post inserted behind unpinned ones moves in front of all of them and behind the pinned ones |
| HomePage.SortIsPinnedFirst | frontend/src/App.jsx:381-382 | the stable sort by the comparator equals the pinned posts followed by the unpinned ones, each group in its original order |
| HomePage.GroupsPartition | frontend/src/App.jsx:381-382 | the two groups together are exactly the posts |
| HomePage.OrderedPostsProperties | frontend/src/App.jsx:381-383 | the shown posts are a permutation of the same length, no unpinned post precedes a pinned one, and both groups keep their original order |
| HomePage.GroupsOfPinnedFirst | frontend/src/App.jsx:382 | splitting a pinned block followed by an unpinned block gives back the two blocks |
| HomePage.StableOrderIsUnique | frontend/src/App.jsx:382 | any arrangement with the same two groups in the same orders and pinned posts first is the shown order |
| HomePage.PinnedFirstOfOrdered | frontend/src/App.jsx:382 | a sequence with no unpinned post before a pinned one is its pinned posts followed by its unpinned ones |
| HomePage.SitePostsShownOrder | frontend/src/App.jsx:15-55 | the site's three posts are shown in their given order, with two dividers |
| HomePage.HasDivider | frontend/src/App.jsx:501 | `index < posts.length - 1`: a divider follows every post but the last (`DividersBetweenPosts`, `DividersFollowShownPosts`) |
| HomePage.DividersBetweenPosts | frontend/src/App.jsx:501 | every post but the last is followed by a divider; there is one divider fewer than posts |
| HomePage.DividersFollowShownPosts | frontend/src/App.jsx:501 | since the sorted copy has the original length, a divider follows a shown post iff another post comes after it |
| HomePage.ConnectionCount | frontend/src/App.jsx:86-88 | a node's connection count never exceeds the number of links |
| HomePage.ConnectionCountIsIndexCount | frontend/src/App.jsx:86-88 | the count is the number of link positions whose source or target is the node |
| HomePage.ConnectionCountOfConcat | frontend/src/App.jsx:86-88 | counting over two lists of links adds up |
| HomePage.StarCounts | frontend/src/App.jsx:71-88 | in a star of links from distinct members to a hub, the hub has one connection per member and each member has one |
| HomePage.SiteConnectionCounts | frontend/src/App.jsx:58-88 | on the site's graph, "Prototype" has nine connections and each member one |

## Left out

- Express and multer wiring is not modelled: CORS, static files, body parsing, the storage engine writing the file, and the HTML of Express's error page. A middleware refusal is reduced to its message, and the page's body is modelled as a string with no fields.
- `exec`, `fs.existsSync`, `fs.writeFileSync` and `fs.unlinkSync` are inputs of the handler (`Environment`), not effects; a failing `writeFileSync` (which would throw before the checks) is not modelled.
- Concurrent requests are not modelled: two uploads in the same millisecond with the same random suffix would share a name.
- The encoder options (preset, crf, pixel format, codec, scale filter) are built at backend/server.js:111-118 but never used; `ffmpegConfig` and the resolution are left out of the command, as the code leaves them out (`ResolutionNeverReachesCommand`).
- DefaceServer.OuterShellPassesProgram: the guarantee covers the outer shell only. Inside the program the paths stand in double quotes, where the inner `bash` still expands `$`, backquotes and `\`; that second reading is not modelled.
- DefaceServer.CommandFor, DefaceServer.HandleDeface: the command uses the corrected mask lookup `MaskTypeFor` of the Findings table. For a maskType that names an Object.prototype member, the code as written interpolates that member's text (`MaskTypeAsWritten`), and the model does not build that command.
- DefaceServer.HandleDeface: `configPath` is interpolated unescaped, and the model states the command for any config path without proving its quoting (the path is under the server's own directory).
- `path.join`'s normalisation of "." and ".." segments is not modelled (the joined parts never contain them).
- JsValue.DecimalToString: a number is the finite decimal that is a double's shortest rendering, printed in plain notation; a decimal no double renders as (such as 1e-400, which parses to 0, or a 20-digit fraction) is outside the model and is rendered digit for digit; exponent notation (magnitudes of 1e21 and above or below 1e-6), NaN and infinities are not modelled.
- JsValue.JsString: an object's own `toString` and property-key conversion of arrays holding objects are not modelled; an array is joined with "," and an object prints "[object Object]".
- JSON text is not modelled: the client's `JSON.stringify` and the server's `JSON.parse` are represented by the parsed value together with whether the text is non-empty and parseable.
- DefaceWrapper.ParseInt: only an optional sign and ASCII digits are accepted; Python's `int` also accepts surrounding whitespace, underscores between digits and other Unicode decimal digits.
- DefaceWrapper.KeepAudioFlag: lower-casing is modelled for A to Z only; no other character lower-cases to a letter of "true", so the outcome of the comparison is the same.
- DefaceWrapper.RunWrapper: the traceback of an uncaught exception is not modelled (the run ends as `Raised` with the exception's name; Python then exits with status 1), and neither are the tool's own effects.
- The client's progress simulation (random increments, milestones, timers) is not modelled; `FinishProcessing` takes the progress reached when the reply arrives as a parameter. That timer is not cleared on failure and keeps moving the bar afterwards; that is not modelled.
- The `useEffect` that starts processing whenever a new input is selected is not modelled as a separate step; its effect is a call of `ProcessVideo` after `SelectFile`.
- Rendering, layout, mobile detection and the configuration panel's visibility are not modelled; of the `disabled` attributes only the export button's and the one shared by the upload button and the option controls are.
- The node-size formula (`6 + log2(count + 1) * 2`, times 1.1 for organisations) is floating point and is not modelled; only the connection count is.
- Links are taken with resolved (source, target) ids. That `link.source.id` works only after D3 has replaced the string ids with node objects, so sizes computed before the simulation exists see no links, is library behaviour and is not modelled.
- The D3 force simulation, zoom, drag and SVG paths are not modelled, and neither is the posts' markup.
- src/App.jsx is not part of this model: an older near-duplicate page that renders posts unsorted.

## Findings

| source | as written | input that shows it | evidently intended | confidence | as-written member | corrected member |
|---|---|---|---|---|---|---|
| backend/server.js:101-108 | `maskTypeMap[config.maskType] \|\| 'blur'` looks the key up on an ordinary object literal, so names inherited from Object.prototype are found; the found member is truthy and skips the fallback | config `{"maskType": "toString"}` (likewise "constructor" or "valueOf") interpolates a function's source text, not a mask style, into the command; "__proto__" finds Object.prototype itself and interpolates "[object Object]" | any value other than blur, solid or mosaic falls back to "blur" | not executed | DefaceServer.MaskTypeAsWritten (shown by DefaceServer.InheritedMaskNameSkipsFallback) | DefaceServer.MaskTypeFor |
