# Video transcription tool wrappers — a Dafny model

The repository's two example scripts wrap an external transcription CLI for two
agent frameworks: the CrewAI tool `VideoTranscriptionTool._run` and the AutoGen
capability `VideoTranscriptionCapability.transcribe_video`. Each one builds a
`node … transcribe …` command line and runs it. On exit status 0 it lists the
agent's `output` directory and correlates the run with its artifact: it keeps
the names ending in `_transcription.json` and takes the one with the newest
creation time. It then decodes that JSON artifact and reshapes it into a flat
result record. Every failure becomes a `{success: false, error}` record.

This project models that logic as pure functions:

- `results.dfy` (`Results`): `Option` and `Result`. A `Result` holds either a
  value or the exception a Python expression raises.
- `pyjson.dfy` (`PyJson`): decoded JSON values, with Python's truthiness, type
  names, `dict.get`/`d[k]` and the exception kinds these raise (`Fault`).
- `paths.dfy` (`Paths`): `str.endswith` and POSIX `os.path.join`.
- `correlation.dfy` (`Correlation`): the suffix filter, the selection by
  `max` over creation time, and the directory scan plus artifact load (`Locate`).
- `invocation.dfy` (`Invocation`): the command-line layout and its inverse.
  It also holds the argument conversion `subprocess` performs, the outside
  world as an `Env` of functions, and the pipeline both scripts share (`Invoke`).
- `crew_tool.dfy` (`CrewTool`): input defaults and validation. Lenient
  normalisation with per-field defaults. The serialised dict.
- `autogen_capability.dfy` (`AutogenCapability`): the fixed `json` format.
  Strict normalisation, where the full text is read by subscripting. `None`
  defaults. The returned dict.

The outside world is passed in as parameters. `Env.run(cmd, cwd)` stands for
`subprocess.run`: it gives the exit status and stderr, or the text of the
exception it raised. `Env.listDir(dir)` stands for `os.listdir` together with
`os.path.getctime`: it gives the names in listing order, each with its creation
time. `Env.load(path)` stands for `open` plus `json.load`. The CrewAI input
string arrives already decoded, as a `Result<Json, string>` whose failure is the
decoder's message.

A few facts about the code shape the model:

- Ties in creation time go to the first candidate in listing order. That is how
  Python's `max` behaves; the name of the file plays no part in the choice.
- A failure's error is a plain string: stderr, `'Transcription failed'`, or the
  raised exception's text. It carries no separate error kind.
- An absent sentiment defaults to `'neutral'` in the CrewAI tool and to `None` in
  the AutoGen capability.
- The CrewAI success record carries `output_files` and has no `error` key. The
  AutoGen record has no confidence at all. A missing `video_path` yields a dict
  without a `success` key.
- A zero exit whose output directory holds no artifact is a failure at once; no
  retry or wait is made.

## Model

| member | source | states |
|---|---|---|
| Paths.EndsWithIffAppended | examples/crewai-agent.py:59 | `name.endswith(suffix)` holds exactly when the name is some string followed by the suffix |
| Paths.Join | examples/crewai-agent.py:44 | `os.path.join(a, b)` ends with `b`. An absolute `b` replaces `a`. Otherwise the result is `a + b` or `a + "/" + b`, so it starts with `a` and adds at most one separator |
| Correlation.NewestIndex | examples/crewai-agent.py:62 | `max(..., key=ctime)` picks nothing only from an empty list; otherwise it picks a position whose creation time is greatest, with every earlier position strictly older (first maximal wins ties) |
| Correlation.Candidates | examples/crewai-agent.py:59 | the filtered list is never longer than the listing |
| Correlation.CandidatesKeepArtifacts | examples/crewai-agent.py:59 | an entry is in the filtered list exactly when it is listed and its name ends in `_transcription.json` |
| Correlation.NoCandidatesIffNoArtifact | examples/crewai-agent.py:59-61 | the filtered list is empty, and `if json_files` fails, exactly when no listed name ends in `_transcription.json` |
| Correlation.SelectLatest | examples/crewai-agent.py:59-62 | filter-then-max yields nothing exactly when no name ends in `_transcription.json`; otherwise it yields a listed artifact at least as new as every listed artifact |
| Correlation.SelectLatestStep | examples/autogen-agent.py:41-44 | appending one listing entry changes the selection like one more step of `max` over the filtered names; a non-artifact changes nothing |
| Correlation.NewestListedUnique | examples/crewai-agent.py:62 | at most one listing position satisfies the selection rule, so the selection is deterministic for a given listing |
| Correlation.NewestListedKept | examples/crewai-agent.py:62 | a selected entry stays selected when the next entry listed is a non-artifact or is not newer |
| Correlation.NewestListedLast | examples/crewai-agent.py:62 | a newly listed artifact strictly newer than all earlier artifacts becomes the selection |
| Correlation.SelectLatestExists | examples/crewai-agent.py:59-62 | filter-then-max yields nothing iff no name ends in `_transcription.json`, and otherwise yields a listing entry that satisfies the selection rule |
| Correlation.SelectLatestIsNewestListed | examples/crewai-agent.py:59-62 | the selection is exactly the listed artifact with the greatest creation time, the first listed among equally new ones; none iff there is no artifact |
| Correlation.NewerArtifactWins | examples/autogen-agent.py:41-44 | an artifact strictly newer than every other is selected wherever it is listed: correlation is by time only, whichever run wrote it |
| Correlation.Locate | examples/crewai-agent.py:58-64 | a listing exception is reported with its text; "no artifact" exactly when the listing has no candidate; otherwise the result is the decoded content (or load exception) of the entry the selection rule picks |
| Invocation.Argv | examples/crewai-agent.py:42-51 | the command has six arguments, plus a seventh `--enhance` exactly when enhancement is requested |
| Invocation.ArgvRoundTrip | examples/crewai-agent.py:42-51 | the script, video path, format and enhancement flag are all recovered from the command line built for them |
| Invocation.ParseArgvSound | examples/autogen-agent.py:25-34 | a command line that reads back as a request is exactly the one built for that request |
| Invocation.FirstNonStringOfTail | examples/crewai-agent.py:54 | a non-string argument found after a leading string argument is still the first non-string of the whole command |
| Invocation.ArgvStrings | examples/crewai-agent.py:54 | `subprocess.run` accepts the command iff every argument is a string, passes them on unchanged, and otherwise raises a TypeError naming the type of the first non-string |
| Invocation.FailureText | examples/crewai-agent.py:82 | the error of a run without a record is stderr when stderr is non-empty and `'Transcription failed'` when it is empty; it is never empty |
| Invocation.Invoke | examples/crewai-agent.py:54-83 | a spawn exception is reported with its text. A non-zero exit, or a zero exit whose listing has no artifact, fails with stderr or `'Transcription failed'`. After a zero exit, a listing exception is reported with its text; otherwise the artifact the selection rule picks decides: a load exception is reported with its text, a normalisation exception with its kind, and a normalised record is the success. Conversely a success record only comes from a zero exit and that artifact. Nothing is rejected as input |
| CrewTool.Command | examples/crewai-agent.py:42-51 | with string video path and format, the command is `node <agent>/dist/index.js transcribe <video> --format <format>` plus `--enhance` iff the flag is truthy; a non-string video path, and after it a non-string format, raises the subprocess TypeError |
| CrewTool.Normalise | examples/crewai-agent.py:66-78 | normalisation succeeds iff the document, its enhancement and transcription sections, its metadata and `metadata.processingOptions` are dicts (or absent); otherwise it raises an AttributeError naming the first non-dict in evaluation order |
| CrewTool.Run | examples/crewai-agent.py:28-89 | undecodable input is reported with the decoder's message; non-dict input raises AttributeError; rejection happens iff `video_path` is missing or falsy. With string video path and format the command run uses format default `json` and enhancement default true; a truthy non-string video path, or else a non-string format, is reported as the subprocess TypeError naming its type |
| CrewTool.ToJson | examples/crewai-agent.py:38-89 | a rejection is exactly `{"error": "video_path is required"}`. Every other reply has a `success` key. A failure has exactly `success: false` and `error`, holding the reply's error text. A success has exactly the eight success keys, no `error`, and each key holds the record field it names |
| CrewTool.ToJsonRoundTrip | examples/crewai-agent.py:69-78 | a consumer reading the success keys back recovers the record exactly; a rejection or a failure never reads back as a record |
| CrewTool.NormaliseRenderRoundTrip | examples/crewai-agent.py:66-77 | an artifact carrying every field normalises back to the record it was made from |
| CrewTool.TranscriptionChoice | examples/crewai-agent.py:66-71 | transcription is `enhancedText` when truthy, else `fullText`, else `''`; an empty `enhancedText` falls back |
| CrewTool.FieldsOrDefaults | examples/crewai-agent.py:72-77 | each field is the artifact's value when its key is present, and otherwise its default: summary `''`, key points and topics `[]`, sentiment `'neutral'`, confidence `0`, output files `[]` |
| CrewTool.MissingVideoPathRejected | examples/crewai-agent.py:34-39 | a missing or empty `video_path` yields exactly `{"error": "video_path is required"}` whatever the environment does |
| CrewTool.InputDefaults | examples/crewai-agent.py:34-51 | input with only a video path runs `node <agent>/dist/index.js transcribe <video> --format json --enhance` |
| CrewTool.UndecodableInputReported | examples/crewai-agent.py:85-89 | input that does not decode yields `{success: false, error: <decoder message>}` instead of raising |
| CrewTool.EnhancedArtifactExample | examples/crewai-agent.py:66-77 | worked example: an enhanced artifact gives its enhanced text and summary, the transcription's confidence, and the defaults `[]`, `[]`, `'neutral'` and `[]` for the absent key points, topics, sentiment and output files |
| AutogenCapability.Command | examples/autogen-agent.py:25-34 | the command reads back as script `<agent>/packages/cli/dist/cli.js`, the given video, format `json`, and `--enhance` iff requested |
| AutogenCapability.Normalise | examples/autogen-agent.py:47-54 | normalisation succeeds iff the document and its enhancement section are dicts and either `enhancedText` is truthy or `transcription.fullText` exists. A missing key raises KeyError, a non-dict transcription raises TypeError, and a non-dict document or section raises AttributeError |
| AutogenCapability.TranscribeVideo | examples/autogen-agent.py:20-65 | never a rejection. A spawn exception is reported with its text; a non-zero exit, or a zero exit whose listing has no artifact, fails with stderr or `'Transcription failed'`. After a zero exit a listing or load exception is reported with its text, and the normalised content of the selected artifact decides the reply: its record, or the exception normalising raised. A success record only comes from a zero exit; a text error is never empty |
| AutogenCapability.EnhanceByDefault | examples/autogen-agent.py:20-34 | calling without `enhance` builds the same command as `enhance=True`, and that command carries `--enhance` |
| AutogenCapability.ToJson | examples/autogen-agent.py:47-65 | every reply has `success`. A success has exactly success, transcription, summary, keyPoints, topics and sentiment, each holding the record field it names, and no confidence. A failure has exactly success and error, holding the reply's error text |
| AutogenCapability.ToJsonRoundTrip | examples/autogen-agent.py:47-54 | a consumer reading the success keys back recovers the record exactly; a failure never reads back as a record |
| AutogenCapability.EveryReplyHasSuccess | examples/autogen-agent.py:56-65 | every return path yields a dict with `success`, and `success: false` always carries `error` |
| AutogenCapability.NormaliseRenderRoundTrip | examples/autogen-agent.py:47-54 | an artifact carrying every field normalises back to the record it was made from |
| AutogenCapability.TranscriptionChoice | examples/autogen-agent.py:49 | a truthy `enhancedText` is the transcription and the transcription section is then never consulted; otherwise the transcription is `transcription.fullText` |
| AutogenCapability.FieldsOrDefaults | examples/autogen-agent.py:50-53 | summary, key points, topics and sentiment are the enhancement section's values when present; absent summary and sentiment are `None`, absent key points and topics are `[]` |
| AutogenCapability.AgreesWithCrewTool | examples/autogen-agent.py:47-54 | where both scripts accept an artifact they agree on transcription, key points and topics, and on summary and sentiment when present |
| PyJson.Index | examples/autogen-agent.py:49 | `o[key]` succeeds iff `o` is a dict holding `key`; otherwise KeyError on a dict, TypeError on anything else |
| PyJson.Truthy | examples/crewai-agent.py:38 | `not x` holds exactly for `None`, `False`, a zero number, `''`, `[]` and `{}` |
| PyJson.Lookup | examples/crewai-agent.py:34-36 | `d.get(key, default)` is the stored value when the dict holds `key`, and the default otherwise |
| PyJson.LookupOfUpdate | examples/crewai-agent.py:34-36 | `get` after storing a key yields the stored value; after removing the key it yields the default |
| PyJson.Section | examples/crewai-agent.py:66-67 | `d.get(key, {})` is the stored section when present and an empty dict otherwise |
| PyJson.Message | examples/crewai-agent.py:85-89 | `str(e)` of a raised exception is its own text; the text of every other kind is non-empty; a KeyError's text is the quoted key; a TypeError for a non-string argument ends with the offending type's name |

## Left out

- Process execution, directory listing, `os.path.getctime` and file reading are
  parameters (`Env`), not modelled. A file that vanishes between listing and
  `getctime` is not modelled either: every listed entry comes with a creation time.
- JSON text decoding and `json.dumps` formatting (indentation, key order) are
  left out. Documents are already-decoded `Json` values, and a decode failure is
  the decoder's message.
- Creation times are integers. Only their order matters to the selection.
- Numbers are not evaluated. A float is kept as the mantissa and exponent it was
  written with, and it is falsy iff the mantissa is 0. The decoder's underflow of
  tiny literals to `0.0` is not modelled, nor are the non-standard `NaN` and
  `Infinity` literals. Confidence is passed through unchanged.
- PyJson.Message gives CPython 3.11 wording. Earlier versions word the TypeError
  for subscripting a `str` differently.
- A `video_path` or `output_format` string with an embedded NUL character is not
  modelled. `subprocess` raises ValueError for it.
- AutogenCapability.TranscribeVideo takes `video_path` as a string and `enhance`
  as a boolean, as the signature annotates. Python does not enforce those
  annotations.
- Agent-framework pseudocode, the `create_*` helpers, `analyze_video_with_crew`
  and the `__main__` blocks are left out. They only print text and hold prompt
  strings.
