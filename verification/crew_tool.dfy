/** The CrewAI tool `VideoTranscriptionTool._run`: it decodes its JSON input,
    applies defaults, rejects a missing video path, builds the command, runs the
    shared pipeline and normalises the artifact leniently, giving every absent
    field a default. */
module CrewTool {
  import opened Results
  import opened PyJson
  import Paths
  import opened Invocation

  const Script := "dist/index.js"
  const DefaultFormat := "json"
  const MissingVideoPath := "video_path is required"

  /** The success record's fields, as the values found in (or defaulted from) the artifact. */
  datatype Record = Record(
    transcription: Json,
    summary: Json,
    keyPoints: Json,
    topics: Json,
    sentiment: Json,
    confidence: Json,
    outputFiles: Json)

  /** Every `.get` the normalisation performs lands on a dict. */
  predicate Shaped(doc: Json) {
    && doc.JObj?
    && Section(doc, "enhancement").JObj?
    && Section(doc, "transcription").JObj?
    && Section(doc, "metadata").JObj?
    && Section(Section(doc, "metadata"), "processingOptions").JObj?
  }

  /** The command for video `videoPath`, format `format` and flag `enhance`, all
      as found in the input; `subprocess` rejects a video path or format that is
      not a string, the video path first. */
  function Command(agentPath: string, videoPath: Json, format: Json, enhance: Json): (r: Result<seq<string>, Fault>)
    ensures videoPath.JStr? && format.JStr? ==>
      r == Success(Argv(Request(Paths.Join(agentPath, Script), videoPath.s, format.s, Truthy(enhance))))
    ensures !videoPath.JStr? ==> r == Failure(NotPathLike(TypeName(videoPath)))
    ensures videoPath.JStr? && !format.JStr? ==> r == Failure(NotPathLike(TypeName(format)))
  {
    var argv := [JStr("node"), JStr(Paths.Join(agentPath, Script)), JStr("transcribe"),
                 videoPath, JStr("--format"), format]
                + (if Truthy(enhance) then [JStr(EnhanceFlag)] else []);
    assert argv[3] == videoPath && argv[5] == format;
    var r := ArgvStrings(argv);
    if videoPath.JStr? && format.JStr? then
      var expected := Argv(Request(Paths.Join(agentPath, Script), videoPath.s, format.s, Truthy(enhance)));
      assert |expected| == |argv|;
      assert forall k :: 0 <= k < |argv| ==> argv[k] == JStr(expected[k]);
      assert r.value == expected;
      r
    else
      assert !argv[3].JStr? || !argv[5].JStr?;
      r
  }

  /** Map a decoded artifact to the success record: the enhanced text when truthy, else the full text, else `''`; every other
      absent field gets its default; a section that is not a dict raises. */
  function Normalise(doc: Json): (r: Result<Record, Fault>)
    ensures r.Success? <==> Shaped(doc)
    ensures !doc.JObj? ==> r == Failure(NoAttributeGet(TypeName(doc)))
    ensures doc.JObj? && !Section(doc, "enhancement").JObj? ==>
      r == Failure(NoAttributeGet(TypeName(Section(doc, "enhancement"))))
    ensures doc.JObj? && Section(doc, "enhancement").JObj? && !Section(doc, "transcription").JObj? ==>
      r == Failure(NoAttributeGet(TypeName(Section(doc, "transcription"))))
    ensures && doc.JObj? && Section(doc, "enhancement").JObj? && Section(doc, "transcription").JObj?
            && !Section(doc, "metadata").JObj? ==>
      r == Failure(NoAttributeGet(TypeName(Section(doc, "metadata"))))
    ensures && doc.JObj? && Section(doc, "enhancement").JObj? && Section(doc, "transcription").JObj?
            && Section(doc, "metadata").JObj? && !Section(Section(doc, "metadata"), "processingOptions").JObj? ==>
      r == Failure(NoAttributeGet(TypeName(Section(Section(doc, "metadata"), "processingOptions"))))
  {
    if !doc.JObj? then Failure(NoAttributeGet(TypeName(doc)))
    else
      var enhancement := Section(doc, "enhancement");
      var transcription := Section(doc, "transcription");
      // `enhancement.get('enhancedText')` is the first call on the enhancement section
      if !enhancement.JObj? then Failure(NoAttributeGet(TypeName(enhancement)))
      else
        var enhanced := Lookup(enhancement, "enhancedText", JNull);
        // `transcription.get('fullText', '')` runs only when the enhanced text is
        // falsy, but `transcription.get('confidence', 0)` runs on every path, so a
        // transcription section that is not a dict raises either way
        if !transcription.JObj? then Failure(NoAttributeGet(TypeName(transcription)))
        else
          var metadata := Section(doc, "metadata");
          if !metadata.JObj? then Failure(NoAttributeGet(TypeName(metadata)))
          else
            var options := Section(metadata, "processingOptions");
            if !options.JObj? then Failure(NoAttributeGet(TypeName(options)))
            else
              Success(Record(
                transcription := Or(enhanced, Lookup(transcription, "fullText", JStr(""))),
                summary := Lookup(enhancement, "summary", JStr("")),
                keyPoints := Lookup(enhancement, "keyPoints", JArr([])),
                topics := Lookup(enhancement, "topics", JArr([])),
                sentiment := Lookup(enhancement, "sentiment", JStr("neutral")),
                confidence := Lookup(transcription, "confidence", JInt(0)),
                outputFiles := Lookup(options, "outputFiles", JArr([]))))
  }

  /** `_run` on the outcome of decoding its input string. */
  function Run(agentPath: string, input: Result<Json, string>, env: Env): (r: Reply<Record>)
    ensures input.Failure? ==> r == Failed(Exception(Raised(input.error)))
    ensures input.Success? && !input.value.JObj? ==> r == Failed(Exception(NoAttributeGet(TypeName(input.value))))
    ensures r.InputRejected? <==>
      input.Success? && input.value.JObj? && !Truthy(Lookup(input.value, "video_path", JNull))
    ensures input.Success? && input.value.JObj? ==>
      var videoPath := Lookup(input.value, "video_path", JNull);
      var format := Lookup(input.value, "output_format", JStr(DefaultFormat));
      var enhance := Lookup(input.value, "enhance", JBool(true));
      && (Truthy(videoPath) && videoPath.JStr? && format.JStr? ==>
            r == Invoke(Argv(Request(Paths.Join(agentPath, Script), videoPath.s, format.s, Truthy(enhance))),
                        agentPath, env, Normalise))
      && (Truthy(videoPath) && !(videoPath.JStr? && format.JStr?) ==>
            r == Failed(Exception(NotPathLike(TypeName(if !videoPath.JStr? then videoPath else format)))))
  {
    match input
    case Failure(m) => Failed(Exception(Raised(m)))
    case Success(data) =>
      if !data.JObj? then Failed(Exception(NoAttributeGet(TypeName(data))))
      else
        var videoPath := Lookup(data, "video_path", JNull);
        var enhance := Lookup(data, "enhance", JBool(true));
        var format := Lookup(data, "output_format", JStr(DefaultFormat));
        if !Truthy(videoPath) then InputRejected
        else
          match Command(agentPath, videoPath, format, enhance)
          case Failure(f) => Failed(Exception(f))
          case Success(cmd) => Invoke(cmd, agentPath, env, Normalise)
  }

  const SuccessKeys: set<string> :=
    {"success", "transcription", "summary", "key_points", "topics", "sentiment", "confidence", "output_files"}

  /** The dict `_run` serialises with `json.dumps`. */
  function ToJson(reply: Reply<Record>): (j: Json)
    ensures j.JObj?
    ensures "success" in j.fields <==> !reply.InputRejected?
    ensures "error" in j.fields <==> !reply.Transcribed?
    ensures "success" in j.fields ==> j.fields["success"] == JBool(reply.Transcribed?)
    ensures reply.Transcribed? ==> j.fields.Keys == SuccessKeys
    ensures reply.Transcribed? ==>
      && j.fields["transcription"] == reply.record.transcription
      && j.fields["summary"] == reply.record.summary
      && j.fields["key_points"] == reply.record.keyPoints
      && j.fields["topics"] == reply.record.topics
      && j.fields["sentiment"] == reply.record.sentiment
      && j.fields["confidence"] == reply.record.confidence
      && j.fields["output_files"] == reply.record.outputFiles
    ensures reply.Failed? ==> j.fields.Keys == {"success", "error"}
    ensures reply.Failed? ==> j.fields["error"] == JStr(reply.error.Render())
    ensures reply.InputRejected? ==> j == JObj(map["error" := JStr(MissingVideoPath)])
  {
    match reply
    case InputRejected => JObj(map["error" := JStr(MissingVideoPath)])
    case Failed(e) => JObj(map["success" := JBool(false), "error" := JStr(e.Render())])
    case Transcribed(rec) =>
      JObj(map[
        "success" := JBool(true),
        "transcription" := rec.transcription,
        "summary" := rec.summary,
        "key_points" := rec.keyPoints,
        "topics" := rec.topics,
        "sentiment" := rec.sentiment,
        "confidence" := rec.confidence,
        "output_files" := rec.outputFiles])
  }

  /** How a consumer reads a success record back from the returned dict. */
  function RecordOf(j: Json): Option<Record> {
    if j.JObj? && j.fields.Keys == SuccessKeys && j.fields["success"] == JBool(true) then
      Some(Record(j.fields["transcription"], j.fields["summary"], j.fields["key_points"],
                  j.fields["topics"], j.fields["sentiment"], j.fields["confidence"], j.fields["output_files"]))
    else None
  }

  /** The returned dict carries a success record without loss, and only a success
      reply reads back as a record. */
  lemma ToJsonRoundTrip(reply: Reply<Record>)
    ensures reply.Transcribed? ==> RecordOf(ToJson(reply)) == Some(reply.record)
    ensures !reply.Transcribed? ==> RecordOf(ToJson(reply)) == None
  {
    if !reply.Transcribed? {
      assert "transcription" !in ToJson(reply).fields;
    }
  }

  /** An artifact carrying every field of `rec`, with the enhanced text and
      the full text both set to the record's transcription. */
  function Render(rec: Record): Json {
    JObj(map[
      "transcription" := JObj(map["fullText" := rec.transcription, "confidence" := rec.confidence]),
      "enhancement" := JObj(map[
        "enhancedText" := rec.transcription,
        "summary" := rec.summary,
        "keyPoints" := rec.keyPoints,
        "topics" := rec.topics,
        "sentiment" := rec.sentiment]),
      "metadata" := JObj(map["processingOptions" := JObj(map["outputFiles" := rec.outputFiles])])])
  }

  /** Normalisation loses nothing from an artifact that carries every field. */
  lemma NormaliseRenderRoundTrip(rec: Record)
    ensures Normalise(Render(rec)) == Success(rec)
  {
  }

  /** The transcription is the enhanced text when that is truthy; otherwise the
      full text, or `''` when the full text is absent. An empty enhanced text
      therefore falls back to the full text. */
  lemma TranscriptionChoice(doc: Json)
    requires Shaped(doc)
    ensures var enhanced := Lookup(Section(doc, "enhancement"), "enhancedText", JNull);
            var transcription := Section(doc, "transcription");
            && (Truthy(enhanced) ==> Normalise(doc).value.transcription == enhanced)
            && (!Truthy(enhanced) && "fullText" in transcription.fields ==>
                  Normalise(doc).value.transcription == transcription.fields["fullText"])
            && (!Truthy(enhanced) && "fullText" !in transcription.fields ==>
                  Normalise(doc).value.transcription == JStr(""))
  {
  }

  /** Each field is copied from the artifact when present and otherwise takes
      its default: summary `''`, key points and topics `[]`, sentiment
      `'neutral'`, confidence `0`, and output files `[]` when
      `metadata.processingOptions.outputFiles` is absent. */
  lemma FieldsOrDefaults(doc: Json)
    requires Shaped(doc)
    ensures var rec := Normalise(doc).value;
            var enhancement := Section(doc, "enhancement").fields;
            var transcription := Section(doc, "transcription").fields;
            var options := Section(Section(doc, "metadata"), "processingOptions").fields;
            && rec.summary == (if "summary" in enhancement then enhancement["summary"] else JStr(""))
            && rec.keyPoints == (if "keyPoints" in enhancement then enhancement["keyPoints"] else JArr([]))
            && rec.topics == (if "topics" in enhancement then enhancement["topics"] else JArr([]))
            && rec.sentiment == (if "sentiment" in enhancement then enhancement["sentiment"] else JStr("neutral"))
            && rec.confidence == (if "confidence" in transcription then transcription["confidence"] else JInt(0))
            && rec.outputFiles == (if "outputFiles" in options then options["outputFiles"] else JArr([]))
  {
  }

  /** A missing or empty `video_path` yields exactly `{"error": "video_path is required"}`
      whatever the environment would have done: no command is run. */
  lemma MissingVideoPathRejected(agentPath: string, data: map<string, Json>, env: Env)
    requires "video_path" !in data || data["video_path"] == JStr("")
    ensures ToJson(Run(agentPath, Success(JObj(data)), env)) == JObj(map["error" := JStr(MissingVideoPath)])
  {
    assert !Truthy(Lookup(JObj(data), "video_path", JNull));
    assert Run(agentPath, Success(JObj(data)), env) == InputRejected;
  }

  /** With only a video path given, the command uses format `json` and requests enhancement. */
  lemma InputDefaults(agentPath: string, videoPath: string, env: Env)
    requires videoPath != ""
    ensures Run(agentPath, Success(JObj(map["video_path" := JStr(videoPath)])), env)
            == Invoke(Argv(Request(Paths.Join(agentPath, Script), videoPath, DefaultFormat, true)),
                      agentPath, env, Normalise)
  {
    var data := JObj(map["video_path" := JStr(videoPath)]);
    assert Lookup(data, "video_path", JNull) == JStr(videoPath);
    assert Lookup(data, "output_format", JStr(DefaultFormat)) == JStr(DefaultFormat);
    assert Lookup(data, "enhance", JBool(true)) == JBool(true);
  }

  /** Input that does not decode is reported with the decoder's message, never raised. */
  lemma UndecodableInputReported(agentPath: string, message: string, env: Env)
    ensures ToJson(Run(agentPath, Failure(message), env))
            == JObj(map["success" := JBool(false), "error" := JStr(message)])
  {
  }

  /** The worked example of an enhanced artifact: the enhanced text, summary,
      key points, topics and sentiment come from the enhancement section, the
      confidence from the transcription section, and the output files default. */
  lemma EnhancedArtifactExample()
    ensures Normalise(JObj(map[
              "transcription" := JObj(map["fullText" := JStr("hello world"), "confidence" := JFloat(9, -1)]),
              "enhancement" := JObj(map["enhancedText" := JStr("Hello, world."), "summary" := JStr("greeting")])]))
            == Success(Record(JStr("Hello, world."), JStr("greeting"), JArr([]), JArr([]),
                              JStr("neutral"), JFloat(9, -1), JArr([])))
  {
  }
}
