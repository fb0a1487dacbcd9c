/** The AutoGen capability `VideoTranscriptionCapability.transcribe_video`: it
    takes the video path and the enhancement flag directly, always asks for JSON
    output, runs the shared pipeline and normalises strictly: the full text is
    read with subscripts, so a missing section or field is a failure rather than
    a default, and summary and sentiment default to `None`. */
module AutogenCapability {
  import opened Results
  import opened PyJson
  import Paths
  import opened Invocation
  import CrewTool

  const Script := "packages/cli/dist/cli.js"
  const Format := "json"

  /** The success record's fields; there is no confidence and no output files. */
  datatype Record = Record(transcription: Json, summary: Json, keyPoints: Json, topics: Json, sentiment: Json)

  /** The command line for `videoPath`: format always `json`, `--enhance` iff
      `enhance`, which is requested unless the caller says otherwise. */
  function Command(agentPath: string, videoPath: string, enhance: bool := true): (cmd: seq<string>)
    ensures ParseArgv(cmd) == Some(Request(Paths.Join(agentPath, Script), videoPath, Format, enhance))
  {
    var cmd := Argv(Request(Paths.Join(agentPath, Script), videoPath, Format, enhance));
    ArgvRoundTrip(Request(Paths.Join(agentPath, Script), videoPath, Format, enhance));
    cmd
  }

  /** The enhanced text, or JSON null when it is absent. */
  function EnhancedText(doc: Json): Json {
    Lookup(Section(doc, "enhancement"), "enhancedText", JNull)
  }

  /** Every step of the normalisation succeeds: the document and its enhancement
      section are dicts, and unless the enhanced text is truthy the document has
      a `transcription` dict holding `fullText`. */
  predicate Accepted(doc: Json) {
    && doc.JObj?
    && Section(doc, "enhancement").JObj?
    && (|| Truthy(EnhancedText(doc))
        || ("transcription" in doc.fields
            && doc.fields["transcription"].JObj?
            && "fullText" in doc.fields["transcription"].fields))
  }

  /** Map a decoded artifact to the success record: the enhanced text when
      truthy, else `transcription.fullText` read by subscripting. */
  function Normalise(doc: Json): (r: Result<Record, Fault>)
    ensures r.Success? <==> Accepted(doc)
    ensures !doc.JObj? ==> r == Failure(NoAttributeGet(TypeName(doc)))
    ensures doc.JObj? && !Section(doc, "enhancement").JObj? ==>
      r == Failure(NoAttributeGet(TypeName(Section(doc, "enhancement"))))
    ensures doc.JObj? && Section(doc, "enhancement").JObj? && !Truthy(EnhancedText(doc)) ==>
      && ("transcription" !in doc.fields ==> r == Failure(KeyMissing("transcription")))
      && ("transcription" in doc.fields && !doc.fields["transcription"].JObj? ==>
            r == Failure(NotIndexable(TypeName(doc.fields["transcription"]))))
      && ((&& "transcription" in doc.fields
           && doc.fields["transcription"].JObj?
           && "fullText" !in doc.fields["transcription"].fields) ==> r == Failure(KeyMissing("fullText")))
  {
    if !doc.JObj? then Failure(NoAttributeGet(TypeName(doc)))
    else
      var enhancement := Section(doc, "enhancement");
      if !enhancement.JObj? then Failure(NoAttributeGet(TypeName(enhancement)))
      else
        var enhanced := Lookup(enhancement, "enhancedText", JNull);
        // `data['transcription']['fullText']` is evaluated only when the enhanced text is falsy
        var text :=
          if Truthy(enhanced) then Success(enhanced)
          else match Index(doc, "transcription")
               case Failure(f) => Failure(f)
               case Success(transcription) => Index(transcription, "fullText");
        match text
        case Failure(f) => Failure(f)
        case Success(t) =>
          Success(Record(
            transcription := t,
            summary := Lookup(enhancement, "summary", JNull),
            keyPoints := Lookup(enhancement, "keyPoints", JArr([])),
            topics := Lookup(enhancement, "topics", JArr([])),
            sentiment := Lookup(enhancement, "sentiment", JNull)))
  }

  /** `transcribe_video(video_path, enhance=True)` */
  function TranscribeVideo(agentPath: string, env: Env, videoPath: string, enhance: bool := true): (r: Reply<Record>)
    ensures !r.InputRejected?
    ensures var run := env.run(Command(agentPath, videoPath, enhance), agentPath);
            && (run.Failure? ==> r == Failed(Exception(Raised(run.error))))
            && (run.Success? && run.value.returncode != 0 ==> r == Failed(Text(FailureText(run.value.stderr))))
            && (r.Transcribed? ==> run.Success? && run.value.returncode == 0)
    ensures var run := env.run(Command(agentPath, videoPath, enhance), agentPath);
            var dir := OutputDir(agentPath);
            run.Success? && run.value.returncode == 0 ==>
              && (env.listDir(dir).Failure? ==> r == Failed(Exception(Raised(env.listDir(dir).error))))
              && (env.listDir(dir).Success? && !Correlation.HasArtifact(env.listDir(dir).value) ==>
                    r == Failed(Text(FailureText(run.value.stderr))))
              && (env.listDir(dir).Success? ==>
                    forall i ::
                      (Correlation.NewestListed(env.listDir(dir).value, i)
                       && env.load(Paths.Join(dir, env.listDir(dir).value[i].name)).Failure?) ==>
                      r == Failed(Exception(Raised(env.load(Paths.Join(dir, env.listDir(dir).value[i].name)).error))))
    ensures var run := env.run(Command(agentPath, videoPath, enhance), agentPath);
            forall doc :: run.Success? && run.value.returncode == 0 && Produced(env, OutputDir(agentPath), doc) ==>
              r == match Normalise(doc)
                   case Success(record) => Transcribed(record)
                   case Failure(f) => Failed(Exception(f))
    ensures r.Transcribed? ==> exists doc :: Produced(env, OutputDir(agentPath), doc) && Normalise(doc) == Success(r.record)
    ensures r.Failed? && r.error.Text? ==> r.error.text != ""
  {
    Invoke(Command(agentPath, videoPath, enhance), agentPath, env, Normalise)
  }

  /** Without an explicit flag the command asks for enhancement. */
  lemma EnhanceByDefault(agentPath: string, videoPath: string)
    ensures Command(agentPath, videoPath) == Command(agentPath, videoPath, true)
    ensures ParseArgv(Command(agentPath, videoPath)).value.enhance
  {
  }

  const SuccessKeys: set<string> := {"success", "transcription", "summary", "keyPoints", "topics", "sentiment"}

  /** The dict `transcribe_video` returns. */
  function ToJson(reply: Reply<Record>): (j: Json)
    requires !reply.InputRejected?
    ensures j.JObj? && "success" in j.fields
    ensures j.fields["success"] == JBool(reply.Transcribed?)
    ensures "confidence" !in j.fields
    ensures reply.Transcribed? ==> j.fields.Keys == SuccessKeys
    ensures reply.Transcribed? ==>
      && j.fields["transcription"] == reply.record.transcription
      && j.fields["summary"] == reply.record.summary
      && j.fields["keyPoints"] == reply.record.keyPoints
      && j.fields["topics"] == reply.record.topics
      && j.fields["sentiment"] == reply.record.sentiment
    ensures reply.Failed? ==> j.fields.Keys == {"success", "error"} && j.fields["error"] == JStr(reply.error.Render())
  {
    match reply
    case Failed(e) => JObj(map["success" := JBool(false), "error" := JStr(e.Render())])
    case Transcribed(rec) =>
      JObj(map[
        "success" := JBool(true),
        "transcription" := rec.transcription,
        "summary" := rec.summary,
        "keyPoints" := rec.keyPoints,
        "topics" := rec.topics,
        "sentiment" := rec.sentiment])
  }

  /** Every reply is a dict with a `success` key, and a failed one carries an `error`. */
  lemma EveryReplyHasSuccess(agentPath: string, env: Env, videoPath: string, enhance: bool)
    ensures var j := ToJson(TranscribeVideo(agentPath, env, videoPath, enhance));
            && "success" in j.fields
            && (j.fields["success"] == JBool(false) ==> "error" in j.fields)
  {
  }

  /** How a consumer reads a success record back from the returned dict. */
  function RecordOf(j: Json): Option<Record> {
    if j.JObj? && j.fields.Keys == SuccessKeys && j.fields["success"] == JBool(true) then
      Some(Record(j.fields["transcription"], j.fields["summary"], j.fields["keyPoints"],
                  j.fields["topics"], j.fields["sentiment"]))
    else None
  }

  /** The returned dict carries a success record without loss, and only a success
      reply reads back as a record. */
  lemma ToJsonRoundTrip(reply: Reply<Record>)
    requires !reply.InputRejected?
    ensures reply.Transcribed? ==> RecordOf(ToJson(reply)) == Some(reply.record)
    ensures reply.Failed? ==> RecordOf(ToJson(reply)) == None
  {
    if reply.Failed? {
      assert "transcription" !in ToJson(reply).fields;
    }
  }

  /** An artifact carrying every field of `rec`. */
  function Render(rec: Record): Json {
    JObj(map[
      "transcription" := JObj(map["fullText" := rec.transcription]),
      "enhancement" := JObj(map[
        "enhancedText" := rec.transcription,
        "summary" := rec.summary,
        "keyPoints" := rec.keyPoints,
        "topics" := rec.topics,
        "sentiment" := rec.sentiment])])
  }

  /** Normalisation loses nothing from an artifact that carries every field. */
  lemma NormaliseRenderRoundTrip(rec: Record)
    ensures Normalise(Render(rec)) == Success(rec)
  {
  }

  /** The transcription is the enhanced text when that is truthy, and the full
      text otherwise; with a truthy enhanced text the transcription section is
      never consulted. */
  lemma TranscriptionChoice(doc: Json)
    requires doc.JObj? && Section(doc, "enhancement").JObj?
    ensures Truthy(EnhancedText(doc)) ==> Normalise(doc) == Normalise(JObj(doc.fields - {"transcription"}))
    ensures Truthy(EnhancedText(doc)) ==> Normalise(doc).Success? && Normalise(doc).value.transcription == EnhancedText(doc)
    ensures !Truthy(EnhancedText(doc)) && Normalise(doc).Success? ==>
      Normalise(doc).value.transcription == doc.fields["transcription"].fields["fullText"]
  {
    var stripped := JObj(doc.fields - {"transcription"});
    assert Section(stripped, "enhancement") == Section(doc, "enhancement");
  }

  /** Each field is copied from the enhancement section when present; absent
      summary and sentiment are `None`, absent key points and topics are `[]`. */
  lemma FieldsOrDefaults(doc: Json)
    requires Accepted(doc)
    ensures var rec := Normalise(doc).value;
            var enhancement := Section(doc, "enhancement").fields;
            && rec.summary == (if "summary" in enhancement then enhancement["summary"] else JNull)
            && rec.keyPoints == (if "keyPoints" in enhancement then enhancement["keyPoints"] else JArr([]))
            && rec.topics == (if "topics" in enhancement then enhancement["topics"] else JArr([]))
            && rec.sentiment == (if "sentiment" in enhancement then enhancement["sentiment"] else JNull)
  {
  }

  /** Where both scripts accept an artifact they agree on the transcription, the
      key points and the topics, and on the summary and sentiment whenever the
      artifact carries them. */
  lemma AgreesWithCrewTool(doc: Json)
    requires Normalise(doc).Success? && CrewTool.Normalise(doc).Success?
    ensures var a := Normalise(doc).value;
            var c := CrewTool.Normalise(doc).value;
            var enhancement := Section(doc, "enhancement").fields;
            && a.transcription == c.transcription
            && a.keyPoints == c.keyPoints
            && a.topics == c.topics
            && ("summary" in enhancement ==> a.summary == c.summary)
            && ("sentiment" in enhancement ==> a.sentiment == c.sentiment)
  {
  }
}
