/**
 * The two recording tools of app.py, the registry that dispatch resolves names
 * in, the JSON-schema descriptors advertised to the model, and the push relay
 * the tools report through.
 */
module Tools {
  import opened Wrappers

  /** The push relay, seen only as the log of the texts handed to it. */
  class Outbox {
    ghost var sent: seq<string>

    constructor ()
      ensures sent == []
    {
      sent := [];
    }

    /** One best-effort notification; its delivery is not observed. */
    method Push(text: string)
      modifies this
      ensures sent == old(sent) + [text]
    {
      sent := sent + [text];
    }
  }

  /** The two objects a tool call can produce: `{"recorded": "ok"}` and `{}`. */
  datatype Payload = Recorded | EmptyObject

  /** `json.dumps` of a payload, with Python's default separators. */
  function Dumps(p: Payload): (s: string)
    ensures s == "{}" <==> p == EmptyObject
  {
    match p
    case Recorded => "{\"recorded\": \"ok\"}"
    case EmptyObject => "{}"
  }

  /** What running a tool did: the notifications it pushed, in order, and the object it returned. */
  datatype Execution = Execution(notices: seq<string>, payload: Payload)

  const NameDefault := "Name not provided"
  const NotesDefault := "not provided"
  const RecordingPrefix := "Recording "

  /** `t` stands in `s` at offset `i`. */
  ghost predicate OccursAt(s: string, t: string, i: int)
  {
    0 <= i && i + |t| <= |s| && s[i..i + |t|] == t
  }

  /**
   * `notice` reads "Recording <name> with email <email> and notes <notes>":
   * each part stands at its place, and nothing follows the notes.
   */
  ghost predicate DetailsNotice(notice: string, email: string, name: string, notes: string)
  {
    var head := RecordingPrefix + name + " with email ";
    && OccursAt(notice, head, 0)
    && OccursAt(notice, email, |head|)
    && OccursAt(notice, " and notes " + notes, |head + email|)
    && |notice| == |head + email| + |" and notes " + notes|
  }

  /** The parts fix the whole text: `DetailsNotice` holds of the f-string of app.py and of nothing else. */
  lemma DetailsNoticeIsText(notice: string, email: string, name: string, notes: string)
    ensures DetailsNotice(notice, email, name, notes)
        <==> notice == RecordingPrefix + name + " with email " + email + " and notes " + notes
  {
    var head := RecordingPrefix + name + " with email ";
    var tail := " and notes " + notes;
    assert head + email + " and notes " + notes == head + email + tail;
    if DetailsNotice(notice, email, name, notes) {
      assert notice == notice[..|head|] + notice[|head|..|head + email|] + notice[|head + email|..];
    } else {
      var text := head + email + tail;
      assert text[|head|..][..|email|] == email;
    }
  }

  /** `record_user_details`: one notification naming the user, the email and the notes. */
  function RecordUserDetails(email: string, name: string := NameDefault, notes: string := NotesDefault): (x: Execution)
    ensures x.payload == Recorded && |x.notices| == 1
    ensures DetailsNotice(x.notices[0], email, name, notes)
  {
    var head := RecordingPrefix + name + " with email ";
    var notice := head + email + " and notes " + notes;
    assert notice == head + email + (" and notes " + notes);
    assert notice[|head|..][..|email|] == email;
    Execution([notice], Recorded)
  }

  /** `record_unknown_question`: one notification from which the question reads back verbatim. */
  function RecordUnknownQuestion(question: string): (x: Execution)
    ensures x.payload == Recorded && |x.notices| == 1
    ensures QuestionOf(x.notices[0]) == Some(question)
  {
    Execution([RecordingPrefix + question], Recorded)
  }

  /** The question an unknown-question notification reports, if the text has that form. */
  function QuestionOf(notice: string): (q: Option<string>)
    ensures q.Some? <==> |RecordingPrefix| <= |notice| && notice[..|RecordingPrefix|] == RecordingPrefix
    ensures q.Some? ==> notice == RecordingPrefix + q.value
  {
    if |RecordingPrefix| <= |notice| && notice[..|RecordingPrefix|] == RecordingPrefix then
      Some(notice[|RecordingPrefix|..])
    else
      None
  }

  /** The implementations reachable by name. */
  datatype Tool = UserDetailsTool | UnknownQuestionTool

  /** The dispatch table: the two module-level tool functions, by their Python names. */
  function Resolve(name: string): (tool: Option<Tool>)
    ensures tool.Some? <==> name in {"record_user_details", "record_unknown_question"}
  {
    if name == "record_user_details" then Some(UserDetailsTool)
    else if name == "record_unknown_question" then Some(UnknownQuestionTool)
    else None
  }

  /** The keyword parameters each implementation declares. */
  function Parameters(tool: Tool): set<string>
  {
    match tool
    case UserDetailsTool => {"email", "name", "notes"}
    case UnknownQuestionTool => {"question"}
  }

  /** The parameters without a default value. */
  function Required(tool: Tool): set<string>
  {
    match tool
    case UserDetailsTool => {"email"}
    case UnknownQuestionTool => {"question"}
  }

  /** The `TypeError`s of Python's keyword binding in `tool(**arguments)`. */
  datatype CallError = UnexpectedKeyword | MissingArgument(parameter: string)

  function Lookup(args: map<string, string>, key: string, default: string): string
  {
    if key in args then args[key] else default
  }

  /**
   * `tool(**arguments)`: binding the keywords (an unknown keyword is rejected
   * first, then a missing required one; an omitted optional one takes its
   * default), then running the tool body.
   */
  function Invoke(tool: Tool, args: map<string, string>): (r: Result<Execution, CallError>)
    ensures r.Success? <==> args.Keys <= Parameters(tool) && Required(tool) <= args.Keys
    ensures !(args.Keys <= Parameters(tool)) ==> r == Failure(UnexpectedKeyword)
    ensures args.Keys <= Parameters(tool) && r.Failure? ==>
      r.error.MissingArgument? && r.error.parameter in Required(tool) && r.error.parameter !in args
    ensures r.Success? ==> r.value.payload == Recorded && |r.value.notices| == 1
    ensures r.Success? && tool == UserDetailsTool ==>
      DetailsNotice(r.value.notices[0], args["email"], Lookup(args, "name", NameDefault), Lookup(args, "notes", NotesDefault))
    ensures r.Success? && tool == UnknownQuestionTool ==> QuestionOf(r.value.notices[0]) == Some(args["question"])
  {
    if !(args.Keys <= Parameters(tool)) then Failure(UnexpectedKeyword)
    else
      match tool
      case UserDetailsTool =>
        if "email" !in args then Failure(MissingArgument("email"))
        else if "name" in args && "notes" in args then Success(RecordUserDetails(args["email"], args["name"], args["notes"]))
        else if "name" in args then Success(RecordUserDetails(args["email"], args["name"]))
        else if "notes" in args then Success(RecordUserDetails(args["email"], notes := args["notes"]))
        else Success(RecordUserDetails(args["email"]))
      case UnknownQuestionTool =>
        if "question" !in args then Failure(MissingArgument("question"))
        else Success(RecordUnknownQuestion(args["question"]))
  }

  /** A function descriptor advertised to the model: name, declared properties, required subset. */
  datatype Descriptor = Descriptor(name: string, properties: set<string>, required: set<string>)

  /** The `tools` list sent with every model call (descriptions omitted). */
  const Descriptors: seq<Descriptor> := [
    Descriptor("record_user_details", {"email", "name", "notes"}, {"email"}),
    Descriptor("record_unknown_question", {"question"}, {"question"})
  ]

  /** Arguments valid under a descriptor's schema (`additionalProperties: False`). */
  predicate Conforms(d: Descriptor, args: map<string, string>)
  {
    args.Keys <= d.properties && d.required <= args.Keys
  }
}
