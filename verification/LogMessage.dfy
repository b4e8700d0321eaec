// log::Message and its JSON tree: serialize and synthetize through nested
// templates, with the optional exception info behind a set/data wrapper
// (src/log/message.cpp, inc/lesf/log/message.h).
module LogMessage {
  import opened Wrappers
  import opened TimePoint
  import T = Template

  // Message::Type; any int may arrive.
  const UNKNOWN := -2

  datatype BuildInfo = BuildInfo(
    file: string, line: int, func: string, buildDate: string, buildTime: string,
    userBuildId: string, userProgram: string, userVersion: string)

  datatype ProcessInfo = ProcessInfo(process: string, pid: int)

  datatype ExceptionInfo = ExceptionInfo(what: string, rttiType: string, buildInfo: BuildInfo, trace: string)

  datatype Message = Message(
    kind: int, buildInfo: BuildInfo, processInfo: ProcessInfo, time: int64, text: string,
    exceptionInfo: Option<ExceptionInfo>)

  const NO_BUILD_INFO := BuildInfo("", 0, "", "", "", "", "", "")
  const NO_PROCESS_INFO := ProcessInfo("", 0)

  // ----- The template builders -----

  function BuildInfoTemplate(b: BuildInfo): T.Template {
    [T.Bind("file", T.Str(b.file)), T.Bind("line", T.Int(b.line)), T.Bind("function", T.Str(b.func)),
     T.Bind("build_date", T.Str(b.buildDate)), T.Bind("build_time", T.Str(b.buildTime)),
     T.Bind("user_build_id", T.Str(b.userBuildId)), T.Bind("user_program", T.Str(b.userProgram)),
     T.Bind("user_version", T.Str(b.userVersion))]
  }

  function ProcessInfoTemplate(p: ProcessInfo): T.Template {
    [T.Bind("process", T.Str(p.process)), T.Bind("pid", T.Int(p.pid))]
  }

  function ExceptionInfoTemplate(e: ExceptionInfo): T.Template {
    [T.Bind("what", T.Str(e.what)), T.Bind("rtti_type", T.Str(e.rttiType)),
     T.Bind("build_info", T.Sub(BuildInfoTemplate(e.buildInfo))), T.Bind("trace", T.Str(e.trace))]
  }

  // M_jsonTemplate with the wrapper bound last.
  function MessageTemplate(m: Message, wrapper: T.Template): T.Template {
    [T.Bind("type", T.Int(m.kind)), T.Bind("build_info", T.Sub(BuildInfoTemplate(m.buildInfo))),
     T.Bind("process_info", T.Sub(ProcessInfoTemplate(m.processInfo))), T.Bind("time", T.Time(m.time)),
     T.Bind("message", T.Str(m.text)), T.Bind("exception_info", T.Sub(wrapper))]
  }

  // What synthetize binds at first: the flag alone.
  function FlagWrapper(present: bool): T.Template {
    [T.Bind("set", T.Bool(present))]
  }

  // What serialize binds: the flag, and the data if there is any.
  function FullWrapper(e: Option<ExceptionInfo>): T.Template {
    FlagWrapper(e.Some?) + if e.Some? then [T.Bind("data", T.Sub(ExceptionInfoTemplate(e.value)))] else []
  }

  function Serialize(m: Message): T.Json {
    T.JObject(T.Synthetize(MessageTemplate(m, FullWrapper(m.exceptionInfo))))
  }

  // ----- Reading the members back from an extracted template -----

  function StrAt(t: T.Template, i: nat): string {
    if i < |t| && t[i].field.Str? then t[i].field.s else ""
  }

  function IntAt(t: T.Template, i: nat): int {
    if i < |t| && t[i].field.Int? then t[i].field.i else 0
  }

  function BoolAt(t: T.Template, i: nat): bool {
    i < |t| && t[i].field.Bool? && t[i].field.b
  }

  function TimeAt(t: T.Template, i: nat): int64 {
    if i < |t| && t[i].field.Time? then t[i].field.t else 0
  }

  function SubAt(t: T.Template, i: nat): T.Template {
    if i < |t| && t[i].field.Sub? then t[i].field.tpl else []
  }

  function BuildInfoOf(t: T.Template): BuildInfo {
    BuildInfo(StrAt(t, 0), IntAt(t, 1), StrAt(t, 2), StrAt(t, 3), StrAt(t, 4), StrAt(t, 5), StrAt(t, 6), StrAt(t, 7))
  }

  function ProcessInfoOf(t: T.Template): ProcessInfo {
    ProcessInfo(StrAt(t, 0), IntAt(t, 1))
  }

  function ExceptionInfoOf(t: T.Template): ExceptionInfo {
    ExceptionInfo(StrAt(t, 0), StrAt(t, 1), BuildInfoOf(SubAt(t, 2)), StrAt(t, 3))
  }

  function MessageOf(t: T.Template, e: Option<ExceptionInfo>): Message {
    Message(IntAt(t, 0), BuildInfoOf(SubAt(t, 1)), ProcessInfoOf(SubAt(t, 2)), TimeAt(t, 3), StrAt(t, 4), e)
  }

  const BLANK := Message(UNKNOWN, NO_BUILD_INFO, NO_PROCESS_INFO, 0, "", None)
  const BLANK_EXCEPTION := ExceptionInfo("", "", NO_BUILD_INFO, "")

  // The data node inside the exception info wrapper.
  function ExceptionNode(fields: map<string, T.Json>): Result<map<string, T.Json>, T.JsonError> {
    if "exception_info" !in fields then Failure(T.MissingKey("exception_info"))
    else
      var wrapper := fields["exception_info"];
      if !wrapper.JObject? then Failure(T.WrongNode)
      else if "data" !in wrapper.fields then Failure(T.MissingKey("data"))
      else if !wrapper.fields["data"].JObject? then Failure(T.WrongNode)
      else Success(wrapper.fields["data"].fields)
  }

  // The exception info, when the flag says there is one.
  function ParseException(fields: map<string, T.Json>): Result<ExceptionInfo, T.JsonError> {
    match ExceptionNode(fields)
    case Failure(e) => Failure(e)
    case Success(data) =>
      match T.Extract(T.ShapeOf(ExceptionInfoTemplate(BLANK_EXCEPTION)), data)
      case Failure(e) => Failure(e)
      case Success(d) => Success(ExceptionInfoOf(d))
  }

  // The body of synthetize: extract the message with the flag alone, then the
  // exception info if the flag was set.
  function Parse(node: T.Json): Result<Message, T.JsonError> {
    if !node.JObject? then Failure(T.WrongNode)
    else
      match T.Extract(T.ShapeOf(MessageTemplate(BLANK, FlagWrapper(false))), node.fields)
      case Failure(e) => Failure(e)
      case Success(t) =>
        if !BoolAt(SubAt(t, 5), 0) then Success(MessageOf(t, None))
        else
          match ParseException(node.fields)
          case Failure(e) => Failure(e)
          case Success(info) => Success(MessageOf(t, Some(info)))
  }

  // synthetize never throws: what it cannot read becomes a message of type
  // Unknown that quotes the raw text.
  function Synthetize(node: T.Json, raw: string, what: T.JsonError -> string, now: int64): Message {
    match Parse(node)
    case Success(m) => m
    case Failure(e) =>
      Message(UNKNOWN, NO_BUILD_INFO, NO_PROCESS_INFO, now,
              "<log message synthesis failed: " + what(e) + ">\nraw data: " + raw, None)
  }

  // ----- The round trip -----

  // The types of the bound members do not depend on their values.
  lemma ExceptionShape(e: ExceptionInfo)
    ensures T.ShapeOf(ExceptionInfoTemplate(e)) == T.ShapeOf(ExceptionInfoTemplate(BLANK_EXCEPTION))
  {
    BuildInfoShape(e.buildInfo);
    T.ShapeAt(ExceptionInfoTemplate(e));
    T.ShapeAt(ExceptionInfoTemplate(BLANK_EXCEPTION));
  }

  lemma ProcessInfoShape(p: ProcessInfo)
    ensures T.ShapeOf(ProcessInfoTemplate(p)) == T.ShapeOf(ProcessInfoTemplate(NO_PROCESS_INFO))
  {
    T.ShapeAt(ProcessInfoTemplate(p));
    T.ShapeAt(ProcessInfoTemplate(NO_PROCESS_INFO));
  }

  lemma FlagShape(present: bool)
    ensures T.ShapeOf(FlagWrapper(present)) == T.ShapeOf(FlagWrapper(false))
  {
    T.ShapeAt(FlagWrapper(present));
    T.ShapeAt(FlagWrapper(false));
  }

  lemma MessageShape(m: Message, present: bool)
    ensures T.ShapeOf(MessageTemplate(m, FlagWrapper(present)))
            == T.ShapeOf(MessageTemplate(BLANK, FlagWrapper(false)))
  {
    BuildInfoShape(m.buildInfo);
    ProcessInfoShape(m.processInfo);
    FlagShape(present);
    var a, b := MessageTemplate(m, FlagWrapper(present)), MessageTemplate(BLANK, FlagWrapper(false));
    T.ShapeAt(a);
    T.ShapeAt(b);
    forall i | 0 <= i < |a| ensures T.ShapeOf(a)[i] == T.ShapeOf(b)[i] {
      assert a[i].key == b[i].key && T.KindOf(a[i].field) == T.KindOf(b[i].field);
    }
  }

  lemma BuildInfoShape(b: BuildInfo)
    ensures T.ShapeOf(BuildInfoTemplate(b)) == T.ShapeOf(BuildInfoTemplate(NO_BUILD_INFO))
  {
    T.ShapeAt(BuildInfoTemplate(b));
    T.ShapeAt(BuildInfoTemplate(NO_BUILD_INFO));
  }

  lemma BuildInfoKeysDistinct(b: BuildInfo)
    ensures T.Distinct(BuildInfoTemplate(b))
  {}

  lemma WrapperKeysDistinct(e: Option<ExceptionInfo>)
    ensures T.Distinct(FullWrapper(e))
  {
    if e.Some? {
      BuildInfoKeysDistinct(e.value.buildInfo);
      assert T.Distinct(ExceptionInfoTemplate(e.value));
    }
  }

  lemma KeysDistinct(m: Message)
    ensures T.Distinct(MessageTemplate(m, FullWrapper(m.exceptionInfo)))
  {
    BuildInfoKeysDistinct(m.buildInfo);
    assert T.Distinct(ProcessInfoTemplate(m.processInfo));
    WrapperKeysDistinct(m.exceptionInfo);
  }

  // The object of a message holds the members of its template, and still does
  // if only the flag is bound in the wrapper.
  lemma ObjectCovers(m: Message)
    ensures var obj := Serialize(m).fields;
      && T.Covers(obj, MessageTemplate(m, FlagWrapper(m.exceptionInfo.Some?)))
      && (m.exceptionInfo.Some? ==>
            && ExceptionNode(obj).Success?
            && T.Covers(ExceptionNode(obj).value, ExceptionInfoTemplate(m.exceptionInfo.value)))
  {
    var obj := Serialize(m).fields;
    var full := MessageTemplate(m, FullWrapper(m.exceptionInfo));
    KeysDistinct(m);
    T.SynthetizedCovers(full);
    assert full[5].key in obj && T.CoversField(obj[full[5].key], full[5].field);
    var wrapper := obj["exception_info"].fields;
    assert T.Covers(wrapper, FullWrapper(m.exceptionInfo));
    assert FullWrapper(m.exceptionInfo)[0] == FlagWrapper(m.exceptionInfo.Some?)[0];
    assert T.Covers(wrapper, FlagWrapper(m.exceptionInfo.Some?));
    var short := MessageTemplate(m, FlagWrapper(m.exceptionInfo.Some?));
    forall i | 0 <= i < |short|
      ensures short[i].key in obj && T.CoversField(obj[short[i].key], short[i].field)
    {
      assert i != 5 ==> short[i] == full[i];
    }
    if m.exceptionInfo.Some? {
      assert FullWrapper(m.exceptionInfo)[1] == T.Bind("data", T.Sub(ExceptionInfoTemplate(m.exceptionInfo.value)));
    }
  }

  // ----- Exactly which trees are accepted -----

  // The tree holds the members of m, among whatever other keys: the flag in
  // the wrapper, and the data beside it if the flag is set.
  predicate Accepts(node: T.Json, m: Message) {
    && node.JObject?
    && T.Covers(node.fields, MessageTemplate(m, FlagWrapper(m.exceptionInfo.Some?)))
    && (m.exceptionInfo.Some? ==>
          && ExceptionNode(node.fields).Success?
          && T.Covers(ExceptionNode(node.fields).value, ExceptionInfoTemplate(m.exceptionInfo.value)))
  }

  // A template of the right shape is that of the members read from it.
  lemma {:induction false} BuildInfoBack(t: T.Template)
    requires T.ShapeOf(t) == T.ShapeOf(BuildInfoTemplate(NO_BUILD_INFO))
    ensures t == BuildInfoTemplate(BuildInfoOf(t))
  {
    T.SameShapeAt(t, BuildInfoTemplate(NO_BUILD_INFO));
  }

  lemma {:induction false} ProcessInfoBack(t: T.Template)
    requires T.ShapeOf(t) == T.ShapeOf(ProcessInfoTemplate(NO_PROCESS_INFO))
    ensures t == ProcessInfoTemplate(ProcessInfoOf(t))
  {
    T.SameShapeAt(t, ProcessInfoTemplate(NO_PROCESS_INFO));
  }

  lemma {:induction false} FlagBack(t: T.Template)
    requires T.ShapeOf(t) == T.ShapeOf(FlagWrapper(false))
    ensures t == FlagWrapper(BoolAt(t, 0))
  {
    T.SameShapeAt(t, FlagWrapper(false));
  }

  lemma {:induction false} ExceptionBack(t: T.Template)
    requires T.ShapeOf(t) == T.ShapeOf(ExceptionInfoTemplate(BLANK_EXCEPTION))
    ensures t == ExceptionInfoTemplate(ExceptionInfoOf(t))
  {
    var blank := ExceptionInfoTemplate(BLANK_EXCEPTION);
    T.SameShapeAt(t, blank);
    assert T.KindOf(t[2].field) == T.KindOf(blank[2].field);
    BuildInfoBack(SubAt(t, 2));
  }

  // The three nested templates of a message.
  lemma {:induction false} PartsBack(t: T.Template)
    requires T.ShapeOf(t) == T.ShapeOf(MessageTemplate(BLANK, FlagWrapper(false)))
    ensures |t| == 6
    ensures t[1] == T.Bind("build_info", T.Sub(BuildInfoTemplate(BuildInfoOf(SubAt(t, 1)))))
    ensures t[2] == T.Bind("process_info", T.Sub(ProcessInfoTemplate(ProcessInfoOf(SubAt(t, 2)))))
    ensures t[5] == T.Bind("exception_info", T.Sub(FlagWrapper(BoolAt(SubAt(t, 5), 0))))
  {
    var blank := MessageTemplate(BLANK, FlagWrapper(false));
    T.SameShapeAt(t, blank);
    assert T.KindOf(t[1].field) == T.KindOf(blank[1].field);
    BuildInfoBack(SubAt(t, 1));
    assert T.KindOf(t[2].field) == T.KindOf(blank[2].field);
    ProcessInfoBack(SubAt(t, 2));
    assert T.KindOf(t[5].field) == T.KindOf(blank[5].field);
    FlagBack(SubAt(t, 5));
  }

  lemma {:induction false} MessageBack(t: T.Template, e: Option<ExceptionInfo>)
    requires T.ShapeOf(t) == T.ShapeOf(MessageTemplate(BLANK, FlagWrapper(false)))
    ensures t == MessageTemplate(MessageOf(t, e), FlagWrapper(BoolAt(SubAt(t, 5), 0)))
  {
    PartsBack(t);
    T.SameShapeAt(t, MessageTemplate(BLANK, FlagWrapper(false)));
  }

  // Extraction with the flag alone, in both directions.
  lemma ExtractMessage(obj: map<string, T.Json>, m: Message, present: bool)
    ensures T.Extract(T.ShapeOf(MessageTemplate(BLANK, FlagWrapper(false))), obj)
              == Success(MessageTemplate(m, FlagWrapper(present)))
            <==> T.Covers(obj, MessageTemplate(m, FlagWrapper(present)))
  {
    MessageShape(m, present);
    T.ExtractExact(obj, MessageTemplate(m, FlagWrapper(present)));
  }

  lemma ParseExceptionExact(fields: map<string, T.Json>, e: ExceptionInfo)
    ensures ParseException(fields) == Success(e)
            <==> ExceptionNode(fields).Success? && T.Covers(ExceptionNode(fields).value, ExceptionInfoTemplate(e))
  {
    if ExceptionNode(fields).Success? {
      var data := ExceptionNode(fields).value;
      var shape := T.ShapeOf(ExceptionInfoTemplate(BLANK_EXCEPTION));
      ExceptionShape(e);
      T.ExtractExact(data, ExceptionInfoTemplate(e));
      if T.Extract(shape, data).Success? {
        T.ExtractKeepsShape(shape, data);
        ExceptionBack(T.Extract(shape, data).value);
      }
      ExceptionMembersBack(e);
    }
  }

  // ----- The tree in figures -----

  function BuildInfoTree(b: BuildInfo): T.Json {
    T.JObject(map[
      "file" := T.JString(b.file), "line" := T.JInt(b.line), "function" := T.JString(b.func),
      "build_date" := T.JString(b.buildDate), "build_time" := T.JString(b.buildTime),
      "user_build_id" := T.JString(b.userBuildId), "user_program" := T.JString(b.userProgram),
      "user_version" := T.JString(b.userVersion)])
  }

  function ExceptionTree(e: Option<ExceptionInfo>): T.Json {
    T.JObject(
      if e.None? then map["set" := T.JBool(false)]
      else map["set" := T.JBool(true), "data" := T.JObject(map[
        "what" := T.JString(e.value.what), "rtti_type" := T.JString(e.value.rttiType),
        "build_info" := BuildInfoTree(e.value.buildInfo), "trace" := T.JString(e.value.trace)])])
  }

  function MessageTree(m: Message): T.Json {
    T.JObject(map[
      "type" := T.JInt(m.kind), "build_info" := BuildInfoTree(m.buildInfo),
      "process_info" := T.JObject(map["process" := T.JString(m.processInfo.process),
                                      "pid" := T.JInt(m.processInfo.pid)]),
      "time" := T.JString(TimePoint.Synthetize(m.time)), "message" := T.JString(m.text),
      "exception_info" := ExceptionTree(m.exceptionInfo)])
  }

  lemma BuildInfoAsTree(b: BuildInfo)
    ensures T.SynthetizeField(T.Sub(BuildInfoTemplate(b))) == BuildInfoTree(b)
  {
    var t := BuildInfoTemplate(b);
    T.SynthetizedPrefix(t, 0);
    T.SynthetizedPrefix(t, 1);
    T.SynthetizedPrefix(t, 2);
    T.SynthetizedPrefix(t, 3);
    T.SynthetizedPrefix(t, 4);
    T.SynthetizedPrefix(t, 5);
    T.SynthetizedPrefix(t, 6);
    T.SynthetizedPrefix(t, 7);
  }

  lemma ExceptionDataAsTree(e: ExceptionInfo)
    ensures T.SynthetizeField(T.Sub(ExceptionInfoTemplate(e))) == T.JObject(map[
      "what" := T.JString(e.what), "rtti_type" := T.JString(e.rttiType),
      "build_info" := BuildInfoTree(e.buildInfo), "trace" := T.JString(e.trace)])
  {
    var t := ExceptionInfoTemplate(e);
    T.SynthetizedPrefix(t, 0);
    T.SynthetizedPrefix(t, 1);
    T.SynthetizedPrefix(t, 2);
    T.SynthetizedPrefix(t, 3);
    BuildInfoAsTree(e.buildInfo);
  }

  lemma ExceptionAsTree(e: Option<ExceptionInfo>)
    ensures T.SynthetizeField(T.Sub(FullWrapper(e))) == ExceptionTree(e)
  {
    var t := FullWrapper(e);
    T.SynthetizedPrefix(t, 0);
    if e.Some? {
      T.SynthetizedPrefix(t, 1);
      ExceptionDataAsTree(e.value);
    }
  }

  lemma ProcessInfoAsTree(p: ProcessInfo)
    ensures T.SynthetizeField(T.Sub(ProcessInfoTemplate(p)))
            == T.JObject(map["process" := T.JString(p.process), "pid" := T.JInt(p.pid)])
  {
    var t := ProcessInfoTemplate(p);
    T.SynthetizedPrefix(t, 0);
    T.SynthetizedPrefix(t, 1);
  }

  // A serialized message is exactly this tree: every member under its own key,
  // and nothing else.
  lemma SerializedAs(m: Message)
    ensures Serialize(m) == MessageTree(m)
  {
    var t := MessageTemplate(m, FullWrapper(m.exceptionInfo));
    T.SynthetizedPrefix(t, 0);
    T.SynthetizedPrefix(t, 1);
    T.SynthetizedPrefix(t, 2);
    T.SynthetizedPrefix(t, 3);
    T.SynthetizedPrefix(t, 4);
    T.SynthetizedPrefix(t, 5);
    BuildInfoAsTree(m.buildInfo);
    ProcessInfoAsTree(m.processInfo);
    ExceptionAsTree(m.exceptionInfo);
  }

  // What comes out when the tree cannot be read, in figures.
  lemma FallbackInFigures(node: T.Json, raw: string, what: T.JsonError -> string, now: int64)
    requires Parse(node).Failure?
    ensures Synthetize(node, raw, what, now) ==
      Message(-2, BuildInfo("", 0, "", "", "", "", "", ""), ProcessInfo("", 0), now,
              "<log message synthesis failed: " + what(Parse(node).error) + ">\nraw data: " + raw, None)
  {}

  // And for what reason: no object, a member that cannot be extracted, or
  // exception info that was announced and is not there or cannot be extracted.
  lemma {:induction false} ParseFails(node: T.Json)
    ensures !node.JObject? ==> Parse(node) == Failure(T.WrongNode)
    ensures node.JObject? ==>
      var flagged := T.Extract(T.ShapeOf(MessageTemplate(BLANK, FlagWrapper(false))), node.fields);
      && (flagged.Failure? ==> Parse(node) == Failure(flagged.error))
      && (flagged.Success? && !BoolAt(SubAt(flagged.value, 5), 0) ==> Parse(node).Success?)
      && (flagged.Success? && BoolAt(SubAt(flagged.value, 5), 0) ==>
            FailsAs(Parse(node), if "exception_info" in node.fields then node.fields["exception_info"] else node))
  {
    if node.JObject? {
      FlaggedKeys(node.fields);
    }
  }

  // What reading the exception info behind a set flag comes to.
  predicate FailsAs(r: Result<Message, T.JsonError>, wrapper: T.Json) {
    && wrapper.JObject?
    && if "data" !in wrapper.fields then r == Failure(T.MissingKey("data"))
       else if !wrapper.fields["data"].JObject? then r == Failure(T.WrongNode)
       else
         var d := T.Extract(T.ShapeOf(ExceptionInfoTemplate(BLANK_EXCEPTION)), wrapper.fields["data"].fields);
         if d.Failure? then r == Failure(d.error) else r.Success?
  }

  lemma FlaggedKeys(fields: map<string, T.Json>)
    ensures var flagged := T.Extract(T.ShapeOf(MessageTemplate(BLANK, FlagWrapper(false))), fields);
      flagged.Success? ==> "exception_info" in fields && fields["exception_info"].JObject?
  {
    var shape := T.ShapeOf(MessageTemplate(BLANK, FlagWrapper(false)));
    T.ShapeAt(MessageTemplate(BLANK, FlagWrapper(false)));
    assert shape[5].key == "exception_info" && shape[5].kind.KSub?;
  }

  // Reading the members back gives the message.
  lemma MembersBack(m: Message, wrapper: T.Template)
    ensures MessageOf(MessageTemplate(m, wrapper), m.exceptionInfo) == m
  {}

  lemma ExceptionMembersBack(e: ExceptionInfo)
    ensures ExceptionInfoOf(ExceptionInfoTemplate(e)) == e
  {}

  lemma {:induction false} AcceptedIsParsed(node: T.Json, m: Message)
    requires Accepts(node, m)
    ensures Parse(node) == Success(m)
  {
    ExtractMessage(node.fields, m, m.exceptionInfo.Some?);
    MembersBack(m, FlagWrapper(m.exceptionInfo.Some?));
    if m.exceptionInfo.Some? {
      ParseExceptionExact(node.fields, m.exceptionInfo.value);
    }
  }

  lemma {:induction false} ParsedIsAccepted(node: T.Json, m: Message)
    requires Parse(node) == Success(m)
    ensures Accepts(node, m)
  {
    var shape := T.ShapeOf(MessageTemplate(BLANK, FlagWrapper(false)));
    var t := T.Extract(shape, node.fields).value;
    T.ExtractKeepsShape(shape, node.fields);
    MessageBack(t, m.exceptionInfo);
    ExtractMessage(node.fields, m, m.exceptionInfo.Some?);
    if m.exceptionInfo.Some? {
      ParseExceptionExact(node.fields, m.exceptionInfo.value);
    }
  }

  // Parsing yields a message from exactly the trees that hold its members.
  lemma {:induction false} ParseExact(node: T.Json, m: Message)
    ensures Parse(node) == Success(m) <==> Accepts(node, m)
  {
    if Accepts(node, m) {
      AcceptedIsParsed(node, m);
    }
    if Parse(node) == Success(m) {
      ParsedIsAccepted(node, m);
    }
  }

  // Every message, with or without exception info, is read back as it was
  // serialized.
  lemma MessageRoundTrip(m: Message)
    ensures Parse(Serialize(m)) == Success(m)
  {
    ObjectCovers(m);
    AcceptedIsParsed(Serialize(m), m);
  }

  // Whatever arrives, a reader gets a message: the one the tree holds, or, if
  // it holds none, one of type Unknown that ends in the raw text.
  lemma {:induction false} SynthetizeTotal(node: T.Json, raw: string, what: T.JsonError -> string, now: int64)
    ensures forall m :: Accepts(node, m) ==> Synthetize(node, raw, what, now) == m
    ensures (forall m :: !Accepts(node, m)) ==>
      var m := Synthetize(node, raw, what, now);
      m.kind == UNKNOWN && m.exceptionInfo == None && |raw| <= |m.text| && raw == m.text[|m.text| - |raw|..]
  {
    forall m | Accepts(node, m) ensures Synthetize(node, raw, what, now) == m {
      AcceptedIsParsed(node, m);
    }
    if Parse(node).Success? {
      ParsedIsAccepted(node, Parse(node).value);
    }
  }

  // ----- Step by step, as the code does it -----

  // serialize: bind the members, then the wrapper, then synthetize.
  method SerializeMessage(m: Message) returns (repr: T.Json)
    ensures repr == Serialize(m) == MessageTree(m)
    ensures Parse(repr) == Success(m)
  {
    var tpl: T.Template := [];
    tpl := tpl + [T.Bind("type", T.Int(m.kind))];
    tpl := tpl + [T.Bind("build_info", T.Sub(BuildInfoTemplate(m.buildInfo)))];
    tpl := tpl + [T.Bind("process_info", T.Sub(ProcessInfoTemplate(m.processInfo)))];
    tpl := tpl + [T.Bind("time", T.Time(m.time))];
    tpl := tpl + [T.Bind("message", T.Str(m.text))];
    var wrapper: T.Template := [T.Bind("set", T.Bool(m.exceptionInfo.Some?))];
    if m.exceptionInfo.Some? {
      wrapper := wrapper + [T.Bind("data", T.Sub(ExceptionInfoTemplate(m.exceptionInfo.value)))];
    }
    tpl := tpl + [T.Bind("exception_info", T.Sub(wrapper))];
    assert wrapper == FullWrapper(m.exceptionInfo);
    assert tpl == MessageTemplate(m, FullWrapper(m.exceptionInfo));
    repr := T.JObject(T.Synthetize(tpl));
    MessageRoundTrip(m);
    SerializedAs(m);
  }

  // synthetize: start from a blank message and fill in what is extracted.
  method SynthetizeMessage(node: T.Json, raw: string, what: T.JsonError -> string, now: int64)
    returns (m: Message)
    ensures m == Synthetize(node, raw, what, now)
    ensures forall m0 :: Accepts(node, m0) || node == Serialize(m0) ==> m == m0
    ensures (forall m0 :: !Accepts(node, m0)) ==>
      m.kind == -2 && m.exceptionInfo == None
    ensures Parse(node).Failure? ==>
      m.time == now && m.text == "<log message synthesis failed: " + what(Parse(node).error) + ">\nraw data: " + raw
  {
    SynthetizeTotal(node, raw, what, now);
    forall m0 | node == Serialize(m0) ensures Accepts(node, m0) {
      ObjectCovers(m0);
    }
    m := BLANK;
    var error: T.JsonError;
    if !node.JObject? {
      error := T.WrongNode;
    } else {
      var r := T.Extract(T.ShapeOf(MessageTemplate(m, FlagWrapper(false))), node.fields);
      if r.Success? {
        var t := r.value;
        m := m.(kind := IntAt(t, 0), buildInfo := BuildInfoOf(SubAt(t, 1)));
        m := m.(processInfo := ProcessInfoOf(SubAt(t, 2)), time := TimeAt(t, 3), text := StrAt(t, 4));
        if !BoolAt(SubAt(t, 5), 0) {
          return;
        }
        var info := ParseException(node.fields);
        if info.Success? {
          m := m.(exceptionInfo := Some(info.value));
          return;
        }
        error := info.error;
      } else {
        error := r.error;
      }
    }
    m := Message(UNKNOWN, NO_BUILD_INFO, NO_PROCESS_INFO, now,
                 "<log message synthesis failed: " + what(error) + ">\nraw data: " + raw, None);
  }
}
