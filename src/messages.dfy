/** The chat message shapes of lib/supabase/types.ts and the pair of
    converters between a structured `Message` and the single text column
    of a `messages` row (`convertToDBMessage`, `parseDBMessage`). */
module Messages {
  import opened Basics
  import opened Json

  /** `Message`. `content` is the JavaScript value held by the field: a
      string (`JStr`) or what `typeof` reports as "object" (an object, an
      array or `null`). `toolInvocations` and `annotations` are absent
      (None) or the value the optional field holds. `role` is kept as the
      text it is stored as; the `MessageRole` cast checks nothing. */
  datatype Message = Message(
    id: string,
    chatId: string,
    role: string,
    content: Json,
    createdAt: string,
    toolInvocations: Option<Json>,
    annotations: Option<Json>)

  /** `DatabaseMessage`: a `messages` row, its content always text. */
  datatype DatabaseMessage = DatabaseMessage(
    id: string,
    chatId: string,
    role: string,
    content: string,
    createdAt: string)

  /** `typeof v === 'object'`. */
  predicate IsObjectTyped(v: Json)
  {
    v.JNull? || v.JArr? || v.JObj?
  }

  /** The values the declared type `string | Record<string, unknown>` lets through. */
  predicate IsContent(v: Json)
  {
    v.JStr? || IsObjectTyped(v)
  }

  /** `x?.length` is truthy: a non-empty array (or string). */
  predicate HasLength(x: Option<Json>)
  {
    x.Some? && match x.value
               case JArr(items) => items != []
               case JStr(s) => s != []
               case _ => false
  }

  /** What an optional list field becomes after a trip through the column. */
  function Kept(x: Option<Json>): Option<Json>
  {
    if HasLength(x) then x else None
  }

  /** The `{content, toolInvocations?, annotations?}` object written for
      structured content. */
  function MessageData(m: Message): Json
  {
    JObj([Field("content", m.content)]
         + (if HasLength(m.toolInvocations) then [Field("toolInvocations", m.toolInvocations.value)] else [])
         + (if HasLength(m.annotations) then [Field("annotations", m.annotations.value)] else []))
  }

  /** Each key of `MessageData` reads back its field; absent lists stay absent. */
  lemma MessageDataFields(m: Message)
    ensures MessageData(m).JObj?
    ensures Get(MessageData(m).fields, "content") == Some(m.content)
    ensures Get(MessageData(m).fields, "toolInvocations") == Kept(m.toolInvocations)
    ensures Get(MessageData(m).fields, "annotations") == Kept(m.annotations)
  {
    var c := [Field("content", m.content)];
    var t := if HasLength(m.toolInvocations) then [Field("toolInvocations", m.toolInvocations.value)] else [];
    var a := if HasLength(m.annotations) then [Field("annotations", m.annotations.value)] else [];
    assert MessageData(m).fields == c + t + a;
    GetAppend(c + t, a, "content");
    GetAppend(c + t, a, "toolInvocations");
    GetAppend(c + t, a, "annotations");
    GetAppend(c, t, "content");
    GetAppend(c, t, "toolInvocations");
    GetAppend(c, t, "annotations");
  }

  function ConvertToDBMessage(m: Message): (r: DatabaseMessage)
    requires IsContent(m.content)
    ensures r.id == m.id && r.chatId == m.chatId && r.role == m.role && r.createdAt == m.createdAt
    // a string is stored verbatim
    ensures m.content.JStr? ==> r.content == m.content.s
    // structured content is stored as the JSON text of the message-data object
    ensures IsObjectTyped(m.content) ==> Parse(r.content) == Some(MessageData(m))
  {
    var text := if IsObjectTyped(m.content) then Stringify(MessageData(m)) else m.content.s;
    ParseStringify(MessageData(m));
    DatabaseMessage(m.id, m.chatId, m.role, text, m.createdAt)
  }

  /** The stored text parses to an object that has a `content` key. */
  predicate IsMessageData(text: string)
  {
    var p := Parse(text);
    p.Some? && p.value.JObj? && HasKey(p.value.fields, "content")
  }

  function ParseDBMessage(db: DatabaseMessage): (r: Message)
    ensures r.id == db.id && r.chatId == db.chatId && r.role == db.role && r.createdAt == db.createdAt
    // text that is not JSON, or JSON without a `content` key, comes back as the raw string
    ensures !IsMessageData(db.content)
            ==> r.content == JStr(db.content) && r.toolInvocations.None? && r.annotations.None?
    // otherwise the three fields are read out of the object
    ensures IsMessageData(db.content)
            ==> var fields := Parse(db.content).value.fields;
                Some(r.content) == Get(fields, "content")
                && r.toolInvocations == Get(fields, "toolInvocations")
                && r.annotations == Get(fields, "annotations")
  {
    if IsMessageData(db.content) then
      var fields := Parse(db.content).value.fields;
      Message(db.id, db.chatId, db.role, Get(fields, "content").value, db.createdAt,
              Get(fields, "toolInvocations"), Get(fields, "annotations"))
    else
      Message(db.id, db.chatId, db.role, JStr(db.content), db.createdAt, None, None)
  }

  /** Structured content survives a trip through the column, with its tool
      invocations and annotations; empty lists come back absent. */
  lemma RoundTripStructured(m: Message)
    requires IsObjectTyped(m.content)
    ensures ParseDBMessage(ConvertToDBMessage(m))
            == m.(toolInvocations := Kept(m.toolInvocations), annotations := Kept(m.annotations))
  {
    MessageDataFields(m);
    var db := ConvertToDBMessage(m);
    assert Get(MessageData(m).fields, "content").Some?;
    assert IsMessageData(db.content);
  }

  /** String content survives the trip unless it is itself message-data
      JSON; tool invocations and annotations of a string message are
      never written, so they come back absent. */
  lemma RoundTripText(m: Message)
    requires m.content.JStr? && !IsMessageData(m.content.s)
    ensures ParseDBMessage(ConvertToDBMessage(m)) == m.(toolInvocations := None, annotations := None)
  {
  }

  /** A string whose text is message-data JSON is read back as the inner
      content, not as the string that was stored. */
  lemma TextThatLooksLikeData()
    ensures var s := Stringify(JObj([Field("content", JStr("hi"))]));
            var m := Message("m1", "c1", "user", JStr(s), "t", None, None);
            ParseDBMessage(ConvertToDBMessage(m)).content == JStr("hi") != JStr(s)
  {
    var v := JObj([Field("content", JStr("hi"))]);
    var s := Stringify(v);
    ParseStringify(v);
    assert Get(v.fields, "content") == Some(JStr("hi"));
    assert IsMessageData(s);
    assert s[0] == '{';
  }

  /** A row whose text is not message data is written back unchanged. */
  lemma RowRoundTrip(db: DatabaseMessage)
    requires !IsMessageData(db.content)
    ensures ConvertToDBMessage(ParseDBMessage(db)) == db
  {
  }

  // ------------------------------------------------------------ typed parts

  datatype ToolState = Call | Result

  /** `ToolInvocation`: `args` and `result` are optional. */
  datatype ToolInvocation = ToolInvocation(
    state: ToolState,
    toolCallId: string,
    toolName: string,
    args: Option<Json>,
    result: Option<Json>)

  /** `MessageAnnotation`. */
  datatype MessageAnnotation = MessageAnnotation(messageIdFromServer: Option<string>)

  /** An optional property: `JSON.stringify` drops it when it is undefined. */
  function OptionalField(key: string, v: Option<Json>): seq<Field>
  {
    if v.Some? then [Field(key, v.value)] else []
  }

  function StateName(s: ToolState): string
  {
    match s
    case Call => "call"
    case Result => "result"
  }

  /** The three members every tool invocation carries. */
  function ToolHead(t: ToolInvocation): seq<Field>
  {
    [Field("state", JStr(StateName(t.state))), Field("toolCallId", JStr(t.toolCallId)),
     Field("toolName", JStr(t.toolName))]
  }

  function ToolInvocationToJson(t: ToolInvocation): Json
  {
    JObj(ToolHead(t) + OptionalField("args", t.args) + OptionalField("result", t.result))
  }

  function StateFromName(name: string): (r: Option<ToolState>)
    ensures r.Some? ==> StateName(r.value) == name
  {
    if name == "call" then Some(Call)
    else if name == "result" then Some(Result)
    else None
  }

  /** Reads a tool invocation back; None where the value lacks its shape. */
  function ToolInvocationFromJson(v: Json): Option<ToolInvocation>
  {
    if !v.JObj? then None
    else
      match (Get(v.fields, "state"), Get(v.fields, "toolCallId"), Get(v.fields, "toolName"))
      case (Some(JStr(st)), Some(JStr(id)), Some(JStr(name))) =>
        (match StateFromName(st)
         case None => None
         case Some(state) => Some(ToolInvocation(state, id, name, Get(v.fields, "args"), Get(v.fields, "result"))))
      case _ => None
  }

  lemma ToolHeadFields(t: ToolInvocation)
    ensures Get(ToolHead(t), "state") == Some(JStr(StateName(t.state)))
    ensures Get(ToolHead(t), "toolCallId") == Some(JStr(t.toolCallId))
    ensures Get(ToolHead(t), "toolName") == Some(JStr(t.toolName))
    ensures !HasKey(ToolHead(t), "args") && !HasKey(ToolHead(t), "result")
  {
    var h := ToolHead(t);
    assert h[..2][..1] == [h[0]];
    assert h[..2] == [h[0], h[1]];
  }

  /** Looking past one optional trailing member. */
  lemma GetPastOptional(head: seq<Field>, ka: string, va: Option<Json>, k: string)
    ensures Get(head + OptionalField(ka, va), k)
            == if k == ka && va.Some? then va else Get(head, k)
  {
    GetAppend(head, OptionalField(ka, va), k);
  }

  /** Each key of a written tool invocation reads back its field. */
  lemma ToolInvocationFields(t: ToolInvocation)
    ensures var fs := ToolInvocationToJson(t).fields;
            Get(fs, "state") == Some(JStr(StateName(t.state)))
            && Get(fs, "toolCallId") == Some(JStr(t.toolCallId))
            && Get(fs, "toolName") == Some(JStr(t.toolName))
            && Get(fs, "args") == t.args
            && Get(fs, "result") == t.result
  {
    var head := ToolHead(t);
    var mid := head + OptionalField("args", t.args);
    ToolHeadFields(t);
    GetPastOptional(mid, "result", t.result, "state");
    GetPastOptional(mid, "result", t.result, "toolCallId");
    GetPastOptional(mid, "result", t.result, "toolName");
    GetPastOptional(mid, "result", t.result, "args");
    GetPastOptional(mid, "result", t.result, "result");
    GetPastOptional(head, "args", t.args, "state");
    GetPastOptional(head, "args", t.args, "toolCallId");
    GetPastOptional(head, "args", t.args, "toolName");
    GetPastOptional(head, "args", t.args, "args");
    GetPastOptional(head, "args", t.args, "result");
  }

  lemma ToolInvocationRoundTrip(t: ToolInvocation)
    ensures ToolInvocationFromJson(ToolInvocationToJson(t)) == Some(t)
  {
    ToolInvocationFields(t);
    StateNameRoundTrip(t.state);
  }

  lemma StateNameRoundTrip(s: ToolState)
    ensures StateFromName(StateName(s)) == Some(s)
  {
    assert "result" != "call" by {
      assert "result"[0] != "call"[0];
    }
  }

  function AnnotationToJson(a: MessageAnnotation): Json
  {
    JObj(if a.messageIdFromServer.Some? then [Field("messageIdFromServer", JStr(a.messageIdFromServer.value))] else [])
  }

  function AnnotationFromJson(v: Json): Option<MessageAnnotation>
  {
    if !v.JObj? then None
    else
      match Get(v.fields, "messageIdFromServer")
      case None => Some(MessageAnnotation(None))
      case Some(JStr(id)) => Some(MessageAnnotation(Some(id)))
      case Some(_) => None
  }

  lemma AnnotationRoundTrip(a: MessageAnnotation)
    ensures AnnotationFromJson(AnnotationToJson(a)) == Some(a)
  {
  }

  /** A list written as a JSON array, element by element. */
  function EncodeList<T>(xs: seq<T>, enc: T -> Json): Json
  {
    JArr(seq(|xs|, i requires 0 <= i < |xs| => enc(xs[i])))
  }

  /** A JSON array read element by element; None if any element fails. */
  function DecodeItems<T>(items: seq<Json>, dec: Json -> Option<T>): Option<seq<T>>
  {
    if items == [] then Some([])
    else
      match dec(items[0])
      case None => None
      case Some(x) =>
        match DecodeItems(items[1..], dec)
        case None => None
        case Some(xs) => Some([x] + xs)
  }

  lemma {:induction false} DecodeEncodeList<T>(xs: seq<T>, enc: T -> Json, dec: Json -> Option<T>)
    requires forall i | 0 <= i < |xs| :: dec(enc(xs[i])) == Some(xs[i])
    ensures DecodeItems(EncodeList(xs, enc).items, dec) == Some(xs)
  {
    if xs != [] {
      DecodeEncodeList(xs[1..], enc, dec);
      assert EncodeList(xs, enc).items[1..] == EncodeList(xs[1..], enc).items;
      assert [xs[0]] + xs[1..] == xs;
    }
  }

  /** Typed tool invocations and annotations attached to structured
      content are read back as the same typed lists. */
  lemma TypedPartsRoundTrip(m: Message, ts: seq<ToolInvocation>, as_: seq<MessageAnnotation>)
    requires IsObjectTyped(m.content) && ts != [] && as_ != []
    requires m.toolInvocations == Some(EncodeList(ts, ToolInvocationToJson))
    requires m.annotations == Some(EncodeList(as_, AnnotationToJson))
    ensures var back := ParseDBMessage(ConvertToDBMessage(m));
            back.toolInvocations.Some? && back.annotations.Some?
            && DecodeItems(back.toolInvocations.value.items, ToolInvocationFromJson) == Some(ts)
            && DecodeItems(back.annotations.value.items, AnnotationFromJson) == Some(as_)
  {
    RoundTripStructured(m);
    forall i | 0 <= i < |ts| ensures ToolInvocationFromJson(ToolInvocationToJson(ts[i])) == Some(ts[i]) {
      ToolInvocationRoundTrip(ts[i]);
    }
    forall i | 0 <= i < |as_| ensures AnnotationFromJson(AnnotationToJson(as_[i])) == Some(as_[i]) {
      AnnotationRoundTrip(as_[i]);
    }
    DecodeEncodeList(ts, ToolInvocationToJson, ToolInvocationFromJson);
    DecodeEncodeList(as_, AnnotationToJson, AnnotationFromJson);
  }
}
