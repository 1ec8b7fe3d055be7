/** The write side of db/mutations.ts: the message-content normaliser of
    `saveMessages`, the `saveMessages`, `voteMessage` and `saveDocument`
    table writes, and `mutateQuery`, which turns what a query threw into
    the mutation's outcome and invalidates cache tags only on success.

    The database is a `Store` object whose tables the mutations update in
    place. What the database answers (a failed insert, a lookup error) is
    not computed from the tables: each such answer is a parameter. */
module Mutations {
  import opened Basics
  import opened Json
  import opened DbErrors
  import opened Messages

  // ------------------------------------------------------------ normaliser

  /** `[{type:'text', text}]`, the text-part array stored for plain text. */
  function TextParts(text: string): Json
  {
    JArr([JObj([Field("type", JStr("text")), Field("text", JStr(text))])])
  }

  /** The JSON text of `TextParts(text)`. */
  function Wrap(text: string): string
  {
    Stringify(TextParts(text))
  }

  const ObjectObject := "[object Object]"
  const Unavailable := "Mensaje no disponible"

  /** Starts like a JSON object or array. */
  predicate LooksLikeJson(s: string)
  {
    StartsWith(s, "{") || StartsWith(s, "[")
  }

  /** Text `Parse` accepts as one JSON value. */
  predicate IsJsonText(s: string)
  {
    Parse(s).Some?
  }

  /** The normaliser of `saveMessages`, its tests in the source's order:
      the JSON-looking test runs first, so `'[object Object]'` (which
      starts with `[` and does not parse) is wrapped as it stands and the
      friendly replacement is never reached. `None` is `null`. */
  function Normalise(c: Json): (r: Option<string>)
    requires IsContent(c)
    ensures r.None? <==> c.JNull?
    // every stored text is JSON and starts like an array or an object
    ensures r.Some? ==> IsJsonText(r.value) && LooksLikeJson(r.value)
  {
    match c
    case JArr(_) =>
      StoredArray(c);
      Some(Stringify(c))
    case JObj(_) =>
      StoredArray(TextParts(Stringify(c)));
      Some(Wrap(Stringify(c)))
    case JStr(s) =>
      StoredArray(TextParts(s));
      StoredArray(TextParts(Unavailable));
      if LooksLikeJson(s) then
        if IsJsonText(s) then Some(s) else Some(Wrap(s))
      else if s == ObjectObject then Some(Wrap(Unavailable))
      else Some(Wrap(s))
    case JNull => None
  }

  /** The normaliser with the `'[object Object]'` test placed first, so
      that the friendly replacement text is reachable. */
  function NormaliseCorrected(c: Json): (r: Option<string>)
    requires IsContent(c)
    ensures r.None? <==> c.JNull?
    ensures r.Some? ==> IsJsonText(r.value) && LooksLikeJson(r.value)
  {
    match c
    case JArr(_) =>
      StoredArray(c);
      Some(Stringify(c))
    case JObj(_) =>
      StoredArray(TextParts(Stringify(c)));
      Some(Wrap(Stringify(c)))
    case JStr(s) =>
      StoredArray(TextParts(s));
      StoredArray(TextParts(Unavailable));
      if s == ObjectObject then Some(Wrap(Unavailable))
      else if LooksLikeJson(s) then
        if IsJsonText(s) then Some(s) else Some(Wrap(s))
      else Some(Wrap(s))
    case JNull => None
  }

  /** The text of an array parses and starts with `[`. */
  lemma StoredArray(v: Json)
    requires v.JArr?
    ensures IsJsonText(Stringify(v)) && StartsWith(Stringify(v), "[")
  {
    ParseStringify(v);
    StringifyLead(v);
    assert Stringify(v)[..1] == "[";
  }

  /** `'[object Object]'` is not JSON text. */
  lemma ObjectObjectIsNotJson()
    ensures !IsJsonText(ObjectObject)
  {
    var u := ObjectObject[1..];
    assert u[0] == 'o' && ObjectObject[0] == '[';
    assert ParseToken(u) == None;
    assert ParseValue(u) == None;
    assert ParseItems(u) == None;
    assert ParseArray(ObjectObject) == None;
  }

  /** Normalising stored content again gives it back unchanged. */
  lemma NormaliseIdempotent(c: Json)
    requires IsContent(c) && Normalise(c).Some?
    ensures Normalise(JStr(Normalise(c).value)) == Normalise(c)
  {
  }

  /** The corrected normaliser is idempotent too: its output is never
      `'[object Object]'`, which is not JSON. */
  lemma CorrectedIdempotent(c: Json)
    requires IsContent(c) && NormaliseCorrected(c).Some?
    ensures NormaliseCorrected(JStr(NormaliseCorrected(c).value)) == NormaliseCorrected(c)
  {
    ObjectObjectIsNotJson();
  }

  /** Array content is stored as its own JSON text. */
  lemma ArrayReadsBack(c: Json)
    requires c.JArr?
    ensures Parse(Normalise(c).value) == Some(c)
  {
    ParseStringify(c);
  }

  /** A non-array object is stored as one text part holding its JSON,
      from which the object reads back. */
  lemma ObjectReadsBack(c: Json)
    requires c.JObj?
    ensures Parse(Normalise(c).value) == Some(TextParts(Stringify(c)))
    ensures Parse(Stringify(c)) == Some(c)
  {
    ParseStringify(c);
    ParseStringify(TextParts(Stringify(c)));
  }

  /** A string that starts like JSON and parses is stored unchanged; any
      other string is stored as one text part holding it. */
  lemma StringReadsBack(s: string)
    ensures LooksLikeJson(s) && IsJsonText(s) ==> Normalise(JStr(s)) == Some(s)
    ensures !(LooksLikeJson(s) && IsJsonText(s)) ==> Parse(Normalise(JStr(s)).value) == Some(TextParts(s))
  {
    if LooksLikeJson(s) && IsJsonText(s) {
      assert Normalise(JStr(s)) == Some(s);
    } else {
      if s == ObjectObject {
        assert StartsWith(ObjectObject, "[");
      }
      assert Normalise(JStr(s)) == Some(Wrap(s));
      ParseStringify(TextParts(s));
    }
  }

  /** Text with spaces and numbers that `JSON.parse` accepts is kept as
      it stands. */
  lemma SpacedArrayKept()
    ensures Normalise(JStr("[1, 2]")) == Some("[1, 2]")
  {
    var one := Numeral(false, "1", "", "");
    var two := Numeral(false, "2", "", "");
    ReadDigit("1, 2]", ", 2]");
    ReadDigit("2]", "]");
    assert ["1, 2]"[0]] == "1" && ["2]"[0]] == "2";
    assert SkipWs(" 2]") == "2]";
    assert ParseValue(" 2]") == Some((JNum(two), "]"));
    ParseItemsLast(" 2]", JNum(two), "]");
    assert ", 2]"[1..] == " 2]";
    ParseItemsMore("1, 2]", JNum(one), ", 2]", [JNum(two)], []);
    assert [JNum(one)] + [JNum(two)] == [JNum(one), JNum(two)];
    assert "[1, 2]"[1..] == "1, 2]";
    TokenArray("[1, 2]", [JNum(one), JNum(two)], []);
    assert IsJsonText("[1, 2]");
    assert StartsWith("[1, 2]", "[");
  }

  /** A one-digit number followed by a character that ends it. */
  lemma ReadDigit(s: string, rest: string)
    requires |s| >= 2 && '1' <= s[0] <= '9' && s[1..] == rest
    requires rest[0] == ',' || rest[0] == ']'
    ensures ParseValue(s) == Some((JNum(Numeral(false, [s[0]], "", "")), rest))
  {
    assert LeadDigits(rest) == 0;
    assert LeadDigits(s) == 1;
    assert s[..1] == [s[0]];
    assert ScanWhole(s) == Some(([s[0]], rest));
    assert ParseNumber(s) == Some((Numeral(false, [s[0]], "", ""), rest));
  }

  /** As written, `'[object Object]'` is stored as a text part saying
      "[object Object]", never as the friendly text. */
  lemma ObjectObjectAsWritten()
    ensures Normalise(JStr(ObjectObject)) == Some(Wrap(ObjectObject))
    ensures Normalise(JStr(ObjectObject)) != Some(Wrap(Unavailable))
  {
    assert StartsWith(ObjectObject, "[");
    ObjectObjectIsNotJson();
    ParseStringify(TextParts(ObjectObject));
    ParseStringify(TextParts(Unavailable));
    assert ObjectObject != Unavailable;
  }

  /** Corrected, `'[object Object]'` is stored as the friendly text. */
  lemma ObjectObjectCorrected()
    ensures NormaliseCorrected(JStr(ObjectObject)) == Some(Wrap(Unavailable))
  {
  }

  /** Outside `'[object Object]'` the two orders agree. */
  lemma NormaliseAgrees(c: Json)
    requires IsContent(c) && c != JStr(ObjectObject)
    ensures Normalise(c) == NormaliseCorrected(c)
  {
  }

  // ------------------------------------------------------------ rows

  /** A row of the `messages` table as `saveMessages` writes it;
      `content` is None for `null`. */
  datatype MessageRow = MessageRow(
    id: string,
    chatId: string,
    role: string,
    content: Option<string>,
    createdAt: int)

  /** A version of a document: a row of the `documents` table. */
  datatype Document = Document(
    id: string,
    title: string,
    content: Option<string>,
    userId: string,
    createdAt: int)

  /** Every content the declared `Message` type admits. */
  predicate AllContent(messages: seq<Message>)
  {
    forall i | 0 <= i < |messages| :: IsContent(messages[i].content)
  }

  /** The rows `saveMessages` inserts. `now` is the clock reading. */
  function FormatMessages(chatId: string, messages: seq<Message>, now: int): (rows: seq<MessageRow>)
    requires AllContent(messages)
    ensures |rows| == |messages|
    ensures forall i | 0 <= i < |rows| ::
              rows[i].id == messages[i].id && rows[i].role == messages[i].role
              && rows[i].chatId == chatId && rows[i].createdAt == now
              && rows[i].content == Normalise(messages[i].content)
  {
    seq(|messages|, i requires 0 <= i < |messages| =>
      MessageRow(messages[i].id, chatId, messages[i].role, Normalise(messages[i].content), now))
  }

  /** Every stored content is `null` or JSON text, and storing it again
      as a string changes nothing. */
  lemma FormattedContentIsStable(chatId: string, messages: seq<Message>, now: int, i: int)
    requires AllContent(messages) && 0 <= i < |messages|
    ensures var c := FormatMessages(chatId, messages, now)[i].content;
            c.None? || (IsJsonText(c.value) && Normalise(JStr(c.value)) == c)
  {
    if Normalise(messages[i].content).Some? {
      NormaliseIdempotent(messages[i].content);
    }
  }

  function ChatTags(chatId: string): seq<string>
  {
    ["chat_" + chatId, "chat_" + chatId + "_messages", "messages"]
  }

  function VoteTags(chatId: string): seq<string>
  {
    ["chat_" + chatId + "_votes", "chat_" + chatId]
  }

  function DocumentTags(id: string): seq<string>
  {
    ["document_" + id, "document_" + id + "_versions", "documents"]
  }

  // ------------------------------------------------------------ mutateQuery

  /** How the promise of a mutation settles. */
  datatype Settled = Resolved | Rejected(error: DbError)

  /** What `mutateQuery` makes of the value its query function threw. */
  function Settle(thrown: Option<DbError>): (s: Settled)
    // no throw, or a "no rows" error the handler swallows, resolves
    ensures s.Resolved? <==> thrown.None? || thrown.value.code == Some(NoRows)
    // an error raised with `new Error` passes through unchanged
    ensures thrown.Some? && thrown.value.code.None? ==> s == Rejected(thrown.value)
  {
    match HandleDatabaseError(thrown)
    case ReturnsNull => Resolved
    case Throws(e) => Rejected(e)
  }

  // ------------------------------------------------------------ saveDocument

  /** The `created_at` of the latest version of document `id` owned by
      `userId` (what the ordered, limited lookup returns), if any. */
  function LatestVersion(docs: seq<Document>, id: string, userId: string): (r: Option<int>)
    ensures r.None? <==> forall i | 0 <= i < |docs| :: !(docs[i].id == id && docs[i].userId == userId)
    ensures r.Some? ==> forall i | 0 <= i < |docs| :: docs[i].id == id && docs[i].userId == userId
                          ==> docs[i].createdAt <= r.value
    ensures r.Some? ==> exists i | 0 <= i < |docs| :: docs[i].id == id && docs[i].userId == userId
                          && docs[i].createdAt == r.value
    decreases |docs|
  {
    if docs == [] then None
    else
      var prev := LatestVersion(docs[..|docs| - 1], id, userId);
      assert forall i | 0 <= i < |docs| - 1 :: docs[..|docs| - 1][i] == docs[i];
      var last := docs[|docs| - 1];
      if !(last.id == id && last.userId == userId) then prev
      else if prev.Some? && prev.value >= last.createdAt then prev
      else Some(last.createdAt)
  }

  /** The timestamp of the new version: one second after the latest one,
      or the clock when there is none. */
  function NextTimestamp(latest: Option<int>, now: int): int
  {
    if latest.Some? then latest.value + 1000 else now
  }

  /** The new version is strictly later than every version the user
      already has of that document. */
  lemma NextTimestampIsLater(docs: seq<Document>, id: string, userId: string, now: int)
    ensures forall i | 0 <= i < |docs| :: docs[i].id == id && docs[i].userId == userId
              ==> docs[i].createdAt < NextTimestamp(LatestVersion(docs, id, userId), now)
  {
  }

  const MaxRetries := 3

  /** The insert answered with a unique violation. */
  predicate IsUniqueViolation(answer: Option<DbError>)
  {
    answer.Some? && answer.value.code == Some(UniqueViolation)
  }

  /** How many inserts the retry loop issues, given the answer to each:
      it goes on only after a unique violation, and at most three times. */
  function InsertAttempts(answer: nat -> Option<DbError>): (n: nat)
    ensures 1 <= n <= MaxRetries
    ensures forall k | 0 <= k < n - 1 :: IsUniqueViolation(answer(k))
    ensures n < MaxRetries ==> !IsUniqueViolation(answer(n - 1))
  {
    if !IsUniqueViolation(answer(0)) then 1
    else if !IsUniqueViolation(answer(1)) then 2
    else 3
  }

  /** The waits before the second and third attempts: 100 ms, then 200 ms. */
  function Backoff(attempts: nat): seq<int>
    requires 1 <= attempts
  {
    seq(attempts - 1, k => 100 * (k + 1))
  }

  /** What the loop throws after the last insert failed. */
  function InsertFailure(e: DbError): DbError
  {
    if e.code == Some(InsufficientPrivilege) then NewError("Unauthorized to create document") else e
  }

  /** An insert refused by row-level security rejects with the
      document-specific message, not with the handler's generic one. */
  lemma UnauthorizedDocument(e: DbError)
    requires e.code == Some(InsufficientPrivilege)
    ensures Settle(Some(InsertFailure(e))) == Rejected(NewError("Unauthorized to create document"))
  {
  }

  /** Three unique violations in a row reject with the handler's message
      for the last one. */
  lemma RetriesExhausted(answer: nat -> Option<DbError>)
    requires IsUniqueViolation(answer(0)) && IsUniqueViolation(answer(1)) && IsUniqueViolation(answer(2))
    ensures InsertAttempts(answer) == MaxRetries
    ensures var s := Settle(Some(InsertFailure(answer(2).value)));
            s.Rejected? && s.error.code.None? && FixedMessage(s.error.message)
  {
  }

  /** How many message rows carry `id`. */
  function CountId(rows: seq<MessageRow>, id: string): nat
  {
    if rows == [] then 0
    else (if rows[0].id == id then 1 else 0) + CountId(rows[1..], id)
  }

  /** The `.single()` lookup of a message by id returns a row: the
      request did not fail and exactly one row has that id. */
  predicate MessageFound(rows: seq<MessageRow>, id: string, lookupFault: Option<DbError>)
  {
    lookupFault.None? && CountId(rows, id) == 1
  }

  // ------------------------------------------------------------ the store

  /** The tables the mutations write and the cache tags invalidated so far
      (in call order). `votes` maps (chat_id, message_id) to `is_upvoted`. */
  class Store {
    var messages: seq<MessageRow>
    var votes: map<(string, string), bool>
    var documents: seq<Document>
    var revalidated: seq<string>

    constructor(messages: seq<MessageRow>, votes: map<(string, string), bool>, documents: seq<Document>)
      ensures this.messages == messages && this.votes == votes && this.documents == documents
      ensures revalidated == []
    {
      this.messages := messages;
      this.votes := votes;
      this.documents := documents;
      revalidated := [];
    }

    /** The settling step of `mutateQuery`, once its query function has
        finished (`thrown` is None) or thrown: tags are revalidated only
        on success. */
    method MutateQuery(thrown: Option<DbError>, tags: seq<string>) returns (s: Settled)
      modifies this`revalidated
      ensures s == Settle(thrown)
      ensures revalidated == if thrown.None? then old(revalidated) + tags else old(revalidated)
    {
      if thrown.None? {
        var i := 0;
        while i < |tags|
          invariant 0 <= i <= |tags|
          invariant revalidated == old(revalidated) + tags[..i]
        {
          revalidated := revalidated + [tags[i]];
          i := i + 1;
        }
        assert tags[..|tags|] == tags;
      }
      s := Settle(thrown);
    }

    /** `saveMessages`; `insertFault` is the error the insert reports. */
    method SaveMessages(chatId: string, batch: seq<Message>, now: int, insertFault: Option<DbError>)
      returns (s: Settled)
      requires AllContent(batch)
      modifies this`messages, this`revalidated
      ensures s == Settle(insertFault)
      ensures insertFault.None? ==> messages == old(messages) + FormatMessages(chatId, batch, now)
                                    && revalidated == old(revalidated) + ChatTags(chatId)
      ensures insertFault.Some? ==> messages == old(messages) && revalidated == old(revalidated)
    {
      var rows := FormatMessages(chatId, batch, now);
      if insertFault.None? {
        messages := messages + rows;
      }
      s := MutateQuery(insertFault, ChatTags(chatId));
    }

    /** `voteMessage`. The message lookup is by id alone through `.single()`,
        so it succeeds only when exactly one row has that id; it does not
        check that the message belongs to `chatId`. `lookupFault` and
        `upsertFault` are the errors those two requests report. */
    method VoteMessage(chatId: string, messageId: string, up: bool,
                       lookupFault: Option<DbError>, upsertFault: Option<DbError>)
      returns (s: Settled)
      modifies this`votes, this`revalidated
      ensures !MessageFound(old(messages), messageId, lookupFault)
              ==> s == Rejected(NewError("Message not found"))
                  && votes == old(votes) && revalidated == old(revalidated)
      ensures MessageFound(old(messages), messageId, lookupFault) && upsertFault.Some?
              ==> s == Settle(upsertFault) && votes == old(votes) && revalidated == old(revalidated)
      ensures MessageFound(old(messages), messageId, lookupFault) && upsertFault.None?
              ==> s == Resolved && votes == old(votes)[(chatId, messageId) := up]
                  && revalidated == old(revalidated) + VoteTags(chatId)
    {
      var thrown: Option<DbError>;
      if !MessageFound(messages, messageId, lookupFault) {
        thrown := Some(NewError("Message not found"));
      } else if upsertFault.Some? {
        thrown := upsertFault;
      } else {
        votes := votes[(chatId, messageId) := up];
        thrown := None;
      }
      s := MutateQuery(thrown, VoteTags(chatId));
    }

    /** `saveDocument`. `lookupFault` is the error of the latest-version
        lookup; `insert(k)` is the error the (k+1)-th insert reports. The
        waits between attempts are returned in `delays` rather than slept. */
    method SaveDocument(id: string, title: string, content: Option<string>, userId: string, now: int,
                        lookupFault: Option<DbError>, insert: nat -> Option<DbError>)
      returns (s: Settled, timestamp: int, attempts: nat, delays: seq<int>)
      modifies this`documents, this`revalidated
      // a lookup error other than "no rows" aborts before any insert
      ensures lookupFault.Some? && lookupFault.value.code != Some(NoRows)
              ==> s == Settle(lookupFault) && attempts == 0
                  && documents == old(documents) && revalidated == old(revalidated)
      ensures lookupFault.None? || lookupFault.value.code == Some(NoRows)
              ==> var latest := if lookupFault.None? then LatestVersion(old(documents), id, userId) else None;
                  && timestamp == NextTimestamp(latest, now)
                  && attempts == InsertAttempts(insert)
                  && delays == Backoff(attempts)
                  && (insert(attempts - 1).None?
                      ==> s == Resolved
                          && documents == old(documents) + [Document(id, title, content, userId, timestamp)]
                          && revalidated == old(revalidated) + DocumentTags(id))
                  && (insert(attempts - 1).Some?
                      ==> s == Settle(Some(InsertFailure(insert(attempts - 1).value)))
                          && documents == old(documents) && revalidated == old(revalidated))
    {
      attempts := 0;
      delays := [];
      timestamp := now;
      if lookupFault.Some? && lookupFault.value.code != Some(NoRows) {
        s := MutateQuery(lookupFault, DocumentTags(id));
        return;
      }
      var latest := if lookupFault.None? then LatestVersion(documents, id, userId) else None;
      timestamp := NextTimestamp(latest, now);
      var retryCount := 0;
      while retryCount < MaxRetries
        invariant retryCount < MaxRetries
        invariant attempts == retryCount
        invariant forall k | 0 <= k < attempts :: IsUniqueViolation(insert(k))
        invariant delays == Backoff(attempts + 1)
        invariant documents == old(documents) && revalidated == old(revalidated)
        decreases MaxRetries - retryCount
      {
        var answer := insert(attempts);
        attempts := attempts + 1;
        if answer.None? {
          documents := documents + [Document(id, title, content, userId, timestamp)];
          s := MutateQuery(None, DocumentTags(id));
          return;
        }
        if answer.value.code == Some(UniqueViolation) {
          retryCount := retryCount + 1;
          if retryCount < MaxRetries {
            delays := delays + [100 * retryCount];
            continue;
          }
        }
        s := MutateQuery(Some(InsertFailure(answer.value)), DocumentTags(id));
        return;
      }
      // every pass through the loop returns or retries below the bound
      assert false;
    }
  }
}
