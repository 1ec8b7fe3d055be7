/** `handleDatabaseError` of lib/supabase/types.ts: the mapping from a
    PostgreSQL SQLSTATE or PostgREST error code to a fixed outcome. */
module DbErrors {
  import opened Basics

  /** A thrown value as the handler sees it. A PostgREST error carries a
      `code`; an `Error` raised by application code has none. (The
      `details` and `hint` fields are never read.) */
  datatype DbError = DbError(code: Option<string>, message: string)

  /** `new Error(message)`. */
  function NewError(message: string): (e: DbError)
    ensures e.code.None? && e.message == message
  {
    DbError(None, message)
  }

  /** What the handler does: return `null`, or throw. */
  datatype Handling = ReturnsNull | Throws(error: DbError)

  const UniqueViolation := "23505"
  const ForeignKeyViolation := "23503"
  const InsufficientPrivilege := "42501"
  const NoRows := "PGRST116"
  const ColumnNotFound := "PGRST204"

  /** The codes the handler recognises. */
  predicate KnownCode(code: string)
  {
    code in {UniqueViolation, ForeignKeyViolation, InsufficientPrivilege, NoRows, ColumnNotFound}
  }

  /** The fixed messages the handler raises in place of a recognised error. */
  predicate FixedMessage(m: string)
  {
    m in {"Message ID already exists", "Chat ID already exists", "Unique constraint violation",
          "Referenced record does not exist", "Unauthorized access", "Invalid column name"}
  }

  function HandleDatabaseError(error: Option<DbError>): (h: Handling)
    // null only for no error and for "no rows"
    ensures h.ReturnsNull? <==> error.None? || error.value.code == Some(NoRows)
    // an unrecognised error (or a plain Error) is rethrown unchanged
    ensures error.Some? && (error.value.code.None? || !KnownCode(error.value.code.value))
            ==> h == Throws(error.value)
    // a recognised error other than "no rows" becomes a fresh Error with a fixed message
    ensures error.Some? && error.value.code.Some? && KnownCode(error.value.code.value)
            && error.value.code != Some(NoRows)
            ==> h.Throws? && h.error.code.None? && FixedMessage(h.error.message)
  {
    if error.None? then ReturnsNull
    else
      var e := error.value;
      if e.code == Some(UniqueViolation) then
        if Includes(e.message, "messages_pkey") then Throws(NewError("Message ID already exists"))
        else if Includes(e.message, "chats_pkey") then Throws(NewError("Chat ID already exists"))
        else Throws(NewError("Unique constraint violation"))
      else if e.code == Some(ForeignKeyViolation) then Throws(NewError("Referenced record does not exist"))
      else if e.code == Some(InsufficientPrivilege) then Throws(NewError("Unauthorized access"))
      else if e.code == Some(NoRows) then ReturnsNull
      else if e.code == Some(ColumnNotFound) then Throws(NewError("Invalid column name"))
      else Throws(e)
  }

  /** A unique violation is told apart by the constraint named in its
      message; the messages table is checked before the chats table. */
  lemma UniqueViolationMessages(msg: string)
    ensures var h := HandleDatabaseError(Some(DbError(Some(UniqueViolation), msg)));
            h.Throws? && h.error.code.None?
            && (Includes(msg, "messages_pkey") ==> h.error.message == "Message ID already exists")
            && (!Includes(msg, "messages_pkey") && Includes(msg, "chats_pkey")
                ==> h.error.message == "Chat ID already exists")
            && (!Includes(msg, "messages_pkey") && !Includes(msg, "chats_pkey")
                ==> h.error.message == "Unique constraint violation")
  {
  }

  /** A message naming both keys is reported as a message-id clash. */
  lemma MessagesKeyFirst()
    ensures HandleDatabaseError(Some(DbError(Some(UniqueViolation), "messages_pkey chats_pkey")))
            == Throws(NewError("Message ID already exists"))
  {
    assert StartsWith("messages_pkey chats_pkey", "messages_pkey");
  }

  /** The remaining recognised codes and their fixed messages. */
  lemma FixedCodeMessages(msg: string)
    ensures HandleDatabaseError(Some(DbError(Some(ForeignKeyViolation), msg)))
            == Throws(NewError("Referenced record does not exist"))
    ensures HandleDatabaseError(Some(DbError(Some(InsufficientPrivilege), msg)))
            == Throws(NewError("Unauthorized access"))
    ensures HandleDatabaseError(Some(DbError(Some(ColumnNotFound), msg)))
            == Throws(NewError("Invalid column name"))
    ensures HandleDatabaseError(Some(DbError(Some(NoRows), msg))) == ReturnsNull
  {
  }

  /** Handling is stable: handling the error it throws again rethrows that
      same error, so a second handler in the chain changes nothing. */
  lemma HandleTwice(error: DbError)
    ensures var h := HandleDatabaseError(Some(error));
            h.Throws? ==> HandleDatabaseError(Some(h.error)) == h
  {
  }
}
