# chatbot-ai: persistence rules, validators and gates, in Dafny

This project models the rule-bearing core of the chatbot-ai web
application, a Next.js chat front end over Supabase, and proves properties of
that model. It covers six areas:

- **Message storage** (`Messages`, `DbErrors`, `Json`):
  - `convertToDBMessage` and `parseDBMessage` store a chat message in a
    single text column and read it back.
  - `handleDatabaseError` maps PostgreSQL and PostgREST error codes to fixed
    outcomes.
  - The typed tool-invocation and annotation parts of a message are modelled
    too.
- **Mutations** (`Mutations`):
  - `mutateQuery` revalidates cache tags only after success.
  - The content normaliser of `saveMessages`.
  - `voteMessage`, an upsert keyed by (chat, message).
  - `saveDocument`, which computes a later version timestamp and retries the
    insert at most three times on unique violations.
- **Chat history** (`ChatHistory`): `groupChatsByDate`, which sorts chats into
  five ordered date groups, and the title fallback of a chat item.
- **Forms**:
  - the vehicle form schema (`VehicleForm`);
  - the settings form with its upsert keyed on `user_id` (`Settings`);
  - the admin prompt-configuration page (`PromptConfigPage`);
  - the prompt editor dialog (`PromptForm`) and the prompt list
    (`PromptsList`).
- **Prompt-configuration API** (`PromptConfigRoute`):
  - `GET` serves the single active configuration, and falls back to the
    built-in default in every other case.
  - `POST` checks that the caller is an admin, deactivates the other rows,
    then upserts the posted row.
- **Middleware** (`Middleware`): the session refresh, the admin gate on
  `/config` paths, and the route matcher.

Objects that the source updates in place are Dafny classes with `modifies`
clauses:

- the database tables (`Mutations.Store`, `Settings.SettingsTable`,
  `PromptConfigRoute.ConfigTable`, `PromptForm.PromptsTable`);
- the form components (`Settings.SettingsForm`, `PromptForm.PromptDialog`);
- the prompt list (`PromptsList.PromptsList`).

`groupChatsByDate` and the `saveDocument` retry loop are methods with loops.
Each of these is proved against a specification function. The rest is
functions and lemmas.

Anything outside the code is a parameter. This covers:

- the answer of each database request: an error or none, and the row found;
- the session and the role lookup;
- the current time, and the calendar predicates `isToday` and
  `isYesterday`.

JSON is a value type `Json.Json`, written and read as in RFC 8259:

- It has null, booleans, numbers, strings, arrays and objects. An object is
  an ordered member list. A number is kept as the text it was written with.
- `Json.Stringify` is the compact writer of `JSON.stringify`: `"` and `\`
  are escaped, and control characters use the short escapes or `\u00xx`.
- `Json.Parse` is the reader of `JSON.parse`: whitespace between tokens,
  every escape, numbers, and nothing but whitespace after the value. The
  round trip `Parse(Stringify(v)) == Some(v)` is proved.
- Texts are kept as characters, because the normaliser in `db/mutations.ts`
  branches on whether a stored text starts with `{` or `[`.
- A text counts as JSON when the reader accepts it.

Timestamps are integer milliseconds, except for the prompt editor, which
only passes its timestamps along as text.

Some of what the proofs show:

- A message with structured content comes back from the database with the
  same content. Empty tool-invocation and annotation lists come back as
  absent, and typed parts decode to the same values.
- A plain text that happens to be the JSON of an object with a `content` key
  does not survive storage unchanged (`Messages.TextThatLooksLikeData`).
- Every text the normaliser stores is JSON that begins with `[` or `{`.
  Normalising a stored text again leaves it as it is. The store runs the
  normaliser as written, in which the `'[object Object]'` replacement is
  dead code (see Findings).
- The five chat groups together hold exactly the input chats, each in its
  input order.
- After a successful active save of a configuration, the saved row is the
  only active one, and `GET` serves it.
- If the upsert fails after the deactivation, no row may be left active.
- The `/config` gate is a prefix test on the text, so `/configuration` is
  gated too. The matcher's exclusions are prefixes, so `/apiary` is not
  served either.

Further notes on the source:

- `saveDocument` retries a unique violation with the same timestamp. The
  comment at `db/mutations.ts:232` speaks of a new one.
- The final `throw` at `db/mutations.ts:250` cannot be reached: the third
  failed attempt leaves the loop through one of the throws inside it.
  `Mutations.Store.SaveDocument` proves the loop ends only through them.
- `voteMessage` checks that the message id exists. It does not check that the
  message belongs to the chat being voted in.
- The settings form treats a user with an empty id like no user, because
  `!user?.id` is true for `''`.
- The configuration page posts its form without an id. So every save from it
  adds a new row, and an active save deactivates every other row through the
  `'0'` fallback. A row whose id is `'0'` itself would never be deactivated;
  `PromptConfigRoute.GetAfterActiveSave` requires that no such row exists.

## Model

| member | source | states |
|---|---|---|
| DbErrors.HandleDatabaseError | lib/supabase/types.ts:671-696 | null exactly for no error or code PGRST116; a code-less or unknown-code error is rethrown unchanged; every known code other than PGRST116 throws a fresh code-less error with one of the fixed messages |
| DbErrors.UniqueViolationMessages | lib/supabase/types.ts:677-684 | a 23505 error throws 'Message ID already exists' when the message mentions messages_pkey, else 'Chat ID already exists' when it mentions chats_pkey, else 'Unique constraint violation' |
| DbErrors.MessagesKeyFirst | lib/supabase/types.ts:678-683 | a message naming both keys is reported as a message-id clash: the messages_pkey test comes first |
| DbErrors.FixedCodeMessages | lib/supabase/types.ts:685-692 | 23503, 42501 and PGRST204 throw their fixed messages whatever the error text; PGRST116 returns null |
| DbErrors.HandleTwice | lib/supabase/types.ts:671-696 | handling the error a handling threw throws that same error again |
| Json.Get | lib/supabase/types.ts:750-755 | reading a key of a parsed object: absent exactly when no member has the key, otherwise the value of the last member with that key |
| Json.GetAppend | lib/supabase/types.ts:720-730 | members added after the first override only their own keys and leave every other key as it was |
| Json.StringifyLead | db/mutations.ts:93-95 | written JSON starts with '[' for an array and '{' for an object, and with another character for every other kind |
| Json.LineFeedEscaped | lib/supabase/types.ts:732-747 | a line feed in a string is written as the escape `\n` and read back from it |
| Json.RawLineFeedRejected | lib/supabase/types.ts:747 | a raw line feed inside a string literal makes the text not JSON |
| Json.ParseNumberOf | lib/supabase/types.ts:732-747 | a written number is read back, sign, digits, fraction and exponent, up to the character that ends it |
| Json.ParseStringify | lib/supabase/types.ts:732-747 | reading the JSON text of any value, numbers and control characters included, gives that value back |
| Messages.MessageDataFields | lib/supabase/types.ts:719-732 | the message-data object holds the content under `content`, and toolInvocations and annotations only when they are non-empty |
| Messages.ConvertToDBMessage | lib/supabase/types.ts:715-742 | id, chat_id, role and created_at are copied; string content is stored verbatim; structured content is stored as the JSON text of the message-data object, which reads back as that object |
| Messages.ParseDBMessage | lib/supabase/types.ts:745-774 | total; text that `JSON.parse` rejects, or JSON that is not an object with a `content` key, comes back as the raw string with no parts; otherwise content, toolInvocations and annotations are read out of the object, and the other fields are copied |
| Messages.RoundTripStructured | lib/supabase/types.ts:715-757 | structured content survives storing and reading back; empty tool-invocation and annotation lists come back absent |
| Messages.RoundTripText | lib/supabase/types.ts:715-765 | a string that is not message-data JSON comes back unchanged, with no parts |
| Messages.TextThatLooksLikeData | lib/supabase/types.ts:745-758 | a plain string that is the JSON of `{"content":"hi"}` comes back as "hi", not as itself |
| Messages.RowRoundTrip | lib/supabase/types.ts:715-774 | a stored row whose text is not message data is written back identically after reading |
| Messages.StateFromName | lib/supabase/types.ts:642 | a recognised state name is the name of the state it reads as |
| Messages.StateNameRoundTrip | lib/supabase/types.ts:642 | 'call' and 'result' read back as the states they name |
| Messages.ToolInvocationFields | lib/supabase/types.ts:641-647 | the JSON of a tool invocation carries state, toolCallId and toolName, and args and result exactly when present |
| Messages.ToolInvocationRoundTrip | lib/supabase/types.ts:641-647 | decoding the JSON of a tool invocation gives it back |
| Messages.AnnotationRoundTrip | lib/supabase/types.ts:649-651 | decoding the JSON of an annotation gives it back, with or without messageIdFromServer |
| Messages.DecodeEncodeList | lib/supabase/types.ts:660-661 | a list whose elements decode back decodes back as a whole |
| Messages.TypedPartsRoundTrip | lib/supabase/types.ts:723-755 | non-empty typed tool invocations and annotations are decoded back to the same lists after storing and reading the message |
| Mutations.Normalise | db/mutations.ts:79-115 | the normaliser as written: null content stays null and nothing else does; every stored text is JSON that starts with '[' or '{' |
| Mutations.NormaliseCorrected | db/mutations.ts:79-115 | the normaliser with the '[object Object]' test first: the same guarantees, null exactly for null and JSON starting with '[' or '{' otherwise |
| Mutations.StoredArray | db/mutations.ts:84-85 | the text stored for an array is JSON starting with '[' |
| Mutations.ObjectObjectIsNotJson | db/mutations.ts:93-99 | the text '[object Object]' is not JSON |
| Mutations.NormaliseIdempotent | db/mutations.ts:79-116 | as written, normalising a stored text again leaves it unchanged |
| Mutations.CorrectedIdempotent | db/mutations.ts:79-116 | the corrected normaliser is idempotent too: it never stores '[object Object]' |
| Mutations.ArrayReadsBack | db/mutations.ts:84-85 | array content reads back as the same array |
| Mutations.ObjectReadsBack | db/mutations.ts:86-90 | a non-array object reads back as one text part holding the object's JSON, which itself reads back as the object |
| Mutations.StringReadsBack | db/mutations.ts:93-114 | a string that looks like JSON and parses is stored as it is; any other string, '[object Object]' included, reads back as one text part holding it |
| Mutations.SpacedArrayKept | db/mutations.ts:93-100 | the text '[1, 2]', with a space and numbers, parses and is stored as it stands |
| Mutations.ObjectObjectAsWritten | db/mutations.ts:93-111 | as written, '[object Object]' is stored as a text part holding '[object Object]' and not 'Mensaje no disponible' |
| Mutations.ObjectObjectCorrected | db/mutations.ts:106-111 | with the friendly-text test first, '[object Object]' is stored as the text part 'Mensaje no disponible' |
| Mutations.NormaliseAgrees | db/mutations.ts:79-115 | the corrected normaliser agrees with the code as written on every other content |
| Mutations.FormatMessages | db/mutations.ts:79-124 | one row per message, in order, with the message's id and role, the call's chat id and the content normalised as the code is written |
| Mutations.FormattedContentIsStable | db/mutations.ts:79-124 | the content of every formatted row is null or JSON that the normaliser as written leaves unchanged |
| Mutations.Settle | db/mutations.ts:17-23 | a query resolves exactly when it throws nothing or throws a PGRST116 error; a plain Error is rethrown unchanged |
| Mutations.LatestVersion | db/mutations.ts:195-201 | absent exactly when the user has no version of the document; otherwise the greatest created_at among them, which one of them has |
| Mutations.NextTimestampIsLater | db/mutations.ts:207-212 | the new timestamp is strictly later than every existing version of that document for that user |
| Mutations.InsertAttempts | db/mutations.ts:214-248 | between one and three inserts; every insert but the last failed with 23505; fewer than three means the last did not fail with 23505 |
| Mutations.UnauthorizedDocument | db/mutations.ts:243-245 | a 42501 insert failure rejects the mutation with 'Unauthorized to create document' |
| Mutations.RetriesExhausted | db/mutations.ts:231-247 | three 23505 answers use all three attempts and end in a code-less error with a fixed message |
| Mutations.Store.MutateQuery | db/mutations.ts:12-24 | the outcome is the handled error; tags are revalidated, in order, only when the query does not throw |
| Mutations.Store.SaveMessages | db/mutations.ts:70-132 | on success the rows formatted by the normaliser as written are appended and the chat tags revalidated; on an insert error nothing changes |
| Mutations.Store.VoteMessage | db/mutations.ts:134-179 | a missing message or a failed lookup rejects with 'Message not found' and writes nothing; otherwise the vote of (chat, message) is set to whether it is an up-vote, or the upsert error is handled and nothing changes |
| Mutations.Store.SaveDocument | db/mutations.ts:181-255 | a lookup error other than PGRST116 aborts before any insert; otherwise the version timestamp is the next timestamp, the inserts and waits follow the retry policy, success appends exactly one version and revalidates the document tags, and a final failure changes nothing |
| ChatHistory.Classify | components/custom/chat-history-grouped-list.tsx:88-100 | today first, then yesterday, then strictly after one week ago, then strictly after one month ago, else older |
| ChatHistory.GroupChatsByDate | components/custom/chat-history-grouped-list.tsx:81-112 | each of the five groups is the input's chats of that bucket, in input order |
| ChatHistory.BucketCount | components/custom/chat-history-grouped-list.tsx:86-111 | a group holds each chat as often as the input does if the chat falls in its bucket, else not at all |
| ChatHistory.GroupsPartition | components/custom/chat-history-grouped-list.tsx:86-111 | the five groups together are exactly the input chats, as a multiset |
| ChatHistory.GroupsCount | components/custom/chat-history-grouped-list.tsx:86-111 | the group sizes add up to the number of chats |
| ChatHistory.InBucketAppend | components/custom/chat-history-grouped-list.tsx:86-102 | grouping a concatenation concatenates the groupings |
| ChatHistory.KeepsOrder | components/custom/chat-history-grouped-list.tsx:86-102 | two chats of the same bucket appear in their group in input order |
| ChatHistory.WeekBoundIsStrict | components/custom/chat-history-grouped-list.tsx:94-97 | a chat dated exactly one week ago is not in last week, and is in last month when that bound is later than the month bound |
| ChatHistory.NoChats | components/custom/chat-history-grouped-list.tsx:104-110 | no chats give five empty groups |
| ChatHistory.DisplayTitle | components/custom/chat-history-grouped-list.tsx:61 | a non-empty title is shown as it is; a missing or empty one as 'Nueva conversación' |
| VehicleForm.LeadingDigits | components/custom/vehicle-info-form.tsx:35 | the longest run of digits at the front of the text |
| VehicleForm.ParseInt | components/custom/vehicle-info-form.tsx:35 | `parseInt` without a radix: after blanks and a sign, a `0x` prefix reads hexadecimal digits and otherwise decimal ones; NaN exactly when that run of digits is empty; a negative value needs a leading '-' |
| VehicleForm.ParseIntDigits | components/custom/vehicle-info-form.tsx:35 | an all-digit text parses to its decimal value |
| VehicleForm.HexYearValue | components/custom/vehicle-info-form.tsx:35 | "0x7E4" parses to 2020 |
| VehicleForm.HexPrefixAloneIsNaN | components/custom/vehicle-info-form.tsx:35 | "0x" is NaN |
| VehicleForm.Utf16Length | components/custom/vehicle-info-form.tsx:27-31 | the length `min` and `max` compare counts UTF-16 code units: between one and two per character, and exactly one per digit |
| VehicleForm.ValidIff | components/custom/vehicle-info-form.tsx:26-39 | a vehicle is valid exactly when brand and model are non-empty and the year is four digits whose value lies in [1900, current year + 1] |
| VehicleForm.DefaultsRejected | components/custom/vehicle-info-form.tsx:50-54 | the empty defaults give the brand, model and three year issues, in schema order |
| VehicleForm.LeadingZeroYear | components/custom/vehicle-info-form.tsx:30-38 | "0999" passes the length and digit checks and fails only the range check |
| VehicleForm.HexYearIssues | components/custom/vehicle-info-form.tsx:29-38 | "0x7E4" fails the length and digit checks but passes the range check |
| VehicleForm.SurrogatePairCountsTwo | components/custom/vehicle-info-form.tsx:29-38 | a three-character year with a character past U+FFFF passes both length checks and fails the digit and range checks |
| VehicleForm.AcceptedYearBound | components/custom/vehicle-info-form.tsx:29-38 | an accepted year parses to a value in [1900, current year + 1] and below 10000 |
| Settings.SchemaIssues | app/config/components/settings-form.tsx:31-38 | no issue exactly when the four scales lie in [1, 5]; at most four issues |
| Settings.DefaultsValid | app/config/components/settings-form.tsx:47-53 | the defaults (3, 3, 3, false, 3) satisfy the schema |
| Settings.SettingsRecord | app/config/components/settings-form.tsx:95-102 | the record carries the user's id and the five form values unchanged |
| Settings.UpsertRows | app/config/components/settings-form.tsx:104-106 | the table grows by at most one row, and every row is the saved one or an old one |
| Settings.UpsertKeepsUnique | app/config/components/settings-form.tsx:104-106 | the upsert keeps at most one row per user |
| Settings.UpsertLookup | app/config/components/settings-form.tsx:104-106 | afterwards the user's row is the saved record and every other user's row is as before |
| Settings.UpsertIdempotent | app/config/components/settings-form.tsx:104-106 | saving the same record twice is saving it once |
| Settings.SettingsTable.Upsert | app/config/components/settings-form.tsx:104-106 | the table becomes the upsert of the row and keeps one row per user |
| Settings.SettingsForm.Submit | app/config/components/settings-form.tsx:81-117 | without a user id nothing is written and the save fails; an upsert error fails with nothing written; otherwise the record is upserted into the form's own table, which the form never swaps; loading is off at the end |
| PromptConfigPage.SchemaIssues | app/admin/prompts/page.tsx:40-57 | no issue exactly when the five system scales lie in [1, 5], the language is 'en' or 'es', the three amounts are at least 0, shop options lie in [1, 10] and the buffer in [0, 100] |
| PromptConfigPage.DefaultsValid | app/admin/prompts/page.tsx:66-84 | the page's default values satisfy the schema |
| PromptConfigPage.MinAboveMaxAccepted | app/admin/prompts/page.tsx:50-51 | a minimum quote above the maximum is accepted |
| PromptConfigPage.ResetIgnoresIdentity | app/admin/prompts/page.tsx:87-95 | the form is reset from the loaded system_config, business_rules and is_active only: rows that differ only in id or stamp reset it alike |
| PromptConfigRoute.ActiveRows | app/api/admin/prompt-config/route.ts:46-50 | the active rows, all of them and only them |
| PromptConfigRoute.Get | app/api/admin/prompt-config/route.ts:8-62 | a configuration is served exactly to an admin session, with no error and exactly one active row, and it is that row; every other case gives the default |
| PromptConfigRoute.Deactivate | app/api/admin/prompt-config/route.ts:93-99 | ids are kept; a row stays active exactly when it was active and carries the spared id; rows change in nothing else |
| PromptConfigRoute.FreshId | app/api/admin/prompt-config/route.ts:102-108 | the id generated for a row posted without one is not in the table |
| PromptConfigRoute.UpsertConfig | app/api/admin/prompt-config/route.ts:102-109 | a new id is appended; a known id is replaced in place; other rows are kept and nothing else enters |
| PromptConfigRoute.UpsertConfigUnique | app/api/admin/prompt-config/route.ts:102-109 | the upsert keeps ids unique and the written row is the only one with its id |
| PromptConfigRoute.ActiveSaveLeavesOneActive | app/api/admin/prompt-config/route.ts:93-109 | after an active save the saved row is the only active row |
| PromptConfigRoute.InactiveSaveKeepsOthers | app/api/admin/prompt-config/route.ts:94-110 | an inactive save keeps every row with another id, and adds no row but the saved one |
| PromptConfigRoute.PageSaveAddsRow | app/api/admin/prompt-config/route.ts:102-108 | a body without an id always adds a new row |
| PromptConfigRoute.FailedSaveCanLeaveNoneActive | app/api/admin/prompt-config/route.ts:93-114 | when the upsert fails after the deactivation, the one active row can be left inactive with no active row at all |
| PromptConfigRoute.ConfigTable.Post | app/api/admin/prompt-config/route.ts:64-121 | no session or a non-admin gets 401 and no write; a body that is not JSON gets 500 and no write; otherwise an active body deactivates the others first, then a failed upsert gets 500 and a successful one stores the row and returns it; ids stay unique |
| PromptConfigRoute.GetAfterActiveSave | app/api/admin/prompt-config/route.ts:46-109 | after a successful active save by an admin, GET serves the saved row |
| PromptForm.ParsePromptForm | app/config/components/prompt-form.tsx:33-37 | no issue exactly when name and content are non-empty; is_default reads as false when absent; name and content are kept |
| PromptForm.DefaultsRejected | app/config/components/prompt-form.tsx:65-69 | the empty defaults fail with the name and content messages, in that order |
| PromptForm.EmptyIdInserts | app/config/components/prompt-form.tsx:86 | a prompt whose id is empty is inserted |
| PromptForm.ResubmitUnchanged | app/config/components/prompt-form.tsx:72-95 | saving an edited prompt with the fields it was reset to updates it by its id and changes nothing in its row but updated_at |
| PromptForm.UpdateById | app/config/components/prompt-form.tsx:87-95 | rows with the id take the new name, content, is_default and updated_at; other rows are unchanged; no row is added |
| PromptForm.UpdateMissingIsSilent | app/config/components/prompt-form.tsx:87-97 | updating an id no row has leaves the table as it was, without an error |
| PromptForm.Inserted | app/config/components/prompt-form.tsx:100-104 | the inserted row has a new id and the submitted name, content and is_default |
| PromptForm.PromptDialog.constructor | app/config/components/prompt-form.tsx:63-80 | the fields start at the defaults and are reset from the prompt when there is one |
| PromptForm.PromptDialog.Submit | app/config/components/prompt-form.tsx:82-116 | on a write error nothing changes, onSuccess does not run and the dialog stays as it was; otherwise the update or insert is applied, onSuccess runs once and the dialog closes |
| PromptsList.RemoveId | app/config/components/prompts-list.tsx:49 | no remaining prompt has the id, and every remaining prompt was in the list |
| PromptsList.RemoveIdKeepsOthers | app/config/components/prompts-list.tsx:49 | every prompt with another id remains |
| PromptsList.RemoveIdAppend | app/config/components/prompts-list.tsx:49 | filtering a concatenation concatenates the filters, so relative order is kept |
| PromptsList.RemoveIdIdempotent | app/config/components/prompts-list.tsx:49 | deleting the same id twice is deleting it once |
| PromptsList.BlankPromptInserts | app/config/components/prompts-list.tsx:67-77 | the blank prompt of "Nuevo Prompt" makes the editor insert, with the default field values |
| PromptsList.PromptsList.constructor | app/config/components/prompts-list.tsx:40 | the list starts as initialPrompts; the prop is read only here, so a later render does not reset the list |
| PromptsList.PromptsList.HandleDelete | app/config/components/prompts-list.tsx:42-55 | on a delete error the list and table are unchanged; otherwise the id is filtered out of both |
| Middleware.Handle | middleware.ts:6-29 | the session is refreshed first on every request; outside /config the session response is returned with no lookup; on a /config path only an 'admin' role gets the session response, while a throw from `createClient` (before any lookup), a throw or error from the lookup, no row or another role redirects to '/'; the lookup is made exactly when the client was created |
| Middleware.PrefixGatesLongerNames | middleware.ts:11 | any path beginning with '/config', such as '/configuration', is gated |
| Middleware.Matches | middleware.ts:31-33 | a served path starts with '/' |
| Middleware.MatchesExcludesPrefixes | middleware.ts:31-33 | no served path begins with '/api', '/_next/static' or '/_next/image' |
| Middleware.Serve | middleware.ts:31-33 | the middleware runs exactly for matched paths, and then behaves as above |
| Middleware.ConfigPathsAreServed | middleware.ts:11-33 | every /config path reaches the gate, and makes the role lookup unless `createClient` throws |
| Middleware.ApiLookalikeNotServed | middleware.ts:31-33 | '/apiary' is not served: the exclusion is a prefix test |
| Middleware.FaviconWildcard | middleware.ts:31-33 | '/favicon-ico' is not served: the '.' of the pattern matches any character |

## Left out

- Json.Stringify: a number is written back as the text it was read from. JavaScript turns it into a double and writes the shortest text for that double, so `1.0` becomes `1` and `1e2` becomes `100`; doubles are not modelled.
- Json.Stringify: `JSON.stringify` writes the members whose keys are array indices first, in ascending order, and then the others. The model keeps insertion order for every key.
- Json.Parse: for a duplicate key `JSON.parse` keeps the member at the place the key first appeared with the last value. The model keeps every member in order; `Json.Get` reads the last value, as JavaScript does.
- Json.Parse: a `\u` escape of a lone surrogate (`\uD800` without its pair) is read as not JSON. JavaScript strings can hold it, but a Dafny character is a Unicode scalar value.
- Json.Stringify: characters are written as they are. Lone surrogates, which `JSON.stringify` writes as `\u` escapes, cannot occur in a Dafny string.
- Mutations.Store.SaveMessages: every row takes one `now`. The source reads the clock once per row.
- Mutations.Store.SaveDocument: timestamps are integer milliseconds, not ISO strings. The waits are returned as a list of delays instead of being slept.
- Mutations.Store.MutateQuery: `revalidateTag` is modelled as appending to a log of revalidated tags.
- `saveChat`, `deleteChatById`, `saveSuggestions` and `deleteDocumentsByIdAfterTimestamp` in `db/mutations.ts` are not modelled. They are single writes through `mutateQuery`, whose rule is modelled.
- ChatHistory.Classify: `isToday`, `isYesterday`, `subWeeks` and `subMonths` come in as a calendar parameter. Day arithmetic is not modelled.
- VehicleForm.ParseInt: the value is the exact integer. JavaScript rounds values past 2^53 to a double; no such value can lie in the accepted year range either way.
- Settings.SchemaIssues: the scales are integers, because the sliders give whole numbers. `z.number()` would admit fractions.
- PromptConfigPage.SchemaIssues: numbers are reals, standing for JavaScript numbers. NaN and infinities are not modelled.
- PromptConfigRoute.Get: `ai/prompts.ts` as it stands exports no `defaultConfig` (only `blocksPrompt`, `regularPrompt` and `systemPrompt`), although `app/api/admin/prompt-config/route.ts:5` imports it. `DefaultConfig` stands for the value the route expects to import. The contract assumes that export exists; without it the module does not type-check, and an undefined binding would make every fallback answer throw instead of serving a default.
- PromptConfigRoute.ConfigTable.Post: extra fields spread from the body into the row are not modelled. An exception other than a body that is not JSON is not modelled either.
- The settings page's initial fetch of the saved settings (the `get_user_settings` remote procedure) is not modelled. Its SQL body is not part of this model.
- Middleware.Matches: the `.` of the pattern excludes the line terminators (LF, CR, U+2028, U+2029). URL parsing never leaves them raw in a path name; the model keeps the exclusion all the same.
- Middleware.Handle: `updateSession` and the redirect target URL are opaque. Next.js matcher details beyond the pattern over the path name, such as locales, are not modelled.
- Middleware.Handle: the role lookup has no filter on the user; it relies on row-level security returning only the caller's row. The model takes its outcome as a parameter.
- Rendering, toasts, console logging and the PDF pipeline are not modelled.

## Findings

| source | as written | input that shows it | evidently intended | confidence | as-written member | corrected member |
|---|---|---|---|---|---|---|
| db/mutations.ts:93-111 | the JSON-looking test runs first. '[object Object]' starts with '[' and does not parse, so it is wrapped as a text part holding '[object Object]'. The friendly-text branch can never run. The store (`Mutations.Normalise`, used by `Mutations.Store.SaveMessages`) keeps this behaviour | message content '[object Object]' | the text part 'Mensaje no disponible', as `Mutations.NormaliseCorrected` stores it | high; not executed | Mutations.ObjectObjectAsWritten | Mutations.ObjectObjectCorrected |
