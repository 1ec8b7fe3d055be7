/** The chat settings form of app/config/components/settings-form.tsx:
    `settingsFormSchema` and its default values, and `onSubmit`, which
    builds a `user_settings` record for the signed-in user and upserts it
    keyed on `user_id`. */
module Settings {
  import opened Basics
  import opened DbErrors

  /** `SettingsFormValues`. The sliders give whole numbers. */
  datatype SettingsValues = SettingsValues(
    nivelTono: int,
    nivelTecnico: int,
    longitudRespuesta: int,
    nivelUrgencia: bool,
    sensibilidadPrecio: int)

  const Defaults := SettingsValues(3, 3, 3, false, 3)

  predicate InScale(n: int)
  {
    1 <= n <= 5
  }

  /** The names of the fields `settingsFormSchema` rejects, in field order. */
  function SchemaIssues(v: SettingsValues): (issues: seq<string>)
    ensures issues == [] <==> InScale(v.nivelTono) && InScale(v.nivelTecnico)
                              && InScale(v.longitudRespuesta) && InScale(v.sensibilidadPrecio)
    ensures |issues| <= 4
  {
    (if InScale(v.nivelTono) then [] else ["nivel_tono"])
    + (if InScale(v.nivelTecnico) then [] else ["nivel_tecnico"])
    + (if InScale(v.longitudRespuesta) then [] else ["longitud_respuesta"])
    + (if InScale(v.sensibilidadPrecio) then [] else ["sensibilidad_precio"])
  }

  /** The defaults satisfy the schema. */
  lemma DefaultsValid()
    ensures SchemaIssues(Defaults) == []
  {
  }

  /** A `user_settings` row (without its generated columns). */
  datatype SettingsRow = SettingsRow(
    userId: string,
    nivelTono: int,
    nivelTecnico: int,
    longitudRespuesta: int,
    nivelUrgencia: bool,
    sensibilidadPrecio: int)

  /** The record `onSubmit` saves: the form values as they are, for `userId`. */
  function SettingsRecord(userId: string, v: SettingsValues): (row: SettingsRow)
    ensures row.userId == userId
    ensures ValuesOf(row) == v
  {
    SettingsRow(userId, v.nivelTono, v.nivelTecnico, v.longitudRespuesta, v.nivelUrgencia, v.sensibilidadPrecio)
  }

  /** The form values a row holds. */
  function ValuesOf(row: SettingsRow): SettingsValues
  {
    SettingsValues(row.nivelTono, row.nivelTecnico, row.longitudRespuesta, row.nivelUrgencia, row.sensibilidadPrecio)
  }

  /** At most one row per user. */
  predicate UniqueUsers(rows: seq<SettingsRow>)
  {
    forall i, j | 0 <= i < j < |rows| :: rows[i].userId != rows[j].userId
  }

  /** The row of `userId`, if any. */
  function Lookup(rows: seq<SettingsRow>, userId: string): (r: Option<SettingsRow>)
    ensures r.None? <==> forall i | 0 <= i < |rows| :: rows[i].userId != userId
    ensures r.Some? ==> r.value in rows && r.value.userId == userId
  {
    if rows == [] then None
    else if rows[0].userId == userId then Some(rows[0])
    else Lookup(rows[1..], userId)
  }

  /** `upsert(row, { onConflict: 'user_id' })`: the row of the same user is
      replaced in place; otherwise the row is added at the end. */
  function UpsertRows(rows: seq<SettingsRow>, row: SettingsRow): (r: seq<SettingsRow>)
    ensures |r| == |rows| || |r| == |rows| + 1
    ensures forall i | 0 <= i < |r| :: r[i] == row || r[i] in rows
  {
    if rows == [] then [row]
    else if rows[0].userId == row.userId then [row] + rows[1..]
    else [rows[0]] + UpsertRows(rows[1..], row)
  }

  /** The upsert keeps one row per user. */
  lemma {:induction false} UpsertKeepsUnique(rows: seq<SettingsRow>, row: SettingsRow)
    requires UniqueUsers(rows)
    ensures UniqueUsers(UpsertRows(rows, row))
  {
    if rows != [] && rows[0].userId != row.userId {
      UpsertKeepsUnique(rows[1..], row);
      UpsertUsers(rows[1..], row);
    }
  }

  /** The users of the upserted table: the old ones, plus the new row's. */
  lemma {:induction false} UpsertUsers(rows: seq<SettingsRow>, row: SettingsRow)
    ensures forall i | 0 <= i < |UpsertRows(rows, row)| ::
              UpsertRows(rows, row)[i].userId == row.userId
              || exists j | 0 <= j < |rows| :: rows[j].userId == UpsertRows(rows, row)[i].userId
  {
    if rows != [] && rows[0].userId != row.userId {
      UpsertUsers(rows[1..], row);
      var r := UpsertRows(rows, row);
      forall i | 0 <= i < |r| && r[i].userId != row.userId
        ensures exists j | 0 <= j < |rows| :: rows[j].userId == r[i].userId
      {
        if i == 0 {
          assert rows[0].userId == r[i].userId;
        } else {
          assert r[i] == UpsertRows(rows[1..], row)[i - 1];
          var j :| 0 <= j < |rows[1..]| && rows[1..][j].userId == r[i].userId;
          assert rows[j + 1].userId == r[i].userId;
        }
      }
    }
  }

  /** After the upsert the user's row is the saved one, and every other
      user's row is as it was. */
  lemma {:induction false} UpsertLookup(rows: seq<SettingsRow>, row: SettingsRow, other: string)
    requires other != row.userId
    ensures Lookup(UpsertRows(rows, row), row.userId) == Some(row)
    ensures Lookup(UpsertRows(rows, row), other) == Lookup(rows, other)
  {
    if rows != [] && rows[0].userId != row.userId {
      UpsertLookup(rows[1..], row, other);
    }
  }

  /** Saving the same record twice leaves the table as saving it once. */
  lemma {:induction false} UpsertIdempotent(rows: seq<SettingsRow>, row: SettingsRow)
    ensures UpsertRows(UpsertRows(rows, row), row) == UpsertRows(rows, row)
  {
    if rows != [] && rows[0].userId != row.userId {
      UpsertIdempotent(rows[1..], row);
    }
  }

  /** The `user_settings` table. */
  class SettingsTable {
    var rows: seq<SettingsRow>

    predicate Valid()
      reads this
    {
      UniqueUsers(rows)
    }

    constructor(rows: seq<SettingsRow>)
      requires UniqueUsers(rows)
      ensures Valid() && this.rows == rows
    {
      this.rows := rows;
    }

    method Upsert(row: SettingsRow)
      requires Valid()
      modifies this
      ensures Valid()
      ensures rows == UpsertRows(old(rows), row)
    {
      UpsertKeepsUnique(rows, row);
      rows := UpsertRows(rows, row);
    }
  }

  /** The toast the user is shown. */
  datatype Toast = Saved | SaveFailed

  /** The form component: its loading flag and the table it writes. */
  class SettingsForm {
    var isLoading: bool
    const table: SettingsTable

    constructor(table: SettingsTable)
      ensures this.table == table && !isLoading
    {
      this.table := table;
      isLoading := false;
    }

    /** `onSubmit`. `userId` is what `auth.getUser()` gives (None when there
        is no user); `upsertFault` is the error the upsert reports. */
    method Submit(values: SettingsValues, userId: Option<string>, upsertFault: Option<DbError>)
      returns (toast: Toast)
      requires table.Valid()
      modifies this, table
      ensures table.Valid() && !isLoading
      // no user, or a user without an id: nothing is written
      ensures userId.None? || userId.value == [] ==> toast == SaveFailed && table.rows == old(table.rows)
      ensures userId.Some? && userId.value != [] && upsertFault.Some?
              ==> toast == SaveFailed && table.rows == old(table.rows)
      ensures userId.Some? && userId.value != [] && upsertFault.None?
              ==> toast == Saved && table.rows == UpsertRows(old(table.rows), SettingsRecord(userId.value, values))
    {
      isLoading := true;
      if userId.None? || userId.value == [] {
        toast := SaveFailed;
      } else {
        var record := SettingsRecord(userId.value, values);
        if upsertFault.None? {
          table.Upsert(record);
          toast := Saved;
        } else {
          toast := SaveFailed;
        }
      }
      isLoading := false;
    }
  }
}
