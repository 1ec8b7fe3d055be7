/** The admin prompt-configuration API of app/api/admin/prompt-config/route.ts
    over the `prompt_config` table.

    `GET` answers with the one active configuration, or with the built-in
    default configuration whenever anything is off. `POST` checks that the
    caller is an admin, deactivates every other row when the posted
    configuration is active, and upserts the posted configuration.

    The session, the role lookup and the outcome of each database request
    are parameters; the default configuration itself is only named. */
module PromptConfigRoute {
  import opened Basics
  import opened PromptConfigPage

  /** What `auth.getSession()` gives. */
  datatype SessionState = SessionError | NoSession | Session(userId: string)

  /** What the `users` role lookup through `.single()` gives. */
  datatype RoleLookup = LookupError | NoUser | Role(role: string)

  /** The caller has a session and the role 'admin'. */
  predicate Authorised(session: SessionState, lookup: RoleLookup)
  {
    session.Session? && lookup.Role? && lookup.role == "admin"
  }

  /** The active rows, in table order. */
  function ActiveRows(rows: seq<ConfigRow>): (r: seq<ConfigRow>)
    ensures |r| <= |rows|
    ensures forall i | 0 <= i < |r| :: r[i].isActive && r[i] in rows
    ensures forall i | 0 <= i < |rows| :: rows[i].isActive ==> rows[i] in r
  {
    if rows == [] then []
    else (if rows[0].isActive then [rows[0]] else []) + ActiveRows(rows[1..])
  }

  /** When one row alone is active, it is the active list. */
  lemma {:induction false} ActiveRowsSingle(rows: seq<ConfigRow>, k: int)
    requires 0 <= k < |rows| && rows[k].isActive
    requires forall i | 0 <= i < |rows| && i != k :: !rows[i].isActive
    ensures ActiveRows(rows) == [rows[k]]
  {
    if k == 0 {
      NoneActive(rows[1..]);
    } else {
      ActiveRowsSingle(rows[1..], k - 1);
    }
  }

  lemma {:induction false} NoneActive(rows: seq<ConfigRow>)
    requires forall i | 0 <= i < |rows| :: !rows[i].isActive
    ensures ActiveRows(rows) == []
  {
    if rows != [] {
      NoneActive(rows[1..]);
    }
  }

  // ------------------------------------------------------------------ GET

  /** What `GET` answers. `DefaultConfig` stands for the `defaultConfig`
      value the route imports from `@/ai/prompts`; `ai/prompts.ts` as it
      stands exports no such binding. */
  datatype GetResponse = DefaultConfig | Config(row: ConfigRow)

  /** `GET`. `configFault` is a failure of the config request itself and
      `thrown` an exception anywhere in the handler. The active row is read
      with `.single()`, which fails unless exactly one row is active. */
  function Get(session: SessionState, lookup: RoleLookup, rows: seq<ConfigRow>,
               configFault: bool, thrown: bool): (r: GetResponse)
    // the active configuration is served only to an admin, and only when it is the one active row
    ensures r.Config? <==> !thrown && Authorised(session, lookup) && !configFault && |ActiveRows(rows)| == 1
    ensures r.Config? ==> r.row == ActiveRows(rows)[0]
  {
    if thrown then DefaultConfig
    else if !session.Session? then DefaultConfig
    else if lookup.LookupError? then DefaultConfig
    else if !(lookup.Role? && lookup.role == "admin") then DefaultConfig
    else if configFault || |ActiveRows(rows)| != 1 then DefaultConfig
    else Config(ActiveRows(rows)[0])
  }

  // ------------------------------------------------------------------ POST

  /** The posted JSON: an optional `id` and the configuration form. */
  datatype Body = Body(id: Option<string>, form: PromptConfigForm)

  datatype PostResponse = Unauthorized | ServerError | Saved(row: ConfigRow)

  /** `body.id || '0'`: an absent or empty id becomes '0'. */
  function KeepId(id: Option<string>): string
  {
    if id.Some? && id.value != [] then id.value else "0"
  }

  /** `.update({ is_active: false }).neq('id', keep)`. */
  function Deactivate(rows: seq<ConfigRow>, keep: string): (r: seq<ConfigRow>)
    ensures |r| == |rows|
    ensures forall i | 0 <= i < |r| :: r[i].id == rows[i].id
    ensures forall i | 0 <= i < |r| :: r[i].isActive <==> rows[i].isActive && rows[i].id == keep
    ensures forall i | 0 <= i < |r| :: r[i] == rows[i] || r[i] == rows[i].(isActive := false)
  {
    seq(|rows|, i requires 0 <= i < |rows| =>
      if rows[i].id == keep then rows[i] else rows[i].(isActive := false))
  }

  predicate HasId(rows: seq<ConfigRow>, id: string)
  {
    exists i | 0 <= i < |rows| :: rows[i].id == id
  }

  predicate UniqueIds(rows: seq<ConfigRow>)
  {
    forall i, j | 0 <= i < j < |rows| :: rows[i].id != rows[j].id
  }

  /** The id the database generates for a row posted without one. */
  function FreshId(rows: seq<ConfigRow>): (id: string)
    ensures !HasId(rows, id)
  {
    var ids := seq(|rows|, i requires 0 <= i < |rows| => rows[i].id);
    assert forall i | 0 <= i < |rows| :: rows[i].id == ids[i];
    FreshKey(ids)
  }

  /** The row the upsert writes: the posted configuration stamped with
      `updated_at`, under the posted id or a generated one. */
  function Stored(body: Body, newId: string, now: int): ConfigRow
  {
    ConfigRow(if body.id.Some? then body.id.value else newId,
              body.form.systemConfig, body.form.businessRules, body.form.isActive, now)
  }

  /** `.upsert(row)` on the primary key: the row with the same id is
      replaced in place, or the row is added at the end. */
  function UpsertConfig(rows: seq<ConfigRow>, row: ConfigRow): (r: seq<ConfigRow>)
    ensures HasId(rows, row.id) ==> |r| == |rows|
    ensures !HasId(rows, row.id) ==> r == rows + [row]
    ensures forall i | 0 <= i < |r| :: r[i] == row || r[i] in rows
    ensures forall i | 0 <= i < |rows| :: rows[i].id != row.id ==> rows[i] in r
    ensures row in r
  {
    if rows == [] then [row]
    else if rows[0].id == row.id then [row] + rows[1..]
    else [rows[0]] + UpsertConfig(rows[1..], row)
  }

  /** The upsert keeps ids unique, and the written row is the only one
      with its id. */
  lemma {:induction false} UpsertConfigUnique(rows: seq<ConfigRow>, row: ConfigRow)
    requires UniqueIds(rows)
    ensures UniqueIds(UpsertConfig(rows, row))
    ensures forall i | 0 <= i < |UpsertConfig(rows, row)| ::
              UpsertConfig(rows, row)[i].id == row.id ==> UpsertConfig(rows, row)[i] == row
  {
    if rows != [] && rows[0].id != row.id {
      var tail := UpsertConfig(rows[1..], row);
      UpsertConfigUnique(rows[1..], row);
      assert UpsertConfig(rows, row) == [rows[0]] + tail;
      forall x | x in tail ensures x.id != rows[0].id {
        if x != row {
          HeadIdDiffers(rows, x);
        }
      }
    }
  }

  /** In a table with unique ids, no later row shares the first row's id. */
  lemma HeadIdDiffers(rows: seq<ConfigRow>, x: ConfigRow)
    requires UniqueIds(rows) && rows != [] && x in rows[1..]
    ensures x.id != rows[0].id
  {
    var k :| 0 <= k < |rows[1..]| && rows[1..][k] == x;
    assert rows[k + 1] == x;
  }

  /** After a successful active save, the saved row is the only active one,
      provided no other row carries the id the deactivation spares. */
  lemma ActiveSaveLeavesOneActive(rows: seq<ConfigRow>, row: ConfigRow, keep: string)
    requires UniqueIds(rows) && row.isActive
    requires keep == row.id || !HasId(rows, keep)
    ensures var after := UpsertConfig(Deactivate(rows, keep), row);
            ActiveRows(after) == [row]
  {
    var mid := Deactivate(rows, keep);
    assert UniqueIds(mid);
    UpsertConfigUnique(mid, row);
    var after := UpsertConfig(mid, row);
    var k :| 0 <= k < |after| && after[k] == row;
    forall i | 0 <= i < |after| && i != k ensures !after[i].isActive {
      if after[i] != row {
        var j :| 0 <= j < |mid| && mid[j] == after[i];
        assert mid[j].id != row.id;
      }
    }
    ActiveRowsSingle(after, k);
  }

  /** Saving with `is_active` false leaves every other row as it was. */
  lemma InactiveSaveKeepsOthers(rows: seq<ConfigRow>, row: ConfigRow)
    ensures forall i | 0 <= i < |rows| :: rows[i].id != row.id ==> rows[i] in UpsertConfig(rows, row)
    ensures forall r | r in UpsertConfig(rows, row) && r != row :: r in rows
  {
  }

  /** The page posts its form without an id: every save from it adds a
      new row. */
  lemma PageSaveAddsRow(rows: seq<ConfigRow>, form: PromptConfigForm, now: int)
    ensures var body := Body(None, form);
            UpsertConfig(rows, Stored(body, FreshId(rows), now)) == rows + [Stored(body, FreshId(rows), now)]
  {
  }

  /** A failed upsert after the deactivation can leave no active row. */
  lemma FailedSaveCanLeaveNoneActive(row: ConfigRow)
    requires row.isActive && row.id != "0"
    ensures ActiveRows([row]) == [row]
    ensures ActiveRows(Deactivate([row], KeepId(None))) == []
  {
    assert !Deactivate([row], "0")[0].isActive;
  }

  /** The `prompt_config` table. */
  class ConfigTable {
    var rows: seq<ConfigRow>

    predicate Valid()
      reads this
    {
      UniqueIds(rows)
    }

    constructor(rows: seq<ConfigRow>)
      requires UniqueIds(rows)
      ensures Valid() && this.rows == rows
    {
      this.rows := rows;
    }

    /** `POST`. `body` is None when the request body is not JSON;
        `deactivateFault` is a failure of the deactivation, whose result
        is never looked at; `upsertFault` a failure of the upsert. */
    method Post(session: SessionState, lookup: RoleLookup, body: Option<Body>,
                deactivateFault: bool, upsertFault: bool, now: int)
      returns (response: PostResponse)
      requires Valid()
      modifies this
      ensures Valid()
      ensures !Authorised(session, lookup) ==> response == Unauthorized && rows == old(rows)
      ensures Authorised(session, lookup) && body.None? ==> response == ServerError && rows == old(rows)
      ensures Authorised(session, lookup) && body.Some?
              ==> var b := body.value;
                  var mid := if b.form.isActive && !deactivateFault
                             then Deactivate(old(rows), KeepId(b.id)) else old(rows);
                  var row := Stored(b, FreshId(mid), now);
                  && (upsertFault ==> response == ServerError && rows == mid)
                  && (!upsertFault ==> response == Saved(row) && rows == UpsertConfig(mid, row))
    {
      if !session.Session? {
        return Unauthorized;
      }
      if !(lookup.Role? && lookup.role == "admin") {
        return Unauthorized;
      }
      if body.None? {
        return ServerError;
      }
      var b := body.value;
      if b.form.isActive && !deactivateFault {
        rows := Deactivate(rows, KeepId(b.id));
      }
      var row := Stored(b, FreshId(rows), now);
      if upsertFault {
        return ServerError;
      }
      UpsertConfigUnique(rows, row);
      rows := UpsertConfig(rows, row);
      response := Saved(row);
    }
  }

  /** After an admin's successful active save (deactivation included),
      `GET` serves the saved row. */
  lemma GetAfterActiveSave(rows: seq<ConfigRow>, b: Body, now: int, userId: string)
    requires UniqueIds(rows) && b.form.isActive
    requires (b.id.Some? && b.id.value != []) || !HasId(rows, "0")
    ensures var mid := Deactivate(rows, KeepId(b.id));
            var row := Stored(b, FreshId(mid), now);
            Get(Session(userId), Role("admin"), UpsertConfig(mid, row), false, false) == Config(row)
  {
    var mid := Deactivate(rows, KeepId(b.id));
    var row := Stored(b, FreshId(mid), now);
    if b.id.None? || b.id.value == [] {
      assert !HasId(rows, "0");
      assert !HasId(mid, "0");
    }
    ActiveSaveLeavesOneActive(rows, row, KeepId(b.id));
  }
}
