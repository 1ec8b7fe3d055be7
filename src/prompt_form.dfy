/** The prompt editor dialog of app/config/components/prompt-form.tsx:
    `promptFormSchema`, the reset of the fields from the prompt being
    edited, and `onSubmit`, which updates that prompt when it has an id
    and inserts a new one otherwise, into the `prompts` table. */
module PromptForm {
  import opened Basics
  import opened DbErrors

  /** `Prompt` as the client sees it; its timestamps are ISO texts. */
  datatype Prompt = Prompt(
    id: string,
    name: string,
    content: string,
    isDefault: bool,
    createdAt: string,
    updatedAt: string)

  /** `PromptFormValues`. */
  datatype PromptValues = PromptValues(name: string, content: string, isDefault: bool)

  const Defaults := PromptValues("", "", false)

  /** `promptFormSchema.safeParse`: `is_default` absent reads as false;
      an empty name or content is an issue (with its message). */
  function ParsePromptForm(name: string, content: string, isDefault: Option<bool>)
    : (r: (seq<string>, PromptValues))
    ensures r.0 == [] <==> name != [] && content != []
    ensures r.1.isDefault == (isDefault.Some? && isDefault.value)
    ensures r.1.name == name && r.1.content == content
  {
    var issues := (if name == [] then ["El nombre es requerido"] else [])
                  + (if content == [] then ["El contenido es requerido"] else []);
    (issues, PromptValues(name, content, if isDefault.Some? then isDefault.value else false))
  }

  /** The default values are rejected: both texts are empty. */
  lemma DefaultsRejected()
    ensures ParsePromptForm(Defaults.name, Defaults.content, None).0
            == ["El nombre es requerido", "El contenido es requerido"]
  {
  }

  /** The fields after `form.reset` with the prompt being edited. */
  function ResetFrom(p: Prompt): PromptValues
  {
    PromptValues(p.name, p.content, p.isDefault)
  }

  /** Which write `onSubmit` issues. */
  datatype Write = Update(id: string) | Insert

  /** `prompt?.id` is truthy: a prompt with a non-empty id is updated. */
  function Dispatch(prompt: Option<Prompt>): Write
  {
    if prompt.Some? && prompt.value.id != [] then Update(prompt.value.id) else Insert
  }

  /** A prompt with an empty id is inserted, not updated. */
  lemma EmptyIdInserts(p: Prompt)
    requires p.id == []
    ensures Dispatch(Some(p)) == Insert
  {
  }

  /** `.update({...}).eq('id', id)`: every row with that id takes the new
      name, content, default flag and `updated_at`. */
  function UpdateById(rows: seq<Prompt>, id: string, v: PromptValues, now: string): (r: seq<Prompt>)
    ensures |r| == |rows|
    ensures forall i | 0 <= i < |r| :: rows[i].id != id ==> r[i] == rows[i]
    ensures forall i | 0 <= i < |r| :: rows[i].id == id
              ==> r[i] == rows[i].(name := v.name, content := v.content, isDefault := v.isDefault, updatedAt := now)
  {
    seq(|rows|, i requires 0 <= i < |rows| =>
      if rows[i].id == id
      then rows[i].(name := v.name, content := v.content, isDefault := v.isDefault, updatedAt := now)
      else rows[i])
  }

  /** Updating an id no row has changes nothing, and reports no error. */
  lemma UpdateMissingIsSilent(rows: seq<Prompt>, id: string, v: PromptValues, now: string)
    requires forall i | 0 <= i < |rows| :: rows[i].id != id
    ensures UpdateById(rows, id, v, now) == rows
  {
  }

  /** Saving an edited prompt without touching the reset fields updates it
      in place and changes nothing in its row but `updated_at`. */
  lemma ResubmitUnchanged(rows: seq<Prompt>, p: Prompt, now: string)
    requires p.id != []
    ensures Dispatch(Some(p)) == Update(p.id)
    ensures forall i | 0 <= i < |rows| && rows[i] == p ::
              UpdateById(rows, p.id, ResetFrom(p), now)[i] == p.(updatedAt := now)
  {
  }

  /** The row the insert adds: the database gives it a new id and stamps
      both timestamps. */
  function Inserted(rows: seq<Prompt>, v: PromptValues, now: string): (p: Prompt)
    ensures forall i | 0 <= i < |rows| :: rows[i].id != p.id
    ensures p.name == v.name && p.content == v.content && p.isDefault == v.isDefault
  {
    var ids := seq(|rows|, i requires 0 <= i < |rows| => rows[i].id);
    assert forall i | 0 <= i < |rows| :: rows[i].id == ids[i];
    Prompt(FreshKey(ids), v.name, v.content, v.isDefault, now, now)
  }

  /** The `prompts` table. */
  class PromptsTable {
    var rows: seq<Prompt>

    constructor(rows: seq<Prompt>)
      ensures this.rows == rows
    {
      this.rows := rows;
    }
  }

  /** The dialog: whether it is open, how often `onSuccess` has run, and
      the field values. */
  class PromptDialog {
    var open: bool
    var successes: nat
    var values: PromptValues
    const prompt: Option<Prompt>

    /** Mounting with `prompt`: the fields start at the defaults and are
        reset from the prompt when there is one. */
    constructor(prompt: Option<Prompt>, open: bool)
      ensures this.prompt == prompt && this.open == open && successes == 0
      ensures values == if prompt.Some? then ResetFrom(prompt.value) else Defaults
    {
      this.prompt := prompt;
      this.open := open;
      successes := 0;
      values := if prompt.Some? then ResetFrom(prompt.value) else Defaults;
    }

    /** `onSubmit` with validated `data`. `fault` is the error the write
        reports. Only a write without error runs `onSuccess` and closes
        the dialog. */
    method Submit(data: PromptValues, fault: Option<DbError>, now: string, table: PromptsTable)
      modifies this, table
      ensures values == old(values)
      ensures fault.Some? ==> table.rows == old(table.rows) && open == old(open) && successes == old(successes)
      ensures fault.None? ==> !open && successes == old(successes) + 1
      ensures fault.None? && Dispatch(prompt).Update?
              ==> table.rows == UpdateById(old(table.rows), Dispatch(prompt).id, data, now)
      ensures fault.None? && Dispatch(prompt).Insert?
              ==> table.rows == old(table.rows) + [Inserted(old(table.rows), data, now)]
    {
      var write := Dispatch(prompt);
      if fault.Some? {
        return;
      }
      match write {
        case Update(id) =>
          table.rows := UpdateById(table.rows, id, data, now);
        case Insert =>
          table.rows := table.rows + [Inserted(table.rows, data, now)];
      }
      successes := successes + 1;
      open := false;
    }
  }
}
