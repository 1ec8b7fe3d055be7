/** The prompt list of app/config/components/prompts-list.tsx: its local
    `prompts` state, seeded once from `initialPrompts`; `handleDelete`,
    which deletes a prompt in the `prompts` table and then drops it from
    the local list; and the blank prompt "Nuevo Prompt" opens the editor
    with. */
module PromptsList {
  import opened Basics
  import opened DbErrors
  import opened PromptForm

  /** `prev.filter((p) => p.id !== id)`. */
  function RemoveId(prompts: seq<Prompt>, id: string): (r: seq<Prompt>)
    ensures |r| <= |prompts|
    ensures forall i | 0 <= i < |r| :: r[i].id != id && r[i] in prompts
    decreases |prompts|
  {
    if prompts == [] then []
    else
      var last := prompts[|prompts| - 1];
      RemoveId(prompts[..|prompts| - 1], id) + (if last.id == id then [] else [last])
  }

  /** Every prompt with another id stays. */
  lemma {:induction false} RemoveIdKeepsOthers(prompts: seq<Prompt>, id: string, p: Prompt)
    requires p in prompts && p.id != id
    ensures p in RemoveId(prompts, id)
    decreases |prompts|
  {
    var init := prompts[..|prompts| - 1];
    if p != prompts[|prompts| - 1] {
      assert prompts == init + [prompts[|prompts| - 1]];
      RemoveIdKeepsOthers(init, id, p);
    }
  }

  /** Filtering respects order: the filter of a concatenation is the
      concatenation of the filters. */
  lemma {:induction false} RemoveIdAppend(xs: seq<Prompt>, ys: seq<Prompt>, id: string)
    ensures RemoveId(xs + ys, id) == RemoveId(xs, id) + RemoveId(ys, id)
    decreases |ys|
  {
    if ys == [] {
      assert xs + ys == xs;
    } else {
      var init := ys[..|ys| - 1];
      RemoveIdAppend(xs, init, id);
      assert (xs + ys)[..|xs + ys| - 1] == xs + init;
    }
  }

  /** Deleting twice is deleting once. */
  lemma {:induction false} RemoveIdIdempotent(prompts: seq<Prompt>, id: string)
    ensures RemoveId(RemoveId(prompts, id), id) == RemoveId(prompts, id)
    decreases |prompts|
  {
    if prompts != [] {
      var init := prompts[..|prompts| - 1];
      var last := prompts[|prompts| - 1];
      RemoveIdIdempotent(init, id);
      RemoveIdAppend(RemoveId(init, id), if last.id == id then [] else [last], id);
      assert RemoveId([last], id) == (if last.id == id then [] else [last]) by {
        assert [last][..0] == [];
      }
    }
  }

  /** The prompt "Nuevo Prompt" hands to `onEdit`. */
  const BlankPrompt := Prompt("", "", "", false, "", "")

  /** The blank prompt makes the editor insert a new prompt, not update one. */
  lemma BlankPromptInserts()
    ensures Dispatch(Some(BlankPrompt)) == Insert
    ensures ResetFrom(BlankPrompt) == Defaults
  {
  }

  /** The list component. */
  class PromptsList {
    var prompts: seq<Prompt>

    /** `useState(initialPrompts)`: the prop is read once, at first render;
        later renders show `prompts` whatever `initialPrompts` they get. */
    constructor(initialPrompts: seq<Prompt>)
      ensures prompts == initialPrompts
    {
      prompts := initialPrompts;
    }

    /** `handleDelete(id)`; `fault` is the error the delete reports. */
    method HandleDelete(id: string, fault: Option<DbError>, table: PromptsTable)
      modifies this, table
      ensures fault.Some? ==> prompts == old(prompts) && table.rows == old(table.rows)
      ensures fault.None? ==> prompts == RemoveId(old(prompts), id)
                              && table.rows == RemoveId(old(table.rows), id)
    {
      if fault.Some? {
        return;
      }
      table.rows := RemoveId(table.rows, id);
      prompts := RemoveId(prompts, id);
    }
  }
}
