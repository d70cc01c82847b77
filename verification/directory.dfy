/**
  The rule both directory views apply to their name-keyed maps (endpoints by
  name, projects by name): a new entry needs a non-empty name that is not yet
  taken, so an existing entry is never silently replaced; a confirmed deletion
  takes out one key and is a no-op when the key is absent.
*/
module Directory {

  /** A name the submit handlers accept. */
  predicate CanAdd<V>(dir: map<string, V>, name: string) {
    name != "" && name !in dir
  }

  /** The guarded insert the submit handlers perform. */
  function Add<V>(dir: map<string, V>, name: string, v: V): (r: map<string, V>)
    ensures r.Keys == dir.Keys + (if CanAdd(dir, name) then {name} else {})
    ensures CanAdd(dir, name) ==> r[name] == v
    ensures forall k :: k in dir ==> k in r && r[k] == dir[k]
    ensures !CanAdd(dir, name) ==> r == dir
  {
    if CanAdd(dir, name) then dir[name := v] else dir
  }

  /** Adding the same name twice: the second attempt is refused and changes nothing. */
  lemma AddTwiceRefused<V>(dir: map<string, V>, name: string, v: V, w: V)
    ensures !CanAdd(Add(dir, name, v), name)
    ensures Add(Add(dir, name, v), name, w) == Add(dir, name, v)
  {
  }

  /** The delete-confirmation dialog both directory pages keep: whether it is open, and for which name. */
  datatype DeletePrompt = DeletePrompt(isOpen: bool, target: string)

  const ClosedPrompt: DeletePrompt := DeletePrompt(false, "")

  /** A card's trash button: remember which entry and open the prompt. */
  function PromptDelete(prompt: DeletePrompt, target: string): (r: DeletePrompt)
    ensures r.target == target && r.isOpen
  {
    prompt.(target := target, isOpen := true)
  }

  /** What confirming a deletion leaves behind. */
  datatype Confirmed<V> = Confirmed(dir: map<string, V>, prompt: DeletePrompt)

  /**
    "Yes" on the prompt: the target is taken (left empty), its entry removed, and
    the prompt closed.
  */
  function ConfirmDelete<V>(dir: map<string, V>, prompt: DeletePrompt): (r: Confirmed<V>)
    ensures r.dir.Keys == dir.Keys - {prompt.target}
    ensures forall k :: k in r.dir ==> r.dir[k] == dir[k]
    ensures prompt.target !in dir ==> r.dir == dir
    ensures r.prompt == ClosedPrompt
  {
    Confirmed(dir - {prompt.target}, ClosedPrompt)
  }

  /** Deleting, from its card, an entry just added restores the directory. */
  lemma DeleteUndoesAdd<V>(dir: map<string, V>, name: string, v: V, prompt: DeletePrompt)
    requires CanAdd(dir, name)
    ensures ConfirmDelete(Add(dir, name, v), PromptDelete(prompt, name)).dir == dir
  {
  }
}
