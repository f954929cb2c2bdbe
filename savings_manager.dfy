/** The savings page: the new-goal form, each goal's progress bar, and the
    contribution prompt. */
module SavingsManager {
  import opened Types

  /** `handleAdd`'s check and the goal it hands to `onAddGoal`: nothing when
      a field is empty, otherwise a goal with nothing saved yet. `parsedTarget`
      is `parseFloat(target)`, and `id` the fresh `crypto.randomUUID()`. */
  function NewGoal(id: string, name: string, target: string, parsedTarget: real, deadline: string)
    : (r: Option<SavingsGoal>)
    ensures r.None? <==> name == "" || target == "" || deadline == ""
    ensures r.Some? ==> r.value.currentAmount == 0.0 && r.value.targetAmount == parsedTarget
    ensures r.Some? ==> r.value.id == id && r.value.name == name && r.value.deadline == deadline
  {
    if name == "" || target == "" || deadline == "" then None
    else Some(SavingsGoal(id, name, parsedTarget, 0.0, deadline))
  }

  /** The new-goal form: three text inputs. */
  class GoalForm {
    var name: string
    var target: string
    var deadline: string

    constructor ()
      ensures name == "" && target == "" && deadline == ""
    {
      name, target, deadline := "", "", "";
    }

    method EditName(s: string)
      modifies this
      ensures name == s && target == old(target) && deadline == old(deadline)
    {
      name := s;
    }

    method EditTarget(s: string)
      modifies this
      ensures target == s && name == old(name) && deadline == old(deadline)
    {
      target := s;
    }

    method EditDeadline(s: string)
      modifies this
      ensures deadline == s && name == old(name) && target == old(target)
    {
      deadline := s;
    }

    /** `handleAdd`: emits the goal when all three fields are filled and then
        clears them; otherwise emits nothing and leaves the form as it was. */
    method HandleAdd(id: string, parsedTarget: real) returns (goal: Option<SavingsGoal>)
      modifies this
      ensures goal == NewGoal(id, old(name), old(target), parsedTarget, old(deadline))
      ensures goal.Some? ==> name == "" && target == "" && deadline == ""
      ensures goal.None? ==> name == old(name) && target == old(target) && deadline == old(deadline)
    {
      if name == "" || target == "" || deadline == "" {
        return None;
      }
      goal := Some(SavingsGoal(id, name, parsedTarget, 0.0, deadline));
      name, target, deadline := "", "", "";
    }
  }

  /** The percentage on a goal's card: `Math.min(100, current / target * 100)`.
      Capped at 100, reached exactly when the goal is met, and not floored. */
  function Progress(g: SavingsGoal): (r: real)
    requires g.targetAmount != 0.0
    ensures r <= 100.0
    ensures g.targetAmount > 0.0 ==> (r == 100.0 <==> g.currentAmount >= g.targetAmount)
    ensures g.targetAmount > 0.0 && g.currentAmount < 0.0 ==> r < 0.0
    ensures g.targetAmount > 0.0 && g.currentAmount <= g.targetAmount ==> r * g.targetAmount == g.currentAmount * 100.0
  {
    var p := g.currentAmount / g.targetAmount * 100.0;
    if p < 100.0 then p else 100.0
  }

  /** Putting more into a goal never lowers its progress. */
  lemma ProgressMonotone(g: SavingsGoal, delta: real)
    requires g.targetAmount > 0.0 && delta >= 0.0
    ensures Progress(g.(currentAmount := g.currentAmount + delta)) >= Progress(g)
  {
    var t := g.targetAmount;
    assert (g.currentAmount + delta) / t == g.currentAmount / t + delta / t;
    assert delta / t >= 0.0;
  }

  /** The "Tambah Saldo" prompt: `reply` is what `prompt` returned (`None`
      when cancelled) and `parsed` its `parseFloat`. A contribution is
      dispatched only for a non-empty reply. */
  function ContributionFromPrompt(reply: Option<string>, parsed: real): (r: Option<real>)
    ensures r.Some? <==> reply.Some? && reply.value != ""
    ensures r.Some? ==> r.value == parsed
  {
    if reply.Some? && reply.value != "" then Some(parsed) else None
  }
}
