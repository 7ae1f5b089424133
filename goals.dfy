/**
 * The goal tracker (src/components/GoalTracker.tsx): a list of goals with an
 * add form, completion toggling, deletion and the completion statistics.
 * The new goal's id (`Date.now()`) and creation time are parameters; saving
 * the list to local storage is not modelled.
 */
module Goals {
  import opened Js

  datatype Goal = Goal(id: string, title: string, description: string, completed: bool,
                       createdAt: string)

  /** `goals.map(goal => goal.id === id ? { ...goal, completed: !goal.completed } : goal)` */
  function Toggled(goals: seq<Goal>, id: string): (r: seq<Goal>)
    ensures |r| == |goals|
    ensures forall i :: 0 <= i < |r| ==>
              && r[i].id == goals[i].id && r[i].title == goals[i].title
              && r[i].description == goals[i].description && r[i].createdAt == goals[i].createdAt
              && r[i].completed == (if goals[i].id == id then !goals[i].completed else goals[i].completed)
  {
    seq(|goals|, i requires 0 <= i < |goals| =>
      if goals[i].id == id then goals[i].(completed := !goals[i].completed) else goals[i])
  }

  /** Toggling the same id twice restores the list. */
  lemma ToggleTwice(goals: seq<Goal>, id: string)
    ensures Toggled(Toggled(goals, id), id) == goals
  {
    var r := Toggled(Toggled(goals, id), id);
    assert forall i :: 0 <= i < |goals| ==> r[i] == goals[i];
  }

  function OtherId(id: string): Goal -> bool {
    (g: Goal) => g.id != id
  }

  /** `goals.filter(goal => goal.id !== id)` */
  function Deleted(goals: seq<Goal>, id: string): (r: seq<Goal>)
    ensures forall i :: 0 <= i < |r| ==> r[i].id != id && r[i] in goals
    ensures forall i :: 0 <= i < |goals| && goals[i].id != id ==> goals[i] in r
  {
    Filter(goals, OtherId(id))
  }

  /** Deleting a goal after toggling it is deleting it: the toggle leaves no trace. */
  lemma {:induction false} DeleteAfterToggle(goals: seq<Goal>, id: string)
    ensures Deleted(Toggled(goals, id), id) == Deleted(goals, id)
  {
    if goals != [] {
      var t := Toggled(goals, id);
      assert t[1..] == Toggled(goals[1..], id);
      DeleteAfterToggle(goals[1..], id);
      assert Filter(t, OtherId(id)) ==
        (if t[0].id != id then [t[0]] else []) + Filter(t[1..], OtherId(id));
      assert Filter(goals, OtherId(id)) ==
        (if goals[0].id != id then [goals[0]] else []) + Filter(goals[1..], OtherId(id));
    }
  }

  function IsCompleted(): Goal -> bool {
    (g: Goal) => g.completed
  }

  /** `goals.filter(goal => goal.completed).length` */
  function CompletedCount(goals: seq<Goal>): (c: nat)
    ensures c <= |goals|
    ensures c == 0 <==> forall i :: 0 <= i < |goals| ==> !goals[i].completed
    ensures (forall i :: 0 <= i < |goals| ==> goals[i].completed) ==> c == |goals|
  {
    CompletedFilter(goals);
    |Filter(goals, IsCompleted())|
  }

  /** No goal is kept exactly when none is completed, and every goal when all are. */
  lemma CompletedFilter(goals: seq<Goal>)
    ensures var r := Filter(goals, IsCompleted());
            && (r == [] <==> forall i :: 0 <= i < |goals| ==> !goals[i].completed)
            && ((forall i :: 0 <= i < |goals| ==> goals[i].completed) ==> r == goals)
  {
    var r := Filter(goals, IsCompleted());
    if forall i :: 0 <= i < |goals| ==> goals[i].completed {
      FilterKeepsAll(goals, IsCompleted());
    }
    if r != [] {
      assert r[0] in goals && r[0].completed;
    }
    if k :| 0 <= k < |goals| && goals[k].completed {
      assert goals[k] in r;
    }
  }

  /** `Math.round(completed / total * 100)`, or 0 with no goals, on exact rationals:
      rounding half up is floor((200 c + t) / (2 t)). */
  function Percentage(completed: nat, total: nat): (p: nat)
    requires completed <= total
    ensures p <= 100
    ensures total == 0 ==> p == 0
    ensures total > 0 ==> p * (2 * total) <= 200 * completed + total < (p + 1) * (2 * total)
  {
    if total > 0 then
      var d, n := 2 * total, 200 * completed + total;
      var p := n / d;
      DivBounds(n, d);
      assert n < 101 * d;
      MulCancel(p, 101, d);
      p
    else 0
  }

  /** Every goal done shows 100 exactly when at least 199 in 200 are done; 0 shows exactly
      when fewer than one in 200 is done. */
  lemma PercentageEnds(completed: nat, total: nat)
    requires completed <= total && total > 0
    ensures Percentage(completed, total) == 100 <==> 200 * completed >= 199 * total
    ensures Percentage(completed, total) == 0 <==> 200 * completed < total
  {
    var p, d := Percentage(completed, total), 2 * total;
    if 200 * completed >= 199 * total {
      MulCancel(100, p + 1, d);
    }
    if 200 * completed < total {
      MulCancel(p, 1, d);
    }
  }

  class GoalTracker {
    var goals: seq<Goal>
    var newGoalTitle: string
    var newGoalDescription: string
    var isFormOpen: bool

    /** The saved goals (or none), empty fields and a closed form. */
    constructor (saved: seq<Goal>)
      ensures goals == saved && newGoalTitle == "" && newGoalDescription == "" && !isFormOpen
    {
      goals, newGoalTitle, newGoalDescription, isFormOpen := saved, "", "", false;
    }

    method OpenForm()
      modifies this`isFormOpen
      ensures isFormOpen
    {
      isFormOpen := true;
    }

    method SetTitle(title: string)
      modifies this`newGoalTitle
      ensures newGoalTitle == title
    {
      newGoalTitle := title;
    }

    method SetDescription(description: string)
      modifies this`newGoalDescription
      ensures newGoalDescription == description
    {
      newGoalDescription := description;
    }

    /** `handleAddGoal`: a title that trims to nothing changes nothing; otherwise one
        uncompleted goal with the untrimmed title and the description is appended, the
        fields are cleared and the form closes. */
    method HandleAddGoal(id: string, createdAt: string)
      modifies this`goals, this`newGoalTitle, this`newGoalDescription, this`isFormOpen
      ensures Trim(old(newGoalTitle)) == "" ==>
                && goals == old(goals) && newGoalTitle == old(newGoalTitle)
                && newGoalDescription == old(newGoalDescription) && isFormOpen == old(isFormOpen)
      ensures Trim(old(newGoalTitle)) != "" ==>
                && goals == old(goals) + [Goal(id, old(newGoalTitle), old(newGoalDescription),
                                               false, createdAt)]
                && newGoalTitle == "" && newGoalDescription == "" && !isFormOpen
    {
      if Trim(newGoalTitle) == "" {
        return;
      }
      var newGoal := Goal(id, newGoalTitle, newGoalDescription, false, createdAt);
      goals := goals + [newGoal];
      newGoalTitle := "";
      newGoalDescription := "";
      isFormOpen := false;
    }

    method ToggleGoalCompletion(id: string)
      modifies this`goals
      ensures goals == Toggled(old(goals), id)
    {
      goals := Toggled(goals, id);
    }

    method DeleteGoal(id: string)
      modifies this`goals
      ensures goals == Deleted(old(goals), id)
    {
      goals := Deleted(goals, id);
    }

    /** The completion percentage shown above the list. */
    function CompletionPercentage(): (p: nat)
      reads this
      ensures p <= 100
    {
      Percentage(CompletedCount(goals), |goals|)
    }
  }

  /** Appending a goal adds one to the count exactly when that goal is completed; with
      CompletedCount([]) == 0 this makes the count the number of completed goals. */
  lemma CompletedCountSnoc(goals: seq<Goal>, g: Goal)
    ensures CompletedCount(goals + [g]) == CompletedCount(goals) + (if g.completed then 1 else 0)
  {
    FilterConcat(goals, [g], IsCompleted());
    assert Filter([g], IsCompleted()) == (if g.completed then [g] else []) + Filter([g][1..], IsCompleted());
  }

  /** Adding a goal never marks it done: the completed count is unchanged. */
  lemma AddKeepsCompletedCount(goals: seq<Goal>, g: Goal)
    requires !g.completed
    ensures CompletedCount(goals + [g]) == CompletedCount(goals)
  {
    CompletedCountSnoc(goals, g);
  }
}
