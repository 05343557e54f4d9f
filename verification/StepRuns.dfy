/** Sequences of steps of the system. */
module StepRuns {
  import opened Wrappers
  import opened Lifecycle

  /** The state after a list of steps, if each of them can be taken. */
  ghost function Taking(world: World, s: State, steps: seq<Step>): Option<State>
    decreases |steps|
  {
    if steps == [] then Some(s)
    else
      match Next(world, s, steps[0])
      case None => None
      case Some(next) => Taking(world, next, steps[1..])
  }

  lemma TakeOne(world: World, s: State, step: Step, steps: seq<Step>)
    requires Next(world, s, step).Some?
    ensures Taking(world, s, [step] + steps) == Taking(world, Next(world, s, step).value, steps)
  {
    assert ([step] + steps)[0] == step && ([step] + steps)[1..] == steps;
  }

  ghost predicate Leads(world: World, s: State, steps: seq<Step>, s': State)
  {
    Taking(world, s, steps) == Some(s')
  }
}
