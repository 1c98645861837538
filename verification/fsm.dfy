// arduino-fsm: a table of transitions searched in order. The first entry that leaves
// the current state on the event is taken and the on-enter action of its target runs;
// an event without an entry is ignored, and so is every event before the first
// `run_machine`, which enters the initial state.
module Fsm {
  import opened Prelude

  datatype Transition<S, E> = Transition(from: S, event: E, to: S)

  function Next<S(==), E(==)>(table: seq<Transition<S, E>>, current: S, event: E): Option<S> {
    if table == [] then None
    else if table[0].from == current && table[0].event == event then Some(table[0].to)
    else Next(table[1..], current, event)
  }

  /** The state after an event. */
  function After<S(==), E(==)>(table: seq<Transition<S, E>>, current: S, event: E): S {
    var next := Next(table, current, event);
    if next.Some? then next.value else current
  }

  /** `Next` is the target of the least matching index, or None when nothing matches. */
  lemma {:induction false} NextIsFirstMatch<S, E>(table: seq<Transition<S, E>>, current: S, event: E, i: nat)
    requires i < |table|
    requires table[i].from == current && table[i].event == event
    requires forall k :: 0 <= k < i ==> !(table[k].from == current && table[k].event == event)
    ensures Next(table, current, event) == Some(table[i].to)
  {
    if i > 0 {
      assert forall k :: 0 <= k < i - 1 ==> table[1..][k] == table[k + 1];
      NextIsFirstMatch(table[1..], current, event, i - 1);
    }
  }

  lemma {:induction false} NoMatch<S, E>(table: seq<Transition<S, E>>, current: S, event: E)
    requires forall k :: 0 <= k < |table| ==> !(table[k].from == current && table[k].event == event)
    ensures Next(table, current, event) == None
  {
    if table != [] {
      assert forall k :: 0 <= k < |table| - 1 ==> table[1..][k] == table[k + 1];
      NoMatch(table[1..], current, event);
    }
  }

  class Machine<S(==), E(==)> {
    var table: seq<Transition<S, E>>
    var current: S
    var initialized: bool

    constructor (initial: S)
      ensures table == [] && current == initial && !initialized
    {
      table, current, initialized := [], initial, false;
    }

    method AddTransition(from: S, to: S, event: E)
      modifies this`table
      ensures table == old(table) + [Transition(from, event, to)]
    {
      table := table + [Transition(from, event, to)];
    }

    /** The state whose on-enter action runs, if any. */
    method RunMachine() returns (entered: Option<S>)
      modifies this`initialized
      ensures initialized
      ensures entered == if old(initialized) then None else Some(current)
    {
      entered := if initialized then None else Some(current);
      initialized := true;
    }

    method Trigger(event: E) returns (entered: Option<S>)
      modifies this`current
      ensures !initialized ==> entered == None && current == old(current)
      ensures initialized ==> entered == Next(table, old(current), event)
      ensures initialized ==> current == After(table, old(current), event)
      ensures current == if entered.Some? then entered.value else old(current)
    {
      entered := None;
      if !initialized {
        return;
      }
      for i := 0 to |table|
        invariant current == old(current)
        invariant forall k :: 0 <= k < i ==> !(table[k].from == current && table[k].event == event)
      {
        if table[i].from == current && table[i].event == event {
          NextIsFirstMatch(table, current, event, i);
          current := table[i].to;
          return Some(current);
        }
      }
      NoMatch(table, current, event);
    }
  }
}
