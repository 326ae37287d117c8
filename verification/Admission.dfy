/**
  The admission gate of internal/lifecycle/reload.go: a cutoff switch paired with a
  publication barrier. Every exported operation of the Go type is one or two critical
  sections of its mutex; each section is a function on the value `Gate`, and the class
  `AdmissionGate` performs the same section on fields.

  A Go channel that is only ever closed is a signal number: `drained` holds the number
  a waiting Close created, `signalled` holds the numbers that were closed.
*/
module Admission {
  import opened Common

  datatype Gate = Gate(open: bool, active: int, drained: Option<nat>, signalled: set<nat>, nextSignal: nat)

  /** Enter: counts the caller when the gate is open. */
  function Entered(g: Gate): Gate {
    if g.open then g.(active := g.active + 1) else g
  }

  /** Leave: the one that brings the count to zero wakes the waiting Close. */
  function Left(g: Gate): Gate {
    var g1 := g.(active := g.active - 1);
    if g1.active == 0 && g1.drained.Some?
    then g1.(drained := None, signalled := g1.signalled + {g1.drained.value})
    else g1
  }

  /** The first critical section of Close: mark closed, and when publishers are inside
      register a fresh signal to wait on. */
  function Closing(g: Gate): Gate {
    if g.active == 0 then g.(open := false)
    else g.(open := false, drained := Some(g.nextSignal), nextSignal := g.nextSignal + 1)
  }

  /** The section Close runs when its context ends first. */
  function CloseExpired(g: Gate, signal: nat): Gate {
    if g.drained == Some(signal) then g.(drained := None) else g
  }

  function Opened(g: Gate): Gate {
    g.(open := true)
  }

  class AdmissionGate {
    var open: bool
    var active: int
    var drained: Option<nat>
    var signalled: set<nat>
    var nextSignal: nat

    ghost function View(): Gate
      reads this
    {
      Gate(open, active, drained, signalled, nextSignal)
    }

    /** The zero value is closed. */
    constructor ()
      ensures View() == Gate(false, 0, None, {}, 0)
    {
      open, active, drained, signalled, nextSignal := false, 0, None, {}, 0;
    }

    method Enter() returns (admitted: bool)
      modifies this
      ensures View() == Entered(old(View()))
      ensures admitted == old(open)
    {
      if !open {
        return false;
      }
      active := active + 1;
      return true;
    }

    method Leave()
      modifies this
      ensures View() == Left(old(View()))
    {
      active := active - 1;
      if active == 0 && drained.Some? {
        signalled := signalled + {drained.value};
        drained := None;
      }
    }

    /** Close up to its wait: `joined` says it returned nil at once, otherwise the
        caller waits for `signal` or its context. */
    method BeginClose() returns (joined: bool, signal: nat)
      modifies this
      ensures View() == Closing(old(View()))
      ensures joined <==> old(active) == 0
      ensures !joined ==> drained == Some(signal) && signal == old(nextSignal)
    {
      open := false;
      signal := nextSignal;
      if active == 0 {
        return true, signal;
      }
      drained := Some(signal);
      nextSignal := nextSignal + 1;
      joined := false;
    }

    method AbandonClose(signal: nat)
      modifies this
      ensures View() == CloseExpired(old(View()), signal)
    {
      if drained == Some(signal) {
        drained := None;
      }
    }

    method Open()
      modifies this
      ensures View() == Opened(old(View()))
    {
      open := true;
    }
  }
}
