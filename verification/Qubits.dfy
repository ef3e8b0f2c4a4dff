// A stationary qubit with its error flags, lock and entanglement pointer, changed in place.
// The errors gates and measurements draw at random are inputs.
module Qubits {
  import opened ResourceLists
  import Circuits

  class StationaryQubit {
    var xError: bool
    var zError: bool
    var locked: bool
    var lockedRuleset: int
    var lockedRule: int
    var actionIndex: int
    var isBusy: bool
    var isAllocated: bool
    var partner: StationaryQubit?
    var partnerLossOk: bool

    function Bits(): Circuits.Pauli
      reads this
    {
      Circuits.Pauli(xError, zError)
    }

    function LockState(): Lock
      reads this
    {
      if locked then Locked(actionIndex) else Unlocked
    }

    /** The state of a qubit that holds nothing. */
    predicate IsFree()
      reads this
    {
      && Bits() == Circuits.CLEAN
      && !locked && lockedRuleset == lockedRule == actionIndex == -1
      && !isBusy && !isAllocated && partner == null && !partnerLossOk
    }

    constructor ()
      ensures IsFree()
    {
      xError, zError, locked, isBusy, isAllocated, partnerLossOk := false, false, false, false, false, false;
      lockedRuleset, lockedRule, actionIndex, partner := -1, -1, -1, null;
    }

    method SetFree()
      modifies this
      ensures IsFree()
    {
      locked, lockedRuleset, lockedRule, actionIndex := false, -1, -1, -1;
      isBusy, isAllocated := false, false;
      partnerLossOk := false;
      xError, zError := false, false;
      partner := null;
    }

    /** Error text aside, the program stops when an id is -1. */
    method Lock(ruleset: int, rule: int, action: int)
      requires ruleset != -1 && rule != -1 && action != -1
      modifies this`locked, this`lockedRuleset, this`lockedRule, this`actionIndex
      ensures locked && lockedRuleset == ruleset && lockedRule == rule && actionIndex == action
    {
      locked, lockedRuleset, lockedRule, actionIndex := true, ruleset, rule, action;
    }

    method Unlock()
      modifies this`locked, this`lockedRuleset, this`lockedRule, this`actionIndex
      ensures !locked && lockedRuleset == lockedRule == actionIndex == -1
    {
      locked, lockedRuleset, lockedRule, actionIndex := false, -1, -1, -1;
    }

    /** A drawn error toggles the flags. */
    method AddError(e: Circuits.Pauli)
      modifies this`xError, this`zError
      ensures Bits() == Circuits.Xor(old(Bits()), e)
    {
      if e.x {
        xError := !xError;
      }
      if e.z {
        zError := !zError;
      }
    }

    method HadamardGate(e: Circuits.Pauli)
      modifies this`xError, this`zError
      ensures Bits() == Circuits.Hadamard(Circuits.Xor(old(Bits()), e))
    {
      AddError(e);
      var z := zError;
      zError := xError;
      xError := z;
    }

    method CnotGate(control: StationaryQubit, e: Circuits.Pauli, controlError: Circuits.Pauli)
      requires control != this
      modifies this`xError, this`zError, control`xError, control`zError
      ensures (Bits(), control.Bits())
           == Circuits.Cnot(Circuits.Xor(old(Bits()), e), Circuits.Xor(old(control.Bits()), controlError))
    {
      AddError(e);
      control.AddError(controlError);
      if control.xError {
        xError := !xError;
      }
      if zError {
        control.zError := !control.zError;
      }
    }

    method MeasureZ(e: Circuits.Pauli) returns (plus: bool)
      modifies this`xError, this`zError
      ensures Bits() == Circuits.Xor(old(Bits()), e) && plus == !xError
    {
      AddError(e);
      plus := !xError;
    }

    /** This qubit is the tool. */
    method XPurify(kept: StationaryQubit, n: Circuits.Noise) returns (outcome: bool)
      requires kept != this
      modifies this`xError, this`zError, kept`xError, kept`zError
      ensures Circuits.Purified(outcome, Bits(), kept.Bits()) == Circuits.NoisyXPurify(old(Bits()), old(kept.Bits()), n)
    {
      CnotGate(kept, n.tool, n.kept);
      outcome := MeasureZ(n.measure);
    }

    method ZPurify(kept: StationaryQubit, n: Circuits.Noise) returns (outcome: bool)
      requires kept != this
      modifies this`xError, this`zError, kept`xError, kept`zError
      ensures Circuits.Purified(outcome, Bits(), kept.Bits()) == Circuits.NoisyZPurify(old(Bits()), old(kept.Bits()), n)
    {
      kept.CnotGate(this, n.kept, n.tool);
      HadamardGate(n.gate);
      outcome := MeasureZ(n.measure);
    }

    /** Before a measured tool is freed its partner forgets it. */
    method BreakEntanglement()
      requires partner != this
      modifies (if partner != null then {partner} else {})`partner, (if partner != null then {partner} else {})`partnerLossOk
      ensures partner == old(partner)
      ensures partner != null ==> partner.partner == null && partner.partnerLossOk
    {
      if partner != null {
        partner.partnerLossOk := true;
        partner.partner := null;
      }
    }
  }
}
