/** The router between terminals and stream slots: two maps that should be each other's inverse. */
module TerminalStreamRouter {
  import opened Options

  // ----- The two maps as values -----

  datatype Slots = Slots(ofTerminal: map<string, int>, ofSlot: map<int, string>)

  const NO_SLOTS := Slots(map[], map[])

  datatype Op = SetSlot(terminalId: string, slot: int) | RemoveTerminal(terminalId: string) | ClearSlots

  /** The empty string is no terminal to the displacement test. */
  function Assign(s: Slots, t: string, slot: int): Slots {
    var displaced := slot in s.ofSlot && s.ofSlot[slot] != "" && s.ofSlot[slot] != t;
    var terminals := if displaced then s.ofTerminal - {s.ofSlot[slot]} else s.ofTerminal;
    var slots := if t in terminals && terminals[t] != slot then s.ofSlot - {terminals[t]} else s.ofSlot;
    Slots(terminals[t := slot], slots[slot := t])
  }

  function Remove(s: Slots, t: string): Slots {
    if t !in s.ofTerminal then s
    else
      var slot := s.ofTerminal[t];
      Slots(s.ofTerminal - {t}, if slot in s.ofSlot && s.ofSlot[slot] == t then s.ofSlot - {slot} else s.ofSlot)
  }

  function Apply(s: Slots, op: Op): Slots {
    match op
    case SetSlot(t, slot) => Assign(s, t, slot)
    case RemoveTerminal(t) => Remove(s, t)
    case ClearSlots => NO_SLOTS
  }

  function Run(ops: seq<Op>): Slots
  {
    if ops == [] then NO_SLOTS else Apply(Run(ops[..|ops| - 1]), ops[|ops| - 1])
  }

  // ----- The maps are inverse -----

  predicate Maps(s: Slots, t: string, slot: int) {
    t in s.ofTerminal && s.ofTerminal[t] == slot
  }

  predicate Holds(s: Slots, t: string, slot: int) {
    slot in s.ofSlot && s.ofSlot[slot] == t
  }

  ghost predicate Inverse(s: Slots) {
    forall t, slot :: Maps(s, t, slot) <==> Holds(s, t, slot)
  }

  /** An assignment keeps the maps inverse unless it takes a slot from the terminal with the empty id. */
  lemma AssignKeepsInverseIff(s: Slots, t: string, slot: int)
    requires Inverse(s)
    ensures Inverse(Assign(s, t, slot)) <==> !(Holds(s, "", slot) && t != "")
  {
    var after := Assign(s, t, slot);
    assert forall u, n :: Maps(s, u, n) ==> Holds(s, u, n);
    assert forall u, n :: Holds(s, u, n) ==> Maps(s, u, n);
    if Holds(s, "", slot) && t != "" {
      assert Maps(s, "", slot);
      assert Maps(after, "", slot) && !Holds(after, "", slot);
    } else {
      forall u, n ensures Maps(after, u, n) <==> Holds(after, u, n) {
        if slot in s.ofSlot {
          assert Holds(s, s.ofSlot[slot], slot);
        }
        if t in s.ofTerminal {
          assert Maps(s, t, s.ofTerminal[t]);
        }
        assert Maps(s, u, n) <==> Holds(s, u, n);
      }
    }
  }

  lemma RemoveKeepsInverse(s: Slots, t: string)
    requires Inverse(s)
    ensures Inverse(Remove(s, t))
  {
    if t in s.ofTerminal {
      assert Maps(s, t, s.ofTerminal[t]);
      forall u, n ensures Maps(Remove(s, t), u, n) <==> Holds(Remove(s, t), u, n) {
        assert Maps(s, u, n) <==> Holds(s, u, n);
      }
    }
  }

  /** Every assignment names a terminal. */
  ghost predicate Named(ops: seq<Op>) {
    forall i | 0 <= i < |ops| && ops[i].SetSlot? :: ops[i].terminalId != ""
  }

  lemma {:induction false} RunIsInverse(ops: seq<Op>)
    requires Named(ops)
    ensures Inverse(Run(ops)) && forall slot :: !Holds(Run(ops), "", slot)
  {
    if ops != [] {
      var n := |ops| - 1;
      RunIsInverse(ops[..n]);
      var s := Run(ops[..n]);
      match ops[n]
      case SetSlot(t, slot) =>
        AssignKeepsInverseIff(s, t, slot);
        forall k ensures !Holds(Assign(s, t, slot), "", k) {
          assert !Holds(s, "", k);
        }
      case RemoveTerminal(t) =>
        RemoveKeepsInverse(s, t);
        forall k ensures !Holds(Remove(s, t), "", k) {
          assert !Holds(s, "", k);
        }
      case ClearSlots =>
    }
  }

  // ----- Routing, from the history alone -----

  /** The terminal that a frame on a slot goes to. */
  function Route(s: Slots, slot: int): Option<string> {
    if slot in s.ofSlot && s.ofSlot[slot] != "" then Some(s.ofSlot[slot]) else None
  }

  /** The operation takes the slot from the terminal, moves the terminal, or removes it. */
  predicate Ends(op: Op, t: string, slot: int) {
    match op
    case SetSlot(u, n) => (u == t) != (n == slot)
    case RemoveTerminal(u) => u == t
    case ClearSlots => true
  }

  ghost predicate AssignedSince(ops: seq<Op>, t: string, slot: int, i: nat) {
    i < |ops| && ops[i] == SetSlot(t, slot) && forall j | i < j < |ops| :: !Ends(ops[j], t, slot)
  }

  lemma AssignedSnoc(ops: seq<Op>, op: Op, t: string, slot: int)
    ensures (exists i :: AssignedSince(ops + [op], t, slot, i))
            <==> op == SetSlot(t, slot) || ((exists i :: AssignedSince(ops, t, slot, i)) && !Ends(op, t, slot))
  {
    var all := ops + [op];
    assert forall j | 0 <= j < |ops| :: all[j] == ops[j];
    if op == SetSlot(t, slot) {
      assert AssignedSince(all, t, slot, |ops|);
    } else if exists i :: AssignedSince(all, t, slot, i) {
      var i :| AssignedSince(all, t, slot, i);
      assert AssignedSince(ops, t, slot, i);
      assert !Ends(all[|ops|], t, slot);
    } else if exists i :: AssignedSince(ops, t, slot, i) {
      var i :| AssignedSince(ops, t, slot, i);
      assert !AssignedSince(all, t, slot, i);
    }
  }

  lemma ApplyHolds(s: Slots, op: Op, t: string, slot: int)
    requires Inverse(s) && (forall k :: !Holds(s, "", k)) && t != "" && (op.SetSlot? ==> op.terminalId != "")
    ensures Holds(Apply(s, op), t, slot) <==> op == SetSlot(t, slot) || (Holds(s, t, slot) && !Ends(op, t, slot))
  {
    assert Maps(s, t, slot) <==> Holds(s, t, slot);
    if !op.ClearSlots? && op.terminalId in s.ofTerminal {
      assert Maps(s, op.terminalId, s.ofTerminal[op.terminalId]);
      assert Holds(s, op.terminalId, s.ofTerminal[op.terminalId]);
    }
  }

  /** A frame on a slot goes to a terminal exactly when the terminal was given the slot and nothing
      later gave the slot to another, moved the terminal, removed it or cleared the slots. */
  lemma {:induction false} RouteIffAssigned(ops: seq<Op>, t: string, slot: int)
    requires Named(ops)
    ensures Route(Run(ops), slot) == Some(t) <==> t != "" && exists i :: AssignedSince(ops, t, slot, i)
  {
    if ops != [] && t != "" {
      var n := |ops| - 1;
      RouteIffAssigned(ops[..n], t, slot);
      RunIsInverse(ops[..n]);
      ApplyHolds(Run(ops[..n]), ops[n], t, slot);
      AssignedSnoc(ops[..n], ops[n], t, slot);
      assert ops == ops[..n] + [ops[n]];
    }
  }

  /** Why the ids must not be empty: here the last assignment moves the terminal with the empty id
      and takes the slot of a terminal that nothing has moved. */
  lemma EmptyIdBreaksRouting()
    ensures var ops := [SetSlot("", 1), SetSlot("a", 1), SetSlot("", 2)];
            Route(Run(ops), 1) == None && AssignedSince(ops, "a", 1, 1)
  {
    var ops := [SetSlot("", 1), SetSlot("a", 1), SetSlot("", 2)];
    assert ops[..2][..1] == [SetSlot("", 1)] && [SetSlot("", 1)][..0] == [];
    assert ops[..2] == [SetSlot("", 1), SetSlot("a", 1)];
    assert Run([SetSlot("", 1)]) == Assign(NO_SLOTS, "", 1);
    assert Run(ops[..2]) == Assign(Run(ops[..2][..1]), "a", 1);
    assert Run(ops) == Assign(Run(ops[..2]), "", 2);
    assert Run(ops[..2]).ofTerminal[""] == 1;
  }

  // ----- The router -----

  datatype Opcode = Output | Restore | Snapshot | Input | Resize

  datatype Frame<P> = Frame(opcode: Opcode, slot: int, payload: P)

  datatype Event<P, S> =
    | OutputEvent(terminalId: string, data: P)
    | RestoreEvent(terminalId: string, data: P)
    | SnapshotEvent(terminalId: string, state: S)

  datatype Message<P> = InputMessage(data: P) | ResizeMessage(data: P) | OtherMessage

  class Router {
    var terminalSlots: map<string, int>
    var slotTerminals: map<int, string>

    ghost function Contents(): Slots
      reads this
    {
      Slots(terminalSlots, slotTerminals)
    }

    constructor ()
      ensures Contents() == NO_SLOTS
    {
      terminalSlots, slotTerminals := map[], map[];
    }

    method SetSlot(terminalId: string, slot: int)
      modifies this
      ensures Contents() == Apply(old(Contents()), Op.SetSlot(terminalId, slot))
    {
      if slot in slotTerminals && slotTerminals[slot] != "" && slotTerminals[slot] != terminalId {
        terminalSlots := terminalSlots - {slotTerminals[slot]};
      }
      if terminalId in terminalSlots && terminalSlots[terminalId] != slot {
        slotTerminals := slotTerminals - {terminalSlots[terminalId]};
      }
      terminalSlots := terminalSlots[terminalId := slot];
      slotTerminals := slotTerminals[slot := terminalId];
    }

    method RemoveTerminal(terminalId: string)
      modifies this
      ensures Contents() == Apply(old(Contents()), Op.RemoveTerminal(terminalId))
    {
      if terminalId !in terminalSlots {
        return;
      }
      var slot := terminalSlots[terminalId];
      terminalSlots := terminalSlots - {terminalId};
      if slot in slotTerminals && slotTerminals[slot] == terminalId {
        slotTerminals := slotTerminals - {slot};
      }
    }

    method ClearSlots()
      modifies this
      ensures Contents() == Apply(old(Contents()), Op.ClearSlots)
    {
      terminalSlots, slotTerminals := map[], map[];
    }

    /** The frame that carries a message to a terminal, if it has a slot. */
    method EncodeInput<P>(terminalId: string, message: Message<P>) returns (frame: Option<Frame<P>>)
      ensures frame.Some? <==> terminalId in terminalSlots && !message.OtherMessage?
      ensures frame.Some? ==> Maps(Contents(), terminalId, frame.value.slot) && frame.value.payload == message.data
      ensures frame.Some? ==> (frame.value.opcode == if message.InputMessage? then Input else Resize)
    {
      if terminalId !in terminalSlots {
        return None;
      }
      var slot := terminalSlots[terminalId];
      match message
      case InputMessage(data) => return Some(Frame(Input, slot, data));
      case ResizeMessage(data) => return Some(Frame(Resize, slot, data));
      case OtherMessage => return None;
    }

    /** What the listeners are told about a frame; `decoded` is the decoding of a snapshot payload. */
    method HandleFrame<P, S>(frame: Frame<P>, decoded: Option<S>) returns (event: Option<Event<P, S>>)
      ensures event.Some? <==> (&& Route(Contents(), frame.slot).Some?
                                && (frame.opcode.Output? || frame.opcode.Restore?
                                    || (frame.opcode.Snapshot? && decoded.Some?)))
      ensures event.Some? ==> Route(Contents(), frame.slot) == Some(event.value.terminalId)
      ensures event.Some? ==>
                match event.value
                case OutputEvent(_, data) => frame.opcode.Output? && data == frame.payload
                case RestoreEvent(_, data) => frame.opcode.Restore? && data == frame.payload
                case SnapshotEvent(_, state) => frame.opcode.Snapshot? && decoded == Some(state)
    {
      if frame.slot !in slotTerminals || slotTerminals[frame.slot] == "" {
        return None;
      }
      var terminalId := slotTerminals[frame.slot];
      match frame.opcode
      case Output => return Some(OutputEvent(terminalId, frame.payload));
      case Restore => return Some(RestoreEvent(terminalId, frame.payload));
      case Snapshot =>
        if decoded.None? {
          return None;
        }
        return Some(SnapshotEvent(terminalId, decoded.value));
      case _ => return None;
    }
  }

  /** Input and output agree: a frame on the slot that a terminal's input uses goes to that terminal. */
  lemma {:induction false} InputSlotRoutesBack(ops: seq<Op>, t: string, slot: int)
    requires Named(ops) && t != ""
    ensures Maps(Run(ops), t, slot) <==> Route(Run(ops), slot) == Some(t)
  {
    RunIsInverse(ops);
    assert Maps(Run(ops), t, slot) <==> Holds(Run(ops), t, slot);
  }
}
