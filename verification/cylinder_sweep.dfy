/** Switching cylinders `i`..3 off one after the other, as start-up and shut-down both do: the
    calls, the output word they leave and the card writes they make. */
module CylinderSweep {
  import opened Plant
  import opened Bits
  import Cy = Cylinders
  import RobotLink

  /** `cylinder_i_off()` for `i` from `i` up to 3, in that order, answers ignored. */
  function OffFrom(c: Cy.Cyl, e: Env, i: nat): (r: (Cy.Cyl, Env))
    decreases 4 - i
  {
    if i >= 4 then (c, e)
    else
      var (c1, e1, _) := Cy.AfterSwitch(c, e, i, false);
      OffFrom(c1, e1, i + 1)
  }

  /** The output word after channels `i`..3 have been cleared one after the other. */
  function Cleared(w: bv32, i: nat): bv32
    decreases 4 - i
  {
    if i >= 4 then w else Cleared(Switch(w, Channel(i), false), i + 1)
  }

  /** The card writes those switches make, in order: each writes the whole word with one more
      channel cleared. */
  function OffWrites(card: I16, w: bv32, i: nat): seq<Event>
    decreases 4 - i
  {
    if i >= 4 then []
    else
      var w1 := Switch(w, Channel(i), false);
      [PortWrite(card, w1)] + OffWrites(card, w1, i + 1)
  }

  /** The first switch of the sweep, then the rest of it. */
  lemma OffFromUnfold(c: Cy.Cyl, e: Env, i: nat)
    requires i < 4
    ensures var (c1, e1, _) := Cy.AfterSwitch(c, e, i, false);
            OffFrom(c, e, i) == OffFrom(c1, e1, i + 1)
  {
  }

  /** Clearing channel `i`, then channels `i + 1`..3. */
  lemma ClearedUnfold(w: bv32, i: nat)
    requires i < 4
    ensures Cleared(w, i) == Cleared(Switch(w, Channel(i), false), i + 1)
  {
  }

  /** One switch-off on a connected coherent controller writes the card once and keeps the
      controller connected and coherent. */
  lemma OffStep(c: Cy.Cyl, e: Env, i: Cy.CylinderNumber)
    requires Cy.Coherent(c) && c.connected
    ensures var (c1, e1, _) := Cy.AfterSwitch(c, e, i, false);
            && Cy.Coherent(c1) && c1.connected && c1.board.dll.card == c.board.dll.card
            && c1.board.dll.output == Switch(c.board.dll.output, Channel(i), false)
            && e1.trace == e.trace + [PortWrite(c.board.dll.card, c1.board.dll.output)]
  {
    Cy.SwitchDrivesChannel(c, e, i, false);
    Cy.CoherentKept(c, e, 0, i, false);
  }

  /** On a connected coherent controller the switches leave the controller connected and
      coherent, on the same card, with channels `i`..3 cleared ... */
  lemma {:induction false} OffFromState(c: Cy.Cyl, e: Env, i: nat)
    requires Cy.Coherent(c) && c.connected && i <= 4
    ensures var c1 := OffFrom(c, e, i).0;
            && Cy.Coherent(c1) && c1.connected && c1.board.dll.card == c.board.dll.card
            && c1.board.dll.output == Cleared(c.board.dll.output, i)
    decreases 4 - i
  {
    if i < 4 {
      var (c1, e1, _) := Cy.AfterSwitch(c, e, i, false);
      OffStep(c, e, i);
      OffFromState(c1, e1, i + 1);
      OffFromUnfold(c, e, i);
      ClearedUnfold(c.board.dll.output, i);
    }
  }

  /** ... and they write the card once per cylinder, channel 0 first, each time the whole word
      with one more channel cleared. */
  lemma {:induction false} OffFromWrites(c: Cy.Cyl, e: Env, i: nat)
    requires Cy.Coherent(c) && c.connected && i <= 4
    ensures OffFrom(c, e, i).1.trace == e.trace + OffWrites(c.board.dll.card, c.board.dll.output, i)
    decreases 4 - i
  {
    if i < 4 {
      var (c1, e1, _) := Cy.AfterSwitch(c, e, i, false);
      OffStep(c, e, i);
      OffFromWrites(c1, e1, i + 1);
      var card, w1 := c.board.dll.card, c1.board.dll.output;
      var rest := OffWrites(card, w1, i + 1);
      OffFromUnfold(c, e, i);
      RobotLink.Regroup(e.trace, [PortWrite(card, w1)], rest, e1.trace, OffFrom(c, e, i).1.trace);
    }
  }

  /** Clearing channels `i`..3 turns exactly those off and keeps every other channel. */
  lemma {:induction false} ClearedBits(w: bv32, i: nat, j: int)
    requires i <= 4 && 0 <= j < 32
    ensures Bit(Cleared(w, i), Channel(j)) == (if i <= j < 4 then false else Bit(w, Channel(j)))
    decreases 4 - i
  {
    if i < 4 {
      var w1 := Switch(w, Channel(i), false);
      ClearedBits(w1, i + 1, j);
      if j == i {
        SwitchEffect(w, Channel(i), false);
      } else {
        ChannelInjective(i, j);
        SwitchOther(w, Channel(i), Channel(j), false);
      }
    }
  }
}
