/** How a trial comes to be cleared as failed, on any machine. */
module Rejection {
  import opened Protocol
  import opened History

  predicate Records(m: Machine) {
    m.up.On? && m.up.session.pc.Demote? && m.up.session.pc.demote.Recording?
  }

  lemma {:induction false} AssessDoesNotCondemn(m: Machine)
    requires m.up.On?
    ensures !Condemning(At(m, AssessedPc(m.disk, m.up.session)))
  {
  }

  lemma {:induction false} CheckDoesNotCondemn(m: Machine, pc: CheckPc, o: Outcome)
    requires m.up.On? && m.up.session.pc == Check(pc)
    ensures !Condemning(CheckEffect(m, pc, o))
  {
  }

  lemma {:induction false} ArmDoesNotCondemn(m: Machine, pc: ArmPc, o: Outcome)
    requires m.up.On? && m.up.session.pc == Arm(pc)
    ensures !Condemning(ArmEffect(m, pc, o))
  {
  }

  lemma {:induction false} DemoteCondemns(m: Machine, pc: DemotePc, o: Outcome)
    requires m.up.On? && m.up.session.pc == Demote(pc)
    ensures Condemning(DemoteEffect(m, pc, o)) ==> pc.Recording?
    ensures Condemning(DemoteEffect(m, pc, o)) && o != Failed ==> pc.path.target in DemoteEffect(m, pc, o).rejected
  {
  }

  lemma {:induction false} ClearCondemns(m: Machine, pc: ClearPc, o: Outcome)
    requires m.up.On? && m.up.session.pc == Clear(pc)
    ensures Condemning(ClearEffect(m, pc, o)) ==> Condemning(m)
    ensures ClearEffect(m, pc, o).rejected == m.rejected
  {
  }

  /** Only the step that records the target leads to clearing it as failed. */
  lemma {:induction false} CondemnedByRecording(m: Machine, e: Event)
    requires !Is(LostRecord, m, e) && Condemning(Step(m, e))
    ensures Records(m) || Condemning(m)
    ensures Records(m) ==> m.up.session.pc.demote.path.target in Step(m, e).rejected
    ensures Condemning(m) ==> Step(m, e).rejected == m.rejected
  {
    if m.up.On? && e.Do? {
      match m.up.session.pc
      case Loading => AssessDoesNotCondemn(m);
      case Demote(pc) => DemoteCondemns(m, pc, e.o);
      case Clear(pc) => ClearCondemns(m, pc, e.o);
      case Guard(pc) =>
      case Check(pc) => CheckDoesNotCondemn(m, pc, e.o);
      case Arm(pc) => ArmDoesNotCondemn(m, pc, e.o);
      case _ =>
    }
  }
}
