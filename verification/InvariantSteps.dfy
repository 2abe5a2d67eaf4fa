/** Every step before shutdown keeps the invariant. */
module InvariantSteps {
  import opened Base
  import opened Tunnel
  import opened Handlers
  import opened WorkerSteps
  import opened TunnelSystem
  import opened TunnelInvariant
  import opened TakeSteps
  import opened EffectSteps
  import opened GoroutineSteps

  lemma InitOk()
    ensures Inv(INIT)
  {
  }

  /** One step of any kind before shutdown keeps the invariant. */
  lemma StepKeeps(s: Sys, l: Label)
    requires Inv(s) && Up(s) && Enabled(s, l) && Up(Next(s, l))
    ensures Inv(Next(s, l))
  {
    hide Gather;
    hide Inv;
    match l {
      case Look(_) => SendersKeep(s, Next(s, l));
      case Call(r) => CallKeeps(s, r);
      case CallShutdown => CallShutdownKeeps(s);
      case Take => TakeKeeps(s);
      case TakeExit => TakeExitKeeps(s);
      case Exec(dead) => ExecKeeps(s, dead);
      case WorkerStep(i, o, dead) => WorkerStepKeeps(s, i, o, dead);
      case TeardownStop(i, dead) => TeardownStopKeeps(s, i, dead);
      case PostBack(i, drop) => PostBackKeeps(s, i);
      case TimerFires => TimerFiresKeeps(s);
      case ChildDies(c) => ChildDiesKeeps(s, c);
    }
  }
}
