/** The timer rules of the two implementations, compared. */
module TimerRules {
  import Common
  import Z = Zeta
  import S = Scheduler

  function PhaseOf(beta: Z.Automata): Common.Phase {
    match beta
    case Null => Common.Null
    case A1(_) => Common.A1
    case A3(_) => Common.A3
    case S1 => Common.S1
    case S2 => Common.S2
    case R1(_, _) => Common.R1
    case R2(_) => Common.R2
  }

  /** The optimised implementation's timers of a session are the plain one's. */
  predicate Matches(z: Z.Zeta, s: S.Session) {
    s.phase == PhaseOf(z.beta) && s.resend == z.resendTimer && s.timeout == z.timeoutTimer
  }

  predicate SameSettings(s: Z.Settings, t: S.Settings) {
    s.resendTime == t.resendTime && s.initialOfferTimeout == t.initialOfferTimeout && s.rekeyTimeout == t.rekeyTimeout
  }

  /** A control packet is due. */
  predicate Speaks(s: S.Session, now: int) {
    if s.timeout <= now then s.phase.S2? else s.resend <= now && (s.phase.S1? || s.phase.R1? || s.phase.R2?)
  }

  /** A service of the two implementations leaves the same state and the same timers, and ends the same
      sessions, except that the optimised one also ends a session that has a control packet to send and
      no counter left for it. */
  lemma SameTimers(z: Z.Zeta, env: Z.Env, x: nat, kid: Z.Kid, s: S.Session, settings: S.Settings)
    requires Matches(z, s) && SameSettings(env.settings, settings) && !z.beta.Null?
    ensures
      var after := Z.Service(z, env, x, kid).zeta;
      var (t, next) := S.ProcessTimers(s, settings, env.now);
      && (next.Some? ==> Matches(after, t))
      && (next.None? <==> after.beta.Null? || (s.exhausted && Speaks(s, env.now)))
  {
  }
}
