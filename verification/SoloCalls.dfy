/** One call left to run alone at one instant while every other call stands still. */
module SoloCalls {
  import opened Basics
  import opened Auth
  import opened AuthEffects
  import opened Systems
  import opened SystemInvariants
  import opened Lockout
  import opened Servers
  import opened Outcomes

  // A step at instant t in which no token is drawn and no storage access fails.
  function Calm(t: Time): Choice {
    Choice(t, None, false, None)
  }

  // The choices of a whole call at instant t. Only the second step may draw a token.
  function Steady(t: Time, random: Option<Token>): seq<Choice> {
    [Calm(t), Choice(t, random, false, None), Calm(t), Calm(t), Calm(t), Calm(t)]
  }

  function Alone(id: nat, t: Time, random: Option<Token>, i: nat): seq<Event>
    requires i <= 6
  {
    Advances(id, Steady(t, random), i)
  }

  lemma RunAlone(matches: Verifier, s: Sys, id: nat, t: Time, random: Option<Token>, i: nat)
    requires i < 6
    ensures Run(matches, s, Alone(id, t, random, i))
         == Run(matches, Step(matches, s, Advance(id, Steady(t, random)[i])), Alone(id, t, random, i + 1))
  {
    var es := Alone(id, t, random, i);
    assert es[0] == Advance(id, Steady(t, random)[i]) && es[1..] == Alone(id, t, random, i + 1);
  }

  ghost predicate Ready(s: Sys, id: nat, t: Time, random: Option<Token>, i: nat) {
    id in s.calls && s.now <= t && (i <= 1 ==> Fresh(s, random))
  }

  lemma StepAlone(matches: Verifier, s: Sys, id: nat, t: Time, random: Option<Token>, i: nat)
    requires i < 6 && Ready(s, id, t, random, i)
    ensures var e := Advance(id, Steady(t, random)[i]);
            var s' := Step(matches, s, e);
            && (if s.calls[id].Done() then s' == s else Enabled(matches, s, e) && s' == Advanced(matches, s, id, e.choice) && s'.now == t)
            && Ready(s', id, t, random, i + 1)
            && s'.calls == s.calls[id := s'.calls[id]]
            && s.issued <= s'.issued <= Draw(s.issued, random)
            && s'.generated == s.generated
  {
    hide Next, Call.Done;
  }

  lemma {:induction false} AloneIsFeasible(matches: Verifier, s: Sys, id: nat, t: Time, random: Option<Token>, i: nat)
    requires i <= 6 && Ready(s, id, t, random, i)
    ensures Feasible(matches, s, id, Steady(t, random), i)
    decreases 6 - i
  {
    if i < 6 && !s.calls[id].Done() {
      StepAlone(matches, s, id, t, random, i);
      hide Step, Enabled, Advanced, Call.Done;
      AloneIsFeasible(matches, Step(matches, s, Advance(id, Steady(t, random)[i])), id, t, random, i + 1);
    }
  }

  /** A call that runs alone changes no other call, and draws no other token. */
  lemma {:induction false} AloneLeavesTheRest(matches: Verifier, s: Sys, id: nat, t: Time, random: Option<Token>, i: nat)
    requires i <= 6 && Ready(s, id, t, random, i)
    ensures var s' := Run(matches, s, Alone(id, t, random, i));
            && id in s'.calls && s'.calls == s.calls[id := s'.calls[id]]
            && s.issued <= s'.issued <= Draw(s.issued, random)
            && s'.generated == s.generated
            && s'.now == if i == 6 || s.calls[id].Done() then s.now else t
    decreases 6 - i
  {
    if i < 6 {
      StepAlone(matches, s, id, t, random, i);
      RunAlone(matches, s, id, t, random, i);
      hide Step, Enabled, Advanced, Call.Done;
      AloneLeavesTheRest(matches, Step(matches, s, Advance(id, Steady(t, random)[i])), id, t, random, i + 1);
    }
  }

  // ---- Which calls record a failure when they run alone ----

  // A call that records and resets nothing any more.
  predicate Quiet(call: Call) {
    if call.Unlock? then call.stage.Revoking? || call.stage.Replied? else call.step.Answered?
  }

  // A call that cannot record a failure at instant t: it has its verdict, or has yet to meet the lock.
  predicate Harmless(a: AuthState, call: Call, t: Time) {
    if call.Unlock? then
      Quiet(call) || call.stage.ResettingFailures? || (call.stage.CheckingLimit? && RateLimited(a, t))
    else
      (call.step.ReadingOldHash? || call.step.CheckingOldPin? ==> RateLimited(a, t)) && !call.step.RecordingWrongPin?
  }

  lemma HarmlessStays(matches: Verifier, s: Sys, id: nat, c: Choice)
    requires id in s.calls && Harmless(s.auth, s.calls[id], c.now)
    ensures var s' := Advanced(matches, s, id, c);
            && Harmless(s'.auth, s'.calls[id], c.now)
            && (s'.failures == s.failures || s'.failures == [])
            && (Quiet(s.calls[id]) ==> Quiet(s'.calls[id]) && s'.failures == s.failures)
  {
    hide RedeemUnlockTicket;
  }

  lemma {:induction false} HarmlessAlone(matches: Verifier, s: Sys, id: nat, t: Time, random: Option<Token>, i: nat)
    requires i <= 6 && Ready(s, id, t, random, i) && Harmless(s.auth, s.calls[id], t)
    ensures var s' := Run(matches, s, Alone(id, t, random, i));
            && (s'.failures == s.failures || s'.failures == [])
            && (Quiet(s.calls[id]) ==> s'.failures == s.failures)
    decreases 6 - i
  {
    if i < 6 {
      RunAlone(matches, s, id, t, random, i);
      StepAlone(matches, s, id, t, random, i);
      HarmlessStays(matches, s, id, Steady(t, random)[i]);
      hide Step, Enabled, Advanced, Call.Done, Harmless, Quiet;
      HarmlessAlone(matches, Step(matches, s, Advance(id, Steady(t, random)[i])), id, t, random, i + 1);
    }
  }

  /** A call past its rate check whose verdict will be a wrong PIN. */
  ghost predicate BoundToFail(matches: Verifier, s: Sys, call: Call, c: Choice) {
    if call.SetPin? then call.step.RecordingWrongPin?
    else match call.stage
         case Redeeming => Buys(s.auth, call.ticket, c) && s.hashes != [] && !matches(call.pin, Current(s.hashes))
         case ReadingHash(_, _) => s.hashes != [] && !matches(call.pin, Current(s.hashes))
         case RecordingFailure(_) => true
         case _ => false
  }

  // How far a call has come in its sequence of steps.
  function Place(call: Call): nat {
    if call.Unlock? then
      match call.stage
      case CheckingLimit => 0
      case Redeeming => 1
      case ReadingHash(_, _) => 2
      case _ => 3
    else 0
  }

  lemma RecordingAlone(matches: Verifier, s: Sys, id: nat, t: Time, random: Option<Token>, i: nat)
    requires i < 6 && Ready(s, id, t, random, i) && Recording(s.calls[id])
    ensures Run(matches, s, Alone(id, t, random, i)).failures == s.failures + [t]
  {
    RunAlone(matches, s, id, t, random, i);
    StepAlone(matches, s, id, t, random, i);
    var s' := Step(matches, s, Advance(id, Steady(t, random)[i]));
    assert Quiet(s'.calls[id]) && s'.failures == s.failures + [t];
    hide Step;
    HarmlessAlone(matches, s', id, t, random, i + 1);
  }

  lemma ReadingAlone(matches: Verifier, s: Sys, id: nat, t: Time, random: Option<Token>)
    requires Ready(s, id, t, random, 2) && s.calls[id].Unlock? && s.calls[id].stage.ReadingHash?
    ensures Run(matches, s, Alone(id, t, random, 2)).failures == s.failures + [t]
            <==> s.hashes != [] && !matches(s.calls[id].pin, Current(s.hashes))
  {
    RunAlone(matches, s, id, t, random, 2);
    StepAlone(matches, s, id, t, random, 2);
    var s' := Step(matches, s, Advance(id, Steady(t, random)[2]));
    hide RedeemUnlockTicket;
    assert s'.failures == s.failures;
    if s.hashes != [] && !matches(s.calls[id].pin, Current(s.hashes)) {
      assert Recording(s'.calls[id]);
      hide Step;
      RecordingAlone(matches, s', id, t, random, 3);
    } else {
      assert Harmless(s'.auth, s'.calls[id], t);
      hide Step;
      HarmlessAlone(matches, s', id, t, random, 3);
    }
  }

  lemma RedeemingStep(matches: Verifier, s: Sys, id: nat, t: Time, random: Option<Token>)
    requires Ready(s, id, t, random, 1) && s.calls[id].Unlock? && s.calls[id].stage.Redeeming?
    ensures var s' := Step(matches, s, Advance(id, Steady(t, random)[1]));
            && s'.failures == s.failures && s'.hashes == s.hashes
            && s'.calls[id].Unlock? && s'.calls[id].pin == s.calls[id].pin
            && (if Buys(s.auth, s.calls[id].ticket, Choice(t, random, false, None)) then s'.calls[id].stage.ReadingHash?
                else Quiet(s'.calls[id]))
  {
    StepAlone(matches, s, id, t, random, 1);
    Redemption(s.auth, s.calls[id].ticket, Steady(t, random)[1]);
    hide RedeemUnlockTicket;
  }

  lemma RedeemingAlone(matches: Verifier, s: Sys, id: nat, t: Time, random: Option<Token>)
    requires Ready(s, id, t, random, 1) && s.calls[id].Unlock? && s.calls[id].stage.Redeeming?
    ensures Run(matches, s, Alone(id, t, random, 1)).failures == s.failures + [t]
            <==> BoundToFail(matches, s, s.calls[id], Choice(t, random, false, None))
  {
    RunAlone(matches, s, id, t, random, 1);
    StepAlone(matches, s, id, t, random, 1);
    RedeemingStep(matches, s, id, t, random);
    var s' := Step(matches, s, Advance(id, Steady(t, random)[1]));
    hide Step, Buys;
    if Buys(s.auth, s.calls[id].ticket, Choice(t, random, false, None)) {
      ReadingAlone(matches, s', id, t, random);
    } else {
      HarmlessAlone(matches, s', id, t, random, 2);
    }
  }

  /** A call that runs on alone while the lock is set records another failure if and only if it is past its rate
      check already and its PIN is bound to be found wrong. */
  lemma FailsAloneExactly(matches: Verifier, s: Sys, id: nat, t: Time, random: Option<Token>)
    requires id in s.calls && s.now <= t && Fresh(s, random) && RateLimited(s.auth, t)
    ensures Run(matches, s, Alone(id, t, random, Place(s.calls[id]))).failures == s.failures + [t]
            <==> BoundToFail(matches, s, s.calls[id], Choice(t, random, false, None))
    ensures BoundToFail(matches, s, s.calls[id], Choice(t, random, false, None)) ==> PastCheck(s.calls[id])
  {
    var call := s.calls[id];
    if Recording(call) {
      RecordingAlone(matches, s, id, t, random, Place(call));
    } else if Harmless(s.auth, call, t) {
      HarmlessAlone(matches, s, id, t, random, Place(call));
    } else if call.stage.ReadingHash? {
      ReadingAlone(matches, s, id, t, random);
    } else {
      RedeemingAlone(matches, s, id, t, random);
    }
  }

  // ---- A whole Unlock at one instant ----

  function WholeUnlock(id: nat, ticket: Token, pin: Pin, t: Time, random: Option<Token>): seq<Event> {
    [CallUnlock(id, ticket, pin)] + Alone(id, t, random, 0)
  }

  lemma UnlockAlone(matches: Verifier, s: Sys, id: nat, ticket: Token, pin: Pin, t: Time, random: Option<Token>)
    requires id !in s.calls && s.now <= t && Fresh(s, random) && s.auth.sessions.Keys <= s.issued
    ensures var s' := Run(matches, s, WholeUnlock(id, ticket, pin, t, random));
            && s'.hashes == s.hashes && s'.now == t && s'.generated == s.generated
            && s.issued <= s'.issued <= Draw(s.issued, random)
            && id in s'.calls && s'.calls == s.calls[id := s'.calls[id]]
            && s'.calls[id].Unlock? && s'.calls[id].stage.Replied?
            && RepliesRightly(matches, s.auth, s.hashes, ticket, pin, Steady(t, random), s'.calls[id].stage.reply)
            && LeavesRightly(s.auth, ticket, Steady(t, random), s'.calls[id].stage.reply, s'.auth)
  {
    var es := WholeUnlock(id, ticket, pin, t, random);
    var s1 := Step(matches, s, es[0]);
    assert es[1..] == Alone(id, t, random, 0);
    assert s1 == s.(calls := s.calls[id := NewUnlock(ticket, pin)]);
    hide Step;
    AloneIsFeasible(matches, s1, id, t, random, 0);
    SoloRun(matches, s1, id, Steady(t, random), 0);
    AloneLeavesTheRest(matches, s1, id, t, random, 0);
    hide RunCall;
    UnlockOutcome(matches, s.auth, s.hashes, ticket, pin, Steady(t, random));
  }

  // The call is made and passes the rate check.
  lemma UnlockPassesCheck(matches: Verifier, s: Sys, id: nat, ticket: Token, pin: Pin, t: Time, random: Option<Token>)
    requires id !in s.calls && s.now <= t && Fresh(s, random) && !RateLimited(s.auth, t)
    ensures var s' := Step(matches, Step(matches, s, CallUnlock(id, ticket, pin)), Advance(id, Calm(t)));
            && s' == s.(calls := s.calls[id := Unlock(ticket, pin, None, Redeeming)], now := t)
            && Run(matches, s, WholeUnlock(id, ticket, pin, t, random)) == Run(matches, s', Alone(id, t, random, 1))
  {
    var es := WholeUnlock(id, ticket, pin, t, random);
    assert es[1..] == Alone(id, t, random, 0);
    RunAlone(matches, Step(matches, s, es[0]), id, t, random, 0);
    hide RedeemUnlockTicket, Run;
    assert Run(matches, s, es) == Run(matches, Step(matches, s, es[0]), es[1..]) by { FirstStep(matches, s, es); }
    var s1 := s.(calls := s.calls[id := Unlock(ticket, pin, None, CheckingLimit)]);
    assert Step(matches, s, es[0]) == s1;
    assert s1.calls[id := Unlock(ticket, pin, None, Redeeming)] == s.calls[id := Unlock(ticket, pin, None, Redeeming)];
  }

  /** A whole Unlock that passes the rate check adds its instant to the failures if and only if its ticket buys a
      session and its PIN is wrong. */
  lemma WrongUnlockAlone(matches: Verifier, s: Sys, id: nat, ticket: Token, pin: Pin, t: Time, random: Option<Token>)
    requires id !in s.calls && s.now <= t && Fresh(s, random) && !RateLimited(s.auth, t)
    ensures Run(matches, s, WholeUnlock(id, ticket, pin, t, random)).failures == s.failures + [t]
            <==> Buys(s.auth, ticket, Choice(t, random, false, None)) && s.hashes != [] && !matches(pin, Current(s.hashes))
  {
    hide Step, Buys;
    UnlockPassesCheck(matches, s, id, ticket, pin, t, random);
    RedeemingAlone(matches, s.(calls := s.calls[id := Unlock(ticket, pin, None, Redeeming)], now := t), id, t, random);
  }
}
