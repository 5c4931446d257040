/** Runs of the PIN prompt: one that closes for too many failures, and ones with any number of wrong PINs that never close. */
module PromptRuns {
  import opened Basics
  import opened Auth
  import opened Systems
  import opened Lockout
  import opened Outcomes
  import opened SoloCalls
  import opened Guesses
  import opened UnlockPrompts

  function Served(es: seq<Event>): seq<Move> {
    if es == [] then [] else [ServerMoves(es[0])] + Served(es[1..])
  }

  // One PIN typed into the prompt, answered at instant t.
  function Submission(id: nat, pin: Pin, t: Time, random: Option<Token>): seq<Move> {
    [Submits(id, pin)] + Served(Alone(id, t, random, 0)) + [Hears]
  }

  // The number of PermissionDenied replies that the prompt hears.
  function Denials(matches: Verifier, w: World, ms: seq<Move>): nat
    decreases |ms|
  {
    if ms == [] then 0
    else (if ms[0].Hears? && ReplyTo(w) == Some(WrongPin) then 1 else 0) + Denials(matches, WorldStep(matches, w, ms[0]), ms[1..])
  }

  lemma {:induction false} WorldConcat(matches: Verifier, w: World, ms: seq<Move>, more: seq<Move>)
    ensures WorldRun(matches, w, ms + more) == WorldRun(matches, WorldRun(matches, w, ms), more)
    ensures Denials(matches, w, ms + more) == Denials(matches, w, ms) + Denials(matches, WorldRun(matches, w, ms), more)
    decreases |ms|
  {
    hide WorldStep;
    if ms == [] {
      assert ms + more == more;
    } else {
      assert (ms + more)[0] == ms[0] && (ms + more)[1..] == ms[1..] + more;
      WorldConcat(matches, WorldStep(matches, w, ms[0]), ms[1..], more);
    }
  }

  lemma {:induction false} ServedRun(matches: Verifier, w: World, es: seq<Event>)
    ensures WorldRun(matches, w, Served(es)) == w.(server := Run(matches, w.server, es))
    ensures Denials(matches, w, Served(es)) == 0
    decreases |es|
  {
    hide Step;
    if es != [] {
      assert Served(es)[0] == ServerMoves(es[0]) && Served(es)[1..] == Served(es[1..]);
      ServedRun(matches, w.(server := Step(matches, w.server, es[0])), es[1..]);
    }
  }

  lemma OneMove(matches: Verifier, w: World, m: Move)
    ensures WorldRun(matches, w, [m]) == WorldStep(matches, w, m)
    ensures Denials(matches, w, [m]) == if m.Hears? && ReplyTo(w) == Some(WrongPin) then 1 else 0
  {
    hide WorldStep, ReplyTo;
    var w' := WorldStep(matches, w, m);
    assert WorldRun(matches, w', []) == w' && Denials(matches, w', []) == 0;
  }

  lemma Submitted(matches: Verifier, w: World, id: nat, pin: Pin)
    requires w.client.phase.Idle? && id !in w.server.calls
    ensures WorldStep(matches, w, Submits(id, pin))
         == World(Step(matches, w.server, CallUnlock(id, w.client.prompt.ticket, pin)), w.client.(phase := Waiting(id)))
  {
  }

  // The prompt before it hears the reply, and after.
  lemma SubmissionRun(matches: Verifier, w: World, id: nat, pin: Pin, t: Time, random: Option<Token>)
    requires w.client.phase.Idle? && id !in w.server.calls && w.server.now <= t && Fresh(w.server, random)
    requires w.server.auth.sessions.Keys <= w.server.issued
    ensures var s' := Run(matches, w.server, WholeUnlock(id, w.client.prompt.ticket, pin, t, random));
            var asked := WorldRun(matches, w, [Submits(id, pin)] + Served(Alone(id, t, random, 0)));
            && id in s'.calls && s'.calls[id].Unlock? && s'.calls[id].stage.Replied?
            && var reply := s'.calls[id].stage.reply;
               && asked == World(s', w.client.(phase := Waiting(id))) && ReplyTo(asked) == Some(reply)
               && WorldRun(matches, w, Submission(id, pin, t, random)) == World(s', Hear(w.client.(phase := Waiting(id)), Translate(reply)))
               && WorldRun(matches, w, Submission(id, pin, t, random)) == WorldStep(matches, asked, Hears)
               && Denials(matches, w, Submission(id, pin, t, random)) == if reply.WrongPin? then 1 else 0
  {
    var ticket := w.client.prompt.ticket;
    var unlock := WholeUnlock(id, ticket, pin, t, random);
    assert unlock[1..] == Alone(id, t, random, 0);
    FirstStep(matches, w.server, unlock);
    UnlockAlone(matches, w.server, id, ticket, pin, t, random);
    hide Run, Step, Hear, RepliesRightly, LeavesRightly, WorldStep;
    Submitted(matches, w, id, pin);
    OneMove(matches, w, Submits(id, pin));
    var w1 := WorldStep(matches, w, Submits(id, pin));
    ServedRun(matches, w1, Alone(id, t, random, 0));
    WorldConcat(matches, w, [Submits(id, pin)], Served(Alone(id, t, random, 0)));
    var asked := WorldRun(matches, w, [Submits(id, pin)] + Served(Alone(id, t, random, 0)));
    assert asked == World(Run(matches, w.server, unlock), w.client.(phase := Waiting(id)));
    WorldConcat(matches, w, [Submits(id, pin)] + Served(Alone(id, t, random, 0)), [Hears]);
    OneMove(matches, asked, Hears);
    Heard(matches, asked);
  }

  lemma Heard(matches: Verifier, w: World)
    requires ReplyTo(w).Some?
    ensures WorldStep(matches, w, Hears) == w.(client := Hear(w.client, Translate(ReplyTo(w).value)))
  {
  }

  lemma WhatIsHeard(c: Client)
    ensures Hear(c, Translate(WrongPin))
         == Client(Prompt(c.prompt.attempts + 1, c.prompt.ticket), if c.prompt.attempts >= 2 then Closed(Fatal) else Idle,
                   c.denied + 1, c.limited)
    ensures Hear(c, Translate(RateLimitedUnlock))
         == Client(Prompt(c.prompt.attempts + 1, c.prompt.ticket), Idle, c.denied, c.limited + 1)
    ensures Hear(c, Translate(TicketRefused)) == c.(phase := Reauthenticating)
  {
  }

  // ---- Any number of wrong PINs, and the prompt stays open ----

  // The prompt waits with a live ticket and a fresh counter, and nothing is locked.
  ghost predicate Poised(w: World, h: PinHash, token: nat, id: nat) {
    && AtRest(w.server, h, token, id) && w.server.auth.lockedUntil <= w.server.now
    && w.client.phase.Idle? && w.client.prompt.attempts == 0
    && w.client.prompt.ticket in w.server.auth.tickets
    && w.server.now <= w.server.auth.tickets[w.client.prompt.ticket]
  }

  // The prompt waits after a wrong PIN has spent its ticket.
  ghost predicate Stung(w: World, h: PinHash, token: nat, id: nat) {
    && AtRest(w.server, h, token, id) && w.server.now <= w.server.auth.lockedUntil
    && w.client.phase.Idle? && w.client.prompt.attempts == 1
    && w.client.prompt.ticket !in w.server.auth.tickets
  }

  lemma WrongPinStings(matches: Verifier, w: World, h: PinHash, token: nat, id: nat, pin: Pin)
    requires Poised(w, h, token, id) && !matches(pin, h)
    ensures var ms := Submission(id, pin, w.server.now, Some(Token(token)));
            Stung(WorldRun(matches, w, ms), h, token + 1, id + 1) && Denials(matches, w, ms) == 1
  {
    WrongPinLeavesAtRest(matches, w.server, h, token, id, w.client.prompt.ticket, pin, w.server.now);
    WhatIsHeard(w.client.(phase := Waiting(id)));
    hide Hear, Translate;
    SubmissionRun(matches, w, id, pin, w.server.now, Some(Token(token)));
    hide Run, WorldRun, AtRest, Submission;
  }

  // After the delay, the next PIN typed meets the spent ticket.
  lemma SpentTicketIsRefused(matches: Verifier, w: World, h: PinHash, token: nat, id: nat, pin: Pin)
    requires Stung(w, h, token, id)
    ensures var t := w.server.auth.lockedUntil;
            var ms := Submission(id, pin, t, None);
            var w' := WorldRun(matches, w, ms);
            && AtRest(w'.server, h, token, id + 1) && w'.server.now == t == w'.server.auth.lockedUntil
            && w'.client == w.client.(phase := Reauthenticating) && Denials(matches, w, ms) == 0
  {
    var t := w.server.auth.lockedUntil;
    WhatIsHeard(w.client.(phase := Waiting(id)));
    hide Hear, Translate;
    SubmissionRun(matches, w, id, pin, t, None);
    NoVerdictLeavesAtRest(matches, w.server, h, token, id, w.client.prompt.ticket, pin, t);
    hide Run, WorldRun, Submission, AtRest;
  }

  function Renewal(nonce: Token, ticket: Token, t: Time): seq<Move> {
    [ServerMoves(GenerateChallenge(t, Some(nonce))), Reauthenticates(nonce, Readings(t, t, t), Some(ticket))]
  }

  lemma Renewed(matches: Verifier, w: World, h: PinHash, token: nat, id: nat)
    requires AtRest(w.server, h, token, id) && w.server.now == w.server.auth.lockedUntil && w.client.phase.Reauthenticating?
    ensures var ms := Renewal(Token(token), Token(token + 1), w.server.now);
            Poised(WorldRun(matches, w, ms), h, token + 2, id) && Denials(matches, w, ms) == 0
  {
    var nonce, ticket, t := Token(token), Token(token + 1), w.server.now;
    var ms, es := Renewal(nonce, ticket, t), TakeTicket(nonce, ticket, t);
    TicketIsTaken(matches, w.server, nonce, ticket, t);
    NonceGivesTicket(w.server.auth, nonce, ticket, t);
    assert ms == [ms[0]] + [ms[1]];
    WorldConcat(matches, w, [ms[0]], [ms[1]]);
    OneMove(matches, w, ms[0]);
    var w1 := WorldStep(matches, w, ms[0]);
    assert w1 == World(Step(matches, w.server, es[0]), w.client);
    OneMove(matches, w1, ms[1]);
    hide Run, WorldRun, Denials, VerifyNonce, Auth.GenerateChallenge, Unexpired;
    assert w1.server.auth == Auth.GenerateChallenge(w.server.auth, t, Some(nonce)).0;
    assert Enabled(matches, w1.server, es[1]);
    RenewalAnswers(matches, w1, nonce, Readings(t, t, t), Some(ticket));
    hide Step, Enabled, Readings.From, Reauthenticate;
    assert WorldStep(matches, w1, ms[1]).server == Run(matches, w.server, es);
  }

  // A wrong PIN, a refused one and a re-authentication: the prompt is where it was.
  lemma WrongPinRound(matches: Verifier, w: World, h: PinHash, token: nat, id: nat, pin: Pin) returns (ms: seq<Move>)
    requires Poised(w, h, token, id) && !matches(pin, h)
    ensures Poised(WorldRun(matches, w, ms), h, token + 3, id + 2) && Denials(matches, w, ms) == 1
  {
    var first := Submission(id, pin, w.server.now, Some(Token(token)));
    WrongPinStings(matches, w, h, token, id, pin);
    var w1 := WorldRun(matches, w, first);
    var second := Submission(id + 1, pin, w1.server.auth.lockedUntil, None);
    SpentTicketIsRefused(matches, w1, h, token + 1, id + 1, pin);
    var w2 := WorldRun(matches, w1, second);
    var third := Renewal(Token(token + 1), Token(token + 2), w2.server.now);
    Renewed(matches, w2, h, token + 1, id + 2);
    hide *;
    ms := first + second + third;
    WorldConcat(matches, w, first, second);
    WorldConcat(matches, w, first + second, third);
  }

  /** However many wrong PINs the prompt is told of, none of them need close it: for every n there is a run with n
      PermissionDenied replies after which it still waits for a PIN. */
  lemma {:induction false} WrongPinsAloneNeverClose(matches: Verifier, h: PinHash, pin: Pin, n: nat) returns (ms: seq<Move>)
    requires !matches(pin, h)
    ensures var w := Open(matches, [h], false, 0, TakeTicket(Token(0), Token(1), 0), Token(1));
            && Denials(matches, w, ms) == n
            && WorldRun(matches, w, ms).client.phase == Idle
            && Poised(WorldRun(matches, w, ms), h, 3 * n + 2, 2 * n)
  {
    var w := Open(matches, [h], false, 0, TakeTicket(Token(0), Token(1), 0), Token(1));
    if n == 0 {
      ms := [];
      TicketIsTaken(matches, Boot([h], false, 0), Token(0), Token(1), 0);
      hide Run;
    } else {
      var before := WrongPinsAloneNeverClose(matches, h, pin, n - 1);
      var round := WrongPinRound(matches, WorldRun(matches, w, before), h, 3 * (n - 1) + 2, 2 * (n - 1), pin);
      ms := before + round;
      hide Open, AtRest;
      WorldConcat(matches, w, before, round);
    }
  }

  // ---- Rate-limited replies, then a wrong PIN ----

  // The prompt has been rate-limited n times since its authentication; its ticket outlives the lock.
  ghost predicate Limited(w: World, h: PinHash, token: nat, id: nat, n: nat) {
    && AtRest(w.server, h, token, id) && w.server.now < w.server.auth.lockedUntil
    && w.client == Client(Prompt(n, w.client.prompt.ticket), Idle, 0, n)
    && w.client.prompt.ticket in w.server.auth.tickets
    && w.server.auth.lockedUntil <= w.server.auth.tickets[w.client.prompt.ticket]
  }

  lemma LimitedOnceMore(matches: Verifier, w: World, h: PinHash, token: nat, id: nat, pin: Pin, n: nat)
    requires Limited(w, h, token, id, n)
    ensures var ms := Submission(id, pin, w.server.now, None);
            Limited(WorldRun(matches, w, ms), h, token, id + 1, n + 1) && Denials(matches, w, ms) == 0
  {
    var t := w.server.now;
    WhatIsHeard(w.client.(phase := Waiting(id)));
    hide Hear, Translate;
    SubmissionRun(matches, w, id, pin, t, None);
    NoVerdictLeavesAtRest(matches, w.server, h, token, id, w.client.prompt.ticket, pin, t);
    hide Run, WorldRun, Submission, AtRest;
  }

  lemma DeniedAfterLimits(matches: Verifier, w: World, h: PinHash, token: nat, id: nat, pin: Pin, n: nat)
    requires Limited(w, h, token, id, n) && !matches(pin, h)
    ensures var ms := Submission(id, pin, w.server.auth.lockedUntil, Some(Token(token)));
            var c := WorldRun(matches, w, ms).client;
            && Denials(matches, w, ms) == 1 && c.limited == n && c.prompt.attempts == n + 1
            && c.phase == if n >= 2 then Closed(Fatal) else Idle
  {
    var t := w.server.auth.lockedUntil;
    WrongPinLeavesAtRest(matches, w.server, h, token, id, w.client.prompt.ticket, pin, t);
    WhatIsHeard(w.client.(phase := Waiting(id)));
    hide Hear, Translate;
    SubmissionRun(matches, w, id, pin, t, Some(Token(token)));
    hide Run, WorldRun, Submission, AtRest;
  }

  lemma OtherCallersWrongPin(matches: Verifier, s: Sys, h: PinHash, pin: Pin)
    requires !matches(pin, h) && AtRest(s, h, 4, 0) && s.now == 0 && s.auth.lockedUntil == NEVER && s.failures == []
    requires s.auth.tickets == map[Token(1) := NONCE_TTL, Token(3) := NONCE_TTL]
    ensures var s' := Run(matches, s, WholeUnlock(0, Token(3), pin, 0, Some(Token(4))));
            && AtRest(s', h, 5, 1) && s'.now == 0 && s'.auth.lockedUntil == 2 * SECOND
            && s'.auth.tickets == map[Token(1) := NONCE_TTL]
  {
    WrongPinLeavesAtRest(matches, s, h, 4, 0, Token(3), pin, 0);
    BackoffIsClampedPower(1);
    assert Pow2(1) == 2;
    var s' := Run(matches, s, WholeUnlock(0, Token(3), pin, 0, Some(Token(4))));
    assert s'.auth.lockedUntil == s'.failures[0] + Backoff(1);
    hide Run, Backoff, AtRest;
    assert map[Token(1) := NONCE_TTL, Token(3) := NONCE_TTL] - {Token(3)} == map[Token(1) := NONCE_TTL];
  }

  lemma OtherCallerLocks(matches: Verifier, h: PinHash, pin: Pin)
    requires !matches(pin, h)
    ensures var w := Open(matches, [h], false, 0, TwoTaken(), Token(1));
            var ms := Served(WholeUnlock(0, Token(3), pin, 0, Some(Token(4))));
            Limited(WorldRun(matches, w, ms), h, 5, 1, 0) && Denials(matches, w, ms) == 0
  {
    var w := Open(matches, [h], false, 0, TwoTaken(), Token(1));
    var es := WholeUnlock(0, Token(3), pin, 0, Some(Token(4)));
    TwoTakenRun(matches, h);
    hide Run, WorldRun, Served, TwoTaken, WholeUnlock, AtRest, Denials;
    OtherCallersWrongPin(matches, w.server, h, pin);
    ServedRun(matches, w, es);
  }

  lemma {:induction false} LimitedTimes(matches: Verifier, h: PinHash, pin: Pin, n: nat) returns (ms: seq<Move>)
    requires !matches(pin, h)
    ensures var w := Open(matches, [h], false, 0, TwoTaken(), Token(1));
            Limited(WorldRun(matches, w, ms), h, 5, n + 1, n) && Denials(matches, w, ms) == 0
  {
    hide *;
    var w := Open(matches, [h], false, 0, TwoTaken(), Token(1));
    if n == 0 {
      ms := Served(WholeUnlock(0, Token(3), pin, 0, Some(Token(4))));
      OtherCallerLocks(matches, h, pin);
    } else {
      var before := LimitedTimes(matches, h, pin, n - 1);
      var w1 := WorldRun(matches, w, before);
      LimitedOnceMore(matches, w1, h, 5, n, pin, n - 1);
      ms := before + Submission(n, pin, w1.server.now, None);
      WorldConcat(matches, w, before, Submission(n, pin, w1.server.now, None));
    }
  }

  /** The exit for too many failures is reachable: for every n there is a run in which n rate-limited replies are
      followed by the first wrong PIN, and it closes the prompt if and only if n is at least two. */
  lemma LimitsThenDenial(matches: Verifier, h: PinHash, pin: Pin, n: nat) returns (ms: seq<Move>)
    requires !matches(pin, h)
    ensures var w := Open(matches, [h], false, 0, TwoTaken(), Token(1));
            var c := WorldRun(matches, w, ms).client;
            && Denials(matches, w, ms) == 1 && c.limited == n && c.prompt.attempts == n + 1
            && c.phase == if n >= 2 then Closed(Fatal) else Idle
  {
    var w := Open(matches, [h], false, 0, TwoTaken(), Token(1));
    var before := LimitedTimes(matches, h, pin, n);
    var w1 := WorldRun(matches, w, before);
    DeniedAfterLimits(matches, w1, h, 5, n + 1, pin, n);
    hide *;
    var last := Submission(n + 1, pin, w1.server.auth.lockedUntil, Some(Token(5)));
    ms := before + last;
    WorldConcat(matches, w, before, last);
  }
}
