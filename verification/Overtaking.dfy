/** What happens when a wrong PIN is recorded while another call has passed its rate check: the other half of the
    bound on guesses. */
module Overtaking {
  import opened Basics
  import opened Auth
  import opened Systems
  import opened SystemInvariants
  import opened Lockout
  import opened SoloCalls

  lemma StepFailures(matches: Verifier, s: Sys, id: nat, c: Choice)
    requires Enabled(matches, s, Advance(id, c))
    ensures var s' := Step(matches, s, Advance(id, c));
            && id in s'.calls && s'.calls == s.calls[id := s'.calls[id]] && s'.now == c.now
            && (if Recording(s.calls[id]) then
                  && s'.failures == s.failures + [c.now] && !Recording(s'.calls[id])
                  && s'.auth.lockedUntil == c.now + Backoff(s.auth.pinFailures + 1)
                else s'.failures == s.failures || s'.failures == [])
  {
    NextCheckMoves(matches, s.auth, s.hashes, s.calls[id], c);
    NextLockMoves(matches, s.auth, s.hashes, s.calls[id], c);
    hide Next, Call.Done, PastCheck, Recording, Backoff;
  }

  /** Two successive steps at one instant record two wrong PINs if and only if two different calls stand at a
      recording stage, be they Unlock or SetPIN calls. */
  lemma RaceExactly(matches: Verifier, s: Sys, a: nat, b: nat, c: Choice, c': Choice)
    requires Enabled(matches, s, Advance(a, c)) && c'.now == c.now
    requires Enabled(matches, Step(matches, s, Advance(a, c)), Advance(b, c'))
    ensures Step(matches, Step(matches, s, Advance(a, c)), Advance(b, c')).failures == s.failures + [c.now, c.now]
            <==> a != b && b in s.calls && Recording(s.calls[a]) && Recording(s.calls[b])
  {
    hide Step, Enabled, Recording, Backoff;
    StepFailures(matches, s, a, c);
    var s1 := Step(matches, s, Advance(a, c));
    StepFailures(matches, s1, b, c');
    assert b in s1.calls by { EnabledIsKnown(matches, s1, b, c'); }
    assert s.failures + [c.now] + [c.now] == s.failures + [c.now, c.now];
  }

  lemma EnabledIsKnown(matches: Verifier, s: Sys, id: nat, c: Choice)
    requires Enabled(matches, s, Advance(id, c))
    ensures id in s.calls
  {
  }

  /** From every state in which two calls stand at a recording stage the race is possible, at any instant. */
  lemma RecordingCallsCanRace(matches: Verifier, s: Sys, a: nat, b: nat, t: Time)
    requires a != b && a in s.calls && b in s.calls && Recording(s.calls[a]) && Recording(s.calls[b])
    requires s.now <= t
    ensures Run(matches, s, [Advance(a, Calm(t)), Advance(b, Calm(t))]).failures == s.failures + [t, t]
  {
    var es := [Advance(a, Calm(t)), Advance(b, Calm(t))];
    var s1 := Step(matches, s, es[0]);
    assert Enabled(matches, s, es[0]);
    StepFailures(matches, s, a, Calm(t));
    assert Enabled(matches, s1, es[1]);
    hide Step, Enabled, Recording;
    RaceExactly(matches, s, a, b, Calm(t), Calm(t));
    TwoThen(matches, s, es, []);
  }

  /** In every reachable state: right after call `a` has recorded a wrong PIN at instant t, call `b`, left to run on
      alone at t, records another one if and only if it had already passed its rate check and its PIN is bound to be
      found wrong. So a schedule spaces the wrong PINs by its order alone only if no such call is ever overtaken. */
  lemma OvertakenGuessExactly(matches: Verifier, hashes: seq<PinHash>, readFails: bool, start: Time, es: seq<Event>,
                              a: nat, b: nat, t: Time, random: Option<Token>)
    requires 0 <= start
    requires var s := Run(matches, Boot(hashes, readFails, start), es);
             a in s.calls && Recording(s.calls[a]) && b in s.calls && b != a && s.now <= t && Fresh(s, random)
    ensures var s := Run(matches, Boot(hashes, readFails, start), es);
            var s' := Step(matches, s, Advance(a, Calm(t)));
            && b in s'.calls && s'.calls[b] == s.calls[b]
            && s'.failures == s.failures + [t] && t < s'.auth.lockedUntil
            && (Run(matches, s', Alone(b, t, random, Place(s.calls[b]))).failures == s.failures + [t, t]
                <==> BoundToFail(matches, s', s.calls[b], Choice(t, random, false, None)))
            && (BoundToFail(matches, s', s.calls[b], Choice(t, random, false, None)) ==> PastCheck(s.calls[b]))
  {
    var s := Run(matches, Boot(hashes, readFails, start), es);
    var e := Advance(a, Calm(t));
    assert Enabled(matches, s, e);
    StepFailures(matches, s, a, Calm(t));
    BackoffIsPositive(s.auth.pinFailures + 1);
    var s' := Step(matches, s, e);
    assert s'.issued == s.issued;
    hide Step, Run, BoundToFail, Backoff, Recording, PastCheck;
    assert s.failures + [t] + [t] == s.failures + [t, t];
    FailsAloneExactly(matches, s', b, t, random);
  }

  lemma BackoffIsPositive(n: nat)
    requires n >= 1
    ensures Backoff(n) > 0
  {
    BackoffIsClampedPower(n);
    PowerGrows(0, n);
  }
}
