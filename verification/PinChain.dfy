/** Which PIN a PIN change replaced, and which one its caller had shown, when several changes overlap. */
module PinChain {
  import opened Basics
  import opened Auth
  import opened AuthEffects
  import opened Systems
  import opened SystemInvariants
  import PinFlag

  // What a SetPIN call remembers of the hash that it read, and the PIN that its caller showed for it.
  ghost predicate Remembers(matches: Verifier, hashes: seq<PinHash>, p: Call) {
    p.SetPin? ==>
      && (p.checked.Some? ==> 1 <= p.checked.value <= |hashes|)
      && (p.step.CheckingOldPin? ==> p.checked.Some? && p.step.stored == hashes[p.checked.value - 1])
      && (p.step.ResettingBeforeStore? || p.step.Storing? ==>
            p.checked.Some? ==> matches(p.current, hashes[p.checked.value - 1]))
  }

  ghost predicate AllRemember(matches: Verifier, s: Sys) {
    forall id :: id in s.calls ==> Remembers(matches, s.hashes, s.calls[id])
  }

  lemma NextRemembers(matches: Verifier, a: AuthState, hashes: seq<PinHash>, call: Call, c: Choice)
    requires Remembers(matches, hashes, call)
    requires call.SetPin? && call.step.ReadingOldHash? ==> call.checked.None?
    ensures Remembers(matches, hashes, Next(matches, a, hashes, call, c).1)
  {
    hide UnlockNext;
    if call.Unlock? {
      NextMoves(matches, a, hashes, call, c);
    }
  }

  lemma LongerHashes(matches: Verifier, hashes: seq<PinHash>, hashes': seq<PinHash>, call: Call)
    requires Remembers(matches, hashes, call) && hashes <= hashes'
    ensures Remembers(matches, hashes', call)
  {
  }

  // A call that is still to read the hash has checked none.
  ghost predicate ReadersAreNew(s: Sys) {
    forall id :: id in s.calls && s.calls[id].SetPin? && s.calls[id].step.ReadingOldHash? ==> s.calls[id].checked.None?
  }

  lemma NeverReadsAgain(matches: Verifier, a: AuthState, hashes: seq<PinHash>, call: Call, c: Choice)
    ensures var call' := Next(matches, a, hashes, call, c).1;
            call.SetPin? ==>
              && call'.SetPin? && call'.current == call.current
              && !call'.step.ReadingOldHash?
              && (!call.step.ReadingOldHash? ==> call'.checked == call.checked)
              && (call.step.ReadingOldHash? ==>
                    call'.checked == if c.storageFails || hashes == [] then call.checked else Some(|hashes|))
    ensures call.Unlock? ==> Next(matches, a, hashes, call, c).1.Unlock?
  {
    hide UnlockNext;
    if call.Unlock? {
      NextMoves(matches, a, hashes, call, c);
    }
  }

  lemma ChainStep(matches: Verifier, s: Sys, e: Event)
    requires AllRemember(matches, s) && ReadersAreNew(s)
    ensures AllRemember(matches, Step(matches, s, e)) && ReadersAreNew(Step(matches, s, e))
  {
    if Enabled(matches, s, e) {
      var s' := Step(matches, s, e);
      if e.Advance? {
        var call, r := s.calls[e.id], Next(matches, s.auth, s.hashes, s.calls[e.id], e.choice);
        NextRemembers(matches, s.auth, s.hashes, call, e.choice);
        NeverReadsAgain(matches, s.auth, s.hashes, call, e.choice);
        assert s'.calls == s.calls[e.id := r.1] && s.hashes <= s'.hashes;
        hide Next, Step, Remembers;
        forall id | id in s'.calls ensures Remembers(matches, s'.hashes, s'.calls[id]) {
          LongerHashes(matches, s.hashes, s'.hashes, s'.calls[id]);
        }
      } else {
        EnvironmentMoves(matches, s, e);
        hide Step, DrawsTokens;
      }
    }
  }

  lemma {:induction false} ChainRun(matches: Verifier, s: Sys, es: seq<Event>)
    requires AllRemember(matches, s) && ReadersAreNew(s)
    ensures AllRemember(matches, Run(matches, s, es)) && ReadersAreNew(Run(matches, s, es))
    decreases |es|
  {
    hide Step, AllRemember, ReadersAreNew;
    if es != [] {
      ChainStep(matches, s, es[0]);
      ChainRun(matches, Step(matches, s, es[0]), es[1..]);
    }
  }

  // A step that stores a hash.
  predicate StoresHash(matches: Verifier, s: Sys, e: Event) {
    && Enabled(matches, s, e) && e.Advance? && s.calls[e.id].SetPin? && s.calls[e.id].step.Storing?
    && !e.choice.storageFails && e.choice.hash.Some?
  }

  function StoresIn(matches: Verifier, s: Sys, es: seq<Event>): nat
    decreases |es|
  {
    if es == [] then 0
    else (if StoresHash(matches, s, es[0]) then 1 else 0) + StoresIn(matches, Step(matches, s, es[0]), es[1..])
  }

  lemma StepStores(matches: Verifier, s: Sys, e: Event)
    ensures var s' := Step(matches, s, e);
            s.hashes <= s'.hashes && |s'.hashes| == |s.hashes| + if StoresHash(matches, s, e) then 1 else 0
  {
    if Enabled(matches, s, e) && !e.Advance? {
      EnvironmentMoves(matches, s, e);
    }
    hide RedeemUnlockTicket;
  }

  // A SetPIN call past its read keeps what it has checked.
  lemma StepKeepsChecked(matches: Verifier, s: Sys, e: Event, id: nat)
    requires id in s.calls && s.calls[id].SetPin? && !s.calls[id].step.ReadingOldHash?
    ensures var s' := Step(matches, s, e);
            && id in s'.calls && s'.calls[id].SetPin? && !s'.calls[id].step.ReadingOldHash?
            && s'.calls[id].checked == s.calls[id].checked && s'.calls[id].current == s.calls[id].current
  {
    if Enabled(matches, s, e) {
      if e.Advance? {
        NeverReadsAgain(matches, s.auth, s.hashes, s.calls[e.id], e.choice);
        hide Next;
      } else {
        EnvironmentMoves(matches, s, e);
        hide Step;
      }
    }
  }

  lemma {:induction false} RunStores(matches: Verifier, s: Sys, es: seq<Event>, id: nat)
    requires id in s.calls && s.calls[id].SetPin? && !s.calls[id].step.ReadingOldHash?
    ensures var s' := Run(matches, s, es);
            && s.hashes <= s'.hashes && |s'.hashes| == |s.hashes| + StoresIn(matches, s, es)
            && id in s'.calls && s'.calls[id].SetPin?
            && s'.calls[id].checked == s.calls[id].checked && s'.calls[id].current == s.calls[id].current
    decreases |es|
  {
    hide Step, StoresHash;
    if es != [] {
      StepStores(matches, s, es[0]);
      StepKeepsChecked(matches, s, es[0], id);
      RunStores(matches, Step(matches, s, es[0]), es[1..], id);
    }
  }

  /** In every interleaving: the SetPIN call that stores version v had checked no PIN if its read of the old hash
      failed or nothing was stored, and else its caller had shown a PIN matching the version current at that read.
      That was version v - 1 if and only if no other SetPIN stored between this read and this store. */
  lemma StoredOver(matches: Verifier, hashes: seq<PinHash>, readFails: bool, now: Time, before: seq<Event>,
                   id: nat, c: Choice, between: seq<Event>, c': Choice)
    requires var s := Run(matches, Boot(hashes, readFails, now), before);
             && Enabled(matches, s, Advance(id, c)) && s.calls[id].SetPin? && s.calls[id].step.ReadingOldHash?
             && StoresHash(matches, Run(matches, Step(matches, s, Advance(id, c)), between), Advance(id, c'))
    ensures var s := Run(matches, Boot(hashes, readFails, now), before);
            var s1 := Step(matches, s, Advance(id, c));
            var s2 := Run(matches, s1, between);
            var v, checked := |Step(matches, s2, Advance(id, c')).hashes|, s2.calls[id].checked;
            && v == |s2.hashes| + 1 && s2.calls[id].current == s.calls[id].current
            && (checked.None? <==> c.storageFails || s.hashes == [])
            && (checked.Some? ==> checked.value == |s.hashes| && matches(s.calls[id].current, s.hashes[|s.hashes| - 1]))
            && (checked == Some(v - 1) <==> checked.Some? && StoresIn(matches, s1, between) == 0)
  {
    var boot := Boot(hashes, readFails, now);
    ChainRun(matches, boot, before);
    var s := Run(matches, boot, before);
    var s1 := Step(matches, s, Advance(id, c));
    ChainStep(matches, s, Advance(id, c));
    ReadStep(matches, s, id, c);
    hide Step, Run, StoresIn;
    ChainRun(matches, s1, between);
    RunStores(matches, s1, between, id);
    var s2 := Run(matches, s1, between);
    StepStores(matches, s2, Advance(id, c'));
    assert Remembers(matches, s2.hashes, s2.calls[id]);
  }

  lemma ReadStep(matches: Verifier, s: Sys, id: nat, c: Choice)
    requires Enabled(matches, s, Advance(id, c)) && s.calls[id].SetPin? && s.calls[id].step.ReadingOldHash?
    requires s.calls[id].checked.None?
    ensures var s' := Step(matches, s, Advance(id, c));
            && s'.hashes == s.hashes && id in s'.calls && s'.calls[id].SetPin? && !s'.calls[id].step.ReadingOldHash?
            && s'.calls[id].current == s.calls[id].current
            && s'.calls[id].checked == if c.storageFails || s.hashes == [] then None else Some(|s.hashes|)
  {
  }

  // ---- Overlapping changes ----

  function WithHash(hash: PinHash): Choice {
    Choice(0, None, false, Some(hash))
  }

  function Plain(): Choice {
    Choice(0, None, false, None)
  }

  function Calls(): seq<Event> {
    [CallSetPin(0, Token(2), "", "1111", 0), CallSetPin(1, Token(2), "", "2222", 0)]
  }

  ghost predicate BothAt(s: Sys, step: SetPinStage) {
    && s.now == 0 && s.calls == map[0 := SetPin("", "1111", None, step), 1 := SetPin("", "2222", None, step)]
  }

  lemma BothAsk(matches: Verifier, s: Sys)
    requires s.now == 0 && s.calls == map[] && Token(2) in s.auth.sessions && 0 <= s.auth.sessions[Token(2)]
    ensures var s' := Step(matches, Step(matches, s, Calls()[0]), Calls()[1]);
            BothAt(s', ReadingOldHash) && s'.hashes == s.hashes
  {
    assert ValidPin("1111") && ValidPin("2222");
  }

  lemma BothFindNone(matches: Verifier, s: Sys)
    requires BothAt(s, ReadingOldHash) && s.hashes == []
    ensures var s' := Step(matches, Step(matches, s, Advance(0, Plain())), Advance(1, Plain()));
            BothAt(s', Storing) && s'.hashes == []
  {
  }

  lemma BothStore(matches: Verifier, s: Sys, h: PinHash, h': PinHash)
    requires BothAt(s, Storing) && s.hashes == [] && matches("1111", h) && matches("2222", h')
    ensures var s1 := Step(matches, s, Advance(0, WithHash(h)));
            s1.hashes == [h] && StoresHash(matches, s1, Advance(1, WithHash(h'))) && s1.calls[1].checked.None?
            && Step(matches, s1, Advance(1, WithHash(h'))).hashes == [h, h']
  {
  }

  /** Changes can overlap: on a server without a PIN two SetPIN calls both find none, both store, and the second
      replaces the PIN of the first without having been shown it. */
  lemma SecondChangeUnchecked(matches: Verifier, h: PinHash, h': PinHash)
    requires matches("1111", h) && matches("2222", h')
    ensures var run := PinFlag.FirstLogin(0) + (Calls() + ([Advance(0, Plain()), Advance(1, Plain())] + [Advance(0, WithHash(h))]));
            var s := Run(matches, Boot([], false, 0), run);
            && s.hashes == [h] && 1 in s.calls && s.calls[1].SetPin? && s.calls[1].checked.None?
            && StoresHash(matches, s, Advance(1, WithHash(h')))
            && Step(matches, s, Advance(1, WithHash(h'))).hashes == [h, h']
  {
    var boot, asks, store := Boot([], false, 0), [Advance(0, Plain()), Advance(1, Plain())], [Advance(0, WithHash(h))];
    PinFlag.FirstLoginRun(matches, [], false, 0);
    hide Step, StoresHash;
    RunConcat(matches, boot, PinFlag.FirstLogin(0), Calls() + (asks + store));
    var s := Run(matches, boot, PinFlag.FirstLogin(0));
    BothAsk(matches, s);
    TwoThen(matches, s, Calls(), asks + store);
    var s1 := Step(matches, Step(matches, s, Calls()[0]), Calls()[1]);
    BothFindNone(matches, s1);
    TwoThen(matches, s1, asks, store);
    var s2 := Step(matches, Step(matches, s1, asks[0]), asks[1]);
    BothStore(matches, s2, h, h');
    FirstStep(matches, s2, store);
    StepKeepsChecked(matches, s2, store[0], 1);
  }
}
