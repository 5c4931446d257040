/** The client's PIN prompt: a retry counter and a ticket, composed with the server. */
module UnlockPrompts {
  import opened Basics
  import opened Auth
  import opened AuthEffects
  import opened Systems
  import opened SystemInvariants
  import opened PinFlag
  import Counting
  import PinBarrier

  // What the client sees of an Unlock reply after the status codes have been translated.
  datatype Reply =
    | Session(token: Token, expiresAt: Time)
    | PermissionDenied
    | SessionExpired
    | RateLimited
    | OtherError

  function Translate(reply: UnlockReply): Reply {
    match reply
    case Granted(token, expiresAt) => Reply.Session(token, expiresAt)
    case WrongPin => PermissionDenied
    case TicketRefused => SessionExpired
    case RateLimitedUnlock => RateLimited
    case NoPinConfigured => OtherError
  }

  // The outcome of a GPG re-authentication. Without PIN there is no ticket.
  datatype Reauth = Refused | Accepted(ticket: Token)

  datatype Verdict =
    | Unlocked
    | Retry
    | Fatal

  datatype Prompt = Prompt(attempts: nat, ticket: Token)

  /** One submission of a PIN, given the server's reply and the outcome of the re-authentication it may lead to. */
  function Decide(p: Prompt, reply: Reply, reauth: Reauth): (Prompt, Verdict) {
    var counted := p.(attempts := p.attempts + 1);
    match reply
    case Session(_, _) => (counted, Unlocked)
    case PermissionDenied => (counted, if counted.attempts >= 3 then Fatal else Retry)
    case SessionExpired =>
      (match reauth
       case Refused => (counted, Fatal)
       case Accepted(ticket) => (Prompt(0, ticket), Retry))
    case RateLimited => (counted, Retry)
    case OtherError => (counted, Fatal)
  }

  /** The closure's captured variables. */
  class UnlockPrompt {
    var attempts: nat
    var ticket: Token
    var session: Option<Token>

    constructor (ticket: Token)
      ensures this.attempts == 0 && this.ticket == ticket && session == None
    {
      this.attempts := 0;
      this.ticket := ticket;
      this.session := None;
    }

    method Validate(reply: Reply, reauth: Reauth) returns (verdict: Verdict)
      modifies this
      ensures (Prompt(attempts, ticket), verdict) == Decide(old(Prompt(attempts, ticket)), reply, reauth)
      ensures session == if reply.Session? then Some(reply.token) else old(session)
      ensures verdict.Unlocked? <==> reply.Session?
      ensures verdict.Fatal? <==>
              || reply.OtherError? || (reply.PermissionDenied? && old(attempts) >= 2)
              || (reply.SessionExpired? && reauth.Refused?)
      ensures attempts == if reply.SessionExpired? && reauth.Accepted? then 0 else old(attempts) + 1
      ensures ticket == if reply.SessionExpired? && reauth.Accepted? then reauth.ticket else old(ticket)
    {
      attempts := attempts + 1;
      match reply {
        case Session(token, _) =>
          session := Some(token);
          verdict := Unlocked;
        case PermissionDenied =>
          if attempts >= 3 {
            verdict := Fatal;
          } else {
            verdict := Retry;
          }
        case SessionExpired =>
          if reauth.Refused? {
            verdict := Fatal;
          } else {
            ticket := reauth.ticket;
            attempts := 0;
            verdict := Retry;
          }
        case RateLimited =>
          verdict := Retry;
        case OtherError =>
          verdict := Fatal;
      }
    }
  }

  datatype Phase =
    | Idle                 // the prompt waits for a PIN
    | Waiting(id: nat)     // an Unlock call is in flight
    | Reauthenticating     // the session-expired reply has been heard
    | Closed(verdict: Verdict)

  // `denied` and `limited` count the PermissionDenied and the rate-limited replies since the last authentication.
  datatype Client = Client(prompt: Prompt, phase: Phase, denied: nat, limited: nat)

  datatype World = World(server: Sys, client: Client)

  datatype Move =
    | ServerMoves(e: Event)                // any event of the server, whoever caused it
    | Submits(id: nat, pin: Pin)
    | Hears
    | LosesConnection
    | Reauthenticates(nonce: Token, clock: Readings, random: Option<Token>)

  function ReplyTo(w: World): Option<UnlockReply> {
    if w.client.phase.Waiting? && w.client.phase.id in w.server.calls
       && w.server.calls[w.client.phase.id].Unlock? && w.server.calls[w.client.phase.id].stage.Replied?
    then Some(w.server.calls[w.client.phase.id].stage.reply)
    else None
  }

  /** The client hears a reply. After SessionExpired the verdict depends on the re-authentication that follows. */
  function Hear(c: Client, reply: Reply): Client {
    if reply.SessionExpired? then c.(phase := Reauthenticating)
    else
      var (prompt, verdict) := Decide(c.prompt, reply, Refused);
      Client(prompt, After(verdict),
             if reply.PermissionDenied? then c.denied + 1 else c.denied,
             if reply.RateLimited? then c.limited + 1 else c.limited)
  }

  function Reauthenticate(c: Client, reauth: Reauth): Client {
    var (prompt, verdict) := Decide(c.prompt, SessionExpired, reauth);
    if verdict.Retry? then Client(prompt, Idle, 0, 0) else c.(prompt := prompt, phase := Closed(verdict))
  }

  function After(verdict: Verdict): Phase {
    if verdict.Retry? then Idle else Closed(verdict)
  }

  function ReauthOf(out: Output): Reauth {
    if out.Failed? then Refused else Accepted(if out.Ticket? then out.ticket else NoToken)
  }

  function WorldStep(matches: Verifier, w: World, m: Move): World {
    match m
    case ServerMoves(e) => w.(server := Step(matches, w.server, e))
    case Submits(id, pin) =>
      var e := CallUnlock(id, w.client.prompt.ticket, pin);
      if w.client.phase.Idle? && Enabled(matches, w.server, e) then
        World(Step(matches, w.server, e), w.client.(phase := Waiting(id)))
      else w
    case Hears =>
      var r := ReplyTo(w);
      if r.Some? then w.(client := Hear(w.client, Translate(r.value))) else w
    case LosesConnection =>
      if w.client.phase.Waiting? then w.(client := Hear(w.client, OtherError))
      else if w.client.phase.Reauthenticating? then w.(client := Reauthenticate(w.client, Refused))
      else w
    case Reauthenticates(nonce, clock, random) =>
      var e := VerifyChallenge(nonce, clock, random);
      if w.client.phase.Reauthenticating? && Enabled(matches, w.server, e) then
        World(Step(matches, w.server, e), Reauthenticate(w.client, ReauthOf(VerifyNonce(w.server.auth, nonce, clock, random).1)))
      else w
  }

  function WorldRun(matches: Verifier, w: World, ms: seq<Move>): World
    decreases |ms|
  {
    if ms == [] then w else WorldRun(matches, WorldStep(matches, w, ms[0]), ms[1..])
  }

  /** What each reply does to a waiting prompt. A lost connection and "no PIN configured" end it at once, whatever the
      counter. */
  lemma PromptAnswers(matches: Verifier, w: World)
    requires w.client.phase.Waiting?
    ensures WorldStep(matches, w, LosesConnection).client.phase == Closed(Fatal)
    ensures ReplyTo(w).Some? ==>
              var c, c' := w.client, WorldStep(matches, w, Hears).client;
              match ReplyTo(w).value
              case Granted(_, _) => c'.phase == Closed(Unlocked)
              case NoPinConfigured => c'.phase == Closed(Fatal)
              case TicketRefused => c' == c.(phase := Reauthenticating)
              case RateLimitedUnlock => c'.phase == Idle && c'.prompt == Prompt(c.prompt.attempts + 1, c.prompt.ticket)
              case WrongPin =>
                && c'.prompt == Prompt(c.prompt.attempts + 1, c.prompt.ticket)
                && c'.phase == if c.prompt.attempts >= 2 then Closed(Fatal) else Idle
    ensures ReplyTo(w).None? ==> WorldStep(matches, w, Hears) == w
  {
  }

  /** What a re-authentication does to the prompt: a refused or lost one ends it, a successful one gives it the new
      ticket and a fresh counter. */
  lemma RenewalAnswers(matches: Verifier, w: World, nonce: Token, clock: Readings, random: Option<Token>)
    requires w.client.phase.Reauthenticating?
    ensures WorldStep(matches, w, LosesConnection).client.phase == Closed(Fatal)
    ensures Enabled(matches, w.server, VerifyChallenge(nonce, clock, random)) ==>
              var out := VerifyNonce(w.server.auth, nonce, clock, random).1;
              var c' := WorldStep(matches, w, Reauthenticates(nonce, clock, random)).client;
              && (out.Failed? ==> c'.phase == Closed(Fatal))
              && (out.Ticket? ==> c' == Client(Prompt(0, out.ticket), Idle, 0, 0))
              && (out.Session? ==> c' == Client(Prompt(0, NoToken), Idle, 0, 0))
  {
    hide VerifyNonce, Step;
  }

  /** The prompt never closes on a verdict to retry, and once closed it stays as it is. */
  lemma ClosesForGood(matches: Verifier, w: World, m: Move)
    requires w.client.phase != Closed(Retry)
    ensures WorldStep(matches, w, m).client.phase != Closed(Retry)
    ensures w.client.phase.Closed? ==> WorldStep(matches, w, m).client == w.client
  {
    hide VerifyNonce, Step;
  }

  lemma {:induction false} NeverClosedOnRetry(matches: Verifier, w: World, ms: seq<Move>)
    requires w.client.phase != Closed(Retry)
    ensures WorldRun(matches, w, ms).client.phase != Closed(Retry)
    ensures w.client.phase.Closed? ==> WorldRun(matches, w, ms).client == w.client
    decreases |ms|
  {
    hide WorldStep;
    if ms != [] {
      ClosesForGood(matches, w, ms[0]);
      NeverClosedOnRetry(matches, WorldStep(matches, w, ms[0]), ms[1..]);
    }
  }

  // A ticket that was issued and is no longer live.
  predicate Spent(s: Sys, ticket: Token) {
    ticket in s.issued && ticket !in s.auth.tickets
  }

  // Every call that got past the redemption has spent its ticket.
  ghost predicate TicketsPaid(s: Sys) {
    forall id :: id in s.calls && PastRedeem(s.calls[id]) ==> Spent(s, s.calls[id].ticket)
  }

  ghost predicate ServerInv(s: Sys) {
    FateInv(s) && TicketsPaid(s)
  }

  lemma RedeemPays(matches: Verifier, s: Sys, id: nat, c: Choice)
    requires FateInv(s) && Enabled(matches, s, Advance(id, c)) && s.calls[id].Unlock? && s.calls[id].stage.Redeeming?
    ensures var s' := Advanced(matches, s, id, c);
            s'.calls[id].ticket == s.calls[id].ticket
            && (PastRedeem(s'.calls[id]) ==> Spent(s', s.calls[id].ticket))
  {
    RedeemEffect(s.auth, s.calls[id].ticket, c.now, c.random);
    hide RedeemUnlockTicket;
  }

  lemma OtherStepsPay(matches: Verifier, s: Sys, id: nat, c: Choice)
    requires Enabled(matches, s, Advance(id, c)) && s.calls[id].Unlock? && !s.calls[id].stage.Redeeming?
    ensures var s' := Advanced(matches, s, id, c);
            s'.calls[id].ticket == s.calls[id].ticket
            && (PastRedeem(s'.calls[id]) ==> PastRedeem(s.calls[id]))
  {
    hide RedeemUnlockTicket;
  }

  lemma ServerStep(matches: Verifier, s: Sys, e: Event)
    requires ServerInv(s)
    ensures ServerInv(Step(matches, s, e))
    ensures forall t :: Spent(s, t) ==> Spent(Step(matches, s, e), t)
  {
    FateStep(matches, s, e);
    forall t | Spent(s, t) ensures Spent(Step(matches, s, e), t) {
      Counting.SpentStaysSpent(matches, s, e, t);
    }
    if Enabled(matches, s, e) {
      if e.Advance? {
        if s.calls[e.id].Unlock? {
          if s.calls[e.id].stage.Redeeming? {
            RedeemPays(matches, s, e.id, e.choice);
          } else {
            OtherStepsPay(matches, s, e.id, e.choice);
          }
        }
        NextMoves(matches, s.auth, s.hashes, s.calls[e.id], e.choice);
        hide Next, FateInv, PastRedeem, Spent;
      } else {
        EnvironmentMoves(matches, s, e);
        hide Step, FateInv, Spent, DrawsTokens;
      }
    }
  }

  // A call that cannot get past the redemption any more: its ticket is spent and it has not redeemed it.
  predicate Hopeless(call: Call) {
    call.Unlock? && !PastRedeem(call)
  }

  lemma HopelessStays(matches: Verifier, s: Sys, e: Event, id: nat)
    requires id in s.calls && Hopeless(s.calls[id]) && Spent(s, s.calls[id].ticket)
    ensures var s' := Step(matches, s, e); id in s'.calls && Hopeless(s'.calls[id])
  {
    if Enabled(matches, s, e) && e.Advance? && e.id == id {
      RedeemEffect(s.auth, s.calls[id].ticket, e.choice.now, e.choice.random);
      hide RedeemUnlockTicket;
    }
  }

  // A step of the server leaves the ticket of a call as it is.
  lemma TicketKept(matches: Verifier, s: Sys, e: Event, id: nat)
    requires id in s.calls && s.calls[id].Unlock?
    ensures var s' := Step(matches, s, e);
            id in s'.calls && s'.calls[id].Unlock? && s'.calls[id].ticket == s.calls[id].ticket
  {
    hide RedeemUnlockTicket;
  }

  ghost predicate ClientInv(w: World) {
    var c := w.client;
    && c.denied <= 1
    && (c.phase.Idle? || c.phase.Waiting? ==> c.prompt.attempts == c.denied + c.limited)
    && (c.denied == 1 && (c.phase.Idle? || c.phase.Waiting?) ==> Spent(w.server, c.prompt.ticket))
    && (c.phase.Waiting? ==>
          && c.phase.id in w.server.calls && w.server.calls[c.phase.id].Unlock?
          && w.server.calls[c.phase.id].ticket == c.prompt.ticket
          && (c.denied == 1 ==> Hopeless(w.server.calls[c.phase.id])))
  }

  ghost predicate WorldInv(w: World) {
    ServerInv(w.server) && ClientInv(w)
  }

  lemma WorldKeeps(matches: Verifier, w: World, m: Move)
    requires WorldInv(w)
    ensures WorldInv(WorldStep(matches, w, m))
  {
    match m
    case ServerMoves(e) =>
      ServerStep(matches, w.server, e);
      if w.client.phase.Waiting? {
        TicketKept(matches, w.server, e, w.client.phase.id);
        if w.client.denied == 1 {
          HopelessStays(matches, w.server, e, w.client.phase.id);
        }
      }
      hide Step, ServerInv, PastRedeem;
    case Submits(id, pin) =>
      ServerStep(matches, w.server, CallUnlock(id, w.client.prompt.ticket, pin));
      hide ServerInv;
    case Hears =>
      hide FateInv;
    case LosesConnection =>
      hide ServerInv;
    case Reauthenticates(nonce, clock, random) =>
      ServerStep(matches, w.server, VerifyChallenge(nonce, clock, random));
      hide ServerInv, Step, VerifyNonce;
  }

  lemma {:induction false} WorldRunKeeps(matches: Verifier, w: World, ms: seq<Move>)
    requires WorldInv(w)
    ensures WorldInv(WorldRun(matches, w, ms))
    decreases |ms|
  {
    if ms != [] {
      WorldKeeps(matches, w, ms[0]);
      WorldRunKeeps(matches, WorldStep(matches, w, ms[0]), ms[1..]);
    }
  }

  lemma {:induction false} ServerRun(matches: Verifier, s: Sys, es: seq<Event>)
    requires ServerInv(s)
    ensures ServerInv(Run(matches, s, es))
    decreases |es|
  {
    if es != [] {
      ServerStep(matches, s, es[0]);
      ServerRun(matches, Step(matches, s, es[0]), es[1..]);
    }
  }

  /** A prompt that opens, with any ticket, while the server is in any state it can reach. */
  function Open(matches: Verifier, hashes: seq<PinHash>, readFails: bool, now: Time, before: seq<Event>, ticket: Token): World {
    World(Run(matches, Boot(hashes, readFails, now), before), Client(Prompt(0, ticket), Idle, 0, 0))
  }

  /** Whenever a PermissionDenied reply arrives, it is the first since the last authentication, the attempt
      counter stands at one plus the rate-limited replies since then, and so the prompt closes for too many
      failures exactly when at least two replies were rate-limited. */
  lemma AttemptsAtDenial(matches: Verifier, hashes: seq<PinHash>, readFails: bool, now: Time, before: seq<Event>,
                         ticket: Token, ms: seq<Move>)
    requires ReplyTo(WorldRun(matches, Open(matches, hashes, readFails, now, before, ticket), ms)) == Some(WrongPin)
    ensures var w := WorldRun(matches, Open(matches, hashes, readFails, now, before, ticket), ms);
            var w' := WorldStep(matches, w, Hears);
            && w.client.denied == 0
            && w'.client.prompt.attempts == 1 + w.client.limited
            && (w'.client.phase == Closed(Fatal) <==> w.client.limited >= 2)
  {
    var start := Open(matches, hashes, readFails, now, before, ticket);
    BootFate(hashes, readFails, now);
    ServerRun(matches, Boot(hashes, readFails, now), before);
    WorldRunKeeps(matches, start, ms);
    hide ServerInv, Run, Step;
  }

  /** Whatever the prompt does, the server is in a state that it can reach by its own events. */
  lemma {:induction false} WorldIsReachable(matches: Verifier, w: World, ms: seq<Move>) returns (es: seq<Event>)
    ensures WorldRun(matches, w, ms).server == Run(matches, w.server, es)
    decreases |ms|
  {
    hide Step, Enabled;
    if ms == [] {
      es := [];
    } else {
      var w' := WorldStep(matches, w, ms[0]);
      var rest := WorldIsReachable(matches, w', ms[1..]);
      if w'.server == w.server {
        es := rest;
      } else {
        var e := ServerEvent(w, ms[0]);
        assert w'.server == Step(matches, w.server, e);
        es := [e] + rest;
        assert es[1..] == rest;
      }
    }
  }

  // The server event behind a move, if there is one.
  function ServerEvent(w: World, m: Move): Event {
    match m
    case ServerMoves(e) => e
    case Submits(id, pin) => CallUnlock(id, w.client.prompt.ticket, pin)
    case Reauthenticates(nonce, clock, random) => VerifyChallenge(nonce, clock, random)
    case _ => SweepExpired(0)
  }

  /** A prompt closes unlocked only with a session that its own call minted after the typed PIN had matched a hash
      stored on the server. */
  lemma UnlockedWithAMatchingPin(matches: Verifier, hashes: seq<PinHash>, readFails: bool, now: Time, before: seq<Event>,
                                 ticket: Token, ms: seq<Move>)
    requires var w := WorldRun(matches, Open(matches, hashes, readFails, now, before, ticket), ms);
             WorldStep(matches, w, Hears).client.phase == Closed(Unlocked) != w.client.phase
    ensures var w := WorldRun(matches, Open(matches, hashes, readFails, now, before, ticket), ms);
            && w.client.phase.Waiting? && w.client.phase.id in w.server.calls
            && var call := w.server.calls[w.client.phase.id];
               && call.Delivered() && call.version.Some? && 1 <= call.version.value <= |w.server.hashes|
               && matches(call.pin, w.server.hashes[call.version.value - 1])
               && call.stage.reply.token in w.server.minted
               && w.server.minted[call.stage.reply.token] == ByUnlock(w.client.phase.id)
  {
    var start := Open(matches, hashes, readFails, now, before, ticket);
    var w := WorldRun(matches, start, ms);
    var es := WorldIsReachable(matches, start, ms);
    BootFate(hashes, readFails, now);
    PinBarrier.BarrierRun(matches, Boot(hashes, readFails, now), before);
    PinBarrier.BarrierRun(matches, start.server, es);
    hide Run, WorldRun;
    assert PinBarrier.CallOk(matches, w.server.hashes, w.server.auth.pinConfigured, w.server.calls[w.client.phase.id]);
  }

  /** Between two PermissionDenied replies to one prompt there is always a successful re-authentication. */
  lemma AtMostOneDenialPerAuthentication(matches: Verifier, hashes: seq<PinHash>, readFails: bool, now: Time,
                                         before: seq<Event>, ticket: Token, ms: seq<Move>)
    ensures WorldRun(matches, Open(matches, hashes, readFails, now, before, ticket), ms).client.denied <= 1
  {
    BootFate(hashes, readFails, now);
    ServerRun(matches, Boot(hashes, readFails, now), before);
    WorldRunKeeps(matches, Open(matches, hashes, readFails, now, before, ticket), ms);
  }
}
