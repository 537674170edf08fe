/** One upstream exchange: the bounded loop of attempts and recoveries. */
module Exchange {
  import opened Wrappers

  /** What the body of an upstream error says, as far as recovery looks at it. */
  datatype ErrorShape = ResponseFailed | BlockedPrompt | InvalidPayload | ExactValidation | OtherError

  datatype Disposition = Full | Once | NoRetry

  function RetryDisposition(code: int, shape: ErrorShape): Disposition {
    if code in {500, 502, 503, 504, 524} then Full
    else if code != 400 then NoRetry
    else if shape == ResponseFailed || shape == BlockedPrompt then Full
    else if shape == InvalidPayload then Once
    else NoRetry
  }

  /** Whether each recovery could build a smaller body, and whether a wire retry was accepted. */
  datatype Help = Help(compacts: bool, dialogue: bool, variant: bool, wireAccepted: bool)

  /** What one open of the upstream comes to; `wire` says that the provider's own policy calls it retryable. */
  datatype Reply = Accepted | HttpFailure(code: int, shape: ErrorShape, wire: bool, help: Help) | TransportFailure

  datatype Config = Config(isResponses: bool, maxStages: nat)

  const MaxAttempts := 4

  function Limit(cfg: Config): nat {
    if cfg.isResponses then MaxAttempts + cfg.maxStages + 1 + 1 else 1
  }

  /** The recoveries used so far. */
  datatype Slots = Slots(stages: nat, dialogue: bool, variant: bool)

  const Unused := Slots(0, false, false)

  datatype Decision = Retry | Terminal | WireAccepted | WireRejected

  function WireFailure(cfg: Config, r: Reply): bool
    requires r.HttpFailure?
  {
    !(cfg.isResponses && r.code == 429) && r.wire
  }

  function EffectiveDisposition(cfg: Config, r: Reply): Disposition
    requires r.HttpFailure?
  {
    if WireFailure(cfg, r) then Full else RetryDisposition(r.code, r.shape)
  }

  /** Compaction while stages are left and it succeeds, else the dialogue once. */
  function RecoverFailed(cfg: Config, s: Slots, r: Reply): Option<Slots>
    requires r.HttpFailure?
  {
    if !(cfg.isResponses && r.code == 400 && EffectiveDisposition(cfg, r) == Full) then None
    else if s.stages < cfg.maxStages && r.help.compacts then Some(s.(stages := s.stages + 1))
    else if !s.dialogue && r.help.dialogue then Some(s.(dialogue := true))
    else None
  }

  predicate Exact(r: Reply)
    requires r.HttpFailure?
  {
    r.code == 400 && r.shape == ExactValidation
  }

  function RetryCeiling(d: Disposition): int {
    if d == Once then 1 else MaxAttempts - 1
  }

  function OnHttpError(cfg: Config, s: Slots, r: Reply, attempt: nat): (Slots, Decision)
    requires r.HttpFailure?
  {
    var d := EffectiveDisposition(cfg, r);
    if s.variant then (s, Terminal)
    else if Exact(r) && r.help.variant then (s.(variant := true), Retry)
    else if RecoverFailed(cfg, s, r).Some? then (RecoverFailed(cfg, s, r).value, Retry)
    else if cfg.isResponses && r.code == 400 && RetryDisposition(r.code, r.shape) == Full then (s, Terminal)
    else if d != NoRetry && attempt - s.stages < RetryCeiling(d) && r.code != 400 && r.code != 477 then (s, Retry)
    else if WireFailure(cfg, r) then (s, if r.help.wireAccepted then WireAccepted else WireRejected)
    else (s, Terminal)
  }

  function OnTransportError(s: Slots, attempt: nat): Decision {
    if s.variant then Terminal else if attempt < MaxAttempts - 1 then Retry else Terminal
  }

  type World = nat -> Reply

  /** How opening ends: with a response, with an error sent, or past the loop; and how often the
      upstream was opened. */
  datatype Ended = Opened(slots: Slots, opens: nat) | Refused(slots: Slots, opens: nat) | FellThrough(opens: nat)

  function Decide(cfg: Config, s: Slots, r: Reply, attempt: nat): (Slots, Decision)
    requires !r.Accepted?
  {
    if r.TransportFailure? then (s, OnTransportError(s, attempt)) else OnHttpError(cfg, s, r, attempt)
  }

  function Attempts(cfg: Config, world: World, attempt: nat, s: Slots): Ended
    requires attempt <= Limit(cfg)
    decreases Limit(cfg) - attempt
  {
    if attempt == Limit(cfg) then FellThrough(attempt)
    else
      var r := world(attempt);
      if r.Accepted? then Opened(s, attempt + 1)
      else
        var (u, decision) := Decide(cfg, s, r, attempt);
        match decision
        case Retry => Attempts(cfg, world, attempt + 1, u)
        case Terminal => Refused(u, attempt + 1)
        case WireAccepted => Opened(u, attempt + 2)
        case WireRejected => Refused(u, attempt + 2)
  }

  function OpenAll(cfg: Config, world: World): Ended {
    Attempts(cfg, world, 0, Unused)
  }

  class Upstream {
    const cfg: Config
    var stages: nat
    var usedDialogue: bool
    var usedVariant: bool
    var opens: nat

    ghost function State(): Slots
      reads this
    {
      Slots(stages, usedDialogue, usedVariant)
    }

    constructor (cfg: Config)
      ensures this.cfg == cfg && State() == Unused && opens == 0
    {
      this.cfg := cfg;
      stages, usedDialogue, usedVariant, opens := 0, false, false, 0;
    }

    method RecoverResponseFailed(r: Reply) returns (recovered: bool)
      requires r.HttpFailure?
      modifies this`stages, this`usedDialogue
      ensures recovered == RecoverFailed(cfg, old(State()), r).Some?
      ensures State() == if recovered then RecoverFailed(cfg, old(State()), r).value else old(State())
    {
      if !(cfg.isResponses && r.code == 400 && EffectiveDisposition(cfg, r) == Full) {
        return false;
      }
      if stages < cfg.maxStages && r.help.compacts {
        stages := stages + 1;
        return true;
      }
      if usedDialogue || !r.help.dialogue {
        return false;
      }
      usedDialogue := true;
      return true;
    }

    method HttpError(r: Reply, attempt: nat) returns (decision: Decision)
      requires r.HttpFailure?
      modifies this
      ensures (State(), decision) == OnHttpError(cfg, old(State()), r, attempt)
      ensures opens == old(opens) + if decision == WireAccepted || decision == WireRejected then 1 else 0
    {
      var portable := RetryDisposition(r.code, r.shape);
      var rateLimited := cfg.isResponses && r.code == 429;
      var wireFailure := !rateLimited && r.wire;
      var disposition := if wireFailure then Full else portable;
      if usedVariant {
        return Terminal;
      }
      if Exact(r) && r.help.variant {
        usedVariant := true;
        return Retry;
      }
      var recovered := RecoverResponseFailed(r);
      if recovered {
        return Retry;
      }
      if cfg.isResponses && r.code == 400 && portable == Full {
        return Terminal;
      }
      var ceiling := if disposition == Once then 1 else MaxAttempts - 1;
      if disposition != NoRetry && attempt - stages < ceiling && r.code != 400 && r.code != 477 {
        return Retry;
      }
      if wireFailure {
        opens := opens + 1;
        return if r.help.wireAccepted then WireAccepted else WireRejected;
      }
      return Terminal;
    }

    method Open(world: World) returns (ended: Ended)
      requires State() == Unused && opens == 0
      modifies this
      ensures ended == OpenAll(cfg, world)
      ensures opens == ended.opens
    {
      for attempt := 0 to Limit(cfg)
        invariant opens == attempt && Attempts(cfg, world, attempt, State()) == OpenAll(cfg, world)
      {
        opens := opens + 1;
        var reply := world(attempt);
        var decision := Retry;
        if reply.Accepted? {
          return Opened(Slots(stages, usedDialogue, usedVariant), opens);
        }
        if reply.TransportFailure? {
          decision := OnTransportError(Slots(stages, usedDialogue, usedVariant), attempt);
        } else {
          decision := HttpError(reply, attempt);
        }
        if decision != Retry {
          var slots := Slots(stages, usedDialogue, usedVariant);
          return if decision == WireAccepted then Opened(slots, opens) else Refused(slots, opens);
        }
      }
      return FellThrough(opens);
    }
  }

  // ---- the bound

  function One(b: bool): nat {
    if b then 1 else 0
  }

  /** Retries that are not compactions: three of them transient, one a dialogue, one an input variant. */
  predicate Within(cfg: Config, attempt: nat, s: Slots) {
    s.stages <= cfg.maxStages && attempt <= s.stages + 3 + One(s.dialogue) + One(s.variant)
  }

  lemma RetryKeeps(cfg: Config, s: Slots, r: Reply, attempt: nat)
    requires Within(cfg, attempt, s) && !r.Accepted? && Decide(cfg, s, r, attempt).1 == Retry
    ensures Within(cfg, attempt + 1, Decide(cfg, s, r, attempt).0) && !s.variant
  {
  }

  predicate Bounded(cfg: Config, e: Ended) {
    && !e.FellThrough?
    && e.opens <= MaxAttempts + cfg.maxStages + 2
  }

  lemma {:induction false} AttemptsBounded(cfg: Config, world: World, attempt: nat, s: Slots)
    requires cfg.isResponses && Within(cfg, attempt, s)
    ensures attempt <= Limit(cfg) && Bounded(cfg, Attempts(cfg, world, attempt, s))
    decreases Limit(cfg) - attempt
  {
    hide Decide;
    if !world(attempt).Accepted? {
      var (u, decision) := Decide(cfg, s, world(attempt), attempt);
      if decision == Retry {
        RetryKeeps(cfg, s, world(attempt), attempt);
        AttemptsBounded(cfg, world, attempt + 1, u);
      } else {
        WireExcludesVariant(cfg, s, world(attempt), attempt);
      }
    }
  }

  lemma WireExcludesVariant(cfg: Config, s: Slots, r: Reply, attempt: nat)
    requires !r.Accepted? && Decide(cfg, s, r, attempt).1 in {WireAccepted, WireRejected, Terminal}
    ensures Decide(cfg, s, r, attempt).1 != Terminal ==> !s.variant
  {
  }

  const MaxReopens := 5

  /** The stream relay may reopen the upstream, except after an input variant recovery. */
  function Reopens(e: Ended): nat {
    if e.Opened? && !e.slots.variant then MaxReopens else 0
  }

  /** For every sequence of failures of a Responses request the loop returns from inside, and the
      upstream is opened at most 4 + stages + 2 times, with every stream reopen at most 5 more. */
  lemma RetryBound(cfg: Config, world: World)
    requires cfg.isResponses
    ensures !OpenAll(cfg, world).FellThrough?
    ensures OpenAll(cfg, world).opens <= 4 + cfg.maxStages + 2
    ensures OpenAll(cfg, world).opens + Reopens(OpenAll(cfg, world)) <= 4 + cfg.maxStages + 2 + 5
  {
    AttemptsBounded(cfg, world, 0, Unused);
  }

  // ---- the bound is met

  const NoHelp := Help(false, false, false, false)

  /** Three transport failures, every compaction, the dialogue, then a wire failure whose retry is accepted. */
  function Worst(stages: nat): World {
    (i: nat) =>
      if i < 3 then TransportFailure
      else if i < stages + 3 then HttpFailure(400, ResponseFailed, false, NoHelp.(compacts := true))
      else if i == stages + 3 then HttpFailure(400, ResponseFailed, false, NoHelp.(dialogue := true))
      else HttpFailure(477, OtherError, true, NoHelp.(wireAccepted := true))
  }

  lemma {:induction false} WorstStages(cfg: Config, done: nat)
    requires cfg.isResponses && done <= cfg.maxStages
    ensures Attempts(cfg, Worst(cfg.maxStages), 3 + done, Slots(done, false, false)) ==
      Opened(Slots(cfg.maxStages, true, false), cfg.maxStages + 6)
    decreases cfg.maxStages - done
  {
    var world := Worst(cfg.maxStages);
    if done < cfg.maxStages {
      WorstStages(cfg, done + 1);
    } else {
      var s := Slots(done, true, false);
      assert Attempts(cfg, world, done + 4, s) == Opened(s, done + 6);
    }
  }

  /** Some sequence of failures reaches the bound: it is exact. */
  lemma BoundAttained(cfg: Config)
    requires cfg.isResponses
    ensures var e := OpenAll(cfg, Worst(cfg.maxStages));
      e.Opened? && !e.slots.variant && e.opens == 4 + cfg.maxStages + 2
      && e.opens + Reopens(e) == 4 + cfg.maxStages + 2 + 5
  {
    var world := Worst(cfg.maxStages);
    WorstStages(cfg, 0);
    assert Attempts(cfg, world, 2, Unused) == Attempts(cfg, world, 3, Unused);
    assert Attempts(cfg, world, 1, Unused) == Attempts(cfg, world, 2, Unused);
  }

  /** A failure that asks for a retry even though no attempt is left. */
  predicate AsksForRetry(r: Reply) {
    || r.TransportFailure?
    || (r.HttpFailure? && ((Exact(r) && r.help.variant)
                           || (r.code != 400 && r.code != 477
                               && (r.wire || RetryDisposition(r.code, r.shape) == Full))))
  }

  /** Any other request has one attempt, and falls past the loop exactly when that attempt's failure
      asks for a retry. */
  lemma OtherRequestsFallThrough(cfg: Config, world: World)
    requires !cfg.isResponses
    ensures OpenAll(cfg, world).FellThrough? <==> AsksForRetry(world(0))
    ensures world(0).Accepted? ==> OpenAll(cfg, world) == Opened(Unused, 1)
  {
    if !world(0).Accepted? {
      var (u, decision) := Decide(cfg, Unused, world(0), 0);
      assert Attempts(cfg, world, 1, u) == FellThrough(1);
      assert decision == Retry <==> AsksForRetry(world(0));
    }
  }

  // ---- what is retried

  /** A failure that passes: the transport, or one of the server's own. */
  predicate Passing(r: Reply) {
    r.TransportFailure? || (r.HttpFailure? && r.code in [500, 502, 503, 504, 524])
  }

  lemma PassingRetries(cfg: Config, r: Reply, attempt: nat)
    requires Passing(r) && attempt < 3
    ensures Decide(cfg, Unused, r, attempt) == (Unused, Retry)
  {
  }

  lemma {:induction false} RetriesFrom(cfg: Config, world: World, attempt: nat, k: nat)
    requires cfg.isResponses && attempt <= k <= 3 && world(k).Accepted?
    requires forall i :: attempt <= i < k ==> Passing(world(i))
    ensures Attempts(cfg, world, attempt, Unused) == Opened(Unused, k + 1)
    decreases k - attempt
  {
    hide Decide, Passing;
    if attempt < k {
      PassingIsNoSuccess(world(attempt));
      PassingRetries(cfg, world(attempt), attempt);
      RetriesFrom(cfg, world, attempt + 1, k);
    }
  }

  lemma PassingIsNoSuccess(r: Reply)
    requires Passing(r)
    ensures !r.Accepted?
  {
  }

  /** Up to three passing failures before an accepted reply: that reply is returned, with one open each. */
  lemma PassingFailuresAreRetried(cfg: Config, world: World, k: nat)
    requires cfg.isResponses && k <= 3 && world(k).Accepted? && forall i :: 0 <= i < k ==> Passing(world(i))
    ensures OpenAll(cfg, world) == Opened(Unused, k + 1)
  {
    RetriesFrom(cfg, world, 0, k);
  }

  /** The fourth in a row ends the exchange. */
  lemma FourthFailureEnds(cfg: Config, world: World)
    requires cfg.isResponses && forall i :: 0 <= i < 4 ==>
      Passing(world(i)) && (world(i).HttpFailure? ==> !world(i).wire)
    ensures OpenAll(cfg, world) == Refused(Unused, 4)
  {
    PassingRetries(cfg, world(0), 0);
    PassingRetries(cfg, world(1), 1);
    PassingRetries(cfg, world(2), 2);
    assert Attempts(cfg, world, 3, Unused) == Refused(Unused, 4);
    assert Attempts(cfg, world, 2, Unused) == Attempts(cfg, world, 3, Unused);
    assert Attempts(cfg, world, 1, Unused) == Attempts(cfg, world, 2, Unused);
  }

  /** Any other HTTP failure that is no provider's own and no recoverable 400 ends the exchange at once:
      a rate limit above all, and a payload called invalid, which is never retried. */
  lemma OthersEndAtOnce(cfg: Config, world: World)
    requires cfg.isResponses && world(0).HttpFailure? && !Passing(world(0))
    requires world(0).code == 429 || !world(0).wire
    requires world(0).code == 400 ==> world(0).shape == InvalidPayload || world(0).shape == OtherError
    ensures OpenAll(cfg, world) == Refused(Unused, 1)
  {
  }

  /** A provider's own failure outside the passing codes and 400 is retried once, whatever comes of it. */
  lemma WireRetriedOnce(cfg: Config, world: World)
    requires cfg.isResponses && world(0).HttpFailure? && world(0).wire && world(0).code == 477
    ensures OpenAll(cfg, world) == if world(0).help.wireAccepted then Opened(Unused, 2) else Refused(Unused, 2)
  {
  }

  /** Later or on other codes it shares the three retries with the passing failures and comes last. */
  lemma WireRetriedLast(cfg: Config, s: Slots, r: Reply, attempt: nat)
    requires r.HttpFailure? && r.wire && r.code !in [400, 429, 477] && !s.variant
    ensures Decide(cfg, s, r, attempt) ==
      (s, if attempt - s.stages < 3 then Retry else if r.help.wireAccepted then WireAccepted else WireRejected)
  {
  }

  /** A 400 that the provider calls its own, and that is no failed response, is recovered like one first
      and is retried on the wire when nothing helps. */
  lemma WireBadRequest(cfg: Config, s: Slots, r: Reply, attempt: nat)
    requires cfg.isResponses && r.HttpFailure? && r.code == 400 && r.wire && !s.variant
    requires r.shape == InvalidPayload || r.shape == OtherError
    ensures Decide(cfg, s, r, attempt) ==
      if s.stages < cfg.maxStages && r.help.compacts then (s.(stages := s.stages + 1), Retry)
      else if !s.dialogue && r.help.dialogue then (s.(dialogue := true), Retry)
      else (s, if r.help.wireAccepted then WireAccepted else WireRejected)
  {
  }

  predicate FailedResponse(r: Reply) {
    r.HttpFailure? && r.code == 400 && (r.shape == ResponseFailed || r.shape == BlockedPrompt)
  }

  /** A failed response is answered by compaction while stages last and it helps, else by the dialogue
      once, else by the end. */
  lemma FailedResponseRecovers(cfg: Config, s: Slots, r: Reply, attempt: nat)
    requires cfg.isResponses && FailedResponse(r) && !s.variant
    ensures Decide(cfg, s, r, attempt) ==
      if s.stages < cfg.maxStages && r.help.compacts then (s.(stages := s.stages + 1), Retry)
      else if !s.dialogue && r.help.dialogue then (s.(dialogue := true), Retry)
      else (s, Terminal)
  {
  }

  /** The exact validation error is answered by the input variant, and any failure after it is the end. */
  lemma ValidationErrorRecovers(cfg: Config, s: Slots, r: Reply, attempt: nat)
    requires r.HttpFailure? && r.code == 400 && r.shape == ExactValidation && r.help.variant && !s.variant
    ensures Decide(cfg, s, r, attempt) == (s.(variant := true), Retry)
  {
  }

  lemma VariantIsLast(cfg: Config, s: Slots, r: Reply, attempt: nat)
    requires !r.Accepted? && s.variant
    ensures Decide(cfg, s, r, attempt) == (s, Terminal)
  {
  }

  /** A stream opened after passing failures alone may be reopened five times. */
  lemma PlainStreamReopens(cfg: Config, world: World, k: nat)
    requires cfg.isResponses && k <= 3 && world(k).Accepted? && forall i :: 0 <= i < k ==> Passing(world(i))
    ensures Reopens(OpenAll(cfg, world)) == 5
  {
    PassingFailuresAreRetried(cfg, world, k);
  }

  /** One opened by the input variant is not, and neither is a refusal. */
  lemma VariantStreamIsNotReopened(cfg: Config, world: World)
    requires cfg.isResponses
    ensures OpenAll(cfg, world).Refused? ==> Reopens(OpenAll(cfg, world)) == 0
    ensures world(0).HttpFailure? && Exact(world(0)) && world(0).help.variant && world(1).Accepted? ==>
      OpenAll(cfg, world) == Opened(Slots(0, false, true), 2) && Reopens(OpenAll(cfg, world)) == 0
  {
    if world(0).HttpFailure? && Exact(world(0)) && world(0).help.variant && world(1).Accepted? {
      ValidationErrorRecovers(cfg, Unused, world(0), 0);
      assert Attempts(cfg, world, 1, Slots(0, false, true)) == Opened(Slots(0, false, true), 2);
    }
  }
}
