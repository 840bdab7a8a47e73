/**
 The in-memory container token store: tokens with a TTL, deleted lazily by Validate,
 explicitly by Revoke, and in the background by a sweep that visits one key at a
 time while everything else goes on.

 `Next` runs the store beside an abstract map that only Create and Revoke change;
 the two always give the same answers.
 */
module TokenStore {
  import opened Options

  type Token = string

  datatype ContainerToken = ContainerToken(
    token: Token, runId: string, stepId: string, agentId: string, role: string, expiresAt: int)
  {
    predicate Expired(now: int) { now > expiresAt }
  }

  type Tokens = map<Token, ContainerToken>

  /** Validate: an expired token is deleted on the way. */
  function Validated(m: Tokens, token: Token, now: int): (Tokens, Option<ContainerToken>) {
    if token !in m then (m, None)
    else if m[token].Expired(now) then (m - {token}, None)
    else (m, Some(m[token]))
  }

  /** One step of the sweep's Range, with the time read when its tick arrived. */
  function Swept(m: Tokens, key: Token, tick: int): Tokens {
    if key in m && m[key].Expired(tick) then m - {key} else m
  }

  class ContainerTokenStore {
    var tokens: Tokens

    constructor ()
      ensures tokens == map[]
    {
      tokens := map[];
    }

    method Create(token: Token, runId: string, stepId: string, agentId: string, role: string, ttl: int, now: int)
      modifies this
      ensures tokens == old(tokens)[token := ContainerToken(token, runId, stepId, agentId, role, now + ttl)]
    {
      tokens := tokens[token := ContainerToken(token, runId, stepId, agentId, role, now + ttl)];
    }

    /** Answers exactly for the tokens that are there and not past their expiry, and lets go of no other. */
    method Validate(token: Token, now: int) returns (ct: Option<ContainerToken>)
      modifies this
      ensures ct.Some? <==> token in old(tokens) && now <= old(tokens)[token].expiresAt
      ensures ct.Some? ==> ct.value == old(tokens)[token] && tokens == old(tokens)
      ensures ct.None? ==> tokens == old(tokens) - {token}
      ensures (tokens, ct) == Validated(old(tokens), token, now)
    {
      if token !in tokens {
        return None;
      }
      var found := tokens[token];
      if found.Expired(now) {
        tokens := tokens - {token};
        return None;
      }
      ct := Some(found);
    }

    method Revoke(token: Token)
      modifies this
      ensures tokens == old(tokens) - {token}
    {
      tokens := tokens - {token};
    }

    /**
     Any number of steps of everyone else, at times up to `now`: tokens minted under fresh
     ids, other tokens revoked or swept, this one validated or swept.  Nobody else mints or revokes `mine`.
     */
    method Others(mine: Token, now: int)
      modifies this
      ensures mine in tokens ==> mine in old(tokens) && tokens[mine] == old(tokens)[mine]
      ensures mine in old(tokens) && !old(tokens)[mine].Expired(now) ==> mine in tokens
    {
      var steps: nat := *;
      while steps > 0
        invariant mine in tokens ==> mine in old(tokens) && tokens[mine] == old(tokens)[mine]
        invariant mine in old(tokens) && !old(tokens)[mine].Expired(now) ==> mine in tokens
      {
        var token: Token := *;
        var ttl: int := *;
        var at: int := *;
        at := if at < now then at else now;
        if token != mine {
          if * {
            if token !in tokens { Create(token, "", "", "", "", ttl, at); }
          } else {
            Revoke(token);
          }
        } else if * {
          var _ := Validate(token, at);
        } else {
          tokens := Swept(tokens, token, at);
        }
        steps := steps - 1;
      }
    }

    /** A whole sweep that nothing interrupts removes exactly the expired tokens. */
    method Sweep(tick: int)
      modifies this
      ensures tokens == map t | t in old(tokens) && !old(tokens)[t].Expired(tick) :: old(tokens)[t]
    {
      ghost var before := tokens;
      var todo := tokens.Keys;
      while todo != {}
        invariant todo <= before.Keys
        invariant forall t :: t in tokens <==> t in before && (t in todo || !before[t].Expired(tick))
        invariant forall t :: t in tokens ==> tokens[t] == before[t]
      {
        var key :| key in todo;
        tokens := Swept(tokens, key, tick);
        todo := todo - {key};
      }
    }
  }

  // ----- Interleavings -----

  /** `live` is the abstract map; `issued` every token ever created; `tick` the time of the sweep in progress. */
  datatype State = State(tokens: Tokens, live: Tokens, issued: set<Token>, clock: int, tick: Option<int>)

  const INIT := State(map[], map[], {}, 0, None)

  datatype Action =
    | Create(ct: ContainerToken, ttl: int)   // a fresh UUID each time
    | Validate(token: Token)
    | Revoke(token: Token)
    | SweepStarts
    | SweepVisits(key: Token)
    | SweepEnds
    | TimePasses(elapsed: nat)

  predicate Enabled(s: State, a: Action) {
    match a
    case Create(ct, _) => ct.token !in s.issued
    case SweepStarts => s.tick.None?
    case SweepVisits(_) => s.tick.Some?
    case SweepEnds => s.tick.Some?
    case _ => true
  }

  function Next(s: State, a: Action): State {
    if !Enabled(s, a) then s else
    match a
    case Create(ct, ttl) =>
      var stored := ct.(expiresAt := s.clock + ttl);
      s.(tokens := s.tokens[ct.token := stored], live := s.live[ct.token := stored], issued := s.issued + {ct.token})
    case Validate(token) => s.(tokens := Validated(s.tokens, token, s.clock).0)
    case Revoke(token) => s.(tokens := s.tokens - {token}, live := s.live - {token})
    case SweepStarts => s.(tick := Some(s.clock))
    case SweepVisits(key) => s.(tokens := Swept(s.tokens, key, s.tick.value))
    case SweepEnds => s.(tick := None)
    case TimePasses(elapsed) => s.(clock := s.clock + elapsed)
  }

  function Run(s: State, actions: seq<Action>): State
    decreases |actions|
  {
    if actions == [] then s else Run(Next(s, actions[0]), actions[1..])
  }

  /** The answer the abstract map gives: created, not revoked, and now not after the expiry. */
  function AbstractAnswer(s: State, token: Token): Option<ContainerToken> {
    if token in s.live && !s.live[token].Expired(s.clock) then Some(s.live[token]) else None
  }

  ghost predicate Inv(s: State) {
    && (forall t :: t in s.tokens ==> t in s.live && s.live[t] == s.tokens[t])
    && (forall t :: t in s.live ==> t in s.issued && (t in s.tokens || s.live[t].Expired(s.clock)))
    && (s.tick.Some? ==> s.tick.value <= s.clock)
  }

  lemma NextKeepsInv(s: State, a: Action)
    requires Inv(s)
    ensures Inv(Next(s, a))
  {
    var t := Next(s, a);
    assert forall x :: x in t.tokens ==> x in s.tokens || (a.Create? && x == a.ct.token);
    assert forall x :: x in t.live ==> x in s.live || (a.Create? && x == a.ct.token);
  }

  lemma {:induction false} RunKeepsInv(s: State, actions: seq<Action>)
    requires Inv(s)
    ensures Inv(Run(s, actions))
    decreases |actions|
  {
    if actions != [] {
      NextKeepsInv(s, actions[0]);
      RunKeepsInv(Next(s, actions[0]), actions[1..]);
    }
  }

  lemma ClockGoesOn(s: State, a: Action)
    ensures Next(s, a).clock >= s.clock
  {
  }

  lemma AnswersAgree(s: State, token: Token)
    requires Inv(s)
    ensures Validated(s.tokens, token, s.clock).1 == AbstractAnswer(s, token)
  {
  }

  /**
   Refinement: after any run, whatever has been deleted lazily or half swept, Validate answers as the
   abstract map does.
   */
  lemma AnswersAsAbstractMap(actions: seq<Action>, token: Token)
    ensures
      var s := Run(INIT, actions);
      Validated(s.tokens, token, s.clock).1 == AbstractAnswer(s, token)
  {
    RunKeepsInv(INIT, actions);
    AnswersAgree(Run(INIT, actions), token);
  }

  lemma {:induction false} GoneStaysGone(s: State, actions: seq<Action>, token: Token)
    requires Inv(s) && token in s.issued && token !in s.live
    ensures var t := Run(s, actions); token !in t.live && Validated(t.tokens, token, t.clock).1 == None
    decreases |actions|
  {
    if actions != [] {
      NextKeepsInv(s, actions[0]);
      GoneStaysGone(Next(s, actions[0]), actions[1..], token);
    }
  }

  /** A revoked token never validates again, in any continuation. */
  lemma RevokedForever(before: seq<Action>, token: Token, after: seq<Action>)
    requires token in Run(INIT, before).issued
    ensures
      var s := Run(Next(Run(INIT, before), Revoke(token)), after);
      Validated(s.tokens, token, s.clock).1 == None
  {
    RunKeepsInv(INIT, before);
    NextKeepsInv(Run(INIT, before), Revoke(token));
    GoneStaysGone(Next(Run(INIT, before), Revoke(token)), after, token);
  }

  lemma NextStillRefuses(s: State, a: Action, token: Token)
    requires token in s.issued && AbstractAnswer(s, token) == None
    ensures token in Next(s, a).issued && AbstractAnswer(Next(s, a), token) == None
  {
  }

  /** Nor does an expired one: once Validate has refused an issued token, it refuses it for good. */
  lemma {:induction false} RefusedForever(s: State, actions: seq<Action>, token: Token)
    requires Inv(s) && token in s.issued && AbstractAnswer(s, token) == None
    ensures var t := Run(s, actions); Validated(t.tokens, token, t.clock).1 == None
    decreases |actions|
  {
    if actions != [] {
      hide Inv, Next, AbstractAnswer, Validated;
      NextKeepsInv(s, actions[0]);
      NextStillRefuses(s, actions[0], token);
      RefusedForever(Next(s, actions[0]), actions[1..], token);
    }
  }
}
