/** The shared token cache under any interleaving of any number of goroutines.  `doRefresh` takes the lock only
    for its write; `Current` holds the read lock over a nil check and a dereference. */
module TokenCache {
  import opened Wrappers
  import opened Machines
  import opened Durations
  import opened Tokens

  datatype Pc =
    | Idle
    | HasBase(base: string)               // step one done
    | HasToken(tok: Token)                // step two done, lock not yet taken
    | Locked(tok: Token) | Stored         // inside the write lock
    | RLocked(seen: nat)                  // inside the read lock, entered after `seen` writes
    | Checked(isNil: bool, seen: nat)
    | Copied(value: Token, seen: nat)

  datatype Grant = Grant(base: string, tok: Token)

  /** A value returned by `Current`, with the number of writes before it took the read lock. */
  datatype Read = Read(value: Token, seen: nat)

  datatype State = State(
    current: Option<Token>, writer: Option<nat>, readers: set<nat>, pcs: map<nat, Pc>,
    bases: set<string>, grants: set<Grant>, writes: seq<Token>, returned: seq<Read>)  // history

  datatype Event =
    | BaseOk(base: string) | UmaOk(tok: Token) | Fail
    | Lock | Write | Unlock
    | RLock | Check | Copy | RUnlock

  function At(s: State, t: nat): Pc {
    if t in s.pcs then s.pcs[t] else Idle
  }

  function Goto(s: State, t: nat, pc: Pc): State {
    s.(pcs := s.pcs[t := pc])
  }

  const INITIAL := State(None, None, {}, map[], {}, {}, [], [])

  function Step(s: State, move: (nat, Event)): Option<State> {
    var (t, e) := move;
    var pc := At(s, t);
    match e
    case BaseOk(base) =>
      if pc.Idle? then Some(Goto(s, t, HasBase(base)).(bases := s.bases + {base})) else None
    case UmaOk(tok) =>
      if pc.HasBase? then Some(Goto(s, t, HasToken(tok)).(grants := s.grants + {Grant(pc.base, tok)})) else None
    case Fail =>
      if pc.Idle? || pc.HasBase? then Some(Goto(s, t, Idle)) else None
    case Lock =>
      if pc.HasToken? && s.writer == None && s.readers == {}
      then Some(Goto(s, t, Locked(pc.tok)).(writer := Some(t)))
      else None
    case Write =>
      if pc.Locked? then Some(Goto(s, t, Stored).(current := Some(pc.tok), writes := s.writes + [pc.tok])) else None
    case Unlock =>
      if pc.Stored? then Some(Goto(s, t, Idle).(writer := None)) else None
    case RLock =>
      if pc.Idle? && s.writer == None then Some(Goto(s, t, RLocked(|s.writes|)).(readers := s.readers + {t})) else None
    case Check =>
      if pc.RLocked? then Some(Goto(s, t, Checked(s.current == None, pc.seen))) else None
    case Copy =>
      if !pc.Checked? then None
      else if pc.isNil then Some(Goto(s, t, Copied(ZERO_TOKEN, pc.seen)))
      else if s.current == None then None   // nil dereference
      else Some(Goto(s, t, Copied(s.current.value, pc.seen)))
    case RUnlock =>
      if pc.Copied?
      then
        var idle := Goto(s, t, Idle);
        Some(idle.(readers := s.readers - {t}, returned := s.returned + [Read(pc.value, pc.seen)]))
      else None
  }

  /** The cached value after the first `n` writes. */
  function ValueAfter(writes: seq<Token>, n: nat): Token
    requires n <= |writes|
  {
    if n == 0 then ZERO_TOKEN else writes[n - 1]
  }

  ghost predicate Granted(s: State, tok: Token) {
    exists g :: g in s.grants && g.tok == tok && g.base in s.bases
  }

  ghost predicate PcInv(s: State, t: nat) {
    match At(s, t)
    case Idle => s.writer != Some(t) && t !in s.readers
    case HasBase(base) => s.writer != Some(t) && t !in s.readers && base in s.bases
    case HasToken(tok) => s.writer != Some(t) && t !in s.readers && Granted(s, tok)
    case Locked(tok) => s.writer == Some(t) && Granted(s, tok)
    case Stored => s.writer == Some(t)
    case RLocked(seen) => t in s.readers && seen == |s.writes|
    case Checked(isNil, seen) => t in s.readers && seen == |s.writes| && isNil == (s.writes == [])
    case Copied(value, seen) => t in s.readers && seen == |s.writes| && value == ValueAfter(s.writes, seen)
  }

  ghost predicate Inv(s: State) {
    && s.current == (if s.writes == [] then None else Some(s.writes[|s.writes| - 1]))
    && (s.writer.Some? ==> s.readers == {})
    && (forall t: nat :: PcInv(s, t))
    && (forall tok | tok in s.writes :: Granted(s, tok))
    && (forall r | r in s.returned :: r.seen <= |s.writes| && r.value == ValueAfter(s.writes, r.seen))
    && (forall i, j | 0 <= i < j < |s.returned| :: s.returned[i].seen <= s.returned[j].seen)
  }

  lemma OthersKeepPc(s: State, t: nat, e: Event, s': State, u: nat)
    requires Inv(s) && Step(s, (t, e)) == Some(s') && u != t
    ensures PcInv(s', u)
  {
    assert PcInv(s, u) && PcInv(s, t);
    assert At(s', u) == At(s, u);
    GrantsGrow(s, t, e, s');
  }

  lemma GrantsGrow(s: State, t: nat, e: Event, s': State)
    requires Step(s, (t, e)) == Some(s')
    ensures forall tok | Granted(s, tok) :: Granted(s', tok)
  {
    forall tok | Granted(s, tok) ensures Granted(s', tok) {
      var g :| g in s.grants && g.tok == tok && g.base in s.bases;
      assert g in s'.grants;
    }
  }

  lemma SelfKeepsPc(s: State, t: nat, e: Event, s': State)
    requires Inv(s) && Step(s, (t, e)) == Some(s')
    ensures PcInv(s', t)
  {
    assert PcInv(s, t);
    GrantsGrow(s, t, e, s');
    if e.UmaOk? {
      assert Grant(At(s, t).base, e.tok) in s'.grants;
    }
  }

  lemma StepKeepsInv(s: State, t: nat, e: Event, s': State)
    requires Inv(s) && Step(s, (t, e)) == Some(s')
    ensures Inv(s')
    ensures e != Write ==> s'.current == s.current && s'.writes == s.writes
  {
    assert PcInv(s, t);
    GrantsGrow(s, t, e, s');
    SelfKeepsPc(s, t, e, s');
    forall u: nat ensures PcInv(s', u) {
      if u != t {
        OthersKeepPc(s, t, e, s', u);
      }
    }
  }

  lemma {:induction false} RunKeepsInv(s: State, events: seq<(nat, Event)>, s': State)
    requires Inv(s) && Exec(Step, s, events) == Some(s')
    ensures Inv(s') && s.writes <= s'.writes && s.returned <= s'.returned
    decreases |events|
  {
    if events != [] {
      var next := Step(s, events[0]).value;
      StepKeepsInv(s, events[0].0, events[0].1, next);
      RunKeepsInv(next, events[1..], s');
    }
  }

  /** In every run, whatever `Current` returns is the empty token before the first write, and otherwise the
      whole token of the last write in lock order, granted for a base token that step one returned. */
  lemma CurrentIsLinearizable(events: seq<(nat, Event)>, s: State, i: nat)
    requires Exec(Step, INITIAL, events) == Some(s) && i < |s.returned|
    ensures s.returned[i].seen <= |s.writes| && s.returned[i].value == ValueAfter(s.writes, s.returned[i].seen)
    ensures s.returned[i].seen == 0 || Granted(s, s.returned[i].value)
    ensures forall j | i <= j < |s.returned| :: s.returned[j].seen >= s.returned[i].seen
  {
    RunKeepsInv(INITIAL, events, s);
    assert s.returned[i] in s.returned;
  }

  /** The nil check protects the dereference: no step of any run dereferences nil. */
  lemma NoNilDereference(events: seq<(nat, Event)>, s: State, t: nat)
    requires Exec(Step, INITIAL, events) == Some(s) && At(s, t).Checked?
    ensures Step(s, (t, Copy)).Some?
  {
    RunKeepsInv(INITIAL, events, s);
    assert PcInv(s, t);
  }

  /** Readers and a writer are never inside together, and there is at most one writer. */
  lemma MutualExclusion(events: seq<(nat, Event)>, s: State, t: nat, u: nat)
    requires Exec(Step, INITIAL, events) == Some(s) && t != u
    requires At(s, t).Locked? || At(s, t).Stored?
    ensures At(s, u).Idle? || At(s, u).HasBase? || At(s, u).HasToken?
  {
    RunKeepsInv(INITIAL, events, s);
    assert PcInv(s, t) && PcInv(s, u);
  }

  /** The expiry is computed before the lock is taken, so a later write can store an earlier expiry. */
  lemma ExpiryMayRegress() returns (events: seq<(nat, Event)>, s: State)
    ensures Exec(Step, INITIAL, events) == Some(s)
    ensures |s.writes| == 2 && s.writes[1].expiresAt < s.writes[0].expiresAt
  {
    var older, newer := Token("older", 60 * SECOND), Token("newer", 61 * SECOND);
    events, s := [], INITIAL;
    events, s := Extend(Step, INITIAL, events, s, (1, BaseOk("b1")));
    events, s := Extend(Step, INITIAL, events, s, (2, BaseOk("b2")));
    events, s := Extend(Step, INITIAL, events, s, (1, UmaOk(older)));
    events, s := Extend(Step, INITIAL, events, s, (2, UmaOk(newer)));
    events, s := Extend(Step, INITIAL, events, s, (2, Lock));
    events, s := Extend(Step, INITIAL, events, s, (2, Write));
    events, s := Extend(Step, INITIAL, events, s, (2, Unlock));
    events, s := Extend(Step, INITIAL, events, s, (1, Lock));
    events, s := Extend(Step, INITIAL, events, s, (1, Write));
  }

  // ---- what the events of a run say was stored and returned ----

  /** The token that thread `t` received last. */
  function Received(events: seq<(nat, Event)>, t: nat): Option<Token> {
    if events == [] then None
    else
      var (u, e) := events[|events| - 1];
      if u == t && e.UmaOk? then Some(e.tok) else Received(events[..|events| - 1], t)
  }

  /** The tokens stored, in lock order: each write stores what its thread received last. */
  function StoredTokens(events: seq<(nat, Event)>): seq<Option<Token>> {
    if events == [] then []
    else
      var front := events[..|events| - 1];
      var (t, e) := events[|events| - 1];
      StoredTokens(front) + if e == Write then [Received(front, t)] else []
  }

  function Returns(events: seq<(nat, Event)>): nat {
    if events == [] then 0
    else Returns(events[..|events| - 1]) + if events[|events| - 1].1 == RUnlock then 1 else 0
  }

  ghost predicate Logged(events: seq<(nat, Event)>, s: State) {
    && |s.writes| == |StoredTokens(events)|
    && (forall k | 0 <= k < |s.writes| :: StoredTokens(events)[k] == Some(s.writes[k]))
    && |s.returned| == Returns(events)
    && (forall t | At(s, t).HasToken? || At(s, t).Locked? :: Received(events, t) == Some(At(s, t).tok))
  }

  lemma LoggedOneMore(events: seq<(nat, Event)>, s: State, t: nat, e: Event, s': State)
    requires Logged(events, s) && Step(s, (t, e)) == Some(s')
    ensures Logged(events + [(t, e)], s')
  {
    assert (events + [(t, e)])[..|events|] == events;
    assert forall u | u != t :: At(s', u) == At(s, u);
  }

  /** In every run the stored tokens are, in lock order, what the writing threads received from step two; and every call
      of `Current` that completes returns a value. */
  lemma {:induction false} EveryRunLogged(events: seq<(nat, Event)>, s: State)
    requires Exec(Step, INITIAL, events) == Some(s)
    ensures Logged(events, s)
    decreases |events|
  {
    if events != [] {
      var front, last := events[..|events| - 1], events[|events| - 1];
      assert events == front + [last];
      ExecSplit(Step, INITIAL, front, [last]);
      var before := Exec(Step, INITIAL, front).value;
      ExecOne(Step, before, last);
      EveryRunLogged(front, before);
      LoggedOneMore(front, before, last.0, last.1, s);
    }
  }

  // ---- exactly when is the cached expiry monotone? ----

  ghost predicate Sorted(writes: seq<Token>) {
    forall i, j | 0 <= i < j < |writes| :: writes[i].expiresAt <= writes[j].expiresAt
  }

  predicate NoGrant(events: seq<(nat, Event)>) {
    forall m | m in events :: !m.1.UmaOk?
  }

  /** The tokens received and not yet stored expire together, no earlier than anything stored; the one whose writer is
      already inside may expire earlier than the others, as it comes first. */
  ghost predicate Settled(s: State) {
    && (forall t, u | At(s, t).HasToken? && At(s, u).HasToken? :: At(s, t).tok.expiresAt == At(s, u).tok.expiresAt)
    && (forall t, u | At(s, t).Locked? && At(s, u).HasToken? :: At(s, t).tok.expiresAt <= At(s, u).tok.expiresAt)
    && (forall t, tok | (At(s, t).HasToken? || At(s, t).Locked?) && tok in s.writes ::
          tok.expiresAt <= At(s, t).tok.expiresAt)
  }

  lemma WriteKeepsSettled(s: State, t: nat, s': State)
    requires Inv(s) && Sorted(s.writes) && Settled(s) && Step(s, (t, Write)) == Some(s')
    ensures Sorted(s'.writes) && Settled(s')
  {
    assert PcInv(s, t);
    assert forall u: nat | u != t :: At(s', u) == At(s, u);
    forall u: nat | u != t ensures !At(s, u).Locked? {
      assert PcInv(s, u);
    }
    hide Inv;
    assert forall tok | tok in s'.writes :: tok in s.writes || tok == At(s, t).tok;
  }

  lemma LockKeepsSettled(s: State, t: nat, s': State)
    requires Settled(s) && Step(s, (t, Lock)) == Some(s')
    ensures s'.writes == s.writes && Settled(s')
  {
    assert forall u: nat | u != t :: At(s', u) == At(s, u);
    assert At(s', t) == Locked(At(s, t).tok);
  }

  lemma OtherKeepsSettled(s: State, t: nat, e: Event, s': State)
    requires Settled(s) && Step(s, (t, e)) == Some(s') && e != Write && e != Lock && !e.UmaOk?
    ensures s'.writes == s.writes && Settled(s')
  {
    assert forall u: nat | u != t :: At(s', u) == At(s, u);
    assert !At(s', t).HasToken? && !At(s', t).Locked?;
  }

  lemma StepKeepsSettled(s: State, t: nat, e: Event, s': State)
    requires Inv(s) && Sorted(s.writes) && Settled(s) && Step(s, (t, e)) == Some(s') && !e.UmaOk?
    ensures Sorted(s'.writes) && Settled(s')
  {
    hide Step, Inv, Settled, Sorted;
    if e.Write? {
      WriteKeepsSettled(s, t, s');
    } else if e.Lock? {
      LockKeepsSettled(s, t, s');
    } else {
      OtherKeepsSettled(s, t, e, s');
    }
  }

  lemma {:induction false} SettledStaysSorted(s: State, events: seq<(nat, Event)>, s': State)
    requires Inv(s) && Sorted(s.writes) && Settled(s) && NoGrant(events) && Exec(Step, s, events) == Some(s')
    ensures Sorted(s'.writes)
    decreases |events|
  {
    if events != [] {
      var next := Step(s, events[0]).value;
      StepKeepsInv(s, events[0].0, events[0].1, next);
      StepKeepsSettled(s, events[0].0, events[0].1, next);
      SettledStaysSorted(next, events[1..], s');
    }
  }

  /** A run from `s` without new tokens. */
  ghost predicate Continues(s: State, events: seq<(nat, Event)>, s': State) {
    Exec(Step, s, events) == Some(s') && NoGrant(events) && Inv(s')
  }

  lemma Then(s: State, events: seq<(nat, Event)>, s': State, t: nat, e: Event)
    returns (events': seq<(nat, Event)>, s'': State)
    requires Continues(s, events, s') && !e.UmaOk? && Step(s', (t, e)).Some?
    ensures Continues(s, events', s'') && Step(s', (t, e)) == Some(s'')
  {
    events', s'' := Extend(Step, s, events, s', (t, e));
    StepKeepsInv(s', t, e, s'');
  }

  lemma InsideReads(s: State, events: seq<(nat, Event)>, s': State, t: nat)
    requires Continues(s, events, s') && t in s'.readers
    ensures At(s', t).RLocked? || At(s', t).Checked? || At(s', t).Copied?
    ensures At(s', t).Checked? ==> At(s', t).isNil || s'.current.Some?
  {
    assert PcInv(s', t);
  }

  lemma ReaderLeaves(s: State, events: seq<(nat, Event)>, s': State, t: nat)
    returns (events': seq<(nat, Event)>, s'': State)
    requires Continues(s, events, s') && t in s'.readers
    ensures Continues(s, events', s'') && s''.writes == s'.writes && s''.writer == s'.writer
    ensures s''.readers == s'.readers - {t} && forall u | u != t :: At(s'', u) == At(s', u)
  {
    hide Continues;
    events', s'' := events, s';
    InsideReads(s, events, s', t);
    if At(s'', t).RLocked? {
      events', s'' := Then(s, events', s'', t, Check);
    }
    if At(s'', t).Checked? {
      events', s'' := Then(s, events', s'', t, Copy);
    }
    events', s'' := Then(s, events', s'', t, RUnlock);
  }

  /** Every reader can leave, disturbing nobody else. */
  lemma {:induction false} ReadersLeave(s: State, events: seq<(nat, Event)>, s': State)
    returns (events': seq<(nat, Event)>, s'': State)
    requires Continues(s, events, s')
    ensures Continues(s, events', s'') && s''.readers == {} && s''.writes == s'.writes && s''.writer == s'.writer
    ensures forall u | u !in s'.readers :: At(s'', u) == At(s', u)
    decreases |s'.readers|
  {
    hide Continues;
    if s'.readers == {} {
      events', s'' := events, s';
    } else {
      var t :| t in s'.readers;
      events', s'' := ReaderLeaves(s, events, s', t);
      events', s'' := ReadersLeave(s, events', s'');
    }
  }

  /** The lock can be freed; a writer that is inside stores its token first. */
  lemma LockFreed(s: State, events: seq<(nat, Event)>, s': State)
    returns (events': seq<(nat, Event)>, s'': State)
    requires Continues(s, events, s')
    ensures Continues(s, events', s'') && s''.readers == {} && s''.writer == None
    ensures s''.writes == s'.writes + if s'.writer.Some? && At(s', s'.writer.value).Locked?
                                      then [At(s', s'.writer.value).tok] else []
    ensures forall u | At(s', u).HasToken? :: At(s'', u) == At(s', u)
  {
    forall u | At(s', u).HasToken? ensures u !in s'.readers && s'.writer != Some(u) {
      assert PcInv(s', u);
    }
    events', s'' := ReadersLeave(s, events, s');
    if s'.writer.Some? {
      var t := s'.writer.value;
      assert PcInv(s', t);
      if At(s', t).Locked? {
        events', s'' := Then(s, events', s'', t, Write);
      }
      events', s'' := Then(s, events', s'', t, Unlock);
    }
  }

  /** A thread that has a token can store it next once the lock is free. */
  lemma Stores(s: State, events: seq<(nat, Event)>, s': State, t: nat)
    returns (events': seq<(nat, Event)>, s'': State)
    requires Continues(s, events, s') && s'.writer == None && s'.readers == {} && At(s', t).HasToken?
    ensures Continues(s, events', s'') && s''.writer == None && s''.readers == {}
    ensures s''.writes == s'.writes + [At(s', t).tok]
    ensures forall u | u != t :: At(s'', u) == At(s', u)
  {
    events', s'' := Then(s, events, s', t, Lock);
    events', s'' := Then(s, events', s'', t, Write);
    events', s'' := Then(s, events', s'', t, Unlock);
  }

  /** Without new tokens every continuation keeps the stored expiries sorted. */
  ghost predicate StaysSorted(s: State) {
    forall events, s' | Continues(s, events, s') :: Sorted(s'.writes)
  }

  lemma StoredLater(s: State, t: nat, tok: Token) returns (events: seq<(nat, Event)>, s': State)
    requires Inv(s) && (At(s, t).HasToken? || At(s, t).Locked?)
    requires tok in s.writes && tok.expiresAt > At(s, t).tok.expiresAt
    ensures Continues(s, events, s') && !Sorted(s'.writes)
  {
    assert PcInv(s, t);
    events, s' := LockFreed(s, [], s);
    if At(s, t).HasToken? {
      events, s' := Stores(s, events, s', t);
    }
    var i :| 0 <= i < |s.writes| && s.writes[i] == tok;
    assert s'.writes[i] == tok && s'.writes[|s'.writes| - 1] == At(s, t).tok;
  }

  lemma WriterFirst(s: State, t: nat, u: nat) returns (events: seq<(nat, Event)>, s': State)
    requires Inv(s) && At(s, t).Locked? && At(s, u).HasToken? && At(s, t).tok.expiresAt > At(s, u).tok.expiresAt
    ensures Continues(s, events, s') && !Sorted(s'.writes)
  {
    assert PcInv(s, t);
    events, s' := LockFreed(s, [], s);
    events, s' := Stores(s, events, s', u);
    assert s'.writes[|s.writes|] == At(s, t).tok && s'.writes[|s.writes| + 1] == At(s, u).tok;
  }

  lemma LaterExpiryFirst(s: State, t: nat, u: nat) returns (events: seq<(nat, Event)>, s': State)
    requires Inv(s) && At(s, t).HasToken? && At(s, u).HasToken? && At(s, t).tok.expiresAt > At(s, u).tok.expiresAt
    ensures Continues(s, events, s') && !Sorted(s'.writes)
  {
    events, s' := LockFreed(s, [], s);
    events, s' := Stores(s, events, s', t);
    events, s' := Stores(s, events, s', u);
    assert s'.writes[|s'.writes| - 2] == At(s, t).tok && s'.writes[|s'.writes| - 1] == At(s, u).tok;
  }

  lemma UnsettledRegresses(s: State) returns (events: seq<(nat, Event)>, s': State)
    requires Inv(s) && !Settled(s)
    ensures Continues(s, events, s') && !Sorted(s'.writes)
  {
    hide Inv, Continues, Sorted;
    if t, tok :| (At(s, t).HasToken? || At(s, t).Locked?) && tok in s.writes && tok.expiresAt > At(s, t).tok.expiresAt {
      events, s' := StoredLater(s, t, tok);
    } else if t, u :| At(s, t).Locked? && At(s, u).HasToken? && At(s, t).tok.expiresAt > At(s, u).tok.expiresAt {
      events, s' := WriterFirst(s, t, u);
    } else {
      var t, u :| At(s, t).HasToken? && At(s, u).HasToken? && At(s, t).tok.expiresAt > At(s, u).tok.expiresAt;
      events, s' := LaterExpiryFirst(s, t, u);
    }
  }

  /** The cached expiry can only grow, whatever the scheduler does until the next token is granted, if and only if the
      state is settled: two tokens with different expiries in flight at once suffice to make it move back. */
  lemma ExpiryMonotoneExactly(events: seq<(nat, Event)>, s: State)
    requires Exec(Step, INITIAL, events) == Some(s) && Sorted(s.writes)
    ensures StaysSorted(s) <==> Settled(s)
  {
    RunKeepsInv(INITIAL, events, s);
    if Settled(s) {
      forall more, s' | Continues(s, more, s') ensures Sorted(s'.writes) {
        SettledStaysSorted(s, more, s');
      }
    } else {
      var more, s' := UnsettledRegresses(s);
    }
  }
}
