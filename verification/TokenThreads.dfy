/**
 The token cache under any number of concurrent callers (agent/pkg/client/credentials.go): the
 double-checked locking, one step at a time, with the read-write lock and the calls to the base source.
 */
module TokenThreads {
  import opened Prelude
  import opened TokenCache

  // A call of Token: the time it captured, and how long the log was when it began.
  datatype Call = Call(now: int, since: nat)

  datatype Phase =
    | Called(c: Call)                                        // has read the clock
    | Reading(c: Call)                                       // holds the lock for reading
    | Waiting(c: Call)                                       // found no fresh token and wants the lock for writing
    | Holding(c: Call)                                       // holds it, and has yet to look again
    | InBase(c: Call)                                        // holds it, and the base source is at work
    | Rotating(c: Call, token: Token)                        // holds it, and has a new token to store
    | Returning(c: Call, result: Option<Token>, how: How)

  // What happened to the cache.
  datatype Entry =
    | Asked(caller: Call)                            // the base source was called
    | Stored(caller: Call, token: Token, at: int)
    | Dropped(limit: int)                        // by ResetTokenOlderThan(limit)

  datatype System = System(
    cached: Cached, clock: int,
    writer: Option<nat>, readers: set<nat>,      // the lock
    phases: map<nat, Phase>,                     // the calls in progress
    log: seq<Entry>)                             // history

  datatype Step =
    | Tick(pause: nat)
    | Begin(i: nat)
    | LockForReading(i: nat)
    | Read(i: nat)
    | Lock(i: nat)
    | LookAgain(i: nat)
    | Answer(i: nat, token: Option<Token>)
    | Store(i: nat)
    | Return(i: nat)
    | Reset(limit: int)

  const START := System(Cached(None, None), 0, None, {}, map[], [])

  // Where a step is not possible, nothing happens.
  function Next(s: System, step: Step): System {
    match step
    case Tick(pause) => s.(clock := s.clock + pause)
    case Begin(i) => if i in s.phases then s else At(s, i, Called(Call(s.clock, |s.log|)))
    case LockForReading(i) =>
      if i in s.phases && s.phases[i].Called? && s.writer.None?
      then At(s, i, Reading(s.phases[i].c)).(readers := s.readers + {i}) else s
    case Read(i) =>
      if i in s.phases && s.phases[i].Reading?
      then
        var c := s.phases[i].c;
        var p := if Fresh(s.cached.tok, c.now) then Returning(c, s.cached.tok, FastHit) else Waiting(c);
        At(s, i, p).(readers := s.readers - {i})
      else s
    case Lock(i) =>
      if i in s.phases && s.phases[i].Waiting? && s.writer.None? && s.readers == {}
      then At(s, i, Holding(s.phases[i].c)).(writer := Some(i)) else s
    case LookAgain(i) =>
      if i in s.phases && s.phases[i].Holding?
      then
        var c := s.phases[i].c;
        if Fresh(s.cached.tok, c.now) then At(s, i, Returning(c, s.cached.tok, SlowHit)).(writer := None)
        else At(s, i, InBase(c)).(log := s.log + [Asked(c)])
      else s
    case Answer(i, token) => if i in s.phases && s.phases[i].InBase? then Answering(s, i, token) else s
    case Store(i) =>
      if i in s.phases && s.phases[i].Rotating?
      then
        var p := s.phases[i];
        At(s, i, Returning(p.c, Some(p.token), Rotated)).(
          cached := Cached(Some(p.token), Some(s.clock)), writer := None,
          log := s.log + [Stored(p.c, p.token, s.clock)])
      else s
    case Return(i) => if i in s.phases && s.phases[i].Returning? then s.(phases := s.phases - {i}) else s
    case Reset(limit) =>
      if s.writer.None? && s.readers == {} && OlderThan(s.cached, limit)
      then s.(cached := Cached(None, None), log := s.log + [Dropped(limit)]) else s
  }

  function At(s: System, i: nat, p: Phase): System {
    s.(phases := s.phases[i := p])
  }

  function Answering(s: System, i: nat, token: Option<Token>): System
    requires i in s.phases && s.phases[i].InBase?
  {
    var c := s.phases[i].c;
    if token.Some? then At(s, i, Rotating(c, token.value))
    else if s.cached.tok.None? then At(s, i, Returning(c, None, Failed)).(writer := None)
    else At(s, i, Returning(c, s.cached.tok, Stale)).(writer := None)
  }

  function Run(steps: seq<Step>): System {
    if steps == [] then START else Next(Run(steps[..|steps| - 1]), steps[|steps| - 1])
  }

  ghost predicate Reachable(s: System) {
    exists steps :: s == Run(steps)
  }

  /*** What is cached, by the log ***/

  function CachedBy(log: seq<Entry>): Cached {
    if log == [] then Cached(None, None)
    else match log[|log| - 1]
      case Asked(_) => CachedBy(log[..|log| - 1])
      case Stored(_, token, at) => Cached(Some(token), Some(at))
      case Dropped(_) => Cached(None, None)
  }

  predicate HoldsLock(p: Phase) {
    p.Holding? || p.InBase? || p.Rotating?
  }

  // The token was the cached one at some instant since the call began.
  ghost predicate WasCached(log: seq<Entry>, c: Call, token: Token) {
    exists k :: c.since <= k <= |log| && CachedBy(log[..k]).tok == Some(token)
  }

  ghost predicate PhaseInv(s: System, p: Phase) {
    && p.c.since <= |s.log| && p.c.now <= s.clock
    && (p.InBase? || p.Rotating? ==> !Fresh(s.cached.tok, p.c.now))
    && (p.Returning? ==>
          && (p.result.None? <==> p.how == Failed)
          && (p.result.Some? ==> WasCached(s.log, p.c, p.result.value))
          && (p.how == FastHit || p.how == SlowHit ==> Fresh(p.result, p.c.now)))
  }

  // Each entry was due when it was made.
  ghost predicate Due(log: seq<Entry>, k: nat)
    requires k < |log|
  {
    var before := CachedBy(log[..k]);
    match log[k]
    case Asked(c) => !Fresh(before.tok, c.now)
    case Stored(c, _, at) => !Fresh(before.tok, c.now) && c.now <= at
    case Dropped(limit) => OlderThan(before, limit)
  }

  ghost predicate Inv(s: System) {
    && s.cached == CachedBy(s.log)
    && (forall i :: s.writer == Some(i) <==> i in s.phases && HoldsLock(s.phases[i]))
    && (forall i :: i in s.readers <==> i in s.phases && s.phases[i].Reading?)
    && (s.writer.Some? ==> s.readers == {})
    && (forall i :: i in s.phases ==> PhaseInv(s, s.phases[i]))
    && (forall k :: 0 <= k < |s.log| ==> Due(s.log, k))
  }

  lemma WasCachedStill(log: seq<Entry>, log': seq<Entry>, c: Call, token: Token)
    requires log <= log' && WasCached(log, c, token)
    ensures WasCached(log', c, token)
  {
    var k :| c.since <= k <= |log| && CachedBy(log[..k]).tok == Some(token);
    assert log'[..k] == log[..k];
  }

  lemma IsCachedNow(s: System, c: Call)
    requires s.cached == CachedBy(s.log) && c.since <= |s.log| && s.cached.tok.Some?
    ensures WasCached(s.log, c, s.cached.tok.value)
  {
    assert s.log[..|s.log|] == s.log;
  }

  lemma LogGrows(log: seq<Entry>, entry: Entry)
    requires forall k :: 0 <= k < |log| ==> Due(log, k)
    requires Due(log + [entry], |log|)
    ensures forall k :: 0 <= k < |log + [entry]| ==> Due(log + [entry], k)
  {
    forall k | 0 <= k < |log| ensures Due(log + [entry], k) {
      assert (log + [entry])[..k] == log[..k];
      assert Due(log, k);
    }
  }

  // A step that moves thread i only, without a change to the cache.
  lemma MoveKeepsInv(s: System, s': System, i: nat)
    requires Inv(s) && s'.cached == s.cached && s'.log == s.log && s'.clock == s.clock
    requires forall j :: j != i ==>
             (j in s'.phases <==> j in s.phases) && (j in s.phases ==> s'.phases[j] == s.phases[j])
    requires i in s'.phases ==> PhaseInv(s', s'.phases[i])
    requires s.writer.Some? && s.writer != Some(i) ==>
             s'.writer == s.writer && !(i in s'.phases && HoldsLock(s'.phases[i]))
    requires s.writer.None? || s.writer == Some(i) ==>
             s'.writer == if i in s'.phases && HoldsLock(s'.phases[i]) then Some(i) else None
    requires s'.readers == if i in s'.phases && s'.phases[i].Reading? then s.readers + {i} else s.readers - {i}
    requires s'.writer.Some? ==> s'.readers == {}
    ensures Inv(s')
  {}

  lemma StoreKeepsInv(s: System, i: nat)
    requires Inv(s) && i in s.phases && s.phases[i].Rotating?
    ensures Inv(Next(s, Store(i)))
  {
    var s', p := Next(s, Store(i)), s.phases[i];
    var entry := Stored(p.c, p.token, s.clock);
    assert PhaseInv(s, p);
    assert s'.log[..|s.log|] == s.log;
    LogGrows(s.log, entry);
    IsCachedNow(s', p.c);
    OthersKept(s, s', i);
  }

  // The other calls do not mind what the holder of the lock adds to the log.
  lemma OthersKept(s: System, s': System, i: nat)
    requires Inv(s) && s.writer == Some(i) && s.log <= s'.log && s'.clock == s.clock
    requires forall j :: j != i ==>
             (j in s'.phases <==> j in s.phases) && (j in s.phases ==> s'.phases[j] == s.phases[j])
    ensures forall j :: j in s'.phases && j != i ==> PhaseInv(s', s'.phases[j])
  {
    forall j | j in s'.phases && j != i ensures PhaseInv(s', s'.phases[j]) {
      var p := s.phases[j];
      assert PhaseInv(s, p) && !HoldsLock(p);
      if p.Returning? && p.result.Some? { WasCachedStill(s.log, s'.log, p.c, p.result.value); }
    }
  }

  lemma LookAgainKeepsInv(s: System, i: nat)
    requires Inv(s) && i in s.phases && s.phases[i].Holding?
    ensures Inv(Next(s, LookAgain(i)))
  {
    var s', c := Next(s, LookAgain(i)), s.phases[i].c;
    assert PhaseInv(s, s.phases[i]);
    if Fresh(s.cached.tok, c.now) {
      IsCachedNow(s, c);
      MoveKeepsInv(s, s', i);
    } else {
      assert s'.log[..|s.log|] == s.log;
      LogGrows(s.log, Asked(c));
      OthersKept(s, s', i);
    }
  }

  lemma ResetKeepsInv(s: System, limit: int)
    requires Inv(s)
    ensures Inv(Next(s, Reset(limit)))
  {
    var s' := Next(s, Reset(limit));
    if s' != s {
      assert s'.log[..|s.log|] == s.log;
      LogGrows(s.log, Dropped(limit));
      forall j | j in s'.phases ensures PhaseInv(s', s'.phases[j]) {
        var p := s.phases[j];
        assert PhaseInv(s, p) && !HoldsLock(p);
        if p.Returning? && p.result.Some? { WasCachedStill(s.log, s'.log, p.c, p.result.value); }
      }
    }
  }

  lemma TickKeepsInv(s: System, pause: nat)
    requires Inv(s)
    ensures Inv(Next(s, Tick(pause)))
  {}

  lemma ReadKeepsInv(s: System, i: nat)
    requires Inv(s)
    ensures Inv(Next(s, LockForReading(i))) && Inv(Next(s, Read(i)))
  {
    if i in s.phases {
      assert PhaseInv(s, s.phases[i]);
      if s.phases[i].Called? && s.writer.None? { MoveKeepsInv(s, Next(s, LockForReading(i)), i); }
      if s.phases[i].Reading? {
        if Fresh(s.cached.tok, s.phases[i].c.now) { IsCachedNow(s, s.phases[i].c); }
        MoveKeepsInv(s, Next(s, Read(i)), i);
      }
    }
  }

  lemma AnswerKeepsInv(s: System, i: nat, token: Option<Token>)
    requires Inv(s) && i in s.phases && s.phases[i].InBase?
    ensures Inv(Next(s, Answer(i, token)))
  {
    assert PhaseInv(s, s.phases[i]);
    if s.cached.tok.Some? { IsCachedNow(s, s.phases[i].c); }
    MoveKeepsInv(s, Next(s, Answer(i, token)), i);
  }

  lemma NextKeepsInv(s: System, step: Step)
    requires Inv(s)
    ensures Inv(Next(s, step))
  {
    var s' := Next(s, step);
    match step
    case Tick(pause) => TickKeepsInv(s, pause);
    case Begin(i) => if i !in s.phases { MoveKeepsInv(s, s', i); }
    case LockForReading(i) => ReadKeepsInv(s, i);
    case Read(i) => ReadKeepsInv(s, i);
    case Lock(i) =>
      if i in s.phases && s.phases[i].Waiting? && s.writer.None? && s.readers == {} {
        assert PhaseInv(s, s.phases[i]);
        MoveKeepsInv(s, s', i);
      }
    case LookAgain(i) => if i in s.phases && s.phases[i].Holding? { LookAgainKeepsInv(s, i); }
    case Answer(i, token) => if i in s.phases && s.phases[i].InBase? { AnswerKeepsInv(s, i, token); }
    case Store(i) => if i in s.phases && s.phases[i].Rotating? { StoreKeepsInv(s, i); }
    case Return(i) => if i in s.phases && s.phases[i].Returning? { MoveKeepsInv(s, s', i); }
    case Reset(limit) => ResetKeepsInv(s, limit);
  }

  lemma {:induction false} RunKeepsInv(steps: seq<Step>)
    ensures Inv(Run(steps))
  {
    if steps != [] {
      RunKeepsInv(steps[..|steps| - 1]);
      NextKeepsInv(Run(steps[..|steps| - 1]), steps[|steps| - 1]);
    }
  }

  lemma ReachableInv(s: System)
    requires Reachable(s)
    ensures Inv(s)
  {
    var steps :| s == Run(steps);
    RunKeepsInv(steps);
  }

  /*** The theorems ***/

  /** The base source is never at work for two callers at once, and nobody reads meanwhile. */
  lemma BaseIsCalledAlone(s: System, i: nat, j: nat)
    requires Reachable(s)
    requires i in s.phases && (s.phases[i].InBase? || s.phases[i].Rotating?)
    requires j in s.phases && (HoldsLock(s.phases[j]) || s.phases[j].Reading?)
    ensures i == j
  {
    ReachableInv(s);
    assert s.writer == Some(i);
    assert j in s.readers <==> s.phases[j].Reading?;
  }

  // Between two points of the log the cache changed no further.
  ghost predicate Undisturbed(log: seq<Entry>, j: nat, k: nat)
    requires j < k <= |log|
  {
    forall m :: j < m < k ==> log[m].Asked?
  }

  lemma {:induction false} CachedSince(log: seq<Entry>, j: nat, k: nat)
    requires j < k <= |log| && log[j].Stored? && Undisturbed(log, j, k)
    ensures CachedBy(log[..k]) == Cached(Some(log[j].token), Some(log[j].at))
    decreases k
  {
    assert log[..k][..k - 1] == log[..k - 1];
    if k - 1 > j { CachedSince(log, j, k - 1); }
  }

  /**
   One refresh serves all who wait for it: after a token was stored, the base source is not called again
   for any caller who captured a time that lies before its expiry by more than the leeway, unless the
   token was reset or replaced in between.
   */
  lemma OneRefreshServesAll(s: System, j: nat, k: nat)
    requires Reachable(s) && j < k < |s.log| && Undisturbed(s.log, j, k)
    requires s.log[j].Stored? && (s.log[k].Asked? || s.log[k].Stored?)
    ensures s.log[k].caller.now >= s.log[j].token.expiry - 300 * SECOND
  {
    ReachableInv(s);
    CachedSince(s.log, j, k);
    assert Due(s.log, k);
  }

  /**
   What a call is about to return was the cached token at some instant of that very call; it is fresh by
   the call's clock if it was found in the cache; and there is none only if the base source failed.
   */
  lemma ReturnedWasCached(s: System, i: nat)
    requires Reachable(s) && i in s.phases && s.phases[i].Returning?
    ensures var p := s.phases[i];
            && (p.result.None? <==> p.how == Failed)
            && (p.result.Some? ==> WasCached(s.log, p.c, p.result.value))
            && (p.how == FastHit || p.how == SlowHit ==> p.result.value.expiry > p.c.now + 300 * SECOND)
  {
    ReachableInv(s);
    assert PhaseInv(s, s.phases[i]);
  }

  /**
   ResetTokenOlderThan(limit) drops the cached token if and only if that was stored before the limit; so
   a token that was stored for a caller who began at the limit or later stays.
   */
  lemma ResetSparesTheNew(s: System, j: nat, limit: int)
    requires Reachable(s) && j < |s.log| && s.log[j].Stored? && Undisturbed(s.log, j, |s.log|)
    ensures s.log[j].caller.now <= s.log[j].at
    ensures s.log[j].at >= limit ==> Next(s, Reset(limit)) == s
    ensures s.log[j].at < limit && s.writer.None? && s.readers == {} ==> Next(s, Reset(limit)).cached.tok.None?
  {
    ReachableInv(s);
    CachedSince(s.log, j, |s.log|);
    assert s.log[..|s.log|] == s.log;
    assert Due(s.log, j);
  }

  /*** One caller alone ***/

  // One call of Token that nobody interferes with: the base source takes its time to answer.
  function Alone(s: System, i: nat, base: Option<Token>, pause: nat): System {
    var looked := Next(Next(Next(s, Begin(i)), LockForReading(i)), Read(i));
    var asked := Next(Next(looked, Lock(i)), LookAgain(i));
    Next(Next(Next(asked, Tick(pause)), Answer(i, base)), Store(i))
  }

  /** Such a call does what the method does. */
  lemma AloneIsTokenCall(s: System, i: nat, base: Option<Token>, pause: nat)
    requires i !in s.phases && s.writer.None? && s.readers == {}
    ensures var s' := Alone(s, i, base, pause);
            var r := TokenCall(s.cached, s.clock, base, s.clock + pause);
            && s'.cached == r.cached
            && i in s'.phases && s'.phases[i] == Returning(Call(s.clock, |s.log|), r.result, r.how)
            && s'.writer.None? && s'.readers == {}
  {
    var s2 := Next(Next(s, Begin(i)), LockForReading(i));
    assert s2.readers - {i} == {};
  }
}
