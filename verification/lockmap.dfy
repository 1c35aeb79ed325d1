/** The per-key mutex map, first as the object the code mutates, then as interleaved steps of many threads. */
module LockMaps {
  import opened Text

  class Mutex {
    var locked: bool

    constructor ()
      ensures !locked
    {
      locked := false;
    }
  }

  /** `lockMap`. Each method body is one critical section of the embedded `sync.Mutex`. */
  class LockMap {
    var mutexMap: map<string, Mutex>

    constructor ()
      ensures Valid() && mutexMap == map[] && Held() == {}
    {
      mutexMap := map[];
    }

    ghost predicate Valid()
      reads this
    {
      forall k, l :: k in mutexMap && l in mutexMap && mutexMap[k] == mutexMap[l] ==> k == l
    }

    /** The entries that are locked now. */
    ghost function Held(): set<string>
      reads this, mutexMap.Values
    {
      set k | k in mutexMap && mutexMap[k].locked
    }

    /** A call on a held entry blocks, so it returns only from states in which the entry is free. */
    method LockEntry(entry: string)
      requires Valid() && entry !in Held()
      modifies this, mutexMap.Values
      ensures Valid()
      ensures Held() == old(Held()) + {entry}
      ensures entry in mutexMap && forall k :: k in old(mutexMap) ==> k in mutexMap && mutexMap[k] == old(mutexMap[k])
      ensures mutexMap.Keys == old(mutexMap.Keys) + {entry}
    {
      if entry !in mutexMap {
        var mutex := new Mutex();
        mutexMap := mutexMap[entry := mutex];
      }
      mutexMap[entry].locked := true;
    }

    /** Unlocking a mutex that is not locked crashes a Go program; a missing entry is ignored. */
    method UnlockEntry(entry: string)
      requires Valid() && (entry in mutexMap ==> entry in Held())
      modifies mutexMap.Values
      ensures Valid() && mutexMap == old(mutexMap)
      ensures Held() == old(Held()) - {entry}
    {
      if entry !in mutexMap {
        return;
      }
      mutexMap[entry].locked := false;
    }
  }

  // ---------------------------------------------------------------------------------------------
  // Interleavings. A mutex is an identity; `owner` says who holds it.

  type Tid = nat

  datatype Phase =
    | Idle                                   // outside LockEntry and UnlockEntry
    | Wanting(key: string, acquire: bool)    // about to lock the map's own mutex
    | Inside(key: string, acquire: bool)     // holding the map's own mutex
    | Waiting(key: string, mutex: nat)       // has resolved its mutex, about to lock it

  datatype Thread = Thread(phase: Phase, held: set<string>)

  /** `created` counts the mutexes allocated so far, so that a new one differs from every earlier one. */
  datatype State = State(lm: Option<Tid>, mutexMap: map<string, nat>, created: nat, owner: map<nat, Tid>,
    threads: map<Tid, Thread>)

  const ATTACH_SUFFIX := "attachdiskmap"
  const DETACH_SUFFIX := "detachdiskmap"

  /**
   * The only ways the driver nests calls: a lone key, or a batching key under the lock of its own node. Node names
   * are arbitrary, so a node may be called exactly like another node's batching key.
   */
  ghost predicate Legal(held: set<string>, key: string) {
    held == {} || exists node :: held == {node} && IsBatchKey(node, key)
  }

  predicate IsBatchKey(node: string, key: string) {
    key == node + ATTACH_SUFFIX || key == node + DETACH_SUFFIX
  }

  datatype Action =
    | Spawn(t: Tid)
    | CallLock(t: Tid, key: string)
    | CallUnlock(t: Tid, key: string)
    | TakeMap(t: Tid)
    | Body(t: Tid)
    | TakeMutex(t: Tid)

  ghost predicate Init(s: State) {
    s == State(None, map[], 0, map[], map[])
  }

  ghost predicate Step(s: State, a: Action, s': State) {
    match a
    case Spawn(t) =>
      t !in s.threads && s' == s.(threads := s.threads[t := Thread(Idle, {})])
    case CallLock(t, key) =>
      && t in s.threads && s.threads[t].phase.Idle? && Legal(s.threads[t].held, key)
      && s' == s.(threads := s.threads[t := s.threads[t].(phase := Wanting(key, true))])
    case CallUnlock(t, key) =>
      && t in s.threads && s.threads[t].phase.Idle? && key in s.threads[t].held
      && s' == s.(threads := s.threads[t := s.threads[t].(phase := Wanting(key, false))])
    case TakeMap(t) =>
      && t in s.threads && s.threads[t].phase.Wanting? && s.lm.None?
      && var p := s.threads[t].phase;
      s' == s.(lm := Some(t), threads := s.threads[t := s.threads[t].(phase := Inside(p.key, p.acquire))])
    case Body(t) =>
      && t in s.threads && s.threads[t].phase.Inside?
      && s' == if s.threads[t].phase.acquire then BodyLock(s, t) else BodyUnlock(s, t)
    case TakeMutex(t) =>
      && t in s.threads && s.threads[t].phase.Waiting? && s.threads[t].phase.mutex !in s.owner
      && var p := s.threads[t].phase;
      s' == s.(owner := s.owner[p.mutex := t],
               threads := s.threads[t := Thread(Idle, s.threads[t].held + {p.key})])
  }

  /** Lines between the map's Lock and Unlock in LockEntry: find the entry, or add one with a new mutex. */
  function BodyLock(s: State, t: Tid): State
    requires t in s.threads && s.threads[t].phase.Inside?
  {
    var key := s.threads[t].phase.key;
    var th := s.threads[t];
    if key in s.mutexMap then
      s.(lm := None, threads := s.threads[t := th.(phase := Waiting(key, s.mutexMap[key]))])
    else
      s.(lm := None, mutexMap := s.mutexMap[key := s.created], created := s.created + 1,
         threads := s.threads[t := th.(phase := Waiting(key, s.created))])
  }

  /** UnlockEntry never waits while it has the map's own mutex. */
  function BodyUnlock(s: State, t: Tid): State
    requires t in s.threads && s.threads[t].phase.Inside?
  {
    var key := s.threads[t].phase.key;
    s.(lm := None,
       owner := if key in s.mutexMap then s.owner - {s.mutexMap[key]} else s.owner,
       threads := s.threads[t := Thread(Idle, s.threads[t].held - {key})])
  }

  ghost predicate ThreadInv(s: State, t: Tid)
    requires t in s.threads
  {
    var th := s.threads[t];
    && (s.lm == Some(t) <==> th.phase.Inside?)
    && (forall k :: k in th.held ==> k in s.mutexMap && s.mutexMap[k] in s.owner && s.owner[s.mutexMap[k]] == t)
    && ((th.phase.Wanting? || th.phase.Inside?) ==>
      if th.phase.acquire then Legal(th.held, th.phase.key) else th.phase.key in th.held)
    && (th.phase.Waiting? ==>
      && Legal(th.held, th.phase.key)
      && th.phase.key in s.mutexMap && s.mutexMap[th.phase.key] == th.phase.mutex)
  }

  ghost predicate OwnerInv(s: State, k: string)
    requires k in s.mutexMap && s.mutexMap[k] in s.owner
  {
    var t := s.owner[s.mutexMap[k]];
    t in s.threads && k in s.threads[t].held
  }

  ghost predicate Inv(s: State) {
    && (forall k, l :: k in s.mutexMap && l in s.mutexMap && s.mutexMap[k] == s.mutexMap[l] ==> k == l)
    && (forall k :: k in s.mutexMap ==> s.mutexMap[k] < s.created)
    && (forall m :: m in s.owner ==> m < s.created)
    && (forall k :: k in s.mutexMap && s.mutexMap[k] in s.owner ==> OwnerInv(s, k))
    && (s.lm.Some? ==> s.lm.value in s.threads)
    && (forall t :: t in s.threads ==> ThreadInv(s, t))
  }

  lemma CallKeepsInv(s: State, a: Action, s': State)
    requires Inv(s) && Step(s, a, s') && (a.Spawn? || a.CallLock? || a.CallUnlock? || a.TakeMap?)
    ensures Inv(s')
  {
    if a.t in s.threads {
      assert ThreadInv(s, a.t);
    }
    forall t | t in s'.threads ensures ThreadInv(s', t) {
      assert t in s.threads ==> ThreadInv(s, t);
    }
    forall k | k in s'.mutexMap && s'.mutexMap[k] in s'.owner ensures OwnerInv(s', k) {
      assert OwnerInv(s, k);
    }
  }

  lemma LockBodyKeepsInv(s: State, a: Action, s': State)
    requires Inv(s) && Step(s, a, s') && a.Body? && s.threads[a.t].phase.acquire
    ensures Inv(s')
  {
    assert ThreadInv(s, a.t);
    forall t | t in s'.threads ensures ThreadInv(s', t) {
      assert ThreadInv(s, t);
    }
    forall k | k in s'.mutexMap && s'.mutexMap[k] in s'.owner ensures OwnerInv(s', k) {
      assert OwnerInv(s, k);
    }
  }

  lemma UnlockBodyKeepsInv(s: State, a: Action, s': State)
    requires Inv(s) && Step(s, a, s') && a.Body? && !s.threads[a.t].phase.acquire
    ensures Inv(s')
  {
    assert ThreadInv(s, a.t);
    forall t | t in s'.threads ensures ThreadInv(s', t) {
      assert ThreadInv(s, t);
    }
    forall k | k in s'.mutexMap && s'.mutexMap[k] in s'.owner ensures OwnerInv(s', k) {
      assert OwnerInv(s, k);
    }
  }

  lemma TakeMutexKeepsInv(s: State, a: Action, s': State)
    requires Inv(s) && Step(s, a, s') && a.TakeMutex?
    ensures Inv(s')
  {
    assert ThreadInv(s, a.t);
    forall t | t in s'.threads ensures ThreadInv(s', t) {
      assert ThreadInv(s, t);
    }
    forall k | k in s'.mutexMap && s'.mutexMap[k] in s'.owner ensures OwnerInv(s', k) {
      assert k == s.threads[a.t].phase.key || OwnerInv(s, k);
    }
  }

  lemma StepKeepsInv(s: State, a: Action, s': State)
    requires Inv(s) && Step(s, a, s')
    ensures Inv(s')
  {
    match a
    case Body(t) =>
      if s.threads[t].phase.acquire {
        LockBodyKeepsInv(s, a, s');
      } else {
        UnlockBodyKeepsInv(s, a, s');
      }
    case TakeMutex(_) => TakeMutexKeepsInv(s, a, s');
    case _ => CallKeepsInv(s, a, s');
  }

  ghost predicate Next(s: State, s': State) {
    exists a :: Step(s, a, s')
  }

  ghost predicate IsRun(run: seq<State>) {
    && run != [] && Init(run[0])
    && forall i :: 0 < i < |run| ==> Next(run[i - 1], run[i])
  }

  lemma {:induction false} RunsKeepInv(run: seq<State>, i: nat)
    requires IsRun(run) && i < |run|
    ensures Inv(run[i])
  {
    if i > 0 {
      RunsKeepInv(run, i - 1);
      assert Next(run[i - 1], run[i]);
      var a :| Step(run[i - 1], a, run[i]);
      StepKeepsInv(run[i - 1], a, run[i]);
    }
  }

  /** No entry is ever held by two threads, in any reachable state. */
  lemma MutualExclusion(run: seq<State>, i: nat, t: Tid, u: Tid, key: string)
    requires IsRun(run) && i < |run|
    requires t in run[i].threads && u in run[i].threads
    requires key in run[i].threads[t].held && key in run[i].threads[u].held
    ensures t == u
  {
    RunsKeepInv(run, i);
    assert ThreadInv(run[i], t) && ThreadInv(run[i], u);
  }

  /** An entry, once created, keeps its mutex for the rest of the run. */
  lemma {:induction false} EntriesAreNeverReplaced(run: seq<State>, i: nat, j: nat, key: string)
    requires IsRun(run) && i <= j < |run| && key in run[i].mutexMap
    ensures key in run[j].mutexMap && run[j].mutexMap[key] == run[i].mutexMap[key]
  {
    if i < j {
      EntriesAreNeverReplaced(run, i, j - 1, key);
      assert Next(run[j - 1], run[j]);
      var a :| Step(run[j - 1], a, run[j]);
      EntryKept(run[j - 1], a, run[j], key);
    }
  }

  lemma EntryKept(s: State, a: Action, s': State, key: string)
    requires Step(s, a, s') && key in s.mutexMap
    ensures key in s'.mutexMap && s'.mutexMap[key] == s.mutexMap[key]
  {
  }

  // ---------------------------------------------------------------------------------------------
  // Refinement: the micro-steps implement one lock per key, taken and released in single steps.

  function Compose(mutexMap: map<string, nat>, owner: map<nat, Tid>): map<string, Tid> {
    map k | k in mutexMap && mutexMap[k] in owner :: owner[mutexMap[k]]
  }

  function Holders(s: State): map<string, Tid> {
    Compose(s.mutexMap, s.owner)
  }

  /** What an action does at the level of whole locks; None for the steps that only prepare. */
  datatype LockEvent = Acquired(key: string, t: Tid) | Released(key: string, t: Tid)

  function Event(s: State, a: Action): Option<LockEvent>
    requires a.TakeMutex? || a.Body? ==> a.t in s.threads
  {
    if a.TakeMutex? && s.threads[a.t].phase.Waiting? then Some(Acquired(s.threads[a.t].phase.key, a.t))
    else if a.Body? && s.threads[a.t].phase.Inside? && !s.threads[a.t].phase.acquire then
      Some(Released(s.threads[a.t].phase.key, a.t))
    else None
  }

  ghost predicate AtomicStep(h: map<string, Tid>, e: Option<LockEvent>, h': map<string, Tid>) {
    match e
    case None => h' == h
    case Some(Acquired(key, t)) => key !in h && h' == h[key := t]
    case Some(Released(key, t)) => key in h && h[key] == t && h' == h - {key}
  }

  lemma StepsRefineAtomicLocks(s: State, a: Action, s': State)
    requires Inv(s) && Step(s, a, s')
    ensures AtomicStep(Holders(s), Event(s, a), Holders(s'))
  {
    match Event(s, a)
    case None => HoldersUnchanged(s, a, s');
    case Some(Acquired(key, t)) => HoldersGain(s, t, s');
    case Some(Released(key, t)) => HoldersLose(s, t, s');
  }

  lemma HoldersGain(s: State, t: Tid, s': State)
    requires Inv(s) && Step(s, TakeMutex(t), s')
    ensures var key := s.threads[t].phase.key;
      key !in Holders(s) && Holders(s') == Holders(s)[key := t]
  {
    assert ThreadInv(s, t);
    ComposeGain(s.mutexMap, s.owner, s.threads[t].phase.key, t);
  }

  lemma ComposeGain(mutexMap: map<string, nat>, owner: map<nat, Tid>, key: string, t: Tid)
    requires forall k, l :: k in mutexMap && l in mutexMap && mutexMap[k] == mutexMap[l] ==> k == l
    requires key in mutexMap && mutexMap[key] !in owner
    ensures key !in Compose(mutexMap, owner)
    ensures Compose(mutexMap, owner[mutexMap[key] := t]) == Compose(mutexMap, owner)[key := t]
  {
  }

  lemma HoldersLose(s: State, t: Tid, s': State)
    requires Inv(s) && Step(s, Body(t), s') && !s.threads[t].phase.acquire
    ensures var key := s.threads[t].phase.key;
      key in Holders(s) && Holders(s)[key] == t && Holders(s') == Holders(s) - {key}
  {
    assert ThreadInv(s, t);
    var h, h', key := Holders(s), Holders(s'), s.threads[t].phase.key;
    forall k | k != key ensures k in h' <==> k in h {
    }
    assert h'.Keys == h.Keys - {key};
  }

  lemma HoldersUnchanged(s: State, a: Action, s': State)
    requires Inv(s) && Step(s, a, s') && Event(s, a).None?
    ensures Holders(s') == Holders(s)
  {
    if a.Body? {
      forall k | k in s'.mutexMap && k !in s.mutexMap ensures s'.mutexMap[k] !in s.owner {
      }
    }
  }

  // ---------------------------------------------------------------------------------------------
  // Deadlock freedom

  /** A thread outside the lock map runs code of its own; inside, it moves unless what it needs is taken. */
  ghost predicate CanMove(s: State, t: Tid)
    requires t in s.threads
  {
    match s.threads[t].phase
    case Idle => true
    case Wanting(_, _) => s.lm.None?
    case Inside(_, _) => true
    case Waiting(_, m) => m !in s.owner
  }

  ghost predicate WaitsFor(s: State, t: Tid, u: Tid)
    requires t in s.threads
  {
    match s.threads[t].phase
    case Idle => false
    case Wanting(_, _) => s.lm == Some(u)
    case Inside(_, _) => false
    case Waiting(_, m) => m in s.owner && s.owner[m] == u
  }

  /** Everything that waits, waits through `chain` for a thread that can move. */
  ghost predicate LeadsToMover(s: State, chain: seq<Tid>) {
    && chain != []
    && (forall i :: 0 <= i < |chain| ==> chain[i] in s.threads)
    && (forall i :: 0 <= i < |chain| - 1 ==> WaitsFor(s, chain[i], chain[i + 1]))
    && CanMove(s, chain[|chain| - 1])
  }

  lemma LegalKeysGrow(held: set<string>, outer: string, key: string)
    requires Legal(held, key) && outer in held
    ensures |outer| < |key|
  {
    var node :| held == {node} && IsBatchKey(node, key);
    assert outer == node;
  }

  /** The length of the key waited for bounds how far a chain can still go. */
  lemma {:induction false} ChainToMover(s: State, t: Tid, bound: nat) returns (chain: seq<Tid>)
    requires Inv(s) && t in s.threads
    requires forall k :: k in s.mutexMap ==> |k| <= bound
    ensures LeadsToMover(s, chain) && chain[0] == t
    decreases if s.threads[t].phase.Wanting? then bound + 1
      else if s.threads[t].phase.Waiting? then
        (if |s.threads[t].phase.key| <= bound then bound - |s.threads[t].phase.key| else 0)
      else 0
  {
    assert ThreadInv(s, t);
    if CanMove(s, t) {
      return [t];
    }
    match s.threads[t].phase
    case Wanting(_, _) =>
      var u := s.lm.value;
      assert ThreadInv(s, u);
      chain := [t, u];
    case Waiting(key, m) =>
      assert OwnerInv(s, key);
      var u := s.owner[m];
      assert ThreadInv(s, u);
      match s.threads[u].phase
      case Wanting(_, _) =>
        // The holder is only queued for the map's own mutex.
        if s.lm.None? {
          chain := [t, u];
        } else {
          assert ThreadInv(s, s.lm.value);
          chain := [t, u, s.lm.value];
        }
      case Waiting(next, _) =>
        LegalKeysGrow(s.threads[u].held, key, next);
        var rest := ChainToMover(s, u, bound);
        chain := [t] + rest;
      case _ =>
        chain := [t, u];
  }

  lemma {:induction false} KeyLengthsAreBounded(keys: set<string>) returns (bound: nat)
    ensures forall k :: k in keys ==> |k| <= bound
  {
    if keys == {} {
      bound := 0;
    } else {
      var k :| k in keys;
      var rest := KeyLengthsAreBounded(keys - {k});
      bound := if |k| > rest then |k| else rest;
    }
  }

  /** No reachable state is deadlocked: every thread can move or waits, through others, for one that can. */
  lemma NoDeadlock(run: seq<State>, i: nat, t: Tid)
    requires IsRun(run) && i < |run| && t in run[i].threads
    ensures exists chain :: LeadsToMover(run[i], chain) && chain[0] == t
  {
    RunsKeepInv(run, i);
    var bound := KeyLengthsAreBounded(run[i].mutexMap.Keys);
    var chain := ChainToMover(run[i], t, bound);
  }

  /** A thread that can move inside the lock map has a step; an idle one is running the driver's own code. */
  lemma MoversHaveSteps(s: State, t: Tid)
    requires Inv(s) && t in s.threads && CanMove(s, t) && !s.threads[t].phase.Idle?
    ensures exists a, s' :: Step(s, a, s') && a.t == t
  {
    match s.threads[t].phase
    case Wanting(key, acquire) =>
      var s' := s.(lm := Some(t), threads := s.threads[t := s.threads[t].(phase := Inside(key, acquire))]);
      assert Step(s, TakeMap(t), s');
    case Inside(key, acquire) =>
      assert Step(s, Body(t), if acquire then BodyLock(s, t) else BodyUnlock(s, t));
    case Waiting(key, m) =>
      var s' := s.(owner := s.owner[m := t], threads := s.threads[t := Thread(Idle, s.threads[t].held + {key})]);
      assert Step(s, TakeMutex(t), s');
  }
}
