/**
 * The semaphore that bounds concurrent mkfs runs: a channel that a call pushes a token into, and a goroutine per call
 * that takes one out when the call returns or its time is up, whichever comes first.
 */
module FormatSemaphore {
  import opened Text
  import Sets

  type Tid = nat

  /** Pushed: the token is in the channel and the releasing goroutine is not started yet. */
  datatype Pc = Start | Pushed | Running | Returned

  /** The goroutine: waiting in its select, past it, or finished. */
  datatype Releaser = NotStarted | Waiting | Woken | Gone

  datatype Call = Call(pc: Pc, releaser: Releaser, expired: bool)

  /** `capacity` is None for a nil semaphore; `pushes` and `pops` are history. */
  datatype State = State(capacity: Option<nat>, calls: map<Tid, Call>, tokens: nat, pushes: nat, pops: nat)

  datatype Action =
    | Begin(t: Tid)
    | Push(t: Tid) | Skip(t: Tid)
    | Spawn(t: Tid)
    | Finish(t: Tid)
    | Expire(t: Tid)
    | Wake(t: Tid)
    | Pop(t: Tid)

  predicate HoldsToken(c: Call) {
    c.pc.Pushed? || c.releaser.Waiting? || c.releaser.Woken?
  }

  function Holders(s: State): set<Tid> {
    set t | t in s.calls && HoldsToken(s.calls[t])
  }

  /** mkfs is running and its time is not up. */
  function InTime(s: State): set<Tid> {
    set t | t in s.calls && s.calls[t].pc.Running? && !s.calls[t].expired
  }

  ghost predicate At(s: State, t: Tid, pc: Pc) {
    t in s.calls && s.calls[t].pc == pc
  }

  function With(s: State, t: Tid, c: Call): State {
    s.(calls := s.calls[t := c])
  }

  ghost predicate Step(s: State, a: Action, s': State) {
    match a
    case Begin(t) => t !in s.calls && s' == With(s, t, Call(Start, NotStarted, false))
    case Push(t) =>
      && At(s, t, Start) && s.capacity.Some? && s.tokens < s.capacity.value
      && s' == With(s, t, s.calls[t].(pc := Pushed)).(tokens := s.tokens + 1, pushes := s.pushes + 1)
    case Skip(t) => At(s, t, Start) && s.capacity.None? && s' == With(s, t, s.calls[t].(pc := Running))
    case Spawn(t) => At(s, t, Pushed) && s' == With(s, t, s.calls[t].(pc := Running, releaser := Waiting))
    case Finish(t) => At(s, t, Running) && s' == With(s, t, s.calls[t].(pc := Returned))
    case Expire(t) =>
      && t in s.calls && s.calls[t].releaser.Waiting? && !s.calls[t].expired
      && s' == With(s, t, s.calls[t].(expired := true))
    case Wake(t) =>
      && t in s.calls && s.calls[t].releaser.Waiting? && (s.calls[t].pc.Returned? || s.calls[t].expired)
      && s' == With(s, t, s.calls[t].(releaser := Woken))
    case Pop(t) =>
      && t in s.calls && s.calls[t].releaser.Woken? && s.tokens > 0
      && s' == With(s, t, s.calls[t].(releaser := Gone)).(tokens := s.tokens - 1, pops := s.pops + 1)
  }

  predicate Init(s: State) {
    s.calls == map[] && s.tokens == 0 && s.pushes == 0 && s.pops == 0 && (s.capacity.Some? ==> s.capacity.value > 0)
  }

  /** Where the releaser of a call can be. */
  predicate CallInv(limited: bool, c: Call) {
    && ((c.pc.Start? || c.pc.Pushed?) ==> c.releaser.NotStarted? && !c.expired)
    && (!limited ==> c.releaser.NotStarted? && !c.pc.Pushed?)
    && (limited && (c.pc.Running? || c.pc.Returned?) ==> !c.releaser.NotStarted?)
    && (c.pc.Running? && (c.releaser.Woken? || c.releaser.Gone?) ==> c.expired)
  }

  ghost predicate Inv(s: State) {
    && (forall t :: t in s.calls ==> CallInv(s.capacity.Some?, s.calls[t]))
    && s.tokens == |Holders(s)|
    && (s.capacity.Some? ==> s.tokens <= s.capacity.value)
    && s.pushes == s.pops + s.tokens
  }

  /** The tokens that call t has in the channel. */
  function Share(s: State, t: Tid): nat {
    if t in s.calls && HoldsToken(s.calls[t]) then 1 else 0
  }

  lemma HoldersChange(s: State, s': State, t: Tid)
    requires t in s'.calls && s'.calls == s.calls[t := s'.calls[t]]
    ensures |Holders(s')| - Share(s', t) == |Holders(s)| - Share(s, t)
  {
    var others := Holders(s) - {t};
    assert Holders(s) == if Share(s, t) == 1 then others + {t} else others;
    assert Holders(s') == if Share(s', t) == 1 then others + {t} else others;
  }

  /** A step changes one call, and the channel by what that call puts in or takes out. */
  lemma StepChanges(s: State, a: Action, s': State)
    requires (a.t in s.calls ==> CallInv(s.capacity.Some?, s.calls[a.t])) && Step(s, a, s')
    ensures a.t in s'.calls && s'.calls == s.calls[a.t := s'.calls[a.t]] && s'.capacity == s.capacity
    ensures CallInv(s.capacity.Some?, s'.calls[a.t])
    ensures s'.tokens - Share(s', a.t) == s.tokens - Share(s, a.t)
    ensures s'.pushes - s'.pops - s'.tokens == s.pushes - s.pops - s.tokens
    ensures s'.tokens <= s.tokens || (s.capacity.Some? && s'.tokens <= s.capacity.value)
  {
  }

  lemma StepKeepsInv(s: State, a: Action, s': State)
    requires Inv(s) && Step(s, a, s')
    ensures Inv(s')
  {
    StepChanges(s, a, s');
    HoldersChange(s, s', a.t);
  }

  ghost predicate StepAt(run: seq<State>, acts: seq<Action>, i: nat)
    requires i < |acts| && |run| == |acts| + 1
  {
    Step(run[i], acts[i], run[i + 1])
  }

  /** `run[i + 1]` follows from `run[i]` by `acts[i]`. */
  ghost predicate IsRun(run: seq<State>, acts: seq<Action>) {
    && |run| == |acts| + 1 && Init(run[0])
    && forall i :: 0 <= i < |acts| ==> StepAt(run, acts, i)
  }

  lemma {:induction false} RunsKeepInv(run: seq<State>, acts: seq<Action>, i: nat)
    requires IsRun(run, acts) && i < |run|
    ensures Inv(run[i]) && run[i].capacity == run[0].capacity
  {
    if i > 0 {
      RunsKeepInv(run, acts, i - 1);
      assert StepAt(run, acts, i - 1);
      StepKeepsInv(run[i - 1], acts[i - 1], run[i]);
    } else {
      assert Holders(run[0]) == {};
    }
  }

  /** The tokens are those of the calls whose releaser is alive or about to start, and never more than the limit. */
  lemma TokensAreAccountedFor(run: seq<State>, acts: seq<Action>, i: nat)
    requires IsRun(run, acts) && i < |run|
    ensures run[i].tokens == |Holders(run[i])| && run[i].pushes - run[i].pops == run[i].tokens
    ensures run[0].capacity.Some? ==> run[i].tokens <= run[0].capacity.value
    ensures (forall t :: t in run[i].calls ==> run[i].calls[t].pc.Start? || run[i].calls[t].releaser.Gone?) ==>
      run[i].tokens == 0
  {
    RunsKeepInv(run, acts, i);
    var s := run[i];
    if forall t :: t in s.calls ==> s.calls[t].pc.Start? || s.calls[t].releaser.Gone? {
      assert Holders(s) == {};
    }
  }

  /** mkfs runs within their time never exceed the limit, in any interleaving. */
  lemma FormatsInTimeAreBounded(run: seq<State>, acts: seq<Action>, i: nat)
    requires IsRun(run, acts) && i < |run| && run[0].capacity.Some?
    ensures |InTime(run[i])| <= run[0].capacity.value
  {
    RunsKeepInv(run, acts, i);
    var s := run[i];
    forall t | t in InTime(s) ensures t in Holders(s) {
      assert CallInv(true, s.calls[t]);
    }
    Sets.SubsetSize(InTime(s), Holders(s));
  }

  function OwnSteps(acts: seq<Action>, t: Tid): nat {
    if acts == [] then 0 else OwnSteps(acts[..|acts| - 1], t) + if acts[|acts| - 1].t == t then 1 else 0
  }

  /** What a call that has pushed its token can still do: start its releaser, finish, expire, wake, pop. */
  function Left(c: Call): nat {
    (if c.pc.Pushed? then 1 else 0) + (if c.pc.Returned? then 0 else 1)
    + (if c.expired || c.releaser.Woken? || c.releaser.Gone? then 0 else 1)
    + (if c.releaser.NotStarted? || c.releaser.Waiting? then 1 else 0) + if c.releaser.Gone? then 0 else 1
  }

  lemma StepUsesUp(s: State, a: Action, s': State, t: Tid)
    requires Inv(s) && s.capacity.Some? && Step(s, a, s') && t in s.calls && !s.calls[t].pc.Start?
    ensures t in s'.calls && !s'.calls[t].pc.Start?
    ensures Left(s'.calls[t]) + (if a.t == t then 1 else 0) <= Left(s.calls[t])
  {
    assert CallInv(true, s.calls[t]);
  }

  lemma {:induction false} StepsUseUp(run: seq<State>, acts: seq<Action>, i: nat, j: nat, t: Tid)
    requires IsRun(run, acts) && i <= j < |run| && run[0].capacity.Some?
    requires t in run[i].calls && !run[i].calls[t].pc.Start?
    ensures t in run[j].calls && !run[j].calls[t].pc.Start?
    ensures Left(run[j].calls[t]) + OwnSteps(acts[i..j], t) <= Left(run[i].calls[t])
    decreases j
  {
    if i < j {
      StepsUseUp(run, acts, i, j - 1, t);
      RunsKeepInv(run, acts, j - 1);
      assert StepAt(run, acts, j - 1);
      StepUsesUp(run[j - 1], acts[j - 1], run[j], t);
      assert acts[i..j][..j - i - 1] == acts[i..j - 1];
    }
  }

  /** A token is taken out after at most five steps of its own call, whatever the others do in between. */
  lemma TokensComeBack(run: seq<State>, acts: seq<Action>, i: nat, j: nat, t: Tid)
    requires IsRun(run, acts) && i <= j < |run| && t in Holders(run[i])
    ensures OwnSteps(acts[i..j], t) <= 5
    ensures t in run[j].calls
      && (OwnSteps(acts[i..j], t) == 5 ==> run[j].calls[t].releaser.Gone? && t !in Holders(run[j]))
  {
    RunsKeepInv(run, acts, i);
    RunsKeepInv(run, acts, j);
    assert CallInv(run[i].capacity.Some?, run[i].calls[t]);
    StepsUseUp(run, acts, i, j, t);
  }

  /**
   * How many steps the releaser of a token needs: it starts, its time passes unless the call is over, it wakes, it
   * pops.
   */
  function Needed(c: Call): nat {
    if c.pc.Pushed? then 4
    else if c.releaser.Waiting? then if c.expired || c.pc.Returned? then 2 else 3
    else if c.releaser.Woken? then 1 else 0
  }

  function Releasing(s: State, t: Tid): (Action, State)
    requires t in s.calls && HoldsToken(s.calls[t]) && s.tokens > 0
  {
    var c := s.calls[t];
    if c.pc.Pushed? then (Spawn(t), With(s, t, c.(pc := Running, releaser := Waiting)))
    else if c.releaser.Woken? then
      (Pop(t), With(s, t, c.(releaser := Gone)).(tokens := s.tokens - 1, pops := s.pops + 1))
    else if c.expired || c.pc.Returned? then (Wake(t), With(s, t, c.(releaser := Woken)))
    else (Expire(t), With(s, t, c.(expired := true)))
  }

  /** The next releasing step is never blocked: not by the channel, not by mkfs, not by another call. */
  lemma ReleasingIsEnabled(s: State, t: Tid)
    requires Inv(s) && t in Holders(s)
    ensures s.tokens > 0 && Step(s, Releasing(s, t).0, Releasing(s, t).1)
    ensures Inv(Releasing(s, t).1) && t in Releasing(s, t).1.calls
    ensures Needed(Releasing(s, t).1.calls[t]) == Needed(s.calls[t]) - 1
    ensures HoldsToken(Releasing(s, t).1.calls[t]) <==> Needed(Releasing(s, t).1.calls[t]) > 0
  {
    Sets.SubsetSize({t}, Holders(s));
    assert CallInv(s.capacity.Some?, s.calls[t]);
    StepKeepsInv(s, Releasing(s, t).0, Releasing(s, t).1);
  }

  /** From s the call t, alone and without mkfs finishing, can return its token in n steps. */
  ghost predicate CanRelease(s: State, t: Tid, n: nat)
    decreases n
  {
    if n == 0 then t in s.calls && !HoldsToken(s.calls[t])
    else exists a: Action, s' :: a.t == t && !a.Finish? && Step(s, a, s') && CanRelease(s', t, n - 1)
  }

  lemma {:induction false} ReleasesAlone(s: State, t: Tid)
    requires Inv(s) && t in Holders(s)
    ensures 0 < Needed(s.calls[t]) <= 4 && CanRelease(s, t, Needed(s.calls[t]))
    decreases Needed(s.calls[t])
  {
    assert CallInv(s.capacity.Some?, s.calls[t]);
    ReleasingIsEnabled(s, t);
    var (a, s') := Releasing(s, t);
    if Needed(s'.calls[t]) > 0 {
      ReleasesAlone(s', t);
    }
    assert a.t == t && !a.Finish? && Step(s, a, s') && CanRelease(s', t, Needed(s.calls[t]) - 1);
  }

  /**
   * In every reachable state, every token in the channel is at most four steps of its own releaser away from coming
   * back.
   */
  lemma NoTokenIsStuck(run: seq<State>, acts: seq<Action>, i: nat, t: Tid)
    requires IsRun(run, acts) && i < |run| && t in Holders(run[i])
    ensures exists n :: 0 < n <= 4 && CanRelease(run[i], t, n)
  {
    RunsKeepInv(run, acts, i);
    ReleasesAlone(run[i], t);
  }

  /** How far the token of a call has come: not taken, in the channel, returned. */
  function Progress(c: Call): nat {
    if c.releaser.Gone? then 2 else if HoldsToken(c) then 1 else 0
  }

  lemma {:induction false} ProgressIsKept(run: seq<State>, acts: seq<Action>, i: nat, j: nat, t: Tid)
    requires IsRun(run, acts) && i <= j < |run| && t in run[i].calls
    ensures t in run[j].calls && Progress(run[j].calls[t]) >= Progress(run[i].calls[t])
    decreases j
  {
    if i < j {
      ProgressIsKept(run, acts, i, j - 1, t);
      RunsKeepInv(run, acts, j - 1);
      assert StepAt(run, acts, j - 1);
      assert CallInv(run[j - 1].capacity.Some?, run[j - 1].calls[t]);
    }
  }

  /** A call puts its token in once and takes it out once, in that order. */
  lemma ReleasedOnce(run: seq<State>, acts: seq<Action>, i: nat, j: nat, t: Tid)
    requires IsRun(run, acts) && i < j < |acts|
    requires (acts[i] == Push(t) || acts[i] == Pop(t)) && (acts[j] == Push(t) || acts[j] == Pop(t))
    ensures acts[i] == Push(t) && acts[j] == Pop(t)
  {
    RunsKeepInv(run, acts, i);
    RunsKeepInv(run, acts, j);
    assert StepAt(run, acts, i) && StepAt(run, acts, j);
    ProgressIsKept(run, acts, i + 1, j, t);
    assert CallInv(run[j].capacity.Some?, run[j].calls[t]);
  }
}
