/**
 * The retry loops of incrementing and adopting take steps of the protocol: what a call does, put together with what the
 * others do meanwhile, is a run of the protocol, and so what holds of every run holds of the calls.
 */
module AttachSequenceRefinement {
  import opened Text
  import opened AttachSequence

  /** What one client sees, with all the others beside it. */
  function Among(v: View, t: Tid, rest: map<Tid, Client>): State {
    State(v.history, if v.client.Some? then rest[t := v.client.value] else rest)
  }

  /** A client's step does not depend on the other clients. */
  lemma StepAmong(t: Tid, o: Own, rest: map<Tid, Client>)
    requires Takes(t, o) && t !in rest
    ensures Step(Among(o.before, t, rest), o.a, Among(o.after, t, rest))
  {
    var s, s' := Alone(o.before, t), Alone(o.after, t);
    assert s'.clients[t] == o.after.client.value;
    if o.before.client.Some? {
      assert rest[t := o.before.client.value][t := o.after.client.value] == rest[t := o.after.client.value];
    }
  }

  ghost predicate NextAt(path: seq<State>, i: nat)
    requires 0 < i < |path|
  {
    Next(path[i - 1], path[i])
  }

  /** A stretch of a run. */
  ghost predicate IsPath(path: seq<State>) {
    path != [] && forall i :: 0 < i < |path| ==> NextAt(path, i)
  }

  function End(path: seq<State>): State
    requires path != []
  {
    path[|path| - 1]
  }

  lemma PathsJoin(path: seq<State>, more: seq<State>)
    requires IsPath(path) && IsPath(more) && End(path) == more[0]
    ensures IsPath(path + more[1..]) && End(path + more[1..]) == End(more) && path <= path + more[1..]
  {
    var joined := path + more[1..];
    forall i | 0 < i < |joined| ensures NextAt(joined, i) {
      if i < |path| {
        assert NextAt(path, i);
      } else {
        assert NextAt(more, i - |path| + 1);
      }
    }
  }

  lemma PathGrows(path: seq<State>, a: Action, s: State)
    requires IsPath(path) && Step(End(path), a, s)
    ensures IsPath(path + [s]) && End(path + [s]) == s && path <= path + [s]
  {
    var longer := path + [s];
    forall i | 0 < i < |longer| ensures NextAt(longer, i) {
      if i < |path| {
        assert NextAt(path, i);
      } else {
        assert Next(path[|path| - 1], s);
      }
    }
  }

  /**
   * `gaps[k]` is what goes on between steps k and k + 1 of the client: a stretch of a run in which the client stays as
   * it is and the others come to stand as in `rests[k + 1]`.
   */
  ghost predicate Fills(t: Tid, trace: seq<Own>, rests: seq<map<Tid, Client>>, gaps: seq<seq<State>>) {
    && |rests| == |trace| && |gaps| == |trace|
    && (forall k :: 0 <= k < |trace| ==> t !in rests[k])
    && (forall k :: 0 < k < |trace| ==> FillsAt(t, trace, rests, gaps, k))
  }

  ghost predicate FillsAt(t: Tid, trace: seq<Own>, rests: seq<map<Tid, Client>>, gaps: seq<seq<State>>, k: nat)
    requires 0 < k < |trace| == |rests| == |gaps|
  {
    && IsPath(gaps[k]) && gaps[k][0] == Among(trace[k - 1].after, t, rests[k - 1])
    && End(gaps[k]) == Among(trace[k].before, t, rests[k])
  }

  /** A client's steps and what goes on between them are a stretch of a run. */
  lemma {:induction false} TraceIsPath(w: Surroundings, t: Tid, d: nat, trace: seq<Own>, rests: seq<map<Tid, Client>>,
      gaps: seq<seq<State>>, begin: seq<State>, n: nat) returns (path: seq<State>)
    requires IsTrace(w, t, d, trace) && Fills(t, trace, rests, gaps) && 0 < n <= |trace|
    requires IsPath(begin) && End(begin) == Among(trace[0].before, t, rests[0])
    ensures IsPath(path) && begin <= path && End(path) == Among(trace[n - 1].after, t, rests[n - 1])
    decreases n
  {
    assert TakesAt(t, trace, n - 1);
    StepAmong(t, trace[n - 1], rests[n - 1]);
    if n == 1 {
      path := begin;
    } else {
      path := TraceIsPath(w, t, d, trace, rests, gaps, begin, n - 1);
      assert FillsAt(t, trace, rests, gaps, n - 1);
      PathsJoin(path, gaps[n - 1]);
      path := path + gaps[n - 1][1..];
    }
    PathGrows(path, trace[n - 1].a, Among(trace[n - 1].after, t, rests[n - 1]));
    path := path + [Among(trace[n - 1].after, t, rests[n - 1])];
  }

  lemma RunIsPath(run: seq<State>)
    requires run != [] && Init(run[0])
    ensures IsRun(run) <==> IsPath(run)
  {
    if IsPath(run) {
      forall i | 0 < i < |run| ensures Next(run[i - 1], run[i]) {
        assert NextAt(run, i);
      }
    }
  }

  /**
   * A call that starts in a reachable state, while others go on by the protocol, makes a run of the protocol; at its
   * end the client stands as the call returns.
   */
  lemma CallsAreRuns(w: Surroundings, t: Tid, d: nat, trace: seq<Own>, h: seq<Version>, c: Client,
      rests: seq<map<Tid, Client>>, gaps: seq<seq<State>>, begin: seq<State>) returns (run: seq<State>)
    requires LeadsTo(w, t, d, trace, h, c) && Fills(t, trace, rests, gaps)
    requires IsRun(begin) && End(begin) == Among(trace[0].before, t, rests[0])
    ensures IsRun(run) && begin <= run && End(run).history == h
    ensures t in End(run).clients && End(run).clients[t] == c
  {
    RunIsPath(begin);
    run := TraceIsPath(w, t, d, trace, rests, gaps, begin, |trace|);
    assert run[0] == begin[0];
    RunIsPath(run);
  }

  /** So a call that starts after another one has returned gets the larger number, whatever snapshot it starts from. */
  lemma LaterCallsGetLargerNumbers(w: Surroundings, t: Tid, trace: seq<Own>, h: seq<Version>, c: Client,
      rests: seq<map<Tid, Client>>, gaps: seq<seq<State>>, begin: seq<State>, n: int, u: Tid, m: int)
    requires LeadsTo(w, t, 1, trace, h, c) && c.pc == Done(Returned(n)) && Fills(t, trace, rests, gaps)
    requires IsRun(begin) && End(begin) == Among(trace[0].before, t, rests[0]) && HasReturned(End(begin), u, m)
    ensures m < n
  {
    var run := CallsAreRuns(w, t, 1, trace, h, c, rests, gaps, begin);
    NumbersFollowTime(run, |begin| - 1, |run| - 1, u, t, m, n);
  }
}
