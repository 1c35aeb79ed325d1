/**
 * The attach-sequence annotation of a PersistentVolume: a counter kept in a Kubernetes object that the controller seeds
 * and every node increments, under optimistic concurrency. The object's history is the list of its versions; an update
 * is accepted only against the newest one.
 */
module AttachSequence {
  import opened Text

  type Tid = nat
  type Annotations = map<string, string>

  const SEQUENCE := "azuredisk.csi.azure.com/attach-sequence"
  const BLOB_URL := "azuredisk.csi.azure.com/blob-url"
  const CLAIM := "azuredisk.csi.azure.com/claim-identifier"
  const CACHE_POLICY := "azuredisk.csi.azure.com/cache-policy"

  /** retry.DefaultRetry. */
  const RETRY_STEPS := 5

  // ---------------------------------------------------------------------------------------------
  // What one attempt makes of the annotations it read

  /** The counter; an object without the annotation counts as 0, and text that is not a count as none. */
  function Value(m: Annotations): Option<int> {
    if SEQUENCE !in m then Some(0)
    else match Atoi(m[SEQUENCE])
      case None => None
      case Some(n) => if n < 0 then None else Some(n)
  }

  /** What incrementAttachSequenceAnnotation would return for this object; None when it refuses. */
  function Incremented(m: Annotations): Option<int> {
    match Value(m)
    case None => None
    case Some(n) => if n == MAX_INT then None else Some(n + 1)
  }

  function Lookup(m: Annotations, k: string): string {
    if k in m then m[k] else ""
  }

  datatype Claim = Claim(blobURL: string, identifier: string, policy: string)

  /** Values the caller did not supply are taken from the object, and kept for later attempts. */
  function Completed(c: Claim, m: Annotations): Claim {
    Claim(if c.blobURL == "" then Lookup(m, BLOB_URL) else c.blobURL,
          if c.identifier == "" then Lookup(m, CLAIM) else c.identifier, c.policy)
  }

  function Seeded(m: Annotations): string {
    if SEQUENCE in m then m[SEQUENCE] else "0"
  }

  datatype AdoptPlan = Incomplete | UpToDate | Write(next: Annotations)

  /** One attempt of ensureQADPVAnnotations. */
  function Adopt(c: Claim, m: Annotations): AdoptPlan {
    if c.blobURL == "" || c.identifier == "" then Incomplete
    else if Lookup(m, SEQUENCE) == Seeded(m) && Lookup(m, BLOB_URL) == c.blobURL && Lookup(m, CLAIM) == c.identifier
        && Lookup(m, CACHE_POLICY) == c.policy then UpToDate
    else Write(m[SEQUENCE := Seeded(m)][BLOB_URL := c.blobURL][CLAIM := c.identifier][CACHE_POLICY := c.policy])
  }

  // ---------------------------------------------------------------------------------------------
  // The object's history

  datatype Origin = Created | Increment(t: Tid) | Adoption(t: Tid) | Foreign

  datatype Version = Version(annotations: Annotations, origin: Origin)

  /** Other writers leave the sequence alone. */
  predicate SameSequence(m: Annotations, m': Annotations) {
    (SEQUENCE in m <==> SEQUENCE in m') && (SEQUENCE in m ==> m[SEQUENCE] == m'[SEQUENCE])
  }

  ghost predicate Linked(v: Version, v': Version) {
    match v'.origin
    case Created => false
    case Increment(_) =>
      Incremented(v.annotations).Some?
        && v'.annotations == v.annotations[SEQUENCE := Itoa(Incremented(v.annotations).value)]
    case Adoption(_) => SEQUENCE in v'.annotations && v'.annotations[SEQUENCE] == Seeded(v.annotations)
    case Foreign => SameSequence(v.annotations, v'.annotations)
  }

  ghost predicate Chain(h: seq<Version>) {
    h != [] && forall i :: 0 < i < |h| ==> Linked(h[i - 1], h[i])
  }

  function Last(h: seq<Version>): Version
    requires h != []
  {
    h[|h| - 1]
  }

  /** Increments committed since the first version. */
  function Increments(h: seq<Version>): nat {
    if |h| <= 1 then 0 else Increments(h[..|h| - 1]) + if h[|h| - 1].origin.Increment? then 1 else 0
  }

  lemma ChainPrefix(h: seq<Version>, n: nat)
    requires Chain(h) && 0 < n <= |h|
    ensures Chain(h[..n])
  {
  }

  lemma ChainExtends(h: seq<Version>, v: Version)
    requires Chain(h) && Linked(Last(h), v)
    ensures Chain(h + [v])
  {
    var longer := h + [v];
    forall i | 0 < i < |longer| ensures Linked(longer[i - 1], longer[i]) {
      if i < |h| {
        assert Linked(h[i - 1], h[i]);
      }
    }
  }

  lemma IncrementedValue(m: Annotations)
    requires Incremented(m).Some?
    ensures Value(m[SEQUENCE := Itoa(Incremented(m).value)]) == Incremented(m)
  {
    AtoiItoa(Incremented(m).value);
  }

  /**
   * The annotation is the seed plus the number of increments: none is lost, and adoption and other writers add none.
   */
  lemma {:induction false} SequenceIsConserved(h: seq<Version>, seed: int)
    requires Chain(h) && Value(h[0].annotations) == Some(seed)
    ensures Value(Last(h).annotations) == Some(seed + Increments(h)) && seed + Increments(h) <= MAX_INT
  {
    if |h| > 1 {
      var front := h[..|h| - 1];
      ChainPrefix(h, |h| - 1);
      SequenceIsConserved(front, seed);
      assert Linked(Last(front), Last(h));
      SeededValue(Last(front).annotations);
      if Last(h).origin.Increment? {
        IncrementedValue(Last(front).annotations);
      }
    }
  }

  lemma SeededValue(m: Annotations)
    ensures Atoi(Seeded(m)) == (if SEQUENCE in m then Atoi(m[SEQUENCE]) else Some(0))
  {
    AtoiItoa(0);
    assert Itoa(0) == "0";
  }

  /** Once present, the annotation is never removed. */
  lemma {:induction false} SequenceStaysPresent(h: seq<Version>, i: nat, j: nat)
    requires Chain(h) && i <= j < |h| && SEQUENCE in h[i].annotations
    ensures SEQUENCE in h[j].annotations
    decreases j
  {
    if i < j {
      SequenceStaysPresent(h, i, j - 1);
      assert Linked(h[j - 1], h[j]);
    }
  }

  /** Text that is no count stays as it is, and nobody increments it. */
  lemma {:induction false} InvalidTextIsFrozen(h: seq<Version>, j: nat)
    requires Chain(h) && j < |h| && Value(h[0].annotations).None?
    ensures SameSequence(h[0].annotations, h[j].annotations)
    ensures j > 0 ==> !h[j].origin.Increment?
  {
    if j > 0 {
      InvalidTextIsFrozen(h, j - 1);
      assert Linked(h[j - 1], h[j]);
    }
  }

  /** Version j was written by an increment of t that returned n. */
  ghost predicate CommittedAt(h: seq<Version>, t: Tid, n: int, j: nat) {
    0 < j < |h| && h[j].origin == Increment(t) && Value(h[j].annotations) == Some(n)
  }

  lemma {:induction false} IncrementsGrow(h: seq<Version>, n: nat)
    requires n <= |h|
    ensures Increments(h[..n]) <= Increments(h)
  {
    if n < |h| {
      assert h[..|h| - 1][..n] == h[..n];
      IncrementsGrow(h[..|h| - 1], n);
    } else {
      assert h[..n] == h;
    }
  }

  /** The value of a version is the seed plus the increments up to it. */
  lemma ValueAt(h: seq<Version>, seed: int, j: nat)
    requires Chain(h) && j < |h| && Value(h[0].annotations) == Some(seed)
    ensures Value(h[j].annotations) == Some(seed + Increments(h[..j + 1]))
  {
    ChainPrefix(h, j + 1);
    SequenceIsConserved(h[..j + 1], seed);
  }

  lemma IncrementsGrowStrictly(h: seq<Version>, i: nat, j: nat)
    requires i < j < |h| && h[j].origin.Increment?
    ensures Increments(h[..i + 1]) < Increments(h[..j + 1])
  {
    assert h[..j + 1][..j] == h[..j] && h[..j][..i + 1] == h[..i + 1];
    IncrementsGrow(h[..j], i + 1);
  }

  /** A later increment has a larger value: commits and sequence numbers are in the same order. */
  lemma CommitsAreOrdered(h: seq<Version>, i: nat, j: nat, t: Tid, u: Tid, m: int, n: int)
    requires Chain(h) && i < j && CommittedAt(h, t, m, i) && CommittedAt(h, u, n, j)
    ensures m < n
  {
    if Value(h[0].annotations).None? {
      InvalidTextIsFrozen(h, i);
    } else {
      var seed := Value(h[0].annotations).value;
      ValueAt(h, seed, i);
      ValueAt(h, seed, j);
      IncrementsGrowStrictly(h, i, j);
    }
  }

  // ---------------------------------------------------------------------------------------------
  // Clients

  datatype Job = Incrementing | Adopting(claim: Claim)

  datatype Outcome = Returned(n: int) | Adopted | Failed

  /** Writing: an update against version `base` is on its way; `n` is what an increment would return. */
  datatype Pc = Reading | Writing(base: nat, next: Annotations, n: int) | Done(outcome: Outcome)

  /** `born` is history: how many versions there were when the client started. */
  datatype Client = Client(job: Job, pc: Pc, attempts: nat, born: nat)

  datatype State = State(history: seq<Version>, clients: map<Tid, Client>)

  /** The API server's answer; an update can be committed and its answer still be lost or garbled. */
  datatype Reply = Ok | Conflict | OtherError

  datatype Action =
    | Spawn(t: Tid, job: Job, base: nat)
    | Read(t: Tid, ok: bool)
    | Update(t: Tid, committed: bool, reply: Reply)
    | Edit(annotations: Annotations)

  /** An attempt, up to its update. */
  function Attempt(c: Client, base: nat, m: Annotations): Client {
    match c.job
    case Incrementing =>
      (match Incremented(m)
       case None => c.(pc := Done(Failed))
       case Some(n) => c.(pc := Writing(base, m[SEQUENCE := Itoa(n)], n)))
    case Adopting(claim) =>
      var full := Completed(claim, m);
      var c' := c.(job := Adopting(full));
      match Adopt(full, m)
      case Incomplete => c'.(pc := Done(Failed))
      case UpToDate => c'.(pc := Done(Adopted))
      case Write(next) => c'.(pc := Writing(base, next, 0))
  }

  function AfterReply(c: Client, reply: Reply): Client
    requires c.pc.Writing?
  {
    match reply
    case Ok => c.(pc := Done(if c.job.Incrementing? then Returned(c.pc.n) else Adopted), attempts := c.attempts + 1)
    case Conflict =>
      c.(pc := if c.attempts + 1 < RETRY_STEPS then Reading else Done(Failed), attempts := c.attempts + 1)
    case OtherError => c.(pc := Done(Failed), attempts := c.attempts + 1)
  }

  function OriginOf(t: Tid, job: Job): Origin {
    if job.Incrementing? then Increment(t) else Adoption(t)
  }

  /** An incrementer starts from a snapshot of any age, an adopter by reading. */
  ghost predicate SpawnStep(s: State, t: Tid, job: Job, base: nat, s': State) {
    && t !in s.clients
    && var c := Client(job, Reading, 0, |s.history|);
    if job.Adopting? then s' == s.(clients := s.clients[t := c])
    else base < |s.history| && s' == s.(clients := s.clients[t := Attempt(c, base, s.history[base].annotations)])
  }

  ghost predicate ReadStep(s: State, t: Tid, ok: bool, s': State) {
    && t in s.clients && s.clients[t].pc.Reading? && s.history != []
    && s' == s.(clients := s.clients[t :=
        if ok then Attempt(s.clients[t], |s.history| - 1, Last(s.history).annotations)
          else s.clients[t].(pc := Done(Failed))])
  }

  ghost predicate UpdateStep(s: State, t: Tid, committed: bool, reply: Reply, s': State) {
    && t in s.clients && s.clients[t].pc.Writing?
    && var c := s.clients[t];
    && (committed ==> c.pc.base == |s.history| - 1)
    && (reply.Ok? ==> committed)
    && s'.clients == s.clients[t := AfterReply(c, reply)]
    && s'.history == if committed then s.history + [Version(c.pc.next, OriginOf(t, c.job))] else s.history
  }

  ghost predicate EditStep(s: State, m: Annotations, s': State) {
    && s.history != [] && SameSequence(Last(s.history).annotations, m)
    && s' == s.(history := s.history + [Version(m, Foreign)])
  }

  ghost predicate Step(s: State, a: Action, s': State) {
    match a
    case Spawn(t, job, base) => SpawnStep(s, t, job, base, s')
    case Read(t, ok) => ReadStep(s, t, ok, s')
    case Update(t, committed, reply) => UpdateStep(s, t, committed, reply, s')
    case Edit(m) => EditStep(s, m, s')
  }

  ghost predicate Init(s: State) {
    |s.history| == 1 && s.history[0].origin == Created && s.clients == map[]
  }

  ghost predicate Next(s: State, s': State) {
    exists a :: Step(s, a, s')
  }

  ghost predicate IsRun(run: seq<State>) {
    && run != [] && Init(run[0])
    && forall i :: 0 < i < |run| ==> Next(run[i - 1], run[i])
  }

  // ---------------------------------------------------------------------------------------------
  // The invariant

  /** What is being written follows from the version it was computed from. */
  ghost predicate Prepared(h: seq<Version>, t: Tid, c: Client)
    requires c.pc.Writing?
  {
    && c.pc.base < |h|
    && Linked(h[c.pc.base], Version(c.pc.next, OriginOf(t, c.job)))
    && (c.job.Incrementing? ==> Incremented(h[c.pc.base].annotations) == Some(c.pc.n))
  }

  ghost predicate ClientInv(h: seq<Version>, t: Tid, c: Client) {
    && c.born <= |h|
    && (c.pc.Writing? ==> Prepared(h, t, c))
    && (c.pc.Done? && c.pc.outcome.Returned? ==> exists j: nat :: j >= c.born && CommittedAt(h, t, c.pc.outcome.n, j))
  }

  ghost predicate OriginOk(s: State, v: Version, j: int) {
    v.origin.Increment? ==> v.origin.t in s.clients && s.clients[v.origin.t].born <= j
  }

  ghost predicate Inv(s: State) {
    && Chain(s.history)
    && (forall t :: t in s.clients ==> ClientInv(s.history, t, s.clients[t]))
    && (forall j :: 0 <= j < |s.history| ==> OriginOk(s, s.history[j], j))
  }

  lemma AttemptIsPrepared(h: seq<Version>, t: Tid, c: Client, base: nat)
    requires c.pc.Reading? && c.born <= |h| && base < |h|
    ensures ClientInv(h, t, Attempt(c, base, h[base].annotations))
  {
  }

  lemma ClientKept(h: seq<Version>, v: Version, t: Tid, c: Client)
    requires ClientInv(h, t, c)
    ensures ClientInv(h + [v], t, c)
  {
    if c.pc.Done? && c.pc.outcome.Returned? {
      var j: nat :| j >= c.born && CommittedAt(h, t, c.pc.outcome.n, j);
      assert CommittedAt(h + [v], t, c.pc.outcome.n, j);
    }
  }

  lemma AnsweredClient(h: seq<Version>, h': seq<Version>, t: Tid, c: Client, committed: bool, reply: Reply)
    requires Chain(h) && ClientInv(h, t, c) && c.pc.Writing?
    requires committed ==> c.pc.base == |h| - 1
    requires reply.Ok? ==> committed
    requires h' == if committed then h + [Version(c.pc.next, OriginOf(t, c.job))] else h
    ensures ClientInv(h', t, AfterReply(c, reply)) && Chain(h')
  {
    if committed {
      ChainExtends(h, Version(c.pc.next, OriginOf(t, c.job)));
      if c.job.Incrementing? {
        IncrementedValue(Last(h).annotations);
        assert CommittedAt(h', t, c.pc.n, |h|);
      }
    }
  }

  lemma ClientStepKeepsInv(s: State, a: Action, s': State)
    requires Inv(s) && (a.Spawn? || a.Read?) && Step(s, a, s')
    ensures Inv(s')
  {
    var t := a.t;
    if a.Spawn? {
      if a.job.Incrementing? {
        AttemptIsPrepared(s.history, t, Client(a.job, Reading, 0, |s.history|), a.base);
      }
    } else {
      assert ClientInv(s.history, t, s.clients[t]);
      AttemptIsPrepared(s.history, t, s.clients[t], |s.history| - 1);
    }
    forall u | u in s'.clients ensures ClientInv(s'.history, u, s'.clients[u]) {
      if u != t {
        assert ClientInv(s.history, u, s.clients[u]);
      }
    }
    forall j | 0 <= j < |s'.history| ensures OriginOk(s', s'.history[j], j) {
      assert OriginOk(s, s.history[j], j);
    }
  }

  lemma UpdateKeepsInv(s: State, t: Tid, committed: bool, reply: Reply, s': State)
    requires Inv(s) && UpdateStep(s, t, committed, reply, s')
    ensures Inv(s')
  {
    var c := s.clients[t];
    assert ClientInv(s.history, t, c);
    AnsweredClient(s.history, s'.history, t, c, committed, reply);
    forall u | u in s'.clients ensures ClientInv(s'.history, u, s'.clients[u]) {
      if u != t {
        assert ClientInv(s.history, u, s.clients[u]);
        ClientKept(s.history, Version(c.pc.next, OriginOf(t, c.job)), u, s.clients[u]);
      }
    }
    forall j | 0 <= j < |s'.history| ensures OriginOk(s', s'.history[j], j) {
      if j < |s.history| {
        assert OriginOk(s, s.history[j], j);
      }
    }
  }

  lemma EditKeepsInv(s: State, m: Annotations, s': State)
    requires Inv(s) && EditStep(s, m, s')
    ensures Inv(s')
  {
    ChainExtends(s.history, Version(m, Foreign));
    forall u | u in s'.clients ensures ClientInv(s'.history, u, s'.clients[u]) {
      assert ClientInv(s.history, u, s.clients[u]);
      ClientKept(s.history, Version(m, Foreign), u, s.clients[u]);
    }
    forall j | 0 <= j < |s'.history| ensures OriginOk(s', s'.history[j], j) {
      if j < |s.history| {
        assert OriginOk(s, s.history[j], j);
      }
    }
  }

  lemma StepKeepsInv(s: State, a: Action, s': State)
    requires Inv(s) && Step(s, a, s')
    ensures Inv(s')
  {
    match a
    case Spawn(_, _, _) => ClientStepKeepsInv(s, a, s');
    case Read(_, _) => ClientStepKeepsInv(s, a, s');
    case Update(t, committed, reply) => UpdateKeepsInv(s, t, committed, reply, s');
    case Edit(m) => EditKeepsInv(s, m, s');
  }

  lemma {:induction false} RunsKeepInv(run: seq<State>, i: nat)
    requires IsRun(run) && i < |run|
    ensures Inv(run[i])
  {
    if i > 0 {
      RunsKeepInv(run, i - 1);
      assert Next(run[i - 1], run[i]);
      var a :| Step(run[i - 1], a, run[i]);
      StepKeepsInv(run[i - 1], a, run[i]);
    }
  }

  // ---------------------------------------------------------------------------------------------
  // What holds of every run

  ghost predicate HasReturned(s: State, t: Tid, n: int) {
    t in s.clients && s.clients[t].pc == Done(Returned(n))
  }

  /** In every reachable state the counter is its first value plus the committed increments. */
  lemma CounterIsExact(run: seq<State>, i: nat)
    requires IsRun(run) && i < |run| && Value(run[0].history[0].annotations).Some?
    ensures run[i].history != [] && run[i].history[0] == run[0].history[0]
    ensures Value(Last(run[i].history).annotations)
      == Some(Value(run[0].history[0].annotations).value + Increments(run[i].history))
  {
    RunsKeepInv(run, i);
    HistoryGrows(run, 0, i);
    SequenceIsConserved(run[i].history, Value(run[i].history[0].annotations).value);
  }

  lemma {:induction false} HistoryGrows(run: seq<State>, i: nat, j: nat)
    requires IsRun(run) && i <= j < |run|
    ensures run[i].history <= run[j].history
    decreases j
  {
    if i < j {
      HistoryGrows(run, i, j - 1);
      assert Next(run[j - 1], run[j]);
      var a :| Step(run[j - 1], a, run[j]);
    }
  }

  /** No two operations are given the same sequence number. */
  lemma ReturnedNumbersDiffer(run: seq<State>, i: nat, t: Tid, u: Tid, m: int, n: int)
    requires IsRun(run) && i < |run|
    requires HasReturned(run[i], t, m) && HasReturned(run[i], u, n) && t != u
    ensures m != n
  {
    RunsKeepInv(run, i);
    var h := run[i].history;
    assert ClientInv(h, t, run[i].clients[t]) && ClientInv(h, u, run[i].clients[u]);
    var j: nat :| j >= run[i].clients[t].born && CommittedAt(h, t, m, j);
    var k: nat :| k >= run[i].clients[u].born && CommittedAt(h, u, n, k);
    if j < k {
      CommitsAreOrdered(h, j, k, t, u, m, n);
    } else if k < j {
      CommitsAreOrdered(h, k, j, u, t, n, m);
    }
  }

  lemma {:induction false} ClientsAreKept(run: seq<State>, i: nat, j: nat, t: Tid)
    requires IsRun(run) && i <= j < |run| && t in run[i].clients
    ensures t in run[j].clients && run[j].clients[t].born == run[i].clients[t].born
    ensures run[i].clients[t].pc.Done? ==> run[j].clients[t].pc == run[i].clients[t].pc
    decreases j
  {
    if i < j {
      ClientsAreKept(run, i, j - 1, t);
      assert Next(run[j - 1], run[j]);
      var a :| Step(run[j - 1], a, run[j]);
    }
  }

  lemma {:induction false} LateBirth(run: seq<State>, i: nat, j: nat, u: Tid)
    requires IsRun(run) && i <= j < |run| && u !in run[i].clients && u in run[j].clients
    ensures run[j].clients[u].born >= |run[i].history|
    decreases j
  {
    assert Next(run[j - 1], run[j]);
    var a :| Step(run[j - 1], a, run[j]);
    if u in run[j - 1].clients {
      LateBirth(run, i, j - 1, u);
    } else {
      HistoryGrows(run, i, j - 1);
    }
  }

  /** An operation that starts after another one returned is given a larger number, however stale its first read. */
  lemma NumbersFollowTime(run: seq<State>, i: nat, j: nat, t: Tid, u: Tid, m: int, n: int)
    requires IsRun(run) && i <= j < |run|
    requires HasReturned(run[i], t, m) && u !in run[i].clients && HasReturned(run[j], u, n)
    ensures m < n
  {
    RunsKeepInv(run, i);
    RunsKeepInv(run, j);
    HistoryGrows(run, i, j);
    LateBirth(run, i, j, u);
    assert ClientInv(run[i].history, t, run[i].clients[t]) && ClientInv(run[j].history, u, run[j].clients[u]);
    var k: nat :| k >= run[i].clients[t].born && CommittedAt(run[i].history, t, m, k);
    var l: nat :| l >= run[j].clients[u].born && CommittedAt(run[j].history, u, n, l);
    assert CommittedAt(run[j].history, t, m, k);
    CommitsAreOrdered(run[j].history, k, l, t, u, m, n);
  }

  // ---------------------------------------------------------------------------------------------
  // The two retry loops, against a server that others write to between any two requests

  class ApiServer {
    var history: seq<Version>

    constructor (annotations: Annotations)
      ensures history == [Version(annotations, Created)]
    {
      history := [Version(annotations, Created)];
    }

    method Append(more: seq<Version>)
      modifies this
      ensures history == old(history) + more
    {
      history := history + more;
    }

    /** Optimistic concurrency: only an update of the newest version can be committed. */
    method Update(base: nat, v: Version, reach: bool, reply: Reply) returns (r: Reply, ghost committed: bool)
      modifies this
      ensures committed == (reach && base == |old(history)| - 1)
      ensures history == if committed then old(history) + [v] else old(history)
      ensures r.Ok? ==> committed
      ensures reach && reply.Ok? ==> (if committed then r.Ok? else r.Conflict?)
    {
      committed := reach && base == |history| - 1;
      if reach && base == |history| - 1 {
        history := history + [v];
        return reply, committed;
      }
      return if reply.Ok? then Conflict else reply, committed;
    }
  }

  /**
   * What happens around the i-th request: the versions others add before it, whether a read works, whether an update
   * reaches the server, and how its outcome is reported.
   */
  datatype Surroundings = Surroundings(
    others: (seq<Version>, nat) -> seq<Version>, readable: nat -> bool, reach: nat -> bool, replies: nat -> Reply)

  /** The others keep to the protocol and are not this client. */
  ghost predicate Orderly(w: Surroundings, me: Origin) {
    forall h: seq<Version>, i: nat :: Chain(h) ==>
      Chain(h + w.others(h, i)) && forall v :: v in w.others(h, i) ==> v.origin != me
  }

  ghost predicate Honest(w: Surroundings) {
    forall i: nat :: w.reach(i) && w.replies(i).Ok?
  }

  ghost predicate Absent(h: seq<Version>, me: Origin) {
    forall j :: 0 <= j < |h| ==> h[j].origin != me
  }

  method LetOthersWrite(api: ApiServer, w: Surroundings, ghost me: Origin, i: nat)
    requires Chain(api.history) && Orderly(w, me)
    modifies api
    ensures Chain(api.history) && api.history == old(api.history) + w.others(old(api.history), i)
    ensures forall j :: |old(api.history)| <= j < |api.history| ==> api.history[j].origin != me
    ensures Absent(old(api.history), me) ==> Absent(api.history, me)
  {
    var more := w.others(api.history, i);
    assert forall j :: 0 <= j < |more| ==> more[j] in more;
    api.Append(more);
  }

  method TryUpdate(api: ApiServer, base: nat, v: Version, w: Surroundings, i: nat)
    returns (r: Reply, ghost committed: bool)
    requires Chain(api.history) && base < |api.history| && Linked(api.history[base], v)
    modifies api
    ensures Chain(api.history)
    ensures api.history == if committed then old(api.history) + [v] else old(api.history)
    ensures r.Ok? ==> committed
    ensures committed ==> base == |old(api.history)| - 1
    ensures Honest(w) ==> (committed <==> r.Ok?)
  {
    ghost var before := api.history;
    r, committed := api.Update(base, v, w.reach(i), w.replies(i));
    if committed {
      ChainExtends(before, v);
    }
  }

  // ---------------------------------------------------------------------------------------------
  // A call's own steps

  /** The object's history and one client, absent before it starts. */
  datatype View = View(history: seq<Version>, client: Option<Client>)

  /** A step of the protocol that the client takes. */
  datatype Own = Own(a: Action, before: View, after: View)

  function Alone(v: View, t: Tid): State {
    State(v.history, if v.client.Some? then map[t := v.client.value] else map[])
  }

  ghost predicate Takes(t: Tid, o: Own) {
    !o.a.Edit? && o.a.t == t && o.after.client.Some? && Step(Alone(o.before, t), o.a, Alone(o.after, t))
  }

  ghost predicate TakesAt(t: Tid, trace: seq<Own>, k: nat)
    requires k < |trace|
  {
    Takes(t, trace[k])
  }

  /** Between two steps of the client the others write what the surroundings have for that moment. */
  ghost predicate Resumes(w: Surroundings, d: nat, trace: seq<Own>, k: nat)
    requires 0 < k < |trace|
  {
    var h := trace[k - 1].after.history;
    trace[k].before == View(h + w.others(h, k - 1 + d), trace[k - 1].after.client)
  }

  /** The client's steps from its start on; `d` is the number of the first interference. */
  ghost predicate IsTrace(w: Surroundings, t: Tid, d: nat, trace: seq<Own>) {
    && trace != [] && trace[0].before.client.None?
    && (forall k :: 0 <= k < |trace| ==> TakesAt(t, trace, k))
    && (forall k :: 0 < k < |trace| ==> Resumes(w, d, trace, k))
  }

  lemma TraceGrows(w: Surroundings, t: Tid, d: nat, trace: seq<Own>, o: Own)
    requires IsTrace(w, t, d, trace) && Takes(t, o)
    requires var v := trace[|trace| - 1].after;
             o.before == View(v.history + w.others(v.history, |trace| - 1 + d), v.client)
    ensures IsTrace(w, t, d, trace + [o])
  {
    forall k | 0 <= k < |trace + [o]| ensures TakesAt(t, trace + [o], k) {
      if k < |trace| {
        assert TakesAt(t, trace, k);
      }
    }
    forall k | 0 < k < |trace + [o]| ensures Resumes(w, d, trace + [o], k) {
      if k < |trace| {
        assert Resumes(w, d, trace, k);
      }
    }
  }

  /** The client stands there after the trace. */
  ghost predicate LeadsTo(w: Surroundings, t: Tid, d: nat, trace: seq<Own>, h: seq<Version>, c: Client) {
    IsTrace(w, t, d, trace) && trace[|trace| - 1].after == View(h, Some(c))
  }

  lemma Starts(w: Surroundings, t: Tid, d: nat, h: seq<Version>, job: Job, base: nat, c: Client)
    returns (trace: seq<Own>)
    requires SpawnStep(State(h, map[]), t, job, base, State(h, map[t := c]))
    ensures LeadsTo(w, t, d, trace, h, c)
    ensures trace == [Own(Spawn(t, job, base), View(h, None), View(h, Some(c)))]
  {
    trace := [Own(Spawn(t, job, base), View(h, None), View(h, Some(c)))];
    assert Takes(t, trace[0]) && TakesAt(t, trace, 0);
  }

  lemma Reads(w: Surroundings, t: Tid, d: nat, trace: seq<Own>, h: seq<Version>, c: Client, h': seq<Version>, ok: bool)
    returns (longer: seq<Own>, c': Client)
    requires LeadsTo(w, t, d, trace, h, c) && c.pc.Reading? && h' != [] && h' == h + w.others(h, |trace| - 1 + d)
    ensures c' == if ok then Attempt(c, |h'| - 1, Last(h').annotations) else c.(pc := Done(Failed))
    ensures LeadsTo(w, t, d, longer, h', c') && |longer| == |trace| + 1 && longer[0] == trace[0]
  {
    c' := if ok then Attempt(c, |h'| - 1, Last(h').annotations) else c.(pc := Done(Failed));
    var o := Own(Read(t, ok), View(h', Some(c)), View(h', Some(c')));
    assert map[t := c][t := c'] == map[t := c'];
    assert Takes(t, o);
    TraceGrows(w, t, d, trace, o);
    longer := trace + [o];
  }

  lemma Updates(w: Surroundings, t: Tid, d: nat, trace: seq<Own>, h: seq<Version>, c: Client, before: seq<Version>,
      after: seq<Version>, committed: bool, reply: Reply)
    returns (longer: seq<Own>, c': Client)
    requires LeadsTo(w, t, d, trace, h, c) && c.pc.Writing? && before == h + w.others(h, |trace| - 1 + d)
    requires (committed ==> c.pc.base == |before| - 1) && (reply.Ok? ==> committed)
    requires after == if committed then before + [Version(c.pc.next, OriginOf(t, c.job))] else before
    ensures c' == AfterReply(c, reply)
    ensures LeadsTo(w, t, d, longer, after, c') && |longer| == |trace| + 1 && longer[0] == trace[0]
  {
    c' := AfterReply(c, reply);
    var o := Own(Update(t, committed, reply), View(before, Some(c)), View(after, Some(c')));
    assert map[t := c][t := c'] == map[t := c'];
    assert Takes(t, o);
    TraceGrows(w, t, d, trace, o);
    longer := trace + [o];
  }

  /** Where an increment's trace stands at the beginning of an attempt. */
  ghost predicate IncrementStands(w: Surroundings, t: Tid, trace: seq<Own>, h: seq<Version>, c: Client, attempt: nat,
      base: nat) {
    && LeadsTo(w, t, 1, trace, h, c) && c.job.Incrementing? && c.attempts == attempt
    && if attempt == 0 then
         |trace| == 1 && base < |h| && c == Attempt(Client(Incrementing, Reading, 0, |h|), base, h[base].annotations)
       else |trace| == 2 * attempt && c.pc == if attempt < RETRY_STEPS then Reading else Done(Failed)
  }

  /** What is known when an attempt begins. */
  ghost predicate MayTry(w: Surroundings, t: Tid, trace: seq<Own>, h: seq<Version>, c: Client, attempt: nat,
      base: nat) {
    && Chain(h) && base < |h| && IncrementStands(w, t, trace, h, c, attempt, base)
    && (Honest(w) ==> Absent(h, Increment(t)))
  }

  /** What is known when the call returns. */
  ghost predicate Returns(w: Surroundings, t: Tid, trace: seq<Own>, h: seq<Version>, c: Client, r: Option<int>) {
    && Chain(h) && LeadsTo(w, t, 1, trace, h, c)
      && c.pc == Done(match r case Some(n) => Returned(n) case None => Failed)
    && (r.Some? ==> CommittedAt(h, t, r.value, |h| - 1) && (Honest(w) ==> Absent(h[..|h| - 1], Increment(t))))
    && (r.None? && Honest(w) ==> Absent(h, Increment(t)))
  }

  /** The attempt has computed what it would write, if anything, from version `base`. */
  ghost predicate HasRead(w: Surroundings, t: Tid, trace: seq<Own>, h: seq<Version>, c: Client, attempt: nat,
      base: nat) {
    && Chain(h) && base < |h| && LeadsTo(w, t, 1, trace, h, c) && (Honest(w) ==> Absent(h, Increment(t)))
    && |trace| == 2 * attempt + 1 && c.attempts == attempt && c.job.Incrementing?
    && c.pc == match Incremented(h[base].annotations)
               case None => Done(Failed)
               case Some(n) => Writing(base, h[base].annotations[SEQUENCE := Itoa(n)], n)
  }

  /** A new attempt reads the object again. */
  method ReadAgain(api: ApiServer, t: Tid, snapshot: nat, w: Surroundings, attempt: nat, ghost trace: seq<Own>,
      ghost c: Client)
    returns (base: Option<nat>, ghost longer: seq<Own>, ghost c': Client)
    requires MayTry(w, t, trace, api.history, c, attempt, snapshot) && 0 < attempt < RETRY_STEPS
      && Orderly(w, Increment(t))
    modifies api
    ensures old(api.history) <= api.history && longer != [] && longer[0] == trace[0]
    ensures base.Some? ==> HasRead(w, t, longer, api.history, c', attempt, base.value)
    ensures base.None? ==> Returns(w, t, longer, api.history, c', None)
  {
    ghost var left := api.history;
    LetOthersWrite(api, w, Increment(t), 2 * attempt);
    longer, c' := Reads(w, t, 1, trace, left, c, api.history, w.readable(attempt));
    base := if w.readable(attempt) then Some(|api.history| - 1) else None;
  }

  /** The rest of an attempt; None asks for another one, after a conflict. */
  method WriteIncrement(api: ApiServer, t: Tid, base: nat, w: Surroundings, attempt: nat, ghost trace: seq<Own>,
      ghost c: Client)
    returns (result: Option<Option<int>>, ghost longer: seq<Own>, ghost c': Client)
    requires HasRead(w, t, trace, api.history, c, attempt, base) && attempt < RETRY_STEPS && Orderly(w, Increment(t))
    modifies api
    ensures old(api.history) <= api.history && longer != [] && longer[0] == trace[0]
    ensures result.None? ==> MayTry(w, t, longer, api.history, c', attempt + 1, 0)
    ensures result.Some? ==> Returns(w, t, longer, api.history, c', result.value)
    ensures result.Some? && result.value.Some? ==> |api.history| > |old(api.history)|
  {
    var pv := api.history[base].annotations;
    var updated := Incremented(pv);
    if updated.None? {
      return Some(None), trace, c;
    }
    ghost var read := api.history;
    LetOthersWrite(api, w, Increment(t), 2 * attempt + 1);
    ghost var before := api.history;
    var next := Version(pv[SEQUENCE := Itoa(updated.value)], Increment(t));
    var reply, committed := TryUpdate(api, base, next, w, attempt);
    longer, c' := Updates(w, t, 1, trace, read, c, before, api.history, committed, reply);
    IncrementedValue(pv);
    if reply.Ok? {
      assert api.history[..|api.history| - 1] == before;
      return Some(updated), longer, c';
    }
    if !reply.Conflict? {
      return Some(None), longer, c';
    }
    return None, longer, c';
  }

  /** The function that is retried. */
  method IncrementOnce(api: ApiServer, t: Tid, snapshot: nat, w: Surroundings, attempt: nat, ghost trace: seq<Own>,
      ghost c: Client)
    returns (result: Option<Option<int>>, ghost longer: seq<Own>, ghost c': Client)
    requires MayTry(w, t, trace, api.history, c, attempt, snapshot) && attempt < RETRY_STEPS && Orderly(w, Increment(t))
    modifies api
    ensures old(api.history) <= api.history && longer != [] && longer[0] == trace[0]
    ensures result.None? ==> MayTry(w, t, longer, api.history, c', attempt + 1, snapshot)
    ensures result.Some? ==> Returns(w, t, longer, api.history, c', result.value)
    ensures result.Some? && result.value.Some? ==> |api.history| > |old(api.history)|
  {
    var base := snapshot;
    longer, c' := trace, c;
    if attempt > 0 {
      var latest;
      latest, longer, c' := ReadAgain(api, t, snapshot, w, attempt, longer, c');
      if latest.None? {
        return Some(None), longer, c';
      }
      base := latest.value;
    }
    result, longer, c' := WriteIncrement(api, t, base, w, attempt, longer, c');
  }

  /**
   * incrementAttachSequenceAnnotation. A number is returned only when this client's own update was committed with it,
   * after the call began; and if answers are never lost or garbled, the call commits at most once, and only on success.
   * What it does is a trace of the protocol's steps, which ends as the call does.
   */
  method IncrementAttachSequence(api: ApiServer, t: Tid, snapshot: nat, w: Surroundings)
    returns (r: Option<int>, ghost trace: seq<Own>, ghost c: Client)
    requires Chain(api.history) && snapshot < |api.history|
    requires Orderly(w, Increment(t)) && Absent(api.history, Increment(t))
    modifies api
    ensures Chain(api.history) && old(api.history) <= api.history
    ensures r.Some? ==> CommittedAt(api.history, t, r.value, |api.history| - 1) && |api.history| > |old(api.history)|
    ensures Honest(w) && r.Some? ==> Absent(api.history[..|api.history| - 1], Increment(t))
    ensures Honest(w) && r.None? ==> Absent(api.history, Increment(t))
    ensures LeadsTo(w, t, 1, trace, api.history, c) && trace[0].before == View(old(api.history), None)
    ensures c.pc == Done(match r case Some(n) => Returned(n) case None => Failed)
  {
    c := Attempt(Client(Incrementing, Reading, 0, |api.history|), snapshot, api.history[snapshot].annotations);
    trace := Starts(w, t, 1, api.history, Incrementing, snapshot, c);
    for attempt := 0 to RETRY_STEPS
      invariant MayTry(w, t, trace, api.history, c, attempt, snapshot)
      invariant old(api.history) <= api.history && trace[0].before == View(old(api.history), None)
    {
      var result;
      result, trace, c := IncrementOnce(api, t, snapshot, w, attempt, trace, c);
      if result.Some? {
        return result.value, trace, c;
      }
    }
    return None, trace, c;
  }

  /** A version that the object has at or after the `before`-th, and that this adoption did not write, has the value. */
  ghost predicate ReadFrom(h: seq<Version>, before: nat, t: Tid, key: string, value: string) {
    exists j :: 0 <= j < |h| && ReadAt(h, before, t, key, value, j)
  }

  ghost predicate ReadAt(h: seq<Version>, before: nat, t: Tid, key: string, value: string, j: nat)
    requires j < |h|
  {
    before - 1 <= j && (j < before || h[j].origin != Adoption(t)) && Lookup(h[j].annotations, key) == value
  }

  /** The value is the one supplied, or, if none is, one that the call read from the object. */
  ghost predicate Settled(h: seq<Version>, before: nat, t: Tid, supplied: string, key: string, value: string) {
    value != "" && if supplied != "" then value == supplied else ReadFrom(h, before, t, key, value)
  }

  lemma StaysSettled(h: seq<Version>, h': seq<Version>, before: nat, t: Tid, supplied: string, key: string,
      value: string)
    requires Settled(h, before, t, supplied, key, value) && h <= h'
    ensures Settled(h', before, t, supplied, key, value)
  {
    if supplied == "" {
      var j :| 0 <= j < |h| && ReadAt(h, before, t, key, value, j);
      assert ReadAt(h', before, t, key, value, j);
    }
  }

  /** Blob URL and claim identifier of an adoption. */
  ghost predicate BothSettled(h: seq<Version>, before: nat, t: Tid, supplied: Claim, c: Claim) {
    && Settled(h, before, t, supplied.blobURL, BLOB_URL, c.blobURL)
    && Settled(h, before, t, supplied.identifier, CLAIM, c.identifier)
    && c.policy == supplied.policy
  }

  lemma StillSettled(h: seq<Version>, h': seq<Version>, before: nat, t: Tid, supplied: Claim, c: Claim)
    requires BothSettled(h, before, t, supplied, c) && h <= h'
    ensures BothSettled(h', before, t, supplied, c)
  {
    StaysSettled(h, h', before, t, supplied.blobURL, BLOB_URL, c.blobURL);
    StaysSettled(h, h', before, t, supplied.identifier, CLAIM, c.identifier);
  }

  /** The first version that the call reads is not its own. */
  lemma FirstReadSettles(h: seq<Version>, before: nat, t: Tid, c: Claim, base: nat)
    requires base < |h| && before - 1 <= base && (base < before || h[base].origin != Adoption(t))
    requires !Adopt(Completed(c, h[base].annotations), h[base].annotations).Incomplete?
    ensures BothSettled(h, before, t, c, Completed(c, h[base].annotations))
  {
    assert ReadAt(h, before, t, BLOB_URL, Lookup(h[base].annotations, BLOB_URL), base);
    assert ReadAt(h, before, t, CLAIM, Lookup(h[base].annotations, CLAIM), base);
  }

  /** What the object says. */
  function Shown(m: Annotations): Claim {
    Claim(Lookup(m, BLOB_URL), Lookup(m, CLAIM), Lookup(m, CACHE_POLICY))
  }

  /** Where an adoption's trace stands at the beginning of an attempt; `full` is what its claim has become. */
  ghost predicate AdoptionStands(w: Surroundings, t: Tid, trace: seq<Own>, h: seq<Version>, c: Client, attempt: nat,
      full: Claim) {
    && Chain(h) && LeadsTo(w, t, 0, trace, h, c) && c.job == Adopting(full) && c.attempts == attempt
    && |trace| == 2 * attempt + 1 && c.pc == if attempt < RETRY_STEPS then Reading else Done(Failed)
  }

  /** What the claim has become is known, from the first read on. */
  ghost predicate ClaimStands(h: seq<Version>, before: nat, t: Tid, claim: Claim, attempt: nat, full: Claim) {
    if attempt == 0 then full == claim && |h| == before else BothSettled(h, before, t, claim, full)
  }

  /** What a successful adoption leaves in the newest version. */
  ghost predicate AdoptedIn(h: seq<Version>, before: nat, t: Tid, claim: Claim) {
    h != [] && SEQUENCE in Last(h).annotations && BothSettled(h, before, t, claim, Shown(Last(h).annotations))
  }

  method ReadToAdopt(api: ApiServer, t: Tid, claim: Claim, full: Claim, w: Surroundings, attempt: nat,
      ghost before: nat, ghost trace: seq<Own>, ghost c: Client)
    returns (pv: Option<Annotations>, ghost longer: seq<Own>, ghost c': Client)
    requires AdoptionStands(w, t, trace, api.history, c, attempt, full) && attempt < RETRY_STEPS
      && Orderly(w, Adoption(t))
    requires ClaimStands(api.history, before, t, claim, attempt, full) && 0 < before <= |api.history|
    modifies api
    ensures Chain(api.history) && old(api.history) <= api.history && longer != [] && longer[0] == trace[0]
    ensures LeadsTo(w, t, 0, longer, api.history, c')
    ensures pv.None? ==> c'.pc == Done(Failed)
    ensures pv.Some? ==>
      pv == Some(Last(api.history).annotations) && |longer| == 2 * attempt + 2 && c'.attempts == attempt
                         && c' == Attempt(c, |api.history| - 1, pv.value)
    ensures pv.Some? && !Adopt(Completed(full, pv.value), pv.value).Incomplete? ==>
      BothSettled(api.history, before, t, claim, Completed(full, pv.value))
  {
    ghost var left := api.history;
    LetOthersWrite(api, w, Adoption(t), 2 * attempt);
    longer, c' := Reads(w, t, 0, trace, left, c, api.history, w.readable(attempt));
    if !w.readable(attempt) {
      return None, longer, c';
    }
    if attempt > 0 {
      StillSettled(left, api.history, before, t, claim, full);
    } else if !Adopt(Completed(full, Last(api.history).annotations), Last(api.history).annotations).Incomplete? {
      FirstReadSettles(api.history, before, t, claim, |api.history| - 1);
    }
    pv := Some(Last(api.history).annotations);
  }

  /** The function that is retried; None asks for another attempt, after a conflict. */
  method AdoptOnce(api: ApiServer, t: Tid, claim: Claim, full: Claim, w: Surroundings, attempt: nat, ghost before: nat,
      ghost trace: seq<Own>, ghost c: Client)
    returns (result: Option<bool>, full': Claim, ghost longer: seq<Own>, ghost c': Client)
    requires AdoptionStands(w, t, trace, api.history, c, attempt, full) && attempt < RETRY_STEPS
      && Orderly(w, Adoption(t))
    requires ClaimStands(api.history, before, t, claim, attempt, full) && 0 < before <= |api.history|
    modifies api
    ensures Chain(api.history) && old(api.history) <= api.history && longer != [] && longer[0] == trace[0]
    ensures LeadsTo(w, t, 0, longer, api.history, c')
    ensures result.None? ==> AdoptionStands(w, t, longer, api.history, c', attempt + 1, full')
    ensures result.None? ==> ClaimStands(api.history, before, t, claim, attempt + 1, full')
    ensures result.Some? ==> c'.pc == Done(if result.value then Adopted else Failed)
    ensures result == Some(true) ==> AdoptedIn(api.history, before, t, claim)
  {
    var pv;
    pv, longer, c' := ReadToAdopt(api, t, claim, full, w, attempt, before, trace, c);
    full' := full;
    if pv.None? {
      return Some(false), full', longer, c';
    }
    full' := Completed(full, pv.value);
    var plan := Adopt(full', pv.value);
    if plan.Incomplete? {
      return Some(false), full', longer, c';
    }
    if plan.UpToDate? {
      return Some(true), full', longer, c';
    }
    result, longer, c' := WriteAdoption(api, t, claim, full', plan.next, w, attempt, before, longer, c');
  }

  method WriteAdoption(api: ApiServer, t: Tid, claim: Claim, full: Claim, next: Annotations, w: Surroundings,
      attempt: nat, ghost before: nat, ghost trace: seq<Own>, ghost c: Client)
    returns (result: Option<bool>, ghost longer: seq<Own>, ghost c': Client)
    requires Chain(api.history) && LeadsTo(w, t, 0, trace, api.history, c) && Orderly(w, Adoption(t))
    requires |trace| == 2 * attempt + 2 && c.attempts == attempt < RETRY_STEPS && c.job == Adopting(full)
    requires c.pc == Writing(|api.history| - 1, next, 0) && Adopt(full, Last(api.history).annotations) == Write(next)
    requires BothSettled(api.history, before, t, claim, full)
    modifies api
    ensures Chain(api.history) && old(api.history) <= api.history && longer != [] && longer[0] == trace[0]
    ensures LeadsTo(w, t, 0, longer, api.history, c')
    ensures result.None? ==> AdoptionStands(w, t, longer, api.history, c', attempt + 1, full)
    ensures result.None? ==> BothSettled(api.history, before, t, claim, full)
    ensures result.Some? ==> c'.pc == Done(if result.value then Adopted else Failed)
    ensures result == Some(true) ==> AdoptedIn(api.history, before, t, claim)
  {
    ghost var seen := api.history;
    var base := |api.history| - 1;
    LetOthersWrite(api, w, Adoption(t), 2 * attempt + 1);
    ghost var h := api.history;
    var reply, committed := TryUpdate(api, base, Version(next, Adoption(t)), w, attempt);
    longer, c' := Updates(w, t, 0, trace, seen, c, h, api.history, committed, reply);
    StillSettled(seen, api.history, before, t, claim, full);
    if reply.Ok? {
      assert Shown(next) == full;
      return Some(true), longer, c';
    }
    if !reply.Conflict? {
      return Some(false), longer, c';
    }
    return None, longer, c';
  }

  /**
   * ensureQADPVAnnotations: when it succeeds, the newest version has a sequence, the values that were supplied, and for
   * the others values that were there; and whatever was counted is still counted. What it does is a trace of the
   * protocol's steps, which ends as the call does.
   */
  method EnsureQADPVAnnotations(api: ApiServer, t: Tid, pvName: string, claim: Claim, w: Surroundings)
    returns (ok: bool, ghost trace: seq<Own>, ghost c: Client)
    requires Chain(api.history) && Orderly(w, Adoption(t))
    modifies api
    ensures Chain(api.history) && old(api.history) <= api.history
    ensures ok ==> pvName != "" && SEQUENCE in Last(api.history).annotations
    ensures ok ==> BothSettled(api.history, |old(api.history)|, t, claim, Shown(Last(api.history).annotations))
    ensures pvName == "" ==> !ok && trace == [] && api.history == old(api.history)
    ensures pvName != "" ==> LeadsTo(w, t, 0, trace, api.history, c) && trace[0].before == View(old(api.history), None)
    ensures pvName != "" ==> c.pc == Done(if ok then Adopted else Failed)
  {
    ghost var before := |api.history|;
    c := Client(Adopting(claim), Reading, 0, before);
    if pvName == "" {
      return false, [], c;
    }
    trace := Starts(w, t, 0, api.history, Adopting(claim), 0, c);
    var full := claim;
    for attempt := 0 to RETRY_STEPS
      invariant old(api.history) <= api.history && AdoptionStands(w, t, trace, api.history, c, attempt, full)
      invariant ClaimStands(api.history, before, t, claim, attempt, full)
        && trace[0].before == View(old(api.history), None)
    {
      var result;
      result, full, trace, c := AdoptOnce(api, t, claim, full, w, attempt, before, trace, c);
      if result.Some? {
        return result.value, trace, c;
      }
    }
    return false, trace, c;
  }
}
