/** Every run's accepted writes are atomic guarded transitions, and its rollback ledger adds up. */
module Linearization {
  import opened Base
  import opened Actions
  import opened ActionStore
  import opened RollbackRecords
  import opened Protocol
  import opened History

  ghost predicate StoreIsLog(store: Store, log: seq<Event>) {
    forall id ::
      && (id in store <==> Current(log, id).Some?)
      && (id in store ==> Current(log, id) == Some(store[id]))
  }

  predicate ShownOk(s: State) {
    forall p :: p in s.shown ==> p.0 in s.store && p.1 <= s.store[p.0].lockVersion
  }

  /** A validated snapshot was the current action at its time, and no token runs ahead of it. */
  predicate ClientOk(log: seq<Event>, shown: set<(Uuid, int)>, client: Client) {
    match client
    case Called(id, call) => !call.ExecuteCall? ==> (id, call.token) in shown
    case Ready(id, call, snapshot, seenAt, _) =>
      && seenAt <= |log| && Current(log[..seenAt], id) == Some(snapshot)
      && Denial(call, snapshot) == None
      && (!call.ExecuteCall? ==> call.token <= snapshot.lockVersion)
    case Recording(call, env, _) => KindOf(call, env.result).Some?
  }

  ghost predicate Inv(s: State) {
    && LogOk(s.log)
    && StoreIsLog(s.store, s.log)
    && ShownOk(s)
    && (forall c :: c in s.clients ==> ClientOk(s.log, s.shown, s.clients[c]))
  }

  lemma ClientOkLater(log: seq<Event>, e: Event, shown: set<(Uuid, int)>, p: (Uuid, int), client: Client)
    requires ClientOk(log, shown, client)
    ensures ClientOk(log + [e], shown + {p}, client)
  {
    if client.Ready? {
      assert (log + [e])[..client.seenAt] == log[..client.seenAt];
    }
  }

  /** An acceptable event with a higher version keeps the invariant, whatever the clients then do. */
  lemma Extend(s: State, e: Event, t: State)
    requires Inv(s) && EventOk(s.log, e)
    requires e.Birth? || After(e).lockVersion > e.before.lockVersion
    requires t.log == s.log + [e] && t.store == s.store[IdOf(e) := After(e)]
    requires t.shown == s.shown + {(IdOf(e), After(e).lockVersion)}
    requires forall c :: c in t.clients ==>
      (c in s.clients && t.clients[c] == s.clients[c]) || ClientOk(t.log, t.shown, t.clients[c])
    ensures Inv(t)
  {
    LogOkAppend(s.log, e);
    forall id
      ensures id in t.store <==> Current(t.log, id).Some?
      ensures id in t.store ==> Current(t.log, id) == Some(t.store[id])
    {
      CurrentAppend(s.log, e, id);
    }
    forall c | c in t.clients ensures ClientOk(t.log, t.shown, t.clients[c]) {
      if c in s.clients && t.clients[c] == s.clients[c] {
        ClientOkLater(s.log, e, s.shown, (IdOf(e), After(e).lockVersion), s.clients[c]);
      }
    }
  }

  /**
   The heart of the protocol. A call validated on `snapshot` some time ago, whose token is no newer
   than that snapshot and whose compare-and-swap succeeds now, finds the very action it validated:
   nothing was written to it in between, and the two phases equal one atomic call made now.
   */
  lemma TwoPhasesAreOne(log: seq<Event>, store: Store, seenAt: nat, id: Uuid, call: Call, env: Env, snapshot: Action)
    requires LogOk(log) && StoreIsLog(store, log)
    requires seenAt <= |log| && Current(log[..seenAt], id) == Some(snapshot)
    requires Denial(call, snapshot) == None
    requires TokenOf(call, snapshot) <= snapshot.lockVersion
    requires Cas(store, id, WriteOf(call, env), TokenOf(call, snapshot)).result.Ok?
    ensures id in store && store[id] == snapshot
    ensures Untouched(log, seenAt, |log|, id)
    ensures Cas(store, id, WriteOf(call, env), TokenOf(call, snapshot)) == Perform(store, id, call, env)
  {
    VersionsTell(log, seenAt, id);
  }

  lemma StepKeepsInv(s: State, step: Step)
    requires Inv(s) && Enabled(s, step)
    ensures Inv(Next(s, step))
  {
    var t := Next(s, step);
    match step
    case Create(a) =>
      Extend(s, Birth(a), t);
    case Read(_) =>
    case Invoke(_, _, _) =>
    case TakeSnapshot(c) =>
      assert s.log[..|s.log|] == s.log;
    case RunExecutor(_, _) =>
    case TryCommit(c, env) =>
      CommitKeepsInv(s, c, env);
    case WriteRecord(_, _, _) =>
    case RawWrite(id, w, token) =>
      if t != s {
        ApplyFrame(s.store[id], w);
        CurrentKey(s.log, id);
        Extend(s, Raw(s.store[id], Apply(s.store[id], w)), t);
      }
  }

  lemma CommitKeepsInv(s: State, c: nat, env: Env)
    requires Inv(s) && Enabled(s, TryCommit(c, env))
    ensures Inv(Next(s, TryCommit(c, env)))
  {
    var client := s.clients[c];
    var t := NextCommit(s, c, client, env);
    assert ClientOk(s.log, s.shown, client);
    if Cas(s.store, client.id, WriteOf(client.call, env), TokenOf(client.call, client.snapshot)).result.Ok? {
      TwoPhasesAreOne(s.log, s.store, client.seenAt, client.id, client.call, env, client.snapshot);
      ApplyFrame(client.snapshot, WriteOf(client.call, env));
      CurrentKey(s.log, client.id);
      Extend(s, t.log[|s.log|], t);
    }
  }

  lemma {:induction false} RunKeepsInv(steps: seq<Step>)
    requires IsRun(steps)
    ensures Inv(Reached(steps))
  {
    if steps != [] {
      RunKeepsInv(steps[..|steps| - 1]);
      StepKeepsInv(Reached(steps[..|steps| - 1]), steps[|steps| - 1]);
    }
  }

  // ----- The refinement theorem -----

  /** The history executed by a single client: each committed call as one atomic `Perform`. */
  function Sequential(log: seq<Event>): Store {
    if log == [] then map[]
    else
      var store := Sequential(log[..|log| - 1]);
      match log[|log| - 1]
      case Birth(a) => store[a.id := a]
      case Raw(_, after) => store[after.id := after]
      case Commit(call, env, _, _, _, after) => Perform(store, after.id, call, env).store
  }

  lemma {:induction false} SequentialIsCurrent(log: seq<Event>)
    requires LogOk(log)
    ensures StoreIsLog(Sequential(log), log)
  {
    if log != [] {
      var init, e := log[..|log| - 1], log[|log| - 1];
      SequentialIsCurrent(init);
      forall id
        ensures id in Sequential(log) <==> Current(log, id).Some?
        ensures id in Sequential(log) ==> Current(log, id) == Some(Sequential(log)[id])
      {
        CurrentAppend(init, e, id);
        assert log == init + [e];
      }
    }
  }

  /** Two stores that agree with the same history are the same store. */
  lemma StoreUnique(a: Store, b: Store, log: seq<Event>)
    requires StoreIsLog(a, log) && StoreIsLog(b, log)
    ensures a == b
  {
    forall id ensures (id in a <==> id in b) && (id in a ==> a[id] == b[id]) {
    }
  }

  /**
   The committed call at position `i` was atomic: performed by itself on the store just before it, it
   succeeds and returns what the concurrent caller was told, and nobody wrote its action between its
   snapshot and its commit.
   */
  ghost predicate AtomicAt(log: seq<Event>, i: nat)
    requires i < |log| && log[i].Commit?
  {
    var e := log[i];
    && Perform(Sequential(log[..i]), e.after.id, e.call, e.env).result == Ok(e.after)
    && e.snapshot == e.before
    && e.seenAt <= i && Untouched(log, e.seenAt, i, e.after.id)
  }

  /**
   Linearizability of committed calls, over every interleaving with any number of clients and
   unvalidated writers: the store is the one a single client would have produced by performing the
   committed calls one after the other in commit order. `Refusals` treats the refused ones.
   */
  lemma {:induction false} RunsLinearize(steps: seq<Step>)
    requires IsRun(steps)
    ensures Reached(steps).store == Sequential(Reached(steps).log)
  {
    var s := Reached(steps);
    RunKeepsInv(steps);
    SequentialIsCurrent(s.log);
    StoreUnique(s.store, Sequential(s.log), s.log);
  }

  /** And in that sequential execution every committed call succeeds with the answer it really gave. */
  lemma {:induction false} CommitsAreAtomic(steps: seq<Step>, i: nat)
    requires IsRun(steps) && i < |Reached(steps).log| && Reached(steps).log[i].Commit?
    ensures AtomicAt(Reached(steps).log, i)
  {
    var log := Reached(steps).log;
    RunKeepsInv(steps);
    LogOkAt(log, i);
    SequentialIsCurrent(log[..i]);
    assert EventOk(log[..i], log[i]);
    assert Untouched(log[..i], log[i].seenAt, i, log[i].after.id);
    assert forall j :: log[i].seenAt <= j < i ==> log[j] == log[..i][j];
  }

  // ----- Exactly which tokens are safe -----

  /**
   A successful write is atomic if and only if its token is no newer than the snapshot it was
   validated on. Every token obtained from a read before the call satisfies that.
   */
  lemma AtomicIffTokenNotAhead(log: seq<Event>, store: Store, seenAt: nat, id: Uuid, call: Call, env: Env,
                               snapshot: Action)
    requires LogOk(log) && StoreIsLog(store, log)
    requires seenAt <= |log| && Current(log[..seenAt], id) == Some(snapshot)
    requires Denial(call, snapshot) == None
    requires Cas(store, id, WriteOf(call, env), TokenOf(call, snapshot)).result.Ok?
    ensures TokenOf(call, snapshot) <= snapshot.lockVersion <==> store[id] == snapshot
  {
    VersionsTell(log, seenAt, id);
  }

  /** With a guessed token the write lands on an action the validation would have refused. */
  lemma GuessedTokenLandsElsewhere(a: Action, env: Env)
    requires Fresh(a)
    ensures var call := ApproveCall(1, None);
      var store := map[a.id := a];
      var raced := Perform(store, a.id, ApproveCall(0, None), env);
      && Denial(call, store[a.id]) == None
      && raced.result.Ok?
      && Cas(raced.store, a.id, WriteOf(call, env), call.token).result.Ok?
      && Perform(raced.store, a.id, call, env).result == Err(InvalidTransition(Approved, Approved))
  {
  }

  // ----- Conservation of rollback records -----

  function RecordTest(id: Uuid, kind: RecordKind): RollbackRecord -> bool {
    (r: RollbackRecord) => r.actionId == id && r.kind == kind
  }

  predicate OwesRecord(e: Event, id: Uuid, kind: RecordKind) {
    e.Commit? && e.snapshot.id == id && KindOf(e.call, e.env.result) == Some(kind)
  }

  function EventTest(id: Uuid, kind: RecordKind): Event -> bool {
    (e: Event) => OwesRecord(e, id, kind)
  }

  predicate Owes(client: Client, id: Uuid, kind: RecordKind) {
    client.Recording? && client.snapshot.id == id && KindOf(client.call, client.env.result) == Some(kind)
  }

  /** The clients that have committed but not yet written their record. */
  function Owing(clients: map<nat, Client>, id: Uuid, kind: RecordKind): set<nat> {
    set c | c in clients && Owes(clients[c], id, kind)
  }

  function Written(s: State, id: Uuid, kind: RecordKind): nat {
    Count(s.records, RecordTest(id, kind))
  }

  predicate Balanced(s: State, id: Uuid, kind: RecordKind) {
    Written(s, id, kind) + |Owing(s.clients, id, kind)| == Count(s.log, EventTest(id, kind))
  }

  lemma OwingAfterSet(clients: map<nat, Client>, c: nat, client: Client, id: Uuid, kind: RecordKind)
    requires c in clients ==> !clients[c].Recording?
    ensures |Owing(clients[c := client], id, kind)| == |Owing(clients, id, kind)|
      + (if Owes(client, id, kind) then 1 else 0)
  {
    assert Owing(clients[c := client], id, kind) == Owing(clients, id, kind)
      + (if Owes(client, id, kind) then {c} else {});
  }

  lemma OwingAfterDrop(clients: map<nat, Client>, c: nat, id: Uuid, kind: RecordKind)
    ensures |Owing(clients - {c}, id, kind)| ==
      |Owing(clients, id, kind)| - (if c in Owing(clients, id, kind) then 1 else 0)
  {
    assert Owing(clients - {c}, id, kind) == Owing(clients, id, kind) - {c};
  }

  lemma CommitKeepsBalance(s: State, c: nat, env: Env, id: Uuid, kind: RecordKind)
    requires Enabled(s, TryCommit(c, env)) && Balanced(s, id, kind)
    ensures Balanced(Next(s, TryCommit(c, env)), id, kind)
  {
    var client := s.clients[c];
    var o := Cas(s.store, client.id, WriteOf(client.call, env), TokenOf(client.call, client.snapshot));
    OwingAfterDrop(s.clients, c, id, kind);
    if o.result.Ok? {
      var e := Commit(client.call, env, client.seenAt, client.snapshot, s.store[client.id], o.result.value);
      CountAppend(s.log, EventTest(id, kind), e);
      OwingAfterSet(s.clients, c, Recording(client.call, env, client.snapshot), id, kind);
    }
  }

  lemma RecordKeepsBalance(s: State, c: nat, recordId: Uuid, at: Timestamp, id: Uuid, kind: RecordKind)
    requires Enabled(s, WriteRecord(c, recordId, at)) && Balanced(s, id, kind)
    ensures Balanced(Next(s, WriteRecord(c, recordId, at)), id, kind)
  {
    var t := Next(s, WriteRecord(c, recordId, at));
    OwingAfterDrop(s.clients, c, id, kind);
    CountAppend(s.records, RecordTest(id, kind), t.records[|s.records|]);
  }

  lemma StepKeepsBalance(s: State, step: Step, id: Uuid, kind: RecordKind)
    requires Enabled(s, step) && Balanced(s, id, kind)
    ensures Balanced(Next(s, step), id, kind)
  {
    var t := Next(s, step);
    if |t.log| > |s.log| {
      CountAppend(s.log, EventTest(id, kind), t.log[|s.log|]);
    }
    match step
    case Create(_) =>
    case Read(_) =>
    case Invoke(c, i, call) =>
      OwingAfterSet(s.clients, c, Called(i, call), id, kind);
    case TakeSnapshot(c) =>
      OwingAfterDrop(s.clients, c, id, kind);
      if c in t.clients { OwingAfterSet(s.clients, c, t.clients[c], id, kind); }
    case RunExecutor(c, _) =>
      OwingAfterDrop(s.clients, c, id, kind);
      if c in t.clients { OwingAfterSet(s.clients, c, t.clients[c], id, kind); }
    case TryCommit(c, env) =>
      CommitKeepsBalance(s, c, env, id, kind);
    case WriteRecord(c, recordId, at) =>
      RecordKeepsBalance(s, c, recordId, at, id, kind);
    case RawWrite(_, _, _) =>
  }

  lemma {:induction false} RunKeepsBalance(steps: seq<Step>, id: Uuid, kind: RecordKind)
    requires IsRun(steps)
    ensures Balanced(Reached(steps), id, kind)
  {
    if steps == [] {
      assert Owing(INITIAL.clients, id, kind) == {};
    } else {
      RunKeepsBalance(steps[..|steps| - 1], id, kind);
      StepKeepsBalance(Reached(steps[..|steps| - 1]), steps[|steps| - 1], id, kind);
    }
  }
}
