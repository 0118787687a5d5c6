/**
 The concurrent protocol: any number of clients interleave the separate steps of the service
 calls (read a snapshot and validate it, run the executor, compare and swap, write the rollback
 record) with each other and with unvalidated writers.
 */
module Protocol {
  import opened Base
  import opened Actions
  import opened ActionStore
  import opened RollbackRecords

  datatype Client =
    | Called(id: Uuid, call: Call)
    | Ready(id: Uuid, call: Call, snapshot: Action, seenAt: nat, answer: Option<ExecutionResult>)
    | Recording(call: Call, env: Env, snapshot: Action)

  /** The history of accepted writes. `seenAt` is the history's length when the snapshot was read. */
  datatype Event =
    | Birth(action: Action)
    | Commit(call: Call, env: Env, seenAt: nat, snapshot: Action, before: Action, after: Action)
    | Raw(before: Action, after: Action)

  function After(e: Event): Action {
    if e.Birth? then e.action else e.after
  }

  function IdOf(e: Event): Uuid {
    After(e).id
  }

  /**
   `clients` holds the calls in progress, `shown` every (action, version) pair a caller was ever
   shown, and `log` the accepted writes. The last two are history: only `Invoke` looks at
   `shown`, and `TakeSnapshot` notes the length of `log`.
   */
  datatype State = State(
    store: Store,
    clients: map<nat, Client>,
    records: seq<RollbackRecord>,
    shown: set<(Uuid, int)>,
    log: seq<Event>)

  const INITIAL := State(map[], map[], [], {}, [])

  datatype Step =
    | Create(action: Action)
    | Read(id: Uuid)
    | Invoke(c: nat, id: Uuid, call: Call)
    | TakeSnapshot(c: nat)
    | RunExecutor(c: nat, answer: Option<ExecutionResult>)
    | TryCommit(c: nat, env: Env)
    | WriteRecord(c: nat, recordId: Uuid, at: Timestamp)
    | RawWrite(id: Uuid, write: Write, token: int)

  predicate Enabled(s: State, step: Step) {
    match step
    case Create(a) => a.id !in s.store
    case Read(id) => id in s.store
    // A caller only presents a token it was shown.
    case Invoke(c, id, call) => c !in s.clients && (!call.ExecuteCall? ==> (id, call.token) in s.shown)
    case TakeSnapshot(c) => c in s.clients && s.clients[c].Called?
    case RunExecutor(c, _) =>
      c in s.clients && s.clients[c].Ready? && s.clients[c].call.ExecuteCall? && s.clients[c].answer.None?
    case TryCommit(c, env) =>
      && c in s.clients && s.clients[c].Ready?
      && (s.clients[c].call.ExecuteCall? ==> s.clients[c].answer == Some(env.result))
    case WriteRecord(c, recordId, _) =>
      && c in s.clients && s.clients[c].Recording?
      && KindOf(s.clients[c].call, s.clients[c].env.result).Some?
      && (forall i :: 0 <= i < |s.records| ==> s.records[i].id != recordId)
    case RawWrite(_, _, _) => true
  }

  function Next(s: State, step: Step): State
    requires Enabled(s, step)
  {
    match step
    case Create(a) =>
      s.(store := s.store[a.id := a], shown := s.shown + {(a.id, a.lockVersion)}, log := s.log + [Birth(a)])
    case Read(id) =>
      s.(shown := s.shown + {(id, s.store[id].lockVersion)})
    case Invoke(c, id, call) =>
      s.(clients := s.clients[c := Called(id, call)])
    case TakeSnapshot(c) =>
      var client := s.clients[c];
      if client.id !in s.store || Denial(client.call, s.store[client.id]).Some? then
        s.(clients := s.clients - {c})
      else
        s.(clients := s.clients[c := Ready(client.id, client.call, s.store[client.id], |s.log|, None)])
    case RunExecutor(c, answer) =>
      if answer.None? then s.(clients := s.clients - {c})
      else s.(clients := s.clients[c := s.clients[c].(answer := answer)])
    case TryCommit(c, env) => NextCommit(s, c, s.clients[c], env)
    case WriteRecord(c, recordId, at) =>
      var client := s.clients[c];
      s.(clients := s.clients - {c},
         records := s.records + [RecordFor(recordId, client.snapshot, client.call, client.env.result, at)])
    case RawWrite(id, w, token) =>
      var o := Cas(s.store, id, w, token);
      if o.result.Err? then s
      else s.(store := o.store,
              shown := s.shown + {(id, o.result.value.lockVersion)},
              log := s.log + [Raw(s.store[id], o.result.value)])
  }

  /** The second phase of a call: compare and swap on the store as it is now. */
  function NextCommit(s: State, c: nat, client: Client, env: Env): State
    requires client.Ready?
  {
    var o := Cas(s.store, client.id, WriteOf(client.call, env), TokenOf(client.call, client.snapshot));
    if o.result.Err? then
      s.(clients := s.clients - {c})
    else
      s.(store := o.store,
         shown := s.shown + {(client.id, o.result.value.lockVersion)},
         log := s.log + [Commit(client.call, env, client.seenAt, client.snapshot, s.store[client.id], o.result.value)],
         clients := if KindOf(client.call, env.result).Some?
                    then s.clients[c := Recording(client.call, env, client.snapshot)]
                    else s.clients - {c})
  }

  predicate IsRun(steps: seq<Step>)
    decreases |steps|, 0
  {
    if steps == [] then true
    else IsRun(steps[..|steps| - 1]) && Enabled(Reached(steps[..|steps| - 1]), steps[|steps| - 1])
  }

  /** The state a run ends in. */
  function Reached(steps: seq<Step>): State
    requires IsRun(steps)
    decreases |steps|, 1
  {
    if steps == [] then INITIAL
    else Next(Reached(steps[..|steps| - 1]), steps[|steps| - 1])
  }

  /** A guarded run creates freshly built actions and writes only through the validated calls. */
  predicate GuardedStep(step: Step) {
    match step
    case Create(a) => Fresh(a)
    case RawWrite(_, _, _) => false
    case _ => true
  }

  predicate IsGuardedRun(steps: seq<Step>) {
    IsRun(steps) && forall i :: 0 <= i < |steps| ==> GuardedStep(steps[i])
  }
}
