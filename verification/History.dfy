/** What the history of accepted writes says by itself. */
module History {
  import opened Base
  import opened Actions
  import opened ActionStore
  import opened Protocol

  /** The action `id` after all writes of `log`. */
  function Current(log: seq<Event>, id: Uuid): Option<Action> {
    if log == [] then None
    else if IdOf(log[|log| - 1]) == id then Some(After(log[|log| - 1]))
    else Current(log[..|log| - 1], id)
  }

  /** No write to `id` in positions `from` up to `to`. */
  predicate Untouched(log: seq<Event>, from: nat, to: nat, id: Uuid)
    requires from <= to <= |log|
  {
    forall j :: from <= j < to ==> IdOf(log[j]) != id
  }

  /**
   A possible next event: a birth of a new action, a raw write on top of the current version, or a
   call that was validated on exactly the action it overwrites, nothing having happened to it since.
   */
  predicate EventOk(log: seq<Event>, e: Event) {
    match e
    case Birth(a) => Current(log, a.id) == None
    case Raw(before, after) =>
      && Current(log, after.id) == Some(before)
      && after.lockVersion == before.lockVersion + 1 && SameIdentity(before, after)
    case Commit(call, env, seenAt, snapshot, before, after) =>
      && Current(log, after.id) == Some(before) && before.id == after.id
      && snapshot == before
      && seenAt <= |log| && Untouched(log, seenAt, |log|, after.id)
      && Denial(call, before) == None
      && TokenOf(call, before) == before.lockVersion
      && after == Apply(before, WriteOf(call, env))
  }

  predicate LogOk(log: seq<Event>) {
    if log == [] then true
    else LogOk(log[..|log| - 1]) && EventOk(log[..|log| - 1], log[|log| - 1])
  }

  lemma CurrentAppend(log: seq<Event>, e: Event, id: Uuid)
    ensures Current(log + [e], id) == if IdOf(e) == id then Some(After(e)) else Current(log, id)
  {
    assert (log + [e])[..|log|] == log;
  }

  lemma LogOkAppend(log: seq<Event>, e: Event)
    requires LogOk(log) && EventOk(log, e)
    ensures LogOk(log + [e])
  {
    assert (log + [e])[..|log|] == log;
  }

  lemma {:induction false} LogOkAt(log: seq<Event>, i: nat)
    requires LogOk(log) && i < |log|
    ensures LogOk(log[..i]) && EventOk(log[..i], log[i])
  {
    if i < |log| - 1 {
      LogOkAt(log[..|log| - 1], i);
      assert log[..|log| - 1][..i] == log[..i];
    }
  }

  lemma {:induction false} CurrentKey(log: seq<Event>, id: Uuid)
    requires Current(log, id).Some?
    ensures Current(log, id).value.id == id
  {
    if IdOf(log[|log| - 1]) != id {
      CurrentKey(log[..|log| - 1], id);
    }
  }

  /** Versions never fall, and an unchanged version means an untouched action: there is no ABA. */
  lemma {:induction false} VersionsTell(log: seq<Event>, i: nat, id: Uuid)
    requires LogOk(log) && i <= |log| && Current(log[..i], id).Some?
    ensures Current(log, id).Some?
    ensures Current(log[..i], id).value.lockVersion <= Current(log, id).value.lockVersion
    ensures Current(log[..i], id).value.lockVersion == Current(log, id).value.lockVersion
            ==> Untouched(log, i, |log|, id) && Current(log[..i], id) == Current(log, id)
  {
    if i == |log| {
      assert log[..i] == log;
    } else {
      var init := log[..|log| - 1];
      assert init[..i] == log[..i];
      VersionsTell(init, i, id);
      CurrentAppend(init, log[|log| - 1], id);
      assert log == init + [log[|log| - 1]];
    }
  }

  lemma {:induction false} UntouchedKeepsCurrent(log: seq<Event>, i: nat, id: Uuid)
    requires i <= |log| && Untouched(log, i, |log|, id)
    ensures Current(log[..i], id) == Current(log, id)
  {
    if i == |log| {
      assert log[..i] == log;
    } else {
      assert log[..|log| - 1][..i] == log[..i];
      UntouchedKeepsCurrent(log[..|log| - 1], i, id);
    }
  }
}
