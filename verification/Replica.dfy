/** The consumer of replication events and the table of users it mirrors from the peer. */
module Replica {

  type UserId = nat

  datatype Msg = Registered(id: UserId, email: string) | RegistrationFailed(id: UserId) | OtherEvent

  /** auth_replica.users, reduced to its two unique columns. */
  type Users = map<UserId, string>

  /** The primary key or the unique email is taken, so ON CONFLICT DO NOTHING skips the insert. */
  predicate Conflicts(users: Users, id: UserId, email: string) {
    id in users || exists u :: u in users && users[u] == email
  }

  function Apply(users: Users, m: Msg): Users {
    match m
    case Registered(id, email) => if Conflicts(users, id, email) then users else users[id := email]
    case RegistrationFailed(id) => users - {id}
    case OtherEvent => users
  }

  class ReplicaTable {
    var users: Users

    constructor ()
      ensures users == map[]
    {
      users := map[];
    }

    /** The handler swallows a database error, so the message is acknowledged all the same and leaves no trace. */
    method HandleUserRegistered(id: UserId, email: string, dbWorks: bool)
      modifies this
      ensures users == if dbWorks then Apply(old(users), Registered(id, email)) else old(users)
      ensures dbWorks && id !in old(users) && email !in old(users).Values ==> users == old(users)[id := email]
      ensures !dbWorks || id in old(users) || email in old(users).Values ==> users == old(users)
    {
      if dbWorks && !Conflicts(users, id, email) { users := users[id := email]; }
    }

    method HandleUserRegistrationFailed(id: UserId, dbWorks: bool)
      modifies this
      ensures users == if dbWorks then Apply(old(users), RegistrationFailed(id)) else old(users)
      ensures users == if dbWorks then old(users) - {id} else old(users)
    {
      if dbWorks && id in users { users := users - {id}; }
    }

    method HandleReplicationEvent(m: Msg, dbWorks: bool)
      modifies this
      ensures users == if dbWorks then Apply(old(users), m) else old(users)
    {
      match m
      case Registered(id, email) => HandleUserRegistered(id, email, dbWorks);
      case RegistrationFailed(id) => HandleUserRegistrationFailed(id, dbWorks);
      case OtherEvent =>
    }

    /** One message, delivered in place once for every entry of `tries`, which says whether the database worked. */
    method Consume(m: Msg, tries: seq<bool>)
      modifies this
      ensures users == if true in tries then Apply(old(users), m) else old(users)
    {
      for k := 0 to |tries|
        invariant users == if true in tries[..k] then Apply(old(users), m) else old(users)
      {
        ApplyTwice(old(users), m);
        HandleReplicationEvent(m, tries[k]);
        assert tries[..k + 1] == tries[..k] + [tries[k]];
      }
      assert tries[..|tries|] == tries;
    }

    /** Messages taken off the queue in order. */
    method ConsumeAll(log: seq<Msg>, tries: seq<seq<bool>>)
      requires |tries| == |log|
      modifies this
      ensures users == Replayed(old(users), Sub(log, set i | 0 <= i < |log| && true in tries[i]))
    {
      ghost var got := set i | 0 <= i < |log| && true in tries[i];
      for i := 0 to |log|
        invariant users == Replayed(old(users), Sub(log[..i], got))
      {
        SubGrows(log, got, i);
        ReplayedAfter(old(users), Sub(log[..i], got), log[i]);
        Consume(log[i], tries[i]);
        assert Sub(log[..i], got) + [] == Sub(log[..i], got);
      }
      assert log[..|log|] == log;
    }
  }

  // ---- The part of a log that one consumer applied ----

  /** The messages at the given positions, in order. */
  function Sub(log: seq<Msg>, got: set<nat>): seq<Msg> {
    if log == [] then []
    else Sub(log[..|log| - 1], got) + if |log| - 1 in got then [log[|log| - 1]] else []
  }

  lemma SubGrows(log: seq<Msg>, got: set<nat>, i: nat)
    requires i < |log|
    ensures Sub(log[..i + 1], got) == Sub(log[..i], got) + if i in got then [log[i]] else []
  {
    assert log[..i + 1][..i] == log[..i];
  }

  lemma {:induction false} SubIgnoresLater(log: seq<Msg>, got: set<nat>, n: nat, k: nat)
    requires n <= k <= |log| && forall i :: i in got ==> i < n
    ensures Sub(log[..k], got) == Sub(log[..n], got)
    decreases k
  {
    if n < k {
      SubGrows(log, got, k - 1);
      SubIgnoresLater(log, got, n, k - 1);
    }
  }

  lemma {:induction false} SubIgnoresUnheard(log: seq<Msg>, got: set<nat>, k: nat)
    requires |log| <= k
    ensures Sub(log, got + {k}) == Sub(log, got)
  {
    if log != [] { SubIgnoresUnheard(log[..|log| - 1], got, k); }
  }

  /** Taking the message at `head`, with nothing later taken yet, puts it at the end, once. */
  lemma SubTakes(log: seq<Msg>, got: set<nat>, head: nat)
    requires head < |log| && forall i :: i in got ==> i <= head
    ensures Sub(log, got + {head}) == Sub(log[..head], got) + [log[head]]
    ensures Sub(log, got) == Sub(log[..head], got) + if head in got then [log[head]] else []
  {
    assert log[..|log|] == log;
    SubIgnoresLater(log, got + {head}, head + 1, |log|);
    SubIgnoresLater(log, got, head + 1, |log|);
    SubGrows(log, got + {head}, head);
    SubGrows(log, got, head);
    SubIgnoresUnheard(log[..head], got, head);
  }

  lemma {:induction false} SubComesFromLog(log: seq<Msg>, got: set<nat>, m: Msg)
    ensures m in Sub(log, got) <==> exists j :: 0 <= j < |log| && j in got && log[j] == m
  {
    if log != [] {
      var init := log[..|log| - 1];
      SubComesFromLog(init, got, m);
      if m in Sub(init, got) {
        var j :| 0 <= j < |init| && j in got && init[j] == m;
        assert log[j] == m;
      }
      if j :| 0 <= j < |log| && j in got && log[j] == m {
        if j < |init| { assert init[j] == m; }
      }
    }
  }

  lemma {:induction false} SubRegistersOnce(log: seq<Msg>, got: set<nat>)
    requires RegisteredOnce(log)
    ensures RegisteredOnce(Sub(log, got))
  {
    if log != [] {
      var init, last := log[..|log| - 1], log[|log| - 1];
      SubRegistersOnce(init, got);
      forall m | m in Sub(init, got) && m.Registered? && last.Registered?
        ensures m.id != last.id
      {
        SubComesFromLog(init, got, m);
      }
    }
  }

  /** A message delivered again in place changes nothing. */
  lemma ApplyTwice(users: Users, m: Msg)
    ensures Apply(Apply(users, m), m) == Apply(users, m)
  {
    if m.Registered? && !Conflicts(users, m.id, m.email) {
      assert m.id in users[m.id := m.email];
    }
  }

  lemma ReplayedAfter(users: Users, log: seq<Msg>, m: Msg)
    ensures Replayed(users, log + [m]) == Apply(Replayed(users, log), m)
  {
    assert (log + [m])[..|log|] == log;
  }

  function Replayed(users: Users, log: seq<Msg>): Users {
    if log == [] then users else Apply(Replayed(users, log[..|log| - 1]), log[|log| - 1])
  }

  /** The users the log stands for: registered and not taken back. */
  function Standing(log: seq<Msg>): Users {
    if log == [] then map[]
    else
      var users := Standing(log[..|log| - 1]);
      match log[|log| - 1]
      case Registered(id, email) => users[id := email]
      case RegistrationFailed(id) => users - {id}
      case OtherEvent => users
  }

  ghost predicate RegisteredOnce(log: seq<Msg>) {
    forall i, j :: 0 <= i < j < |log| && log[i].Registered? && log[j].Registered? ==> log[i].id != log[j].id
  }

  lemma {:induction false} KnownFromLog(log: seq<Msg>, u: UserId)
    ensures u in Standing(log) ==> exists j :: 0 <= j < |log| && log[j] == Registered(u, Standing(log)[u])
    ensures u in Replayed(map[], log) ==> exists j :: 0 <= j < |log| && log[j] == Registered(u, Replayed(map[], log)[u])
  {
    if log != [] {
      var init := log[..|log| - 1];
      KnownFromLog(init, u);
      assert forall j :: 0 <= j < |init| ==> init[j] == log[j];
    }
  }

  /** A user whose insert was skipped for a taken email never gets in; one whose insert went through stays until taken
      back. */
  lemma {:induction false} PresentIffInserted(log: seq<Msg>, j: nat, n: nat)
    requires RegisteredOnce(log) && j < n <= |log| && log[j].Registered?
    ensures log[j].id in Standing(log[..n]) ==>
              (log[j].id in Replayed(map[], log[..n]) <==>
                      !Conflicts(Replayed(map[], log[..j]), log[j].id, log[j].email))
    ensures log[j].id in Replayed(map[], log[..n]) ==>
              log[j].id in Standing(log[..n])
                  && Standing(log[..n])[log[j].id] == log[j].email == Replayed(map[], log[..n])[log[j].id]
    decreases n
  {
    assert log[..n][..n - 1] == log[..n - 1];
    if n == j + 1 {
      KnownFromLog(log[..j], log[j].id);
    } else {
      PresentIffInserted(log, j, n - 1);
    }
  }

  /** The email of a standing registration was taken in the replica when its event arrived. */
  ghost predicate Shadowed(log: seq<Msg>, j: nat)
    requires j < |log|
  {
    log[j].Registered? && log[j].id in Standing(log) && Conflicts(Replayed(map[], log[..j]), log[j].id, log[j].email)
  }

  /** In-order consumption mirrors exactly the standing users if and only if no standing registration was shadowed. */
  lemma MirrorIffUnshadowed(log: seq<Msg>)
    requires RegisteredOnce(log)
    ensures Replayed(map[], log) == Standing(log) <==> forall j :: 0 <= j < |log| ==> !Shadowed(log, j)
  {
    assert log[..|log|] == log;
    forall j: nat | j < |log| && log[j].Registered? { PresentIffInserted(log, j, |log|); }
    if forall j :: 0 <= j < |log| ==> !Shadowed(log, j) {
      forall u
        ensures u in Standing(log) <==> u in Replayed(map[], log)
        ensures u in Standing(log) ==> Standing(log)[u] == Replayed(map[], log)[u]
      {
        KnownFromLog(log, u);
        if u in Standing(log) {
          var j :| 0 <= j < |log| && log[j] == Registered(u, Standing(log)[u]);
          assert !Shadowed(log, j);
        }
      }
    }
  }
}
