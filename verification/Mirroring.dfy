/** What each node's replica holds after any run of registrations whose events all nodes take from one queue. */
module Mirroring {
  import opened Replica
  import opened Registration

  // ---- The log ----

  /** Ids are used once, and the log knows every attempt and user under its own email. */
  ghost predicate IdsOk(s: State) {
    && RegisteredOnce(s.log)
    && (forall m :: m in s.log && m.Registered? ==> RegisteredOk(s, m))
    && (forall u :: RegistrationFailed(u) in s.log ==> u in s.used && u !in s.attempts)
    && (forall u :: u in s.users || u in s.attempts ==> u in s.used)
    && (forall u :: u in s.users && u in s.attempts ==>
            s.attempts[u].phase == Failed && s.attempts[u].email == s.users[u].email)
  }

  ghost predicate RegisteredOk(s: State, m: Msg)
    requires m.Registered?
  {
    && m.id in s.used
    && (m.id in s.attempts ==> Out(s.attempts[m.id]) && s.attempts[m.id].email == m.email)
    && (m.id in s.users ==> s.users[m.id].email == m.email)
  }

  lemma PublishKeepsIds(s: State, u: UserId, s': State)
    requires IdsOk(s) && Next(s, Publish(u, true), s')
    ensures IdsOk(s')
  {
    forall m | m in s'.log && m.Registered?
      ensures RegisteredOk(s', m)
    {
      if m != Registered(u, s.attempts[u].email) { assert m in s.log && RegisteredOk(s, m); }
    }
    assert RegisteredOnce(s'.log) by {
      forall m | m in s.log && m.Registered? ensures m.id != u { assert RegisteredOk(s, m); }
    }
  }

  lemma CompensateKeepsIds(s: State, u: UserId, s': State)
    requires IdsOk(s) && Next(s, Compensate(u, true), s')
    ensures IdsOk(s')
  {
    forall m | m in s'.log && m.Registered?
      ensures RegisteredOk(s', m)
    {
      assert m in s.log && RegisteredOk(s, m);
    }
  }

  lemma SilentStepKeepsRegistered(s: State, step: Step, s': State, m: Msg)
    requires Next(s, step, s') && s'.log == s.log && m.Registered? && RegisteredOk(s, m)
    ensures RegisteredOk(s', m)
  {}

  lemma SilentStepKeepsUsers(s: State, step: Step, s': State)
    requires IdsOk(s) && Next(s, step, s') && s'.log == s.log
    ensures forall u :: RegistrationFailed(u) in s'.log ==> u in s'.used && u !in s'.attempts
    ensures forall u :: u in s'.users || u in s'.attempts ==> u in s'.used
    ensures forall u :: u in s'.users && u in s'.attempts ==>
              s'.attempts[u].phase == Failed && s'.attempts[u].email == s'.users[u].email
  {}

  lemma SilentStepKeepsIds(s: State, step: Step, s': State)
    requires IdsOk(s) && Next(s, step, s') && s'.log == s.log
    ensures IdsOk(s')
  {
    SilentStepKeepsUsers(s, step, s');
    forall m | m in s'.log && m.Registered? { SilentStepKeepsRegistered(s, step, s', m); }
  }

  lemma StepKeepsIds(s: State, step: Step, s': State)
    requires IdsOk(s) && Next(s, step, s')
    ensures IdsOk(s')
  {
    if step.Publish? && step.ok {
      PublishKeepsIds(s, step.u, s');
    } else if step.Compensate? && step.ok {
      CompensateKeepsIds(s, step.u, s');
    } else {
      SilentStepKeepsIds(s, step, s');
    }
  }

  /** `u` stands exactly if it is committed, or its fate is open, and its event has not been taken back. */
  ghost predicate Accounts(s: State, u: UserId) {
    && (u in Standing(s.log) <==>
            RegistrationFailed(u) !in s.log && (u in s.users || (u in s.attempts && Out(s.attempts[u]))))
    && (u in Standing(s.log) ==> Registered(u, Standing(s.log)[u]) in s.log)
  }

  lemma StandingAfter(log: seq<Msg>, m: Msg)
    ensures m.Registered? ==> Standing(log + [m]) == Standing(log)[m.id := m.email]
    ensures m.RegistrationFailed? ==> Standing(log + [m]) == Standing(log) - {m.id}
    ensures m.OtherEvent? ==> Standing(log + [m]) == Standing(log)
  {
    assert (log + [m])[..|log|] == log;
  }

  lemma PublishAccounts(s: State, v: UserId, s': State, u: UserId)
    requires IdsOk(s) && Accounts(s, u) && Next(s, Publish(v, true), s')
    ensures Accounts(s', u)
  {
    StandingAfter(s.log, Registered(v, s.attempts[v].email));
    if u != v && u in Standing(s'.log) { assert Registered(u, Standing(s.log)[u]) in s'.log; }
  }

  lemma CompensateAccounts(s: State, v: UserId, s': State, u: UserId)
    requires IdsOk(s) && Accounts(s, u) && Next(s, Compensate(v, true), s')
    ensures Accounts(s', u)
  {
    StandingAfter(s.log, RegistrationFailed(v));
    assert RegistrationFailed(v) in s'.log;
    if u != v && u in Standing(s'.log) { assert Registered(u, Standing(s.log)[u]) in s'.log; }
  }

  lemma StepAccounts(s: State, step: Step, s': State, u: UserId)
    requires IdsOk(s) && Accounts(s, u) && Next(s, step, s') && Settles(s, step)
    ensures Accounts(s', u)
  {
    if step.Publish? && step.ok {
      PublishAccounts(s, step.u, s', u);
    } else if step.Compensate? {
      CompensateAccounts(s, step.u, s', u);
    }
  }

  lemma {:induction false} RunKeepsIds(regime: Regime, states: seq<State>, steps: seq<Step>, i: nat)
    requires IsRun(regime, states, steps) && i < |states|
    ensures IdsOk(states[i])
  {
    if i > 0 {
      RunKeepsIds(regime, states, steps, i - 1);
      StepKeepsIds(states[i - 1], steps[i - 1], states[i]);
    }
  }

  lemma {:induction false} RunAccounts(regime: Regime, states: seq<State>, steps: seq<Step>, i: nat, u: UserId)
    requires IsRun(regime, states, steps) && AllSettle(states, steps) && i < |states|
    ensures Accounts(states[i], u)
  {
    if i > 0 {
      RunAccounts(regime, states, steps, i - 1, u);
      RunKeepsIds(regime, states, steps, i - 1);
      StepAccounts(states[i - 1], steps[i - 1], states[i], u);
    }
  }

  /** The log stands for exactly the committed users, under their emails. */
  ghost predicate StandsForUsers(s: State) {
    && (forall u :: u in Standing(s.log) <==> u in s.users)
    && (forall u :: u in Standing(s.log) && u in s.users ==> Standing(s.log)[u] == s.users[u].email)
  }

  /** Once every attempt has settled, the log stands for the committed users, if and only if no committed user was taken
      back. */
  lemma StandsIffNoneTakenBack(regime: Regime, states: seq<State>, steps: seq<Step>, i: nat)
    requires IsRun(regime, states, steps) && AllSettle(states, steps) && i < |states| && states[i].attempts == map[]
    ensures StandsForUsers(states[i]) <==> forall u :: u in states[i].users ==> RegistrationFailed(u) !in states[i].log
  {
    var s := states[i];
    RunKeepsIds(regime, states, steps, i);
    forall u
      ensures Accounts(s, u)
      ensures u in Standing(s.log) && u in s.users ==> Standing(s.log)[u] == s.users[u].email
    {
      RunAccounts(regime, states, steps, i, u);
      if u in Standing(s.log) && u in s.users { assert RegisteredOk(s, Registered(u, Standing(s.log)[u])); }
    }
  }

  /** Users are taken back only where a refresh failed after its commit. */
  ghost predicate NoneTakenBack(s: State) {
    forall u :: u in s.users ==> u !in s.attempts && RegistrationFailed(u) !in s.log
  }

  lemma StepTakesNoneBack(s: State, step: Step, s': State)
    requires IdsOk(s) && NoneTakenBack(s) && Next(s, step, s') && !(step.FailCommit? && step.committed)
    ensures NoneTakenBack(s')
  {}

  lemma {:induction false} RunTakesNoneBack(regime: Regime, states: seq<State>, steps: seq<Step>, i: nat)
    requires !regime.lateFailures && IsRun(regime, states, steps) && i < |states|
    ensures NoneTakenBack(states[i])
  {
    if i > 0 {
      RunTakesNoneBack(regime, states, steps, i - 1);
      RunKeepsIds(regime, states, steps, i - 1);
      StepTakesNoneBack(states[i - 1], steps[i - 1], states[i]);
    }
  }

  // ---- Each node's replica is its share of the log, replayed ----

  /** The messages that the node applied, in order. */
  function Share(s: State, node: nat): seq<Msg> { Sub(s.log, GotBy(s, node)) }

  ghost predicate ReplicaOk(s: State, node: nat) {
    && s.head <= |s.log| && (forall k :: k in GotBy(s, node) ==> k <= s.head && k < |s.log|)
    && ReplicaOf(s, node) == Replayed(map[], Share(s, node))
  }

  lemma DeliveryKeepsReplica(s: State, node: nat)
    requires ReplicaOk(s, node) && s.head < |s.log|
    ensures Replayed(map[], Sub(s.log, GotBy(s, node) + {s.head})) == Apply(ReplicaOf(s, node), s.log[s.head])
  {
    var before := Sub(s.log[..s.head], GotBy(s, node));
    SubTakes(s.log, GotBy(s, node), s.head);
    ReplayedAfter(map[], before, s.log[s.head]);
    ApplyTwice(Replayed(map[], before), s.log[s.head]);
    if s.head !in GotBy(s, node) { assert before + [] == before; }
  }

  lemma LongerLogSameShare(log: seq<Msg>, m: Msg, got: set<nat>)
    requires forall k :: k in got ==> k < |log|
    ensures Sub(log + [m], got) == Sub(log, got)
  {
    SubIgnoresLater(log + [m], got, |log|, |log| + 1);
    assert (log + [m])[..|log|] == log && (log + [m])[..|log| + 1] == log + [m];
  }

  lemma PublicationKeepsReplica(s: State, m: Msg, s': State, node: nat)
    requires ReplicaOk(s, node) && s'.log == s.log + [m] && s'.head == s.head && s'.got == s.got
             && s'.replicas == s.replicas
    ensures ReplicaOk(s', node)
  {
    LongerLogSameShare(s.log, m, GotBy(s, node));
  }

  lemma DeliverKeepsReplica(s: State, n: nat, dbWorks: bool, acked: bool, s': State, node: nat)
    requires ReplicaOk(s, node) && Next(s, Deliver(n, dbWorks, acked), s')
    ensures ReplicaOk(s', node)
  {
    if dbWorks && n == node { DeliveryKeepsReplica(s, node); }
  }

  lemma StepKeepsReplica(s: State, step: Step, s': State, node: nat)
    requires ReplicaOk(s, node) && Next(s, step, s')
    ensures ReplicaOk(s', node)
  {
    if step.Deliver? {
      DeliverKeepsReplica(s, step.node, step.dbWorks, step.acked, s', node);
    } else if s'.log != s.log {
      PublicationKeepsReplica(s, s'.log[|s.log|], s', node);
    }
  }

  lemma {:induction false} RunKeepsReplica(regime: Regime, states: seq<State>, steps: seq<Step>, i: nat, node: nat)
    requires IsRun(regime, states, steps) && i < |states|
    ensures ReplicaOk(states[i], node)
  {
    if i > 0 {
      RunKeepsReplica(regime, states, steps, i - 1, node);
      StepKeepsReplica(states[i - 1], steps[i - 1], states[i], node);
    }
  }

  // ---- When a replica mirrors what it was told ----

  ghost predicate Received(s: State, node: nat, u: UserId) {
    exists m :: m in Share(s, node) && m.Registered? && m.id == u
  }

  /** The replica holds exactly the committed users whose registration it received, under their emails. */
  ghost predicate Mirrors(s: State, node: nat) {
    && (forall u :: u in ReplicaOf(s, node) <==> u in s.users && Received(s, node, u))
    && (forall u :: u in ReplicaOf(s, node) && u in s.users ==> ReplicaOf(s, node)[u] == s.users[u].email)
  }

  /** The email of registration `j` of the share was taken in the replica when its event arrived. */
  ghost predicate SkippedAt(share: seq<Msg>, j: nat)
    requires j < |share| && share[j].Registered?
  {
    Conflicts(Replayed(map[], share[..j]), share[j].id, share[j].email)
  }

  lemma PresentInShare(share: seq<Msg>, j: nat)
    requires RegisteredOnce(share) && j < |share| && share[j].Registered?
    ensures share[j].id in Replayed(map[], share) <==> share[j].id in Standing(share) && !SkippedAt(share, j)
    ensures share[j].id in Replayed(map[], share) ==> Replayed(map[], share)[share[j].id] == share[j].email
  {
    assert share[..|share|] == share;
    PresentIffInserted(share, j, |share|);
  }

  /** Over every run, with crashes, lost events and failures of any kind: a replica mirrors the committed users it
      received, if and only if each registration it received is committed exactly when it was inserted on arrival and
      not taken back there. */
  lemma MirrorsIff(regime: Regime, states: seq<State>, steps: seq<Step>, i: nat, node: nat)
    requires IsRun(regime, states, steps) && i < |states|
    ensures var share := Share(states[i], node);
            Mirrors(states[i], node) <==>
              forall j :: 0 <= j < |share| && share[j].Registered? ==>
                (share[j].id in states[i].users <==> share[j].id in Standing(share) && !SkippedAt(share, j))
  {
    var s, share := states[i], Share(states[i], node);
    RunKeepsIds(regime, states, steps, i);
    RunKeepsReplica(regime, states, steps, i, node);
    SubRegistersOnce(s.log, GotBy(s, node));
    forall j: nat | j < |share| && share[j].Registered?
      ensures share[j].id in ReplicaOf(s, node) <==> share[j].id in Standing(share) && !SkippedAt(share, j)
      ensures Received(s, node, share[j].id)
      ensures share[j].id in ReplicaOf(s, node) ==> ReplicaOf(s, node)[share[j].id] == share[j].email
      ensures share[j].id in s.users ==> s.users[share[j].id].email == share[j].email
    {
      PresentInShare(share, j);
      SubComesFromLog(s.log, GotBy(s, node), share[j]);
      assert RegisteredOk(s, share[j]);
    }
    forall u | u in ReplicaOf(s, node) || Received(s, node, u)
      ensures exists j :: 0 <= j < |share| && share[j].Registered? && share[j].id == u
    {
      KnownFromLog(share, u);
    }
  }

  // ---- The conditions, spelled out ----

  /** The registration at `j` of the log was applied by a node that did not apply its compensation. */
  ghost predicate MissesCompensation(s: State, node: nat, u: UserId) {
    Received(s, node, u) && RegistrationFailed(u) in s.log && RegistrationFailed(u) !in Share(s, node)
  }

  /** In a log, a compensation comes after the registration that it takes back. */
  ghost predicate Ordered(log: seq<Msg>) {
    forall i, j :: 0 <= i < j < |log| && log[j].Registered? ==> log[i] != RegistrationFailed(log[j].id)
  }

  lemma StepKeepsOrdered(s: State, step: Step, s': State)
    requires IdsOk(s) && Ordered(s.log) && Next(s, step, s')
    ensures Ordered(s'.log)
  {
    if step.Publish? && step.ok && RegistrationFailed(step.u) in s.log { assert false; }
  }

  lemma {:induction false} RunKeepsOrdered(regime: Regime, states: seq<State>, steps: seq<Step>, i: nat)
    requires IsRun(regime, states, steps) && i < |states|
    ensures Ordered(states[i].log)
  {
    if i > 0 {
      RunKeepsOrdered(regime, states, steps, i - 1);
      RunKeepsIds(regime, states, steps, i - 1);
      StepKeepsOrdered(states[i - 1], steps[i - 1], states[i]);
    }
  }

  lemma {:induction false} SubKeepsOrder(log: seq<Msg>, got: set<nat>)
    requires Ordered(log)
    ensures Ordered(Sub(log, got))
  {
    if log != [] {
      var init, last := log[..|log| - 1], log[|log| - 1];
      var before := Sub(init, got);
      assert Ordered(init);
      SubKeepsOrder(init, got);
      forall i | 0 <= i < |before| && last.Registered?
        ensures before[i] != RegistrationFailed(last.id)
      {
        SubComesFromLog(init, got, before[i]);
        assert before[i] in init;
      }
    }
  }

  /** In an ordered log, whoever registered stands exactly if it is not taken back. */
  lemma {:induction false} StandsIffNotTakenBack(log: seq<Msg>, u: UserId)
    requires Ordered(log)
    ensures u in Standing(log) <==>
          (exists m :: m in log && m.Registered? && m.id == u) && RegistrationFailed(u) !in log
  {
    if log != [] {
      var init, last := log[..|log| - 1], log[|log| - 1];
      StandsIffNotTakenBack(init, u);
      assert log == init + [last];
      assert last in log;
      if m :| m in init && m.Registered? && m.id == u { assert m in log; }
    }
  }

  /** With all attempts settled and no refresh failing after its commit, a replica mirrors the committed users it
      received, if and only if none of them was skipped on arrival, and no registration that it inserted lacks the
      compensation it was due. */
  lemma SettledMirrorsIff(regime: Regime, states: seq<State>, steps: seq<Step>, i: nat, node: nat)
    requires !regime.lateFailures && IsRun(regime, states, steps) && AllSettle(states, steps)
    requires i < |states| && states[i].attempts == map[]
    ensures var s, share := states[i], Share(states[i], node);
            Mirrors(s, node) <==>
              forall j :: 0 <= j < |share| && share[j].Registered? ==>
                if share[j].id in s.users then !SkippedAt(share, j)
                else SkippedAt(share, j) || !MissesCompensation(s, node, share[j].id)
  {
    var s, share := states[i], Share(states[i], node);
    MirrorsIff(regime, states, steps, i, node);
    RunTakesNoneBack(regime, states, steps, i);
    RunKeepsOrdered(regime, states, steps, i);
    SubKeepsOrder(s.log, GotBy(s, node));
    forall j: nat | j < |share| && share[j].Registered?
      ensures share[j].id in Standing(share) <==> RegistrationFailed(share[j].id) !in share
      ensures share[j].id in s.users ==> share[j].id in Standing(share)
      ensures share[j].id !in s.users ==> (share[j].id in Standing(share) <==> MissesCompensation(s, node, share[j].id))
    {
      SettledShare(regime, states, steps, i, node, j);
    }
  }

  lemma SettledShare(regime: Regime, states: seq<State>, steps: seq<Step>, i: nat, node: nat, j: nat)
    requires !regime.lateFailures && IsRun(regime, states, steps) && AllSettle(states, steps)
    requires i < |states| && states[i].attempts == map[] && Ordered(states[i].log) && Ordered(Share(states[i], node))
    requires NoneTakenBack(states[i])
    requires j < |Share(states[i], node)| && Share(states[i], node)[j].Registered?
    ensures var s, share := states[i], Share(states[i], node);
            var u := share[j].id;
            && (u in Standing(share) <==> RegistrationFailed(u) !in share)
            && (u in s.users ==> u in Standing(share))
            && (u !in s.users ==> (u in Standing(share) <==> MissesCompensation(s, node, u)))
  {
    var s, share := states[i], Share(states[i], node);
    var u := share[j].id;
    assert share[j] in share;
    StandsIffNotTakenBack(share, u);
    StandsIffNotTakenBack(s.log, u);
    SubComesFromLog(s.log, GotBy(s, node), share[j]);
    SubComesFromLog(s.log, GotBy(s, node), RegistrationFailed(u));
    assert share[j] in s.log;
    RunAccounts(regime, states, steps, i, u);
  }

  // ---- When nothing overtakes a compensation ----

  /** The step publishes an email while a failed registration of the same email still waits for its
      compensating event. */
  ghost predicate Overtakes(s: State, step: Step) {
    step.Publish? && step.ok && step.u in s.attempts
    && exists v :: v in s.attempts && s.attempts[v].phase == Failed && s.attempts[v].email == s.attempts[step.u].email
  }

  ghost predicate NoneOvertakes(states: seq<State>, steps: seq<Step>) {
    |states| == |steps| + 1 && forall i :: 0 <= i < |steps| ==> !Overtakes(states[i], steps[i])
  }

  /** Every registration entered the log when its email was free there. */
  ghost predicate Fresh(log: seq<Msg>) {
    forall j :: 0 <= j < |log| && log[j].Registered? ==> !Conflicts(Standing(log[..j]), log[j].id, log[j].email)
  }

  /** Whoever stands for the email of a checked attempt would hold the same claim, unless its compensation is
      still due. */
  lemma EmailIsFree(s: State, u: UserId)
    requires ClaimInv(s) && IdsOk(s) && u in s.attempts && s.attempts[u].phase == Checked
             && !Overtakes(s, Publish(u, true))
    requires forall w :: Accounts(s, w)
    ensures !Conflicts(Standing(s.log), u, s.attempts[u].email)
  {
    var e := s.attempts[u].email;
    assert Accounts(s, u) && Holds(s, u, Lower(e));
    forall w | w in Standing(s.log) && Standing(s.log)[w] == e
      ensures false
    {
      assert Accounts(s, w) && RegisteredOk(s, Registered(w, e));
      if w in s.users || s.attempts[w].phase != Failed { assert Holds(s, w, Lower(e)); }
    }
  }

  lemma FreshGrows(log: seq<Msg>, m: Msg)
    requires Fresh(log) && (m.Registered? ==> !Conflicts(Standing(log), m.id, m.email))
    ensures Fresh(log + [m])
  {
    forall j | 0 <= j < |log + [m]| && (log + [m])[j].Registered?
      ensures !Conflicts(Standing((log + [m])[..j]), (log + [m])[j].id, (log + [m])[j].email)
    {
      assert (log + [m])[..j] == log[..j];
      assert log[..|log|] == log;
    }
  }

  lemma {:induction false} RunKeepsFresh(states: seq<State>, steps: seq<Step>, i: nat)
    requires IsRun(Regime(false, false), states, steps) && AllSettle(states, steps) && NoneOvertakes(states, steps)
             && i < |states|
    ensures Fresh(states[i].log)
  {
    if i > 0 {
      RunKeepsFresh(states, steps, i - 1);
      var s := states[i - 1];
      match steps[i - 1]
      case Publish(u, ok) =>
        if ok {
          RunKeepsClaims(states, steps, i - 1);
          RunKeepsIds(Regime(false, false), states, steps, i - 1);
          forall w ensures Accounts(s, w) { RunAccounts(Regime(false, false), states, steps, i - 1, w); }
          EmailIsFree(s, u);
          FreshGrows(s.log, Registered(u, s.attempts[u].email));
        }
      case Compensate(u, ok) => FreshGrows(s.log, RegistrationFailed(u));
      case _ =>
    }
  }

  /** Whoever applied a registration also applied its compensation. */
  ghost predicate Together(log: seq<Msg>, got: set<nat>) {
    forall j, k :: 0 <= j < |log| && 0 <= k < |log| && j in got && log[j].Registered? ==>
      log[k] == RegistrationFailed(log[j].id) ==> k in got
  }

  /** A message that a node did not apply takes nobody back who stands in its share. */
  lemma UnheardKeepsStanding(log: seq<Msg>, got: set<nat>, n: nat, u: UserId)
    requires RegisteredOnce(log) && Together(log, got) && n < |log| && n !in got && u in Standing(Sub(log[..n], got))
    ensures log[n] != RegistrationFailed(u) && (log[n].Registered? ==> log[n].id != u)
  {
    KnownFromLog(Sub(log[..n], got), u);
    SubComesFromLog(log[..n], got, Registered(u, Standing(Sub(log[..n], got))[u]));
  }

  lemma {:induction false} ShareStandsInLog(log: seq<Msg>, got: set<nat>, n: nat, u: UserId)
    requires RegisteredOnce(log) && Together(log, got) && n <= |log| && u in Standing(Sub(log[..n], got))
    ensures u in Standing(log[..n]) && Standing(log[..n])[u] == Standing(Sub(log[..n], got))[u]
  {
    if n > 0 {
      var init, last, share := log[..n - 1], log[n - 1], Sub(log[..n - 1], got);
      SubGrows(log, got, n - 1);
      assert log[..n] == init + [last] && share + [] == share;
      StandingAfter(init, last);
      StandingAfter(share, last);
      if u in Standing(share) { ShareStandsInLog(log, got, n - 1, u); }
      if n - 1 !in got { UnheardKeepsStanding(log, got, n - 1, u); }
    }
  }

  lemma NextIsInserted(log: seq<Msg>, got: set<nat>, n: nat)
    requires RegisteredOnce(log) && Fresh(log) && Together(log, got) && n < |log| && log[n].Registered?
    ensures !Conflicts(Standing(Sub(log[..n], got)), log[n].id, log[n].email)
  {
    var share := Sub(log[..n], got);
    forall w | w in Standing(share)
      ensures w != log[n].id && Standing(share)[w] != log[n].email
    {
      ShareStandsInLog(log, got, n, w);
    }
  }

  /** A share of a fresh log that keeps compensations with their registrations is replayed without a single skip. */
  lemma {:induction false} NothingIsSkipped(log: seq<Msg>, got: set<nat>, n: nat)
    requires RegisteredOnce(log) && Fresh(log) && Together(log, got) && n <= |log|
    ensures Replayed(map[], Sub(log[..n], got)) == Standing(Sub(log[..n], got))
  {
    if n > 0 {
      var last, share := log[n - 1], Sub(log[..n - 1], got);
      NothingIsSkipped(log, got, n - 1);
      SubGrows(log, got, n - 1);
      assert share + [] == share;
      StandingAfter(share, last);
      ReplayedAfter(map[], share, last);
      if last.Registered? { NextIsInserted(log, got, n - 1); }
    }
  }

  /** Without expiring claims and late failures, if no publication overtakes a compensation due for the same email, then
      a replica whose node applied compensations with their registrations never skips one; with all attempts settled, it
      mirrors the committed users it received. */
  lemma MirrorsUnlessOvertaken(states: seq<State>, steps: seq<Step>, i: nat, node: nat)
    requires IsRun(Regime(false, false), states, steps) && AllSettle(states, steps) && NoneOvertakes(states, steps)
             && i < |states|
    requires Together(states[i].log, GotBy(states[i], node))
    ensures ReplicaOf(states[i], node) == Standing(Share(states[i], node))
    ensures states[i].attempts == map[] ==> Mirrors(states[i], node)
  {
    var s, share := states[i], Share(states[i], node);
    RunKeepsIds(Regime(false, false), states, steps, i);
    RunKeepsFresh(states, steps, i);
    RunKeepsReplica(Regime(false, false), states, steps, i, node);
    NothingIsSkipped(s.log, GotBy(s, node), |s.log|);
    assert s.log[..|s.log|] == s.log;
    if s.attempts == map[] {
      SettledMirrorsIff(Regime(false, false), states, steps, i, node);
      SubRegistersOnce(s.log, GotBy(s, node));
      forall j: nat | j < |share| && share[j].Registered?
        ensures if share[j].id in s.users then !SkippedAt(share, j) else !MissesCompensation(s, node, share[j].id)
      {
        MirrorConditions(states, steps, i, node, j);
      }
    }
  }

  lemma MirrorConditions(states: seq<State>, steps: seq<Step>, i: nat, node: nat, j: nat)
    requires IsRun(Regime(false, false), states, steps) && AllSettle(states, steps) && i < |states|
             && states[i].attempts == map[]
    requires Together(states[i].log, GotBy(states[i], node)) && RegisteredOnce(Share(states[i], node))
             && IdsOk(states[i])
    requires Replayed(map[], Share(states[i], node)) == Standing(Share(states[i], node))
    requires j < |Share(states[i], node)| && Share(states[i], node)[j].Registered?
    ensures var share := Share(states[i], node);
            if share[j].id in states[i].users then !SkippedAt(share, j)
                else !MissesCompensation(states[i], node, share[j].id)
  {
    var s, share := states[i], Share(states[i], node);
    RunTakesNoneBack(Regime(false, false), states, steps, i);
    RunKeepsOrdered(Regime(false, false), states, steps, i);
    SubKeepsOrder(s.log, GotBy(s, node));
    SettledShare(Regime(false, false), states, steps, i, node, j);
    PresentInShare(share, j);
    SubComesFromLog(s.log, GotBy(s, node), share[j]);
    SubComesFromLog(s.log, GotBy(s, node), RegistrationFailed(share[j].id));
  }

  // ---- What can go wrong ----

  lemma DeliverNext(regime: Regime, states: seq<State>, steps: seq<Step>, node: nat)
      returns (states': seq<State>, steps': seq<Step>)
    requires IsRun(regime, states, steps) && states[|steps|].head < |states[|steps|].log|
    ensures IsRun(regime, states', steps') && (AllSettle(states, steps) ==> AllSettle(states', steps'))
    ensures states'[|steps'|] == Delivered(states[|steps|], node).(head := states[|steps|].head + 1)
  {
    var s := states[|steps|];
    RunGoesOn(regime, states, steps, Deliver(node, true, true), Delivered(s, node).(head := s.head + 1));
    states', steps' := states + [Delivered(s, node).(head := s.head + 1)], steps + [Deliver(node, true, true)];
  }

  lemma FailsAndCompensates(regime: Regime, states: seq<State>, steps: seq<Step>, u: UserId, committed: bool)
    returns (states': seq<State>, steps': seq<Step>)
    requires IsRun(regime, states, steps) && AllSettle(states, steps)
             && (committed ==> regime.lateFailures && states[|steps|].users == map[])
    requires var s := states[|steps|]; u in s.attempts && s.attempts[u].phase == Published && s.attempts.Keys == {u}
    ensures IsRun(regime, states', steps') && AllSettle(states', steps') && states'[|steps'|].attempts == map[]
    ensures var s, s' := states[|steps|], states'[|steps'|];
            && s'.users == (if committed then WithUser(s, u).users else s.users)
                 && s'.log == s.log + [RegistrationFailed(u)]
            && s'.head == s.head && s'.got == s.got && s'.replicas == s.replicas
  {
    var s := states[|steps|];
    var failed := AtPhase(Unclaimed(if committed then WithUser(s, u) else s, s.attempts[u].email), u, Failed);
    RunGoesOn(regime, states, steps, FailCommit(u, committed), failed);
    states', steps' := states + [failed], steps + [FailCommit(u, committed)];
    var settled := failed.(log := s.log + [RegistrationFailed(u)], attempts := failed.attempts - {u});
    RunGoesOn(regime, states', steps', Compensate(u, true), settled);
    states', steps' := states' + [settled], steps' + [Compensate(u, true)];
  }

  /** A refresh fails after its commit: the committed user is taken back from every replica that hears of it. */
  lemma CommittedUserIsTakenBack(regime: Regime) returns (states: seq<State>, steps: seq<Step>)
    requires regime.lateFailures
    ensures IsRun(regime, states, steps) && AllSettle(states, steps) && states[|steps|].attempts == map[]
    ensures !StandsForUsers(states[|steps|])
  {
    states, steps := Publishes(regime, [Init()], [], 0, 0, EMAIL);
    states, steps := FailsAndCompensates(regime, states, steps, 0, true);
    assert 0 in states[|steps|].users;
    StandsIffNoneTakenBack(regime, states, steps, |steps|);
  }

  /** The two nodes share the queue: one applies the registration, the other its compensation, and the first keeps a
      user that nobody committed. */
  lemma SplitQueueKeepsGhostUser(regime: Regime) returns (states: seq<State>, steps: seq<Step>)
    ensures IsRun(regime, states, steps) && AllSettle(states, steps) && states[|steps|].attempts == map[]
    ensures states[|steps|].head == |states[|steps|].log| && states[|steps|].users == map[]
            && ReplicaOf(states[|steps|], 1) == map[0 := EMAIL]
  {
    states, steps := Publishes(regime, [Init()], [], 0, 0, EMAIL);
    states, steps := DeliverNext(regime, states, steps, 1);
    states, steps := FailsAndCompensates(regime, states, steps, 0, false);
    states, steps := DeliverNext(regime, states, steps, 0);
  }

  /** The claim is given up before the compensating event is published: another registration of the same email commits,
      and gets its event in between. */
  lemma RetryCommits(regime: Regime) returns (states: seq<State>, steps: seq<Step>)
    ensures IsRun(regime, states, steps) && AllSettle(states, steps)
    ensures var s := states[|steps|];
            && s.attempts == map[0 := Attempt(0, EMAIL, Failed)] && s.users == map[1 := User(0, EMAIL)]
            && s.log == [Registered(0, EMAIL), Registered(1, EMAIL)] && s.head == 0 && s.got == map[]
                 && s.replicas == map[]
  {
    states, steps := Publishes(regime, [Init()], [], 0, 0, EMAIL);
    var failed := AtPhase(Unclaimed(states[|steps|], EMAIL), 0, Failed);
    RunGoesOn(regime, states, steps, FailCommit(0, false), failed);
    states, steps := states + [failed], steps + [FailCommit(0, false)];
    states, steps := Publishes(regime, states, steps, 1, 0, EMAIL);
    var committed := WithUser(states[|steps|], 1).(attempts := states[|steps|].attempts - {1});
    RunGoesOn(regime, states, steps, Commit(1), committed);
    states, steps := states + [committed], steps + [Commit(1)];
  }

  /** A node that applies that whole log skips the second registration, and the committed user is missing there for
      good. */
  lemma RetryOvertakesCompensation(regime: Regime) returns (states: seq<State>, steps: seq<Step>)
    ensures IsRun(regime, states, steps) && AllSettle(states, steps) && states[|steps|].attempts == map[]
    ensures var s := states[|steps|];
            s.head == |s.log| && GotBy(s, 1) == {0, 1, 2} && 1 in s.users && 1 !in ReplicaOf(s, 1)
  {
    states, steps := RetryCommits(regime);
    var s := states[|steps|];
    var settled := s.(log := s.log + [RegistrationFailed(0)], attempts := s.attempts - {0});
    RunGoesOn(regime, states, steps, Compensate(0, true), settled);
    states, steps := states + [settled], steps + [Compensate(0, true)];
    states, steps := DeliverNext(regime, states, steps, 1);
    assert 0 in ReplicaOf(states[|steps|], 1);
    states, steps := DeliverNext(regime, states, steps, 1);
    assert ReplicaOf(states[|steps|], 1) == map[0 := EMAIL];
    states, steps := DeliverNext(regime, states, steps, 1);
  }
}
