/** Registration on several nodes: a global email claim, publication before commit, and a compensating event. */
module Registration {
  import opened Replica

  function LowerChar(c: char): char {
    if 'A' <= c <= 'Z' then (c - 'A') + 'a' else c
  }

  function Lower(s: string): string { seq(|s|, i requires 0 <= i < |s| => LowerChar(s[i])) }

  /** The two cases of one letter. */
  predicate CasePair(upper: char, lower: char) {
    'A' <= upper <= 'Z' && 'a' <= lower <= 'z' && upper as int - 'A' as int == lower as int - 'a' as int
  }

  predicate SameLetter(c: char, d: char) { c == d || CasePair(c, d) || CasePair(d, c) }

  predicate SameUpToCase(s: string, t: string) {
    |s| == |t| && forall i :: 0 <= i < |s| ==> SameLetter(s[i], t[i])
  }

  lemma LowerCharIffSame(c: char, d: char)
    ensures LowerChar(c) == LowerChar(d) <==> SameLetter(c, d)
    ensures LowerChar(LowerChar(c)) == LowerChar(c)
  {}

  /** Two emails claim the same key exactly if they differ in case at most. */
  lemma LowerIffSame(s: string, t: string)
    ensures Lower(s) == Lower(t) <==> SameUpToCase(s, t)
    ensures Lower(Lower(s)) == Lower(s)
  {
    forall i | 0 <= i < |s| && i < |t| { LowerCharIffSame(s[i], t[i]); }
    forall i | 0 <= i < |s| { LowerCharIffSame(s[i], s[i]); }
    if Lower(s) == Lower(t) {
      forall i | 0 <= i < |s|
        ensures SameLetter(s[i], t[i])
      {
        assert Lower(s)[i] == Lower(t)[i];
      }
    }
  }

  datatype Phase = Claimed | Checked | Published | Failed

  datatype Attempt = Attempt(node: nat, email: string, phase: Phase)

  datatype User = User(node: nat, email: string)

  /** `claims` is the shared store, `users` the committed rows of every node's own table, `log` the replication events
      in publication order. All nodes consume one queue: `head` is its first unacknowledged message, `got` the positions
      of the messages that each node applied, `replicas` what it mirrors. `used` are the user ids handed out. */
  datatype State = State(claims: set<string>, attempts: map<UserId, Attempt>, users: map<UserId, User>, log: seq<Msg>,
                         head: nat,
                         got: map<nat, set<nat>>, replicas: map<nat, Users>, used: set<UserId>)

  datatype Step =
    | Claim(u: UserId, node: nat, email: string)
    | CheckReplica(u: UserId)
    | Publish(u: UserId, ok: bool)
    | Commit(u: UserId)
    | FailCommit(u: UserId, committed: bool)
    | Compensate(u: UserId, ok: bool)
    | Crash(u: UserId)
    | Deliver(node: nat, dbWorks: bool, acked: bool)
    | Expire(key: string)

  function ReplicaOf(s: State, node: nat): Users { if node in s.replicas then s.replicas[node] else map[] }

  function GotBy(s: State, node: nat): set<nat> { if node in s.got then s.got[node] else {} }

  /** The node's own table has no row with this email, which is unique there. */
  ghost predicate Free(s: State, node: nat, email: string) {
    forall w :: w in s.users && s.users[w].node == node ==> s.users[w].email != email
  }

  function AtPhase(s: State, u: UserId, phase: Phase): State
    requires u in s.attempts
  {
    s.(attempts := s.attempts[u := s.attempts[u].(phase := phase)])
  }

  function WithUser(s: State, u: UserId): State
    requires u in s.attempts
  {
    s.(users := s.users[u := User(s.attempts[u].node, s.attempts[u].email)])
  }

  function Unclaimed(s: State, email: string): State { s.(claims := s.claims - {Lower(email)}) }

  ghost predicate Next(s: State, step: Step, s': State) {
    match step
    case Claim(u, node, email) =>
      && u !in s.used
      && s' == (if Lower(email) in s.claims then s.(used := s.used + {u}) else
                s.(claims := s.claims + {Lower(email)}, attempts := s.attempts[u := Attempt(node, email, Claimed)],
                   used := s.used + {u}))
    case CheckReplica(u) =>
      && u in s.attempts && s.attempts[u].phase == Claimed
      && s' == (if s.attempts[u].email in ReplicaOf(s, s.attempts[u].node).Values
                then Unclaimed(s, s.attempts[u].email).(attempts := s.attempts - {u}) else AtPhase(s, u, Checked))
    case Publish(u, ok) =>
      && u in s.attempts && s.attempts[u].phase == Checked
      && s' == (if ok then AtPhase(s, u, Published).(log := s.log + [Registered(u, s.attempts[u].email)])
                else s.(attempts := s.attempts - {u}))
    case Commit(u) =>
      && u in s.attempts && s.attempts[u].phase == Published && Free(s, s.attempts[u].node, s.attempts[u].email)
      && s' == WithUser(s, u).(attempts := s.attempts - {u})
    // The commit raises, or it succeeds and the refresh after it raises: both are handled as a failed commit.
    case FailCommit(u, committed) =>
      && u in s.attempts && s.attempts[u].phase == Published
      && (committed ==> Free(s, s.attempts[u].node, s.attempts[u].email))
      && s' == AtPhase(Unclaimed(if committed then WithUser(s, u) else s, s.attempts[u].email), u, Failed)
    case Compensate(u, ok) =>
      && u in s.attempts && s.attempts[u].phase == Failed
      && s' == s.(log := if ok then s.log + [RegistrationFailed(u)] else s.log, attempts := s.attempts - {u})
    case Crash(u) =>
      u in s.attempts && s' == s.(attempts := s.attempts - {u})
    // The head of the queue goes to some node; without an acknowledgement it is delivered again, to that node or
    // another.
    case Deliver(node, dbWorks, acked) =>
      && s.head < |s.log|
      && s' == (if dbWorks then Delivered(s, node) else s).(head := if acked then s.head + 1 else s.head)
    case Expire(key) =>
      s' == s.(claims := s.claims - {key})
  }

  function Delivered(s: State, node: nat): State
    requires s.head < |s.log|
  {
    s.(replicas := s.replicas[node := Apply(ReplicaOf(s, node), s.log[s.head])],
       got := s.got[node := GotBy(s, node) + {s.head}])
  }

  function Init(): State { State({}, map[], map[], [], 0, map[], map[], {}) }

  /** Whether claims can run out, as they do after 24 hours, and whether a refresh can fail after its commit. */
  datatype Regime = Regime(claimsExpire: bool, lateFailures: bool)

  predicate Allowed(regime: Regime, step: Step) {
    && (step.Expire? ==> regime.claimsExpire)
    && (step.FailCommit? && step.committed ==> regime.lateFailures)
  }

  ghost predicate IsRun(regime: Regime, states: seq<State>, steps: seq<Step>) {
    && |states| == |steps| + 1 && states[0] == Init()
    && forall i :: 0 <= i < |steps| ==> Next(states[i], steps[i], states[i + 1]) && Allowed(regime, steps[i])
  }

  /** The event of the attempt is out, and not taken back. */
  predicate Out(a: Attempt) { a.phase == Published || a.phase == Failed }

  /** Nobody crashes between publishing and settling, and every compensating event gets out. */
  ghost predicate Settles(s: State, step: Step) {
    (step.Crash? && step.u in s.attempts ==> !Out(s.attempts[step.u])) && (step.Compensate? ==> step.ok)
  }

  ghost predicate AllSettle(states: seq<State>, steps: seq<Step>) {
    |states| == |steps| + 1 && forall i :: 0 <= i < |steps| ==> Settles(states[i], steps[i])
  }

  lemma RunGoesOn(regime: Regime, states: seq<State>, steps: seq<Step>, step: Step, s': State)
    requires IsRun(regime, states, steps) && Next(states[|steps|], step, s') && Allowed(regime, step)
    ensures IsRun(regime, states + [s'], steps + [step])
    ensures AllSettle(states, steps) && Settles(states[|steps|], step) ==> AllSettle(states + [s'], steps + [step])
  {}

  // ---- One user per email ----

  /** The attempt or user that stands behind a claim. */
  ghost predicate Holds(s: State, u: UserId, key: string) {
    || (u in s.users && Lower(s.users[u].email) == key)
    || (u in s.attempts && s.attempts[u].phase != Failed && Lower(s.attempts[u].email) == key)
  }

  ghost predicate ClaimInv(s: State) {
    && (forall u, key :: Holds(s, u, key) ==> key in s.claims)
    && (forall u, v, key :: Holds(s, u, key) && Holds(s, v, key) ==> u == v)
    && (forall u :: u in s.attempts ==> u in s.used && u !in s.users)
    && (forall u :: u in s.users ==> u in s.used)
  }

  ghost predicate OneUserPerEmail(s: State) {
    forall u, v :: u in s.users && v in s.users && SameUpToCase(s.users[u].email, s.users[v].email) ==> u == v
  }

  lemma StepKeepsClaims(s: State, step: Step, s': State)
    requires ClaimInv(s) && Next(s, step, s') && Allowed(Regime(false, false), step)
    ensures ClaimInv(s')
  {
    forall u, key | Holds(s', u, key)
      ensures Holds(s, u, key) || (step.Claim? && step.u == u && key !in s.claims && key == Lower(step.email))
      ensures key in s'.claims
    {
      if step.CheckReplica? || step.FailCommit? {
        assert Holds(s, step.u, Lower(s.attempts[step.u].email));
      }
    }
  }

  lemma {:induction false} RunKeepsClaims(states: seq<State>, steps: seq<Step>, i: nat)
    requires IsRun(Regime(false, false), states, steps) && i < |states|
    ensures ClaimInv(states[i])
  {
    if i > 0 {
      RunKeepsClaims(states, steps, i - 1);
      StepKeepsClaims(states[i - 1], steps[i - 1], states[i]);
    }
  }

  ghost predicate AlwaysOneUser(regime: Regime) {
    forall states: seq<State>, steps: seq<Step>, i: nat :: IsRun(regime, states, steps) && i < |states|
        ==> OneUserPerEmail(states[i])
  }

  /** An undisturbed registration up to its publication goes on from any run. */
  lemma Publishes(regime: Regime, states: seq<State>, steps: seq<Step>, u: UserId, node: nat, e: string)
    returns (states': seq<State>, steps': seq<Step>)
    requires IsRun(regime, states, steps)
    requires var s := states[|steps|]; u !in s.used && Lower(e) !in s.claims && e !in ReplicaOf(s, node).Values
    ensures IsRun(regime, states', steps') && (AllSettle(states, steps) ==> AllSettle(states', steps'))
    ensures var s := states[|steps|];
            states'[|steps'|] == s.(claims := s.claims + {Lower(e)},
                                    attempts := s.attempts[u := Attempt(node, e, Published)],
                                    log := s.log + [Registered(u, e)], used := s.used + {u})
  {
    var s := states[|steps|];
    var claimed := s.(claims := s.claims + {Lower(e)}, attempts := s.attempts[u := Attempt(node, e, Claimed)],
                      used := s.used + {u});
    RunGoesOn(regime, states, steps, Claim(u, node, e), claimed);
    states', steps' := states + [claimed], steps + [Claim(u, node, e)];
    var checked := AtPhase(claimed, u, Checked);
    RunGoesOn(regime, states', steps', CheckReplica(u), checked);
    states', steps' := states' + [checked], steps' + [CheckReplica(u)];
    var published := AtPhase(checked, u, Published).(log := s.log + [Registered(u, e)]);
    RunGoesOn(regime, states', steps', Publish(u, true), published);
    states', steps' := states' + [published], steps' + [Publish(u, true)];
    assert published.attempts == s.attempts[u := Attempt(node, e, Published)];
  }

  /** Two registrations of one email commit on different nodes if the first one's claim has gone. */
  lemma SecondCommits(regime: Regime, states: seq<State>, steps: seq<Step>, e: string)
    returns (states': seq<State>, steps': seq<Step>)
    requires IsRun(regime, states, steps)
    requires var s := states[|steps|];
             s.users == map[0 := User(0, e)] && 1 !in s.used && Lower(e) !in s.claims && ReplicaOf(s, 1) == map[]
    ensures IsRun(regime, states', steps') && !OneUserPerEmail(states'[|steps'|])
  {
    states', steps' := Publishes(regime, states, steps, 1, 1, e);
    var s := states'[|steps'|];
    var second := WithUser(s, 1).(attempts := s.attempts - {1});
    RunGoesOn(regime, states', steps', Commit(1), second);
    states', steps' := states' + [second], steps' + [Commit(1)];
    LowerIffSame(e, e);
    assert 0 in second.users && 1 in second.users;
  }

  const EMAIL: string := "a@b.ie"

  /** A claim runs out before the other node has mirrored the first registration. */
  lemma ExpiredClaimIsTakenAgain(regime: Regime) returns (states: seq<State>, steps: seq<Step>)
    requires regime.claimsExpire
    ensures IsRun(regime, states, steps) && !OneUserPerEmail(states[|steps|])
  {
    states, steps := Publishes(regime, [Init()], [], 0, 0, EMAIL);
    var s := states[|steps|];
    var committed := WithUser(s, 0).(attempts := s.attempts - {0});
    RunGoesOn(regime, states, steps, Commit(0), committed);
    states, steps := states + [committed], steps + [Commit(0)];
    var expired := Unclaimed(committed, EMAIL);
    RunGoesOn(regime, states, steps, Expire(Lower(EMAIL)), expired);
    states, steps := states + [expired], steps + [Expire(Lower(EMAIL))];
    states, steps := SecondCommits(regime, states, steps, EMAIL);
  }

  /** A commit succeeds, the refresh after it raises, and the claim of the committed user is given up. */
  lemma LateFailureFreesTheEmail(regime: Regime) returns (states: seq<State>, steps: seq<Step>)
    requires regime.lateFailures
    ensures IsRun(regime, states, steps) && !OneUserPerEmail(states[|steps|])
  {
    states, steps := Publishes(regime, [Init()], [], 0, 0, EMAIL);
    var s := states[|steps|];
    var failed := AtPhase(Unclaimed(WithUser(s, 0), EMAIL), 0, Failed);
    RunGoesOn(regime, states, steps, FailCommit(0, true), failed);
    states, steps := states + [failed], steps + [FailCommit(0, true)];
    states, steps := SecondCommits(regime, states, steps, EMAIL);
  }

  /** In every interleaving of any number of nodes an email, whatever its case, is committed at most once, exactly as
      long as claims never expire and no refresh fails after its commit. */
  lemma OneUserIffClaimsLast(regime: Regime)
    ensures AlwaysOneUser(regime) <==> !regime.claimsExpire && !regime.lateFailures
  {
    if regime.claimsExpire {
      var states, steps := ExpiredClaimIsTakenAgain(regime);
      assert !OneUserPerEmail(states[|steps|]);
    } else if regime.lateFailures {
      var states, steps := LateFailureFreesTheEmail(regime);
      assert !OneUserPerEmail(states[|steps|]);
    } else {
      forall states: seq<State>, steps: seq<Step>, i: nat | IsRun(regime, states, steps) && i < |states|
        ensures OneUserPerEmail(states[i])
      {
        RunKeepsClaims(states, steps, i);
        ClaimsMeanOneUser(states[i]);
      }
    }
  }

  lemma ClaimsMeanOneUser(s: State)
    requires ClaimInv(s)
    ensures OneUserPerEmail(s)
  {
    forall u, v | u in s.users && v in s.users && SameUpToCase(s.users[u].email, s.users[v].email)
      ensures u == v
    {
      LowerIffSame(s.users[u].email, s.users[v].email);
      assert Holds(s, u, Lower(s.users[u].email)) && Holds(s, v, Lower(s.users[u].email));
    }
  }

  // ---- One table ----

  /** A node's own table never has one email twice, letter for letter, however the rest goes. */
  ghost predicate TablesAreUnique(s: State) {
    && (forall u :: u in s.users ==> u !in s.attempts || s.attempts[u].phase == Failed)
    && (forall u :: u in s.users || u in s.attempts ==> u in s.used)
    && (forall u, v :: u in s.users && v in s.users && s.users[u] == s.users[v] ==> u == v)
  }

  lemma CommitKeepsTablesUnique(s: State, step: Step, s': State)
    requires TablesAreUnique(s) && Next(s, step, s') && (step.Commit? || step.FailCommit?)
    ensures TablesAreUnique(s')
  {}

  lemma StepKeepsTablesUnique(s: State, step: Step, s': State)
    requires TablesAreUnique(s) && Next(s, step, s')
    ensures TablesAreUnique(s')
  {
    if step.Commit? || step.FailCommit? { CommitKeepsTablesUnique(s, step, s'); }
  }

  lemma {:induction false} RunKeepsTablesUnique(regime: Regime, states: seq<State>, steps: seq<Step>, i: nat)
    requires IsRun(regime, states, steps) && i < |states|
    ensures TablesAreUnique(states[i])
  {
    if i > 0 {
      RunKeepsTablesUnique(regime, states, steps, i - 1);
      StepKeepsTablesUnique(states[i - 1], steps[i - 1], states[i]);
    }
  }

  // ---- One call, undisturbed ----

  datatype RegisterResult = UserCreated | EmailClaimed | EmailInReplica | PublishFailed | CommitFailed

  /** What becomes of `commit` and the `refresh` after it, which share one `try`. */
  datatype CommitOutcome = Committed | NotCommitted | CommittedThenFailed

  class Deployment {
    var claims: set<string>
    var users: map<UserId, User>
    var log: seq<Msg>
    var replicas: map<nat, Users>

    constructor ()
      ensures claims == {} && users == map[] && log == [] && replicas == map[] && Consistent()
    {
      claims, users, log, replicas := {}, map[], [], map[];
    }

    /** Claims are in lower case; every committed email is claimed, and none twice, up to case. */
    ghost predicate Consistent()
      reads this
    {
      && (forall key :: key in claims ==> Lower(key) == key)
      && (forall u :: u in users ==> Claimed(users[u].email))
      && (forall u, v :: u in users && v in users && SameUpToCase(users[u].email, users[v].email) ==> u == v)
    }

    /** Some claim is for this email, whatever its case. */
    ghost predicate Claimed(email: string)
      reads this
    {
      exists key :: key in claims && SameUpToCase(key, email)
    }

    lemma ClaimedIffKeyTaken(email: string)
      requires forall key :: key in claims ==> Lower(key) == key
      ensures Claimed(email) <==> Lower(email) in claims
    {
      if key :| key in claims && SameUpToCase(key, email) { LowerIffSame(key, email); }
      if Lower(email) in claims { LowerIffSame(Lower(email), email); }
    }

    /** Consistency in terms of the keys that are compared. */
    ghost predicate KeysFit()
      reads this
    {
      && (forall key :: key in claims ==> Lower(key) == key)
      && (forall u :: u in users ==> Lower(users[u].email) in claims)
      && (forall u, v :: u in users && v in users && Lower(users[u].email) == Lower(users[v].email) ==> u == v)
    }

    lemma ConsistentIffKeysFit()
      ensures Consistent() <==> KeysFit()
    {
      if forall key :: key in claims ==> Lower(key) == key {
        forall u | u in users { ClaimedIffKeyTaken(users[u].email); }
        forall u, v | u in users && v in users
          ensures Lower(users[u].email) == Lower(users[v].email) <==> SameUpToCase(users[u].email, users[v].email)
        {
          LowerIffSame(users[u].email, users[v].email);
        }
      }
    }

    method RegisterUser(u: UserId, node: nat, email: string, publishes: bool, commit: CommitOutcome, compensates: bool)
      returns (r: RegisterResult)
      requires Consistent() && u !in users
      modifies this
      // A commit whose refresh fails leaves a committed user without a claim.
      ensures Consistent() <==> !(r == CommitFailed && commit == CommittedThenFailed)
      ensures replicas == old(replicas)
      ensures (exists v :: v in old(users) && SameUpToCase(old(users)[v].email, email)) ==> r == EmailClaimed
      ensures r == EmailClaimed <==> old(Claimed(email))
      ensures r == EmailInReplica <==> !old(Claimed(email)) && node in replicas && email in replicas[node].Values
      ensures r == UserCreated <==>
        && !old(Claimed(email)) && !(node in replicas && email in replicas[node].Values)
        && publishes && commit == Committed
      ensures r == CommitFailed <==>
        && !old(Claimed(email)) && !(node in replicas && email in replicas[node].Values)
        && publishes && commit != Committed
      ensures users == if r == UserCreated || (r == CommitFailed && commit == CommittedThenFailed)
                       then old(users)[u := User(node, email)] else old(users)
      // A failed publication keeps the email claimed although nobody has it.
      ensures claims == if r == UserCreated || r == PublishFailed then old(claims) + {Lower(email)} else old(claims)
      ensures Claimed(email) <==> r == EmailClaimed || r == UserCreated || r == PublishFailed
      ensures r == UserCreated ==> log == old(log) + [Registered(u, email)]
      ensures r == CommitFailed ==>
        log == old(log) + [Registered(u, email)] + (if compensates then [RegistrationFailed(u)] else [])
      ensures r != UserCreated && r != CommitFailed ==> log == old(log)
    {
      ConsistentIffKeysFit();
      ClaimedIffKeyTaken(email);
      LowerIffSame(email, email);
      forall v | v in users { LowerIffSame(users[v].email, email); }
      r := RegisterByKey(u, node, email, publishes, commit, compensates);
      ConsistentIffKeysFit();
      ClaimedIffKeyTaken(email);
    }

    /** The call in terms of the claimed key. */
    method RegisterByKey(u: UserId, node: nat, email: string, publishes: bool, commit: CommitOutcome, compensates: bool)
      returns (r: RegisterResult)
      requires KeysFit() && u !in users && Lower(Lower(email)) == Lower(email)
      modifies this
      ensures KeysFit() <==> !(r == CommitFailed && commit == CommittedThenFailed)
      ensures forall key :: key in claims ==> Lower(key) == key
      ensures replicas == old(replicas)
      ensures r == EmailClaimed <==> Lower(email) in old(claims)
      ensures r == EmailInReplica <==>
        Lower(email) !in old(claims) && node in replicas && email in replicas[node].Values
      ensures r == UserCreated || r == CommitFailed <==>
        Lower(email) !in old(claims) && !(node in replicas && email in replicas[node].Values) && publishes
      ensures r == UserCreated ==> commit == Committed
      ensures r == CommitFailed ==> commit != Committed
      ensures users == if r == UserCreated || (r == CommitFailed && commit == CommittedThenFailed)
                       then old(users)[u := User(node, email)] else old(users)
      ensures claims == if r == UserCreated || r == PublishFailed then old(claims) + {Lower(email)} else old(claims)
      ensures r == UserCreated ==> log == old(log) + [Registered(u, email)]
      ensures r == CommitFailed ==>
        log == old(log) + [Registered(u, email)] + (if compensates then [RegistrationFailed(u)] else [])
      ensures r != UserCreated && r != CommitFailed ==> log == old(log)
    {
      var key := Lower(email);
      if key in claims { return EmailClaimed; }
      claims := claims + {key};
      if node in replicas && email in replicas[node].Values {
        claims := claims - {key};
        return EmailInReplica;
      }
      if !publishes { return PublishFailed; }
      log := log + [Registered(u, email)];
      if commit != NotCommitted { users := users[u := User(node, email)]; }
      if commit == Committed { return UserCreated; }
      claims := claims - {key};
      if compensates { log := log + [RegistrationFailed(u)]; }
      r := CommitFailed;
      assert commit == CommittedThenFailed ==> u in users && Lower(users[u].email) !in claims;
    }
  }
}
