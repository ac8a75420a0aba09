/**
 * Whole runs of the portal. A login reads the user first and inserts its session later; a password change reads the
 * user when it authenticates, writes it later, and starts its new session later still. Anything may happen in between.
 */
module SessionRuns {
  import opened Text
  import opened Models
  import opened Sessions

  /** What a request in progress holds: a user copy to start a session for, or to change the password of. */
  datatype Pending = ToStart(id: nat, version: nat, since: nat) | ToRepassword(id: nat, held: nat)

  /**
   * `changes` counts the password, role and activation changes of every user; `since` is that count when the session's
   * login read the user, or when its password change was written.
   */
  datatype State = State(accounts: Accounts, pending: map<nat, Pending>, changes: map<nat, nat>,
                         since: map<string, nat>)

  datatype Step =
    | NewUser(id: nat, role: Role, password: string)
    | ReadLogin(request: nat, id: nat, password: string)
    | ReadPassword(request: nat, token: string, now: int)
    | WritePassword(request: nat, password: string)
    | StartSession(request: nat, cookie: Option<string>, token: string, now: int, expiresAt: int)
    | Visit(token: string, now: int)
    | Logout(token: string)
    | SetActive(id: nat, active: bool)
    | SetRole(id: nat, role: Role)
    | Abandon(request: nat)

  /**
   * The code as written, and for one remark a variant that drops a password write whose version has moved since its
   * read.
   */
  datatype Policy = AsWritten | Guarded

  predicate Current(s: State, step: Step) {
    step.WritePassword? && step.request in s.pending && s.pending[step.request].ToRepassword?
    && s.pending[step.request].id in s.accounts.users ==>
      s.accounts.users[s.pending[step.request].id].version == s.pending[step.request].held
  }

  predicate Enabled(policy: Policy, s: State, step: Step) {
    match step
    case NewUser(id, _, _) => id !in s.accounts.users
    case ReadLogin(r, id, password) =>
      r !in s.pending && id in s.accounts.users && s.accounts.users[id].active
      && s.accounts.users[id].password == password
    case ReadPassword(r, token, now) => r !in s.pending && Authenticated(s.accounts, token, now).Some?
    case WritePassword(r, _) =>
      r in s.pending && s.pending[r].ToRepassword? && s.pending[r].id in s.accounts.users
      && (policy.Guarded? ==> Current(s, step))
    case StartSession(r, _, token, now, _) => r in s.pending && s.pending[r].ToStart?
    case Visit(_, _) => true
    case Logout(_) => true
    case SetActive(id, _) => id in s.accounts.users
    case SetRole(id, _) => id in s.accounts.users
    case Abandon(r) => r in s.pending
  }

  function Count(changes: map<nat, nat>, id: nat): (n: nat) {
    if id in changes then changes[id] else 0
  }

  function Next(policy: Policy, s: State, step: Step): (s': State) {
    if !Enabled(policy, s, step) then s
    else
      var a := s.accounts;
      match step
      case NewUser(id, role, password) =>
        s.(accounts := a.(users := a.users[id := User(true, role, password, 1)]), changes := s.changes[id := 0])
      case ReadLogin(r, id, _) => s.(pending := s.pending[r := ToStart(id, a.users[id].version, Count(s.changes, id))])
      case ReadPassword(r, token, now) =>
        var id := Authenticated(a, token, now).value;
        s.(pending := s.pending[r := ToRepassword(id, a.users[id].version)])
      case WritePassword(r, password) =>
        var id, held, n := s.pending[r].id, s.pending[r].held, Count(s.changes, s.pending[r].id) + 1;
        State(Repassworded(a, id, password, held), s.pending[r := ToStart(id, held + 1, n)], s.changes[id := n],
              s.since)
      case StartSession(r, cookie, token, now, expiresAt) =>
        var p := s.pending[r];
        var accounts := Started(a, cookie, token, Session(p.id, p.version, expiresAt), now);
        var refused := token in Unexpired(Without(a.sessions, cookie), now);
        State(accounts, s.pending - {r}, s.changes, if refused then s.since else s.since[token := p.since])
      case Visit(token, now) =>
        if Authenticated(a, token, now).Some? then s
        else s.(accounts := a.(sessions := Without(a.sessions, Some(token))))
      case Logout(token) => s.(accounts := a.(sessions := Without(a.sessions, Some(token))))
      case SetActive(id, active) =>
        s.(accounts := Switched(a, id, active), changes := s.changes[id := Count(s.changes, id) + 1])
      case SetRole(id, role) =>
        s.(accounts := Reassigned(a, id, role), changes := s.changes[id := Count(s.changes, id) + 1])
      case Abandon(r) => s.(pending := s.pending - {r})
  }

  const START: State := State(Accounts(map[], map[]), map[], map[], map[])

  function Run(policy: Policy, steps: seq<Step>): (s: State) {
    if steps == [] then START else Next(policy, Run(policy, steps[..|steps| - 1]), steps[|steps| - 1])
  }

  // ----- freshness -----

  /** A session that authenticates belongs to an active user with no account change since its login read the user. */
  ghost predicate Fresh(s: State) {
    forall token, now :: Authenticated(s.accounts, token, now).Some? ==>
      var id := Authenticated(s.accounts, token, now).value;
      s.accounts.users[id].active && token in s.since && s.since[token] == Count(s.changes, id)
  }

  /** Versions count changes. */
  ghost predicate Counted(s: State) {
    && (forall id :: id in s.accounts.users ==> id in s.changes && s.accounts.users[id].version == 1 + s.changes[id])
    && (forall token :: token in s.accounts.sessions ==>
          token in s.since && s.accounts.sessions[token].version == 1 + s.since[token])
    && (forall r :: r in s.pending && s.pending[r].ToStart? ==> s.pending[r].version == 1 + s.pending[r].since)
  }

  lemma CountedIsFresh(s: State)
    requires Counted(s)
    ensures Fresh(s)
  {
  }

  lemma NextKeepsCounted(policy: Policy, s: State, step: Step)
    requires Counted(s) && Current(s, step)
    ensures Counted(Next(policy, s, step))
  {
  }

  /** Every password write of a run finds the version that its request read. */
  predicate AllCurrent(policy: Policy, steps: seq<Step>) {
    steps == []
    || (AllCurrent(policy, steps[..|steps| - 1]) && Current(Run(policy, steps[..|steps| - 1]), steps[|steps| - 1]))
  }

  lemma {:induction false} RunIsCounted(policy: Policy, steps: seq<Step>)
    requires policy.Guarded? || AllCurrent(policy, steps)
    ensures Counted(Run(policy, steps))
  {
    if steps != [] {
      var earlier, step := steps[..|steps| - 1], steps[|steps| - 1];
      RunIsCounted(policy, earlier);
      if Enabled(policy, Run(policy, earlier), step) {
        NextKeepsCounted(policy, Run(policy, earlier), step);
      }
    }
  }

  /** Session freshness over all runs in which no password write is based on an outdated read. */
  lemma SessionsAreFresh(policy: Policy, steps: seq<Step>)
    requires policy.Guarded? || AllCurrent(policy, steps)
    ensures Fresh(Run(policy, steps))
  {
    RunIsCounted(policy, steps);
    CountedIsFresh(Run(policy, steps));
  }

  // ----- versions -----

  /**
   * A step under an up-to-date write leaves a user's version alone, or raises it by one for the one change it makes.
   */
  lemma VersionsRise(policy: Policy, s: State, step: Step, id: nat)
    requires Counted(s) && Current(s, step) && id in s.accounts.users
    ensures var s' := Next(policy, s, step);
            && id in s'.accounts.users
            && s'.accounts.users[id].version - s.accounts.users[id].version
               == Count(s'.changes, id) - Count(s.changes, id)
            && s.accounts.users[id].version <= s'.accounts.users[id].version
            && (s'.accounts.users[id] != s.accounts.users[id]
                ==> s.accounts.users[id].version < s'.accounts.users[id].version)
  {
  }

  /** Every account change between two states raises the version of its user. */
  predicate Raises(s: State, s': State) {
    forall id :: id in s.accounts.users && Count(s.changes, id) < Count(s'.changes, id) ==>
      id in s'.accounts.users && s.accounts.users[id].version < s'.accounts.users[id].version
  }

  predicate EveryChangeRaises(steps: seq<Step>) {
    steps == []
    || (EveryChangeRaises(steps[..|steps| - 1]) && Raises(Run(AsWritten, steps[..|steps| - 1]), Run(AsWritten, steps)))
  }

  /** No request holds a version that is not stored yet. */
  ghost predicate HeldBelow(s: State) {
    forall r :: r in s.pending && s.pending[r].ToRepassword? ==>
      s.pending[r].id in s.accounts.users && s.pending[r].held <= s.accounts.users[s.pending[r].id].version
  }

  lemma NextKeepsHeldBelow(s: State, step: Step)
    requires HeldBelow(s) && Current(s, step)
    ensures HeldBelow(Next(AsWritten, s, step))
  {
  }

  lemma StepRaisesIffCurrent(s: State, step: Step)
    requires HeldBelow(s)
    ensures Raises(s, Next(AsWritten, s, step)) <==> Current(s, step)
  {
    if step.WritePassword? && Enabled(AsWritten, s, step) {
      var id := s.pending[step.request].id;
      assert Count(s.changes, id) < Count(Next(AsWritten, s, step).changes, id);
    }
  }

  lemma {:induction false} RunIsHeldBelow(steps: seq<Step>)
    requires AllCurrent(AsWritten, steps)
    ensures HeldBelow(Run(AsWritten, steps))
  {
    if steps != [] {
      RunIsHeldBelow(steps[..|steps| - 1]);
      NextKeepsHeldBelow(Run(AsWritten, steps[..|steps| - 1]), steps[|steps| - 1]);
    }
  }

  /** In a run of the code every account change raises its user's version exactly if no password write is outdated. */
  lemma {:induction false} ChangesRaiseIffCurrent(steps: seq<Step>)
    ensures EveryChangeRaises(steps) <==> AllCurrent(AsWritten, steps)
  {
    if steps != [] {
      var earlier := steps[..|steps| - 1];
      ChangesRaiseIffCurrent(earlier);
      if AllCurrent(AsWritten, earlier) {
        RunIsHeldBelow(earlier);
        StepRaisesIffCurrent(Run(AsWritten, earlier), steps[|steps| - 1]);
      }
    }
  }

  lemma NextOfRun(policy: Policy, steps: seq<Step>, step: Step)
    ensures Run(policy, steps + [step]) == Next(policy, Run(policy, steps), step)
    ensures AllCurrent(policy, steps + [step]) <==> AllCurrent(policy, steps) && Current(Run(policy, steps), step)
  {
    assert (steps + [step])[..|steps|] == steps;
  }

  // ----- rows that deletion missed -----

  /** A stored session behind its user's version. */
  ghost predicate Behind(s: State, token: string, session: Session) {
    && token in s.accounts.sessions && s.accounts.sessions[token] == session
    && session.userId in s.accounts.users && session.version < s.accounts.users[session.userId].version
  }

  /** Only a password write can lower a version, and it deletes every session of its user. */
  lemma StaysBehind(policy: Policy, s: State, step: Step, token: string, session: Session)
    requires Behind(s, token, session)
    requires var s' := Next(policy, s, step); token in s'.accounts.sessions && s'.accounts.sessions[token] == session
    ensures Behind(Next(policy, s, step), token, session)
  {
  }

  /** The session row is stored as it is at every point of a stretch of a run. */
  ghost predicate StoredThroughout(policy: Policy, earlier: seq<Step>, later: seq<Step>, token: string,
                                   session: Session) {
    forall k :: 0 <= k <= |later| ==>
      var sessions := Run(policy, earlier + later[..k]).accounts.sessions;
        token in sessions && sessions[token] == session
  }

  lemma {:induction false} BehindThroughout(policy: Policy, earlier: seq<Step>, later: seq<Step>, token: string,
                                            session: Session)
    requires Behind(Run(policy, earlier), token, session) && StoredThroughout(policy, earlier, later, token, session)
    ensures Behind(Run(policy, earlier + later), token, session)
  {
    if later == [] {
      assert earlier + later == earlier;
    } else {
      var before, step := later[..|later| - 1], later[|later| - 1];
      forall k | 0 <= k <= |before|
        ensures var sessions := Run(policy, earlier + before[..k]).accounts.sessions;
                token in sessions && sessions[token] == session
      {
        assert before[..k] == later[..k];
      }
      BehindThroughout(policy, earlier, before, token, session);
      NextOfRun(policy, earlier + before, step);
      assert earlier + later == earlier + before + [step];
      assert later[..|later|] == later;
      StaysBehind(policy, Run(policy, earlier + before), step, token, session);
    }
  }

  /**
   * A session overtaken by an account change stays rejected for good as long as its row is there, in every run,
   * outdated password writes included.
   */
  lemma OvertakenForGood(policy: Policy, earlier: seq<Step>, later: seq<Step>, token: string, session: Session,
                         now: int)
    requires Behind(Run(policy, earlier), token, session) && StoredThroughout(policy, earlier, later, token, session)
    ensures Authenticated(Run(policy, earlier + later).accounts, token, now) == None
  {
    BehindThroughout(policy, earlier, later, token, session);
  }

  // ----- what an outdated password write breaks -----

  /** One employee, logged in, whose password change has read the user at version 1. */
  const READ_AT_ONE: State :=
    State(Accounts(map[1 := User(true, RoleEmployee, "p", 1)], map["a" := Session(1, 1, 100)]),
          map[2 := ToRepassword(1, 1)], map[1 := 0], map["a" := 0])

  lemma PasswordRead() returns (steps: seq<Step>)
    ensures Run(AsWritten, steps) == READ_AT_ONE
  {
    NextOfRun(AsWritten, [], NewUser(1, RoleEmployee, "p"));
    steps := [] + [NewUser(1, RoleEmployee, "p")];
    NextOfRun(AsWritten, steps, ReadLogin(1, 1, "p"));
    steps := steps + [ReadLogin(1, 1, "p")];
    NextOfRun(AsWritten, steps, StartSession(1, None, "a", 0, 100));
    steps := steps + [StartSession(1, None, "a", 0, 100)];
    NextOfRun(AsWritten, steps, ReadPassword(2, "a", 1));
    var s := Run(AsWritten, steps);
    assert s.accounts.sessions == map["a" := Session(1, 1, 100)] && s.pending == map[];
    steps := steps + [ReadPassword(2, "a", 1)];
  }

  /** The same after a role change and the read of a second login. */
  const READ_AT_TWO: State :=
    State(Accounts(map[1 := User(true, RoleAdmin, "p", 2)], map[]),
          map[2 := ToRepassword(1, 1), 3 := ToStart(1, 2, 1)], map[1 := 1], map["a" := 0])

  const CHANGED: State :=
    State(Accounts(map[1 := User(true, RoleAdmin, "p", 2)], map[]), map[2 := ToRepassword(1, 1)], map[1 := 1],
          map["a" := 0])

  lemma RoleChanges()
    ensures Next(AsWritten, READ_AT_ONE, SetRole(1, RoleAdmin)) == CHANGED
  {
    assert Next(AsWritten, READ_AT_ONE, SetRole(1, RoleAdmin)).accounts.sessions == map[];
  }

  lemma LoginReads()
    ensures Next(AsWritten, CHANGED, ReadLogin(3, 1, "p")) == READ_AT_TWO
  {
  }

  lemma ChangedMeanwhile()
    ensures Next(AsWritten, Next(AsWritten, READ_AT_ONE, SetRole(1, RoleAdmin)), ReadLogin(3, 1, "p")) == READ_AT_TWO
  {
    RoleChanges();
    LoginReads();
  }

  lemma OutdatedWrite()
    ensures !Current(READ_AT_TWO, WritePassword(2, "q"))
    ensures !Fresh(Next(AsWritten, Next(AsWritten, READ_AT_TWO, WritePassword(2, "q")),
                        StartSession(3, None, "b", 2, 100)))
  {
    var s3 := Next(AsWritten, READ_AT_TWO, WritePassword(2, "q"));
    assert s3.accounts.users[1].version == 2 && s3.changes[1] == 2 && s3.accounts.sessions == map[];
    var s4 := Next(AsWritten, s3, StartSession(3, None, "b", 2, 100));
    assert s4.accounts.sessions == map["b" := Session(1, 2, 100)] && s4.since["b"] == 1;
    assert Authenticated(s4.accounts, "b", 2) == Some(1);
  }

  /**
   * A password change is read at version 1, the role changes, a new login reads version 2, the password is written as
   * version 2 again, and the login inserts its session: it authenticates although the password has changed since.
   */
  lemma OutdatedWriteBreaksFreshness() returns (steps: seq<Step>)
    ensures !Fresh(Run(AsWritten, steps)) && !AllCurrent(AsWritten, steps)
  {
    steps := PasswordRead();
    ChangedMeanwhile();
    OutdatedWrite();
    NextOfRun(AsWritten, steps, SetRole(1, RoleAdmin));
    steps := steps + [SetRole(1, RoleAdmin)];
    NextOfRun(AsWritten, steps, ReadLogin(3, 1, "p"));
    steps := steps + [ReadLogin(3, 1, "p")];
    NextOfRun(AsWritten, steps, WritePassword(2, "q"));
    steps := steps + [WritePassword(2, "q")];
    NextOfRun(AsWritten, steps, StartSession(3, None, "b", 2, 100));
    steps := steps + [StartSession(3, None, "b", 2, 100)];
  }

  /** A remark: had password writes been guarded by the version they read, every run would be fresh. */
  lemma FreshIffGuarded(policy: Policy)
    ensures (forall steps :: Fresh(Run(policy, steps))) <==> policy.Guarded?
  {
    if policy.Guarded? {
      forall steps ensures Fresh(Run(policy, steps)) {
        SessionsAreFresh(policy, steps);
      }
    } else {
      var steps := OutdatedWriteBreaksFreshness();
      assert !Fresh(Run(policy, steps));
    }
  }
}
