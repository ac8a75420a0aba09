/**
 * What password writes do that find another version than they read: in any reachable state, after any number of them,
 * exactly when a session becomes stale and exactly when none ever can.
 */
module OutdatedWrites {
  import opened Text
  import opened Sessions
  import opened SessionRuns

  /** A login that has read the user and not yet inserted its session. */
  predicate InFlight(s: State, request: nat, id: nat) {
    request in s.pending && s.pending[request].ToStart? && s.pending[request].id == id
  }

  /** Sessions and requests are of known users, and what they count of the user's changes lies in the past. */
  ghost predicate KnownUsers(s: State) {
    && (forall id :: id in s.accounts.users ==> id in s.changes)
    && (forall token :: token in s.accounts.sessions ==>
          token in s.since && s.accounts.sessions[token].userId in s.accounts.users)
    && (forall r :: r in s.pending ==> s.pending[r].id in s.accounts.users)
  }

  /** Of a login or session that has missed no change, the version is the user's. */
  ghost predicate UpToDate(s: State, id: nat, version: nat, since: nat)
    requires id in s.accounts.users
  {
    since <= Count(s.changes, id) && (since == Count(s.changes, id) ==> version == s.accounts.users[id].version)
  }

  ghost predicate Known(s: State) {
    && KnownUsers(s)
    && (forall token :: token in s.accounts.sessions ==>
          UpToDate(s, s.accounts.sessions[token].userId, s.accounts.sessions[token].version, s.since[token]))
    && (forall r :: r in s.pending && s.pending[r].ToStart? ==>
          UpToDate(s, s.pending[r].id, s.pending[r].version, s.pending[r].since))
  }

  lemma NextKeepsUsers(s: State, step: Step)
    requires KnownUsers(s)
    ensures KnownUsers(Next(AsWritten, s, step))
  {
  }

  lemma StartKeepsSessionsKnown(s: State, step: Step, token: string)
    requires Known(s) && step.StartSession? && token in Next(AsWritten, s, step).accounts.sessions
    requires KnownUsers(Next(AsWritten, s, step))
    ensures var s' := Next(AsWritten, s, step);
            UpToDate(s', s'.accounts.sessions[token].userId, s'.accounts.sessions[token].version, s'.since[token])
  {
  }

  lemma NextKeepsSessionsKnown(s: State, step: Step, token: string)
    requires Known(s) && !step.StartSession? && token in Next(AsWritten, s, step).accounts.sessions
    requires KnownUsers(Next(AsWritten, s, step))
    ensures var s' := Next(AsWritten, s, step);
            UpToDate(s', s'.accounts.sessions[token].userId, s'.accounts.sessions[token].version, s'.since[token])
  {
  }

  lemma NextKeepsLoginsKnown(s: State, step: Step, r: nat)
    requires Known(s) && KnownUsers(Next(AsWritten, s, step))
    requires r in Next(AsWritten, s, step).pending && Next(AsWritten, s, step).pending[r].ToStart?
    ensures var s' := Next(AsWritten, s, step);
            UpToDate(s', s'.pending[r].id, s'.pending[r].version, s'.pending[r].since)
  {
  }

  lemma NextKeepsKnown(s: State, step: Step)
    requires Known(s)
    ensures Known(Next(AsWritten, s, step))
  {
    var s' := Next(AsWritten, s, step);
    NextKeepsUsers(s, step);
    forall token | token in s'.accounts.sessions
      ensures UpToDate(s', s'.accounts.sessions[token].userId, s'.accounts.sessions[token].version, s'.since[token])
    {
      if step.StartSession? {
        StartKeepsSessionsKnown(s, step, token);
      } else {
        NextKeepsSessionsKnown(s, step, token);
      }
    }
    forall r | r in s'.pending && s'.pending[r].ToStart?
      ensures UpToDate(s', s'.pending[r].id, s'.pending[r].version, s'.pending[r].since)
    {
      NextKeepsLoginsKnown(s, step, r);
    }
  }

  lemma {:induction false} RunIsKnown(steps: seq<Step>)
    ensures Known(Run(AsWritten, steps))
  {
    if steps != [] {
      RunIsKnown(steps[..|steps| - 1]);
      NextKeepsKnown(Run(AsWritten, steps[..|steps| - 1]), steps[|steps| - 1]);
    }
  }

  // ----- one state -----

  /** A session that authenticates although its user has changed since its login read her. */
  ghost predicate StaleSession(s: State, token: string) {
    && token in s.accounts.sessions && token in s.since && s.accounts.sessions[token].userId in s.accounts.users
    && var id := s.accounts.sessions[token].userId;
       && s.since[token] < Count(s.changes, id)
       && s.accounts.users[id].active && s.accounts.sessions[token].version == s.accounts.users[id].version
  }

  lemma FreshIffNoneStale(s: State)
    requires Known(s)
    ensures Fresh(s) <==> forall token :: !StaleSession(s, token)
  {
    if token :| StaleSession(s, token) {
      var now := s.accounts.sessions[token].expiresAt - 1;
      assert Authenticated(s.accounts, token, now) == Some(s.accounts.sessions[token].userId);
    } else {
      forall token, now | Authenticated(s.accounts, token, now).Some?
        ensures token in s.since && s.since[token] == Count(s.changes, s.accounts.sessions[token].userId)
      {
        assert !StaleSession(s, token);
      }
    }
  }

  lemma OtherSessionsAlike(s: State, request: nat, cookie: Option<string>, token: string, now: int, expiresAt: int,
                           other: string)
    requires request in s.pending && s.pending[request].ToStart? && other != token
    ensures StaleSession(Next(AsWritten, s, StartSession(request, cookie, token, now, expiresAt)), other)
            ==> StaleSession(s, other)
  {
  }

  lemma InsertedIsStaleIff(s: State, request: nat, cookie: Option<string>, token: string, now: int, expiresAt: int)
    requires KnownUsers(s) && request in s.pending && s.pending[request].ToStart? && token !in s.accounts.sessions
    ensures var p := s.pending[request];
            StaleSession(Next(AsWritten, s, StartSession(request, cookie, token, now, expiresAt)), token)
            <==> && p.since < Count(s.changes, p.id) && s.accounts.users[p.id].active
                 && p.version == s.accounts.users[p.id].version
  {
  }

  /**
   * In every state a run can reach, the session that a login inserts under an unused token is stale exactly if its user
   * has changed since the read, is active, and has the version that was read.
   */
  lemma InsertionBreaksFreshnessIff(s: State, request: nat, cookie: Option<string>, token: string, now: int,
                                    expiresAt: int)
    requires Known(s) && Fresh(s) && request in s.pending && s.pending[request].ToStart?
    requires token !in s.accounts.sessions
    ensures var p := s.pending[request];
            !Fresh(Next(AsWritten, s, StartSession(request, cookie, token, now, expiresAt)))
            <==> && p.since < Count(s.changes, p.id) && s.accounts.users[p.id].active
                 && p.version == s.accounts.users[p.id].version
  {
    var step := StartSession(request, cookie, token, now, expiresAt);
    var s' := Next(AsWritten, s, step);
    NextKeepsKnown(s, step);
    FreshIffNoneStale(s);
    FreshIffNoneStale(s');
    forall t ensures !StaleSession(s, t) && (t != token ==> !StaleSession(s', t)) {
      if t != token {
        OtherSessionsAlike(s, request, cookie, token, now, expiresAt, t);
      }
    }
    InsertedIsStaleIff(s, request, cookie, token, now, expiresAt);
  }

  // ----- continuations without outdated writes -----

  /** The later steps of a run contain no outdated write. */
  predicate CurrentFrom(before: seq<Step>, later: seq<Step>) {
    later == []
    || (CurrentFrom(before, later[..|later| - 1])
        && Current(Run(AsWritten, before + later[..|later| - 1]), later[|later| - 1]))
  }

  lemma OneMoreCurrent(before: seq<Step>, later: seq<Step>, step: Step)
    ensures Run(AsWritten, before + (later + [step])) == Next(AsWritten, Run(AsWritten, before + later), step)
    ensures CurrentFrom(before, later + [step])
            <==> CurrentFrom(before, later) && Current(Run(AsWritten, before + later), step)
  {
    assert before + (later + [step]) == before + later + [step];
    assert (later + [step])[..|later|] == later;
    NextOfRun(AsWritten, before + later, step);
  }

  /** A version that the user has, being active, or will come to have. */
  predicate ComesRound(s: State, id: nat, version: nat)
    requires id in s.accounts.users
  {
    s.accounts.users[id].version < version || (s.accounts.users[id].version == version && s.accounts.users[id].active)
  }

  /** A login in flight that has missed a change and whose version comes round. */
  ghost predicate LoginThreatens(s: State, id: nat, r: nat) {
    && id in s.accounts.users && InFlight(s, r, id) && s.pending[r].since < Count(s.changes, id)
    && ComesRound(s, id, s.pending[r].version)
  }

  ghost predicate SessionThreatens(s: State, id: nat, token: string) {
    && id in s.accounts.users && token in s.accounts.sessions && token in s.since
    && s.accounts.sessions[token].userId == id
    && s.since[token] < Count(s.changes, id) && ComesRound(s, id, s.accounts.sessions[token].version)
  }

  ghost predicate Threatened(s: State, id: nat) {
    (exists r :: LoginThreatens(s, id, r)) || (exists token :: SessionThreatens(s, id, token))
  }

  /** A step that does not write an outdated version of this user. */
  predicate CurrentFor(s: State, step: Step, id: nat) {
    step.WritePassword? && step.request in s.pending && s.pending[step.request].id == id ==> Current(s, step)
  }

  lemma SessionsStaySafe(s: State, step: Step, id: nat, token: string)
    requires Known(s) && CurrentFor(s, step, id) && SessionThreatens(Next(AsWritten, s, step), id, token)
    ensures Threatened(s, id)
  {
    if step.StartSession? && InFlight(s, step.request, id) {
      assert !SessionThreatens(s, id, token) ==> LoginThreatens(s, id, step.request);
    } else {
      assert SessionThreatens(s, id, token);
    }
  }

  lemma LoginsStaySafe(s: State, step: Step, id: nat, r: nat)
    requires Known(s) && CurrentFor(s, step, id) && LoginThreatens(Next(AsWritten, s, step), id, r)
    ensures Threatened(s, id)
  {
    assert LoginThreatens(s, id, r);
  }

  /** Only an outdated write of a user brings a version of hers back within reach. */
  lemma NextStaysSafe(s: State, step: Step, id: nat)
    requires Known(s) && CurrentFor(s, step, id) && !Threatened(s, id)
    ensures !Threatened(Next(AsWritten, s, step), id)
  {
    var s' := Next(AsWritten, s, step);
    if token :| SessionThreatens(s', id, token) {
      SessionsStaySafe(s, step, id, token);
    }
    if r :| LoginThreatens(s', id, r) {
      LoginsStaySafe(s, step, id, r);
    }
  }

  lemma {:induction false} StaysSafe(before: seq<Step>, later: seq<Step>, id: nat)
    requires CurrentFrom(before, later) && !Threatened(Run(AsWritten, before), id)
    ensures !Threatened(Run(AsWritten, before + later), id)
  {
    if later == [] {
      assert before + later == before;
    } else {
      var shorter, step := later[..|later| - 1], later[|later| - 1];
      assert later == shorter + [step];
      OneMoreCurrent(before, shorter, step);
      StaysSafe(before, shorter, id);
      RunIsKnown(before + shorter);
      NextStaysSafe(Run(AsWritten, before + shorter), step, id);
    }
  }

  lemma NoThreatIsFresh(s: State)
    requires Known(s) && Unthreatened(s)
    ensures Fresh(s)
  {
    FreshIffNoneStale(s);
    forall token ensures !StaleSession(s, token) {
      if StaleSession(s, token) {
        assert SessionThreatens(s, s.accounts.sessions[token].userId, token);
      }
    }
  }

  // ----- making a threat come true -----

  lemma {:induction false} LongerThanAll(tokens: set<string>) returns (n: nat)
    ensures forall t :: t in tokens ==> |t| < n
  {
    if tokens == {} {
      n := 0;
    } else {
      var t :| t in tokens;
      var m := LongerThanAll(tokens - {t});
      n := if |t| < m then m else |t| + 1;
    }
  }

  lemma UnusedToken(sessions: map<string, Session>) returns (token: string)
    ensures token !in sessions
  {
    var n := LongerThanAll(sessions.Keys);
    token := seq(n, _ => 'a');
  }

  /**
   * What enabling a user `raises` times leads to: a higher version, and everything that was read or started still
   * there.
   */
  ghost predicate Raised(s: State, s': State, id: nat, raises: nat) {
    && id in s.accounts.users && id in s'.accounts.users
    && s'.accounts.users[id].version == s.accounts.users[id].version + raises
    && s'.accounts.users[id].active == (raises > 0 || s.accounts.users[id].active)
    && Count(s'.changes, id) == Count(s.changes, id) + raises
    && s'.pending == s.pending && s'.accounts.sessions == s.accounts.sessions && s'.since == s.since
  }

  lemma RaiseOnce(s: State, s': State, id: nat, raises: nat)
    requires Raised(s, s', id, raises)
    ensures Raised(s, Next(AsWritten, s', SetActive(id, true)), id, raises + 1)
  {
  }

  lemma {:induction false} Raise(before: seq<Step>, id: nat, raises: nat) returns (later: seq<Step>)
    requires id in Run(AsWritten, before).accounts.users
    ensures CurrentFrom(before, later) && Raised(Run(AsWritten, before), Run(AsWritten, before + later), id, raises)
  {
    if raises == 0 {
      later := [];
      assert before + later == before;
    } else {
      var shorter := Raise(before, id, raises - 1);
      RaiseOnce(Run(AsWritten, before), Run(AsWritten, before + shorter), id, raises - 1);
      OneMoreCurrent(before, shorter, SetActive(id, true));
      later := shorter + [SetActive(id, true)];
    }
  }

  /** A stored session is stale as soon as its version has come round. */
  lemma SessionTurnsStale(before: seq<Step>, id: nat, token: string) returns (later: seq<Step>)
    requires SessionThreatens(Run(AsWritten, before), id, token)
    ensures CurrentFrom(before, later) && !Fresh(Run(AsWritten, before + later))
  {
    var s := Run(AsWritten, before);
    later := Raise(before, id, s.accounts.sessions[token].version - s.accounts.users[id].version);
    RunIsKnown(before + later);
    assert StaleSession(Run(AsWritten, before + later), token);
    FreshIffNoneStale(Run(AsWritten, before + later));
  }

  /** A login in flight inserts its session when its version has come round. */
  lemma LoginTurnsStale(before: seq<Step>, id: nat, r: nat) returns (later: seq<Step>)
    requires LoginThreatens(Run(AsWritten, before), id, r)
    ensures CurrentFrom(before, later) && !Fresh(Run(AsWritten, before + later))
  {
    var s := Run(AsWritten, before);
    later := Raise(before, id, s.pending[r].version - s.accounts.users[id].version);
    var s' := Run(AsWritten, before + later);
    if Fresh(s') {
      var token := UnusedToken(s'.accounts.sessions);
      RunIsKnown(before + later);
      InsertionBreaksFreshnessIff(s', r, None, token, 0, 1);
      OneMoreCurrent(before, later, StartSession(r, None, token, 0, 1));
      later := later + [StartSession(r, None, token, 0, 1)];
    }
  }

  lemma ThreatComesTrue(before: seq<Step>, id: nat) returns (later: seq<Step>)
    requires Threatened(Run(AsWritten, before), id)
    ensures CurrentFrom(before, later) && !Fresh(Run(AsWritten, before + later))
  {
    if r :| LoginThreatens(Run(AsWritten, before), id, r) {
      later := LoginTurnsStale(before, id, r);
    } else {
      var token :| SessionThreatens(Run(AsWritten, before), id, token);
      later := SessionTurnsStale(before, id, token);
    }
  }

  // ----- the exact conditions -----

  /** Every continuation without an outdated write is fresh. */
  ghost predicate StaysFresh(before: seq<Step>) {
    forall later :: CurrentFrom(before, later) ==> Fresh(Run(AsWritten, before + later))
  }

  /** No login in flight and no stored session that has missed a change of its user holds a version that comes round. */
  ghost predicate Unthreatened(s: State) {
    forall id :: id in s.accounts.users ==> !Threatened(s, id)
  }

  lemma UnthreatenedStaysFresh(before: seq<Step>, later: seq<Step>)
    requires CurrentFrom(before, later) && Unthreatened(Run(AsWritten, before))
    ensures Fresh(Run(AsWritten, before + later))
  {
    var s, s' := Run(AsWritten, before), Run(AsWritten, before + later);
    forall id | id in s'.accounts.users ensures !Threatened(s', id) {
      assert Threatened(s, id) ==> id in s.accounts.users;
      StaysSafe(before, later, id);
    }
    RunIsKnown(before + later);
    NoThreatIsFresh(s');
  }

  lemma ThreatEndsFreshness(before: seq<Step>, id: nat)
    requires Threatened(Run(AsWritten, before), id)
    ensures !StaysFresh(before)
  {
    var later := ThreatComesTrue(before, id);
    assert CurrentFrom(before, later) && !Fresh(Run(AsWritten, before + later));
  }

  /**
   * From any state that a run of the code reaches, however many outdated writes it made: all continuations without a
   * further one are fresh exactly if no login in flight and no stored session that has missed a change of its user
   * holds a version above hers, or hers while she is active.
   */
  lemma StaysFreshIff(before: seq<Step>)
    ensures StaysFresh(before) <==> Unthreatened(Run(AsWritten, before))
  {
    if id :| id in Run(AsWritten, before).accounts.users && Threatened(Run(AsWritten, before), id) {
      ThreatEndsFreshness(before, id);
    } else {
      forall later | CurrentFrom(before, later) ensures Fresh(Run(AsWritten, before + later)) {
        UnthreatenedStaysFresh(before, later);
      }
    }
  }

  /** In particular nothing threatens a run that has made no outdated write at all. */
  lemma CurrentRunIsSafe(steps: seq<Step>, id: nat)
    requires AllCurrent(AsWritten, steps)
    ensures !Threatened(Run(AsWritten, steps), id)
  {
    RunIsCounted(AsWritten, steps);
  }

  // ----- one password write -----

  /** A login of the user in flight read a version above the one being written, or that one while she is active. */
  ghost predicate ReadAbove(s0: State, id: nat, held: nat)
    requires id in s0.accounts.users
  {
    exists r :: InFlight(s0, r, id)
                && (held + 1 < s0.pending[r].version
                    || (held + 1 == s0.pending[r].version && s0.accounts.users[id].active))
  }

  /** The write deletes her sessions and makes every login in flight one that has missed a change. */
  lemma WriteThreatensIff(s0: State, request: nat, password: string)
    requires Known(s0) && Enabled(AsWritten, s0, WritePassword(request, password))
    ensures var id := s0.pending[request].id;
            Threatened(Next(AsWritten, s0, WritePassword(request, password)), id)
            <==> ReadAbove(s0, id, s0.pending[request].held)
  {
    var id, held, s1 := s0.pending[request].id, s0.pending[request].held,
      Next(AsWritten, s0, WritePassword(request, password));
    if r :| InFlight(s0, r, id)
            && (held + 1 < s0.pending[r].version || (held + 1 == s0.pending[r].version && s0.accounts.users[id].active))
    {
      assert LoginThreatens(s1, id, r);
    }
    if r :| LoginThreatens(s1, id, r) {
      assert InFlight(s0, r, id);
    }
  }

  /** It leaves every other user's logins and sessions, and what threatens them, as they were. */
  lemma WriteLeavesOthers(s0: State, request: nat, password: string, id: nat)
    requires Known(s0) && Enabled(AsWritten, s0, WritePassword(request, password)) && id != s0.pending[request].id
    ensures Threatened(Next(AsWritten, s0, WritePassword(request, password)), id) <==> Threatened(s0, id)
  {
    var s1 := Next(AsWritten, s0, WritePassword(request, password));
    forall r ensures LoginThreatens(s1, id, r) <==> LoginThreatens(s0, id, r) {
    }
    forall token ensures SessionThreatens(s1, id, token) <==> SessionThreatens(s0, id, token) {
    }
  }

  /**
   * The exact condition of harm, for any password write of any run: all continuations without an outdated write are
   * fresh if and only if at the write no login of that user was in flight with a version above the one written (or with
   * that one, for an active user), and no other user was threatened already.
   */
  lemma PasswordWriteIsHarmlessIff(earlier: seq<Step>, request: nat, password: string)
    requires Enabled(AsWritten, Run(AsWritten, earlier), WritePassword(request, password))
    ensures var s0 := Run(AsWritten, earlier);
            StaysFresh(earlier + [WritePassword(request, password)])
            <==> && !ReadAbove(s0, s0.pending[request].id, s0.pending[request].held)
                 && forall id :: id in s0.accounts.users && id != s0.pending[request].id ==> !Threatened(s0, id)
  {
    var s0 := Run(AsWritten, earlier);
    RunIsKnown(earlier);
    NextOfRun(AsWritten, earlier, WritePassword(request, password));
    StaysFreshIff(earlier + [WritePassword(request, password)]);
    WriteThreatensIff(s0, request, password);
    forall id | id != s0.pending[request].id
      ensures Threatened(Next(AsWritten, s0, WritePassword(request, password)), id) <==> Threatened(s0, id)
    {
      WriteLeavesOthers(s0, request, password, id);
    }
  }

  // ----- a late session -----

  /** The user's version counts the changes from a write on. */
  ghost predicate CountsFrom(s1: State, s: State, id: nat) {
    && id in s1.accounts.users && id in s.accounts.users && Count(s1.changes, id) <= Count(s.changes, id)
    && s.accounts.users[id].version - s1.accounts.users[id].version == Count(s.changes, id) - Count(s1.changes, id)
  }

  lemma NextCountsFrom(s1: State, s: State, step: Step, id: nat)
    requires Known(s) && CountsFrom(s1, s, id) && Current(s, step)
    ensures CountsFrom(s1, Next(AsWritten, s, step), id)
  {
  }

  lemma {:induction false} VersionCountsFrom(before: seq<Step>, later: seq<Step>, id: nat)
    requires CurrentFrom(before, later) && id in Run(AsWritten, before).accounts.users
    ensures CountsFrom(Run(AsWritten, before), Run(AsWritten, before + later), id)
  {
    if later == [] {
      assert before + later == before;
    } else {
      var shorter, step := later[..|later| - 1], later[|later| - 1];
      assert later == shorter + [step];
      OneMoreCurrent(before, shorter, step);
      VersionCountsFrom(before, shorter, id);
      RunIsKnown(before + shorter);
      NextCountsFrom(Run(AsWritten, before), Run(AsWritten, before + shorter), step, id);
    }
  }

  lemma WriteSetsVersion(s0: State, request: nat, password: string)
    requires Known(s0) && Enabled(AsWritten, s0, WritePassword(request, password))
    ensures var s1, id := Next(AsWritten, s0, WritePassword(request, password)), s0.pending[request].id;
            && id in s1.accounts.users && s1.accounts.users[id].version == s0.pending[request].held + 1
            && Count(s1.changes, id) == Count(s0.changes, id) + 1
  {
  }

  /** A login of another user, safe at the write, is still safe when it inserts its session. */
  lemma OthersStayFresh(earlier: seq<Step>, request: nat, password: string, later: seq<Step>, login: nat, other: nat)
    requires Enabled(AsWritten, Run(AsWritten, earlier), WritePassword(request, password))
    requires CurrentFrom(earlier + [WritePassword(request, password)], later)
    requires other != Run(AsWritten, earlier).pending[request].id && !Threatened(Run(AsWritten, earlier), other)
    ensures !LoginThreatens(Run(AsWritten, earlier + [WritePassword(request, password)] + later), other, login)
  {
    RunIsKnown(earlier);
    NextOfRun(AsWritten, earlier, WritePassword(request, password));
    WriteLeavesOthers(Run(AsWritten, earlier), request, password, other);
    StaysSafe(earlier + [WritePassword(request, password)], later, other);
  }

  /**
   * A login in flight since before a password write inserts its session after any further steps without an outdated
   * write. If it is for that user, the session is stale exactly if she is active and the login read the held version
   * plus one for every change from the write on. For another user who was not threatened at the write, it is fresh.
   */
  lemma LateSessionIsStaleIff(earlier: seq<Step>, request: nat, password: string, later: seq<Step>, login: nat,
                              cookie: Option<string>, token: string, now: int, expiresAt: int)
    requires Enabled(AsWritten, Run(AsWritten, earlier), WritePassword(request, password))
    requires CurrentFrom(earlier + [WritePassword(request, password)], later)
    requires var s0, s := Run(AsWritten, earlier), Run(AsWritten, earlier + [WritePassword(request, password)] + later);
             && Fresh(s) && token !in s.accounts.sessions
             && login in s0.pending && login in s.pending && s.pending[login] == s0.pending[login]
             && s0.pending[login].ToStart?
    ensures var s0, s := Run(AsWritten, earlier), Run(AsWritten, earlier + [WritePassword(request, password)] + later);
            var id, held, p := s0.pending[request].id, s0.pending[request].held, s0.pending[login];
            var stale := !Fresh(Next(AsWritten, s, StartSession(login, cookie, token, now, expiresAt)));
            && (p.id == id ==>
                  (stale <==> id in s.accounts.users && s.accounts.users[id].active
                              && p.version == held + Count(s.changes, id) - Count(s0.changes, id)))
            && (p.id != id && !Threatened(s0, p.id) ==> !stale)
  {
    var before := earlier + [WritePassword(request, password)];
    var s0, s := Run(AsWritten, earlier), Run(AsWritten, before + later);
    var id := s0.pending[request].id;
    RunIsKnown(earlier);
    RunIsKnown(before + later);
    InsertionBreaksFreshnessIff(s, login, cookie, token, now, expiresAt);
    if s0.pending[login].id == id {
      NextOfRun(AsWritten, earlier, WritePassword(request, password));
      WriteSetsVersion(s0, request, password);
      VersionCountsFrom(before, later, id);
    } else if !Threatened(s0, s0.pending[login].id) {
      OthersStayFresh(earlier, request, password, later, login, s0.pending[login].id);
    }
  }
}
