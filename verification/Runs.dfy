/** Whole runs: every operation of the panel, the daemon and the disk, in any order. */
module Runs {
  import opened Text
  import opened Quota
  import opened Ledger
  import opened Accounts
  import opened StateFile
  import opened Panel
  import opened Attribution
  import opened Enforcement
  import opened Quarantine

  datatype Op =
    | OpCreate(proto: Proto, user: Login, pass: Password, draws: seq<Password>, exp: Day, quota: Limit)
    | OpDelete(user: Login, pw: Password)
    | OpChangePassword(user: Login, to: Password)
    | OpRenew(user: Login, exp: Day)
    | OpSetQuota(user: Login, quota: Limit)
    | OpLock(user: Login)
    | OpUnlock(user: Login)
    | OpBlock(names: seq<Login>, reason: Reason)
    | OpUnblock(names: seq<Login>)
    | OpEnforce(order: seq<Login>, meter: Login -> nat)
    | OpGuard(cooling: bool, alive: bool, placeholder: Password)
    | OpBackup(now: int, dropped: set<int>)
    | OpRestore
    | OpDaemon(acts: seq<Act>)
    | OpStart
    | OpStop
    | OpDiskFault

  /** An operation, the day and rounding it runs under, and the daemon's moves in its gaps. */
  datatype Move = Move(op: Op, ctx: Ctx, g: Gaps)

  /** The operations that edit accounts in place. */
  predicate Edits(op: Op) {
    op.OpRenew? || op.OpSetQuota? || op.OpLock? || op.OpUnlock? || op.OpBlock? || op.OpUnblock?
  }

  ghost function Edited(s: State, m: Move): State
    requires Edits(m.op)
  {
    match m.op
    case OpRenew(user, exp) => Renew(s, user, exp, m.ctx, m.g)
    case OpSetQuota(user, quota) => SetQuota(s, user, quota, m.ctx, m.g)
    case OpLock(user) => Lock(s, user, m.ctx, m.g)
    case OpUnlock(user) => Unlock(s, user, m.ctx, m.g)
    case OpBlock(names, reason) => Block(s, names, reason, m.ctx, m.g)
    case OpUnblock(names) => Unblock(s, names, m.ctx, m.g)
  }

  /** What the disk, the daemon and the backup job do on their own. */
  predicate Machine(op: Op) {
    op.OpBackup? || op.OpRestore? || op.OpDaemon? || op.OpStart? || op.OpStop? || op.OpDiskFault?
  }

  function Operated(s: State, op: Op): (t: State)
    requires Machine(op)
    ensures t.users == s.users && t.config == s.config && t.quarantine == s.quarantine && t.registry == s.registry
  {
    match op
    case OpBackup(now, dropped) => s.(copies := Backup(s.files, s.copies, now, dropped))
    case OpRestore => s.(files := Restore(s.files, s.copies))
    case OpDaemon(acts) => EnvKeys(s, acts); Env(s, acts)
    case OpStart => StartKeys(s); Start(s)
    case OpStop => Stop(s)
    case OpDiskFault => s.(files := s.files.(main := Corrupt))
  }

  ghost function Next(s: State, m: Move): State {
    if Edits(m.op) then Edited(s, m)
    else if Machine(m.op) then Operated(s, m.op)
    else match m.op
      case OpCreate(proto, user, pass, draws, exp, quota) => Create(s, proto, user, pass, draws, exp, quota, m.ctx, m.g).state
      case OpDelete(user, pw) => Delete(s, user, pw, m.ctx, m.g)
      case OpChangePassword(user, to) => ChangePassword(s, user, to, m.ctx, m.g)
      case OpEnforce(order, meter) => Enforce(s, order, meter, m.ctx, m.g)
      case OpGuard(cooling, alive, placeholder) => Guard(s, m.ctx, cooling, alive, placeholder, m.g).state
  }

  ghost function After(s: State, moves: seq<Move>): State {
    if moves == [] then s else Next(After(s, moves[..|moves| - 1]), moves[|moves| - 1])
  }

  // ---- what is asked of a run ----

  /** Deletions name something that exists, and not the password of an account by another name;
      passes go over the whole directory; zivpn accounts that change password have one. */
  ghost predicate Aimed(s: State, m: Move) {
    match m.op
    case OpDelete(user, pw) => DeleteTarget(s, user, pw) && (user !in s.users ==> pw !in Live(s.users))
    case OpChangePassword(user, to) =>
      user in s.users && s.users[user].proto.Zivpn? ==> s.users[user].pass != "" && to != ""
    case OpEnforce(order, _) => Listing(order, s.users)
    case _ => true
  }

  /** The purge of a deletion, or the migration of a changed password, finds in the main file
      whatever the mirror holds of the password it is to remove. */
  ghost predicate Purgeable(s: State, m: Move) {
    match m.op
    case OpDelete(user, pw) => MirrorBehind(PurgePoint(s.(users := s.users - {user}), pw, m.g).files, pw)
    case OpChangePassword(user, to) =>
      user in s.users && s.users[user].proto.Zivpn? ==>
        MirrorBehind(MigratePoint(Rekeyed(s, user, to), m.g).files, s.users[user].pass)
    case _ => true
  }

  ghost predicate Sound(s: State, moves: seq<Move>) {
    forall i :: 0 <= i < |moves| ==>
      Aimed(After(s, moves[..i]), moves[i]) && Purgeable(After(s, moves[..i]), moves[i])
  }

  /** Every key has an owner, every owner is registered and alone, no store overcharges anyone. */
  ghost predicate Safe(s: State) {
    Registered(s) && Owned(s) && Attributed(s) && DistinctLogins(s.users) && "" !in s.users
  }

  // ---- operations that keep every account's identity ----

  ghost predicate SameAccounts(users: Users, others: Users) {
    && others.Keys == users.Keys
    && forall u :: u in users ==> others[u].proto == users[u].proto && others[u].pass == users[u].pass
  }

  lemma SameAccountsLive(users: Users, others: Users)
    requires SameAccounts(users, others)
    ensures Live(others) == Live(users)
    ensures UniquePasswords(users) ==> UniquePasswords(others)
    ensures DistinctLogins(users) ==> DistinctLogins(others)
  {
    forall pw | pw in Live(users) ensures pw in Live(others) {
      var u :| u in users && users[u].proto.Zivpn? && users[u].pass == pw;
      assert others[u].pass == pw && others[u].proto.Zivpn?;
    }
    forall pw | pw in Live(others) ensures pw in Live(users) {
      var u :| u in others && others[u].proto.Zivpn? && others[u].pass == pw;
      assert users[u].pass == pw && users[u].proto.Zivpn?;
    }
    if UniquePasswords(users) {
      forall u, v | u in others && v in others && Owns(others[u], others[v].pass) && others[v].proto.Zivpn? ensures u == v {
        assert Owns(users[u], users[v].pass);
      }
    }
  }

  /** The stores and the daemon are as they were; only flags, quotas, dates and ledgers moved. */
  ghost predicate SameStores(s: State, t: State) {
    t.files == s.files && t.copies == s.copies && t.registry == s.registry && t.config == s.config
    && t.daemon == s.daemon && t.carried == s.carried && SameAccounts(s.users, t.users)
  }

  lemma FairElsewhere(s: State, t: State)
    requires Attributed(s) && t.files == s.files && t.copies == s.copies && t.daemon == s.daemon && t.carried == s.carried
    ensures Attributed(t)
  {
    forall pw ensures Fair(t, pw) { assert Fair(s, pw); }
  }

  lemma SafeStores(s: State, t: State)
    requires Safe(s) && SameStores(s, t)
    ensures Safe(t)
  {
    SameAccountsLive(s.users, t.users);
    FairElsewhere(s, t);
  }

  lemma SafeApply(s: State, ctx: Ctx, gap: seq<Act>)
    requires Safe(s)
    ensures Safe(Apply(s, ctx, gap))
  {
    ApplyKeys(s, ctx, gap);
    forall pw ensures Fair(Apply(s, ctx, gap), pw) {
      assert Fair(s, pw);
      ApplyFair(s, ctx, gap, pw);
    }
  }

  lemma SafeEnv(s: State, acts: seq<Act>)
    requires Safe(s)
    ensures Safe(Env(s, acts))
  {
    EnvKeys(s, acts);
    forall pw ensures Fair(Env(s, acts), pw) {
      assert Fair(s, pw);
      EnvFair(s, acts, pw);
    }
  }

  lemma SafeStart(s: State)
    requires Safe(s)
    ensures Safe(Start(s)) && Safe(Stop(s))
  {
    StartKeys(s);
    forall pw ensures Fair(Start(s), pw) && Fair(Stop(s), pw) {
      assert Fair(s, pw);
      StartFair(s, pw);
    }
  }

  // ---- operation by operation ----

  lemma SafeWith(s: State, user: Login, a: Account, q: map<Password, Login>, ctx: Ctx, gap: seq<Act>)
    requires Safe(s) && user in s.users && a.proto == s.users[user].proto && a.pass == s.users[user].pass
    ensures var t := With(s, user, a).(quarantine := q); Safe(t) && Safe(Apply(t, ctx, gap))
  {
    var t := With(s, user, a).(quarantine := q);
    SafeStores(s, t);
    SafeApply(t, ctx, gap);
  }

  lemma RenewedSame(a: Account, exp: Day)
    ensures RenewedAccount(a, exp).proto == a.proto && RenewedAccount(a, exp).pass == a.pass
  {
  }

  lemma SafeRenew(s: State, user: Login, exp: Day, ctx: Ctx, g: Gaps)
    requires Safe(s)
    ensures Safe(Renew(s, user, exp, ctx, g))
  {
    if user in s.users {
      var a := RenewedAccount(s.users[user], exp);
      RenewedSame(s.users[user], exp);
      SafeWith(s, user, a, s.quarantine, ctx, g(0));
      assert With(s, user, a).(quarantine := s.quarantine) == With(s, user, a);
    }
  }

  lemma SafeSetQuota(s: State, user: Login, quota: Limit, ctx: Ctx, g: Gaps)
    requires Safe(s)
    ensures Safe(SetQuota(s, user, quota, ctx, g))
  {
    if user in s.users {
      var a := RequotaedAccount(s.users[user], quota);
      SafeWith(s, user, a, s.quarantine, ctx, g(0));
      SafeWith(s, user, a, Freed(s.quarantine, user), ctx, g(0));
    }
  }

  lemma SafeLock(s: State, user: Login, ctx: Ctx, g: Gaps)
    requires Safe(s)
    ensures Safe(Lock(s, user, ctx, g))
  {
    if user in s.users {
      var a := s.users[user].(locked := true);
      SafeWith(s, user, a, s.quarantine, ctx, g(0));
      SafeWith(s, user, a, Quarantined(s.quarantine, user, a.pass), ctx, g(0));
    }
  }

  lemma SafeUnlock(s: State, user: Login, ctx: Ctx, g: Gaps)
    requires Safe(s)
    ensures Safe(Unlock(s, user, ctx, g))
  {
    if user in s.users {
      var a := s.users[user].(locked := false);
      SafeWith(s, user, a, s.quarantine, ctx, g(0));
      SafeWith(s, user, a, Freed(s.quarantine, user), ctx, g(0));
    }
  }

  lemma {:induction false} BlockSameStores(s: State, names: seq<Login>, reason: Reason)
    ensures SameStores(s, BlockAll(s, names, reason).state)
  {
    if names != [] { BlockSameStores(s, names[..|names| - 1], reason); }
  }

  lemma {:induction false} UnblockSameStores(s: State, names: seq<Login>)
    ensures SameStores(s, UnblockAll(s, names).state)
  {
    if names != [] { UnblockSameStores(s, names[..|names| - 1]); }
  }

  lemma SafeBlock(s: State, names: seq<Login>, reason: Reason, ctx: Ctx, g: Gaps)
    requires Safe(s)
    ensures Safe(Block(s, names, reason, ctx, g))
  {
    BlockSameStores(s, names, reason);
    SafeStores(s, BlockAll(s, names, reason).state);
    SafeApply(BlockAll(s, names, reason).state, ctx, g(0));
  }

  lemma SafeUnblock(s: State, names: seq<Login>, ctx: Ctx, g: Gaps)
    requires Safe(s)
    ensures Safe(Unblock(s, names, ctx, g))
  {
    UnblockSameStores(s, names);
    SafeStores(s, UnblockAll(s, names).state);
    SafeApply(UnblockAll(s, names).state, ctx, g(0));
  }

  lemma SafeEnforce(s: State, order: seq<Login>, meter: Login -> nat, ctx: Ctx, g: Gaps)
    requires Safe(s)
    ensures Safe(Enforce(s, order, meter, ctx, g))
  {
    var p := Passed(s, order, meter, ctx.today);
    forall u | u in s.users ensures p.users[u].proto == s.users[u].proto && p.users[u].pass == s.users[u].pass {
      PassOnAccount(s, order, meter, ctx.today, u);
      VerdictIsStable(Synced(s).users[u], ctx.today, Usage(Synced(s), meter, u));
    }
    SafeStores(s, p);
    SafeApply(p, ctx, g(0));
  }

  lemma SafeRestore(s: State)
    requires Safe(s)
    ensures Safe(s.(files := Restore(s.files, s.copies)))
  {
    var t := s.(files := Restore(s.files, s.copies));
    NewestValidIsACopy(s.copies);
    forall pw ensures Fair(t, pw) { assert Fair(s, pw); }
  }

  lemma SafeBackup(s: State, now: int, dropped: set<int>)
    requires Safe(s)
    ensures Safe(s.(copies := Backup(s.files, s.copies, now, dropped)))
  {
    var t := s.(copies := Backup(s.files, s.copies, now, dropped));
    BackupsAreCopies(s.files, s.copies, now, dropped);
    forall pw | pw in CopyKeys(t.copies) ensures pw in AllKeys(s) {
      var i :| 0 <= i < |t.copies| && pw in t.copies[i].file.Keys();
      assert t.copies[i] in t.copies;
      if t.copies[i] in s.copies {
        var j :| 0 <= j < |s.copies| && s.copies[j] == t.copies[i];
        assert pw in s.copies[j].file.Keys();
      }
    }
    forall pw ensures Fair(t, pw) {
      assert Fair(s, pw);
      forall i | 0 <= i < |t.copies| ensures t.copies[i].file.Used(pw) <= CarriedBy(t, pw) {
        assert t.copies[i] in t.copies;
        if t.copies[i] in s.copies {
          var j :| 0 <= j < |s.copies| && s.copies[j] == t.copies[i];
        }
      }
    }
  }

  lemma SafePadded(t: State, placeholder: Password, gap: seq<Act>)
    requires Safe(t) && t.config.Cfg?
    ensures Safe(Padded(t, placeholder, gap))
  {
    var padded := t.(config := t.config.(auth := multiset{placeholder}));
    FairElsewhere(t, padded);
    SafeEnv(padded, gap);
    SafeStart(Env(padded, gap));
    SafeStart(Stop(Env(padded, gap)));
  }

  lemma SafeSeeded(s: State)
    requires Safe(s)
    ensures Safe(RestoredIfCorrupt(Synced(Seeded(s))))
  {
    var seeded := Seeded(s);
    FairElsewhere(s, seeded);
    SafeStores(seeded, Synced(seeded));
    SafeRestore(Synced(seeded));
  }

  lemma SafeChecks(t: State, ctx: Ctx, cooling: bool, alive: bool, placeholder: Password, g: Gaps)
    requires Safe(t)
    ensures Safe(GuardChecks(t, ctx, cooling, alive, placeholder, g).state)
  {
    SafeApply(t, ctx, g(0));
    if t.config.Cfg? { SafePadded(t, placeholder, g(0)); }
  }

  lemma SafeGuard(s: State, ctx: Ctx, cooling: bool, alive: bool, placeholder: Password, g: Gaps)
    requires Safe(s)
    ensures Safe(Guard(s, ctx, cooling, alive, placeholder, g).state)
  {
    SafeStart(s);
    SafeSeeded(Start(s));
    SafeChecks(RestoredIfCorrupt(Synced(Seeded(Start(s)))), ctx, cooling, alive, placeholder, g);
  }

  lemma LiveShrinks(users: Users, user: Login)
    requires UniquePasswords(users) && user in users && users[user].proto.Zivpn?
    ensures Live(users - {user}) == Live(users) - {users[user].pass}
    ensures UniquePasswords(users - {user})
  {
    var rest := users - {user};
    forall pw | pw in Live(users) - {users[user].pass} ensures pw in Live(rest) {
      var u :| u in users && users[u].proto.Zivpn? && users[u].pass == pw;
      assert rest[u] == users[u];
    }
    forall pw | pw in Live(rest) ensures pw in Live(users) && pw != users[user].pass {
      var u :| u in rest && rest[u].proto.Zivpn? && rest[u].pass == pw;
      assert users[u] == rest[u];
      assert Owns(users[user], users[u].pass) ==> u == user;
    }
  }

  lemma LiveWithoutOther(users: Users, user: Login)
    requires user in users ==> !users[user].proto.Zivpn?
    ensures Live(users - {user}) == Live(users)
    ensures UniquePasswords(users) ==> UniquePasswords(users - {user})
  {
    var rest := users - {user};
    forall pw | pw in Live(users) ensures pw in Live(rest) {
      var u :| u in users && users[u].proto.Zivpn? && users[u].pass == pw;
      assert rest[u] == users[u];
    }
  }

  /** The bookkeeping of a deletion, from what is known of the state it ends in. */
  lemma DeletedIsRegistered(s: State, t: State, pw: Password)
    requires AllKeys(s) <= Live(s.users) + {pw} && AllKeys(s) <= s.registry && Live(s.users) <= s.registry
    requires pw !in Live(s.users) && UniquePasswords(s.users) && DistinctLogins(s.users) && "" !in s.users
    requires t.users == s.users && t.registry == Unregistered(s.registry, pw)
    requires AllKeys(t) <= AllKeys(s) + Live(s.users) && pw !in AllKeys(t)
    ensures Registered(t) && Owned(t) && DistinctLogins(t.users) && "" !in t.users
  {
  }

  /** The account is out of `s.users` already; only its counters are left. */
  lemma SafeDeleteZivpn(s: State, user: Login, pw: Password, ctx: Ctx, g: Gaps)
    requires Attributed(s) && UniquePasswords(s.users) && DistinctLogins(s.users) && "" !in s.users
    requires AllKeys(s) <= Live(s.users) + {pw} && AllKeys(s) <= s.registry && Live(s.users) <= s.registry
    requires pw !in Live(s.users) && (pw == "" ==> "" !in AllKeys(s))
    requires MirrorBehind(PurgePoint(s, pw, g).files, pw)
    ensures Safe(DeleteZivpn(s, user, pw, ctx, g))
  {
    var t := DeleteZivpn(s, user, pw, ctx, g);
    DeleteKeys(s, user, pw, ctx, g);
    if pw != "" { DeleteRemovesEveryTrace(s, user, pw, ctx, g); }
    assert "" !in Live(s.users);
    DeletedIsRegistered(s, t, pw);
    forall k ensures Fair(t, k) {
      assert Fair(s, k);
      DeleteFair(s, user, pw, ctx, g, k);
    }
  }

  lemma SafeDelete(s: State, user: Login, pw: Password, ctx: Ctx, g: Gaps)
    requires Safe(s) && DeleteTarget(s, user, pw) && (user !in s.users ==> pw !in Live(s.users))
    requires MirrorBehind(PurgePoint(s.(users := s.users - {user}), pw, g).files, pw)
    ensures Safe(Delete(s, user, pw, ctx, g))
  {
    var gone := s.(users := s.users - {user});
    FairElsewhere(s, gone);
    assert "" !in Live(s.users);
    if user in s.users && s.users[user].proto.Zivpn? {
      LiveShrinks(s.users, user);
      SafeDeleteZivpn(gone, user, pw, ctx, g);
    } else {
      LiveWithoutOther(s.users, user);
      if user !in s.users { SafeDeleteZivpn(gone, user, pw, ctx, g); }
    }
  }

  lemma DistinctGrows(users: Users, user: Login, a: Account)
    requires DistinctLogins(users) && !LoginTaken(users, user)
    ensures DistinctLogins(users[user := a])
  {
  }

  lemma LiveWithOther(users: Users, user: Login, a: Account)
    requires user !in users && !a.proto.Zivpn?
    ensures Live(users[user := a]) == Live(users)
    ensures UniquePasswords(users) ==> UniquePasswords(users[user := a])
  {
    var more := users[user := a];
    forall pw | pw in Live(users) ensures pw in Live(more) {
      var u :| u in users && users[u].proto.Zivpn? && users[u].pass == pw;
      assert more[u] == users[u];
    }
  }

  lemma SafeSettle(s: State, pass: Password, draws: seq<Password>, g: Gaps)
    requires Safe(s)
    ensures Safe(Settle(s, pass, draws, g).state)
    ensures var t := Settle(s, pass, draws, g);
            t.state.users == s.users && (t.pw != "" ==> t.pw !in AllKeys(t.state) && t.pw !in Live(s.users))
  {
    var t := Settle(s, pass, draws, g);
    EnvKeys(s, g(0));
    PurgedCopiesAreClean(Env(s, g(0)).copies, pass);
    forall k ensures Fair(t.state, k) {
      assert Fair(s, k);
      SettleFair(s, pass, draws, g, k);
    }
    if t.pw != "" {
      SettledOwned(s, pass, draws, g);
      SettledStartsFreshIff(s, pass, draws, g);
    }
  }

  lemma SafeEnrol(s: State, user: Login, pw: Password, exp: Day, quota: Limit, ctx: Ctx, g: Gaps)
    requires Safe(s) && !LoginTaken(s.users, user) && user != "" && pw != "" && pw !in Live(s.users) && pw !in AllKeys(s)
    ensures Safe(Enrol(s, user, pw, exp, quota, ctx, g))
  {
    var a := NewAccount(Zivpn, exp, pw, quota);
    EnrolKeys(s, user, pw, exp, quota, ctx, g);
    LiveGrows(s.users, user, a);
    DistinctGrows(s.users, user, a);
    forall k ensures Fair(Enrol(s, user, pw, exp, quota, ctx, g), k) {
      assert Fair(s, k);
      EnrolFair(s, user, pw, exp, quota, ctx, g, k);
    }
  }

  lemma SafeCreate(s: State, proto: Proto, user: Login, pass: Password, draws: seq<Password>, exp: Day,
                   quota: Limit, ctx: Ctx, g: Gaps)
    requires Safe(s)
    ensures Safe(Create(s, proto, user, pass, draws, exp, quota, ctx, g).state)
  {
    if ValidName(user) && !LoginTaken(s.users, user) {
      if proto.Zivpn? {
        var t := Settle(s, pass, draws, g);
        SafeSettle(s, pass, draws, g);
        if t.pw != "" { SafeEnrol(t.state, user, t.pw, exp, quota, ctx, g); }
      } else {
        var a := NewAccount(proto, exp, InitialPass(proto, pass, draws), quota);
        var t := s.(users := s.users[user := a]);
        LiveWithOther(s.users, user, a);
        DistinctGrows(s.users, user, a);
        FairElsewhere(s, t);
      }
    }
  }

  lemma LiveRekeyed(users: Users, user: Login, to: Password)
    requires UniquePasswords(users) && user in users && users[user].proto.Zivpn? && to != "" && to !in Live(users)
    ensures var now := users[user := users[user].(pass := to)];
            Live(now) == Live(users) - {users[user].pass} + {to} && UniquePasswords(now)
  {
    var now := users[user := users[user].(pass := to)];
    forall pw | pw in Live(users) - {users[user].pass} + {to} ensures pw in Live(now) {
      if pw == to {
        assert now[user].pass == to;
      } else {
        var u :| u in users && users[u].proto.Zivpn? && users[u].pass == pw;
        assert now[u] == users[u];
      }
    }
    forall pw | pw in Live(now) ensures pw == to || (pw in Live(users) && pw != users[user].pass) {
      var u :| u in now && now[u].proto.Zivpn? && now[u].pass == pw;
      assert Owns(users[user], users[u].pass) ==> u == user;
    }
    assert forall u :: u in users && u != user ==> now[u] == users[u];
    assert forall u :: u in users && users[u].proto.Zivpn? && users[u].pass != "" ==> users[u].pass in Live(users);
  }

  lemma RefusedCoversLive(s: State, user: Login, to: Password)
    requires Registered(s) && to !in s.registry
    ensures to !in Live(s.users) && to !in AllKeys(s)
  {
  }

  /** The bookkeeping of an accepted change, from what is known of the state it ends in. */
  lemma RekeyedIsRegistered(s: State, t: State, user: Login, to: Password)
    requires Safe(s) && Rekeyable(s, user, to) && to !in s.registry
    requires t.users == s.users[user := s.users[user].(pass := to)]
    requires t.registry == Unregistered(s.registry + {to}, s.users[user].pass)
    requires AllKeys(t) <= AllKeys(s) + Live(t.users) && s.users[user].pass !in AllKeys(t)
    ensures Registered(t) && Owned(t) && DistinctLogins(t.users) && "" !in t.users
  {
    LiveRekeyed(s.users, user, to);
  }

  lemma SafeAccepted(s: State, user: Login, to: Password, ctx: Ctx, g: Gaps)
    requires Safe(s) && Rekeyable(s, user, to) && to !in s.registry
    requires MirrorBehind(MigratePoint(Rekeyed(s, user, to), g).files, s.users[user].pass)
    ensures Safe(ChangeZivpn(s, user, to, ctx, g))
  {
    var t := ChangeZivpn(s, user, to, ctx, g);
    ChangeKeys(s, user, to, ctx, g);
    ChangeRemovesOldKey(s, user, to, ctx, g);
    RekeyedIsRegistered(s, t, user, to);
    forall k ensures Fair(t, k) {
      ChangeFair(s, user, to, ctx, g, k);
    }
  }

  lemma SafeChange(s: State, user: Login, to: Password, ctx: Ctx, g: Gaps)
    requires Safe(s)
    requires user in s.users && s.users[user].proto.Zivpn? ==>
               s.users[user].pass != "" && to != ""
               && MirrorBehind(MigratePoint(Rekeyed(s, user, to), g).files, s.users[user].pass)
    ensures Safe(ChangePassword(s, user, to, ctx, g))
  {
    if user in s.users {
      if !s.users[user].proto.Zivpn? {
        OtherRekeyed(s.users, user, to);
        FairElsewhere(s, Rekeyed(s, user, to));
      } else if s.users[user].pass != to && !Refused(s, user, to) {
        RefusedCoversLive(s, user, to);
        SafeAccepted(s, user, to, ctx, g);
      }
    }
  }

  lemma OtherRekeyed(users: Users, user: Login, to: Password)
    requires user in users && !users[user].proto.Zivpn?
    ensures var now := users[user := users[user].(pass := to)];
            Live(now) == Live(users) && (UniquePasswords(users) ==> UniquePasswords(now))
            && (DistinctLogins(users) ==> DistinctLogins(now))
  {
    var now := users[user := users[user].(pass := to)];
    forall pw | pw in Live(users) ensures pw in Live(now) {
      var u :| u in users && users[u].proto.Zivpn? && users[u].pass == pw;
      assert now[u] == users[u];
    }
  }

  lemma SafeFault(s: State)
    requires Safe(s)
    ensures Safe(s.(files := s.files.(main := Corrupt)))
  {
    forall pw ensures Fair(s.(files := s.files.(main := Corrupt)), pw) { assert Fair(s, pw); }
  }

  lemma MachineIsSafe(s: State, op: Op)
    requires Safe(s) && Machine(op)
    ensures Safe(Operated(s, op))
  {
    match op
    case OpBackup(now, dropped) => SafeBackup(s, now, dropped);
    case OpRestore => SafeRestore(s);
    case OpDaemon(acts) => SafeEnv(s, acts);
    case OpStart => SafeStart(s);
    case OpStop => SafeStart(s);
    case OpDiskFault => SafeFault(s);
  }

  lemma EditsAreSafe(s: State, m: Move)
    requires Safe(s) && Edits(m.op)
    ensures Safe(Edited(s, m))
  {
    match m.op
    case OpRenew(user, exp) => SafeRenew(s, user, exp, m.ctx, m.g);
    case OpSetQuota(user, quota) => SafeSetQuota(s, user, quota, m.ctx, m.g);
    case OpLock(user) => SafeLock(s, user, m.ctx, m.g);
    case OpUnlock(user) => SafeUnlock(s, user, m.ctx, m.g);
    case OpBlock(names, reason) => SafeBlock(s, names, reason, m.ctx, m.g);
    case OpUnblock(names) => SafeUnblock(s, names, m.ctx, m.g);
  }

  lemma NextIsSafe(s: State, m: Move)
    requires Safe(s) && Aimed(s, m) && Purgeable(s, m)
    ensures Safe(Next(s, m))
  {
    if Edits(m.op) {
      EditsAreSafe(s, m);
    } else if Machine(m.op) {
      MachineIsSafe(s, m.op);
    } else {
      match m.op
      case OpCreate(proto, user, pass, draws, exp, quota) => SafeCreate(s, proto, user, pass, draws, exp, quota, m.ctx, m.g);
      case OpDelete(user, pw) => SafeDelete(s, user, pw, m.ctx, m.g);
      case OpChangePassword(user, to) => SafeChange(s, user, to, m.ctx, m.g);
      case OpEnforce(order, meter) => SafeEnforce(s, order, meter, m.ctx, m.g);
      case OpGuard(cooling, alive, placeholder) => SafeGuard(s, m.ctx, cooling, alive, placeholder, m.g);
    }
  }

  lemma SoundPrefix(s: State, moves: seq<Move>)
    requires Sound(s, moves) && moves != []
    ensures Sound(s, moves[..|moves| - 1])
    ensures var n := |moves| - 1;
            Aimed(After(s, moves[..n]), moves[n]) && Purgeable(After(s, moves[..n]), moves[n])
  {
    var n := |moves| - 1;
    forall i | 0 <= i < n
      ensures Aimed(After(s, moves[..n][..i]), moves[..n][i]) && Purgeable(After(s, moves[..n][..i]), moves[..n][i])
    {
      assert moves[..n][..i] == moves[..i];
    }
  }

  /** Over every sound run: every counter key anywhere belongs to a present account and is
      registered, no two accounts share a password, no two logins differ only in case, and no
      store, present or restorable, charges an account for more than was metered for it. */
  lemma {:induction false} RunsAreSafe(s: State, moves: seq<Move>)
    requires Safe(s) && Sound(s, moves)
    ensures Safe(After(s, moves))
  {
    if moves != [] {
      var n := |moves| - 1;
      SoundPrefix(s, moves);
      RunsAreSafe(s, moves[..n]);
      NextIsSafe(After(s, moves[..n]), moves[n]);
    }
  }

  /** So, at the end of every sound run, an account's raw counter reads at most the bytes metered
      for its own owner, and a password no account has is found nowhere: no earlier account's
      bytes are inherited, by restore or otherwise, and nothing deleted comes back. */
  lemma NobodyPaysForAnother(s: State, moves: seq<Move>)
    requires Safe(s) && Sound(s, moves)
    ensures var t := After(s, moves);
            && (forall u :: u in t.users && u !in Live(t.users) ==> Raw(t, u) <= CarriedBy(t, t.users[u].pass))
            && (forall pw :: pw !in Live(t.users) ==> pw !in AllKeys(t))
  {
    RunsAreSafe(s, moves);
    var t := After(s, moves);
    forall u | u in t.users && u !in Live(t.users) ensures Raw(t, u) <= CarriedBy(t, t.users[u].pass) {
      assert Fair(t, t.users[u].pass);
    }
  }
}
