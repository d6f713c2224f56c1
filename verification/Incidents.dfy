/** Runs whose saves reach both files, and what a half save, a disk fault or a login taken for a
    password can do. */
module Incidents {
  import opened Text
  import opened Quota
  import opened Ledger
  import opened Accounts
  import opened StateFile
  import opened Panel
  import opened Attribution
  import opened Enforcement
  import opened Runs

  // ---- every save whole ----

  /** Both writes of a save, main file and mirror, reach the disk. An ordinary stop of the daemon
      can cut a save between them, so this is more than the absence of disk faults. */
  predicate Calm(act: Act) {
    act.Save? ==> act.mode.BothFiles?
  }

  ghost predicate CalmActs(acts: seq<Act>) {
    forall i :: 0 <= i < |acts| ==> Calm(acts[i])
  }

  ghost predicate CalmGaps(g: Gaps) {
    forall n: nat :: CalmActs(g(n))
  }

  /** No disk fault, no save cut between the two files. */
  ghost predicate CalmMove(m: Move) {
    !m.op.OpDiskFault? && CalmGaps(m.g) && (m.op.OpDaemon? ==> CalmActs(m.op.acts))
  }

  /** The main file is readable, or there is none and nothing was ever copied; the mirror holds
      no key the main file lacks. */
  ghost predicate Steady(f: Files, copies: seq<Copy>) {
    f.bak.Keys() <= f.main.Keys() && !f.main.Corrupt? && (f.main.Absent? ==> copies == [])
  }

  lemma SteadyForget(f: Files, copies: seq<Copy>, pw: Password)
    requires Steady(f, copies)
    ensures Steady(Forget(f, pw), copies) && MirrorBehind(f, pw)
  {
  }

  lemma SteadyMigrate(f: Files, copies: seq<Copy>, from: Password, to: Password)
    requires Steady(f, copies)
    ensures Steady(Migrate(f, from, to), copies) && MirrorBehind(f, from)
  {
  }

  lemma SteadyDo(s: State, act: Act)
    requires Steady(s.files, s.copies) && Calm(act)
    ensures Steady(Do(s, act).files, Do(s, act).copies)
  {
  }

  lemma {:induction false} SteadyEnv(s: State, acts: seq<Act>)
    requires Steady(s.files, s.copies) && CalmActs(acts)
    ensures Steady(Env(s, acts).files, Env(s, acts).copies)
  {
    if acts != [] {
      var n := |acts| - 1;
      SteadyEnv(s, acts[..n]);
      SteadyDo(Env(s, acts[..n]), acts[n]);
    }
  }

  lemma SteadyApply(s: State, ctx: Ctx, gap: seq<Act>)
    requires Steady(s.files, s.copies) && CalmActs(gap)
    ensures Steady(Apply(s, ctx, gap).files, Apply(s, ctx, gap).copies)
  {
    if s.config.Cfg? && s.config != Derived(s.users, ctx) {
      var a := s.(config := Derived(s.users, ctx));
      SteadyEnv(a, gap);
      StartKeys(Stop(Env(a, gap)));
    }
  }

  lemma SteadyPurgePoint(s: State, pw: Password, g: Gaps)
    requires Steady(s.files, s.copies) && CalmGaps(g)
    ensures Steady(PurgePoint(s, pw, g).files, PurgePoint(s, pw, g).copies)
  {
    SteadyEnv(s, g(0));
    SteadyEnv(Env(s, g(0)), g(1));
  }

  lemma SteadyMigratePoint(s: State, g: Gaps)
    requires Steady(s.files, s.copies) && CalmGaps(g)
    ensures Steady(MigratePoint(s, g).files, MigratePoint(s, g).copies)
  {
    SteadyEnv(s, g(0));
  }

  lemma SteadyRedeployed(s: State, user: Login, pw: Password, ctx: Ctx, g: Gaps)
    requires Steady(s.files, s.copies) && CalmGaps(g)
    ensures Steady(Redeployed(s, user, pw, ctx, g).files, Redeployed(s, user, pw, ctx, g).copies)
  {
    var at := PurgePoint(s, pw, g);
    SteadyPurgePoint(s, pw, g);
    SteadyForget(at.files, at.copies, pw);
    var applied := Apply(Purge(at, user, pw), ctx, g(2));
    SteadyApply(Purge(at, user, pw), ctx, g(2));
    StartKeys(applied);
    SteadyEnv(applied, g(3));
    SteadyEnv(Start(applied), g(3));
  }

  lemma SteadyDelete(s: State, user: Login, pw: Password, ctx: Ctx, g: Gaps)
    requires Steady(s.files, s.copies) && CalmGaps(g)
    ensures Steady(Delete(s, user, pw, ctx, g).files, Delete(s, user, pw, ctx, g).copies)
  {
    var gone := s.(users := s.users - {user});
    SteadyRedeployed(gone, user, pw, ctx, g);
    SteadyEnv(Release(Redeployed(gone, user, pw, ctx, g), pw), g(4));
  }

  lemma SteadyChange(s: State, user: Login, to: Password, ctx: Ctx, g: Gaps)
    requires Steady(s.files, s.copies) && CalmGaps(g)
    ensures Steady(ChangePassword(s, user, to, ctx, g).files, ChangePassword(s, user, to, ctx, g).copies)
  {
    if user in s.users {
      var from := s.users[user].pass;
      var at := MigratePoint(Rekeyed(s, user, to), g);
      SteadyMigratePoint(Rekeyed(s, user, to), g);
      SteadyMigrate(at.files, at.copies, from, to);
      var applied := Apply(Migrated(at, from, to), ctx, g(1));
      SteadyApply(Migrated(at, from, to), ctx, g(1));
      StartKeys(applied);
      SteadyEnv(applied, g(2));
      SteadyEnv(Start(applied), g(2));
    }
  }

  lemma SteadyCreate(s: State, proto: Proto, user: Login, pass: Password, draws: seq<Password>, exp: Day,
                     quota: Limit, ctx: Ctx, g: Gaps)
    requires Steady(s.files, s.copies) && CalmGaps(g)
    ensures var t := Create(s, proto, user, pass, draws, exp, quota, ctx, g).state; Steady(t.files, t.copies)
  {
    var t := Settle(s, pass, draws, g);
    SteadyEnv(s, g(0));
    var w := Written(t.state, user, t.pw, exp, quota);
    SteadyEnv(w, g(1));
    SteadyApply(Env(w, g(1)), ctx, g(2));
    SteadyEnv(Apply(Env(w, g(1)), ctx, g(2)), g(3));
  }

  lemma SteadyWith(s: State, w: State, ctx: Ctx, g: Gaps)
    requires Steady(s.files, s.copies) && CalmGaps(g) && w.files == s.files && w.copies == s.copies
    ensures Steady(Apply(w, ctx, g(0)).files, Apply(w, ctx, g(0)).copies)
  {
    SteadyApply(w, ctx, g(0));
  }

  lemma SteadyPadded(t: State, placeholder: Password, gap: seq<Act>)
    requires Steady(t.files, t.copies) && CalmActs(gap) && t.config.Cfg?
    ensures Steady(Padded(t, placeholder, gap).files, Padded(t, placeholder, gap).copies)
  {
    var padded := t.(config := t.config.(auth := multiset{placeholder}));
    SteadyEnv(padded, gap);
    StartKeys(Stop(Env(padded, gap)));
  }

  lemma SteadyChecks(t: State, ctx: Ctx, cooling: bool, alive: bool, placeholder: Password, g: Gaps)
    requires Steady(t.files, t.copies) && CalmGaps(g)
    ensures var r := GuardChecks(t, ctx, cooling, alive, placeholder, g).state; Steady(r.files, r.copies)
  {
    SteadyApply(t, ctx, g(0));
    if t.config.Cfg? { SteadyPadded(t, placeholder, g(0)); }
  }

  lemma SteadyGuard(s: State, ctx: Ctx, cooling: bool, alive: bool, placeholder: Password, g: Gaps)
    requires Steady(s.files, s.copies) && CalmGaps(g)
    ensures var t := Guard(s, ctx, cooling, alive, placeholder, g).state; Steady(t.files, t.copies)
  {
    StartKeys(s);
    var t := RestoredIfCorrupt(Synced(Seeded(Start(s))));
    assert t.files == s.files && t.copies == s.copies;
    SteadyChecks(t, ctx, cooling, alive, placeholder, g);
  }

  lemma SteadyBatch(s: State, names: seq<Login>, reason: Reason, ctx: Ctx, g: Gaps)
    requires Steady(s.files, s.copies) && CalmGaps(g)
    ensures Steady(Block(s, names, reason, ctx, g).files, Block(s, names, reason, ctx, g).copies)
    ensures Steady(Unblock(s, names, ctx, g).files, Unblock(s, names, ctx, g).copies)
  {
    BlockSameStores(s, names, reason);
    UnblockSameStores(s, names);
    SteadyWith(s, BlockAll(s, names, reason).state, ctx, g);
    SteadyWith(s, UnblockAll(s, names).state, ctx, g);
  }

  lemma SteadyBackup(f: Files, copies: seq<Copy>, now: int, dropped: set<int>)
    requires Steady(f, copies)
    ensures Steady(f, Backup(f, copies, now, dropped))
  {
  }

  lemma SteadyRestore(f: Files, copies: seq<Copy>)
    requires Steady(f, copies)
    ensures Steady(Restore(f, copies), copies)
  {
  }

  lemma SteadyEdits(s: State, m: Move)
    requires Steady(s.files, s.copies) && CalmMove(m) && Edits(m.op)
    ensures Steady(Edited(s, m).files, Edited(s, m).copies)
  {
    match m.op
    case OpRenew(user, exp) => SteadyRenew(s, user, exp, m.ctx, m.g);
    case OpSetQuota(user, quota) => SteadySetQuota(s, user, quota, m.ctx, m.g);
    case OpLock(user) => SteadyLocks(s, user, m.ctx, m.g);
    case OpUnlock(user) => SteadyLocks(s, user, m.ctx, m.g);
    case OpBlock(names, reason) => SteadyBatch(s, names, reason, m.ctx, m.g);
    case OpUnblock(names) => SteadyBatch(s, names, Manual, m.ctx, m.g);
  }

  lemma SteadyMachine(s: State, m: Move)
    requires Steady(s.files, s.copies) && CalmMove(m) && Machine(m.op)
    ensures Steady(Operated(s, m.op).files, Operated(s, m.op).copies)
  {
    match m.op
    case OpBackup(now, dropped) => SteadyBackup(s.files, s.copies, now, dropped);
    case OpRestore => SteadyRestore(s.files, s.copies);
    case OpDaemon(acts) => SteadyEnv(s, acts);
    case OpStart => StartKeys(s);
    case OpStop =>
  }

  lemma SteadyNext(s: State, m: Move)
    requires Steady(s.files, s.copies) && CalmMove(m)
    ensures Steady(Next(s, m).files, Next(s, m).copies)
  {
    if Edits(m.op) {
      SteadyEdits(s, m);
    } else if Machine(m.op) {
      SteadyMachine(s, m);
    } else {
      match m.op
      case OpCreate(proto, user, pass, draws, exp, quota) => SteadyCreate(s, proto, user, pass, draws, exp, quota, m.ctx, m.g);
      case OpDelete(user, pw) => SteadyDelete(s, user, pw, m.ctx, m.g);
      case OpChangePassword(user, to) => SteadyChange(s, user, to, m.ctx, m.g);
      case OpEnforce(order, meter) => SteadyWith(s, Passed(s, order, meter, m.ctx.today), m.ctx, m.g);
      case OpGuard(cooling, alive, placeholder) => SteadyGuard(s, m.ctx, cooling, alive, placeholder, m.g);
    }
  }

  lemma SteadyRenew(s: State, user: Login, exp: Day, ctx: Ctx, g: Gaps)
    requires Steady(s.files, s.copies) && CalmGaps(g)
    ensures Steady(Renew(s, user, exp, ctx, g).files, Renew(s, user, exp, ctx, g).copies)
  {
    if user in s.users { SteadyWith(s, With(s, user, RenewedAccount(s.users[user], exp)), ctx, g); }
  }

  lemma SteadySetQuota(s: State, user: Login, quota: Limit, ctx: Ctx, g: Gaps)
    requires Steady(s.files, s.copies) && CalmGaps(g)
    ensures Steady(SetQuota(s, user, quota, ctx, g).files, SetQuota(s, user, quota, ctx, g).copies)
  {
    if user in s.users {
      var t := With(s, user, RequotaedAccount(s.users[user], quota));
      SteadyWith(s, t.(quarantine := Freed(t.quarantine, user)), ctx, g);
    }
  }

  lemma SteadyLocks(s: State, user: Login, ctx: Ctx, g: Gaps)
    requires Steady(s.files, s.copies) && CalmGaps(g)
    ensures Steady(Lock(s, user, ctx, g).files, Lock(s, user, ctx, g).copies)
    ensures Steady(Unlock(s, user, ctx, g).files, Unlock(s, user, ctx, g).copies)
  {
    if user in s.users {
      var locked := With(s, user, s.users[user].(locked := true));
      var open := With(s, user, s.users[user].(locked := false));
      SteadyWith(s, locked.(quarantine := Quarantined(locked.quarantine, user, s.users[user].pass)), ctx, g);
      SteadyWith(s, open.(quarantine := Freed(open.quarantine, user)), ctx, g);
    }
  }

  lemma SteadyIsPurgeable(s: State, m: Move)
    requires Steady(s.files, s.copies) && CalmMove(m)
    ensures Purgeable(s, m)
  {
    match m.op
    case OpDelete(user, pw) =>
      SteadyPurgePoint(s.(users := s.users - {user}), pw, m.g);
    case OpChangePassword(user, to) =>
      if user in s.users { SteadyMigratePoint(Rekeyed(s, user, to), m.g); }
    case _ =>
  }

  ghost predicate CalmRun(s: State, moves: seq<Move>) {
    forall i :: 0 <= i < |moves| ==> CalmMove(moves[i]) && Aimed(After(s, moves[..i]), moves[i])
  }

  lemma {:induction false} CalmRunsStaySteady(s: State, moves: seq<Move>)
    requires Steady(s.files, s.copies) && CalmRun(s, moves)
    ensures Steady(After(s, moves).files, After(s, moves).copies)
  {
    if moves != [] {
      var n := |moves| - 1;
      CalmPrefix(s, moves, n);
      CalmRunsStaySteady(s, moves[..n]);
      SteadyNext(After(s, moves[..n]), moves[n]);
    }
  }

  lemma CalmPrefix(s: State, moves: seq<Move>, n: nat)
    requires CalmRun(s, moves) && n <= |moves|
    ensures CalmRun(s, moves[..n])
  {
    forall i | 0 <= i < n ensures CalmMove(moves[..n][i]) && Aimed(After(s, moves[..n][..i]), moves[..n][i]) {
      assert moves[..n][..i] == moves[..i];
    }
  }

  /** While every save reaches both files and the disk is sound, so is every run: no purge ever
      misses the mirror, and so nobody ever inherits or overpays a byte. */
  lemma CalmRunsAreSafe(s: State, moves: seq<Move>)
    requires Safe(s) && Steady(s.files, s.copies) && CalmRun(s, moves)
    ensures Sound(s, moves) && Safe(After(s, moves))
  {
    forall i | 0 <= i < |moves|
      ensures Aimed(After(s, moves[..i]), moves[i]) && Purgeable(After(s, moves[..i]), moves[i])
    {
      CalmPrefix(s, moves, i);
      CalmRunsStaySteady(s, moves[..i]);
      SteadyIsPurgeable(After(s, moves[..i]), moves[i]);
    }
    RunsAreSafe(s, moves);
  }

  // ---- what releasing a password rests on ----

  /** Deleting releases the account's password, which is safe because passwords are unique: every
      present zivpn password stays registered exactly when no account left has the released one
      (or none is released, the account being of another protocol). A quarantined account's
      password is accepted as a name too, while the account is still there. */
  lemma DeleteKeepsCoverIff(s: State, user: Login, pw: Password, ctx: Ctx, g: Gaps)
    requires pw != "" && DeleteTarget(s, user, pw) && Live(s.users) <= s.registry
    ensures var t := Delete(s, user, pw, ctx, g);
            Live(t.users) <= t.registry <==>
              (user in s.users && !s.users[user].proto.Zivpn?) || pw !in Live(s.users - {user})
    ensures UniquePasswords(s.users) && user in s.users ==>
              var t := Delete(s, user, pw, ctx, g); Live(t.users) <= t.registry
  {
    var gone := s.(users := s.users - {user});
    DeleteKeys(gone, user, pw, ctx, g);
    FewerAreLive(s.users, user);
  }

  lemma FewerAreLive(users: Users, user: Login)
    ensures Live(users - {user}) <= Live(users)
    ensures UniquePasswords(users) && user in users && users[user].proto.Zivpn? && users[user].pass != "" ==>
              users[user].pass !in Live(users - {user})
  {
    var rest := users - {user};
    forall pw | pw in Live(rest)
      ensures pw in Live(users)
      ensures UniquePasswords(users) && user in users && users[user].proto.Zivpn? ==> pw != users[user].pass
    {
      var u :| u in rest && rest[u].proto.Zivpn? && rest[u].pass == pw;
      assert users[u] == rest[u];
      if UniquePasswords(users) && user in users && users[user].proto.Zivpn? {
        assert Owns(users[user], users[u].pass) ==> user == u;
      }
    }
  }

  /** A quarantined password is accepted as what to delete while an account has it, and then that
      account's password is off the register. */
  lemma QuarantinedPasswordIsATarget(s: State, pw: Password, ctx: Ctx, g: Gaps)
    requires pw in s.quarantine && pw !in s.users && pw in Live(s.users) && pw != "" && Live(s.users) <= s.registry
    ensures DeleteTarget(s, pw, pw)
    ensures var t := Delete(s, pw, pw, ctx, g); pw in Live(t.users) && pw !in t.registry
  {
    assert s.users - {pw} == s.users;
    DeleteKeys(s, pw, pw, ctx, g);
  }

  /** `valid_name` accepts a name with one newline after it: `$` matches before it. */
  lemma TrailingNewlineIsAccepted(name: string)
    requires NameChars(name)
    ensures ValidName(name + "\n") && !NameChars(name + "\n")
  {
    assert (name + "\n")[..|name|] == name;
    assert (name + "\n")[|name|] == '\n';
  }

  /** Letters, digits, dot, underscore and hyphen, 32 at most, and nothing else. */
  lemma NamesAtTheLimit()
    ensures ValidName("A.z_0-9") && ValidName("aaaaaaaabbbbbbbbccccccccdddddddd")
    ensures !ValidName("aaaaaaaabbbbbbbbccccccccdddddddde") && !ValidName("") && !ValidName("a b") && !ValidName("a/b")
  {
    assert "a b"[1] == ' ' && "a/b"[1] == '/';
  }

  /** The daemon writes the main file first and the mirror second, and `systemctl stop` cuts it off
      anywhere: a save cut in between leaves the mirror behind, unless it still has a key the
      daemon no longer counts. */
  lemma CutSaveKeepsSteadyIff(f: Files, copies: seq<Copy>, body: Content)
    ensures Steady(SavedFiles(f, body, MainOnly), copies) <==> f.bak.Keys() <= body.Keys()
  {
  }

  // ---- a damaged file ----

  const NO_GAPS: Gaps := n => []

  /** An account "a" with `n` bytes on its counter, no configuration, the daemon down. */
  function OneAccount(n: nat): State {
    var body := Content(map["p" := n], map[]);
    State(map["a" := NewAccount(Zivpn, 30, "p", Limit(1.0, 1.0))], Files(Sealed(body), Sealed(body)), [],
          {"p"}, map[], NoConfig, Stopped, map["p" := n])
  }

  /** The condition on deletions is needed: the main file is damaged, the account deleted, its
      password given to a new account, the main file restored, and the new account's counter
      reads the old one's bytes, though nothing was metered for it. */
  lemma DamagedFileLetsBytesBeInherited(n: nat, today: Day, fmt: Rounding)
    requires 0 < n
    ensures var ctx := Ctx(today, fmt);
            var damaged := Next(OneAccount(n), Move(OpDiskFault, ctx, NO_GAPS));
            var deleted := Delete(damaged, "a", "p", ctx, NO_GAPS);
            var created := CreateZivpn(deleted, "b", "p", [], 60, Limit(1.0, 1.0), ctx, NO_GAPS);
            var t := created.state.(files := Restore(created.state.files, created.state.copies));
            && DeleteTarget(damaged, "a", "p") && created.code == 0
            && "b" in t.users && t.users["b"].pass == "p" && Raw(t, "b") == n && CarriedBy(t, "p") == 0
  {
    var ctx := Ctx(today, fmt);
    var damaged := Next(OneAccount(n), Move(OpDiskFault, ctx, NO_GAPS));
    var gone := damaged.(users := damaged.users - {"a"});
    assert gone.users == map[];
    assert PurgePoint(gone, "p", NO_GAPS) == gone;
    var purged := Purge(gone, "a", "p");
    assert purged.files == gone.files;
    assert Redeployed(gone, "a", "p", ctx, NO_GAPS) == purged;
    var deleted := Delete(damaged, "a", "p", ctx, NO_GAPS);
    assert deleted == Release(purged, "p");
    assert deleted.users == map[] && deleted.registry == {} && deleted.files == gone.files;
    var settled := Settle(deleted, "p", [], NO_GAPS);
    assert settled == Settled(deleted, "p");
    var w := Written(deleted, "b", "p", 60, Limit(1.0, 1.0));
    assert Enrol(deleted, "b", "p", 60, Limit(1.0, 1.0), ctx, NO_GAPS) == w;
  }

  // ---- the meter's second key ----

  /** The meter falls back to the login when the password has no counter: an account reads its own
      counter exactly when it has one, or nothing is counted under its login. */
  lemma ReadsItsOwnIff(s: State, u: Login)
    requires u in s.users
    ensures Raw(s, u) == s.files.main.Used(s.users[u].pass) <==>
              (s.files.main.Doc? && s.users[u].pass in s.files.main.body.used) || s.files.main.Used(u) == 0
  {
  }

  /** An account "a" with the password "p", and a newer one with the login "p" and nothing counted. */
  function Aliased(n: nat): State {
    var body := Content(map["p" := n], map[]);
    State(map["a" := NewAccount(Zivpn, 30, "p", Limit(1.0, 1.0)), "p" := NewAccount(Zivpn, 30, "q", Limit(1.0, 1.0))],
          Files(Sealed(body), Sealed(body)), [], {"p", "q"}, map[], NoConfig, Stopped, map["p" := n, "q" := 0])
  }

  lemma TwoLogins(users: Users)
    requires users.Keys == {"a", "p"}
    ensures DistinctLogins(users)
  {
    assert Lower("a")[0] == 'a' && Lower("p")[0] == 'p';
  }

  /** So on a safe state an account whose login is another's password reads the other's bytes, and
      the condition on logins in the theorems about readings is needed. */
  lemma LoginAsPasswordReadsAnother(n: nat)
    ensures var s := Aliased(n); Safe(s) && Raw(s, "p") == n && CarriedBy(s, "q") == 0
  {
    var s := Aliased(n);
    ReadsItsOwnIff(s, "p");
    TwoLogins(s.users);
    assert s.users["a"].pass == "p" && s.users["p"].pass == "q";
    assert "p" in Live(s.users) && "q" in Live(s.users);
  }
}
