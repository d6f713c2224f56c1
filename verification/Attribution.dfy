/** Whose bytes a counter holds: where the key of a counter can be, and how much it can say. */
module Attribution {
  import opened Quota
  import opened Accounts
  import opened StateFile
  import opened Panel
  import opened Sums

  function DaemonKeys(d: Daemon): set<Password> {
    if d.Running? then d.body.Keys() else {}
  }

  /** The daemon counts under the keys of its quota map. */
  function ConfigKeys(c: Config): set<Password> {
    if c.Cfg? then c.quota.Keys else {}
  }

  /** Every password some counter is, or may come to be, kept under. */
  function AllKeys(s: State): set<Password> {
    s.files.main.Keys() + s.files.bak.Keys() + CopyKeys(s.copies) + DaemonKeys(s.daemon) + ConfigKeys(s.config)
  }

  function DaemonUsed(d: Daemon, pw: Password): nat {
    if d.Running? then UsedIn(d.body, pw) else 0
  }

  /** No store, wherever it came from, charges the password's owner more than was metered for it. */
  ghost predicate Fair(s: State, pw: Password) {
    && s.files.main.Used(pw) <= CarriedBy(s, pw)
    && s.files.bak.Used(pw) <= CarriedBy(s, pw)
    && (forall i :: 0 <= i < |s.copies| ==> s.copies[i].file.Used(pw) <= CarriedBy(s, pw))
    && DaemonUsed(s.daemon, pw) <= CarriedBy(s, pw)
  }

  ghost predicate Attributed(s: State) {
    forall pw :: Fair(s, pw)
  }

  // ---- the daemon's own steps ----

  /** What only the panel changes. */
  ghost predicate SamePanel(s: State, t: State) {
    t.users == s.users && t.copies == s.copies && t.registry == s.registry && t.quarantine == s.quarantine
    && t.config == s.config && (t.daemon.Running? <==> s.daemon.Running?)
  }

  lemma SavedKeys(f: Files, body: Content, mode: SaveMode)
    ensures SavedFiles(f, body, mode).main.Keys() <= f.main.Keys() + body.Keys()
    ensures SavedFiles(f, body, mode).bak.Keys() <= f.bak.Keys() + body.Keys()
  {
  }

  lemma DoKeys(s: State, act: Act)
    ensures SamePanel(s, Do(s, act))
    ensures AllKeys(Do(s, act)) <= AllKeys(s)
    ensures DaemonKeys(Do(s, act).daemon) <= DaemonKeys(s.daemon)
    ensures Do(s, act).files.main.Keys() <= s.files.main.Keys() + DaemonKeys(s.daemon)
    ensures Do(s, act).files.bak.Keys() <= s.files.bak.Keys() + DaemonKeys(s.daemon)
  {
    if s.daemon.Running? {
      var c := s.daemon.body;
      match act
      case Log(pw, n) =>
      case Save(mode) => SavedKeys(s.files, c, mode);
      case ResetUsage(pw) => SavedKeys(s.files, c.(used := c.used - {pw}), BothFiles);
      case ResetAll => SavedKeys(s.files, c.(used := map[]), BothFiles);
    }
  }

  lemma DoFair(s: State, act: Act, pw: Password)
    requires Fair(s, pw)
    ensures Fair(Do(s, act), pw)
  {
  }

  /** The daemon neither invents a key nor loses the panel's part of the state. */
  lemma {:induction false} EnvKeys(s: State, acts: seq<Act>)
    ensures SamePanel(s, Env(s, acts))
    ensures AllKeys(Env(s, acts)) <= AllKeys(s)
    ensures DaemonKeys(Env(s, acts).daemon) <= DaemonKeys(s.daemon)
    ensures Env(s, acts).files.main.Keys() <= s.files.main.Keys() + DaemonKeys(s.daemon)
    ensures Env(s, acts).files.bak.Keys() <= s.files.bak.Keys() + DaemonKeys(s.daemon)
  {
    if acts != [] {
      var n := |acts| - 1;
      EnvKeys(s, acts[..n]);
      DoKeys(Env(s, acts[..n]), acts[n]);
    }
  }

  lemma {:induction false} EnvFair(s: State, acts: seq<Act>, pw: Password)
    requires Fair(s, pw)
    ensures Fair(Env(s, acts), pw)
  {
    if acts != [] {
      EnvFair(s, acts[..|acts| - 1], pw);
      DoFair(Env(s, acts[..|acts| - 1]), acts[|acts| - 1], pw);
    }
  }

  /** A stopped daemon does nothing. */
  lemma {:induction false} EnvStopped(s: State, acts: seq<Act>)
    requires s.daemon.Stopped?
    ensures Env(s, acts) == s
  {
    if acts != [] {
      EnvStopped(s, acts[..|acts| - 1]);
    }
  }

  lemma StartKeys(s: State)
    ensures Start(s).users == s.users && Start(s).copies == s.copies && Start(s).registry == s.registry
    ensures Start(s).config == s.config && Start(s).quarantine == s.quarantine && Start(s).files == s.files
    ensures AllKeys(Start(s)) <= AllKeys(s)
    ensures DaemonKeys(Start(s).daemon) <= DaemonKeys(s.daemon) + s.files.main.Keys() + s.files.bak.Keys() + ConfigKeys(s.config)
  {
  }

  lemma StartFair(s: State, pw: Password)
    requires Fair(s, pw)
    ensures Fair(Start(s), pw) && Fair(Stop(s), pw)
  {
  }

  lemma MeteredAreLive(users: Users, today: Day)
    ensures MeteredPasswords(users, today) <= Live(users)
    ensures ActivePasswords(users, Zivpn, today) <= Live(users)
  {
  }

  /** What an apply leaves alone, and the configuration it leaves. */
  lemma ApplyFrame(s: State, ctx: Ctx, gap: seq<Act>)
    ensures var t := Apply(s, ctx, gap);
            && t.users == s.users && t.copies == s.copies && t.registry == s.registry && t.quarantine == s.quarantine
            && t.config == (if s.config.Cfg? then Derived(s.users, ctx) else s.config)
            && (s.daemon.Stopped? || gap == [] ==> t.files == s.files && t.carried == s.carried)
  {
    if s.config.Cfg? && s.config != Derived(s.users, ctx) {
      var a := s.(config := Derived(s.users, ctx));
      EnvKeys(a, gap);
      StartKeys(Stop(Env(a, gap)));
      if s.daemon.Stopped? { EnvStopped(a, gap); }
    }
  }

  /** Applying the config can only bring in passwords of present accounts. */
  lemma ApplyKeys(s: State, ctx: Ctx, gap: seq<Act>)
    ensures var t := Apply(s, ctx, gap);
            && t.users == s.users && t.copies == s.copies && t.registry == s.registry && t.quarantine == s.quarantine
            && AllKeys(t) <= AllKeys(s) + Live(s.users)
            && ConfigKeys(t.config) <= (if s.config.Cfg? then Live(s.users) else {})
            && (s.daemon.Stopped? ==> t.files == s.files && t.carried == s.carried)
  {
    if s.config.Cfg? && s.config != Derived(s.users, ctx) {
      var a := s.(config := Derived(s.users, ctx));
      MeteredAreLive(s.users, ctx.today);
      EnvKeys(a, gap);
      StartKeys(Stop(Env(a, gap)));
      if s.daemon.Stopped? { EnvStopped(a, gap); }
    } else {
      MeteredAreLive(s.users, ctx.today);
    }
  }

  lemma ApplyFair(s: State, ctx: Ctx, gap: seq<Act>, pw: Password)
    requires Fair(s, pw)
    ensures Fair(Apply(s, ctx, gap), pw)
  {
    if s.config.Cfg? && s.config != Derived(s.users, ctx) {
      var a := s.(config := Derived(s.users, ctx));
      EnvFair(a, gap, pw);
      StartFair(Stop(Env(a, gap)), pw);
    }
  }

  /** Nothing in service holds the password: at most a copy under `backups/` does. */
  ghost predicate OutOfService(s: State, pw: Password) {
    pw !in s.files.main.Keys() && pw !in s.files.bak.Keys()
    && pw !in ConfigKeys(s.config) && pw !in DaemonKeys(s.daemon)
  }

  // ---- deletion ----

  /** The purge will find whatever the mirror holds of this password. */
  ghost predicate MirrorBehind(f: Files, pw: Password) {
    pw in f.bak.Keys() ==> pw in f.main.Keys()
  }

  lemma ForgetKeys(f: Files, pw: Password)
    ensures Forget(f, pw).main.Keys() <= f.main.Keys()
    ensures Forget(f, pw).bak.Keys() <= f.bak.Keys() + f.main.Keys()
  {
  }

  lemma PurgeKeys(s: State, user: Login, pw: Password)
    ensures AllKeys(Purge(s, user, pw)) <= AllKeys(s)
  {
    ForgetKeys(s.files, pw);
  }

  lemma PurgePointIs(s: State, pw: Password, g: Gaps)
    ensures AllKeys(PurgePoint(s, pw, g)) <= AllKeys(s)
    ensures var t := PurgePoint(s, pw, g);
            t.users == s.users && t.copies == s.copies && t.registry == s.registry
            && t.quarantine == s.quarantine && t.config == s.config
    ensures pw != "" ==> PurgePoint(s, pw, g).daemon.Stopped?
  {
    var a := Env(s, g(0));
    EnvKeys(s, g(0));
    EnvKeys(a, g(1));
  }

  lemma PurgePointFair(s: State, pw: Password, g: Gaps, k: Password)
    requires Fair(s, k)
    ensures Fair(PurgePoint(s, pw, g), k)
  {
    EnvFair(s, g(0), k);
    EnvFair(Env(s, g(0)), g(1), k);
    StartFair(Env(Env(s, g(0)), g(1)), k);
  }

  /** After an apply with the daemon down and both files clean, only the copies may keep a key. */
  lemma ApplyClean(s: State, ctx: Ctx, gap: seq<Act>, pw: Password)
    requires s.daemon.Stopped? && pw !in s.files.main.Keys() && pw !in s.files.bak.Keys() && pw !in Live(s.users)
    ensures var t := Apply(s, ctx, gap);
            OutOfService(t, pw) && t.copies == s.copies
  {
    ApplyKeys(s, ctx, gap);
    if s.config.Cfg? && s.config != Derived(s.users, ctx) {
      var a := s.(config := Derived(s.users, ctx));
      EnvStopped(a, gap);
      StartKeys(Stop(a));
    }
  }

  lemma RedeployedKeys(s: State, user: Login, pw: Password, ctx: Ctx, g: Gaps)
    ensures var t := Redeployed(s, user, pw, ctx, g);
            && AllKeys(t) <= AllKeys(s) + Live(s.users)
            && t.users == s.users && t.registry == s.registry && t.copies == s.copies
  {
    var at := PurgePoint(s, pw, g);
    PurgePointIs(s, pw, g);
    var purged := Purge(at, user, pw);
    PurgeKeys(at, user, pw);
    var applied := Apply(purged, ctx, g(2));
    ApplyKeys(purged, ctx, g(2));
    StartKeys(applied);
    EnvKeys(if pw != "" && Env(s, g(0)).daemon.Running? then Start(applied) else applied, g(3));
  }

  lemma RedeployedClean(s: State, user: Login, pw: Password, ctx: Ctx, g: Gaps)
    requires pw != "" && pw !in Live(s.users) && MirrorBehind(PurgePoint(s, pw, g).files, pw)
    ensures OutOfService(Redeployed(s, user, pw, ctx, g), pw)
  {
    var at := PurgePoint(s, pw, g);
    PurgePointIs(s, pw, g);
    var purged := Purge(at, user, pw);
    ForgetIsCleanIff(at.files, pw);
    var applied := Apply(purged, ctx, g(2));
    ApplyClean(purged, ctx, g(2), pw);
    StartKeys(applied);
    EnvKeys(if pw != "" && Env(s, g(0)).daemon.Running? then Start(applied) else applied, g(3));
  }

  lemma ReleaseKeys(s: State, pw: Password)
    ensures AllKeys(Release(s, pw)) <= AllKeys(s)
    ensures pw != "" && OutOfService(s, pw) ==> pw !in AllKeys(Release(s, pw))
  {
    PurgedCopiesAreClean(s.copies, pw);
  }

  /** A deletion brings no key in. */
  lemma DeleteKeys(s: State, user: Login, pw: Password, ctx: Ctx, g: Gaps)
    ensures AllKeys(DeleteZivpn(s, user, pw, ctx, g)) <= AllKeys(s) + Live(s.users)
    ensures DeleteZivpn(s, user, pw, ctx, g).users == s.users
    ensures DeleteZivpn(s, user, pw, ctx, g).registry == Unregistered(s.registry, pw)
  {
    var up := Redeployed(s, user, pw, ctx, g);
    RedeployedKeys(s, user, pw, ctx, g);
    ReleaseKeys(up, pw);
    EnvKeys(Release(up, pw), g(4));
  }

  /** Stop, purge, start: whatever the daemon does at any moment while it runs, nothing anywhere
      keeps the deleted password, as long as the mirror is not ahead of the main file at the
      purge. Its memory, the main file, the mirror, the copies and the configuration all lose it. */
  lemma DeleteRemovesEveryTrace(s: State, user: Login, pw: Password, ctx: Ctx, g: Gaps)
    requires pw != "" && pw !in Live(s.users) && MirrorBehind(PurgePoint(s, pw, g).files, pw)
    ensures pw !in AllKeys(DeleteZivpn(s, user, pw, ctx, g))
  {
    var up := Redeployed(s, user, pw, ctx, g);
    RedeployedClean(s, user, pw, ctx, g);
    ReleaseKeys(up, pw);
    EnvKeys(Release(up, pw), g(4));
  }

  /** The condition is exact: with the mirror ahead, the mirror still has the counter after the
      purge, and the daemon's next start can load it. */
  lemma MirrorAheadSurvivesPurge(f: Files, pw: Password)
    requires pw != "" && !MirrorBehind(f, pw)
    ensures pw in Forget(f, pw).bak.Keys() && Forget(f, pw) == f
    ensures f.main.Corrupt? && Loadable(f.bak) ==> Loaded(Forget(f, pw).main, Forget(f, pw).bak) == f.bak.body.used
  {
  }

  lemma ForgetFair(s: State, user: Login, pw: Password, k: Password)
    requires Fair(s, k)
    ensures Fair(Purge(s, user, pw), k)
  {
  }

  lemma ReleaseFair(s: State, pw: Password, k: Password)
    requires Fair(s, k)
    requires k == pw && pw != "" ==> OutOfService(s, pw)
    ensures Fair(Release(s, pw), k)
  {
    var t := Release(s, pw);
    forall i | 0 <= i < |t.copies| ensures t.copies[i].file.Used(k) <= CarriedBy(t, k) {
      assert t.copies[i].file.Used(k) <= s.copies[i].file.Used(k);
      if k == pw && pw != "" { assert t.copies[i].file.Used(k) == 0; }
    }
  }

  lemma RedeployedFair(s: State, user: Login, pw: Password, ctx: Ctx, g: Gaps, k: Password)
    requires Fair(s, k)
    ensures Fair(Redeployed(s, user, pw, ctx, g), k)
  {
    var at := PurgePoint(s, pw, g);
    PurgePointFair(s, pw, g, k);
    var purged := Purge(at, user, pw);
    ForgetFair(at, user, pw, k);
    var applied := Apply(purged, ctx, g(2));
    ApplyFair(purged, ctx, g(2), k);
    StartFair(applied, k);
    EnvFair(if pw != "" && Env(s, g(0)).daemon.Running? then Start(applied) else applied, g(3), k);
  }

  lemma DeleteFair(s: State, user: Login, pw: Password, ctx: Ctx, g: Gaps, k: Password)
    requires Fair(s, k)
    requires pw != "" ==> pw !in Live(s.users) && MirrorBehind(PurgePoint(s, pw, g).files, pw)
    ensures Fair(DeleteZivpn(s, user, pw, ctx, g), k)
  {
    var up := Redeployed(s, user, pw, ctx, g);
    RedeployedFair(s, user, pw, ctx, g, k);
    if pw != "" { RedeployedClean(s, user, pw, ctx, g); }
    ReleaseFair(up, pw, k);
    EnvFair(Release(up, pw), g(4), k);
  }

  // ---- creation ----

  /** The registry covers every key and every account, and no two accounts share a password. */
  ghost predicate Registered(s: State) {
    AllKeys(s) <= s.registry && Live(s.users) <= s.registry && UniquePasswords(s.users)
  }

  /** Every key belongs to a present account. */
  ghost predicate Owned(s: State) {
    AllKeys(s) <= Live(s.users)
  }

  lemma {:induction false} FirstFreeIsFree(s: State, draws: seq<Password>)
    ensures var pw := FirstFree(s, draws);
            pw != "" ==> !InUse(s.users, pw, Zivpn, "") && pw !in s.registry
    decreases |draws|
  {
    if draws != [] { FirstFreeIsFree(s, draws[1..]); }
  }

  lemma NotInUseNotLive(users: Users, pw: Password)
    requires pw != "" && "" !in users
    ensures InUse(users, pw, Zivpn, "") <==> pw in Live(users)
  {
    if pw in Live(users) {
      var u :| u in users && users[u].proto.Zivpn? && users[u].pass == pw;
    }
  }

  lemma SettledIsFree(s: State, pass: Password, draws: seq<Password>, g: Gaps)
    requires "" !in s.users && Settle(s, pass, draws, g).pw != ""
    ensures var t := Settle(s, pass, draws, g);
            && t.pw !in Live(t.state.users)
            && AllKeys(t.state) <= AllKeys(s) && t.state.users == s.users && t.state.registry == s.registry
  {
    var t := Settle(s, pass, draws, g);
    EnvKeys(s, g(0));
    FirstFreeIsFree(s, draws);
    NotInUseNotLive(s.users, t.pw);
    PurgedCopiesAreClean(Env(s, g(0)).copies, t.pw);
  }

  /** A released password: no trace in the files, and none left in the copies. */
  lemma ReleasedHasNoTrace(a: State, pw: Password)
    requires pw != "" && !HasResiduals(a, pw)
    ensures var t := a.(copies := Purged(a.copies, pw));
            pw in AllKeys(t) <==> pw in DaemonKeys(t.daemon) + ConfigKeys(t.config)
  {
    PurgedCopiesAreClean(a.copies, pw);
  }

  /** A settled password is free, and nothing that can be read back holds it: only the memory or
      the quota map of a daemon still serving it could, so it starts from nothing exactly when
      neither does. */
  lemma SettledStartsFreshIff(s: State, pass: Password, draws: seq<Password>, g: Gaps)
    requires Registered(s) && "" !in s.users && Settle(s, pass, draws, g).pw != ""
    ensures var t := Settle(s, pass, draws, g);
            && t.pw !in Live(t.state.users)
            && AllKeys(t.state) <= AllKeys(s) && t.state.users == s.users && t.state.registry == s.registry
            && (t.pw !in AllKeys(t.state) <==> t.pw !in DaemonKeys(t.state.daemon) + ConfigKeys(t.state.config))
            && (t.pw !in s.registry ==> t.pw !in AllKeys(t.state))
  {
    var t := Settle(s, pass, draws, g);
    SettledIsFree(s, pass, draws, g);
    FirstFreeIsFree(s, draws);
    if t.pw in s.registry {
      EnvKeys(s, g(0));
      ReleasedHasNoTrace(Env(s, g(0)), pass);
    } else {
      assert t.pw !in AllKeys(s);
    }
  }

  /** Over runs where every key is owned, that is always so: a created account inherits nothing. */
  lemma SettledOwned(s: State, pass: Password, draws: seq<Password>, g: Gaps)
    requires Registered(s) && Owned(s) && "" !in s.users && Settle(s, pass, draws, g).pw != ""
    ensures var t := Settle(s, pass, draws, g); t.pw !in AllKeys(t.state)
  {
    SettledStartsFreshIff(s, pass, draws, g);
  }

  /** What a clean deletion is for: the password can be given out again at once, it is accepted,
      and its new owner starts from nothing. */
  lemma DeletedPasswordIsReusable(s: State, user: Login, pw: Password, ctx: Ctx, g: Gaps, draws: seq<Password>, h: Gaps)
    requires pw != "" && pw !in Live(s.users) && "" !in s.users
    requires MirrorBehind(PurgePoint(s, pw, g).files, pw)
    ensures var t := Settle(DeleteZivpn(s, user, pw, ctx, g), pw, draws, h);
            t.pw == pw && pw !in AllKeys(t.state)
  {
    var deleted := DeleteZivpn(s, user, pw, ctx, g);
    DeleteKeys(s, user, pw, ctx, g);
    DeleteRemovesEveryTrace(s, user, pw, ctx, g);
    NotInUseNotLive(deleted.users, pw);
    EnvKeys(deleted, h(0));
  }

  lemma SettleFair(s: State, pass: Password, draws: seq<Password>, g: Gaps, k: Password)
    requires Fair(s, k)
    ensures Fair(Settle(s, pass, draws, g).state, k)
  {
    var a := Env(s, g(0));
    EnvFair(s, g(0), k);
    var t := a.(copies := Purged(a.copies, pass));
    forall i | 0 <= i < |t.copies| ensures t.copies[i].file.Used(k) <= CarriedBy(t, k) {
      assert t.copies[i].file.Used(k) <= a.copies[i].file.Used(k);
    }
  }

  lemma LiveGrows(users: Users, user: Login, a: Account)
    requires user !in users && a.proto.Zivpn? && a.pass != ""
    ensures Live(users[user := a]) == Live(users) + {a.pass}
    ensures UniquePasswords(users) && a.pass !in Live(users) ==> UniquePasswords(users[user := a])
  {
    var more := users[user := a];
    forall pw | pw in Live(users) + {a.pass} ensures pw in Live(more) {
      if pw in Live(users) {
        var u :| u in users && users[u].proto.Zivpn? && users[u].pass == pw;
        assert more[u] == users[u];
      } else {
        assert more[user] == a;
      }
    }
  }

  lemma EnrolKeys(s: State, user: Login, pw: Password, exp: Day, quota: Limit, ctx: Ctx, g: Gaps)
    ensures var t := Enrol(s, user, pw, exp, quota, ctx, g);
            && AllKeys(t) <= AllKeys(s) + Live(t.users)
            && t.users == s.users[user := NewAccount(Zivpn, exp, pw, quota)]
            && t.registry == s.registry + {pw}
  {
    var w := Written(s, user, pw, exp, quota);
    EnvKeys(w, g(1));
    ApplyKeys(Env(w, g(1)), ctx, g(2));
    EnvKeys(Apply(Env(w, g(1)), ctx, g(2)), g(3));
  }

  lemma EnrolFair(s: State, user: Login, pw: Password, exp: Day, quota: Limit, ctx: Ctx, g: Gaps, k: Password)
    requires Fair(s, k) && pw !in AllKeys(s)
    ensures Fair(Enrol(s, user, pw, exp, quota, ctx, g), k)
  {
    var w := Written(s, user, pw, exp, quota);
    assert Fair(w, k) by {
      if k == pw {
        forall i | 0 <= i < |s.copies| ensures s.copies[i].file.Used(pw) == 0 {
          assert s.copies[i].file.Keys() <= CopyKeys(s.copies);
        }
      }
    }
    EnvFair(w, g(1), k);
    ApplyFair(Env(w, g(1)), ctx, g(2), k);
    EnvFair(Apply(Env(w, g(1)), ctx, g(2)), g(3), k);
  }

  /** Whatever the password settled on, a new account's raw counter reads zero the moment its
      meta file exists, as long as its login is no counter key either. */
  lemma NewAccountReadsZero(s: State, user: Login, pass: Password, draws: seq<Password>, exp: Day,
                            quota: Limit, g: Gaps)
    requires Registered(s) && Owned(s) && "" !in s.users && Settle(s, pass, draws, g).pw != ""
    requires user !in s.users && user !in Live(s.users)
    ensures var t := Settle(s, pass, draws, g); Raw(Written(t.state, user, t.pw, exp, quota), user) == 0
  {
    SettledOwned(s, pass, draws, g);
    SettledStartsFreshIff(s, pass, draws, g);
  }

  // ---- change of password ----

  lemma MigrateKeys(f: Files, from: Password, to: Password)
    ensures Migrate(f, from, to).main.Keys() <= f.main.Keys() + {to}
    ensures Migrate(f, from, to).bak.Keys() <= f.bak.Keys() + f.main.Keys() + {to}
  {
  }

  lemma MigratePointIs(s: State, g: Gaps)
    ensures var t := MigratePoint(s, g);
            && AllKeys(t) <= AllKeys(s) && t.daemon.Stopped?
            && t.users == s.users && t.copies == s.copies && t.registry == s.registry
            && t.quarantine == s.quarantine && t.config == s.config
  {
    EnvKeys(s, g(0));
  }

  lemma MigratedKeys(s: State, from: Password, to: Password)
    ensures AllKeys(Migrated(s, from, to)) <= AllKeys(s) + {to}
  {
    MigrateKeys(s.files, from, to);
    PurgedCopiesAreClean(s.copies, from);
  }

  lemma ChangeKeys(s: State, user: Login, to: Password, ctx: Ctx, g: Gaps)
    requires user in s.users && s.users[user].proto.Zivpn? && to != "" && s.users[user].pass != to
    ensures var t := ChangeZivpn(s, user, to, ctx, g);
            && AllKeys(t) <= AllKeys(s) + Live(t.users)
            && t.users == Rekeyed(s, user, to).users
            && t.registry == Unregistered(s.registry + {to}, s.users[user].pass)
  {
    var from := s.users[user].pass;
    var at := MigratePoint(Rekeyed(s, user, to), g);
    MigratePointIs(Rekeyed(s, user, to), g);
    var m := Migrated(at, from, to);
    MigratedKeys(at, from, to);
    ApplyKeys(m, ctx, g(1));
    var applied := Apply(m, ctx, g(1));
    StartKeys(applied);
    EnvKeys(if s.daemon.Running? then Start(applied) else applied, g(2));
    assert m.users[user].pass == to;
    assert to in Live(m.users);
  }

  /** A zivpn account changing to a password no counter is kept under. */
  ghost predicate Rekeyable(s: State, user: Login, to: Password) {
    user in s.users && s.users[user].proto.Zivpn? && s.users[user].pass != "" && to != ""
    && s.users[user].pass != to && to !in AllKeys(s)
  }

  /** An accepted change leaves nothing under the old password, whatever the daemon does. */
  lemma ChangeRemovesOldKey(s: State, user: Login, to: Password, ctx: Ctx, g: Gaps)
    requires Rekeyable(s, user, to) && UniquePasswords(s.users)
    requires MirrorBehind(MigratePoint(Rekeyed(s, user, to), g).files, s.users[user].pass)
    ensures s.users[user].pass !in AllKeys(ChangeZivpn(s, user, to, ctx, g))
  {
    var from := s.users[user].pass;
    var r := Rekeyed(s, user, to);
    var at := MigratePoint(r, g);
    MigratePointIs(r, g);
    MigrateIsCleanIff(at.files, from, to);
    PurgedCopiesAreClean(at.copies, from);
    var m := Migrated(at, from, to);
    assert from !in Live(m.users);
    ApplyClean(m, ctx, g(1), from);
    var applied := Apply(m, ctx, g(1));
    assert from !in AllKeys(applied);
    StartKeys(applied);
    EnvKeys(if s.daemon.Running? then Start(applied) else applied, g(2));
  }

  lemma MigratedFair(s: State, from: Password, to: Password, k: Password)
    requires Attributed(s) && s.daemon.Stopped? && from != to && from != "" && to != "" && to !in AllKeys(s)
    requires MirrorBehind(s.files, from)
    ensures Fair(Migrated(s, from, to), k)
  {
    var t := Migrated(s, from, to);
    assert Fair(s, k) && Fair(s, from);
    MigrateIsCleanIff(s.files, from, to);
    forall i | 0 <= i < |t.copies| ensures t.copies[i].file.Used(k) <= CarriedBy(t, k) {
      assert t.copies[i].file.Used(k) <= s.copies[i].file.Used(k);
      assert s.copies[i].file.Keys() <= CopyKeys(s.copies);
    }
  }

  lemma ChangeFair(s: State, user: Login, to: Password, ctx: Ctx, g: Gaps, k: Password)
    requires Attributed(s) && Rekeyable(s, user, to)
    requires MirrorBehind(MigratePoint(Rekeyed(s, user, to), g).files, s.users[user].pass)
    ensures Fair(ChangeZivpn(s, user, to, ctx, g), k)
  {
    var from := s.users[user].pass;
    var r := Rekeyed(s, user, to);
    var at := MigratePoint(r, g);
    MigratePointIs(r, g);
    forall j ensures Fair(at, j) {
      assert Fair(s, j) && Fair(r, j);
      EnvFair(r, g(0), j);
    }
    var m := Migrated(at, from, to);
    MigratedFair(at, from, to, k);
    ApplyFair(m, ctx, g(1), k);
    var applied := Apply(m, ctx, g(1));
    StartFair(applied, k);
    EnvFair(if s.daemon.Running? then Start(applied) else applied, g(2), k);
  }

  /** The counter moved from one key to the other with its value; every other counter, and the
      sum of all counters, is the same. */
  ghost predicate CounterMoved(before: File, after: File, from: Password, to: Password) {
    && before.Doc? && after.Doc?
    && after.Used(to) == before.Used(from) && from !in after.Keys()
    && (forall pw :: pw != from && pw != to ==> after.Used(pw) == before.Used(pw))
    && Sum(after.body.used) == Sum(before.body.used)
  }

  lemma StartTouchesNoFile(s: State, up: bool)
    ensures var t := Env(if up then Start(s) else s, []);
            t.files == s.files && t.users == s.users && t.carried == s.carried
  {
  }

  /** A refused change of password changes nothing, whatever refused it. */
  lemma RefusedChangesNothing(s: State, user: Login, to: Password, ctx: Ctx, g: Gaps)
    requires user in s.users && s.users[user].proto.Zivpn? && Refused(s, user, to)
    ensures ChangePassword(s, user, to, ctx, g) == s
  {
  }

  /** The counter file as the migration finds it, after the daemon's last moves before the stop. */
  function LastSeen(s: State, g: Gaps): State {
    if s.daemon.Running? then Env(s, g(0)) else s
  }

  /** With nothing metered after the restart, a change leaves the migrated files and books. */
  lemma RemeasuredStores(r: State, from: Password, to: Password, ctx: Ctx, g: Gaps)
    requires g(2) == []
    ensures var t := Remeasured(r, from, to, ctx, g);
            var before := LastSeen(r, g);
            && t.files == Migrate(before.files, from, to) && t.users == r.users
            && t.carried == before.carried[to := CarriedBy(before, from)] - {from}
  {
    var at := MigratePoint(r, g);
    MigratePointIs(r, g);
    assert at.files == LastSeen(r, g).files && at.carried == LastSeen(r, g).carried;
    var m := Migrated(at, from, to);
    ApplyKeys(m, ctx, g(1));
    StartTouchesNoFile(Apply(m, ctx, g(1)), r.daemon.Running?);
  }

  lemma MigratedCounter(f: Files, from: Password, to: Password)
    requires from != "" && to != "" && from != to && f.main.Doc? && to !in f.main.Keys()
    ensures CounterMoved(f.main, Migrate(f, from, to).main, from, to)
    ensures var t := Migrate(f, from, to);
            from in f.main.Keys() ==> Loaded(t.main, t.bak) == t.main.body.used
  {
    MigrateConserves(f, from, to);
  }

  /** A change of password that is accepted carries the account's usage over: its counter moves,
      the daemon comes back with the moved counters, the lifetime ledger and every other account
      are untouched. What it cannot carry over is what the stopped daemon had not saved: the account
      goes on from its whole usage exactly when the file was up to date at the stop. (`g(0)` is
      whatever the daemon does before it stops; nothing is metered after the restart.) */
  lemma ChangeConservesUsage(s: State, user: Login, to: Password, ctx: Ctx, g: Gaps)
    requires Rekeyable(s, user, to) && !Refused(s, user, to) && g(2) == []
    requires LastSeen(Rekeyed(s, user, to), g).files.main.Doc?
    ensures var from := s.users[user].pass;
            var t := ChangePassword(s, user, to, ctx, g);
            var before := LastSeen(Rekeyed(s, user, to), g);
            && CounterMoved(before.files.main, t.files.main, from, to)
            && (from in before.files.main.Keys() ==> Loaded(t.files.main, t.files.bak) == t.files.main.body.used)
            && t.users == s.users[user := s.users[user].(pass := to)]
            && CarriedBy(t, to) == CarriedBy(before, from)
            && (before.daemon.Running? ==>
                (t.files.main.Used(to) == UsedIn(before.daemon.body, from) <==>
                 before.files.main.Used(from) == UsedIn(before.daemon.body, from)))
  {
    var from := s.users[user].pass;
    var r := Rekeyed(s, user, to);
    EnvKeys(r, g(0));
    RemeasuredStores(r, from, to, ctx, g);
    MigratedCounter(LastSeen(r, g).files, from, to);
  }
}
