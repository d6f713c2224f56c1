/** What the running daemon goes by: after every operation it lets in and meters exactly what its
    configuration on disk says, and no operation but a stop leaves it down while somebody is to be served. */
module Serving {
  import opened Quota
  import opened Accounts
  import opened StateFile
  import opened Panel
  import opened Attribution
  import opened Enforcement
  import opened Runs
  import opened Standing

  /** The daemon, if it runs, was started with the configuration that is on disk now. */
  ghost predicate Serves(s: State) {
    s.daemon.Running? ==> s.config.Cfg? && s.daemon.body.quotas == s.config.quota && s.daemon.auth == s.config.auth
  }

  /** Somebody is to be served. */
  predicate Wanted(users: Users, today: Day) {
    ActivePasswords(users, Zivpn, today) != {}
  }

  /** The daemon goes by its configuration, and is up if it was and somebody is to be served. */
  ghost predicate KeepsServing(s: State, t: State, today: Day) {
    Serves(t) && (s.daemon.Running? && Wanted(t.users, today) ==> t.daemon.Running?)
  }

  // ---- the daemon's moves and an apply ----

  lemma {:induction false} EnvServes(s: State, acts: seq<Act>)
    ensures var t := Env(s, acts);
            && (t.daemon.Running? <==> s.daemon.Running?)
            && (s.daemon.Running? ==> t.daemon.body.quotas == s.daemon.body.quotas && t.daemon.auth == s.daemon.auth)
            && t.config == s.config && t.users == s.users
    ensures Serves(s) ==> Serves(Env(s, acts))
  {
    if acts != [] { EnvServes(s, acts[..|acts| - 1]); }
  }

  /** An apply that finds another configuration restarts the daemon on the new one: it is up exactly
      when somebody is to be served, and goes by it. One that finds the same, or none it can read,
      touches nothing. */
  lemma ApplyRestartsIff(s: State, ctx: Ctx, gap: seq<Act>)
    ensures var t := Apply(s, ctx, gap);
            if s.config.Cfg? && s.config != Derived(s.users, ctx)
            then Serves(t) && (t.daemon.Running? <==> Wanted(s.users, ctx.today)) && t.config == Derived(s.users, ctx)
            else t == s
  {
    ApplyFrame(s, ctx, gap);
    var pws := ActivePasswords(s.users, Zivpn, ctx.today);
    assert multiset(pws) == multiset{} <==> pws == {} by {
      if pws != {} {
        var pw :| pw in pws;
        assert pw in multiset(pws);
      }
    }
  }

  lemma ApplyServes(s: State, ctx: Ctx, gap: seq<Act>)
    requires Serves(s)
    ensures KeepsServing(s, Apply(s, ctx, gap), ctx.today)
  {
    ApplyRestartsIff(s, ctx, gap);
    ApplyFrame(s, ctx, gap);
  }

  /** Applied, started if it was stopped for the occasion, and left to run. */
  lemma ResumedIsUp(s: State, starts: bool, ctx: Ctx, gap: seq<Act>, last: seq<Act>)
    requires s.config.Cfg? && Wanted(s.users, ctx.today) && (starts || s.daemon.Running?)
    ensures var applied := Apply(s, ctx, gap);
            Env(if starts then Start(applied) else applied, last).daemon.Running?
  {
    var applied := Apply(s, ctx, gap);
    ApplyRestartsIff(s, ctx, gap);
    var pw :| pw in ActivePasswords(s.users, Zivpn, ctx.today);
    assert pw in Derived(s.users, ctx).auth;
    EnvServes(if starts then Start(applied) else applied, last);
  }

  lemma ResumedServes(s: State, starts: bool, ctx: Ctx, gap: seq<Act>, last: seq<Act>)
    requires Serves(s)
    ensures var applied := Apply(s, ctx, gap);
            Serves(Env(if starts then Start(applied) else applied, last))
  {
    var applied := Apply(s, ctx, gap);
    ApplyRestartsIff(s, ctx, gap);
    EnvServes(if starts then Start(applied) else applied, last);
  }

  // ---- delete, change of password, create ----

  /** A deletion leaves the daemon up if it was, even when its configuration does not change: an
      orphan, a locked or an expired account. */
  lemma DeletionLeavesItUp(s: State, user: Login, pw: Password, ctx: Ctx, g: Gaps)
    requires s.daemon.Running? && s.config.Cfg? && Wanted(s.users, ctx.today)
    ensures DeleteZivpn(s, user, pw, ctx, g).daemon.Running?
  {
    var starts := pw != "" && Env(s, g(0)).daemon.Running?;
    var at := PurgePoint(s, pw, g);
    PurgePointIs(s, pw, g);
    EnvServes(s, g(0));
    ResumedIsUp(Purge(at, user, pw), starts, ctx, g(2), g(3));
    EnvServes(Release(Redeployed(s, user, pw, ctx, g), pw), g(4));
  }

  lemma DeletionServes(s: State, user: Login, pw: Password, ctx: Ctx, g: Gaps)
    requires Serves(s)
    ensures KeepsServing(s, DeleteZivpn(s, user, pw, ctx, g), ctx.today)
  {
    var starts := pw != "" && Env(s, g(0)).daemon.Running?;
    var at := PurgePoint(s, pw, g);
    DeleteKeys(s, user, pw, ctx, g);
    EnvServes(s, g(0));
    if pw == "" { assert at == Env(s, g(0)); }
    assert Serves(at) by { EnvServes(Env(s, g(0)), g(1)); }
    ResumedServes(Purge(at, user, pw), starts, ctx, g(2), g(3));
    EnvServes(Release(Redeployed(s, user, pw, ctx, g), pw), g(4));
    if s.daemon.Running? && Wanted(s.users, ctx.today) { DeletionLeavesItUp(s, user, pw, ctx, g); }
  }

  /** And so does a change of password. */
  lemma ChangeLeavesItUp(r: State, was: Password, to: Password, ctx: Ctx, g: Gaps)
    requires r.daemon.Running? && r.config.Cfg? && Wanted(r.users, ctx.today)
    ensures Remeasured(r, was, to, ctx, g).daemon.Running?
  {
    MigratePointIs(r, g);
    ResumedIsUp(Migrated(MigratePoint(r, g), was, to), true, ctx, g(1), g(2));
  }

  lemma ChangeServes(r: State, was: Password, to: Password, ctx: Ctx, g: Gaps)
    requires Serves(r)
    ensures KeepsServing(r, Remeasured(r, was, to, ctx, g), ctx.today)
  {
    MigratePointIs(r, g);
    RemeasuredUsers(r, was, to, ctx, g);
    ResumedServes(Migrated(MigratePoint(r, g), was, to), r.daemon.Running?, ctx, g(1), g(2));
    if r.daemon.Running? && Wanted(r.users, ctx.today) { ChangeLeavesItUp(r, was, to, ctx, g); }
  }

  lemma EnrolServes(s: State, user: Login, pw: Password, exp: Day, quota: Limit, ctx: Ctx, g: Gaps)
    requires Serves(s)
    ensures KeepsServing(s, Enrol(s, user, pw, exp, quota, ctx, g), ctx.today)
  {
    var w := Written(s, user, pw, exp, quota);
    EnvServes(w, g(1));
    ApplyServes(Env(w, g(1)), ctx, g(2));
    ApplyFrame(Env(w, g(1)), ctx, g(2));
    EnvServes(Apply(Env(w, g(1)), ctx, g(2)), g(3));
  }

  lemma SettleServes(s: State, pass: Password, draws: seq<Password>, g: Gaps)
    requires Serves(s)
    ensures var t := Settle(s, pass, draws, g).state; Serves(t) && (t.daemon.Running? <==> s.daemon.Running?)
  {
    EnvServes(s, g(0));
  }

  lemma CreateServes(s: State, proto: Proto, user: Login, pass: Password, draws: seq<Password>, exp: Day,
                     quota: Limit, ctx: Ctx, g: Gaps)
    requires Serves(s)
    ensures KeepsServing(s, Create(s, proto, user, pass, draws, exp, quota, ctx, g).state, ctx.today)
  {
    if ValidName(user) && !LoginTaken(s.users, user) && proto.Zivpn? {
      var t := Settle(s, pass, draws, g);
      SettleServes(s, pass, draws, g);
      EnrolServes(t.state, user, t.pw, exp, quota, ctx, g);
    }
  }

  // ---- edits, passes and the guard ----

  /** The panel's writes to its own files, and an apply after them or not. */
  lemma WrittenServes(s: State, w: State, applies: bool, ctx: Ctx, gap: seq<Act>)
    requires Serves(s) && w.daemon == s.daemon && w.config == s.config
    ensures KeepsServing(s, if applies then Apply(w, ctx, gap) else w, ctx.today)
  {
    ApplyServes(w, ctx, gap);
  }

  lemma AccountServes(s: State, user: Login, a: Account, q: map<Password, Login>, ctx: Ctx, gap: seq<Act>)
    requires Serves(s)
    ensures var w := With(s, user, a).(quarantine := q);
            KeepsServing(s, w, ctx.today) && KeepsServing(s, Apply(w, ctx, gap), ctx.today)
  {
    var w := With(s, user, a).(quarantine := q);
    WrittenServes(s, w, false, ctx, gap);
    WrittenServes(s, w, true, ctx, gap);
  }

  lemma EditsServe(s: State, m: Move)
    requires Serves(s) && Edits(m.op)
    ensures KeepsServing(s, Edited(s, m), m.ctx.today)
  {
    match m.op
    case OpRenew(user, exp) =>
      if user in s.users {
        AccountServes(s, user, RenewedAccount(s.users[user], exp), s.quarantine, m.ctx, m.g(0));
      }
    case OpSetQuota(user, quota) =>
      if user in s.users {
        AccountServes(s, user, RequotaedAccount(s.users[user], quota), s.quarantine, m.ctx, m.g(0));
        AccountServes(s, user, RequotaedAccount(s.users[user], quota), Freed(s.quarantine, user), m.ctx, m.g(0));
      }
    case OpLock(user) => LocksServe(s, user, m.ctx, m.g);
    case OpUnlock(user) => LocksServe(s, user, m.ctx, m.g);
    case OpBlock(names, reason) => BatchServes(s, names, reason, m.ctx, m.g);
    case OpUnblock(names) => BatchServes(s, names, Manual, m.ctx, m.g);
  }

  lemma LocksServe(s: State, user: Login, ctx: Ctx, g: Gaps)
    requires Serves(s)
    ensures KeepsServing(s, Lock(s, user, ctx, g), ctx.today)
    ensures KeepsServing(s, Unlock(s, user, ctx, g), ctx.today)
  {
    if user in s.users {
      var a, b := s.users[user].(locked := true), s.users[user].(locked := false);
      AccountServes(s, user, a, s.quarantine, ctx, g(0));
      AccountServes(s, user, a, Quarantined(s.quarantine, user, a.pass), ctx, g(0));
      AccountServes(s, user, b, s.quarantine, ctx, g(0));
      AccountServes(s, user, b, Freed(s.quarantine, user), ctx, g(0));
    }
  }

  lemma BatchServes(s: State, names: seq<Login>, reason: Reason, ctx: Ctx, g: Gaps)
    ensures Serves(s) ==> KeepsServing(s, Block(s, names, reason, ctx, g), ctx.today)
    ensures Serves(s) ==> KeepsServing(s, Unblock(s, names, ctx, g), ctx.today)
    ensures Block(s, names, reason, ctx, g).users == BlockAll(s, names, reason).state.users
    ensures Block(s, names, reason, ctx, g).quarantine == BlockAll(s, names, reason).state.quarantine
    ensures Unblock(s, names, ctx, g).users == UnblockAll(s, names).state.users
  {
    var b, u := BlockAll(s, names, reason), UnblockAll(s, names);
    BlockSameStores(s, names, reason);
    UnblockSameStores(s, names);
    ApplyFrame(b.state, ctx, g(0));
    ApplyFrame(u.state, ctx, g(0));
    if Serves(s) {
      WrittenServes(s, b.state, b.changed > 0, ctx, g(0));
      WrittenServes(s, u.state, u.changed > 0, ctx, g(0));
    }
  }

  lemma PassServes(s: State, order: seq<Login>, meter: Login -> nat, ctx: Ctx, g: Gaps)
    requires Serves(s)
    ensures KeepsServing(s, Enforce(s, order, meter, ctx, g), ctx.today)
  {
    var p := Passed(s, order, meter, ctx.today);
    WrittenServes(s, p, Dirty(Synced(s).users, p.users), ctx, g(0));
  }

  lemma PaddedServes(t: State, placeholder: Password, gap: seq<Act>)
    requires t.config.Cfg?
    ensures Serves(Padded(t, placeholder, gap)) && Padded(t, placeholder, gap).daemon.Running?
  {
    var padded := t.(config := t.config.(auth := multiset{placeholder}));
    EnvServes(padded, gap);
    assert placeholder in padded.config.auth;
  }

  lemma ChecksServe(t: State, ctx: Ctx, cooling: bool, alive: bool, placeholder: Password, g: Gaps)
    requires Serves(t)
    ensures KeepsServing(t, GuardChecks(t, ctx, cooling, alive, placeholder, g).state, ctx.today)
  {
    ApplyServes(t, ctx, g(0));
    if t.config.Cfg? { PaddedServes(t, placeholder, g(0)); }
  }

  lemma SeedingServes(up: State)
    ensures var t := RestoredIfCorrupt(Synced(Seeded(up))); t.daemon == up.daemon && t.config == up.config
  {
  }

  lemma GuardServes(s: State, ctx: Ctx, cooling: bool, alive: bool, placeholder: Password, g: Gaps)
    requires Serves(s)
    ensures KeepsServing(s, Guard(s, ctx, cooling, alive, placeholder, g).state, ctx.today)
  {
    var t := RestoredIfCorrupt(Synced(Seeded(Start(s))));
    SeedingServes(Start(s));
    if !s.config.NoConfig? && Start(s).daemon.Running? { ChecksServe(t, ctx, cooling, alive, placeholder, g); }
  }

  // ---- over runs ----

  lemma MachineServes(s: State, op: Op)
    requires Serves(s) && Machine(op)
    ensures Serves(Operated(s, op)) && (s.daemon.Running? && !op.OpStop? ==> Operated(s, op).daemon.Running?)
  {
    if op.OpDaemon? { EnvServes(s, op.acts); }
  }

  /** Every operation leaves the daemon, if it runs, going by the configuration on disk; and none but
      a stop takes it down while somebody is to be served. */
  lemma NextServes(s: State, m: Move)
    requires Serves(s)
    ensures Serves(Next(s, m)) && (!m.op.OpStop? ==> KeepsServing(s, Next(s, m), m.ctx.today))
  {
    if Edits(m.op) {
      EditsServe(s, m);
    } else if Machine(m.op) {
      MachineServes(s, m.op);
    } else {
      match m.op
      case OpCreate(proto, user, pass, draws, exp, quota) => CreateServes(s, proto, user, pass, draws, exp, quota, m.ctx, m.g);
      case OpDelete(user, pw) =>
        if !(user in s.users && !s.users[user].proto.Zivpn?) {
          DeletionServes(s.(users := s.users - {user}), user, pw, m.ctx, m.g);
        }
      case OpChangePassword(user, to) =>
        if user in s.users { ChangeServes(Rekeyed(s, user, to), s.users[user].pass, to, m.ctx, m.g); }
      case OpEnforce(order, meter) => PassServes(s, order, meter, m.ctx, m.g);
      case OpGuard(cooling, alive, placeholder) => GuardServes(s, m.ctx, cooling, alive, placeholder, m.g);
    }
  }

  /** Over every run, a running daemon meters by the quotas and lets in by the password list that are
      in its configuration file. */
  lemma {:induction false} RunsServe(s: State, moves: seq<Move>)
    requires Serves(s)
    ensures Serves(After(s, moves))
  {
    if moves != [] {
      var n := |moves| - 1;
      RunsServe(s, moves[..n]);
      NextServes(After(s, moves[..n]), moves[n]);
    }
  }

  /** At every point of the run somebody is to be served, and nobody stops the daemon. */
  ghost predicate AlwaysWanted(s: State, moves: seq<Move>) {
    forall i :: 0 <= i < |moves| ==> !moves[i].op.OpStop? && Wanted(After(s, moves[..i + 1]).users, moves[i].ctx.today)
  }

  /** And on such a run a daemon that is up stays up, whatever is deleted, changed, locked or
      restored on the way. */
  lemma {:induction false} RunsStayUp(s: State, moves: seq<Move>)
    requires Serves(s) && s.daemon.Running? && AlwaysWanted(s, moves)
    ensures After(s, moves).daemon.Running?
  {
    if moves != [] {
      var n := |moves| - 1;
      forall i | 0 <= i < n
        ensures !moves[..n][i].op.OpStop? && Wanted(After(s, moves[..n][..i + 1]).users, moves[..n][i].ctx.today)
      {
        assert moves[..n][..i + 1] == moves[..i + 1];
      }
      RunsStayUp(s, moves[..n]);
      RunsServe(s, moves[..n]);
      NextServes(After(s, moves[..n]), moves[n]);
      assert moves[..n + 1] == moves;
    }
  }
}
