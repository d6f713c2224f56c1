/** What stands over whole runs besides safety: the configuration follows the accounts, and the
    quarantine follows the locks. */
module Standing {
  import opened Quota
  import opened Ledger
  import opened Accounts
  import opened StateFile
  import opened Panel
  import opened Attribution
  import opened Enforcement
  import opened Quarantine
  import opened Runs
  import opened Incidents

  // ---- the configuration ----

  /** In step, as of the day it was or as of today. */
  ghost predicate InStepBy(s: State, day: Day, ctx: Ctx) {
    InStepOn(s, day, ctx.fmt) || InStepOn(s, ctx.today, ctx.fmt)
  }

  /** A change to accounts that are not zivpn accounts, before or after, is nothing to the daemon. */
  lemma OtherAccountInStep(s: State, t: State, user: Login, day: Day, fmt: Rounding)
    requires InStepOn(s, day, fmt) && t.config == s.config
    requires user in s.users ==> !s.users[user].proto.Zivpn?
    requires user in t.users ==> !t.users[user].proto.Zivpn?
    requires forall u :: u != user ==> (u in t.users <==> u in s.users) && (u in s.users ==> t.users[u] == s.users[u])
    ensures InStepOn(t, day, fmt)
  {
    assert SameForDaemon(s.users, day, t.users, day);
    DerivedDependsOnActive(s.users, day, t.users, day, fmt);
  }

  lemma EnvInStep(s: State, acts: seq<Act>, day: Day, fmt: Rounding)
    requires InStepOn(s, day, fmt)
    ensures InStepOn(Env(s, acts), day, fmt)
  {
    EnvKeys(s, acts);
  }

  lemma StartInStep(s: State, up: bool, acts: seq<Act>, day: Day, fmt: Rounding)
    requires InStepOn(s, day, fmt)
    ensures InStepOn(Env(if up then Start(s) else s, acts), day, fmt)
  {
    StartKeys(s);
    EnvKeys(if up then Start(s) else s, acts);
  }

  lemma DeletedZivpnIsInStep(s: State, user: Login, pw: Password, ctx: Ctx, g: Gaps)
    ensures InStepOn(DeleteZivpn(s, user, pw, ctx, g), ctx.today, ctx.fmt)
  {
    var purged := Purge(PurgePoint(s, pw, g), user, pw);
    AppliedIsInStep(purged, ctx, g(2));
    StartInStep(Apply(purged, ctx, g(2)), pw != "" && Env(s, g(0)).daemon.Running?, g(3), ctx.today, ctx.fmt);
    EnvInStep(Release(Redeployed(s, user, pw, ctx, g), pw), g(4), ctx.today, ctx.fmt);
  }

  lemma DeleteInStep(s: State, user: Login, pw: Password, ctx: Ctx, g: Gaps, day: Day)
    requires InStepOn(s, day, ctx.fmt)
    ensures InStepBy(Delete(s, user, pw, ctx, g), day, ctx)
  {
    var gone := s.(users := s.users - {user});
    if user in s.users && !s.users[user].proto.Zivpn? {
      OtherAccountInStep(s, gone, user, day, ctx.fmt);
    } else {
      DeletedZivpnIsInStep(gone, user, pw, ctx, g);
    }
  }

  lemma EnrolInStep(s: State, user: Login, pw: Password, exp: Day, quota: Limit, ctx: Ctx, g: Gaps)
    ensures InStepOn(Enrol(s, user, pw, exp, quota, ctx, g), ctx.today, ctx.fmt)
  {
    var w := Env(Written(s, user, pw, exp, quota), g(1));
    AppliedIsInStep(w, ctx, g(2));
    EnvInStep(Apply(w, ctx, g(2)), g(3), ctx.today, ctx.fmt);
  }

  lemma SettleIsOutside(s: State, pass: Password, draws: seq<Password>, g: Gaps)
    ensures var t := Settle(s, pass, draws, g).state;
            t.users == s.users && t.config == s.config && t.quarantine == s.quarantine
  {
    var t, a := Settle(s, pass, draws, g).state, Env(s, g(0));
    EnvKeys(s, g(0));
    assert t == s || t == a || t == a.(copies := Purged(a.copies, pass));
  }

  lemma CreateInStep(s: State, proto: Proto, user: Login, pass: Password, draws: seq<Password>, exp: Day,
                     quota: Limit, ctx: Ctx, g: Gaps, day: Day)
    requires InStepOn(s, day, ctx.fmt)
    ensures InStepBy(Create(s, proto, user, pass, draws, exp, quota, ctx, g).state, day, ctx)
  {
    if ValidName(user) && !LoginTaken(s.users, user) {
      if proto.Zivpn? {
        var t := Settle(s, pass, draws, g);
        SettleIsOutside(s, pass, draws, g);
        EnrolInStep(t.state, user, t.pw, exp, quota, ctx, g);
        QuietInStep(s, t.state, day, ctx);
      } else {
        var a := NewAccount(proto, exp, InitialPass(proto, pass, draws), quota);
        OtherAccountInStep(s, s.(users := s.users[user := a]), user, day, ctx.fmt);
      }
    }
  }

  /** Whatever touches neither the accounts nor the configuration. */
  lemma QuietInStep(s: State, t: State, day: Day, ctx: Ctx)
    requires InStepOn(s, day, ctx.fmt) && t.users == s.users && t.config == s.config
    ensures InStepBy(t, day, ctx)
  {
  }

  lemma ChangeInStep(s: State, user: Login, to: Password, ctx: Ctx, g: Gaps, day: Day)
    requires InStepOn(s, day, ctx.fmt)
    ensures InStepBy(ChangePassword(s, user, to, ctx, g), day, ctx)
  {
    if user in s.users {
      if !s.users[user].proto.Zivpn? {
        OtherAccountInStep(s, Rekeyed(s, user, to), user, day, ctx.fmt);
      } else {
        var m := Migrated(MigratePoint(Rekeyed(s, user, to), g), s.users[user].pass, to);
        AppliedIsInStep(m, ctx, g(1));
        StartInStep(Apply(m, ctx, g(1)), s.daemon.Running?, g(2), ctx.today, ctx.fmt);
      }
    }
  }

  /** Renewing, setting a quota, locking and unlocking: in step today for a zivpn account. */
  lemma EditInStep(s: State, user: Login, a: Account, q: map<Password, Login>, ctx: Ctx, gap: seq<Act>, day: Day)
    requires InStepOn(s, day, ctx.fmt) && user in s.users && a.proto == s.users[user].proto
    ensures var t := With(s, user, a).(quarantine := q);
            InStepOn(Apply(t, ctx, gap), ctx.today, ctx.fmt) && (!a.proto.Zivpn? ==> InStepOn(t, day, ctx.fmt))
  {
    var t := With(s, user, a).(quarantine := q);
    AppliedIsInStep(t, ctx, gap);
    if !a.proto.Zivpn? { OtherAccountInStep(s, t, user, day, ctx.fmt); }
  }

  lemma FlagsInStep(s: State, user: Login, exp: Day, quota: Limit, ctx: Ctx, g: Gaps, day: Day)
    requires InStepOn(s, day, ctx.fmt)
    ensures InStepBy(Renew(s, user, exp, ctx, g), day, ctx)
    ensures InStepBy(SetQuota(s, user, quota, ctx, g), day, ctx)
  {
    if user in s.users {
      EditInStep(s, user, RenewedAccount(s.users[user], exp), s.quarantine, ctx, g(0), day);
      EditInStep(s, user, RequotaedAccount(s.users[user], quota), s.quarantine, ctx, g(0), day);
      EditInStep(s, user, RequotaedAccount(s.users[user], quota), Freed(s.quarantine, user), ctx, g(0), day);
    }
  }

  lemma LocksInStep(s: State, user: Login, ctx: Ctx, g: Gaps, day: Day)
    requires InStepOn(s, day, ctx.fmt)
    ensures InStepBy(Lock(s, user, ctx, g), day, ctx)
    ensures InStepBy(Unlock(s, user, ctx, g), day, ctx)
  {
    if user in s.users {
      var a, b := s.users[user].(locked := true), s.users[user].(locked := false);
      EditInStep(s, user, a, s.quarantine, ctx, g(0), day);
      EditInStep(s, user, a, Quarantined(s.quarantine, user, a.pass), ctx, g(0), day);
      EditInStep(s, user, b, s.quarantine, ctx, g(0), day);
      EditInStep(s, user, b, Freed(s.quarantine, user), ctx, g(0), day);
    }
  }

  lemma {:induction false} UnchangedBatch(s: State, names: seq<Login>, reason: Reason)
    ensures BlockAll(s, names, reason).changed == 0 ==> BlockAll(s, names, reason).state.users == s.users
    ensures UnblockAll(s, names).changed == 0 ==> UnblockAll(s, names).state.users == s.users
    ensures BlockAll(s, names, reason).state.config == s.config && UnblockAll(s, names).state.config == s.config
  {
    if names != [] { UnchangedBatch(s, names[..|names| - 1], reason); }
  }

  lemma BatchInStep(s: State, names: seq<Login>, reason: Reason, ctx: Ctx, g: Gaps, day: Day)
    requires InStepOn(s, day, ctx.fmt)
    ensures InStepBy(Block(s, names, reason, ctx, g), day, ctx)
    ensures InStepBy(Unblock(s, names, ctx, g), day, ctx)
  {
    UnchangedBatch(s, names, reason);
    AppliedIsInStep(BlockAll(s, names, reason).state, ctx, g(0));
    AppliedIsInStep(UnblockAll(s, names).state, ctx, g(0));
  }

  /** The guard pads an empty auth list with a random placeholder when no account is active. */
  ghost predicate Pads(s: State, today: Day) {
    ActivePasswords(s.users, Zivpn, today) == {}
  }

  lemma ChecksInStep(t: State, ctx: Ctx, cooling: bool, alive: bool, placeholder: Password, g: Gaps, day: Day)
    requires InStepOn(t, day, ctx.fmt) && !Pads(t, ctx.today)
    ensures InStepBy(GuardChecks(t, ctx, cooling, alive, placeholder, g).state, day, ctx)
  {
    AppliedIsInStep(t, ctx, g(0));
  }

  lemma GuardInStep(s: State, ctx: Ctx, cooling: bool, alive: bool, placeholder: Password, g: Gaps, day: Day)
    requires InStepOn(s, day, ctx.fmt) && !Pads(s, ctx.today)
    ensures InStepBy(Guard(s, ctx, cooling, alive, placeholder, g).state, day, ctx)
  {
    StartKeys(s);
    var up := Start(s);
    var t := RestoredIfCorrupt(Synced(Seeded(up)));
    SeedAndSyncServeTheSame(up, Ctx(day, ctx.fmt));
    SeedAndSyncServeTheSame(up, ctx);
    DerivedParts(t.users, up.users, ctx);
    ChecksInStep(t, ctx, cooling, alive, placeholder, g, day);
  }

  ghost predicate Paddable(s: State, m: Move) {
    m.op.OpGuard? && Pads(s, m.ctx.today)
  }

  lemma EditsInStep(s: State, m: Move, day: Day)
    requires InStepOn(s, day, m.ctx.fmt) && Edits(m.op)
    ensures InStepBy(Edited(s, m), day, m.ctx)
  {
    match m.op
    case OpRenew(user, exp) => FlagsInStep(s, user, exp, Limit(0.0, 0.0), m.ctx, m.g, day);
    case OpSetQuota(user, quota) => FlagsInStep(s, user, 0, quota, m.ctx, m.g, day);
    case OpLock(user) => LocksInStep(s, user, m.ctx, m.g, day);
    case OpUnlock(user) => LocksInStep(s, user, m.ctx, m.g, day);
    case OpBlock(names, reason) => BatchInStep(s, names, reason, m.ctx, m.g, day);
    case OpUnblock(names) => BatchInStep(s, names, Manual, m.ctx, m.g, day);
  }

  lemma PassInStep(s: State, order: seq<Login>, meter: Login -> nat, ctx: Ctx, g: Gaps, day: Day)
    requires InStepOn(s, day, ctx.fmt) && day <= ctx.today
    ensures InStepBy(Enforce(s, order, meter, ctx, g), day, ctx)
  {
    DirtyFlagIsSound(s, day, order, meter, ctx, g);
  }

  /** Every operation keeps the configuration in step with the accounts, as of today or as of the
      earlier day it was in step with. */
  lemma NextInStep(s: State, m: Move, day: Day)
    requires InStepOn(s, day, m.ctx.fmt) && day <= m.ctx.today && !Paddable(s, m)
    ensures InStepBy(Next(s, m), day, m.ctx)
  {
    if Edits(m.op) {
      EditsInStep(s, m, day);
    } else if Machine(m.op) {
      QuietInStep(s, Operated(s, m.op), day, m.ctx);
    } else {
      match m.op
      case OpCreate(proto, user, pass, draws, exp, quota) => CreateInStep(s, proto, user, pass, draws, exp, quota, m.ctx, m.g, day);
      case OpDelete(user, pw) => DeleteInStep(s, user, pw, m.ctx, m.g, day);
      case OpChangePassword(user, to) => ChangeInStep(s, user, to, m.ctx, m.g, day);
      case OpEnforce(order, meter) => PassInStep(s, order, meter, m.ctx, m.g, day);
      case OpGuard(cooling, alive, placeholder) => GuardInStep(s, m.ctx, cooling, alive, placeholder, m.g, day);
    }
  }

  /** The calendar never runs backwards, the formatting never changes, nothing is padded. */
  ghost predicate Dated(s: State, moves: seq<Move>, fmt: Rounding) {
    && (forall i :: 0 <= i < |moves| ==> moves[i].ctx.fmt == fmt && !Paddable(After(s, moves[..i]), moves[i]))
    && (forall i, j :: 0 <= i < j < |moves| ==> moves[i].ctx.today <= moves[j].ctx.today)
  }

  lemma DatedPrefix(s: State, moves: seq<Move>, fmt: Rounding)
    requires Dated(s, moves, fmt) && moves != []
    ensures Dated(s, moves[..|moves| - 1], fmt)
  {
    var n := |moves| - 1;
    forall i | 0 <= i < n
      ensures moves[..n][i].ctx.fmt == fmt && !Paddable(After(s, moves[..n][..i]), moves[..n][i])
    {
      assert moves[..n][..i] == moves[..i];
    }
  }

  /** Over every run, the daemon's configuration is the one derived from the accounts as they are
      now, on the last operation's date or on an earlier one. */
  lemma {:induction false} RunsStayInStep(s: State, moves: seq<Move>, start: Day, fmt: Rounding) returns (day: Day)
    requires InStepOn(s, start, fmt) && Dated(s, moves, fmt)
    requires forall i :: 0 <= i < |moves| ==> start <= moves[i].ctx.today
    ensures InStepOn(After(s, moves), day, fmt)
    ensures start <= day
    ensures if moves == [] then day == start else day <= moves[|moves| - 1].ctx.today
  {
    if moves == [] {
      day := start;
    } else {
      var n := |moves| - 1;
      var m := moves[n];
      DatedPrefix(s, moves, fmt);
      day := RunsStayInStep(s, moves[..n], start, fmt);
      assert day <= m.ctx.today by {
        if n > 0 { assert moves[..n][n - 1] == moves[n - 1]; }
      }
      var before := After(s, moves[..n]);
      NextInStep(before, m, day);
      if !InStepOn(Next(before, m), day, fmt) { day := m.ctx.today; }
    }
  }

  // ---- the quarantine ----

  /** The operations that keep the quarantine the mirror of the locks. */
  ghost predicate Tidy(s: State, m: Move) {
    match m.op
    case OpRenew(user, _) => user in s.users && s.users[user].proto.Zivpn? ==> !(s.users[user].locked && s.users[user].expLock)
    case OpSetQuota(user, _) => user in s.users && s.users[user].proto.Zivpn? ==> !s.users[user].locked || s.users[user].quotaHit
    case OpChangePassword(user, _) => user in s.users && s.users[user].proto.Zivpn? ==> !s.users[user].locked
    case OpUnblock(names) => forall i :: 0 <= i < |names| ==> names[i] !in Live(s.users)
    case OpDelete(user, pw) => user !in s.users ==> user !in Live(s.users) && pw !in Live(s.users) && pw !in s.users
    case _ => true
  }

  ghost predicate InMirror(s: State) {
    Mirrors(s.quarantine, s.users)
  }

  lemma EnvMirror(s: State, acts: seq<Act>)
    requires InMirror(s)
    ensures InMirror(Env(s, acts))
  {
    EnvKeys(s, acts);
  }

  lemma ApplyMirror(s: State, ctx: Ctx, gap: seq<Act>)
    requires InMirror(s)
    ensures InMirror(Apply(s, ctx, gap))
  {
    ApplyFrame(s, ctx, gap);
  }

  lemma OtherMirror(s: State, t: State, user: Login)
    requires InMirror(s) && t.quarantine == s.quarantine
    requires user in s.users ==> !s.users[user].proto.Zivpn?
    requires user in t.users ==> !t.users[user].proto.Zivpn?
    requires forall u :: u != user ==> (u in t.users <==> u in s.users) && (u in s.users ==> t.users[u] == s.users[u])
    ensures InMirror(t)
  {
    SameLocksMirror(s.quarantine, s.users, t.users);
  }

  lemma EnrolMirror(s: State, user: Login, pw: Password, exp: Day, quota: Limit, ctx: Ctx, g: Gaps)
    requires InMirror(s) && user !in s.users
    ensures InMirror(Enrol(s, user, pw, exp, quota, ctx, g))
  {
    var w := Written(s, user, pw, exp, quota);
    CreateMirrors(s.quarantine, s.users, user, NewAccount(Zivpn, exp, pw, quota));
    EnvMirror(w, g(1));
    ApplyMirror(Env(w, g(1)), ctx, g(2));
    EnvMirror(Apply(Env(w, g(1)), ctx, g(2)), g(3));
  }

  lemma CreateMirror(s: State, proto: Proto, user: Login, pass: Password, draws: seq<Password>, exp: Day,
                     quota: Limit, ctx: Ctx, g: Gaps)
    requires InMirror(s)
    ensures InMirror(Create(s, proto, user, pass, draws, exp, quota, ctx, g).state)
  {
    if ValidName(user) && !LoginTaken(s.users, user) {
      if proto.Zivpn? {
        var t := Settle(s, pass, draws, g);
        SettleIsOutside(s, pass, draws, g);
        EnrolMirror(t.state, user, t.pw, exp, quota, ctx, g);
      } else {
        var a := NewAccount(proto, exp, InitialPass(proto, pass, draws), quota);
        CreateMirrors(s.quarantine, s.users, user, a);
      }
    }
  }

  lemma DeleteMirror(s: State, user: Login, pw: Password, ctx: Ctx, g: Gaps)
    requires InMirror(s) && Distinct(s.users) && DeleteTarget(s, user, pw)
    requires user !in s.users ==> user !in Live(s.users) && pw !in Live(s.users) && pw !in s.users
    ensures InMirror(Delete(s, user, pw, ctx, g))
  {
    var gone := s.(users := s.users - {user});
    if user in s.users && !s.users[user].proto.Zivpn? {
      OtherMirror(s, gone, user);
    } else {
      var at := PurgePoint(gone, pw, g);
      PurgePointIs(gone, pw, g);
      var purged := Purge(at, user, pw);
      if user in s.users {
        DeleteMirrors(s.quarantine, s.users, user);
      } else {
        OrphanMirrors(s.quarantine, s.users, user, pw);
        assert gone.users == s.users;
      }
      ApplyMirror(purged, ctx, g(2));
      var applied := Apply(purged, ctx, g(2));
      StartKeys(applied);
      EnvKeys(if pw != "" && Env(gone, g(0)).daemon.Running? then Start(applied) else applied, g(3));
      EnvMirror(Release(Redeployed(gone, user, pw, ctx, g), pw), g(4));
    }
  }

  lemma ChangeMirror(s: State, user: Login, to: Password, ctx: Ctx, g: Gaps)
    requires InMirror(s) && Distinct(s.users)
    requires user in s.users && s.users[user].proto.Zivpn? ==> !s.users[user].locked
    ensures InMirror(ChangePassword(s, user, to, ctx, g))
  {
    if user in s.users {
      var r := Rekeyed(s, user, to);
      if !s.users[user].proto.Zivpn? {
        OtherMirror(s, r, user);
      } else if s.users[user].pass != to && !Refused(s, user, to) {
        RekeyedMirrors(s.quarantine, s.users, user, s.users[user].(pass := to));
        MigratePointIs(r, g);
        var m := Migrated(MigratePoint(r, g), s.users[user].pass, to);
        ApplyMirror(m, ctx, g(1));
        StartKeys(Apply(m, ctx, g(1)));
        EnvKeys(if s.daemon.Running? then Start(Apply(m, ctx, g(1))) else Apply(m, ctx, g(1)), g(2));
      }
    }
  }

  lemma RekeyedMirrors(q: map<Password, Login>, users: Users, user: Login, a: Account)
    requires Mirrors(q, users) && user in users && !users[user].locked && !a.locked
    ensures Mirrors(q, users[user := a])
  {
  }

  lemma EditMirror(s: State, user: Login, ctx: Ctx, g: Gaps)
    requires InMirror(s) && Distinct(s.users)
    ensures InMirror(Lock(s, user, ctx, g)) && InMirror(Unlock(s, user, ctx, g))
  {
    if user in s.users {
      var a, b := s.users[user].(locked := true), s.users[user].(locked := false);
      var locked, open := With(s, user, a), With(s, user, b);
      if s.users[user].proto.Zivpn? {
        LockMirrors(s.quarantine, s.users, user, a);
        UnlockMirrors(s.quarantine, s.users, user, b);
        ApplyMirror(locked.(quarantine := Quarantined(s.quarantine, user, a.pass)), ctx, g(0));
        ApplyMirror(open.(quarantine := Freed(s.quarantine, user)), ctx, g(0));
      } else {
        OtherMirror(s, locked, user);
        OtherMirror(s, open, user);
      }
    }
  }

  lemma RenewMirror(s: State, user: Login, exp: Day, ctx: Ctx, g: Gaps)
    requires InMirror(s) && Distinct(s.users) && Tidy(s, Move(OpRenew(user, exp), ctx, g))
    ensures InMirror(Renew(s, user, exp, ctx, g))
  {
    if user in s.users {
      if s.users[user].proto.Zivpn? {
        RenewKeepsMirrorIff(s, user, exp, ctx, g);
      } else {
        OtherMirror(s, With(s, user, RenewedAccount(s.users[user], exp)), user);
      }
    }
  }

  lemma SetQuotaMirror(s: State, user: Login, quota: Limit, ctx: Ctx, g: Gaps)
    requires InMirror(s) && Distinct(s.users) && Tidy(s, Move(OpSetQuota(user, quota), ctx, g))
    ensures InMirror(SetQuota(s, user, quota, ctx, g))
  {
    if user in s.users {
      if s.users[user].proto.Zivpn? {
        SetQuotaKeepsMirrorIff(s, user, quota, ctx, g);
      } else {
        OtherMirror(s, With(s, user, RequotaedAccount(s.users[user], quota)), user);
      }
    }
  }

  lemma PaddedMirror(t: State, placeholder: Password, gap: seq<Act>)
    requires InMirror(t) && t.config.Cfg?
    ensures InMirror(Padded(t, placeholder, gap))
  {
    var padded := t.(config := t.config.(auth := multiset{placeholder}));
    EnvKeys(padded, gap);
    StartKeys(Stop(Env(padded, gap)));
  }

  lemma SeededMirror(s: State)
    requires InMirror(s)
    ensures InMirror(RestoredIfCorrupt(Synced(Seeded(s))))
  {
    SameLocksMirror(s.quarantine, s.users, Synced(Seeded(s)).users);
  }

  lemma ChecksMirror(t: State, ctx: Ctx, cooling: bool, alive: bool, placeholder: Password, g: Gaps)
    requires InMirror(t)
    ensures InMirror(GuardChecks(t, ctx, cooling, alive, placeholder, g).state)
  {
    ApplyMirror(t, ctx, g(0));
    if t.config.Cfg? { PaddedMirror(t, placeholder, g(0)); }
  }

  lemma GuardMirror(s: State, ctx: Ctx, cooling: bool, alive: bool, placeholder: Password, g: Gaps)
    requires InMirror(s)
    ensures InMirror(Guard(s, ctx, cooling, alive, placeholder, g).state)
  {
    StartKeys(s);
    SeededMirror(Start(s));
    ChecksMirror(RestoredIfCorrupt(Synced(Seeded(Start(s)))), ctx, cooling, alive, placeholder, g);
  }

  lemma EditsMirror(s: State, m: Move)
    requires InMirror(s) && Distinct(s.users) && Tidy(s, m) && Edits(m.op)
    ensures InMirror(Edited(s, m))
  {
    match m.op
    case OpRenew(user, exp) => RenewMirror(s, user, exp, m.ctx, m.g);
    case OpSetQuota(user, quota) => SetQuotaMirror(s, user, quota, m.ctx, m.g);
    case OpLock(user) => EditMirror(s, user, m.ctx, m.g);
    case OpUnlock(user) => EditMirror(s, user, m.ctx, m.g);
    case OpBlock(names, reason) =>
      BlockMirrors(s, names, reason);
      ApplyMirror(BlockAll(s, names, reason).state, m.ctx, m.g(0));
    case OpUnblock(names) =>
      UnblockMirrors(s, names);
      ApplyMirror(UnblockAll(s, names).state, m.ctx, m.g(0));
  }

  lemma NextMirror(s: State, m: Move)
    requires InMirror(s) && Distinct(s.users) && Aimed(s, m) && Tidy(s, m)
    ensures InMirror(Next(s, m))
  {
    if Edits(m.op) {
      EditsMirror(s, m);
    } else if !Machine(m.op) {
      match m.op
      case OpCreate(proto, user, pass, draws, exp, quota) => CreateMirror(s, proto, user, pass, draws, exp, quota, m.ctx, m.g);
      case OpDelete(user, pw) => DeleteMirror(s, user, pw, m.ctx, m.g);
      case OpChangePassword(user, to) => ChangeMirror(s, user, to, m.ctx, m.g);
      case OpEnforce(order, meter) => EnforceMirrors(s, order, meter, m.ctx, m.g);
      case OpGuard(cooling, alive, placeholder) => GuardMirror(s, m.ctx, cooling, alive, placeholder, m.g);
    }
  }

  /** No login is the password of a zivpn account, and each of those has one. */
  ghost predicate NoAliases(users: Users) {
    && (forall u :: u in users && users[u].proto.Zivpn? ==> users[u].pass != "")
    && (forall u :: u in users ==> u !in Live(users))
  }

  ghost predicate TidyRun(s: State, moves: seq<Move>) {
    forall i :: 0 <= i < |moves| ==> NoAliases(After(s, moves[..i]).users) && Tidy(After(s, moves[..i]), moves[i])
  }

  lemma TidyPrefix(s: State, moves: seq<Move>)
    requires TidyRun(s, moves) && moves != []
    ensures TidyRun(s, moves[..|moves| - 1])
    ensures var n := |moves| - 1;
            NoAliases(After(s, moves[..n]).users) && Tidy(After(s, moves[..n]), moves[n])
  {
    var n := |moves| - 1;
    forall i | 0 <= i < n
      ensures NoAliases(After(s, moves[..n][..i]).users) && Tidy(After(s, moves[..n][..i]), moves[..n][i])
    {
      assert moves[..n][..i] == moves[..i];
    }
  }

  /** Over every sound run of tidy operations, the quarantine holds exactly the locked zivpn
      accounts, each under its own password. */
  lemma {:induction false} RunsKeepTheMirror(s: State, moves: seq<Move>)
    requires Safe(s) && InMirror(s) && Sound(s, moves) && TidyRun(s, moves)
    ensures InMirror(After(s, moves))
  {
    if moves != [] {
      var n := |moves| - 1;
      SoundPrefix(s, moves);
      TidyPrefix(s, moves);
      RunsKeepTheMirror(s, moves[..n]);
      RunsAreSafe(s, moves[..n]);
      NextMirror(After(s, moves[..n]), moves[n]);
    }
  }

  // ---- the ledgers ----

  ghost predicate Ledgered(users: Users) {
    forall u :: u in users ==> Settles(users[u].ledger)
  }

  /** The ledger's total is at least its last reading. */
  predicate Settles(l: Ledger) {
    l.last.OrZero() <= l.total.OrZero()
  }

  /** A ledger one operation can leave: an old account's as it was or polled once on its counter,
      a new account's empty. */
  predicate LedgerFrom(s: State, u: Login, l: Ledger) {
    if u in s.users then l == s.users[u].ledger || l == Poll(s.users[u].ledger, Raw(s, u)) else l == EMPTY
  }

  ghost predicate LedgersFrom(s: State, others: Users) {
    forall u :: u in others ==> LedgerFrom(s, u, others[u].ledger)
  }

  lemma LedgersFromSettled(s: State, others: Users)
    requires Ledgered(s.users) && LedgersFrom(s, others)
    ensures Ledgered(others)
  {
    forall u | u in others ensures Settles(others[u].ledger) {
      assert LedgerFrom(s, u, others[u].ledger);
    }
  }

  lemma AddedLedger(s: State, user: Login, a: Account)
    requires a.ledger == EMPTY
    ensures LedgersFrom(s, s.users) && (user !in s.users ==> LedgersFrom(s, s.users[user := a]))
  {
  }

  lemma CreateZivpnLedgers(s: State, user: Login, pass: Password, draws: seq<Password>, exp: Day,
                           quota: Limit, ctx: Ctx, g: Gaps)
    requires user !in s.users
    ensures LedgersFrom(s, CreateZivpn(s, user, pass, draws, exp, quota, ctx, g).state.users)
  {
    var t := Settle(s, pass, draws, g);
    SettleIsOutside(s, pass, draws, g);
    EnrolKeys(t.state, user, t.pw, exp, quota, ctx, g);
    AddedLedger(s, user, NewAccount(Zivpn, exp, t.pw, quota));
  }

  lemma CreateLedgers(s: State, proto: Proto, user: Login, pass: Password, draws: seq<Password>, exp: Day,
                      quota: Limit, ctx: Ctx, g: Gaps)
    ensures LedgersFrom(s, Create(s, proto, user, pass, draws, exp, quota, ctx, g).state.users)
  {
    var a := NewAccount(proto, exp, InitialPass(proto, pass, draws), quota);
    AddedLedger(s, user, a);
    if !ValidName(user) || LoginTaken(s.users, user) {
    } else if proto.Zivpn? {
      CreateZivpnLedgers(s, user, pass, draws, exp, quota, ctx, g);
    } else if Create(s, proto, user, pass, draws, exp, quota, ctx, g).code == 0 {
      assert Create(s, proto, user, pass, draws, exp, quota, ctx, g).state.users == s.users[user := a];
    }
  }

  lemma RemeasuredUsers(s: State, from: Password, to: Password, ctx: Ctx, g: Gaps)
    ensures Remeasured(s, from, to, ctx, g).users == s.users
  {
    MigratePointIs(s, g);
    var applied := Apply(Migrated(MigratePoint(s, g), from, to), ctx, g(1));
    ApplyFrame(Migrated(MigratePoint(s, g), from, to), ctx, g(1));
    StartKeys(applied);
    EnvKeys(if s.daemon.Running? then Start(applied) else applied, g(2));
  }

  lemma EditedLedger(s: State, user: Login, a: Account)
    requires user in s.users && a.ledger == s.users[user].ledger
    ensures LedgersFrom(s, s.users[user := a]) && LedgersFrom(s, s.users)
  {
  }

  lemma ChangeLedgers(s: State, user: Login, to: Password, ctx: Ctx, g: Gaps)
    ensures LedgersFrom(s, ChangePassword(s, user, to, ctx, g).users)
  {
    if user in s.users {
      EditedLedger(s, user, s.users[user].(pass := to));
      RemeasuredUsers(Rekeyed(s, user, to), s.users[user].pass, to, ctx, g);
    }
  }

  ghost predicate SameLedgers(users: Users, others: Users) {
    others.Keys == users.Keys && forall u :: u in users ==> others[u].ledger == users[u].ledger
  }

  lemma {:induction false} BatchLedgers(s: State, names: seq<Login>, reason: Reason)
    ensures SameLedgers(s.users, BlockAll(s, names, reason).state.users)
  {
    if names != [] { BatchLedgers(s, names[..|names| - 1], reason); }
  }

  lemma {:induction false} UnbatchLedgers(s: State, names: seq<Login>)
    ensures SameLedgers(s.users, UnblockAll(s, names).state.users)
  {
    if names != [] { UnbatchLedgers(s, names[..|names| - 1]); }
  }

  lemma SameLedgersFrom(s: State, others: Users)
    requires SameLedgers(s.users, others)
    ensures LedgersFrom(s, others)
  {
  }

  /** What an edit of one account, applied or not, does to the accounts. */
  lemma EditUsers(s: State, user: Login, a: Account, q: map<Password, Login>, ctx: Ctx, gap: seq<Act>)
    requires user in s.users && a.ledger == s.users[user].ledger
    ensures var t := With(s, user, a).(quarantine := q);
            LedgersFrom(s, t.users) && LedgersFrom(s, Apply(t, ctx, gap).users)
  {
    EditedLedger(s, user, a);
    ApplyFrame(With(s, user, a).(quarantine := q), ctx, gap);
  }

  lemma EditsLedgers(s: State, m: Move)
    requires Edits(m.op)
    ensures LedgersFrom(s, Edited(s, m).users)
  {
    SameLedgersFrom(s, s.users);
    match m.op
    case OpRenew(user, exp) =>
      if user in s.users { EditUsers(s, user, RenewedAccount(s.users[user], exp), s.quarantine, m.ctx, m.g(0)); }
    case OpSetQuota(user, quota) =>
      if user in s.users {
        EditUsers(s, user, RequotaedAccount(s.users[user], quota), s.quarantine, m.ctx, m.g(0));
        EditUsers(s, user, RequotaedAccount(s.users[user], quota), Freed(s.quarantine, user), m.ctx, m.g(0));
      }
    case OpLock(user) =>
      if user in s.users {
        var a := s.users[user].(locked := true);
        EditUsers(s, user, a, s.quarantine, m.ctx, m.g(0));
        EditUsers(s, user, a, Quarantined(s.quarantine, user, a.pass), m.ctx, m.g(0));
      }
    case OpUnlock(user) =>
      if user in s.users {
        var a := s.users[user].(locked := false);
        EditUsers(s, user, a, s.quarantine, m.ctx, m.g(0));
        EditUsers(s, user, a, Freed(s.quarantine, user), m.ctx, m.g(0));
      }
    case OpBlock(names, reason) =>
      BatchLedgers(s, names, reason);
      SameLedgersFrom(s, BlockAll(s, names, reason).state.users);
      ApplyFrame(BlockAll(s, names, reason).state, m.ctx, m.g(0));
    case OpUnblock(names) =>
      UnbatchLedgers(s, names);
      SameLedgersFrom(s, UnblockAll(s, names).state.users);
      ApplyFrame(UnblockAll(s, names).state, m.ctx, m.g(0));
  }

  lemma EnforceLedgers(s: State, order: seq<Login>, meter: Login -> nat, ctx: Ctx, g: Gaps)
    ensures LedgersFrom(s, Enforce(s, order, meter, ctx, g).users)
  {
    EnforceIsPassed(s, order, meter, ctx, g);
    forall u | u in s.users ensures LedgerFrom(s, u, Passed(s, order, meter, ctx.today).users[u].ledger) {
      PassOnAccount(s, order, meter, ctx.today, u);
      VerdictIsStable(Synced(s).users[u], ctx.today, Usage(Synced(s), meter, u));
    }
  }

  lemma PaddedUsers(t: State, placeholder: Password, gap: seq<Act>)
    requires t.config.Cfg?
    ensures Padded(t, placeholder, gap).users == t.users
  {
    var padded := t.(config := t.config.(auth := multiset{placeholder}));
    EnvKeys(padded, gap);
    StartKeys(Stop(Env(padded, gap)));
  }

  lemma ChecksUsers(t: State, ctx: Ctx, cooling: bool, alive: bool, placeholder: Password, g: Gaps)
    ensures GuardChecks(t, ctx, cooling, alive, placeholder, g).state.users == t.users
  {
    ApplyFrame(t, ctx, g(0));
    if t.config.Cfg? { PaddedUsers(t, placeholder, g(0)); }
  }

  lemma SyncedLedgers(s: State, t: State)
    requires t.users == s.users && t.files == s.files
    ensures LedgersFrom(s, Synced(t).users) && LedgersFrom(s, s.users)
  {
    forall u | u in s.users ensures LedgerFrom(s, u, Synced(t).users[u].ledger) {
      assert Raw(t, u) == Raw(s, u);
    }
  }

  lemma GuardLedgers(s: State, ctx: Ctx, cooling: bool, alive: bool, placeholder: Password, g: Gaps)
    ensures LedgersFrom(s, Guard(s, ctx, cooling, alive, placeholder, g).state.users)
  {
    StartKeys(s);
    var seeded := Seeded(Start(s));
    SyncedLedgers(s, seeded);
    ChecksUsers(RestoredIfCorrupt(Synced(seeded)), ctx, cooling, alive, placeholder, g);
  }

  /** No operation touches the ledger of a present account otherwise than by polling it once, on the
      counter as it stands; a new account's is empty. */
  lemma NextLedgers(s: State, m: Move)
    ensures LedgersFrom(s, Next(s, m).users)
  {
    SameLedgersFrom(s, s.users);
    if Edits(m.op) {
      EditsLedgers(s, m);
    } else if !Machine(m.op) {
      match m.op
      case OpCreate(proto, user, pass, draws, exp, quota) => CreateLedgers(s, proto, user, pass, draws, exp, quota, m.ctx, m.g);
      case OpDelete(user, pw) => DeleteKeys(s.(users := s.users - {user}), user, pw, m.ctx, m.g);
      case OpChangePassword(user, to) => ChangeLedgers(s, user, to, m.ctx, m.g);
      case OpEnforce(order, meter) => EnforceLedgers(s, order, meter, m.ctx, m.g);
      case OpGuard(cooling, alive, placeholder) => GuardLedgers(s, m.ctx, cooling, alive, placeholder, m.g);
    }
  }

  lemma {:induction false} RunsStayLedgered(s: State, moves: seq<Move>)
    requires Ledgered(s.users)
    ensures Ledgered(After(s, moves).users)
  {
    if moves != [] {
      var n := |moves| - 1;
      RunsStayLedgered(s, moves[..n]);
      NextLedgers(After(s, moves[..n]), moves[n]);
      LedgersFromSettled(After(s, moves[..n]), After(s, moves).users);
    }
  }

  /** The account is there at every point of the run. */
  ghost predicate Stays(s: State, moves: seq<Move>, u: Login) {
    forall i :: 0 <= i <= |moves| ==> u in After(s, moves[..i]).users
  }

  lemma StaysBefore(s: State, moves: seq<Move>, u: Login)
    requires Stays(s, moves, u)
    ensures moves != [] ==> Stays(s, moves[..|moves| - 1], u)
    ensures u in s.users && u in After(s, moves).users
  {
    assert moves[..0] == [] && moves[..|moves|] == moves;
    if moves != [] {
      var n := |moves| - 1;
      assert forall i :: 0 <= i <= n ==> moves[..n][..i] == moves[..i];
    }
  }

  lemma PollNeverLowers(l: Ledger, raw: nat)
    ensures l.total.OrZero() <= Poll(l, raw).total.OrZero()
  {
  }

  /** Over every run, whatever the operations, the daemon and the disk do, the lifetime total of an
      account that stays never decreases. */
  lemma {:induction false} TotalsNeverFall(s: State, moves: seq<Move>, u: Login)
    requires Stays(s, moves, u)
    ensures u in s.users && u in After(s, moves).users
    ensures s.users[u].ledger.total.OrZero() <= After(s, moves).users[u].ledger.total.OrZero()
  {
    StaysBefore(s, moves, u);
    if moves != [] {
      var n := |moves| - 1;
      var t := After(s, moves[..n]);
      TotalsNeverFall(s, moves[..n], u);
      NextLedgers(t, moves[n]);
      assert LedgerFrom(t, u, After(s, moves).users[u].ledger);
      PollNeverLowers(t.users[u].ledger, Raw(t, u));
    }
  }

  /** After any run at all, one pass leaves an account locked exactly when it has expired, or the
      lifetime total the pass leaves (or, for another protocol, its meter) has reached its quota,
      or something other than its quota had locked it. */
  lemma AnyRunThenPass(s: State, moves: seq<Move>, order: seq<Login>, meter: Login -> nat, ctx: Ctx, g: Gaps, u: Login)
    requires Ledgered(s.users) && u in After(s, moves).users && !After(s, moves).users[u].proto.Shadow?
    ensures u in Enforce(After(s, moves), order, meter, ctx, g).users
    ensures var a := After(s, moves).users[u];
            var b := Enforce(After(s, moves), order, meter, ctx, g).users[u];
            var used := if a.proto.Zivpn? then b.ledger.total.OrZero() else meter(u);
            b.locked <==> (a.exp.On? && a.exp.day < ctx.today)
                          || (a.quota.panel > 0.0 && used as real >= a.quota.panel * 1073741824.0)
                          || (a.locked && !a.quotaHit)
  {
    RunsStayLedgered(s, moves);
    PassClosedForm(After(s, moves), order, meter, ctx, g, u);
  }
}
