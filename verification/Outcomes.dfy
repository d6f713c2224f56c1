/** What a caller can rely on after an edit of one account, whatever the edit did on the way. */
module Outcomes {
  import opened Text
  import opened Quota
  import opened Ledger
  import opened Accounts
  import opened StateFile
  import opened Panel
  import opened Attribution
  import opened Enforcement
  import opened Quarantine
  import opened Runs
  import opened Standing
  import opened Serving

  /** One account is edited; its protocol, password and ledger, and all other accounts, are as
      they were. */
  ghost predicate EditsOnly(s: State, t: State, user: Login) {
    && user in s.users && t.users.Keys == s.users.Keys
    && (forall u :: u in s.users && u != user ==> t.users[u] == s.users[u])
    && t.users[user].proto == s.users[user].proto && t.users[user].pass == s.users[user].pass
    && t.users[user].ledger == s.users[user].ledger
  }

  /** A zivpn account's edit has reached the configuration and the running daemon; safety is kept. */
  ghost predicate TakesEffect(s: State, t: State, user: Login, ctx: Ctx) {
    && (user in t.users && t.users[user].proto.Zivpn? ==> InStepOn(t, ctx.today, ctx.fmt))
    && (Serves(s) ==> KeepsServing(s, t, ctx.today))
    && (Safe(s) ==> Safe(t))
  }

  /** The daemon lets this password in, on disk and, if it runs, in fact. */
  ghost predicate LetsIn(t: State, pw: Password) {
    && (t.config.Cfg? ==> pw in t.config.auth)
    && (t.daemon.Running? && Serves(t) ==> pw in t.daemon.auth)
  }

  ghost predicate ShutsOut(t: State, pw: Password) {
    && (t.config.Cfg? ==> pw !in t.config.auth)
    && (t.daemon.Running? && Serves(t) ==> pw !in t.daemon.auth)
  }

  /** The running daemon meters this password by this quota, or not at all without one. */
  ghost predicate Meters(t: State, pw: Password, quota: real, fmt: Rounding) {
    t.daemon.Running? && Serves(t) ==>
      (pw in t.daemon.body.quotas <==> quota > 0.0) && (quota > 0.0 ==> t.daemon.body.quotas[pw] == fmt(quota))
  }

  /** No entry under this login or name is left (unless a password of the same name took its place). */
  ghost predicate OutOfQuarantine(s: State, t: State, name: string) {
    name !in t.quarantine && (name !in s.quarantine ==> forall pw :: pw in t.quarantine ==> t.quarantine[pw] != name)
  }

  ghost predicate KeepsMirror(s: State, t: State) {
    Mirrors(s.quarantine, s.users) && Distinct(s.users) ==> Mirrors(t.quarantine, t.users)
  }

  // ---- lock and unlock ----

  /** The account is locked, the running daemon no longer lets it in, and it is in quarantine. */
  ghost predicate LockedOut(s: State, t: State, user: Login, ctx: Ctx) {
    && EditsOnly(s, t, user) && TakesEffect(s, t, user, ctx) && KeepsMirror(s, t)
    && t.users[user] == s.users[user].(locked := true)
    && (t.users[user].proto.Zivpn? && t.users[user].pass != "" ==>
          t.users[user].pass in t.quarantine && t.quarantine[t.users[user].pass] == user)
    && (t.users[user].proto.Zivpn? && UniquePasswords(s.users) ==> ShutsOut(t, t.users[user].pass))
  }

  /** The account is open, and up to its last day the running daemon lets it in. */
  ghost predicate LetIn(s: State, t: State, user: Login, ctx: Ctx) {
    && EditsOnly(s, t, user) && TakesEffect(s, t, user, ctx) && KeepsMirror(s, t)
    && t.users[user] == s.users[user].(locked := false)
    && (t.users[user].proto.Zivpn? ==> OutOfQuarantine(s, t, user))
    && (t.users[user].proto.Zivpn? && t.users[user].pass != "" && (t.users[user].exp.On? ==> ctx.today <= t.users[user].exp.day)
        ==> LetsIn(t, t.users[user].pass))
  }

  lemma LockedIsNotActive(users: Users, user: Login, today: Day)
    requires user in users && users[user].proto.Zivpn? && users[user].locked && UniquePasswords(users)
    ensures users[user].pass !in ActivePasswords(users, Zivpn, today)
  {
    if users[user].pass in ActivePasswords(users, Zivpn, today) {
      var u :| u in users && Active(users[u], Zivpn, today) && users[u].pass != "" && users[u].pass == users[user].pass;
      assert Owns(users[u], users[user].pass) && u != user;
    }
  }

  lemma OpenIsActive(users: Users, user: Login, today: Day)
    requires user in users && Active(users[user], Zivpn, today) && users[user].pass != ""
    ensures users[user].pass in ActivePasswords(users, Zivpn, today)
  {
  }

  lemma SameIsUnique(users: Users, user: Login, a: Account)
    requires user in users && a.proto == users[user].proto && a.pass == users[user].pass && UniquePasswords(users)
    ensures UniquePasswords(users[user := a])
  {
    assert SameAccounts(users, users[user := a]);
    SameAccountsLive(users, users[user := a]);
  }

  lemma InList(t: State, ctx: Ctx)
    requires InStepOn(t, ctx.today, ctx.fmt)
    ensures t.config.Cfg? ==> forall pw :: pw in t.config.auth <==> pw in ActivePasswords(t.users, Zivpn, ctx.today)
  {
  }

  /** What an edit followed by an apply leaves in the accounts and in the daemon's list. */
  lemma AppliedEdit(s: State, user: Login, a: Account, q: map<Password, Login>, ctx: Ctx, gap: seq<Act>)
    requires user in s.users && a.proto == s.users[user].proto && a.pass == s.users[user].pass
    requires a.ledger == s.users[user].ledger
    ensures var w := With(s, user, a).(quarantine := q);
            var t := if a.proto.Zivpn? then Apply(w, ctx, gap) else w;
            && t.users == s.users[user := a] && t.quarantine == q && EditsOnly(s, t, user)
            && TakesEffect(s, t, user, ctx)
  {
    var w := With(s, user, a).(quarantine := q);
    ApplyFrame(w, ctx, gap);
    AppliedIsInStep(w, ctx, gap);
    if Serves(s) { AccountServes(s, user, a, q, ctx, gap); }
    if Safe(s) { SafeWith(s, user, a, q, ctx, gap); }
  }

  lemma LockOutcome(s: State, user: Login, ctx: Ctx, g: Gaps)
    requires user in s.users
    ensures LockedOut(s, Lock(s, user, ctx, g), user, ctx)
  {
    var a := s.users[user].(locked := true);
    var q := if a.proto.Zivpn? then Quarantined(s.quarantine, user, a.pass) else s.quarantine;
    var t := Lock(s, user, ctx, g);
    AppliedEdit(s, user, a, q, ctx, g(0));
    assert !a.proto.Zivpn? ==> With(s, user, a).(quarantine := q) == With(s, user, a);
    if Mirrors(s.quarantine, s.users) && Distinct(s.users) { EditMirror(s, user, ctx, g); }
    if a.proto.Zivpn? && UniquePasswords(s.users) {
      SameIsUnique(s.users, user, a);
      InList(t, ctx);
      LockedIsNotActive(t.users, user, ctx.today);
    }
  }

  lemma UnlockOutcome(s: State, user: Login, ctx: Ctx, g: Gaps)
    requires user in s.users
    ensures LetIn(s, Unlock(s, user, ctx, g), user, ctx)
  {
    var a := s.users[user].(locked := false);
    var q := if a.proto.Zivpn? then Freed(s.quarantine, user) else s.quarantine;
    var t := Unlock(s, user, ctx, g);
    AppliedEdit(s, user, a, q, ctx, g(0));
    assert !a.proto.Zivpn? ==> With(s, user, a).(quarantine := q) == With(s, user, a);
    if Mirrors(s.quarantine, s.users) && Distinct(s.users) { EditMirror(s, user, ctx, g); }
    if a.proto.Zivpn? && a.pass != "" && (a.exp.On? ==> ctx.today <= a.exp.day) {
      InList(t, ctx);
      OpenIsActive(t.users, user, ctx.today);
    }
  }

  // ---- renew and quota ----

  /** A renewal lifts the lock expiry set; for the Xray protocols, whose expiry is recorded as a hit,
      that of the quota as well; none for Shadowsocks. */
  predicate LiftedByRenewal(a: Account) {
    match a.proto
    case Ssh => a.expLock
    case Zivpn => a.locked && a.expLock
    case Hysteria => a.locked && a.expLock
    case Shadow => false
    case _ => a.locked && (a.expLock || a.quotaHit)
  }

  /** The account runs to the new date; its quota stands, only the locks named above are lifted, and
      open and in date the running daemon lets it in. */
  ghost predicate Extended(s: State, t: State, user: Login, exp: Day, ctx: Ctx) {
    && EditsOnly(s, t, user) && TakesEffect(s, t, user, ctx)
    && t.users[user].exp == On(exp) && t.users[user].quota == s.users[user].quota
    && (t.users[user].locked <==> s.users[user].locked && !LiftedByRenewal(s.users[user]))
    && (t.users[user].expLock <==> s.users[user].expLock && !LiftedByRenewal(s.users[user]))
    && (t.users[user].quotaHit <==>
          s.users[user].quotaHit && !(LiftedByRenewal(s.users[user])
                                      && s.users[user].proto in {Vmess, Vless, Trojan, V2rayDns}))
    && (t.users[user].proto.Zivpn? && t.users[user].pass != "" && !t.users[user].locked && ctx.today <= exp
        ==> LetsIn(t, t.users[user].pass))
  }

  lemma RenewOutcome(s: State, user: Login, exp: Day, ctx: Ctx, g: Gaps)
    requires user in s.users
    ensures Extended(s, Renew(s, user, exp, ctx, g), user, exp, ctx)
  {
    var a := RenewedAccount(s.users[user], exp);
    RenewedIs(s, user, exp, ctx, g);
    AppliedEdit(s, user, a, s.quarantine, ctx, g(0));
    assert With(s, user, a).(quarantine := s.quarantine) == With(s, user, a);
    if a.proto.Zivpn? && a.pass != "" && !a.locked && ctx.today <= exp {
      InList(Renew(s, user, exp, ctx, g), ctx);
      OpenIsActive(Renew(s, user, exp, ctx, g).users, user, ctx.today);
    }
  }

  /** The account has the new quota, no lock its quota set, and every other lock it had; open and in
      date, the running daemon meters it by the new quota. */
  ghost predicate Requotaed(s: State, t: State, user: Login, quota: Limit, ctx: Ctx) {
    && EditsOnly(s, t, user) && TakesEffect(s, t, user, ctx)
    && t.users[user].quota == quota && t.users[user].exp == s.users[user].exp
    && t.users[user].expLock == s.users[user].expLock
    && (t.users[user].proto.Zivpn? ==> OutOfQuarantine(s, t, user))
    && (if s.users[user].proto.Shadow?
        then t.users[user].quotaHit == s.users[user].quotaHit && t.users[user].locked == s.users[user].locked
        else !t.users[user].quotaHit && (t.users[user].locked <==> s.users[user].locked && !s.users[user].quotaHit))
    && (t.users[user].proto.Zivpn? && t.users[user].pass != "" && !t.users[user].locked
        && (t.users[user].exp.On? ==> ctx.today <= t.users[user].exp.day) && UniquePasswords(s.users)
        ==> Meters(t, t.users[user].pass, quota.daemon, ctx.fmt))
  }

  /** With its own password, an active account is metered by its own quota. */
  lemma OwnQuota(users: Users, user: Login, today: Day, fmt: Rounding)
    requires user in users && Active(users[user], Zivpn, today) && users[user].pass != "" && UniquePasswords(users)
    ensures var a := users[user];
            && (a.pass in QuotaMap(users, today, fmt) <==> a.quota.daemon > 0.0)
            && (a.quota.daemon > 0.0 ==> QuotaMap(users, today, fmt)[a.pass] == fmt(a.quota.daemon))
  {
    var a := users[user];
    if a.pass in MeteredPasswords(users, today) {
      var u :| u in users && MeteredAs(users[u], today, a.pass) && users[u].quota.daemon == LargestQuota(users, today, a.pass);
      assert MeteredAs(users[u], today, a.pass);
      assert Owns(users[u], users[user].pass);
    }
    if a.quota.daemon > 0.0 { assert MeteredAs(a, today, a.pass); }
  }

  lemma RequotaedSame(a: Account, quota: Limit)
    ensures var b := RequotaedAccount(a, quota);
            b.proto == a.proto && b.pass == a.pass && b.ledger == a.ledger && b.exp == a.exp && b.quota == quota
  {
  }

  lemma SetQuotaOutcome(s: State, user: Login, quota: Limit, ctx: Ctx, g: Gaps)
    requires user in s.users
    ensures Requotaed(s, SetQuota(s, user, quota, ctx, g), user, quota, ctx)
  {
    var a := RequotaedAccount(s.users[user], quota);
    var q := if a.proto.Zivpn? then Freed(s.quarantine, user) else s.quarantine;
    RequotaedSame(s.users[user], quota);
    AppliedEdit(s, user, a, q, ctx, g(0));
    assert !a.proto.Zivpn? ==> With(s, user, a).(quarantine := q) == With(s, user, a);
    if a.proto.Zivpn? && a.pass != "" && !a.locked && (a.exp.On? ==> ctx.today <= a.exp.day) && UniquePasswords(s.users) {
      SameIsUnique(s.users, user, a);
      OwnQuota(s.users[user := a], user, ctx.today, ctx.fmt);
    }
  }

  // ---- quarantine ----

  /** Quarantining an account as its lock is recorded keeps the mirror of the locks and nobody
      else's entry changes; freeing the login takes it out again. */
  lemma QuarantineOutcome(q: map<Password, Login>, users: Users, user: Login)
    requires user in users && users[user].proto.Zivpn?
    ensures var r := Quarantined(q, user, users[user].pass);
            && (Mirrors(q, users) && Distinct(users) ==> Mirrors(r, users[user := users[user].(locked := true)]))
            && (forall pw :: pw in q && pw != users[user].pass ==> pw in r && r[pw] == q[pw])
            && (users[user].pass !in q && user !in q && user != users[user].pass ==> Freed(r, user) == Freed(q, user))
  {
    if Mirrors(q, users) && Distinct(users) { LockMirrors(q, users, user, users[user].(locked := true)); }
  }

  // ---- create ----

  /** Nobody has the password asked for, or drawn: no zivpn account and not the register. */
  ghost predicate Unclaimed(s: State, pw: Password) {
    pw !in s.registry && (pw == "" || forall u :: u in s.users && s.users[u].proto.Zivpn? ==> s.users[u].pass != pw)
  }

  /** Draw `i` is the first unclaimed one. */
  ghost predicate FirstUnclaimed(s: State, draws: seq<Password>, i: int) {
    0 <= i < |draws| && Unclaimed(s, draws[i]) && forall k :: 0 <= k < i ==> !Unclaimed(s, draws[k])
  }

  /** A trace of the password in a counter file or the quarantine, or a counter file that cannot be read. */
  predicate Traced(s: State, pw: Password) {
    || s.files.main.Corrupt? || s.files.bak.Corrupt? || pw in s.quarantine
    || (s.files.main.Doc? && (pw in s.files.main.body.used || pw in s.files.main.body.quotas))
    || (s.files.bak.Doc? && (pw in s.files.bak.body.used || pw in s.files.bak.body.quotas))
  }

  /** There is no password for the new account: the one asked for is another zivpn account's, or
      registered and not without a trace; none of those drawn is unclaimed; or, for hysteria, another
      hysteria account has it. */
  ghost predicate Unavailable(s: State, proto: Proto, pass: Password, draws: seq<Password>, g: Gaps) {
    if proto.Zivpn? && pass != "" then
      || (exists u :: u in s.users && s.users[u].proto.Zivpn? && s.users[u].pass == pass)
      || (pass in s.registry && Traced(Env(s, g(0)), pass))
    else if proto.Zivpn? then forall i :: FirstUnclaimed(s, draws, i) ==> draws[i] == ""
    else
      var pw := if pass != "" then pass else if draws == [] then "" else draws[0];
      proto.Hysteria? && pw != "" && exists u :: u in s.users && s.users[u].proto.Hysteria? && s.users[u].pass == pw
  }

  /** The password of a new account: none for VMess and VLESS; for the others the one asked for, or
      the first drawn, for zivpn the first unclaimed one drawn; V2Ray-DNS always draws. */
  ghost predicate Given(s: State, proto: Proto, pass: Password, draws: seq<Password>, pw: Password) {
    match proto
    case Vmess => pw == ""
    case Vless => pw == ""
    case Zivpn => if pass != "" then pw == pass else exists i :: FirstUnclaimed(s, draws, i) && pw == draws[i]
    case V2rayDns => draws != [] ==> pw == draws[0]
    case _ => if pass != "" then pw == pass else draws != [] ==> pw == draws[0]
  }

  /** The account is there as asked for: protocol, date, password and quota, open, never polled. */
  ghost predicate AsAsked(s: State, a: Account, proto: Proto, pass: Password, draws: seq<Password>, exp: Day,
                          quota: Limit) {
    && a.proto == proto && a.exp == On(exp) && a.quota == quota && Given(s, proto, pass, draws, a.pass)
    && !a.locked && !a.quotaHit && !a.expLock && a.ledger.total.Missing? && a.ledger.last.Missing?
  }

  /** The account created reaches the daemon: its password is registered, it is let in up to its last
      day, and metered by its quota. */
  ghost predicate Admitted(s: State, t: State, a: Account, ctx: Ctx) {
    && a.pass in t.registry && InStepOn(t, ctx.today, ctx.fmt)
    && (a.exp.On? && ctx.today <= a.exp.day ==>
          LetsIn(t, a.pass) && (UniquePasswords(t.users) ==> Meters(t, a.pass, a.quota.daemon, ctx.fmt)))
  }

  /** What a creation returns: 1 for a bad name, 2 for a login taken up to case, 4 without a password. */
  ghost predicate DueCode(s: State, code: nat, proto: Proto, user: Login, pass: Password, draws: seq<Password>, g: Gaps) {
    if !ValidName(user) then code == 1
    else if exists u :: u in s.users && Lower(u) == Lower(user) then code == 2
    else if Unavailable(s, proto, pass, draws, g) then code == 4
    else code == 0
  }

  /** One account more, as asked for, and nobody else touched. */
  ghost predicate Joined(s: State, t: State, proto: Proto, user: Login, pass: Password, draws: seq<Password>, exp: Day,
                         quota: Limit, ctx: Ctx) {
    && user !in s.users && t.users.Keys == s.users.Keys + {user}
    && (forall u :: u in s.users ==> t.users[u] == s.users[u])
    && AsAsked(s, t.users[user], proto, pass, draws, exp, quota)
    && (proto.Zivpn? ==> Admitted(s, t, t.users[user], ctx))
  }

  lemma UnclaimedIsFree(s: State, pw: Password)
    requires "" !in s.users
    ensures Unclaimed(s, pw) <==> !InUse(s.users, pw, Zivpn, "") && pw !in s.registry
  {
  }

  lemma {:induction false} FirstFreeIsFirst(s: State, draws: seq<Password>)
    requires "" !in s.users
    ensures forall i :: FirstUnclaimed(s, draws, i) ==> FirstFree(s, draws) == draws[i]
    ensures FirstFree(s, draws) != "" ==> exists i :: FirstUnclaimed(s, draws, i)
  {
    if draws != [] {
      UnclaimedIsFree(s, draws[0]);
      if Unclaimed(s, draws[0]) {
        assert FirstUnclaimed(s, draws, 0);
      } else {
        FirstFreeIsFirst(s, draws[1..]);
        forall i | FirstUnclaimed(s, draws, i) ensures FirstFree(s, draws) == draws[i] {
          assert FirstUnclaimed(s, draws[1..], i - 1);
        }
        if FirstFree(s, draws) != "" {
          var i :| FirstUnclaimed(s, draws[1..], i);
          assert FirstUnclaimed(s, draws, i + 1);
        }
      }
    }
  }

  lemma TracedIsResidual(s: State, pw: Password)
    requires pw != ""
    ensures HasResiduals(s, pw) <==> Traced(s, pw)
  {
  }

  /** A zivpn account gets no password exactly when none is available, and otherwise the one due. */
  lemma SettledAsDue(s: State, pass: Password, draws: seq<Password>, g: Gaps)
    requires "" !in s.users
    ensures var pw := Settle(s, pass, draws, g).pw;
            && (pw == "" <==> Unavailable(s, Zivpn, pass, draws, g))
            && (pw != "" ==> Given(s, Zivpn, pass, draws, pw))
  {
    EnvKeys(s, g(0));
    FirstFreeIsFirst(s, draws);
    if pass != "" { TracedIsResidual(Env(s, g(0)), pass); }
  }

  lemma EnrolledIsAdmitted(s: State, user: Login, pw: Password, exp: Day, quota: Limit, ctx: Ctx, g: Gaps)
    requires pw != ""
    ensures var t := Enrol(s, user, pw, exp, quota, ctx, g); user in t.users && Admitted(s, t, t.users[user], ctx)
  {
    var t := Enrol(s, user, pw, exp, quota, ctx, g);
    EnrolKeys(s, user, pw, exp, quota, ctx, g);
    EnrolInStep(s, user, pw, exp, quota, ctx, g);
    InList(t, ctx);
    if ctx.today <= exp {
      OpenIsActive(t.users, user, ctx.today);
      if UniquePasswords(t.users) { OwnQuota(t.users, user, ctx.today, ctx.fmt); }
    }
  }

  lemma TakenUpToCase(users: Users, user: Login)
    ensures LoginTaken(users, user) <==> exists u :: u in users && Lower(u) == Lower(user)
  {
    if user in users { assert Lower(user) == Lower(user); }
  }

  lemma EnrolledIsAsAsked(s: State, user: Login, pass: Password, draws: seq<Password>, exp: Day, quota: Limit,
                          ctx: Ctx, g: Gaps)
    requires "" !in s.users && user !in s.users && Settle(s, pass, draws, g).pw != ""
    ensures Joined(s, CreateZivpn(s, user, pass, draws, exp, quota, ctx, g).state, Zivpn, user, pass, draws, exp,
                   quota, ctx)
  {
    var t := Settle(s, pass, draws, g);
    var e := Enrol(t.state, user, t.pw, exp, quota, ctx, g);
    SettleIsOutside(s, pass, draws, g);
    SettledAsDue(s, pass, draws, g);
    EnrolKeys(t.state, user, t.pw, exp, quota, ctx, g);
    EnrolledIsAdmitted(t.state, user, t.pw, exp, quota, ctx, g);
    assert e.users[user] == NewAccount(Zivpn, exp, t.pw, quota);
  }

  lemma CreateZivpnOutcome(s: State, user: Login, pass: Password, draws: seq<Password>, exp: Day, quota: Limit,
                           ctx: Ctx, g: Gaps)
    requires "" !in s.users && ValidName(user) && !LoginTaken(s.users, user)
    ensures var r := CreateZivpn(s, user, pass, draws, exp, quota, ctx, g);
            && DueCode(s, r.code, Zivpn, user, pass, draws, g)
            && (if r.code == 0 then Joined(s, r.state, Zivpn, user, pass, draws, exp, quota, ctx)
                else r.state.users == s.users)
  {
    TakenUpToCase(s.users, user);
    SettledAsDue(s, pass, draws, g);
    SettleIsOutside(s, pass, draws, g);
    if Settle(s, pass, draws, g).pw != "" { EnrolledIsAsAsked(s, user, pass, draws, exp, quota, ctx, g); }
  }

  /** A creation returns the code due and touches no other account; with code 0 there is one account
      more, as it was asked for. (No meta file has an empty name.) */
  lemma CreateOutcome(s: State, proto: Proto, user: Login, pass: Password, draws: seq<Password>, exp: Day,
                      quota: Limit, ctx: Ctx, g: Gaps)
    requires "" !in s.users
    ensures var r := Create(s, proto, user, pass, draws, exp, quota, ctx, g);
            && DueCode(s, r.code, proto, user, pass, draws, g)
            && (if r.code == 0 then Joined(s, r.state, proto, user, pass, draws, exp, quota, ctx)
                else r.state.users == s.users)
  {
    TakenUpToCase(s.users, user);
    if ValidName(user) && !LoginTaken(s.users, user) && proto.Zivpn? {
      CreateZivpnOutcome(s, user, pass, draws, exp, quota, ctx, g);
    }
  }

  // ---- delete ----

  /** The purge of a deletion finds in the main file whatever the mirror holds of the password. */
  ghost predicate PurgeIsClean(s: State, pw: Password, g: Gaps) {
    MirrorBehind(PurgePoint(s, pw, g).files, pw)
  }

  /** The password is off the register and out of quarantine, the daemon's configuration is that of the accounts left and the
      daemon up if it was and somebody is left to serve; and if the purge was clean and no account has
      the password, nothing anywhere keeps it. */
  ghost predicate Removed(s: State, t: State, user: Login, pw: Password, ctx: Ctx, clean: bool) {
    && t.users == s.users && InStepOn(t, ctx.today, ctx.fmt)
    && t.registry == (if pw == "" then s.registry else s.registry - {pw})
    && (pw != "" ==> pw !in t.quarantine) && user !in t.quarantine
    && (s.daemon.Running? && s.config.Cfg? && ActivePasswords(s.users, Zivpn, ctx.today) != {} ==> t.daemon.Running?)
    && (Serves(s) ==> KeepsServing(s, t, ctx.today))
    && (clean && pw != "" && pw !in Live(s.users) ==> pw !in AllKeys(t))
  }

  lemma DeletedQuarantine(s: State, user: Login, pw: Password, ctx: Ctx, g: Gaps)
    ensures DeleteZivpn(s, user, pw, ctx, g).quarantine == Purge(s, user, pw).quarantine
  {
    var at := PurgePoint(s, pw, g);
    var applied := Apply(Purge(at, user, pw), ctx, g(2));
    PurgePointIs(s, pw, g);
    ApplyFrame(Purge(at, user, pw), ctx, g(2));
    StartKeys(applied);
    EnvKeys(if pw != "" && Env(s, g(0)).daemon.Running? then Start(applied) else applied, g(3));
    EnvKeys(Release(Redeployed(s, user, pw, ctx, g), pw), g(4));
  }

  lemma RemovedOutcome(s: State, user: Login, pw: Password, ctx: Ctx, g: Gaps)
    ensures Removed(s, DeleteZivpn(s, user, pw, ctx, g), user, pw, ctx, PurgeIsClean(s, pw, g))
  {
    DeletedQuarantine(s, user, pw, ctx, g);
    DeletedZivpnIsInStep(s, user, pw, ctx, g);
    DeleteKeys(s, user, pw, ctx, g);
    if s.daemon.Running? && s.config.Cfg? && Wanted(s.users, ctx.today) { DeletionLeavesItUp(s, user, pw, ctx, g); }
    if Serves(s) { DeletionServes(s, user, pw, ctx, g); }
    if PurgeIsClean(s, pw, g) && pw != "" && pw !in Live(s.users) { DeleteRemovesEveryTrace(s, user, pw, ctx, g); }
  }

  /** The account is gone and no other is touched; safety is kept, if the purge was clean and the
      password was not another account's. */
  ghost predicate Departed(s: State, t: State, user: Login, pw: Password, ctx: Ctx, clean: bool) {
    && t.users == s.users - {user}
    && (Serves(s) ==> KeepsServing(s, t, ctx.today))
    && (Safe(s) && clean && (user in s.users || pw !in Live(s.users)) ==> Safe(t))
  }

  lemma DeleteOutcome(s: State, user: Login, pw: Password, ctx: Ctx, g: Gaps)
    requires DeleteTarget(s, user, pw)
    ensures Departed(s, Delete(s, user, pw, ctx, g), user, pw, ctx, PurgeIsClean(s.(users := s.users - {user}), pw, g))
  {
    var gone := s.(users := s.users - {user});
    DeleteKeys(gone, user, pw, ctx, g);
    if Serves(s) { DeletionServes(gone, user, pw, ctx, g); }
    if Safe(s) && PurgeIsClean(gone, pw, g) && (user in s.users || pw !in Live(s.users)) {
      SafeDelete(s, user, pw, ctx, g);
    }
  }

  /** What can be deleted without an account: whatever is in quarantine, by its password or the login it
      was locked under, and a password with a counter nobody owns; and nothing without such a trace. */
  lemma TracesAreDeletable(s: State, user: Login, pw: Password)
    requires user !in s.users
    ensures user in s.quarantine ==> DeleteTarget(s, user, user)
    ensures user != "" && pw in s.quarantine && s.quarantine[pw] == user ==> DeleteTarget(s, user, pw)
    ensures user in s.files.main.Keys() && user !in Live(s.users) ==> DeleteTarget(s, user, user)
    ensures DeleteTarget(s, user, pw) ==> pw in s.quarantine || (user == pw && pw in s.files.main.Keys() && pw !in Live(s.users))
  {
  }

  // ---- change of password ----

  /** The password asked for is another zivpn account's, or was issued before. */
  ghost predicate Issued(s: State, user: Login, to: Password) {
    || (to != "" && exists u :: u in s.users && u != user && s.users[u].proto.Zivpn? && s.users[u].pass == to)
    || to in s.registry
  }

  /** Refused, or asked for the password it has, a zivpn account keeps everything. Otherwise the account
      has the new password and nothing else of it or of any other account changes; for a zivpn account
      the register has the new one for the old, the daemon is up if it was, and up to the account's last
      day lets the new one in. */
  ghost predicate Changed(s: State, t: State, user: Login, to: Password, ctx: Ctx)
    requires user in s.users
  {
    var a := s.users[user];
    if a.proto.Zivpn? && (to == a.pass || Issued(s, user, to)) then t == s
    else
      && t.users == s.users[user := a.(pass := to)]
      && (Serves(s) ==> KeepsServing(s, t, ctx.today))
      && (a.proto.Zivpn? ==>
            && InStepOn(t, ctx.today, ctx.fmt)
            && t.registry == s.registry + {to} - (if a.pass == "" then {} else {a.pass})
            && (s.daemon.Running? && s.config.Cfg? && ActivePasswords(t.users, Zivpn, ctx.today) != {} ==>
                  t.daemon.Running?)
            && (to != "" && !a.locked && (a.exp.On? ==> ctx.today <= a.exp.day) ==> LetsIn(t, to)))
  }

  /** A change of password in step, and the register. */
  lemma RemeasuredIsInStep(r: State, was: Password, to: Password, ctx: Ctx, g: Gaps)
    ensures var t := Remeasured(r, was, to, ctx, g);
            InStepOn(t, ctx.today, ctx.fmt) && t.users == r.users && t.registry == Unregistered(r.registry + {to}, was)
  {
    var m := Migrated(MigratePoint(r, g), was, to);
    var applied := Apply(m, ctx, g(1));
    MigratePointIs(r, g);
    ApplyFrame(m, ctx, g(1));
    AppliedIsInStep(m, ctx, g(1));
    StartInStep(applied, r.daemon.Running?, g(2), ctx.today, ctx.fmt);
    StartKeys(applied);
    EnvKeys(if r.daemon.Running? then Start(applied) else applied, g(2));
  }

  lemma AcceptedOutcome(s: State, user: Login, to: Password, ctx: Ctx, g: Gaps)
    requires user in s.users && s.users[user].proto.Zivpn? && to != s.users[user].pass && !Issued(s, user, to)
    ensures Changed(s, ChangeZivpn(s, user, to, ctx, g), user, to, ctx)
  {
    var a := s.users[user];
    var r := Rekeyed(s, user, to);
    var t := Remeasured(r, a.pass, to, ctx, g);
    RemeasuredIsInStep(r, a.pass, to, ctx, g);
    if s.daemon.Running? && s.config.Cfg? && Wanted(r.users, ctx.today) { ChangeLeavesItUp(r, a.pass, to, ctx, g); }
    if Serves(s) { ChangeServes(r, a.pass, to, ctx, g); }
    InList(t, ctx);
    if to != "" && !a.locked && (a.exp.On? ==> ctx.today <= a.exp.day) { OpenIsActive(t.users, user, ctx.today); }
  }

  lemma ChangeOutcome(s: State, user: Login, to: Password, ctx: Ctx, g: Gaps)
    requires user in s.users
    ensures Changed(s, ChangePassword(s, user, to, ctx, g), user, to, ctx)
  {
    if s.users[user].proto.Zivpn? && to != s.users[user].pass && !Issued(s, user, to) {
      AcceptedOutcome(s, user, to, ctx, g);
    } else if s.users[user].proto.Zivpn? && Refused(s, user, to) {
      RefusedChangesNothing(s, user, to, ctx, g);
    }
  }

  // ---- batches ----

  /** An open zivpn account that is named is locked, and flagged with the reason given. */
  function AfterBlock(a: Account, named: bool, reason: Reason): Account {
    if named && a.proto.Zivpn? && !a.locked
    then a.(locked := true, quotaHit := a.quotaHit || reason.OverQuota?, expLock := a.expLock || reason.PastExpiry?)
    else a
  }

  /** That, and nobody else is touched. */
  ghost predicate BlockedBy(users: Users, others: Users, names: seq<Login>, reason: Reason) {
    others.Keys == users.Keys && forall u :: u in users ==> others[u] == AfterBlock(users[u], u in names, reason)
  }

  /** The open zivpn accounts among those named. */
  function OpenNamed(users: Users, names: seq<Login>): set<Login> {
    set u | u in users && u in names && users[u].proto.Zivpn? && !users[u].locked
  }

  lemma BlockedOneMore(users: Users, s: State, names: seq<Login>, user: Login, reason: Reason)
    requires BlockedBy(users, s.users, names, reason)
    ensures BlockedBy(users, BlockOne(s, user, reason).users, names + [user], reason)
  {
    var t := BlockOne(s, user, reason).users;
    assert t.Keys == s.users.Keys;
    forall u | u in users ensures t[u] == AfterBlock(users[u], u in names + [user], reason) {
      assert s.users[u] == AfterBlock(users[u], u in names, reason);
    }
  }

  lemma OneMoreIsOpen(users: Users, s: State, names: seq<Login>, user: Login, reason: Reason)
    requires BlockedBy(users, s.users, names, reason)
    ensures |OpenNamed(users, names + [user])| == |OpenNamed(users, names)| + (if BlocksOne(s, user) then 1 else 0)
  {
    var more := if BlocksOne(s, user) then {user} else {};
    assert OpenNamed(users, names + [user]) == OpenNamed(users, names) + more && user !in OpenNamed(users, names) * more;
  }

  /** Every zivpn account named is in quarantine, locked before or not, and no entry is lost. */
  ghost predicate QuarantinedBy(s: State, t: State, names: seq<Login>) {
    && (forall u :: u in s.users && u in names && s.users[u].proto.Zivpn? && s.users[u].pass != "" ==>
          s.users[u].pass in t.quarantine)
    && (forall pw :: pw in s.quarantine ==> pw in t.quarantine)
  }

  lemma QuarantinedOneMore(s: State, b: State, names: seq<Login>, user: Login, reason: Reason)
    requires QuarantinedBy(s, b, names) && b.users.Keys == s.users.Keys
    requires user in s.users ==> b.users[user].proto == s.users[user].proto && b.users[user].pass == s.users[user].pass
    ensures QuarantinedBy(s, BlockOne(b, user, reason), names + [user])
  {
    assert forall pw :: pw in b.quarantine ==> pw in BlockOne(b, user, reason).quarantine;
  }

  lemma {:induction false} BatchQuarantines(s: State, names: seq<Login>, reason: Reason)
    ensures QuarantinedBy(s, BlockAll(s, names, reason).state, names)
  {
    if names != [] {
      var n := |names| - 1;
      var b := BlockAll(s, names[..n], reason).state;
      BatchQuarantines(s, names[..n], reason);
      BlockOutcome(s, names[..n], reason);
      if names[n] in s.users { assert b.users[names[n]] == AfterBlock(s.users[names[n]], names[n] in names[..n], reason); }
      QuarantinedOneMore(s, b, names[..n], names[n], reason);
      assert names == names[..n] + [names[n]];
    }
  }

  lemma {:induction false} BlockOutcome(s: State, names: seq<Login>, reason: Reason)
    ensures BlockedBy(s.users, BlockAll(s, names, reason).state.users, names, reason)
    ensures BlockAll(s, names, reason).changed == |OpenNamed(s.users, names)|
  {
    if names == [] {
      assert OpenNamed(s.users, names) == {};
    } else {
      var n := |names| - 1;
      BlockOutcome(s, names[..n], reason);
      BlockedOneMore(s.users, BlockAll(s, names[..n], reason).state, names[..n], names[n], reason);
      OneMoreIsOpen(s.users, BlockAll(s, names[..n], reason).state, names[..n], names[n], reason);
      assert names == names[..n] + [names[n]];
    }
  }

  /** Every zivpn account named is open with no flag left; nobody else is touched. */
  ghost predicate FreedBy(users: Users, others: Users, names: seq<Login>) {
    && others.Keys == users.Keys
    && forall u :: u in users ==>
         others[u] == if u in names && users[u].proto.Zivpn?
                      then users[u].(locked := false, quotaHit := false, expLock := false) else users[u]
  }

  /** The places in the list at which a zivpn account is named. */
  function ZivpnPlaces(users: Users, names: seq<Login>): set<int> {
    set i | 0 <= i < |names| && names[i] in users && users[names[i]].proto.Zivpn?
  }

  lemma FreedOneMore(users: Users, s: State, names: seq<Login>, user: Login)
    requires FreedBy(users, s.users, names)
    ensures FreedBy(users, UnblockOne(s, user).users, names + [user])
  {
    var t := UnblockOne(s, user).users;
    assert t.Keys == s.users.Keys;
    forall u | u in users
      ensures t[u] == if u in names + [user] && users[u].proto.Zivpn?
                      then users[u].(locked := false, quotaHit := false, expLock := false) else users[u]
    {
      if u != user { assert t[u] == s.users[u]; }
    }
  }

  lemma PlacesOneMore(users: Users, names: seq<Login>, user: Login)
    ensures |ZivpnPlaces(users, names + [user])| ==
            |ZivpnPlaces(users, names)| + (if user in users && users[user].proto.Zivpn? then 1 else 0)
  {
    var more := if user in users && users[user].proto.Zivpn? then {|names|} else {};
    assert ZivpnPlaces(users, names + [user]) == ZivpnPlaces(users, names) + more;
  }

  lemma {:induction false} UnblockOutcome(s: State, names: seq<Login>)
    ensures FreedBy(s.users, UnblockAll(s, names).state.users, names)
    ensures UnblockAll(s, names).changed == |ZivpnPlaces(s.users, names)|
  {
    if names == [] {
      assert ZivpnPlaces(s.users, names) == {};
    } else {
      var n := |names| - 1;
      var b := UnblockAll(s, names[..n]);
      UnblockOutcome(s, names[..n]);
      FreedOneMore(s.users, b.state, names[..n], names[n]);
      PlacesOneMore(s.users, names[..n], names[n]);
      assert names == names[..n] + [names[n]];
    }
  }

  // ---- the guard ----

  /** The daemon meters nobody: no open zivpn account in date has a password and a quota. */
  ghost predicate NobodyMetered(users: Users, today: Day) {
    forall u :: u in users && users[u].proto.Zivpn? && !users[u].locked && users[u].pass != "" ==>
      users[u].quota.daemon <= 0.0 || (users[u].exp.On? && users[u].exp.day < today)
  }

  lemma NobodyMeteredIff(users: Users, today: Day, fmt: Rounding)
    ensures QuotaMap(users, today, fmt) == map[] <==> NobodyMetered(users, today)
    ensures !NobodyMetered(users, today) ==> Wanted(users, today)
  {
    if !NobodyMetered(users, today) {
      var u :| u in users && users[u].proto.Zivpn? && !users[u].locked && users[u].pass != ""
               && !(users[u].quota.daemon <= 0.0 || (users[u].exp.On? && users[u].exp.day < today));
      assert users[u].pass in QuotaMap(users, today, fmt) && users[u].pass in ActivePasswords(users, Zivpn, today);
    }
    if QuotaMap(users, today, fmt) != map[] {
      var pw :| pw in QuotaMap(users, today, fmt);
      var u :| u in users && Metered(users[u], today) && users[u].pass == pw;
    }
  }

  /** Neither the mirror nor a copy of the main file can be read. */
  ghost predicate BeyondRestore(f: Files, copies: seq<Copy>) {
    f.main.Corrupt? && !f.bak.Doc? && forall i :: 0 <= i < |copies| ==> copies[i].mirror || !copies[i].file.Doc?
  }

  /** The guard's answer. */
  ghost predicate DueVerdict(s: State, v: Verdict, ctx: Ctx, cooling: bool, alive: bool) {
    if s.config.NoConfig? then v.ZivpnAbsent?
    else if s.daemon.Stopped? && (s.config.BadConfig? || s.config.auth == multiset{}) then v.StartFailed?
    else if NobodyMetered(s.users, ctx.today) then v.NoQuota?
    else if cooling then v.Cooling?
    else if s.config == Derived(s.users, ctx) && alive then v.InStep?
    else v.Repaired?
  }

  /** Once the daemon is up the guard has polled every zivpn ledger once, registered every password in
      use, put back a counter file that can be restored, and left the daemon up; and a repair leaves the
      configuration in step. */
  ghost predicate Attended(s: State, t: State, v: Verdict, ctx: Ctx) {
    && t.users.Keys == s.users.Keys
    && (forall u :: u in s.users ==>
          t.users[u] == if s.users[u].proto.Zivpn? then s.users[u].(ledger := Poll(s.users[u].ledger, Raw(s, u)))
                        else s.users[u])
    && (forall u :: u in s.users && s.users[u].proto.Zivpn? && s.users[u].pass != "" ==> s.users[u].pass in t.registry)
    && s.registry <= t.registry && t.daemon.Running? && (Serves(s) ==> Serves(t))
    && (t.files.main.Corrupt? ==> BeyondRestore(s.files, s.copies))
    && (v.Repaired? ==> InStepOn(t, ctx.today, ctx.fmt))
  }

  /** The verdict due, and what goes with it. */
  ghost predicate Guards(s: State, r: Guarded, ctx: Ctx, cooling: bool, alive: bool) {
    && DueVerdict(s, r.verdict, ctx, cooling, alive)
    && (if r.verdict.ZivpnAbsent? || r.verdict.StartFailed? then r.state == s else Attended(s, r.state, r.verdict, ctx))
  }

  lemma {:induction false} EnvKeepsReadable(s: State, acts: seq<Act>)
    ensures Env(s, acts).files.main.Corrupt? ==> s.files.main.Corrupt?
  {
    if acts != [] { EnvKeepsReadable(s, acts[..|acts| - 1]); }
  }

  lemma ApplyKeepsReadable(s: State, ctx: Ctx, gap: seq<Act>)
    ensures Apply(s, ctx, gap).files.main.Corrupt? ==> s.files.main.Corrupt?
  {
    if s.config.Cfg? && s.config != Derived(s.users, ctx) {
      EnvKeepsReadable(s.(config := Derived(s.users, ctx)), gap);
    }
  }

  lemma SeededUsers(s: State)
    ensures Synced(Seeded(Start(s))).users == Synced(s).users
  {
    StartKeys(s);
    assert forall u :: u in s.users ==> Raw(Seeded(Start(s)), u) == Raw(s, u);
    assert Seeded(Start(s)).users == s.users;
  }

  lemma RestoredIfPossible(s: State)
    ensures RestoredIfCorrupt(s).files.main.Corrupt? ==> BeyondRestore(s.files, s.copies)
  {
    NewestValidIff(s.copies);
  }

  /** What the guard has done by the time it compares the configuration. */
  lemma SeededOutcome(s: State, ctx: Ctx)
    ensures var t := RestoredIfCorrupt(Synced(Seeded(Start(s))));
            && t.users == Synced(s).users && t.registry == s.registry + Live(s.users)
            && t.config == s.config && t.daemon == Start(s).daemon
            && Derived(t.users, ctx) == Derived(s.users, ctx)
            && (t.files.main.Corrupt? ==> BeyondRestore(s.files, s.copies))
  {
    StartKeys(s);
    SeededUsers(s);
    SeedAndSyncServeTheSame(Start(s), ctx);
    RestoredIfPossible(Synced(Seeded(Start(s))));
  }

  /** The checks change no account and no register, leave the daemon up and a readable file readable. */
  lemma ChecksOutcome(t: State, ctx: Ctx, cooling: bool, alive: bool, placeholder: Password, g: Gaps)
    requires t.daemon.Running? && !t.config.NoConfig?
    ensures var r := GuardChecks(t, ctx, cooling, alive, placeholder, g);
            && r.state.users == t.users && r.state.registry == t.registry && r.state.daemon.Running?
            && (r.state.files.main.Corrupt? ==> t.files.main.Corrupt?)
            && (r.verdict.Repaired? ==> InStepOn(r.state, ctx.today, ctx.fmt))
            && (if NobodyMetered(t.users, ctx.today) then r.verdict.NoQuota?
                else if cooling then r.verdict.Cooling?
                else if t.config == Derived(t.users, ctx) && alive then r.verdict.InStep?
                else r.verdict.Repaired?)
  {
    NobodyMeteredIff(t.users, ctx.today, ctx.fmt);
    ApplyFrame(t, ctx, g(0));
    ApplyRestartsIff(t, ctx, g(0));
    ApplyKeepsReadable(t, ctx, g(0));
    AppliedIsInStep(t, ctx, g(0));
    if t.config.Cfg? { PaddedOutcome(t, placeholder, g(0)); }
  }

  lemma PaddedOutcome(t: State, placeholder: Password, gap: seq<Act>)
    requires t.config.Cfg?
    ensures var p := Padded(t, placeholder, gap);
            && p.users == t.users && p.registry == t.registry && p.daemon.Running?
            && p.daemon.auth == multiset{placeholder} && p.config == t.config.(auth := multiset{placeholder})
            && (p.files.main.Corrupt? ==> t.files.main.Corrupt?)
  {
    var padded := t.(config := t.config.(auth := multiset{placeholder}));
    EnvKeys(padded, gap);
    EnvKeepsReadable(padded, gap);
    StartKeys(Stop(Env(padded, gap)));
    assert placeholder in multiset{placeholder};
  }

  lemma GuardOutcome(s: State, ctx: Ctx, cooling: bool, alive: bool, placeholder: Password, g: Gaps)
    ensures Guards(s, Guard(s, ctx, cooling, alive, placeholder, g), ctx, cooling, alive)
  {
    if !s.config.NoConfig? && Start(s).daemon.Running? {
      var t := RestoredIfCorrupt(Synced(Seeded(Start(s))));
      SeededOutcome(s, ctx);
      ChecksOutcome(t, ctx, cooling, alive, placeholder, g);
      SyncedServesTheSame(s, ctx);
      if Serves(s) { GuardServes(s, ctx, cooling, alive, placeholder, g); }
    }
  }

  lemma SyncedServesTheSame(s: State, ctx: Ctx)
    ensures NobodyMetered(Synced(s).users, ctx.today) <==> NobodyMetered(s.users, ctx.today)
  {
    var users := Synced(s).users;
    assert forall u :: u in s.users ==>
             users[u].proto == s.users[u].proto && users[u].pass == s.users[u].pass && users[u].exp == s.users[u].exp
             && users[u].quota == s.users[u].quota && users[u].locked == s.users[u].locked;
  }

  /** The guard cannot revive a daemon that has stopped counting: with the configuration in step there is
      nothing to rewrite, so the repair it reports restarts nothing. */
  lemma DeadCounterIsNotRestarted(s: State, ctx: Ctx, placeholder: Password, g: Gaps)
    requires s.daemon.Running? && s.config == Derived(s.users, ctx) && !NobodyMetered(s.users, ctx.today)
    ensures var r := Guard(s, ctx, false, false, placeholder, g);
            r.verdict.Repaired? && r.state.daemon == s.daemon && r.state.config == s.config
  {
    SeededOutcome(s, ctx);
    SyncedServesTheSame(s, ctx);
    NobodyMeteredIff(Synced(s).users, ctx.today, ctx.fmt);
    ApplyRestartsIff(RestoredIfCorrupt(Synced(Seeded(Start(s)))), ctx, g(0));
  }
}
