/** What a `quota_enforce` pass decides, and when the daemon's configuration follows the accounts. */
module Enforcement {
  import opened Quota
  import opened Ledger
  import opened Accounts
  import opened StateFile
  import opened Panel
  import opened Attribution

  // ---- the verdict ----

  /** The closed form behind five differently written branches: after a pass an account is locked
      exactly when its date is past, or it has used up its quota in GiB, or was locked by something other than
      its quota. Only a lock change changes anything, and a release clears only the hit flag. */
  lemma VerdictClosedForm(a: Account, today: Day, used: nat)
    requires !a.proto.Shadow?
    ensures var b := Judged(a, today, used);
            && (b.locked <==> (a.exp.On? && a.exp.day < today)
                              || (a.quota.panel > 0.0 && used as real >= a.quota.panel * 1073741824.0)
                              || (a.locked && !a.quotaHit))
            && (b.locked == a.locked ==> b == a)
            && (Restores(a, b) ==> b == a.(locked := false, quotaHit := false))
            && (Blocks(a, b) ==>
                b == (if a.exp.On? && a.exp.day < today && !XrayLike(a.proto) then a.(locked := true, expLock := true)
                      else a.(locked := true, quotaHit := true)))
  {
  }

  /** A second pass on the same reading decides nothing; a Shadowsocks account is not judged at all. */
  lemma VerdictIsStable(a: Account, today: Day, used: nat)
    ensures a.proto.Shadow? ==> Judged(a, today, used) == a
    ensures Judged(Judged(a, today, used), today, used) == Judged(a, today, used)
    ensures Judged(a, today, used).proto == a.proto && Judged(a, today, used).pass == a.pass
    ensures Judged(a, today, used).exp == a.exp && Judged(a, today, used).quota == a.quota
    ensures Judged(a, today, used).ledger == a.ledger
  {
  }

  /** The state after a pass, before anything is applied. */
  ghost function Passed(s: State, order: seq<Login>, meter: Login -> nat, today: Day): State {
    var t := Synced(s);
    var judged := JudgedUsers(t, today, meter);
    t.(users := judged, quarantine := PassQuarantine(t.quarantine, t.users, judged, order))
  }

  lemma EnforceIsPassed(s: State, order: seq<Login>, meter: Login -> nat, ctx: Ctx, g: Gaps)
    ensures var t := Enforce(s, order, meter, ctx, g);
            var p := Passed(s, order, meter, ctx.today);
            && t.users == p.users && t.users.Keys == s.users.Keys && t.quarantine == p.quarantine
            && t.copies == s.copies && t.registry == s.registry
            && (g(0) == [] ==> t.files == s.files && t.carried == s.carried)
            && t.config == (if s.config.Cfg? && Dirty(Synced(s).users, p.users) then Derived(p.users, ctx) else s.config)
  {
    ApplyFrame(Passed(s, order, meter, ctx.today), ctx, g(0));
  }

  /** One account's way through a pass: its ledger polled once, then the verdict. */
  lemma PassOnAccount(s: State, order: seq<Login>, meter: Login -> nat, today: Day, u: Login)
    requires u in s.users
    ensures var t := Synced(s);
            && u in Passed(s, order, meter, today).users
            && Passed(s, order, meter, today).users[u] == Judged(t.users[u], today, Usage(t, meter, u))
            && Usage(t, meter, u) ==
               (if s.users[u].proto.Zivpn? then Reading(s.users[u].ledger, Raw(s, u)) else meter(u))
            && t.users[u] == (if s.users[u].proto.Zivpn?
                              then s.users[u].(ledger := Poll(s.users[u].ledger, Raw(s, u))) else s.users[u])
  {
    assert Raw(Synced(s), u) == Raw(s, u);
    PollIsIdempotent(s.users[u].ledger, Raw(s, u));
  }

  /** With the total at least the last reading, what a call returns is the total it leaves. */
  lemma ReadingIsTheTotal(l: Ledger, raw: nat)
    requires l.last.OrZero() <= l.total.OrZero()
    ensures Reading(l, raw) == Poll(l, raw).total.OrZero()
  {
  }

  /** The pass in terms of the ledger totals it leaves: a zivpn account ends up locked exactly when
      it has expired, or its lifetime total has reached its quota, or it was locked for another
      reason; the directory order and the daemon's moves make no difference. */
  lemma PassClosedForm(s: State, order: seq<Login>, meter: Login -> nat, ctx: Ctx, g: Gaps, u: Login)
    requires u in s.users && !s.users[u].proto.Shadow?
    requires s.users[u].ledger.last.OrZero() <= s.users[u].ledger.total.OrZero()
    ensures u in Enforce(s, order, meter, ctx, g).users
    ensures var a := s.users[u];
            var b := Enforce(s, order, meter, ctx, g).users[u];
            var used := if a.proto.Zivpn? then b.ledger.total.OrZero() else meter(u);
            b.locked <==> (a.exp.On? && a.exp.day < ctx.today)
                          || (a.quota.panel > 0.0 && used as real >= a.quota.panel * 1073741824.0)
                          || (a.locked && !a.quotaHit)
  {
    EnforceIsPassed(s, order, meter, ctx, g);
    PassOnAccount(s, order, meter, ctx.today, u);
    var a := Synced(s).users[u];
    var used := Usage(Synced(s), meter, u);
    if a.proto.Zivpn? { ReadingIsTheTotal(s.users[u].ledger, Raw(s, u)); }
    assert Enforce(s, order, meter, ctx, g).users[u] == Judged(a, ctx.today, used);
    VerdictClosedForm(a, ctx.today, used);
    VerdictIsStable(a, ctx.today, used);
  }

  lemma {:induction false} NoMoves(q: map<Password, Login>, users: Users, judged: Users, order: seq<Login>)
    requires forall u :: u in users && u in judged ==> users[u].locked == judged[u].locked
    ensures PassQuarantine(q, users, judged, order) == q
  {
    if order != [] {
      NoMoves(q, users, judged, order[..|order| - 1]);
    }
  }

  lemma PassAgainOn(s: State, once: State, order: seq<Login>, meter: Login -> nat, today: Day, u: Login)
    requires once.users == Passed(s, order, meter, today).users && once.files == s.files && u in s.users
    ensures u in once.users && Synced(once).users[u] == once.users[u]
    ensures Judged(once.users[u], today, Usage(once, meter, u)) == once.users[u]
  {
    var t := Synced(s);
    PassOnAccount(s, order, meter, today, u);
    VerdictIsStable(t.users[u], today, Usage(t, meter, u));
    PollIsIdempotent(s.users[u].ledger, Raw(s, u));
    assert Raw(once, u) == Raw(s, u);
  }

  lemma PassAgain(s: State, once: State, order: seq<Login>, meter: Login -> nat, today: Day)
    requires once.users == Passed(s, order, meter, today).users && once.files == s.files
    ensures Synced(once) == once && JudgedUsers(once, today, meter) == once.users
  {
    assert once.users.Keys == s.users.Keys;
    forall u | u in s.users
      ensures Synced(once).users[u] == once.users[u]
      ensures Judged(once.users[u], today, Usage(once, meter, u)) == once.users[u]
    {
      PassAgainOn(s, once, order, meter, today, u);
    }
    assert Synced(once).users == once.users;
    assert JudgedUsers(once, today, meter) == once.users;
  }

  /** Running the pass again at once changes nothing at all: no account, no quarantine entry, no
      configuration, no restart. */
  lemma PassIsIdempotent(s: State, order: seq<Login>, meter: Login -> nat, ctx: Ctx, g: Gaps, again: seq<Login>)
    requires g(0) == []
    ensures var once := Enforce(s, order, meter, ctx, g);
            Enforce(once, again, meter, ctx, g) == once
            && !Dirty(once.users, JudgedUsers(once, ctx.today, meter))
  {
    var once := Enforce(s, order, meter, ctx, g);
    EnforceIsPassed(s, order, meter, ctx, g);
    PassAgain(s, once, order, meter, ctx.today);
    NoMoves(once.quarantine, once.users, once.users, again);
  }

  lemma RenewedIs(s: State, u: Login, exp: Day, ctx: Ctx, g: Gaps)
    requires u in s.users
    ensures Renew(s, u, exp, ctx, g).users == s.users[u := RenewedAccount(s.users[u], exp)]
    ensures var a := RenewedAccount(s.users[u], exp);
            a.ledger == s.users[u].ledger && a.pass == s.users[u].pass && a.quota == s.users[u].quota
            && a.proto == s.users[u].proto && a.exp == On(exp)
            && (a.proto.Zivpn? ==> a.quotaHit == s.users[u].quotaHit)
  {
    ApplyFrame(With(s, u, RenewedAccount(s.users[u], exp)), ctx, g(0));
  }

  /** A renewal never forgives the quota: after renewing and enforcing, a zivpn account is open
      only if it has not expired and its lifetime total, untouched by the renewal, is under its
      quota (or there is none). */
  lemma RenewedStillPays(s: State, u: Login, exp: Day, order: seq<Login>, meter: Login -> nat, ctx: Ctx,
                         g: Gaps, h: Gaps)
    requires u in s.users && s.users[u].proto.Zivpn?
    requires s.users[u].ledger.last.OrZero() <= s.users[u].ledger.total.OrZero()
    ensures var b := Enforce(Renew(s, u, exp, ctx, g), order, meter, ctx, h).users;
            u in b && (!b[u].locked ==>
              ctx.today <= exp
              && s.users[u].ledger.total.OrZero() <= b[u].ledger.total.OrZero()
              && (s.users[u].quota.panel <= 0.0 || b[u].ledger.total.OrZero() as real < s.users[u].quota.panel * 1073741824.0))
  {
    RenewedIs(s, u, exp, ctx, g);
    var r := Renew(s, u, exp, ctx, g);
    PassClosedForm(r, order, meter, ctx, h, u);
    PassNeverLowersTheTotal(r, order, meter, ctx, h, u);
  }

  lemma PassNeverLowersTheTotal(s: State, order: seq<Login>, meter: Login -> nat, ctx: Ctx, g: Gaps, u: Login)
    requires u in s.users
    ensures u in Enforce(s, order, meter, ctx, g).users
    ensures s.users[u].ledger.total.OrZero() <= Enforce(s, order, meter, ctx, g).users[u].ledger.total.OrZero()
  {
    EnforceIsPassed(s, order, meter, ctx, g);
    PassOnAccount(s, order, meter, ctx.today, u);
    VerdictIsStable(Synced(s).users[u], ctx.today, Usage(Synced(s), meter, u));
  }

  // ---- the derived configuration ----

  /** The daemon would be told the same about these accounts on these days. */
  ghost predicate SameForDaemon(users: Users, day: Day, others: Users, later: Day) {
    && (forall u :: u in users && Active(users[u], Zivpn, day) ==>
          u in others && Active(others[u], Zivpn, later)
          && others[u].pass == users[u].pass && others[u].quota == users[u].quota)
    && (forall u :: u in others && Active(others[u], Zivpn, later) ==> u in users && Active(users[u], Zivpn, day))
  }

  lemma DerivedDependsOnActive(users: Users, day: Day, others: Users, later: Day, fmt: Rounding)
    requires SameForDaemon(users, day, others, later)
    ensures Derived(users, Ctx(day, fmt)) == Derived(others, Ctx(later, fmt))
  {
    assert ActivePasswords(users, Zivpn, day) == ActivePasswords(others, Zivpn, later);
    assert MeteredPasswords(users, day) == MeteredPasswords(others, later);
    forall pw | pw in MeteredPasswords(users, day)
      ensures LargestQuota(users, day, pw) == LargestQuota(others, later, pw)
    {
      var q := LargestQuota(users, day, pw);
      var u :| u in users && MeteredAs(users[u], day, pw) && users[u].quota.daemon == q;
      assert u in others && MeteredAs(others[u], later, pw) && others[u].quota.daemon == q;
      assert IsLargest(others, later, pw, q);
      LargestIsUnique(others, later, pw, q, LargestQuota(others, later, pw));
    }
    SameMap(QuotaMap(users, day, fmt), QuotaMap(others, later, fmt));
  }

  /** The configuration, if it is readable, is the one derived from the accounts on this day. */
  ghost predicate InStepOn(s: State, day: Day, fmt: Rounding) {
    s.config.Cfg? ==> s.config == Derived(s.users, Ctx(day, fmt))
  }

  lemma AppliedIsInStep(s: State, ctx: Ctx, gap: seq<Act>)
    ensures InStepOn(Apply(s, ctx, gap), ctx.today, ctx.fmt)
  {
    ApplyFrame(s, ctx, gap);
    assert ctx == Ctx(ctx.today, ctx.fmt);
  }

  /** Dirty flags are sound: if the configuration was in step on some earlier day, it is in step
      after a pass today, even when the pass skips the rebuild. Time alone can only expire
      accounts, an expired open account would have been locked by this very pass, and that lock
      would have set the flag. */
  lemma DirtyFlagIsSound(s: State, day: Day, order: seq<Login>, meter: Login -> nat, ctx: Ctx, g: Gaps)
    requires day <= ctx.today && InStepOn(s, day, ctx.fmt)
    ensures InStepOn(Enforce(s, order, meter, ctx, g), ctx.today, ctx.fmt)
  {
    var t := Synced(s);
    var judged := JudgedUsers(t, ctx.today, meter);
    var passed := Passed(s, order, meter, ctx.today);
    if Dirty(t.users, judged) {
      AppliedIsInStep(passed, ctx, g(0));
    } else {
      forall u | u in s.users
        ensures judged[u].proto == s.users[u].proto && judged[u].pass == s.users[u].pass
                && judged[u].quota == s.users[u].quota && judged[u].exp == s.users[u].exp
        ensures s.users[u].proto.Zivpn? ==>
                  judged[u].locked == s.users[u].locked && (Expired(s.users[u].exp, ctx.today) ==> judged[u].locked)
      {
        VerdictIsStable(t.users[u], ctx.today, Usage(t, meter, u));
        if s.users[u].proto.Zivpn? { VerdictClosedForm(t.users[u], ctx.today, Usage(t, meter, u)); }
      }
      DerivedDependsOnActive(s.users, day, judged, ctx.today, ctx.fmt);
    }
  }

  // ---- the guard ----

  /** Right after an apply the guard sees no drift, and every quota key is in the auth list. */
  lemma GuardFixpoint(s: State, ctx: Ctx, gap: seq<Act>)
    requires s.config.Cfg?
    ensures var t := Apply(s, ctx, gap);
            && t.config.Cfg? && !Drift(t, ctx)
            && (forall pw :: pw in t.config.quota ==> pw in t.config.auth)
  {
    ApplyFrame(s, ctx, gap);
    assert MeteredPasswords(s.users, ctx.today) <= ActivePasswords(s.users, Zivpn, ctx.today);
  }

  lemma SeedAndSyncServeTheSame(s: State, ctx: Ctx)
    ensures var t := RestoredIfCorrupt(Synced(Seeded(s)));
            t.config == s.config && t.daemon == s.daemon && Derived(t.users, ctx) == Derived(s.users, ctx)
            && t.users.Keys == s.users.Keys
  {
    var t := RestoredIfCorrupt(Synced(Seeded(s)));
    DerivedDependsOnActive(s.users, ctx.today, t.users, ctx.today, ctx.fmt);
    assert ctx == Ctx(ctx.today, ctx.fmt);
  }

  lemma PaddedIsNotDerived(s: State, ctx: Ctx, placeholder: Password, gap: seq<Act>)
    requires s.config.Cfg? && ActivePasswords(s.users, Zivpn, ctx.today) == {}
    ensures var t := Padded(s, placeholder, gap); t.users == s.users && t.config != Derived(s.users, ctx)
  {
    var padded := s.(config := s.config.(auth := multiset{placeholder}));
    EnvKeys(padded, gap);
    StartKeys(Stop(Env(padded, gap)));
    assert placeholder in multiset{placeholder};
    assert multiset(ActivePasswords(s.users, Zivpn, ctx.today)) == multiset{};
  }

  /** What the guard's checks do to the configuration. */
  lemma ChecksSettleIff(t: State, ctx: Ctx, cooling: bool, alive: bool, placeholder: Password, g: Gaps)
    requires t.config.Cfg?
    ensures var r := GuardChecks(t, ctx, cooling, alive, placeholder, g).state;
            r.config == Derived(r.users, ctx) <==>
              if QuotaMap(t.users, ctx.today, ctx.fmt) == map[]
              then t.config == Derived(t.users, ctx) && ActivePasswords(t.users, Zivpn, ctx.today) != {}
              else t.config == Derived(t.users, ctx) || !cooling
  {
    if QuotaMap(t.users, ctx.today, ctx.fmt) == map[] {
      if ActivePasswords(t.users, Zivpn, ctx.today) == {} {
        assert multiset(ActivePasswords(t.users, Zivpn, ctx.today)) == multiset{};
        if t.config.auth == multiset{} { PaddedIsNotDerived(t, ctx, placeholder, g(0)); }
      }
    } else {
      ApplyFrame(t, ctx, g(0));
    }
  }

  /** Exactly when a guard run leaves the configuration in step, given a readable one: if the daemon
      is down and will not start, only if it already was; with some quota to enforce, if it already
      was or no cooldown holds the repair back; with none, only if it already was and someone is in
      it. So the guard never repairs a stale password list while no account has a quota. */
  lemma GuardSettlesIff(s: State, ctx: Ctx, cooling: bool, alive: bool, placeholder: Password, g: Gaps)
    requires s.config.Cfg?
    ensures var r := Guard(s, ctx, cooling, alive, placeholder, g).state;
            r.config == Derived(r.users, ctx) <==>
              if Start(s).daemon.Stopped? then s.config == Derived(s.users, ctx)
              else if QuotaMap(s.users, ctx.today, ctx.fmt) == map[]
              then s.config == Derived(s.users, ctx) && ActivePasswords(s.users, Zivpn, ctx.today) != {}
              else s.config == Derived(s.users, ctx) || !cooling
  {
    var up := Start(s);
    StartKeys(s);
    if up.daemon.Running? {
      var t := RestoredIfCorrupt(Synced(Seeded(up)));
      SeedAndSyncServeTheSame(up, ctx);
      DerivedParts(t.users, up.users, ctx);
      ChecksSettleIff(t, ctx, cooling, alive, placeholder, g);
    }
  }

  lemma DerivedParts(users: Users, others: Users, ctx: Ctx)
    requires Derived(users, ctx) == Derived(others, ctx)
    ensures ActivePasswords(users, Zivpn, ctx.today) == ActivePasswords(others, Zivpn, ctx.today)
    ensures QuotaMap(users, ctx.today, ctx.fmt) == QuotaMap(others, ctx.today, ctx.fmt)
  {
    var a, b := ActivePasswords(users, Zivpn, ctx.today), ActivePasswords(others, Zivpn, ctx.today);
    assert multiset(a) == Derived(users, ctx).auth == Derived(others, ctx).auth == multiset(b);
    assert forall pw :: pw in a <==> pw in multiset(a);
    assert forall pw :: pw in b <==> pw in multiset(b);
    assert QuotaMap(users, ctx.today, ctx.fmt) == Derived(users, ctx).quota;
    assert QuotaMap(others, ctx.today, ctx.fmt) == Derived(others, ctx).quota;
  }
}
