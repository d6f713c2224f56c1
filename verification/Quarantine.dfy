/** When the quarantine file says the same as the locks. */
module Quarantine {
  import opened Quota
  import opened Accounts
  import opened StateFile
  import opened Panel
  import opened Attribution
  import opened Enforcement

  /** The quarantine holds exactly the locked zivpn accounts, each under its own password. */
  ghost predicate Mirrors(q: map<Password, Login>, users: Users) {
    && (forall pw :: pw in q ==> q[pw] in users && Owns(users[q[pw]], pw) && users[q[pw]].locked)
    && (forall u :: u in users && users[u].proto.Zivpn? && users[u].locked ==>
          users[u].pass in q && q[users[u].pass] == u)
  }

  /** Every zivpn account has its own password, and no login is one. */
  ghost predicate Distinct(users: Users) {
    && UniquePasswords(users)
    && (forall u :: u in users && users[u].proto.Zivpn? ==> users[u].pass != "")
    && (forall u :: u in users ==> u !in Live(users))
  }

  /** Two account sets that agree on every zivpn account, its password and its lock. */
  ghost predicate SameLocks(users: Users, others: Users) {
    && (forall u :: u in users && users[u].proto.Zivpn? ==>
          u in others && others[u].proto.Zivpn? && others[u].pass == users[u].pass && others[u].locked == users[u].locked)
    && (forall u :: u in others && others[u].proto.Zivpn? ==> u in users && users[u].proto.Zivpn?)
  }

  lemma SameLocksMirror(q: map<Password, Login>, users: Users, others: Users)
    requires Mirrors(q, users) && SameLocks(users, others)
    ensures Mirrors(q, others)
  {
  }

  lemma QuarantineKeysAreLive(q: map<Password, Login>, users: Users)
    requires Mirrors(q, users)
    ensures q.Keys <= Live(users)
  {
    forall pw | pw in q ensures pw in Live(users) {
      assert users[q[pw]].pass == pw;
    }
  }

  /** Locking an account and quarantining it. */
  lemma LockMirrors(q: map<Password, Login>, users: Users, u: Login, a: Account)
    requires Mirrors(q, users) && Distinct(users) && u in users && users[u].proto.Zivpn?
    requires a.proto.Zivpn? && a.pass == users[u].pass && a.locked
    ensures Mirrors(Quarantined(q, u, a.pass), users[u := a])
  {
    var r := Quarantined(q, u, a.pass);
    var now := users[u := a];
    forall pw | pw in r ensures r[pw] in now && Owns(now[r[pw]], pw) && now[r[pw]].locked {
      if pw != a.pass { assert q[pw] != u; }
    }
    forall v | v in now && now[v].proto.Zivpn? && now[v].locked ensures now[v].pass in r && r[now[v].pass] == v {
      if v != u { assert now[v] == users[v] && !Owns(users[u], users[v].pass); }
    }
  }

  /** Unlocking an account and freeing it. */
  lemma UnlockMirrors(q: map<Password, Login>, users: Users, u: Login, a: Account)
    requires Mirrors(q, users) && Distinct(users) && u in users && users[u].proto.Zivpn?
    requires a.proto.Zivpn? && a.pass == users[u].pass && !a.locked
    ensures Mirrors(Freed(q, u), users[u := a])
  {
    QuarantineKeysAreLive(q, users);
    assert u !in q;
  }

  /** Freeing by a name that is no password takes out exactly the entries with that login. */
  lemma FreedByLogin(q: map<Password, Login>, name: string)
    requires name !in q
    ensures forall pw :: pw in Freed(q, name) <==> pw in q && q[pw] != name
    ensures forall pw :: pw in Freed(q, name) ==> Freed(q, name)[pw] == q[pw]
  {
  }

  lemma DeleteByLoginMirrors(q: map<Password, Login>, users: Users, u: Login)
    requires Mirrors(q, users) && Distinct(users) && u in users && users[u].proto.Zivpn?
    ensures Mirrors(Freed(q, u), users - {u}) && users[u].pass !in Freed(q, u)
    ensures forall pw :: pw in Freed(q, u) ==> Freed(q, u)[pw] in users
  {
    QuarantineKeysAreLive(q, users);
    FreedByLogin(q, u);
    assert forall pw :: pw in q ==> Owns(users[q[pw]], pw);
  }

  /** Deleting an account and freeing it by login and by password. */
  lemma DeleteMirrors(q: map<Password, Login>, users: Users, u: Login)
    requires Mirrors(q, users) && Distinct(users) && u in users && users[u].proto.Zivpn?
    ensures Mirrors(Freed(Freed(q, u), users[u].pass), users - {u})
  {
    DeleteByLoginMirrors(q, users, u);
    assert users[u].pass in Live(users);
    FreedByLogin(Freed(q, u), users[u].pass);
    assert Freed(Freed(q, u), users[u].pass) == Freed(q, u);
  }

  /** An identity no account has is in nobody's quarantine. */
  lemma OrphanMirrors(q: map<Password, Login>, users: Users, name: Login, pw: Password)
    requires Mirrors(q, users) && Distinct(users) && name !in users && name !in Live(users) && pw !in Live(users)
    requires pw !in users
    ensures Freed(q, name) == q && Freed(q, pw) == q
  {
    QuarantineKeysAreLive(q, users);
    assert Freed(q, name) == q;
    assert Freed(q, pw) == q;
  }

  lemma CreateMirrors(q: map<Password, Login>, users: Users, u: Login, a: Account)
    requires Mirrors(q, users) && u !in users && !a.locked
    ensures Mirrors(q, users[u := a])
  {
  }

  // ---- a pass ----

  /** The accounts part way through a pass. */
  ghost function Halfway(users: Users, judged: Users, order: seq<Login>): Users
    requires judged.Keys == users.Keys
  {
    map u | u in users :: if u in order then judged[u] else users[u]
  }

  ghost predicate SameIdentity(users: Users, judged: Users) {
    judged.Keys == users.Keys
    && forall u :: u in users ==> judged[u].proto == users[u].proto && judged[u].pass == users[u].pass
  }

  lemma HalfwayIsDistinct(users: Users, judged: Users, order: seq<Login>)
    requires SameIdentity(users, judged) && Distinct(users)
    ensures Distinct(Halfway(users, judged, order))
    ensures Live(Halfway(users, judged, order)) == Live(users)
  {
    var h := Halfway(users, judged, order);
    forall pw | pw in Live(users) ensures pw in Live(h) {
      var u :| u in users && users[u].proto.Zivpn? && users[u].pass == pw;
      assert h[u].pass == pw && h[u].proto.Zivpn?;
    }
    forall pw | pw in Live(h) ensures pw in Live(users) {
      var u :| u in h && h[u].proto.Zivpn? && h[u].pass == pw;
      assert users[u].pass == pw && users[u].proto.Zivpn?;
    }
  }

  /** What one verdict does to the quarantine. */
  function AfterVerdict(q: map<Password, Login>, u: Login, a: Account, b: Account): map<Password, Login> {
    if !a.proto.Zivpn? then q
    else if Blocks(a, b) then Quarantined(q, u, a.pass)
    else if Restores(a, b) then Freed(q, u)
    else q
  }

  lemma VerdictMirrors(q: map<Password, Login>, users: Users, u: Login, b: Account)
    requires Mirrors(q, users) && Distinct(users) && u in users
    requires b.proto == users[u].proto && b.pass == users[u].pass
    ensures Mirrors(AfterVerdict(q, u, users[u], b), users[u := b])
  {
    if !b.proto.Zivpn? || users[u].locked == b.locked {
      SameLocksMirror(q, users, users[u := b]);
    } else if b.locked {
      LockMirrors(q, users, u, b);
    } else {
      UnlockMirrors(q, users, u, b);
    }
  }

  lemma HalfwayOneMore(users: Users, judged: Users, order: seq<Login>, u: Login)
    requires judged.Keys == users.Keys && u in users && u !in order
    ensures Halfway(users, judged, order + [u]) == Halfway(users, judged, order)[u := judged[u]]
    ensures Halfway(users, judged, order)[u] == users[u]
  {
  }

  lemma HalfwayStep(users: Users, judged: Users, order: seq<Login>, q: map<Password, Login>, u: Login)
    requires SameIdentity(users, judged) && Distinct(users) && u in users && u !in order
    requires Mirrors(q, Halfway(users, judged, order))
    ensures Mirrors(AfterVerdict(q, u, users[u], judged[u]), Halfway(users, judged, order + [u]))
  {
    HalfwayIsDistinct(users, judged, order);
    HalfwayOneMore(users, judged, order, u);
    VerdictMirrors(q, Halfway(users, judged, order), u, judged[u]);
  }

  lemma {:induction false} PassMirrors(q: map<Password, Login>, users: Users, judged: Users, order: seq<Login>)
    requires SameIdentity(users, judged) && Distinct(users) && Mirrors(q, users)
    requires forall i :: 0 <= i < |order| ==> order[i] in users
    requires forall i, j :: 0 <= i < j < |order| ==> order[i] != order[j]
    ensures Mirrors(PassQuarantine(q, users, judged, order), Halfway(users, judged, order))
  {
    if order == [] {
      assert Halfway(users, judged, order) == users;
    } else {
      var n := |order| - 1;
      PassMirrors(q, users, judged, order[..n]);
      HalfwayStep(users, judged, order[..n], PassQuarantine(q, users, judged, order[..n]), order[n]);
      assert order[..n] + [order[n]] == order;
    }
  }

  lemma PassedMirrors(t: State, judged: Users, order: seq<Login>)
    requires SameIdentity(t.users, judged) && Mirrors(t.quarantine, t.users) && Distinct(t.users) && Listing(order, t.users)
    ensures Mirrors(PassQuarantine(t.quarantine, t.users, judged, order), judged) && Distinct(judged)
  {
    PassMirrors(t.quarantine, t.users, judged, order);
    assert Halfway(t.users, judged, order) == judged;
    HalfwayIsDistinct(t.users, judged, order);
  }

  lemma SyncedMirrors(s: State, order: seq<Login>)
    requires Mirrors(s.quarantine, s.users) && Distinct(s.users) && Listing(order, s.users)
    ensures Mirrors(s.quarantine, Synced(s).users) && Distinct(Synced(s).users)
  {
    SameLocksMirror(s.quarantine, s.users, Synced(s).users);
    assert Synced(s).users == Halfway(s.users, Synced(s).users, order);
    HalfwayIsDistinct(s.users, Synced(s).users, order);
  }

  /** A pass over the whole directory, in any order, keeps the quarantine the mirror of the locks. */
  lemma EnforceMirrors(s: State, order: seq<Login>, meter: Login -> nat, ctx: Ctx, g: Gaps)
    requires Mirrors(s.quarantine, s.users) && Distinct(s.users) && Listing(order, s.users)
    ensures Mirrors(Enforce(s, order, meter, ctx, g).quarantine, Enforce(s, order, meter, ctx, g).users)
    ensures Distinct(Enforce(s, order, meter, ctx, g).users)
  {
    var t := Synced(s);
    var judged := JudgedUsers(t, ctx.today, meter);
    SyncedMirrors(s, order);
    forall u | u in t.users ensures judged[u].proto == t.users[u].proto && judged[u].pass == t.users[u].pass {
      VerdictIsStable(t.users[u], ctx.today, Usage(t, meter, u));
    }
    PassedMirrors(t, judged, order);
    EnforceIsPassed(s, order, meter, ctx, g);
  }

  // ---- batches ----

  lemma ReplacedIsDistinct(users: Users, u: Login, a: Account)
    requires Distinct(users) && u in users && a.proto == users[u].proto && a.pass == users[u].pass
    ensures Distinct(users[u := a]) && Live(users[u := a]) == Live(users)
  {
    var judged := users[u := a];
    HalfwayIsDistinct(users, judged, [u]);
    assert Halfway(users, judged, [u]) == judged;
  }

  lemma {:induction false} BlockMirrors(s: State, names: seq<Login>, reason: Reason)
    requires Mirrors(s.quarantine, s.users) && Distinct(s.users)
    ensures var t := BlockAll(s, names, reason).state;
            Mirrors(t.quarantine, t.users) && Distinct(t.users) && Live(t.users) == Live(s.users)
  {
    if names != [] {
      var n := |names| - 1;
      BlockMirrors(s, names[..n], reason);
      var t := BlockAll(s, names[..n], reason).state;
      var u := names[n];
      if u in t.users && t.users[u].proto.Zivpn? {
        var a := if t.users[u].locked then t.users[u] else BlockedAccount(t.users[u], reason);
        LockMirrors(t.quarantine, t.users, u, a);
        ReplacedIsDistinct(t.users, u, a);
        assert t.users[u := t.users[u]] == t.users;
      }
    }
  }

  lemma {:induction false} UnblockMirrors(s: State, names: seq<Login>)
    requires Mirrors(s.quarantine, s.users) && Distinct(s.users)
    requires forall i :: 0 <= i < |names| ==> names[i] !in Live(s.users)
    ensures var t := UnblockAll(s, names).state;
            Mirrors(t.quarantine, t.users) && Distinct(t.users) && Live(t.users) == Live(s.users)
  {
    if names != [] {
      var n := |names| - 1;
      UnblockMirrors(s, names[..n]);
      var t := UnblockAll(s, names[..n]).state;
      var u := names[n];
      assert names[n] !in Live(s.users);
      if u !in t.users {
        QuarantineKeysAreLive(t.quarantine, t.users);
        assert Freed(t.quarantine, u) == t.quarantine;
      } else if t.users[u].proto.Zivpn? {
        var a := t.users[u].(locked := false, quotaHit := false, expLock := false);
        UnlockMirrors(t.quarantine, t.users, u, a);
        ReplacedIsDistinct(t.users, u, a);
      }
    }
  }

  // ---- the operations that break it ----

  /** A renewal lifts the lock expiry set but leaves the quarantine entry: it keeps the mirror
      exactly when there was no such lock. */
  lemma RenewKeepsMirrorIff(s: State, u: Login, exp: Day, ctx: Ctx, g: Gaps)
    requires Mirrors(s.quarantine, s.users) && Distinct(s.users) && u in s.users && s.users[u].proto.Zivpn?
    ensures var t := Renew(s, u, exp, ctx, g);
            Mirrors(t.quarantine, t.users) <==> !(s.users[u].locked && s.users[u].expLock)
  {
    RenewedIs(s, u, exp, ctx, g);
    ApplyFrame(With(s, u, RenewedAccount(s.users[u], exp)), ctx, g(0));
    var t := Renew(s, u, exp, ctx, g);
    if s.users[u].locked && s.users[u].expLock {
      assert s.users[u].pass in t.quarantine && t.quarantine[s.users[u].pass] == u && !t.users[u].locked;
    } else {
      SameLocksMirror(s.quarantine, s.users, t.users);
    }
  }

  /** Setting a quota always frees the account from quarantine but lifts only a lock its quota
      set: it keeps the mirror exactly when the account was open or held by its quota. */
  lemma SetQuotaKeepsMirrorIff(s: State, u: Login, quota: Limit, ctx: Ctx, g: Gaps)
    requires Mirrors(s.quarantine, s.users) && Distinct(s.users) && u in s.users && s.users[u].proto.Zivpn?
    ensures var t := SetQuota(s, u, quota, ctx, g);
            Mirrors(t.quarantine, t.users) <==> !s.users[u].locked || s.users[u].quotaHit
  {
    var a := RequotaedAccount(s.users[u], quota);
    var w := With(s, u, a);
    ApplyFrame(w.(quarantine := Freed(w.quarantine, u)), ctx, g(0));
    var t := SetQuota(s, u, quota, ctx, g);
    QuarantineKeysAreLive(s.quarantine, s.users);
    if !s.users[u].locked || s.users[u].quotaHit {
      UnlockMirrors(s.quarantine, s.users, u, a);
    } else {
      assert t.users[u].locked && s.users[u].pass !in t.quarantine;
    }
  }
}
