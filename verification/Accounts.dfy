/** Accounts as their meta files describe them, and the zivpn daemon configuration derived from them. */
module Accounts {
  import opened Text
  import opened Quota
  import opened Ledger

  type Login = string
  type Password = string
  type Day = int

  datatype Proto = Ssh | Vmess | Vless | Trojan | V2rayDns | Zivpn | Hysteria | Shadow

  /** `_parse_exp_date`: an empty, permanent or corrupt date never expires. */
  datatype Expiry = Never | On(day: Day)

  datatype Account = Account(proto: Proto, exp: Expiry, pass: Password, quota: Limit,
                             locked: bool, quotaHit: bool, expLock: bool, ledger: Ledger)

  type Users = map<Login, Account>

  /** `_is_expired`. */
  predicate Expired(exp: Expiry, today: Day) {
    exp.On? && exp.day < today
  }

  predicate Active(a: Account, proto: Proto, today: Day) {
    a.proto == proto && !Expired(a.exp, today) && !a.locked
  }

  /** `set(_active_passwords(proto))`. */
  function ActivePasswords(users: Users, proto: Proto, today: Day): set<Password> {
    set u | u in users && Active(users[u], proto, today) && users[u].pass != "" :: users[u].pass
  }

  /** The passwords of the zivpn accounts, locked or not. */
  function Live(users: Users): set<Password> {
    set u | u in users && users[u].proto.Zivpn? && users[u].pass != "" :: users[u].pass
  }

  /** The daemon meters an account: it is an active zivpn account with a password and a quota. */
  predicate Metered(a: Account, today: Day) {
    Active(a, Zivpn, today) && a.pass != "" && a.quota.daemon > 0.0
  }

  predicate MeteredAs(a: Account, today: Day, pw: Password) {
    Metered(a, today) && a.pass == pw
  }

  function MeteredPasswords(users: Users, today: Day): set<Password> {
    set u | u in users && Metered(users[u], today) :: users[u].pass
  }

  /** `q` is the largest quota among the metered accounts with this password. */
  ghost predicate IsLargest(users: Users, today: Day, pw: Password, q: real) {
    && (exists u :: u in users && MeteredAs(users[u], today, pw) && users[u].quota.daemon == q)
    && (forall u :: u in users && MeteredAs(users[u], today, pw) ==> users[u].quota.daemon <= q)
  }

  lemma {:induction false} LargestExists(users: Users, today: Day, pw: Password) returns (q: real)
    requires pw in MeteredPasswords(users, today)
    ensures IsLargest(users, today, pw, q)
    decreases |users|
  {
    var u :| u in users && MeteredAs(users[u], today, pw);
    var rest := users - {u};
    q := users[u].quota.daemon;
    if pw in MeteredPasswords(rest, today) {
      var r := LargestExists(rest, today, pw);
      if r > q {
        var v :| v in rest && MeteredAs(rest[v], today, pw) && rest[v].quota.daemon == r;
        assert users[v] == rest[v];
        q := r;
      }
      forall v | v in users && MeteredAs(users[v], today, pw)
        ensures users[v].quota.daemon <= q
      {
        if v != u { assert rest[v] == users[v]; }
      }
    } else {
      assert forall v :: v in users && v != u ==> v in rest && rest[v] == users[v];
      assert forall v :: v in rest && MeteredAs(rest[v], today, pw) ==> pw in MeteredPasswords(rest, today);
    }
  }

  ghost function LargestQuota(users: Users, today: Day, pw: Password): (q: real)
    requires pw in MeteredPasswords(users, today)
    ensures IsLargest(users, today, pw, q)
  {
    LargestQuotaExists(users, today, pw);
    var q :| IsLargest(users, today, pw, q);
    q
  }

  lemma LargestQuotaExists(users: Users, today: Day, pw: Password)
    requires pw in MeteredPasswords(users, today)
    ensures exists q :: IsLargest(users, today, pw, q)
  {
    var q := LargestExists(users, today, pw);
  }

  lemma LargestIsUnique(users: Users, today: Day, pw: Password, q: real, r: real)
    requires IsLargest(users, today, pw, q) && IsLargest(users, today, pw, r)
    ensures q == r
  {
  }

  /** Formatting a quota with `{q:g}` and parsing it back. */
  type Rounding = real -> real

  ghost predicate Lawful(fmt: Rounding) {
    && (forall x, y :: x <= y ==> fmt(x) <= fmt(y))
    && (forall x :: fmt(fmt(x)) == fmt(x))
  }

  /** Password to quota, as the daemon should see it: the rounded largest quota per password. */
  ghost function QuotaMap(users: Users, today: Day, fmt: Rounding): map<Password, real> {
    map pw | pw in MeteredPasswords(users, today) :: fmt(LargestQuota(users, today, pw))
  }

  /** What one more account does to the map, by the comparison both folds of the program make:
      the new quota against the stored one, which has been rounded and parsed back. */
  function Folded(m: map<Password, real>, a: Account, today: Day, fmt: Rounding): map<Password, real> {
    if !Metered(a, today) then m
    else
      var q := a.quota.daemon;
      if a.pass in m then if q > m[a.pass] then m[a.pass := fmt(q)] else m
      else m[a.pass := fmt(q)]
  }

  /** Comparing with the rounded value still yields the rounding of the true maximum. */
  lemma RoundedComparison(fmt: Rounding, most: real, q: real)
    requires Lawful(fmt)
    ensures (if q > fmt(most) then fmt(q) else fmt(most)) == fmt(if q > most then q else most)
  {
    if q > fmt(most) && q <= most {
      assert fmt(fmt(most)) <= fmt(q) <= fmt(most);
    } else if q <= fmt(most) && q > most {
      assert fmt(most) <= fmt(q) <= fmt(fmt(most));
    }
  }

  lemma MeteredGrows(users: Users, u: Login, a: Account, today: Day)
    requires u !in users
    ensures MeteredPasswords(users[u := a], today) ==
            MeteredPasswords(users, today) + (if Metered(a, today) then {a.pass} else {})
  {
    var more := users[u := a];
    forall pw | pw in MeteredPasswords(users, today) ensures pw in MeteredPasswords(more, today) {
      var v :| v in users && MeteredAs(users[v], today, pw);
      assert more[v] == users[v];
      assert MeteredAs(users[v], today, pw);
      assert MeteredAs(more[v], today, pw);
    }
    if Metered(a, today) {
      assert more[u] == a;
      assert a.pass in MeteredPasswords(more, today);
    }
    forall pw | pw in MeteredPasswords(more, today)
      ensures pw in MeteredPasswords(users, today) || (Metered(a, today) && pw == a.pass)
    {
      var v :| v in more && MeteredAs(more[v], today, pw);
      if v != u { assert users[v] == more[v]; }
    }
  }

  lemma LargestGrows(users: Users, u: Login, a: Account, today: Day, pw: Password)
    requires u !in users && pw in MeteredPasswords(users, today)
    ensures pw in MeteredPasswords(users[u := a], today)
    ensures LargestQuota(users[u := a], today, pw) ==
            if Metered(a, today) && a.pass == pw && a.quota.daemon > LargestQuota(users, today, pw)
            then a.quota.daemon else LargestQuota(users, today, pw)
  {
    var more := users[u := a];
    MeteredGrows(users, u, a, today);
    var before := LargestQuota(users, today, pw);
    var q := if Metered(a, today) && a.pass == pw && a.quota.daemon > before then a.quota.daemon else before;
    if q == before {
      var v :| v in users && MeteredAs(users[v], today, pw) && users[v].quota.daemon == before;
      assert more[v] == users[v];
    } else {
      assert more[u] == a;
    }
    assert IsLargest(more, today, pw, q);
    LargestIsUnique(more, today, pw, q, LargestQuota(more, today, pw));
  }

  lemma LargestOfOne(users: Users, u: Login, a: Account, today: Day)
    requires u !in users && Metered(a, today) && a.pass !in MeteredPasswords(users, today)
    ensures a.pass in MeteredPasswords(users[u := a], today)
    ensures LargestQuota(users[u := a], today, a.pass) == a.quota.daemon
  {
    var more := users[u := a];
    MeteredGrows(users, u, a, today);
    assert more[u] == a;
    forall v | v in more && MeteredAs(more[v], today, a.pass) ensures v == u {
    }
    assert IsLargest(more, today, a.pass, a.quota.daemon);
    LargestIsUnique(more, today, a.pass, a.quota.daemon, LargestQuota(more, today, a.pass));
  }

  lemma FoldedAt(users: Users, u: Login, a: Account, today: Day, fmt: Rounding, pw: Password)
    requires Lawful(fmt) && u !in users && pw in MeteredPasswords(users[u := a], today)
    ensures pw in Folded(QuotaMap(users, today, fmt), a, today, fmt)
    ensures Folded(QuotaMap(users, today, fmt), a, today, fmt)[pw] == fmt(LargestQuota(users[u := a], today, pw))
  {
    MeteredGrows(users, u, a, today);
    if pw in MeteredPasswords(users, today) {
      LargestGrows(users, u, a, today, pw);
      RoundedComparison(fmt, LargestQuota(users, today, pw), a.quota.daemon);
    } else {
      LargestOfOne(users, u, a, today);
    }
  }

  /** Folding one more account in is adding it to the derived map: so the fold over the accounts
      in any order is the derived map, which mentions no order. */
  lemma FoldedIsDerived(users: Users, u: Login, a: Account, today: Day, fmt: Rounding)
    requires Lawful(fmt) && u !in users
    ensures Folded(QuotaMap(users, today, fmt), a, today, fmt) == QuotaMap(users[u := a], today, fmt)
  {
    var r := Folded(QuotaMap(users, today, fmt), a, today, fmt);
    FoldedKeys(users, u, a, today, fmt);
    forall pw | pw in MeteredPasswords(users[u := a], today)
      ensures pw in r && r[pw] == fmt(LargestQuota(users[u := a], today, pw))
    {
      FoldedAt(users, u, a, today, fmt, pw);
    }
    SameMap(r, QuotaMap(users[u := a], today, fmt));
  }

  lemma SameMap(a: map<Password, real>, b: map<Password, real>)
    requires a.Keys == b.Keys && forall pw :: pw in a ==> a[pw] == b[pw]
    ensures a == b
  {
  }

  lemma FoldedKeys(users: Users, u: Login, a: Account, today: Day, fmt: Rounding)
    requires u !in users
    ensures Folded(QuotaMap(users, today, fmt), a, today, fmt).Keys == MeteredPasswords(users[u := a], today)
    ensures QuotaMap(users[u := a], today, fmt).Keys == MeteredPasswords(users[u := a], today)
  {
    MeteredGrows(users, u, a, today);
  }

  lemma ActiveGrows(users: Users, u: Login, a: Account, proto: Proto, today: Day)
    requires u !in users
    ensures ActivePasswords(users[u := a], proto, today) ==
            ActivePasswords(users, proto, today) + (if Active(a, proto, today) && a.pass != "" then {a.pass} else {})
  {
    var more := users[u := a];
    forall pw | pw in ActivePasswords(users, proto, today) ensures pw in ActivePasswords(more, proto, today) {
      var v :| v in users && Active(users[v], proto, today) && users[v].pass == pw;
      assert more[v] == users[v];
    }
    assert more[u] == a;
    forall pw | pw in ActivePasswords(more, proto, today)
      ensures pw in ActivePasswords(users, proto, today) || (Active(a, proto, today) && pw == a.pass)
    {
      var v :| v in more && Active(more[v], proto, today) && more[v].pass == pw;
    }
  }

  // ---- directory listings ----

  /** A directory listing: the logins in whatever order the file system yields them. */
  ghost predicate Listing(order: seq<Login>, users: Users) {
    && (forall i :: 0 <= i < |order| ==> order[i] in users)
    && (forall u :: u in users ==> u in order)
    && (forall i, j :: 0 <= i < j < |order| ==> order[i] != order[j])
  }

  /** The accounts listed so far. */
  ghost function Listed(order: seq<Login>, n: nat, users: Users): Users
    requires n <= |order|
  {
    map u | u in users && u in order[..n] :: users[u]
  }

  lemma ListedAll(order: seq<Login>, users: Users)
    requires Listing(order, users)
    ensures Listed(order, |order|, users) == users
  {
    assert order[..|order|] == order;
  }

  lemma ListedNext(order: seq<Login>, n: nat, users: Users)
    requires Listing(order, users) && n < |order|
    ensures order[n] !in Listed(order, n, users)
    ensures Listed(order, n + 1, users) == Listed(order, n, users)[order[n] := users[order[n]]]
  {
    assert order[..n + 1] == order[..n] + [order[n]];
  }

  /** The quota fold over a listing, one account after the other. */
  function FoldedOver(order: seq<Login>, users: Users, today: Day, fmt: Rounding): map<Password, real>
    requires forall i :: 0 <= i < |order| ==> order[i] in users
  {
    if order == [] then map[]
    else
      var n := |order| - 1;
      Folded(FoldedOver(order[..n], users, today, fmt), users[order[n]], today, fmt)
  }

  lemma FoldedNext(order: seq<Login>, n: nat, users: Users, today: Day, fmt: Rounding)
    requires Lawful(fmt) && Listing(order, users) && n < |order|
    ensures QuotaMap(Listed(order, n + 1, users), today, fmt) ==
            Folded(QuotaMap(Listed(order, n, users), today, fmt), users[order[n]], today, fmt)
  {
    ListedNext(order, n, users);
    FoldedIsDerived(Listed(order, n, users), order[n], users[order[n]], today, fmt);
  }

  lemma NothingListed(order: seq<Login>, users: Users, today: Day, fmt: Rounding)
    ensures QuotaMap(Listed(order, 0, users), today, fmt) == map[]
  {
    assert Listed(order, 0, users) == map[];
    assert MeteredPasswords(map[], today) == {};
  }

  lemma FoldedOneMore(order: seq<Login>, n: nat, users: Users, today: Day, fmt: Rounding)
    requires n < |order| && forall i :: 0 <= i < |order| ==> order[i] in users
    ensures FoldedOver(order[..n + 1], users, today, fmt) ==
            Folded(FoldedOver(order[..n], users, today, fmt), users[order[n]], today, fmt)
  {
    assert order[..n + 1][..n] == order[..n];
  }

  lemma FoldedStep(order: seq<Login>, n: nat, users: Users, today: Day, fmt: Rounding)
    requires Lawful(fmt) && Listing(order, users) && n < |order|
    requires FoldedOver(order[..n], users, today, fmt) == QuotaMap(Listed(order, n, users), today, fmt)
    ensures FoldedOver(order[..n + 1], users, today, fmt) == QuotaMap(Listed(order, n + 1, users), today, fmt)
  {
    FoldedNext(order, n, users, today, fmt);
    FoldedOneMore(order, n, users, today, fmt);
  }

  lemma {:induction false} FoldedSoFar(order: seq<Login>, n: nat, users: Users, today: Day, fmt: Rounding)
    requires Lawful(fmt) && Listing(order, users) && n <= |order|
    ensures FoldedOver(order[..n], users, today, fmt) == QuotaMap(Listed(order, n, users), today, fmt)
  {
    if n == 0 {
      NothingListed(order, users, today, fmt);
    } else {
      var m := n - 1;
      FoldedSoFar(order, m, users, today, fmt);
      FoldedStep(order, m, users, today, fmt);
    }
  }

  /** The fold over the accounts yields the rounded true maximum per password, in whatever order
      the directory lists them. */
  lemma FoldIsOrderIndependent(order: seq<Login>, users: Users, today: Day, fmt: Rounding)
    requires Lawful(fmt) && Listing(order, users)
    ensures FoldedOver(order, users, today, fmt) == QuotaMap(users, today, fmt)
  {
    FoldedSoFar(order, |order|, users, today, fmt);
    ListedAll(order, users);
    assert order[..|order|] == order;
  }

  // ---- well-formed account sets ----

  /** A zivpn account with this password. */
  predicate Owns(a: Account, pw: Password) {
    a.proto.Zivpn? && a.pass == pw && pw != ""
  }

  /** No two zivpn accounts share a password. */
  ghost predicate UniquePasswords(users: Users) {
    forall u, v :: u in users && v in users && Owns(users[u], users[v].pass) && users[v].proto.Zivpn? ==> u == v
  }

  /** No two logins are equal ignoring case. */
  ghost predicate DistinctLogins(users: Users) {
    forall u, v :: u in users && v in users && Lower(u) == Lower(v) ==> u == v
  }
}
