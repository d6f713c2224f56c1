/** One enforcement pass, account by account: what the loop has done after each turn, and what the
    whole loop amounts to. */
module Sweep {
  import opened Quota
  import opened Ledger
  import opened Accounts
  import opened StateFile
  import opened Panel
  import opened Quarantine

  /** How many accounts of a listing a pass blocks, and how many it restores. */
  function Blocked(users: Users, judged: Users, order: seq<Login>): nat {
    if order == [] then 0
    else
      var u := order[|order| - 1];
      Blocked(users, judged, order[..|order| - 1])
      + if u in users && u in judged && Blocks(users[u], judged[u]) then 1 else 0
  }

  function Restored(users: Users, judged: Users, order: seq<Login>): nat {
    if order == [] then 0
    else
      var u := order[|order| - 1];
      Restored(users, judged, order[..|order| - 1])
      + if u in users && u in judged && Restores(users[u], judged[u]) then 1 else 0
  }

  /** The accounts of a listing whose lock a pass turned on, and off. */
  function TurnedOn(users: Users, judged: Users, order: seq<Login>): set<Login> {
    set u | u in order && u in users && u in judged && Blocks(users[u], judged[u])
  }

  function TurnedOff(users: Users, judged: Users, order: seq<Login>): set<Login> {
    set u | u in order && u in users && u in judged && Restores(users[u], judged[u])
  }

  lemma {:induction false} BlockedIsTurnedOn(users: Users, judged: Users, order: seq<Login>)
    requires forall i, j :: 0 <= i < j < |order| ==> order[i] != order[j]
    ensures Blocked(users, judged, order) == |TurnedOn(users, judged, order)|
  {
    if order == [] {
      assert TurnedOn(users, judged, order) == {};
    } else {
      var n := |order| - 1;
      var u := order[n];
      BlockedIsTurnedOn(users, judged, order[..n]);
      assert order == order[..n] + [u];
      var b := TurnedOn(users, judged, order[..n]);
      assert u !in b;
      assert TurnedOn(users, judged, order) ==
             b + (if u in users && u in judged && Blocks(users[u], judged[u]) then {u} else {});
    }
  }

  lemma {:induction false} RestoredIsTurnedOff(users: Users, judged: Users, order: seq<Login>)
    requires forall i, j :: 0 <= i < j < |order| ==> order[i] != order[j]
    ensures Restored(users, judged, order) == |TurnedOff(users, judged, order)|
  {
    if order == [] {
      assert TurnedOff(users, judged, order) == {};
    } else {
      var n := |order| - 1;
      var u := order[n];
      RestoredIsTurnedOff(users, judged, order[..n]);
      assert order == order[..n] + [u];
      var b := TurnedOff(users, judged, order[..n]);
      assert u !in b;
      assert TurnedOff(users, judged, order) ==
             b + (if u in users && u in judged && Restores(users[u], judged[u]) then {u} else {});
    }
  }

  /** Some listed zivpn account changed lock. */
  predicate DirtyIn(users: Users, judged: Users, order: seq<Login>) {
    exists i :: 0 <= i < |order| && order[i] in users && order[i] in judged
                && users[order[i]].proto.Zivpn? && users[order[i]].locked != judged[order[i]].locked
  }

  lemma HalfwayAll(users: Users, judged: Users, order: seq<Login>)
    requires judged.Keys == users.Keys && Listing(order, users)
    ensures Halfway(users, judged, order[..|order|]) == judged
    ensures DirtyIn(users, judged, order) <==> Dirty(users, judged)
  {
    assert order[..|order|] == order;
    if Dirty(users, judged) {
      var u :| u in users && u in judged && users[u].proto.Zivpn? && users[u].locked != judged[u].locked;
      assert u in order;
    }
  }

  /** The ledger already holds this reading. */
  predicate UpToDate(l: Ledger, raw: nat) {
    Poll(l, raw) == l
  }

  lemma SyncBringsUpToDate(s: State)
    ensures var t := Synced(s);
            t.users.Keys == s.users.Keys
            && forall u :: u in t.users && t.users[u].proto.Zivpn? ==> UpToDate(t.users[u].ledger, Raw(t, u))
  {
    forall u | u in s.users && s.users[u].proto.Zivpn?
      ensures UpToDate(Synced(s).users[u].ledger, Raw(Synced(s), u))
    {
      assert Raw(Synced(s), u) == Raw(s, u);
      PollIsIdempotent(s.users[u].ledger, Raw(s, u));
    }
  }

  /** A pass under way: the accounts and the quarantine so far, the two counts, the dirty flag. */
  datatype Tally = Tally(users: Users, quarantine: map<Password, Login>, blocked: nat, restored: nat, dirty: bool)

  function Tallied(t: Tally, u: Login, b: Account): Tally
    requires u in t.users
  {
    var a := t.users[u];
    Tally(t.users[u := b], AfterVerdict(t.quarantine, u, a, b),
          t.blocked + (if Blocks(a, b) then 1 else 0), t.restored + (if Restores(a, b) then 1 else 0),
          t.dirty || (a.proto.Zivpn? && a.locked != b.locked))
  }

  function TalliedOver(users: Users, judged: Users, q: map<Password, Login>, order: seq<Login>): (t: Tally)
    requires judged.Keys == users.Keys && forall i :: 0 <= i < |order| ==> order[i] in users
    ensures t.users.Keys == users.Keys
  {
    if order == [] then Tally(users, q, 0, 0, false)
    else
      var n := |order| - 1;
      Tallied(TalliedOver(users, judged, q, order[..n]), order[n], judged[order[n]])
  }

  ghost predicate NoRepeats(order: seq<Login>) {
    forall i, j :: 0 <= i < j < |order| ==> order[i] != order[j]
  }

  lemma {:induction false} TalliedUsers(users: Users, judged: Users, q: map<Password, Login>, order: seq<Login>)
    requires judged.Keys == users.Keys && forall i :: 0 <= i < |order| ==> order[i] in users
    requires NoRepeats(order)
    ensures TalliedOver(users, judged, q, order).users == Halfway(users, judged, order)
  {
    if order == [] {
      assert Halfway(users, judged, order) == users;
    } else {
      var n := |order| - 1;
      TalliedUsers(users, judged, q, order[..n]);
      assert order == order[..n] + [order[n]];
      HalfwayOneMore(users, judged, order[..n], order[n]);
    }
  }

  /** The account whose turn it is has not been touched yet. */
  lemma NextInLine(users: Users, judged: Users, q: map<Password, Login>, order: seq<Login>)
    requires judged.Keys == users.Keys && forall i :: 0 <= i < |order| ==> order[i] in users
    requires NoRepeats(order) && order != []
    ensures var u := order[|order| - 1];
            TalliedOver(users, judged, q, order[..|order| - 1]).users[u] == users[u]
  {
    var n := |order| - 1;
    TalliedUsers(users, judged, q, order[..n]);
    assert order[n] !in order[..n];
  }

  lemma {:induction false} TallySoFar(users: Users, judged: Users, q: map<Password, Login>, order: seq<Login>)
    requires judged.Keys == users.Keys && forall i :: 0 <= i < |order| ==> order[i] in users
    requires NoRepeats(order)
    ensures var t := TalliedOver(users, judged, q, order);
            && t.quarantine == PassQuarantine(q, users, judged, order)
            && t.blocked == Blocked(users, judged, order) && t.restored == Restored(users, judged, order)
            && (t.dirty <==> DirtyIn(users, judged, order))
  {
    if order != [] {
      TallySoFar(users, judged, q, order[..|order| - 1]);
      NextInLine(users, judged, q, order);
      DirtyNext(users, judged, order);
    }
  }

  lemma DirtyNext(users: Users, judged: Users, order: seq<Login>)
    requires order != [] && order[|order| - 1] in users && order[|order| - 1] in judged
    ensures var u := order[|order| - 1];
            DirtyIn(users, judged, order) <==>
            DirtyIn(users, judged, order[..|order| - 1])
            || (users[u].proto.Zivpn? && users[u].locked != judged[u].locked)
  {
    var n := |order| - 1;
    assert forall k :: 0 <= k < n ==> order[..n][k] == order[k];
  }

  /** What a whole pass amounts to: the counts are exactly the locks turned on and off. */
  lemma TallyOfAll(users: Users, judged: Users, q: map<Password, Login>, order: seq<Login>)
    requires judged.Keys == users.Keys && Listing(order, users)
    ensures var t := TalliedOver(users, judged, q, order);
            && t.users == judged
            && t.quarantine == PassQuarantine(q, users, judged, order)
            && t.blocked == |TurnedOn(users, judged, order)| && t.restored == |TurnedOff(users, judged, order)|
            && (t.dirty <==> Dirty(users, judged))
  {
    TallySoFar(users, judged, q, order);
    TalliedUsers(users, judged, q, order);
    HalfwayAll(users, judged, order);
    assert order[..|order|] == order;
    BlockedIsTurnedOn(users, judged, order);
    RestoredIsTurnedOff(users, judged, order);
  }

  lemma NotYetJudged(s: State, judged: Users, order: seq<Login>, i: nat)
    requires judged.Keys == s.users.Keys && Listing(order, s.users) && i < |order|
    ensures order[i] in s.users
    ensures TalliedOver(s.users, judged, s.quarantine, order[..i]).users[order[i]] == s.users[order[i]]
  {
    TalliedUsers(s.users, judged, s.quarantine, order[..i]);
    assert order[i] !in order[..i];
  }

  lemma SameUsage(s: State, t: State, meter: Login -> nat, u: Login)
    requires u in s.users && u in t.users && s.users[u] == t.users[u] && s.files == t.files
    ensures Usage(s, meter, u) == Usage(t, meter, u) && Raw(s, u) == Raw(t, u)
  {
  }

  // ---- the ledgers polled one by one ----

  function SyncedAccount(s: State, user: Login): Account
    requires user in s.users
  {
    if s.users[user].proto.Zivpn? then s.users[user].(ledger := Poll(s.users[user].ledger, Raw(s, user)))
    else s.users[user]
  }

  /** The accounts once the listed ledgers have been polled. */
  function SyncedOver(s: State, order: seq<Login>): (users: Users)
    requires forall i :: 0 <= i < |order| ==> order[i] in s.users
    ensures users.Keys == s.users.Keys
  {
    if order == [] then s.users
    else SyncedOver(s, order[..|order| - 1])[order[|order| - 1] := SyncedAccount(s, order[|order| - 1])]
  }

  lemma {:induction false} SyncedOverAt(s: State, order: seq<Login>, u: Login)
    requires u in s.users && forall i :: 0 <= i < |order| ==> order[i] in s.users
    ensures SyncedOver(s, order)[u] == if u in order then SyncedAccount(s, u) else s.users[u]
  {
    if order != [] {
      var n := |order| - 1;
      SyncedOverAt(s, order[..n], u);
      assert order == order[..n] + [order[n]];
    }
  }

  lemma NotYetSynced(s: State, order: seq<Login>, i: nat)
    requires Listing(order, s.users) && i < |order|
    ensures order[i] in s.users && SyncedOver(s, order[..i])[order[i]] == s.users[order[i]]
  {
    SyncedOverAt(s, order[..i], order[i]);
  }

  lemma SameSync(s: State, t: State, u: Login)
    requires u in s.users && u in t.users && s.users[u] == t.users[u] && s.files == t.files
    ensures SyncedAccount(s, u) == SyncedAccount(t, u)
  {
  }

  lemma SyncedOverAll(s: State, order: seq<Login>)
    requires Listing(order, s.users)
    ensures SyncedOver(s, order) == Synced(s).users
  {
    forall u | u in s.users ensures SyncedOver(s, order)[u] == Synced(s).users[u] {
      SyncedOverAt(s, order, u);
    }
  }
}
