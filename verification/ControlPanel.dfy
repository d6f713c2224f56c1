/** The panel as a program: fields for the files it keeps, methods that update them in place the
    way install2.py does, each proved to compute the operation of the same name in `Panel`. */
module ControlPanel {
  import opened Text
  import opened Quota
  import opened Ledger
  import opened Accounts
  import opened StateFile
  import opened Panel
  import opened Attribution
  import opened Enforcement
  import opened Quarantine
  import opened Sweep
  import opened Runs
  import opened Steps
  import opened Serving
  import opened Outcomes

  /** What one account puts in the registry. */
  function LiveOf(a: Account): set<Password> {
    if a.proto.Zivpn? && a.pass != "" then {a.pass} else {}
  }

  /** The passwords of the listed zivpn accounts. */
  function LiveIn(users: Users, order: seq<Login>): set<Password>
    requires forall i :: 0 <= i < |order| ==> order[i] in users
  {
    if order == [] then {} else LiveIn(users, order[..|order| - 1]) + LiveOf(users[order[|order| - 1]])
  }

  lemma {:induction false} LiveInHas(users: Users, order: seq<Login>, pw: Password)
    requires forall i :: 0 <= i < |order| ==> order[i] in users
    ensures pw in LiveIn(users, order) <==> exists i :: 0 <= i < |order| && pw in LiveOf(users[order[i]])
  {
    if order != [] { LiveInHas(users, order[..|order| - 1], pw); }
  }

  lemma LiveAll(users: Users, order: seq<Login>)
    requires Listing(order, users)
    ensures LiveIn(users, order) == Live(users)
  {
    forall pw ensures pw in LiveIn(users, order) <==> pw in Live(users) {
      LiveInHas(users, order, pw);
      if pw in Live(users) {
        var u :| u in users && users[u].proto.Zivpn? && users[u].pass == pw;
        assert u in order;
      }
    }
  }

  lemma SameQuotas(s: State, ctx: Ctx)
    ensures QuotaMap(RestoredIfCorrupt(Synced(Seeded(s))).users, ctx.today, ctx.fmt) == QuotaMap(s.users, ctx.today, ctx.fmt)
  {
    SeedAndSyncServeTheSame(s, ctx);
    DerivedParts(RestoredIfCorrupt(Synced(Seeded(s))).users, s.users, ctx);
  }

  lemma StartOutcome(s: State)
    ensures forall k :: InService(Start(s), k) == InService(s, k)
    ensures Safe(s) ==> Safe(Start(s))
  {
    if Safe(s) { SafeStart(s); }
  }

  lemma OwnPasswordDoesNotCount(users: Users, user: Login, pw: Password)
    requires user in users
    ensures InUse(users[user := users[user].(pass := pw)], pw, Zivpn, user) == InUse(users, pw, Zivpn, user)
  {
    var changed := users[user := users[user].(pass := pw)];
    if InUse(users, pw, Zivpn, user) {
      var u :| u in users && u != user && users[u].proto == Zivpn && users[u].pass == pw;
      assert changed[u] == users[u];
    }
  }

  class ControlPanel {
    const fmt: Rounding
    var users: Users
    var files: Files
    var copies: seq<Copy>
    var registry: set<Password>
    var quarantine: map<Password, Login>
    var config: Config
    var daemon: Daemon
    ghost var carried: map<Password, nat>

    ghost predicate Valid() {
      Lawful(fmt)
    }

    ghost function Snap(): State
      reads this
    {
      State(users, files, copies, registry, quarantine, config, daemon, carried)
    }

    ghost function On(today: Day): Ctx {
      Ctx(today, fmt)
    }

    constructor (fmt: Rounding, files: Files, config: Config)
      requires Lawful(fmt)
      ensures Valid() && this.fmt == fmt
      ensures Snap() == State(map[], files, [], {}, map[], config, Stopped, map[])
    {
      this.fmt := fmt;
      this.users, this.files, this.copies := map[], files, [];
      this.registry, this.quarantine := {}, map[];
      this.config, this.daemon, this.carried := config, Stopped, map[];
    }

    // ---- the daemon ----

    /** One move of the daemon: bytes counted, a save of one file or both, or a reset. */
    method Move(act: Act)
      modifies this`files, this`daemon, this`carried
      ensures Snap() == Do(old(Snap()), act)
      ensures if old(daemon).Stopped? then Snap() == old(Snap())
              else if act.Log? then Counts(old(Snap()), Snap(), act.pw, act.bytes)
              else SavesAs(old(Snap()), Snap(), act)
    {
      if daemon.Stopped? { return; }
      DaemonMoves(Snap(), act);
      var c := daemon.body;
      match act {
        case Log(pw, n) =>
          if pw in c.quotas {
            carried := carried[pw := (if pw in carried then carried[pw] else 0) + n];
            daemon := daemon.(body := c.(used := c.used[pw := UsedIn(c, pw) + n]));
          }
        case Save(mode) =>
          if !mode.MirrorOnly? { files := files.(main := Sealed(c)); }
          if !mode.MainOnly? { files := files.(bak := Sealed(c)); }
        case ResetUsage(pw) =>
          daemon := daemon.(body := c.(used := c.used - {pw}));
          files := Files(Sealed(daemon.body), Sealed(daemon.body));
        case ResetAll =>
          daemon := daemon.(body := c.(used := map[]));
          files := Files(Sealed(daemon.body), Sealed(daemon.body));
      }
    }

    /** The daemon's own moves, one after the other. */
    method Tick(acts: seq<Act>)
      modifies this`files, this`daemon, this`carried
      ensures Snap() == Env(old(Snap()), acts)
    {
      var i := 0;
      while i < |acts|
        invariant 0 <= i <= |acts|
        invariant Snap() == Env(old(Snap()), acts[..i])
      {
        assert acts[..i + 1][..i] == acts[..i];
        Move(acts[i]);
        i := i + 1;
      }
      assert acts[..i] == acts;
    }

    /** `systemctl start`: up exactly when the configuration lets it, and counting on from where the
        files leave every account: starting neither loses nor brings in a byte. */
    method StartService()
      modifies this`daemon
      ensures Snap() == Start(old(Snap()))
      ensures daemon.Running? <==> old(daemon).Running? || (config.Cfg? && config.auth != multiset{})
      ensures forall k :: InService(Snap(), k) == InService(old(Snap()), k)
      ensures Safe(old(Snap())) ==> Safe(Snap())
    {
      if daemon.Stopped? && config.Cfg? && config.auth != multiset{} {
        daemon := Running(Content(Loaded(files.main, files.bak), config.quota), config.auth);
      }
      StartOutcome(old(Snap()));
    }

    method StopService()
      modifies this`daemon
      ensures Snap() == Stop(old(Snap()))
    {
      daemon := Stopped;
    }

    // ---- the directory ----

    /** `USERDIR.iterdir()`: some order. */
    method List() returns (order: seq<Login>)
      ensures Listing(order, users)
    {
      order := [];
      var left := users.Keys;
      while left != {}
        invariant left <= users.Keys
        invariant forall u :: u in users <==> u in left || u in order
        invariant forall i :: 0 <= i < |order| ==> order[i] in users && order[i] !in left
        invariant forall i, j :: 0 <= i < j < |order| ==> order[i] != order[j]
        decreases left
      {
        var u :| u in left;
        left := left - {u};
        order := order + [u];
      }
    }

    /** `_active_passwords`. */
    method Passwords(proto: Proto, today: Day) returns (pws: set<Password>)
      ensures pws == ActivePasswords(users, proto, today)
      ensures forall pw :: pw in pws <==>
                pw != "" && exists u :: u in users && users[u].proto == proto && users[u].pass == pw && !users[u].locked
                                        && (users[u].exp.On? ==> today <= users[u].exp.day)
    {
      var order := List();
      pws := {};
      var i := 0;
      while i < |order|
        invariant 0 <= i <= |order|
        invariant pws == ActivePasswords(Listed(order, i, users), proto, today)
      {
        var a := users[order[i]];
        ListedNext(order, i, users);
        ActiveGrows(Listed(order, i, users), order[i], a, proto, today);
        if a.proto == proto && !Expired(a.exp, today) && !a.locked && a.pass != "" {
          pws := pws + {a.pass};
        }
        i := i + 1;
      }
      ListedAll(order, users);
    }

    /** The quota fold of `_zivpn_sync_config`, which remembers the passwords it has seen. */
    method FoldSeen(today: Day) returns (quota: map<Password, real>)
      requires Valid()
      ensures quota == QuotaMap(users, today, fmt)
    {
      var order := List();
      quota := map[];
      var seen: set<Password> := {};
      var i := 0;
      while i < |order|
        invariant 0 <= i <= |order|
        invariant quota == FoldedOver(order[..i], users, today, fmt)
        invariant forall pw :: pw in seen <==> pw in quota
      {
        assert order[..i + 1][..i] == order[..i];
        var a := users[order[i]];
        i := i + 1;
        if !a.proto.Zivpn? || Expired(a.exp, today) || a.locked { continue; }
        var q := a.quota.daemon;
        if q <= 0.0 || a.pass == "" { continue; }
        if a.pass in seen {
          if q > quota[a.pass] { quota := quota[a.pass := fmt(q)]; }
          continue;
        }
        seen := seen + {a.pass};
        quota := quota[a.pass := fmt(q)];
      }
      assert order[..i] == order;
      FoldIsOrderIndependent(order, users, today, fmt);
    }

    /** The quota fold of `_zivpn_expected_quota`, which looks in the map itself. */
    method FoldExpected(today: Day) returns (out: map<Password, real>)
      requires Valid()
      ensures out == QuotaMap(users, today, fmt)
    {
      var order := List();
      out := map[];
      var i := 0;
      while i < |order|
        invariant 0 <= i <= |order|
        invariant out == FoldedOver(order[..i], users, today, fmt)
      {
        assert order[..i + 1][..i] == order[..i];
        var a := users[order[i]];
        i := i + 1;
        if !a.proto.Zivpn? || Expired(a.exp, today) || a.locked { continue; }
        if a.quota.daemon <= 0.0 || a.pass == "" { continue; }
        if a.pass in out {
          var prev := out[a.pass];
          if a.quota.daemon > prev { out := out[a.pass := fmt(a.quota.daemon)]; }
          continue;
        }
        out := out[a.pass := fmt(a.quota.daemon)];
      }
      assert order[..i] == order;
      FoldIsOrderIndependent(order, users, today, fmt);
    }

    /** `zivpn_apply`: a configuration that is not the derived one is rewritten and the daemon restarted on
        it, up exactly when somebody is to be served; otherwise nothing is touched. */
    method SyncConfig(today: Day, gap: seq<Act>)
      requires Valid()
      modifies this`config, this`files, this`daemon, this`carried
      ensures Snap() == Apply(old(Snap()), On(today), gap)
      ensures InStepOn(Snap(), today, fmt) && (Serves(old(Snap())) ==> Serves(Snap()))
      ensures if old(config.Cfg? && config != Derived(users, On(today)))
              then Serves(Snap()) && (daemon.Running? <==> ActivePasswords(users, Zivpn, today) != {})
              else Snap() == old(Snap())
    {
      ApplyRestartsIff(Snap(), On(today), gap);
      AppliedIsInStep(Snap(), On(today), gap);
      if !config.Cfg? { return; }
      var pws := Passwords(Zivpn, today);
      var quota := FoldSeen(today);
      var before := config;
      config := Cfg(multiset(pws), quota);
      if config != before {
        Tick(gap);
        StopService();
        StartService();
      }
    }

    method PasswordInUse(pw: Password, proto: Proto, except: Login) returns (used: bool)
      ensures used == InUse(users, pw, proto, except)
    {
      if pw == "" { return false; }
      var order := List();
      var i := 0;
      while i < |order|
        invariant 0 <= i <= |order|
        invariant forall k :: 0 <= k < i ==>
          !(order[k] != except && users[order[k]].proto == proto && users[order[k]].pass == pw)
      {
        if order[i] != except && users[order[i]].proto == proto && users[order[i]].pass == pw { return true; }
        i := i + 1;
      }
      return false;
    }

    // ---- the counter files ----

    method ForgetPassword(pw: Password) returns (changed: bool)
      modifies this`files
      ensures files == Forget(old(files), pw)
      ensures changed ==> pw !in files.main.Keys() && pw !in files.bak.Keys()
    {
      if pw == "" || !files.main.Doc? { return false; }
      var st := files.main.body;
      changed := false;
      if pw in st.used { st := st.(used := st.used - {pw}); changed := true; }
      if pw in st.quotas { st := st.(quotas := st.quotas - {pw}); changed := true; }
      if changed {
        assert st == files.main.body.Without(pw);
        files := files.(main := Doc(st, Unsealed));
        files := files.(bak := Doc(st, Unsealed));
      }
    }

    method MigrateKey(from: Password, to: Password) returns (changed: bool)
      modifies this`files
      ensures files == Migrate(old(files), from, to)
    {
      if from == "" || to == "" || from == to || !files.main.Doc? { return false; }
      var st := files.main.body;
      changed := false;
      if from in st.used && to !in st.used {
        var n := st.used[from];
        st := st.(used := (st.used - {from})[to := n]);
        changed := true;
      }
      if from in st.quotas && to !in st.quotas {
        var n := st.quotas[from];
        st := st.(quotas := (st.quotas - {from})[to := n]);
        changed := true;
      }
      if changed {
        files := files.(main := Doc(st, Unsealed));
        files := files.(bak := Doc(st, Unsealed));
      }
    }

    method PurgeBackups(pw: Password) returns (n: nat)
      modifies this`copies
      ensures copies == Purged(old(copies), pw)
    {
      n := 0;
      if pw == "" { return; }
      var i := 0;
      while i < |copies|
        invariant 0 <= i <= |copies| == |old(copies)|
        invariant forall k :: 0 <= k < i ==> copies[k] == old(copies)[k].(file := PurgedFile(old(copies)[k].file, pw))
        invariant forall k :: i <= k < |copies| ==> copies[k] == old(copies)[k]
      {
        var c := copies[i];
        if c.file.Doc? && pw in c.file.Keys() {
          copies := copies[i := c.(file := Doc(c.file.body.Without(pw), Unsealed))];
          n := n + 1;
        }
        i := i + 1;
      }
    }

    method StateBackup(now: int, dropped: set<int>)
      modifies this`copies
      ensures copies == Backup(files, old(copies), now, dropped)
    {
      if files.main.Absent? { return; }
      var newest := NewestCopy();
      if newest != files.main {
        copies := copies + [Copy(now, false, files.main)];
        if !files.bak.Absent? { copies := copies + [Copy(now, true, files.bak)]; }
        assert copies == old(copies) + [Copy(now, false, files.main)]
                         + (if files.bak.Absent? then [] else [Copy(now, true, files.bak)]);
      }
      DropCopies(dropped);
    }

    /** The copies past retention go. */
    method DropCopies(dropped: set<int>)
      modifies this`copies
      ensures copies == Kept(old(copies), dropped)
    {
      var kept: seq<Copy> := [];
      var i := 0;
      while i < |copies|
        invariant 0 <= i <= |copies|
        invariant copies == old(copies)
        invariant Kept(copies, dropped) == kept + Kept(copies[i..], dropped)
      {
        assert copies[i..][1..] == copies[i + 1..];
        if copies[i].stamp !in dropped { kept := kept + [copies[i]]; }
        i := i + 1;
      }
      copies := kept;
    }

    method NewestCopy() returns (f: File)
      ensures f == Newest(copies)
    {
      var i := |copies|;
      assert copies[..i] == copies;
      while i > 0
        invariant 0 <= i <= |copies|
        invariant Newest(copies) == Newest(copies[..i])
      {
        assert copies[..i][..i - 1] == copies[..i - 1];
        i := i - 1;
        if !copies[i].mirror { return copies[i].file; }
      }
      return Absent;
    }

    method StateRestore()
      modifies this`files
      ensures files == Restore(old(files), copies)
      ensures files.bak == old(files).bak && (old(files).main.Doc? ==> files.main == old(files).main)
      ensures !old(files).main.Doc? && old(files).bak.Doc? ==> files.main == old(files).bak
      ensures forall i :: !old(files).main.Doc? && !old(files).bak.Doc? && IsNewestReadable(copies, i) ==>
                files.main == copies[i].file
    {
      RestorePrefersTheMirror(files, copies);
      if files.main.Doc? { return; }
      if files.bak.Doc? {
        files := files.(main := files.bak);
        return;
      }
      var i := |copies|;
      assert copies[..i] == copies;
      while i > 0
        invariant 0 <= i <= |copies|
        invariant NewestValid(copies) == NewestValid(copies[..i])
        invariant files == old(files)
      {
        assert copies[..i][..i - 1] == copies[..i - 1];
        i := i - 1;
        if !copies[i].mirror && copies[i].file.Doc? {
          files := files.(main := copies[i].file);
          return;
        }
      }
    }

    // ---- quarantine ----

    /** `_zivpn_quarantine_add`: the quarantine goes on mirroring the locks once this account's lock
        is recorded, and nobody else's entry changes. */
    method QuarantineAdd(user: Login)
      requires user in users
      modifies this`quarantine
      ensures quarantine ==
              if users[user].proto.Zivpn? then Quarantined(old(quarantine), user, users[user].pass) else old(quarantine)
      ensures users[user].proto.Zivpn? && Mirrors(old(quarantine), users) && Distinct(users) ==>
                Mirrors(quarantine, users[user := users[user].(locked := true)])
      ensures forall pw :: pw in old(quarantine) && pw != users[user].pass ==>
                pw in quarantine && quarantine[pw] == old(quarantine)[pw]
    {
      if users[user].proto.Zivpn? { QuarantineOutcome(quarantine, users, user); }
      if users[user].proto.Zivpn? && users[user].pass != "" {
        quarantine := quarantine[users[user].pass := user];
      }
    }

    method QuarantineRemove(name: string)
      modifies this`quarantine
      ensures quarantine == Freed(old(quarantine), name)
    {
      if name in quarantine {
        quarantine := quarantine - {name};
        return;
      }
      var left := quarantine.Keys;
      while left != {}
        invariant left <= old(quarantine).Keys
        invariant quarantine == map pw | pw in old(quarantine) && (pw in left || old(quarantine)[pw] != name) :: old(quarantine)[pw]
        decreases left
      {
        var pw :| pw in left;
        left := left - {pw};
        if quarantine[pw] == name { quarantine := quarantine - {pw}; }
      }
    }

    // ---- create ----

    method Residuals(pw: Password) returns (found: bool)
      ensures found == HasResiduals(Snap(), pw)
    {
      if pw == "" { return false; }
      var both := [files.main, files.bak];
      var i := 0;
      while i < 2
        invariant 0 <= i <= 2
        invariant forall k :: 0 <= k < i ==> !both[k].Corrupt? && pw !in both[k].Keys()
      {
        if both[i].Corrupt? { return true; }
        if both[i].Doc? && (pw in both[i].body.used || pw in both[i].body.quotas) { return true; }
        i := i + 1;
      }
      assert both[0] == files.main && both[1] == files.bak;
      return pw in quarantine;
    }

    method LoginIsTaken(user: Login) returns (taken: bool)
      ensures taken == LoginTaken(users, user)
    {
      if user in users { return true; }
      var order := List();
      var low := Lower(user);
      var i := 0;
      while i < |order|
        invariant 0 <= i <= |order|
        invariant forall k :: 0 <= k < i ==> Lower(order[k]) != low
      {
        if Lower(order[i]) == low { return true; }
        i := i + 1;
      }
      return false;
    }

    method DrawPassword(draws: seq<Password>) returns (pw: Password)
      ensures pw == FirstFree(Snap(), draws)
    {
      var i := 0;
      while i < |draws|
        invariant 0 <= i <= |draws|
        invariant FirstFree(Snap(), draws) == FirstFree(Snap(), draws[i..])
      {
        assert draws[i..][1..] == draws[i + 1..];
        var used := PasswordInUse(draws[i], Zivpn, "");
        if !used && draws[i] !in registry { return draws[i]; }
        i := i + 1;
      }
      return "";
    }

    /** The password asked for: in use, registered, or free; a registered one without a trace is
        taken off the register and out of the copies. */
    method ClaimPassword(pass: Password, g: Gaps) returns (pw: Password)
      requires pass != ""
      modifies this`files, this`copies, this`registry, this`daemon, this`carried
      ensures pw == Settle(old(Snap()), pass, [], g).pw
      ensures Snap() == Settle(old(Snap()), pass, [], g).state.(registry := registry)
      ensures registry + {pass} == old(registry) + {pass} && (pw == "" ==> registry == old(registry))
    {
      var used := PasswordInUse(pass, Zivpn, "");
      if used { return ""; }
      EnvKeys(Snap(), g(0));
      Tick(g(0));
      if pass in registry {
        var left := Residuals(pass);
        if left { return ""; }
        registry := registry - {pass};
        var _ := PurgeBackups(pass);
      }
      return pass;
    }

    /** The account written and applied once its password is settled. */
    method EnrolUser(user: Login, pw: Password, exp: Day, quota: Limit, today: Day, g: Gaps)
      requires Valid()
      modifies this
      ensures Snap() == Enrol(old(Snap()), user, pw, exp, quota, On(today), g)
    {
      registry := registry + {pw};
      users := users[user := NewAccount(Zivpn, exp, pw, quota)];
      carried := carried[pw := 0];
      assert Snap() == Written(old(Snap()), user, pw, exp, quota);
      Tick(g(1));
      SyncConfig(today, g(2));
      Tick(g(3));
    }

    /** The zivpn branch of `create_user`. */
    method CreateZivpnUser(user: Login, pass: Password, draws: seq<Password>, exp: Day, quota: Limit,
                           today: Day, g: Gaps) returns (code: nat)
      requires Valid()
      modifies this
      ensures Snap() == CreateZivpn(old(Snap()), user, pass, draws, exp, quota, On(today), g).state
      ensures code == CreateZivpn(old(Snap()), user, pass, draws, exp, quota, On(today), g).code
    {
      ghost var t := Settle(old(Snap()), pass, draws, g);
      var pw;
      if pass != "" {
        pw := ClaimPassword(pass, g);
        assert t == Settle(old(Snap()), pass, [], g);
        EnvKeys(old(Snap()), g(0));
        assert t.state.registry == old(registry);
      } else {
        pw := DrawPassword(draws);
        if pw != "" { Tick(g(0)); }
      }
      if pw == "" { return 4; }
      assert Written(Snap(), user, pw, exp, quota) == Written(t.state, user, pw, exp, quota);
      EnrolUser(user, pw, exp, quota, today, g);
      return 0;
    }

    /** `create_user`: the code due, and with 0 one account more, as it was asked for. */
    method CreateUser(proto: Proto, user: Login, pass: Password, draws: seq<Password>, exp: Day, quota: Limit,
                      today: Day, g: Gaps) returns (code: nat)
      requires Valid()
      modifies this
      ensures Snap() == Create(old(Snap()), proto, user, pass, draws, exp, quota, On(today), g).state
      ensures code == Create(old(Snap()), proto, user, pass, draws, exp, quota, On(today), g).code
      ensures "" !in old(users) ==>
                && DueCode(old(Snap()), code, proto, user, pass, draws, g)
                && (if code == 0 then Joined(old(Snap()), Snap(), proto, user, pass, draws, exp, quota, On(today))
                    else users == old(users))
      ensures Serves(old(Snap())) ==> KeepsServing(old(Snap()), Snap(), today)
    {
      if "" !in users { CreateOutcome(Snap(), proto, user, pass, draws, exp, quota, On(today), g); }
      if Serves(Snap()) { CreateServes(Snap(), proto, user, pass, draws, exp, quota, On(today), g); }
      if !ValidName(user) { return 1; }
      var taken := LoginIsTaken(user);
      if taken { return 2; }
      if proto.Zivpn? {
        code := CreateZivpnUser(user, pass, draws, exp, quota, today, g);
      } else {
        var pw := InitialPass(proto, pass, draws);
        if proto.Hysteria? {
          var dup := PasswordInUse(pw, Hysteria, "");
          if dup { return 4; }
        }
        users := users[user := NewAccount(proto, exp, pw, quota)];
        return 0;
      }
    }

    // ---- delete ----

    /** The search of `_zivpn_all_identities`: quarantine first, then orphan counters. */
    method FindOrphan(user: Login) returns (found: bool, pw: Password)
      ensures found ==> Orphan(Snap(), user, pw)
      ensures !found ==> forall k :: !Orphan(Snap(), user, k)
    {
      var left := quarantine.Keys;
      while left != {}
        invariant left <= quarantine.Keys
        invariant forall k :: k in quarantine && k !in left ==> user != k && (quarantine[k] == "" || quarantine[k] != user)
        decreases left
      {
        pw :| pw in left;
        left := left - {pw};
        var name := if quarantine[pw] != "" then quarantine[pw] else pw;
        if user == name || user == pw { return true, pw; }
      }
      if files.main.Doc? && user in files.main.body.Keys() && user !in quarantine {
        var covered := Covered();
        if user !in covered { return true, user; }
      }
      return false, "";
    }

    method Covered() returns (pws: set<Password>)
      ensures pws == Live(users)
    {
      pws := set u | u in users && users[u].proto.Zivpn? && users[u].pass != "" :: users[u].pass;
    }

    method PurgeAll(user: Login, pw: Password)
      modifies this`quarantine, this`files
      ensures Snap() == Purge(old(Snap()), user, pw)
    {
      QuarantineRemove(user);
      if pw != "" {
        QuarantineRemove(pw);
        var _ := ForgetPassword(pw);
      }
    }

    /** The daemon is out of the way while the counter files are purged. */
    method PurgeAndApply(user: Login, pw: Password, today: Day, g: Gaps)
      requires Valid()
      modifies this
      ensures Snap() == Redeployed(old(Snap()), user, pw, On(today), g)
    {
      Tick(g(0));
      var stopped := pw != "" && daemon.Running?;
      if stopped {
        Tick(g(1));
        StopService();
      }
      assert Snap() == PurgePoint(old(Snap()), pw, g);
      PurgeAll(user, pw);
      SyncConfig(today, g(2));
      if stopped { StartService(); }
      Tick(g(3));
    }

    method ReleasePassword(pw: Password)
      modifies this`registry, this`copies, this`carried
      ensures Snap() == Release(old(Snap()), pw)
    {
      if pw != "" {
        registry := registry - {pw};
        var _ := PurgeBackups(pw);
        carried := carried - {pw};
      }
    }

    /** The counter purged with the daemon stopped, the configuration rebuilt without the account,
        the password released: nothing keeps it, if the purge finds the mirror not ahead. A daemon that
        was up is up again if somebody is left to serve, whether or not the configuration changed. */
    method DeleteZivpnUser(user: Login, pw: Password, today: Day, g: Gaps)
      requires Valid()
      modifies this
      ensures Snap() == DeleteZivpn(old(Snap()), user, pw, On(today), g)
      ensures Removed(old(Snap()), Snap(), user, pw, On(today), PurgeIsClean(old(Snap()), pw, g))
    {
      RemovedOutcome(Snap(), user, pw, On(today), g);
      PurgeAndApply(user, pw, today, g);
      ReleasePassword(pw);
      Tick(g(4));
    }

    /** `delete_user`: 0 if it found something to delete, 2 if not; `purged` is the password whose
        traces it removed. */
    method DeleteUser(user: Login, today: Day, g: Gaps) returns (code: nat, purged: Password)
      requires Valid()
      modifies this
      ensures code == 0 ==> DeleteTarget(old(Snap()), user, purged)
                            && Snap() == Delete(old(Snap()), user, purged, On(today), g)
      ensures code == 0 ==> Departed(old(Snap()), Snap(), user, purged, On(today),
                                     PurgeIsClean(old(Snap()).(users := old(users) - {user}), purged, g))
      ensures code != 0 ==> code == 2 && Snap() == old(Snap()) && forall pw :: !DeleteTarget(old(Snap()), user, pw)
    {
      var zivpn := true;
      if user in users {
        zivpn := users[user].proto.Zivpn?;
        purged := users[user].pass;
      } else {
        var found;
        found, purged := FindOrphan(user);
        if !found { return 2, ""; }
      }
      DeleteOutcome(Snap(), user, purged, On(today), g);
      users := users - {user};
      if zivpn { DeleteZivpnUser(user, purged, today, g); }
      code := 0;
    }

    // ---- change password ----

    /** `change_password`: the password the account has afterwards. Refused, it changes nothing. */
    method ChangeUserPassword(user: Login, to: Password, today: Day, g: Gaps) returns (pw: Password)
      requires Valid()
      modifies this
      ensures Snap() == ChangePassword(old(Snap()), user, to, On(today), g)
      ensures pw == if user in users then users[user].pass else ""
      ensures if user in old(users) then Changed(old(Snap()), Snap(), user, to, On(today)) else Snap() == old(Snap())
    {
      if user !in users { return ""; }
      ChangeOutcome(Snap(), user, to, On(today), g);
      var a := users[user];
      var was := a.pass;
      users := users[user := a.(pass := to)];
      if !a.proto.Zivpn? || was == to {
        assert was == to ==> users == old(users);
        return to;
      }
      var used := PasswordInUse(to, Zivpn, user);
      OwnPasswordDoesNotCount(old(users), user, to);
      if used || to in registry {
        users := users[user := a];
        assert users == old(users);
        return was;
      }
      MoveCounter(was, to, today, g);
      pw := to;
    }

    /** The old key's counter moved to the new one with the daemon stopped, the old key forgotten
        everywhere, and the configuration rebuilt. */
    method MoveCounter(was: Password, to: Password, today: Day, g: Gaps)
      requires Valid()
      modifies this`files, this`copies, this`registry, this`config, this`daemon, this`carried
      ensures Snap() == Remeasured(old(Snap()), was, to, On(today), g)
    {
      var active := daemon.Running?;
      if active {
        Tick(g(0));
        StopService();
      }
      RewriteKey(was, to);
      SyncConfig(today, g(1));
      if active { StartService(); }
      Tick(g(2));
    }

    method RewriteKey(was: Password, to: Password)
      modifies this`files, this`copies, this`registry, this`carried
      ensures Snap() == Migrated(old(Snap()), was, to)
    {
      var _ := MigrateKey(was, to);
      registry := registry + {to};
      var _ := PurgeBackups(was);
      if was != "" { registry := registry - {was}; }
      carried := carried[to := if was in carried then carried[was] else 0] - {was};
    }

    // ---- renew, quota, locks ----

    /** `renew_user`: the account runs to the new date under its old quota, the daemon told of it. */
    method RenewUser(user: Login, exp: Day, today: Day, g: Gaps) returns (code: nat)
      requires Valid()
      modifies this
      ensures Snap() == Renew(old(Snap()), user, exp, On(today), g)
      ensures code == if user in old(users) then 0 else 2
      ensures user in old(users) ==> Extended(old(Snap()), Snap(), user, exp, On(today))
    {
      if user in users { RenewOutcome(Snap(), user, exp, On(today), g); }
      if user !in users { return 2; }
      var a := users[user].(exp := Expiry.On(exp));
      if XrayLike(a.proto) {
        if a.locked && (a.expLock || a.quotaHit) { a := a.(expLock := false, quotaHit := false, locked := false); }
      } else if a.proto.Zivpn? || a.proto.Hysteria? {
        if a.locked && a.expLock { a := a.(expLock := false, locked := false); }
      } else if a.proto.Ssh? {
        if a.expLock { a := a.(locked := false, expLock := false); }
      }
      users := users[user := a];
      if a.proto.Zivpn? { SyncConfig(today, g(0)); }
      return 0;
    }

    /** `set_user_quota`: the new quota, and no lock the old one set. */
    method SetUserQuota(user: Login, text: string, today: Day, g: Gaps) returns (ok: bool)
      requires Valid()
      modifies this
      ensures Snap() == SetQuota(old(Snap()), user, ReadLimit(text), On(today), g)
      ensures ok == (user in old(users))
      ensures user in old(users) ==> Requotaed(old(Snap()), Snap(), user, ReadLimit(text), On(today))
    {
      if user in users { SetQuotaOutcome(Snap(), user, ReadLimit(text), On(today), g); }
      if user !in users { return false; }
      var a := users[user].(quota := ReadLimit(text));
      if !a.proto.Shadow? && a.quotaHit { a := a.(quotaHit := false, locked := false); }
      users := users[user := a];
      if a.proto.Zivpn? {
        QuarantineRemove(user);
        SyncConfig(today, g(0));
      }
      return true;
    }

    /** `lock_user`: the account is locked out of the daemon, and nobody else is touched. */
    method LockUser(user: Login, today: Day, g: Gaps) returns (code: nat)
      requires Valid()
      modifies this
      ensures Snap() == Lock(old(Snap()), user, On(today), g)
      ensures code == if user in old(users) then 0 else 2
      ensures user in old(users) ==> LockedOut(old(Snap()), Snap(), user, On(today))
    {
      if user in users { LockOutcome(Snap(), user, On(today), g); }
      if user !in users { return 2; }
      users := users[user := users[user].(locked := true)];
      if users[user].proto.Zivpn? {
        QuarantineAdd(user);
        SyncConfig(today, g(0));
      }
      return 0;
    }

    /** `unlock_user`: the account is open, and let in by the daemon unless it has expired. */
    method UnlockUser(user: Login, today: Day, g: Gaps) returns (code: nat)
      requires Valid()
      modifies this
      ensures Snap() == Unlock(old(Snap()), user, On(today), g)
      ensures code == if user in old(users) then 0 else 2
      ensures user in old(users) ==> LetIn(old(Snap()), Snap(), user, On(today))
    {
      if user in users { UnlockOutcome(Snap(), user, On(today), g); }
      if user !in users { return 2; }
      users := users[user := users[user].(locked := false)];
      if users[user].proto.Zivpn? {
        QuarantineRemove(user);
        SyncConfig(today, g(0));
      }
      return 0;
    }

    /** One name of `zivpn_block_users`. */
    method BlockUser(user: Login, reason: Reason) returns (turned: bool)
      modifies this`users, this`quarantine
      ensures Snap() == BlockOne(old(Snap()), user, reason)
      ensures turned == BlocksOne(old(Snap()), user)
    {
      if user !in users || !users[user].proto.Zivpn? { return false; }
      if users[user].locked {
        QuarantineAdd(user);
        return false;
      }
      var a := users[user];
      if reason.OverQuota? { a := a.(quotaHit := true); }
      else if reason.PastExpiry? { a := a.(expLock := true); }
      a := a.(locked := true);
      users := users[user := a];
      QuarantineAdd(user);
      return true;
    }

    /** `zivpn_block_users`: the open zivpn accounts named are locked for the reason given, and counted. */
    method BlockUsers(names: seq<Login>, reason: Reason, today: Day, g: Gaps) returns (blocked: nat)
      requires Valid()
      modifies this
      ensures Snap() == Block(old(Snap()), names, reason, On(today), g)
      ensures BlockedBy(old(users), users, names, reason) && QuarantinedBy(old(Snap()), Snap(), names)
      ensures blocked == |OpenNamed(old(users), names)|
      ensures Serves(old(Snap())) ==> KeepsServing(old(Snap()), Snap(), today)
    {
      BlockOutcome(Snap(), names, reason);
      BatchQuarantines(Snap(), names, reason);
      BatchServes(Snap(), names, reason, On(today), g);
      blocked := 0;
      var i := 0;
      while i < |names|
        invariant 0 <= i <= |names|
        invariant Snap() == BlockAll(old(Snap()), names[..i], reason).state
        invariant blocked == BlockAll(old(Snap()), names[..i], reason).changed
      {
        assert names[..i + 1][..i] == names[..i];
        var turned := BlockUser(names[i], reason);
        if turned { blocked := blocked + 1; }
        i := i + 1;
      }
      assert names[..i] == names;
      if blocked > 0 { SyncConfig(today, g(0)); }
    }

    /** One name of `zivpn_unblock_users`. */
    method UnblockUser(user: Login) returns (freed: bool)
      modifies this`users, this`quarantine
      ensures Snap() == UnblockOne(old(Snap()), user)
      ensures freed == (user in old(users) && old(users)[user].proto.Zivpn?)
    {
      if user !in users {
        QuarantineRemove(user);
        return false;
      }
      var a := users[user];
      if !a.proto.Zivpn? { return false; }
      a := a.(locked := false);
      a := a.(quotaHit := false);
      a := a.(expLock := false);
      users := users[user := a];
      QuarantineRemove(user);
      return true;
    }

    /** `zivpn_unblock_users`: the zivpn accounts named are open with no flag left, and counted. */
    method UnblockUsers(names: seq<Login>, today: Day, g: Gaps) returns (restored: nat)
      requires Valid()
      modifies this
      ensures Snap() == Unblock(old(Snap()), names, On(today), g)
      ensures FreedBy(old(users), users, names)
      ensures restored == |ZivpnPlaces(old(users), names)|
      ensures Serves(old(Snap())) ==> KeepsServing(old(Snap()), Snap(), today)
    {
      UnblockOutcome(Snap(), names);
      BatchServes(Snap(), names, Manual, On(today), g);
      restored := 0;
      var i := 0;
      while i < |names|
        invariant 0 <= i <= |names|
        invariant Snap() == UnblockAll(old(Snap()), names[..i]).state
        invariant restored == UnblockAll(old(Snap()), names[..i]).changed
      {
        assert names[..i + 1][..i] == names[..i];
        var freed := UnblockUser(names[i]);
        if freed { restored := restored + 1; }
        i := i + 1;
      }
      assert names[..i] == names;
      if restored > 0 { SyncConfig(today, g(0)); }
    }

    // ---- traffic and enforcement ----

    /** `_get_zivpn_raw`. */
    method ReadRaw(user: Login) returns (raw: nat)
      requires user in users
      ensures raw == Raw(Snap(), user)
    {
      if !files.main.Doc? { return 0; }
      var used := files.main.body.used;
      var pw := users[user].pass;
      if pw in used { return used[pw]; }
      return if user in used then used[user] else 0;
    }

    /** `get_zivpn_traffic`. */
    method GetTraffic(user: Login) returns (used: nat)
      requires user in users
      modifies this`users
      ensures users == old(users)[user := old(users)[user].(ledger := Poll(old(users)[user].ledger, Raw(old(Snap()), user)))]
      ensures used == Reading(old(users)[user].ledger, Raw(old(Snap()), user))
    {
      var raw := ReadRaw(user);
      var now;
      now, used := ReadTraffic(users[user].ledger, raw);
      users := users[user := users[user].(ledger := now)];
    }

    /** One turn of `_zivpn_sync_usage`. */
    method SyncOne(user: Login)
      requires user in users
      modifies this`users
      ensures users == old(users)[user := SyncedAccount(old(Snap()), user)]
    {
      if users[user].proto.Zivpn? {
        var _ := GetTraffic(user);
      } else {
        assert users == users[user := users[user]];
      }
    }

    /** `_zivpn_sync_usage`. */
    method SyncUsage()
      modifies this`users
      ensures Snap() == Synced(old(Snap()))
    {
      var order := List();
      ghost var was := Snap();
      var i := 0;
      while i < |order|
        invariant 0 <= i <= |order|
        invariant users == SyncedOver(was, order[..i])
      {
        assert order[..i + 1][..i] == order[..i];
        NotYetSynced(was, order, i);
        SameSync(was, Snap(), order[i]);
        SyncOne(order[i]);
        i := i + 1;
      }
      assert order[..i] == order;
      SyncedOverAll(was, order);
    }

    /** The SSH branch of the pass. */
    method EnforceSsh(user: Login, used: nat, today: Day) returns (blocks: bool, restores: bool)
      requires user in users && users[user].proto.Ssh?
      modifies this`users
      ensures users == old(users)[user := Judged(old(users)[user], today, used)]
      ensures blocks == Blocks(old(users)[user], users[user]) && restores == Restores(old(users)[user], users[user])
    {
      var a := users[user];
      var expired := Expired(a.exp, today);
      var q := a.quota.panel;
      blocks, restores := false, false;
      if expired {
        if !a.locked { a := a.(locked := true, expLock := true); blocks := true; }
      } else if q > 0.0 && used as real >= q * GIB {
        if !a.locked { a := a.(quotaHit := true, locked := true); blocks := true; }
      } else if a.locked && a.quotaHit && !expired && (q <= 0.0 || (used as real) < q * GIB) {
        a := a.(quotaHit := false, locked := false);
        restores := true;
      }
      users := users[user := a];
    }

    /** The VMess/VLESS/Trojan branch, and the V2Ray-DNS one. */
    method EnforceXray(user: Login, used: nat, today: Day) returns (blocks: bool, restores: bool)
      requires user in users && XrayLike(users[user].proto)
      modifies this`users
      ensures users == old(users)[user := Judged(old(users)[user], today, used)]
      ensures blocks == Blocks(old(users)[user], users[user]) && restores == Restores(old(users)[user], users[user])
    {
      var a := users[user];
      var expired := Expired(a.exp, today);
      var q := a.quota.panel;
      blocks, restores := false, false;
      if expired || (q > 0.0 && used as real >= q * GIB) {
        if !a.locked { a := a.(locked := true, quotaHit := true); blocks := true; }
      } else if a.locked && a.quotaHit && !expired && (q <= 0.0 || (used as real) < q * GIB) {
        a := a.(locked := false, quotaHit := false);
        restores := true;
      }
      users := users[user := a];
    }

    /** The zivpn branch, and the hysteria one, which leaves the quarantine alone. */
    method EnforceTunnel(user: Login, used: nat, today: Day) returns (blocks: bool, restores: bool)
      requires user in users && (users[user].proto.Zivpn? || users[user].proto.Hysteria?)
      modifies this`users, this`quarantine
      ensures users == old(users)[user := Judged(old(users)[user], today, used)]
      ensures blocks == Blocks(old(users)[user], users[user]) && restores == Restores(old(users)[user], users[user])
      ensures quarantine == AfterVerdict(old(quarantine), user, old(users)[user], users[user])
    {
      var a := users[user];
      var expired := Expired(a.exp, today);
      var q := a.quota.panel;
      blocks, restores := false, false;
      if expired {
        if !a.locked {
          a := a.(locked := true, expLock := true);
          if a.proto.Zivpn? { QuarantineAdd(user); }
          blocks := true;
        }
      } else if q > 0.0 {
        if used as real >= q * GIB {
          if !a.locked {
            a := a.(quotaHit := true, locked := true);
            if a.proto.Zivpn? { QuarantineAdd(user); }
            blocks := true;
          }
        }
      }
      if a.locked && a.quotaHit && !expired {
        if q <= 0.0 || (used as real) < q * GIB {
          a := a.(quotaHit := false, locked := false);
          if a.proto.Zivpn? { QuarantineRemove(user); }
          restores := true;
        }
      }
      users := users[user := a];
    }

    /** One turn of the loop of `quota_enforce`, on an account whose ledger has just been polled. */
    method EnforceOne(user: Login, meter: Login -> nat, today: Day) returns (blocks: bool, restores: bool, dirty: bool)
      requires user in users
      requires users[user].proto.Zivpn? ==> UpToDate(users[user].ledger, Raw(Snap(), user))
      modifies this`users, this`quarantine
      ensures users == old(users)[user := Judged(old(users)[user], today, Usage(old(Snap()), meter, user))]
      ensures blocks == Blocks(old(users)[user], users[user]) && restores == Restores(old(users)[user], users[user])
      ensures dirty == (old(users)[user].proto.Zivpn? && (blocks || restores))
      ensures quarantine == AfterVerdict(old(quarantine), user, old(users)[user], users[user])
    {
      blocks, restores, dirty := false, false, false;
      var proto := users[user].proto;
      if proto.Ssh? {
        blocks, restores := EnforceSsh(user, meter(user), today);
      } else if XrayLike(proto) {
        blocks, restores := EnforceXray(user, meter(user), today);
      } else if proto.Zivpn? {
        var used := GetTraffic(user);
        assert users == old(users);
        blocks, restores := EnforceTunnel(user, used, today);
        dirty := blocks || restores;
      } else if proto.Hysteria? {
        blocks, restores := EnforceTunnel(user, meter(user), today);
      } else {
        assert users == old(users)[user := old(users)[user]];
      }
    }

    /** The counts and the flag brought up to date with one account's verdict. */
    method CountOne(user: Login, meter: Login -> nat, today: Day, b: nat, r: nat, d: bool, ghost verdict: Account)
      returns (blocked: nat, restored: nat, dirty: bool)
      requires user in users
      requires users[user].proto.Zivpn? ==> UpToDate(users[user].ledger, Raw(Snap(), user))
      requires verdict == Judged(users[user], today, Usage(Snap(), meter, user))
      modifies this`users, this`quarantine
      ensures Tally(users, quarantine, blocked, restored, dirty)
              == Tallied(Tally(old(users), old(quarantine), b, r, d), user, verdict)
    {
      var blocks, restores, turned := EnforceOne(user, meter, today);
      blocked := if blocks then b + 1 else b;
      restored := if restores then r + 1 else r;
      dirty := d || turned;
    }

    /** The loop of `quota_enforce`: the accounts judged one by one in directory order. */
    method JudgeAll(order: seq<Login>, meter: Login -> nat, today: Day)
      returns (blocked: nat, restored: nat, dirty: bool)
      requires Listing(order, users)
      requires forall u :: u in users && users[u].proto.Zivpn? ==> UpToDate(users[u].ledger, Raw(Snap(), u))
      modifies this`users, this`quarantine
      ensures Tally(users, quarantine, blocked, restored, dirty)
              == TalliedOver(old(users), JudgedUsers(old(Snap()), today, meter), old(quarantine), order)
    {
      ghost var was := Snap();
      ghost var judged := JudgedUsers(was, today, meter);
      blocked, restored, dirty := 0, 0, false;
      var i := 0;
      while i < |order|
        invariant 0 <= i <= |order|
        invariant Tally(users, quarantine, blocked, restored, dirty)
                  == TalliedOver(was.users, judged, was.quarantine, order[..i])
      {
        assert order[..i + 1][..i] == order[..i];
        NotYetJudged(was, judged, order, i);
        SameUsage(was, Snap(), meter, order[i]);
        blocked, restored, dirty := CountOne(order[i], meter, today, blocked, restored, dirty, judged[order[i]]);
        i := i + 1;
      }
      assert order[..i] == order;
    }

    /** `quota_enforce`: the ledgers polled, every account judged, and the configuration rebuilt
        once if some zivpn lock changed. */
    method QuotaEnforce(order: seq<Login>, meter: Login -> nat, today: Day, g: Gaps) returns (blocked: nat,
                        restored: nat)
      requires Valid() && Listing(order, users)
      modifies this
      ensures Snap() == Enforce(old(Snap()), order, meter, On(today), g)
      ensures blocked == |TurnedOn(Synced(old(Snap())).users, users, order)|
      ensures restored == |TurnedOff(Synced(old(Snap())).users, users, order)|
      ensures Serves(old(Snap())) ==> KeepsServing(old(Snap()), Snap(), today)
    {
      if Serves(Snap()) { PassServes(Snap(), order, meter, On(today), g); }
      SyncUsage();
      SyncBringsUpToDate(old(Snap()));
      ghost var was := Snap();
      var dirty;
      blocked, restored, dirty := JudgeAll(order, meter, today);
      TallyOfAll(was.users, JudgedUsers(was, today, meter), was.quarantine, order);
      if dirty { SyncConfig(today, g(0)); }
    }

    // ---- the guard ----

    /** `_zivpn_registry_add`. */
    method RegistryAdd(pw: Password) returns (added: bool)
      modifies this`registry
      ensures added <==> pw != "" && pw !in old(registry)
      ensures registry == old(registry) + (if pw == "" then {} else {pw})
    {
      if pw == "" || pw in registry { return false; }
      registry := registry + {pw};
      return true;
    }

    /** `_zivpn_registry_seed`, the directory listed in this order. */
    method SeedListed(order: seq<Login>)
      requires forall i :: 0 <= i < |order| ==> order[i] in users
      modifies this`registry
      ensures registry == old(registry) + LiveIn(users, order)
    {
      var i := 0;
      while i < |order|
        invariant 0 <= i <= |order|
        invariant registry == old(registry) + LiveIn(users, order[..i])
      {
        assert order[..i + 1][..i] == order[..i];
        var a := users[order[i]];
        if a.proto.Zivpn? { var _ := RegistryAdd(a.pass); }
        i := i + 1;
      }
      assert order[..i] == order;
    }

    /** `_zivpn_registry_seed`. */
    method RegistrySeed()
      modifies this`registry
      ensures Snap() == Seeded(old(Snap()))
    {
      var order := List();
      LiveAll(users, order);
      SeedListed(order);
    }

    /** What the guard repairs before it looks at the configuration. */
    method Repair()
      modifies this`registry, this`users, this`files
      ensures Snap() == RestoredIfCorrupt(Synced(Seeded(old(Snap()))))
    {
      RegistrySeed();
      SyncUsage();
      if files.main.Corrupt? { StateRestore(); }
    }

    /** `zivpn_quota_guard`: the verdict due, and with the daemon up everything the guard is for. */
    method QuotaGuard(today: Day, cooling: bool, alive: bool, placeholder: Password, g: Gaps) returns (verdict: Verdict)
      requires Valid()
      modifies this
      ensures Guarded(Snap(), verdict) == Guard(old(Snap()), On(today), cooling, alive, placeholder, g)
      ensures Guards(old(Snap()), Guarded(Snap(), verdict), On(today), cooling, alive)
    {
      GuardOutcome(Snap(), On(today), cooling, alive, placeholder, g);
      if config.NoConfig? { return ZivpnAbsent; }
      if daemon.Stopped? {
        StartService();
        if daemon.Stopped? { return StartFailed; }
      }
      var want := FoldExpected(today);
      SameQuotas(Snap(), On(today));
      Repair();
      verdict := Check(want, today, cooling, alive, placeholder, g);
    }

    /** Whether the daemon's configuration is not the one derived from the accounts. */
    method Drifted(want: map<Password, real>, today: Day) returns (drift: bool)
      requires want == QuotaMap(users, today, fmt)
      ensures drift == Drift(Snap(), On(today))
    {
      if !config.Cfg? { return true; }
      var pws := Passwords(Zivpn, today);
      drift := config.quota != want || config.auth != multiset(pws);
    }

    /** An empty auth list with nobody to serve gets a password nobody knows. */
    method PadIfEmpty(today: Day, placeholder: Password, gap: seq<Act>)
      requires Valid()
      modifies this
      ensures Snap() ==
              if old(config.Cfg? && config.auth == multiset{} && ActivePasswords(users, Zivpn, today) == {})
              then Padded(old(Snap()), placeholder, gap) else old(Snap())
    {
      if config.Cfg? && config.auth == multiset{} {
        var pws := Passwords(Zivpn, today);
        if pws == {} {
          config := config.(auth := multiset{placeholder});
          Tick(gap);
          StopService();
          StartService();
        }
      }
    }

    /** The guard's checks, against the quota map it computed first. */
    method Check(want: map<Password, real>, today: Day, cooling: bool, alive: bool, placeholder: Password, g: Gaps)
      returns (verdict: Verdict)
      requires Valid() && want == QuotaMap(users, today, fmt)
      modifies this
      ensures Guarded(Snap(), verdict) == GuardChecks(old(Snap()), On(today), cooling, alive, placeholder, g)
    {
      if want == map[] {
        PadIfEmpty(today, placeholder, g(0));
        return NoQuota;
      }
      if cooling { return Cooling; }
      var needApply := Drifted(want, today);
      if !needApply && alive { return InStep; }
      SyncConfig(today, g(0));
      return Repaired;
    }
  }
}
