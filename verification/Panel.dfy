/** The state the panel and the zivpn daemon share, and every operation on it as a function.
    The imperative code is in the class `ControlPanel`, which is proved to compute these. */
module Panel {
  import opened Text
  import opened Quota
  import opened Ledger
  import opened Accounts
  import opened StateFile

  /** `config.json`: the password list (its order never matters to a reader) and the quota map. */
  datatype Config = NoConfig | BadConfig | Cfg(auth: multiset<Password>, quota: map<Password, real>)

  /** The running daemon: its counters, and the quotas and the password list it was started with. */
  datatype Daemon = Stopped | Running(body: Content, auth: multiset<Password>)

  datatype State = State(
    users: Users,
    files: Files,
    copies: seq<Copy>,
    registry: set<Password>,
    quarantine: map<Password, Login>,
    config: Config,
    daemon: Daemon,
    /** Bookkeeping of the model: the bytes metered under a password for its present owner. */
    carried: map<Password, nat>)

  /** The date and the number formatting an operation runs under. */
  datatype Ctx = Ctx(today: Day, fmt: Rounding)

  function CarriedBy(s: State, pw: Password): nat {
    if pw in s.carried then s.carried[pw] else 0
  }

  // ---- the daemon ----

  datatype SaveMode = BothFiles | MainOnly | MirrorOnly

  /** What the daemon may do on its own while it runs. */
  datatype Act = Log(pw: Password, bytes: nat) | Save(mode: SaveMode) | ResetUsage(pw: Password) | ResetAll

  function SavedFiles(f: Files, body: Content, mode: SaveMode): Files {
    match mode
    case BothFiles => Files(Sealed(body), Sealed(body))
    case MainOnly => f.(main := Sealed(body))
    case MirrorOnly => f.(bak := Sealed(body))
  }

  function UsedIn(c: Content, pw: Password): nat {
    if pw in c.used then c.used[pw] else 0
  }

  function Do(s: State, act: Act): State {
    if s.daemon.Stopped? then s
    else
      var c := s.daemon.body;
      match act
      case Log(pw, n) =>
        if pw in c.quotas then
          s.(daemon := s.daemon.(body := c.(used := c.used[pw := UsedIn(c, pw) + n])),
             carried := s.carried[pw := CarriedBy(s, pw) + n])
        else s
      case Save(mode) => s.(files := SavedFiles(s.files, c, mode))
      case ResetUsage(pw) =>
        var d := c.(used := c.used - {pw});
        s.(daemon := s.daemon.(body := d), files := SavedFiles(s.files, d, BothFiles))
      case ResetAll =>
        var d := c.(used := map[]);
        s.(daemon := s.daemon.(body := d), files := SavedFiles(s.files, d, BothFiles))
  }

  function Env(s: State, acts: seq<Act>): State {
    if acts == [] then s else Do(Env(s, acts[..|acts| - 1]), acts[|acts| - 1])
  }

  /** What the daemon does between the steps of an operation: gap 0, gap 1, and so on. */
  type Gaps = nat -> seq<Act>

  /** `systemctl start`. The daemon exits at once on an unreadable config or an empty auth list. */
  function Start(s: State): State {
    if s.daemon.Stopped? && s.config.Cfg? && s.config.auth != multiset{} then
      s.(daemon := Running(Content(Loaded(s.files.main, s.files.bak), s.config.quota), s.config.auth))
    else s
  }

  function Stop(s: State): State {
    s.(daemon := Stopped)
  }

  // ---- the derived configuration ----

  ghost function Derived(users: Users, ctx: Ctx): Config {
    Cfg(multiset(ActivePasswords(users, Zivpn, ctx.today)), QuotaMap(users, ctx.today, ctx.fmt))
  }

  /** `zivpn_apply`: rewrite the config, and restart the daemon only if it changed. */
  ghost function Apply(s: State, ctx: Ctx, gap: seq<Act>): State {
    if !s.config.Cfg? || s.config == Derived(s.users, ctx) then s
    else Start(Stop(Env(s.(config := Derived(s.users, ctx)), gap)))
  }

  // ---- quarantine ----

  function Quarantined(q: map<Password, Login>, user: Login, pw: Password): map<Password, Login> {
    if pw == "" then q else q[pw := user]
  }

  /** `_zivpn_quarantine_remove`: by password if it is one, otherwise by login. */
  function Freed(q: map<Password, Login>, name: string): map<Password, Login> {
    if name in q then q - {name} else map pw | pw in q && q[pw] != name :: q[pw]
  }

  // ---- create ----

  predicate NameChars(name: string) {
    1 <= |name| <= 32
    && forall i :: 0 <= i < |name| ==>
         'a' <= name[i] <= 'z' || 'A' <= name[i] <= 'Z' || '0' <= name[i] <= '9'
         || name[i] == '.' || name[i] == '_' || name[i] == '-'
  }

  /** `valid_name`. The `$` of its pattern also matches before one final newline. */
  predicate ValidName(name: string) {
    NameChars(name) || (name != "" && name[|name| - 1] == '\n' && NameChars(name[..|name| - 1]))
  }

  predicate LoginTaken(users: Users, user: Login) {
    user in users || exists u :: u in users && Lower(u) == Lower(user)
  }

  /** `_proto_password_in_use`. */
  predicate InUse(users: Users, pw: Password, proto: Proto, except: Login) {
    pw != "" && exists u :: u in users && u != except && users[u].proto == proto && users[u].pass == pw
  }

  /** `_zivpn_password_has_residuals`: an unreadable file counts as a trace. */
  predicate HasResiduals(s: State, pw: Password) {
    pw != "" && (s.files.main.Corrupt? || pw in s.files.main.Keys()
                 || s.files.bak.Corrupt? || pw in s.files.bak.Keys() || pw in s.quarantine)
  }

  function NewAccount(proto: Proto, exp: Day, pass: Password, quota: Limit): Account {
    Account(proto, On(exp), pass, quota, false, false, false, EMPTY)
  }

  /** The first of the random passwords that is neither in use nor registered. */
  function FirstFree(s: State, draws: seq<Password>): Password {
    if draws == [] then ""
    else if !InUse(s.users, draws[0], Zivpn, "") && draws[0] !in s.registry then draws[0]
    else FirstFree(s, draws[1..])
  }

  datatype Outcome = Outcome(state: State, code: nat)

  /** The zivpn branch of `create_user` once a password is settled: register, write the meta
      file, apply. */
  ghost function Enrol(s: State, user: Login, pw: Password, exp: Day, quota: Limit, ctx: Ctx, g: Gaps): State {
    Env(Apply(Env(Written(s, user, pw, exp, quota), g(1)), ctx, g(2)), g(3))
  }

  /** The moment the account exists. */
  function Written(s: State, user: Login, pw: Password, exp: Day, quota: Limit): State {
    s.(registry := s.registry + {pw},
       users := s.users[user := NewAccount(Zivpn, exp, pw, quota)],
       carried := s.carried[pw := 0])
  }

  datatype Settled = Settled(state: State, pw: Password)

  /** The password a new zivpn account will get, or "" if it is refused: the one asked for, or the
      first free one of the (five) random `draws`. One that is registered
      though no account has it is released, if no trace of it is found. */
  function Settle(s: State, pass: Password, draws: seq<Password>, g: Gaps): Settled {
    var a := Env(s, g(0));
    if pass != "" then
      if InUse(s.users, pass, Zivpn, "") then Settled(s, "")
      else if pass !in a.registry then Settled(a, pass)
      else if HasResiduals(a, pass) then Settled(a, "")
      else Settled(a.(copies := Purged(a.copies, pass)), pass)
    else if FirstFree(s, draws) == "" then Settled(s, "")
    else Settled(a, FirstFree(s, draws))
  }

  ghost function CreateZivpn(s: State, user: Login, pass: Password, draws: seq<Password>, exp: Day,
                             quota: Limit, ctx: Ctx, g: Gaps): Outcome {
    var t := Settle(s, pass, draws, g);
    if t.pw == "" then Outcome(t.state, 4) else Outcome(Enrol(t.state, user, t.pw, exp, quota, ctx, g), 0)
  }

  /** The `pass` field of the other protocols: none for VMess and VLESS, the UUID for V2Ray-DNS. */
  function InitialPass(proto: Proto, pass: Password, draws: seq<Password>): Password {
    if proto.Vmess? || proto.Vless? then ""
    else if proto.V2rayDns? || pass == "" then if draws == [] then "" else draws[0]
    else pass
  }

  ghost function Create(s: State, proto: Proto, user: Login, pass: Password, draws: seq<Password>, exp: Day,
                        quota: Limit, ctx: Ctx, g: Gaps): Outcome {
    if !ValidName(user) then Outcome(s, 1)
    else if LoginTaken(s.users, user) then Outcome(s, 2)
    else if proto.Zivpn? then CreateZivpn(s, user, pass, draws, exp, quota, ctx, g)
    else
      var pw := InitialPass(proto, pass, draws);
      if proto.Hysteria? && InUse(s.users, pw, Hysteria, "") then Outcome(s, 4)
      else Outcome(s.(users := s.users[user := NewAccount(proto, exp, pw, quota)]), 0)
  }

  // ---- delete ----

  /** An identity without a meta file that `delete_user` still finds: a quarantined login or
      password, or a password with a counter in the main file and no account. */
  predicate Orphan(s: State, user: Login, pw: Password) {
    || (pw in s.quarantine && (user == pw || (s.quarantine[pw] != "" && s.quarantine[pw] == user)))
    || (user == pw && pw in s.files.main.Keys() && pw !in s.quarantine && pw !in Live(s.users))
  }

  /** `pw` is the password `delete_user` purges for `user`. */
  predicate DeleteTarget(s: State, user: Login, pw: Password) {
    if user in s.users then s.users[user].pass == pw else Orphan(s, user, pw)
  }

  /** The daemon is stopped before the purge if it runs and there is something to purge. */
  function PurgePoint(s: State, pw: Password, g: Gaps): State {
    var a := Env(s, g(0));
    if pw != "" && a.daemon.Running? then Stop(Env(a, g(1))) else a
  }

  function Purge(s: State, user: Login, pw: Password): State {
    var q := Freed(s.quarantine, user);
    s.(quarantine := if pw == "" then q else Freed(q, pw), files := Forget(s.files, pw))
  }

  function Unregistered(registry: set<Password>, pw: Password): set<Password> {
    if pw == "" then registry else registry - {pw}
  }

  function Release(s: State, pw: Password): State {
    s.(registry := Unregistered(s.registry, pw), copies := Purged(s.copies, pw),
       carried := if pw == "" then s.carried else s.carried - {pw})
  }

  /** Purged, applied, and started again if it was stopped for the purge. */
  ghost function Redeployed(s: State, user: Login, pw: Password, ctx: Ctx, g: Gaps): State {
    var applied := Apply(Purge(PurgePoint(s, pw, g), user, pw), ctx, g(2));
    Env(if pw != "" && Env(s, g(0)).daemon.Running? then Start(applied) else applied, g(3))
  }

  ghost function DeleteZivpn(s: State, user: Login, pw: Password, ctx: Ctx, g: Gaps): State {
    Env(Release(Redeployed(s, user, pw, ctx, g), pw), g(4))
  }

  ghost function Delete(s: State, user: Login, pw: Password, ctx: Ctx, g: Gaps): State {
    var gone := s.(users := s.users - {user});
    if user in s.users && !s.users[user].proto.Zivpn? then gone else DeleteZivpn(gone, user, pw, ctx, g)
  }

  // ---- change password ----

  /** The registry check and the in-use check. */
  predicate Refused(s: State, user: Login, new_: Password) {
    InUse(s.users, new_, Zivpn, user) || new_ in s.registry
  }

  function Rekeyed(s: State, user: Login, pw: Password): State
    requires user in s.users
  {
    s.(users := s.users[user := s.users[user].(pass := pw)])
  }

  function MigratePoint(s: State, g: Gaps): State {
    if s.daemon.Running? then Stop(Env(s, g(0))) else s
  }

  /** Everything between the daemon's stop and `zivpn_apply`. */
  function Migrated(s: State, old_: Password, new_: Password): State {
    s.(files := Migrate(s.files, old_, new_),
       copies := Purged(s.copies, old_),
       registry := Unregistered(s.registry + {new_}, old_),
       carried := s.carried[new_ := CarriedBy(s, old_)] - {old_})
  }

  /** The daemon stopped, the counter moved, the config rebuilt, the daemon started again. */
  ghost function Remeasured(s: State, old_: Password, new_: Password, ctx: Ctx, g: Gaps): State {
    var applied := Apply(Migrated(MigratePoint(s, g), old_, new_), ctx, g(1));
    Env(if s.daemon.Running? then Start(applied) else applied, g(2))
  }

  ghost function ChangeZivpn(s: State, user: Login, new_: Password, ctx: Ctx, g: Gaps): State
    requires user in s.users
  {
    Remeasured(Rekeyed(s, user, new_), s.users[user].pass, new_, ctx, g)
  }

  ghost function ChangePassword(s: State, user: Login, new_: Password, ctx: Ctx, g: Gaps): State {
    if user !in s.users then s
    else if !s.users[user].proto.Zivpn? then Rekeyed(s, user, new_)
    else if s.users[user].pass == new_ || Refused(s, user, new_) then s
    else ChangeZivpn(s, user, new_, ctx, g)
  }

  // ---- renew, quota, locks ----

  function With(s: State, user: Login, a: Account): State {
    s.(users := s.users[user := a])
  }

  predicate XrayLike(proto: Proto) {
    proto.Vmess? || proto.Vless? || proto.Trojan? || proto.V2rayDns?
  }

  /** The flags `renew_user` clears, by protocol. */
  function RenewedAccount(a: Account, exp: Day): Account {
    var b := a.(exp := On(exp));
    if XrayLike(a.proto) && a.locked && (a.expLock || a.quotaHit) then
      b.(expLock := false, quotaHit := false, locked := false)
    else if (a.proto.Zivpn? || a.proto.Hysteria?) && a.locked && a.expLock then
      b.(expLock := false, locked := false)
    else if a.proto.Ssh? && a.expLock then b.(locked := false, expLock := false)
    else b
  }

  ghost function Renew(s: State, user: Login, exp: Day, ctx: Ctx, g: Gaps): State {
    if user !in s.users then s
    else
      var t := With(s, user, RenewedAccount(s.users[user], exp));
      if s.users[user].proto.Zivpn? then Apply(t, ctx, g(0)) else t
  }

  function RequotaedAccount(a: Account, quota: Limit): Account {
    var b := a.(quota := quota);
    if !a.proto.Shadow? && a.quotaHit then b.(quotaHit := false, locked := false) else b
  }

  ghost function SetQuota(s: State, user: Login, quota: Limit, ctx: Ctx, g: Gaps): State {
    if user !in s.users then s
    else
      var t := With(s, user, RequotaedAccount(s.users[user], quota));
      if s.users[user].proto.Zivpn? then Apply(t.(quarantine := Freed(t.quarantine, user)), ctx, g(0)) else t
  }

  ghost function Lock(s: State, user: Login, ctx: Ctx, g: Gaps): State {
    if user !in s.users then s
    else
      var t := With(s, user, s.users[user].(locked := true));
      if s.users[user].proto.Zivpn? then
        Apply(t.(quarantine := Quarantined(t.quarantine, user, s.users[user].pass)), ctx, g(0))
      else t
  }

  ghost function Unlock(s: State, user: Login, ctx: Ctx, g: Gaps): State {
    if user !in s.users then s
    else
      var t := With(s, user, s.users[user].(locked := false));
      if s.users[user].proto.Zivpn? then Apply(t.(quarantine := Freed(t.quarantine, user)), ctx, g(0)) else t
  }

  datatype Reason = Manual | OverQuota | PastExpiry

  function BlockedAccount(a: Account, reason: Reason): Account {
    match reason
    case Manual => a.(locked := true)
    case OverQuota => a.(locked := true, quotaHit := true)
    case PastExpiry => a.(locked := true, expLock := true)
  }

  /** One name of `zivpn_block_users`. */
  function BlockOne(s: State, user: Login, reason: Reason): State {
    if user !in s.users || !s.users[user].proto.Zivpn? then s
    else
      var a := s.users[user];
      var t := s.(quarantine := Quarantined(s.quarantine, user, a.pass));
      if a.locked then t else With(t, user, BlockedAccount(a, reason))
  }

  predicate BlocksOne(s: State, user: Login) {
    user in s.users && s.users[user].proto.Zivpn? && !s.users[user].locked
  }

  datatype Batch = Batch(state: State, changed: nat)

  function BlockAll(s: State, names: seq<Login>, reason: Reason): Batch {
    if names == [] then Batch(s, 0)
    else
      var n := |names| - 1;
      var b := BlockAll(s, names[..n], reason);
      Batch(BlockOne(b.state, names[n], reason), b.changed + if BlocksOne(b.state, names[n]) then 1 else 0)
  }

  ghost function Block(s: State, names: seq<Login>, reason: Reason, ctx: Ctx, g: Gaps): State {
    var b := BlockAll(s, names, reason);
    if b.changed > 0 then Apply(b.state, ctx, g(0)) else b.state
  }

  /** One name of `zivpn_unblock_users`. */
  function UnblockOne(s: State, user: Login): State {
    if user !in s.users then s.(quarantine := Freed(s.quarantine, user))
    else if !s.users[user].proto.Zivpn? then s
    else
      With(s.(quarantine := Freed(s.quarantine, user)), user,
           s.users[user].(locked := false, quotaHit := false, expLock := false))
  }

  function UnblockAll(s: State, names: seq<Login>): Batch {
    if names == [] then Batch(s, 0)
    else
      var n := |names| - 1;
      var b := UnblockAll(s, names[..n]);
      Batch(UnblockOne(b.state, names[n]),
            b.changed + if names[n] in b.state.users && b.state.users[names[n]].proto.Zivpn? then 1 else 0)
  }

  ghost function Unblock(s: State, names: seq<Login>, ctx: Ctx, g: Gaps): State {
    var b := UnblockAll(s, names);
    if b.changed > 0 then Apply(b.state, ctx, g(0)) else b.state
  }

  // ---- traffic and enforcement ----

  /** `_get_zivpn_raw`: by password, else by login, else 0; an unreadable file reads 0. */
  function Raw(s: State, user: Login): nat
    requires user in s.users
  {
    var f := s.files.main;
    if !f.Doc? then 0
    else if s.users[user].pass in f.body.used then f.body.used[s.users[user].pass]
    else if user in f.body.used then f.body.used[user]
    else 0
  }

  /** `_zivpn_sync_usage`: every zivpn ledger polled. */
  function Synced(s: State): State {
    s.(users := map u | u in s.users ::
         if s.users[u].proto.Zivpn? then s.users[u].(ledger := Poll(s.users[u].ledger, Raw(s, u))) else s.users[u])
  }

  /** The reading enforcement compares: the ledger for zivpn, `meter` (another module's counter,
      taken as given) for the rest. */
  function Usage(s: State, meter: Login -> nat, user: Login): nat
    requires user in s.users
  {
    if s.users[user].proto.Zivpn? then Reading(s.users[user].ledger, Raw(s, user)) else meter(user)
  }

  predicate OverLimit(a: Account, used: nat) {
    a.quota.panel > 0.0 && used as real >= a.quota.panel * GIB
  }

  /** The verdict of one `quota_enforce` pass on one account: each protocol's branch as written. */
  function Judged(a: Account, today: Day, used: nat): Account {
    var expired := Expired(a.exp, today);
    var over := OverLimit(a, used);
    if a.proto.Ssh? then
      if expired then if a.locked then a else a.(locked := true, expLock := true)
      else if over then if a.locked then a else a.(quotaHit := true, locked := true)
      else if a.locked && a.quotaHit then a.(quotaHit := false, locked := false) else a
    else if XrayLike(a.proto) then
      if expired || over then if a.locked then a else a.(locked := true, quotaHit := true)
      else if a.locked && a.quotaHit then a.(locked := false, quotaHit := false) else a
    else if a.proto.Zivpn? || a.proto.Hysteria? then
      var b :=
        if expired then if a.locked then a else a.(locked := true, expLock := true)
        else if over then if a.locked then a else a.(quotaHit := true, locked := true)
        else a;
      if b.locked && b.quotaHit && !expired && !over then b.(quotaHit := false, locked := false) else b
    else a
  }

  function JudgedUsers(s: State, today: Day, meter: Login -> nat): Users {
    map u | u in s.users :: Judged(s.users[u], today, Usage(s, meter, u))
  }

  predicate Blocks(a: Account, b: Account) {
    !a.locked && b.locked
  }

  predicate Restores(a: Account, b: Account) {
    a.locked && !b.locked
  }

  /** The quarantine moves of one pass, in directory order. */
  function PassQuarantine(q: map<Password, Login>, users: Users, judged: Users,
                          order: seq<Login>): map<Password, Login> {
    if order == [] then q
    else
      var n := |order| - 1;
      var r := PassQuarantine(q, users, judged, order[..n]);
      var u := order[n];
      if u !in users || u !in judged || !users[u].proto.Zivpn? then r
      else if Blocks(users[u], judged[u]) then Quarantined(r, u, users[u].pass)
      else if Restores(users[u], judged[u]) then Freed(r, u)
      else r
  }

  /** Some zivpn account changed lock. */
  predicate Dirty(users: Users, judged: Users) {
    exists u :: u in users && u in judged && users[u].proto.Zivpn? && users[u].locked != judged[u].locked
  }

  ghost function Enforce(s: State, order: seq<Login>, meter: Login -> nat, ctx: Ctx, g: Gaps): State {
    var t := Synced(s);
    var judged := JudgedUsers(t, ctx.today, meter);
    var passed := t.(users := judged, quarantine := PassQuarantine(t.quarantine, t.users, judged, order));
    if Dirty(t.users, judged) then Apply(passed, ctx, g(0)) else passed
  }

  // ---- the guard ----

  /** `_zivpn_registry_seed`. */
  function Seeded(s: State): State {
    s.(registry := s.registry + Live(s.users))
  }

  function RestoredIfCorrupt(s: State): State {
    if s.files.main.Corrupt? then s.(files := Restore(s.files, s.copies)) else s
  }

  datatype Verdict = ZivpnAbsent | StartFailed | NoQuota | Cooling | InStep | Repaired

  datatype Guarded = Guarded(state: State, verdict: Verdict)

  /** The drift test: the stored config against the one derived from the accounts. */
  ghost predicate Drift(s: State, ctx: Ctx) {
    s.config.BadConfig? || s.config != Derived(s.users, ctx)
  }

  /** The daemon restarted on an auth list that holds only a placeholder: it exits on an empty one. */
  function Padded(s: State, placeholder: Password, gap: seq<Act>): State
    requires s.config.Cfg?
  {
    Start(Stop(Env(s.(config := s.config.(auth := multiset{placeholder})), gap)))
  }

  /** The guard once the daemon is up, the registry seeded, the ledgers polled and a damaged
      counter file restored. */
  ghost function GuardChecks(t: State, ctx: Ctx, cooling: bool, alive: bool, placeholder: Password, g: Gaps): Guarded {
    if QuotaMap(t.users, ctx.today, ctx.fmt) == map[] then
      if t.config.Cfg? && t.config.auth == multiset{} && ActivePasswords(t.users, Zivpn, ctx.today) == {} then
        Guarded(Padded(t, placeholder, g(0)), NoQuota)
      else Guarded(t, NoQuota)
    else if cooling then Guarded(t, Cooling)
    else if !Drift(t, ctx) && alive then Guarded(t, InStep)
    else Guarded(Apply(t, ctx, g(0)), Repaired)
  }

  /** `zivpn_quota_guard`. `cooling`: less than ten minutes since the last repair. `alive`: the
      state file is fresh. `placeholder`: the random password put in an empty auth list. */
  ghost function Guard(s: State, ctx: Ctx, cooling: bool, alive: bool, placeholder: Password, g: Gaps): Guarded {
    if s.config.NoConfig? then Guarded(s, ZivpnAbsent)
    else if Start(s).daemon.Stopped? then Guarded(Start(s), StartFailed)
    else GuardChecks(RestoredIfCorrupt(Synced(Seeded(Start(s)))), ctx, cooling, alive, placeholder, g)
  }
}
