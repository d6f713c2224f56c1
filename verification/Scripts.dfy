/** Every operation of the panel as a script of small steps. */
module Scripts {
  import opened Quota
  import opened Ledger
  import opened Accounts
  import opened StateFile
  import opened Panel
  import opened Attribution
  import opened Enforcement
  import opened Runs
  import opened Steps

  /** The panel's writes, the daemon's own steps, stops and starts: nobody's key is touched. */
  predicate PlainStep(e: Small) {
    e.Acts? || e.Halt? || e.Boot? || e.Recover? || e.Shelve? || e.Cleanse? || e.Desk?
  }

  predicate Plain(script: Script) {
    match script
    case Nothing => true
    case One(e) => PlainStep(e)
    case Both(a, b) => Plain(a) && Plain(b)
  }

  lemma PlainBoth(a: Script, b: Script)
    requires Plain(a) && Plain(b)
    ensures Plain(Both(a, b))
  {
  }

  lemma PlainTwo(a: Small, b: Small)
    requires PlainStep(a) && PlainStep(b)
    ensures Plain(Both(One(a), One(b)))
  {
    assert Plain(One(a)) && Plain(One(b));
  }

  lemma RanTwo(s: State, a: Small, b: Small)
    ensures Ran(s, Both(One(a), One(b))) == Did(Did(s, a), b)
  {
    assert Ran(s, One(a)) == Did(s, a) && Ran(Did(s, a), One(b)) == Did(Did(s, a), b);
  }

  lemma RanBoth(s: State, a: Script, b: Script)
    ensures Ran(s, Both(a, b)) == Ran(Ran(s, a), b)
  {
  }

  /** The script takes an account from the key `k` to the key `j`, and damages no file. */
  predicate Carries(s: State, script: Script, k: Password, j: Password) {
    Spares(s, script, k) && Follow(script, k) == j && Undamaged(script)
  }

  lemma CarriesOne(s: State, e: Small, k: Password)
    requires SparesStep(s, e, k) && !e.Damage?
    ensures Carries(s, One(e), k, Followed(e, k))
  {
  }

  lemma CarriesBoth(s: State, a: Script, b: Script, k: Password, i: Password, j: Password)
    requires Carries(s, a, k, i) && Carries(Ran(s, a), b, i, j)
    ensures Carries(s, Both(a, b), k, j)
  {
  }

  lemma {:induction false} PlainCarries(s: State, script: Script, k: Password)
    requires Plain(script)
    ensures Carries(s, script, k, k)
    decreases script
  {
    match script
    case Nothing =>
    case One(e) => CarriesOne(s, e, k);
    case Both(a, b) =>
      PlainCarries(s, a, k);
      PlainCarries(Ran(s, a), b, k);
      CarriesBoth(s, a, b, k, k, k);
  }

  // ---- apply ----

  ghost function Reconfigured(s: State, ctx: Ctx): State {
    s.(config := Derived(s.users, ctx))
  }

  ghost function ApplyScript(s: State, ctx: Ctx, gap: seq<Act>): Script {
    if !s.config.Cfg? || s.config == Derived(s.users, ctx) then Nothing
    else Both(Both(One(DeskOf(Reconfigured(s, ctx))), One(Acts(gap))), Both(One(Halt), One(Boot)))
  }

  lemma RanFour(s: State, a: Small, b: Small, c: Small, d: Small)
    requires PlainStep(a) && PlainStep(b) && PlainStep(c) && PlainStep(d)
    ensures var script := Both(Both(One(a), One(b)), Both(One(c), One(d)));
            Ran(s, script) == Did(Did(Did(Did(s, a), b), c), d) && Plain(script)
  {
    RanTwo(s, a, b);
    RanTwo(Did(Did(s, a), b), c, d);
    PlainTwo(a, b);
    PlainTwo(c, d);
  }

  lemma ApplyRan(s: State, ctx: Ctx, gap: seq<Act>)
    ensures Ran(s, ApplyScript(s, ctx, gap)) == Apply(s, ctx, gap) && Plain(ApplyScript(s, ctx, gap))
  {
    if s.config.Cfg? && s.config != Derived(s.users, ctx) {
      var r := Reconfigured(s, ctx);
      RanFour(s, DeskOf(r), Acts(gap), Halt, Boot);
      DeskGives(s, r);
    }
  }

  ghost predicate SameCounters(s: State, t: State) {
    t.files == s.files && t.copies == s.copies && t.daemon == s.daemon && t.carried == s.carried
  }

  /** The panel's writes, and an apply if one follows. */
  ghost function WriteScript(t: State, applies: bool, ctx: Ctx, gap: seq<Act>): Script {
    Both(One(DeskOf(t)), if applies then ApplyScript(t, ctx, gap) else Nothing)
  }

  lemma WriteRan(s: State, t: State, applies: bool, ctx: Ctx, gap: seq<Act>)
    requires SameCounters(s, t)
    ensures Ran(s, WriteScript(t, applies, ctx, gap)) == if applies then Apply(t, ctx, gap) else t
    ensures Plain(WriteScript(t, applies, ctx, gap))
  {
    DeskGives(s, t);
    ApplyRan(t, ctx, gap);
    assert Ran(s, One(DeskOf(t))) == t && Plain(One(DeskOf(t))) && Plain(Nothing);
    PlainBoth(One(DeskOf(t)), if applies then ApplyScript(t, ctx, gap) else Nothing);
  }

  // ---- edits and passes ----

  datatype Written = Written(state: State, applies: bool)

  /** What an edit writes, and whether it applies. */
  function EditWrites(s: State, op: Op): (w: Written)
    requires Edits(op)
  {
    match op
    case OpRenew(user, exp) =>
      if user !in s.users then Written(s, false)
      else Written(With(s, user, RenewedAccount(s.users[user], exp)), s.users[user].proto.Zivpn?)
    case OpSetQuota(user, quota) =>
      if user !in s.users then Written(s, false)
      else
        var t := With(s, user, RequotaedAccount(s.users[user], quota));
        if s.users[user].proto.Zivpn? then Written(t.(quarantine := Freed(t.quarantine, user)), true)
        else Written(t, false)
    case OpLock(user) =>
      if user !in s.users then Written(s, false)
      else
        var t := With(s, user, s.users[user].(locked := true));
        if s.users[user].proto.Zivpn? then
          Written(t.(quarantine := Quarantined(t.quarantine, user, s.users[user].pass)), true)
        else Written(t, false)
    case OpUnlock(user) =>
      if user !in s.users then Written(s, false)
      else
        var t := With(s, user, s.users[user].(locked := false));
        if s.users[user].proto.Zivpn? then Written(t.(quarantine := Freed(t.quarantine, user)), true)
        else Written(t, false)
    case OpBlock(names, reason) =>
      var b := BlockAll(s, names, reason); Written(b.state, b.changed > 0)
    case OpUnblock(names) =>
      var b := UnblockAll(s, names); Written(b.state, b.changed > 0)
  }

  lemma EditWritesNoCounter(s: State, op: Op)
    requires Edits(op)
    ensures SameCounters(s, EditWrites(s, op).state)
  {
    match op
    case OpBlock(names, reason) => BlockSameStores(s, names, reason);
    case OpUnblock(names) => UnblockSameStores(s, names);
    case _ =>
  }

  ghost function EditScript(s: State, m: Move): Script
    requires Edits(m.op)
  {
    WriteScript(EditWrites(s, m.op).state, EditWrites(s, m.op).applies, m.ctx, m.g(0))
  }

  lemma EditRan(s: State, m: Move)
    requires Edits(m.op)
    ensures Ran(s, EditScript(s, m)) == Edited(s, m) && Plain(EditScript(s, m))
  {
    EditWritesNoCounter(s, m.op);
    WriteRan(s, EditWrites(s, m.op).state, EditWrites(s, m.op).applies, m.ctx, m.g(0));
  }

  ghost function EnforceScript(s: State, order: seq<Login>, meter: Login -> nat, ctx: Ctx, g: Gaps): Script {
    var p := Passed(s, order, meter, ctx.today);
    WriteScript(p, Dirty(Synced(s).users, p.users), ctx, g(0))
  }

  lemma EnforceRan(s: State, order: seq<Login>, meter: Login -> nat, ctx: Ctx, g: Gaps)
    ensures Ran(s, EnforceScript(s, order, meter, ctx, g)) == Enforce(s, order, meter, ctx, g)
    ensures Plain(EnforceScript(s, order, meter, ctx, g))
  {
    var p := Passed(s, order, meter, ctx.today);
    WriteRan(s, p, Dirty(Synced(s).users, p.users), ctx, g(0));
  }

  // ---- the guard ----

  ghost function PadScript(t: State, placeholder: Password, gap: seq<Act>): Script
    requires t.config.Cfg?
  {
    var padded := t.(config := t.config.(auth := multiset{placeholder}));
    Both(Both(One(DeskOf(padded)), One(Acts(gap))), Both(One(Halt), One(Boot)))
  }

  lemma PadRan(t: State, placeholder: Password, gap: seq<Act>)
    requires t.config.Cfg?
    ensures Ran(t, PadScript(t, placeholder, gap)) == Padded(t, placeholder, gap)
    ensures Plain(PadScript(t, placeholder, gap))
  {
    var padded := t.(config := t.config.(auth := multiset{placeholder}));
    RanFour(t, DeskOf(padded), Acts(gap), Halt, Boot);
    DeskGives(t, padded);
  }

  ghost function ChecksScript(t: State, ctx: Ctx, cooling: bool, alive: bool, placeholder: Password, g: Gaps): Script {
    if QuotaMap(t.users, ctx.today, ctx.fmt) == map[] then
      if t.config.Cfg? && t.config.auth == multiset{} && ActivePasswords(t.users, Zivpn, ctx.today) == {} then
        PadScript(t, placeholder, g(0))
      else Nothing
    else if cooling || (!Drift(t, ctx) && alive) then Nothing
    else ApplyScript(t, ctx, g(0))
  }

  lemma ChecksRan(t: State, ctx: Ctx, cooling: bool, alive: bool, placeholder: Password, g: Gaps)
    ensures Ran(t, ChecksScript(t, ctx, cooling, alive, placeholder, g))
            == GuardChecks(t, ctx, cooling, alive, placeholder, g).state
    ensures Plain(ChecksScript(t, ctx, cooling, alive, placeholder, g))
  {
    ApplyRan(t, ctx, g(0));
    if t.config.Cfg? { PadRan(t, placeholder, g(0)); }
  }

  /** The daemon started, the registry seeded and the ledgers polled, a damaged file restored. */
  function SeedScript(s: State): Script {
    var t := Synced(Seeded(Start(s)));
    Both(Both(One(Boot), One(DeskOf(t))), if t.files.main.Corrupt? then One(Recover) else Nothing)
  }

  lemma SeedRan(s: State)
    ensures Ran(s, SeedScript(s)) == RestoredIfCorrupt(Synced(Seeded(Start(s)))) && Plain(SeedScript(s))
  {
    var t := Synced(Seeded(Start(s)));
    DeskGives(Start(s), t);
    RanTwo(s, Boot, DeskOf(t));
    PlainTwo(Boot, DeskOf(t));
    assert Plain(if t.files.main.Corrupt? then One(Recover) else Nothing);
  }

  ghost function GuardScript(s: State, ctx: Ctx, cooling: bool, alive: bool, placeholder: Password, g: Gaps): Script {
    if s.config.NoConfig? then Nothing
    else if Start(s).daemon.Stopped? then One(Boot)
    else
      Both(SeedScript(s),
           ChecksScript(RestoredIfCorrupt(Synced(Seeded(Start(s)))), ctx, cooling, alive, placeholder, g))
  }

  lemma GuardRan(s: State, ctx: Ctx, cooling: bool, alive: bool, placeholder: Password, g: Gaps)
    ensures Ran(s, GuardScript(s, ctx, cooling, alive, placeholder, g)) == Guard(s, ctx, cooling, alive, placeholder, g).state
    ensures Plain(GuardScript(s, ctx, cooling, alive, placeholder, g))
  {
    SeedRan(s);
    assert Plain(One(Boot));
    ChecksRan(RestoredIfCorrupt(Synced(Seeded(Start(s)))), ctx, cooling, alive, placeholder, g);
  }

  // ---- create ----

  predicate SettleTicks(s: State, pass: Password, draws: seq<Password>) {
    if pass != "" then !InUse(s.users, pass, Zivpn, "") else FirstFree(s, draws) != ""
  }

  /** A registered password without a trace is taken off the copies. */
  predicate SettlePurges(s: State, pass: Password, g: Gaps) {
    var a := Env(s, g(0));
    pass != "" && !InUse(s.users, pass, Zivpn, "") && pass in a.registry && !HasResiduals(a, pass)
  }

  function SettleScript(s: State, pass: Password, draws: seq<Password>, g: Gaps): Script {
    Both(if SettleTicks(s, pass, draws) then One(Acts(g(0))) else Nothing,
         if SettlePurges(s, pass, g) then One(Cleanse(pass)) else Nothing)
  }

  lemma SettleRan(s: State, pass: Password, draws: seq<Password>, g: Gaps)
    ensures Ran(s, SettleScript(s, pass, draws, g)) == Settle(s, pass, draws, g).state
    ensures Plain(SettleScript(s, pass, draws, g))
  {
    var tick := if SettleTicks(s, pass, draws) then One(Acts(g(0))) else Nothing;
    var purge := if SettlePurges(s, pass, g) then One(Cleanse(pass)) else Nothing;
    var a := if SettleTicks(s, pass, draws) then Env(s, g(0)) else s;
    assert Ran(s, tick) == a && Plain(tick) && Plain(purge);
    RanBoth(s, tick, purge);
    PlainBoth(tick, purge);
  }

  /** The account enters: its bytes are counted from here. */
  function EnterScript(t: State, user: Login, pw: Password, exp: Day, quota: Limit): Script {
    Both(One(Fresh(pw)), One(DeskOf(Panel.Written(t, user, pw, exp, quota))))
  }

  ghost function EnrolScript(s: State, user: Login, pw: Password, exp: Day, quota: Limit, ctx: Ctx, g: Gaps): Script {
    var w := Panel.Written(s, user, pw, exp, quota);
    Both(Both(EnterScript(s, user, pw, exp, quota), One(Acts(g(1)))),
         Both(ApplyScript(Env(w, g(1)), ctx, g(2)), One(Acts(g(3)))))
  }

  lemma EnterRan(s: State, user: Login, pw: Password, exp: Day, quota: Limit)
    ensures Ran(s, EnterScript(s, user, pw, exp, quota)) == Panel.Written(s, user, pw, exp, quota)
    ensures forall k :: k != pw ==> Carries(s, EnterScript(s, user, pw, exp, quota), k, k)
  {
    var w := Panel.Written(s, user, pw, exp, quota);
    RanTwo(s, Fresh(pw), DeskOf(w));
    DeskGives(Did(s, Fresh(pw)), w);
    forall k | k != pw ensures Carries(s, EnterScript(s, user, pw, exp, quota), k, k) {
      CarriesOne(s, Fresh(pw), k);
      CarriesOne(Did(s, Fresh(pw)), DeskOf(w), k);
      CarriesBoth(s, One(Fresh(pw)), One(DeskOf(w)), k, k, k);
    }
  }

  lemma EnrolRan(s: State, user: Login, pw: Password, exp: Day, quota: Limit, ctx: Ctx, g: Gaps)
    ensures Ran(s, EnrolScript(s, user, pw, exp, quota, ctx, g)) == Enrol(s, user, pw, exp, quota, ctx, g)
    ensures var w := Panel.Written(s, user, pw, exp, quota);
            Plain(Both(ApplyScript(Env(w, g(1)), ctx, g(2)), One(Acts(g(3)))))
  {
    var w := Panel.Written(s, user, pw, exp, quota);
    EnterRan(s, user, pw, exp, quota);
    ApplyRan(Env(w, g(1)), ctx, g(2));
    RanBoth(s, EnterScript(s, user, pw, exp, quota), One(Acts(g(1))));
    RanBoth(Env(w, g(1)), ApplyScript(Env(w, g(1)), ctx, g(2)), One(Acts(g(3))));
    assert Plain(One(Acts(g(3))));
    PlainBoth(ApplyScript(Env(w, g(1)), ctx, g(2)), One(Acts(g(3))));
  }

  /** Nobody but the newcomer is touched by an enrolment. */
  lemma EnrolCarries(s: State, user: Login, pw: Password, exp: Day, quota: Limit, ctx: Ctx, g: Gaps, k: Password)
    requires k != pw
    ensures Carries(s, EnrolScript(s, user, pw, exp, quota, ctx, g), k, k)
  {
    var w := Panel.Written(s, user, pw, exp, quota);
    var enter := EnterScript(s, user, pw, exp, quota);
    var rest := Both(ApplyScript(Env(w, g(1)), ctx, g(2)), One(Acts(g(3))));
    EnterRan(s, user, pw, exp, quota);
    EnrolRan(s, user, pw, exp, quota, ctx, g);
    CarriesOne(w, Acts(g(1)), k);
    CarriesBoth(s, enter, One(Acts(g(1))), k, k, k);
    RanBoth(s, enter, One(Acts(g(1))));
    PlainCarries(Env(w, g(1)), rest, k);
    CarriesBoth(s, Both(enter, One(Acts(g(1)))), rest, k, k, k);
  }

  ghost function CreateScript(s: State, proto: Proto, user: Login, pass: Password, draws: seq<Password>, exp: Day,
                              quota: Limit, ctx: Ctx, g: Gaps): Script {
    if ValidName(user) && !LoginTaken(s.users, user) && proto.Zivpn? then
      var t := Settle(s, pass, draws, g);
      Both(SettleScript(s, pass, draws, g),
           if t.pw == "" then Nothing else EnrolScript(t.state, user, t.pw, exp, quota, ctx, g))
    else One(DeskOf(Create(s, proto, user, pass, draws, exp, quota, ctx, g).state))
  }

  lemma CreateRan(s: State, proto: Proto, user: Login, pass: Password, draws: seq<Password>, exp: Day,
                  quota: Limit, ctx: Ctx, g: Gaps)
    ensures Ran(s, CreateScript(s, proto, user, pass, draws, exp, quota, ctx, g))
            == Create(s, proto, user, pass, draws, exp, quota, ctx, g).state
  {
    if ValidName(user) && !LoginTaken(s.users, user) && proto.Zivpn? {
      var t := Settle(s, pass, draws, g);
      SettleRan(s, pass, draws, g);
      if t.pw != "" { EnrolRan(t.state, user, t.pw, exp, quota, ctx, g); }
    } else {
      DeskGives(s, Create(s, proto, user, pass, draws, exp, quota, ctx, g).state);
    }
  }

  // ---- delete ----

  function HaltScript(stops: bool, gap: seq<Act>): Script {
    if stops then Both(One(Acts(gap)), One(Halt)) else Nothing
  }

  function PurgePointScript(s: State, pw: Password, g: Gaps): Script {
    Both(One(Acts(g(0))), HaltScript(pw != "" && Env(s, g(0)).daemon.Running?, g(1)))
  }

  lemma HaltRan(s: State, stops: bool, gap: seq<Act>)
    ensures Ran(s, HaltScript(stops, gap)) == (if stops then Stop(Env(s, gap)) else s) && Plain(HaltScript(stops, gap))
  {
    RanTwo(s, Acts(gap), Halt);
    PlainTwo(Acts(gap), Halt);
  }

  lemma PurgePointRan(s: State, pw: Password, g: Gaps)
    ensures Ran(s, PurgePointScript(s, pw, g)) == PurgePoint(s, pw, g) && Plain(PurgePointScript(s, pw, g))
  {
    var stops := pw != "" && Env(s, g(0)).daemon.Running?;
    HaltRan(Env(s, g(0)), stops, g(1));
    RanBoth(s, One(Acts(g(0))), HaltScript(stops, g(1)));
    assert Plain(One(Acts(g(0))));
    PlainBoth(One(Acts(g(0))), HaltScript(stops, g(1)));
  }

  function EraseScript(at: State, user: Login, pw: Password): Script {
    Both(One(Erase(pw)), One(DeskOf(Purge(at, user, pw))))
  }

  lemma EraseRan(at: State, user: Login, pw: Password)
    ensures Ran(at, EraseScript(at, user, pw)) == Purge(at, user, pw)
    ensures forall k :: k != pw ==> Carries(at, EraseScript(at, user, pw), k, k)
  {
    var purged := Purge(at, user, pw);
    RanTwo(at, Erase(pw), DeskOf(purged));
    DeskGives(Did(at, Erase(pw)), purged);
    forall k | k != pw ensures Carries(at, EraseScript(at, user, pw), k, k) {
      CarriesOne(at, Erase(pw), k);
      CarriesOne(Did(at, Erase(pw)), DeskOf(purged), k);
      CarriesBoth(at, One(Erase(pw)), One(DeskOf(purged)), k, k, k);
    }
  }

  /** Applied, started again if it was stopped, and left to run. */
  ghost function ResumeScript(t: State, boots: bool, ctx: Ctx, gap: seq<Act>, last: seq<Act>): Script {
    Both(ApplyScript(t, ctx, gap), Both(if boots then One(Boot) else Nothing, One(Acts(last))))
  }

  lemma ResumeRan(t: State, boots: bool, ctx: Ctx, gap: seq<Act>, last: seq<Act>)
    ensures var applied := Apply(t, ctx, gap);
            Ran(t, ResumeScript(t, boots, ctx, gap, last)) == Env(if boots then Start(applied) else applied, last)
    ensures Plain(ResumeScript(t, boots, ctx, gap, last))
  {
    var boot := if boots then One(Boot) else Nothing;
    ApplyRan(t, ctx, gap);
    RanBoth(t, ApplyScript(t, ctx, gap), Both(boot, One(Acts(last))));
    RanBoth(Apply(t, ctx, gap), boot, One(Acts(last)));
    assert Plain(boot) && Plain(One(Acts(last)));
    PlainBoth(boot, One(Acts(last)));
    PlainBoth(ApplyScript(t, ctx, gap), Both(boot, One(Acts(last))));
  }

  ghost function RedeployScript(s: State, user: Login, pw: Password, ctx: Ctx, g: Gaps): Script {
    var at := PurgePoint(s, pw, g);
    Both(Both(PurgePointScript(s, pw, g), EraseScript(at, user, pw)),
         ResumeScript(Purge(at, user, pw), pw != "" && Env(s, g(0)).daemon.Running?, ctx, g(2), g(3)))
  }

  lemma RedeployRan(s: State, user: Login, pw: Password, ctx: Ctx, g: Gaps)
    ensures Ran(s, RedeployScript(s, user, pw, ctx, g)) == Redeployed(s, user, pw, ctx, g)
  {
    var at := PurgePoint(s, pw, g);
    PurgePointRan(s, pw, g);
    EraseRan(at, user, pw);
    ResumeRan(Purge(at, user, pw), pw != "" && Env(s, g(0)).daemon.Running?, ctx, g(2), g(3));
    RanBoth(s, PurgePointScript(s, pw, g), EraseScript(at, user, pw));
  }

  lemma RedeployCarries(s: State, user: Login, pw: Password, ctx: Ctx, g: Gaps, k: Password)
    requires k != pw
    ensures Carries(s, RedeployScript(s, user, pw, ctx, g), k, k)
  {
    var at := PurgePoint(s, pw, g);
    var purged := Purge(at, user, pw);
    var boots := pw != "" && Env(s, g(0)).daemon.Running?;
    var head := Both(PurgePointScript(s, pw, g), EraseScript(at, user, pw));
    PurgePointRan(s, pw, g);
    EraseRan(at, user, pw);
    ResumeRan(purged, boots, ctx, g(2), g(3));
    PlainCarries(s, PurgePointScript(s, pw, g), k);
    CarriesBoth(s, PurgePointScript(s, pw, g), EraseScript(at, user, pw), k, k, k);
    RanBoth(s, PurgePointScript(s, pw, g), EraseScript(at, user, pw));
    PlainCarries(purged, ResumeScript(purged, boots, ctx, g(2), g(3)), k);
    CarriesBoth(s, head, ResumeScript(purged, boots, ctx, g(2), g(3)), k, k, k);
  }

  ghost function ReleaseScript(up: State, pw: Password, g: Gaps): Script {
    Both(Both(One(Retire(pw)), One(DeskOf(Release(up, pw)))), One(Acts(g(4))))
  }

  ghost function DeleteZivpnScript(s: State, user: Login, pw: Password, ctx: Ctx, g: Gaps): Script {
    Both(RedeployScript(s, user, pw, ctx, g), ReleaseScript(Redeployed(s, user, pw, ctx, g), pw, g))
  }

  lemma ReleaseRan(up: State, pw: Password, g: Gaps)
    ensures Ran(up, ReleaseScript(up, pw, g)) == Env(Release(up, pw), g(4))
    ensures forall k :: k != pw ==> Carries(up, ReleaseScript(up, pw, g), k, k)
  {
    var head := Both(One(Retire(pw)), One(DeskOf(Release(up, pw))));
    RanTwo(up, Retire(pw), DeskOf(Release(up, pw)));
    DeskGives(Did(up, Retire(pw)), Release(up, pw));
    RanBoth(up, head, One(Acts(g(4))));
    forall k | k != pw ensures Carries(up, ReleaseScript(up, pw, g), k, k) {
      CarriesOne(up, Retire(pw), k);
      CarriesOne(Did(up, Retire(pw)), DeskOf(Release(up, pw)), k);
      CarriesBoth(up, One(Retire(pw)), One(DeskOf(Release(up, pw))), k, k, k);
      CarriesOne(Release(up, pw), Acts(g(4)), k);
      CarriesBoth(up, head, One(Acts(g(4))), k, k, k);
    }
  }

  lemma DeleteZivpnRan(s: State, user: Login, pw: Password, ctx: Ctx, g: Gaps)
    ensures Ran(s, DeleteZivpnScript(s, user, pw, ctx, g)) == DeleteZivpn(s, user, pw, ctx, g)
  {
    RedeployRan(s, user, pw, ctx, g);
    ReleaseRan(Redeployed(s, user, pw, ctx, g), pw, g);
  }

  /** Nobody but the one deleted is touched by a deletion. */
  lemma DeleteZivpnCarries(s: State, user: Login, pw: Password, ctx: Ctx, g: Gaps, k: Password)
    requires k != pw
    ensures Carries(s, DeleteZivpnScript(s, user, pw, ctx, g), k, k)
  {
    var up := Redeployed(s, user, pw, ctx, g);
    RedeployRan(s, user, pw, ctx, g);
    RedeployCarries(s, user, pw, ctx, g, k);
    ReleaseRan(up, pw, g);
    CarriesBoth(s, RedeployScript(s, user, pw, ctx, g), ReleaseScript(up, pw, g), k, k, k);
  }

  ghost function DeleteScript(s: State, user: Login, pw: Password, ctx: Ctx, g: Gaps): Script {
    var gone := s.(users := s.users - {user});
    Both(One(DeskOf(gone)),
         if user in s.users && !s.users[user].proto.Zivpn? then Nothing else DeleteZivpnScript(gone, user, pw, ctx, g))
  }

  lemma DeleteRan(s: State, user: Login, pw: Password, ctx: Ctx, g: Gaps)
    ensures Ran(s, DeleteScript(s, user, pw, ctx, g)) == Delete(s, user, pw, ctx, g)
  {
    var gone := s.(users := s.users - {user});
    DeskGives(s, gone);
    DeleteZivpnRan(gone, user, pw, ctx, g);
  }

  // ---- change of password ----

  function MoveScript(at: State, from: Password, to: Password): Script {
    Both(One(Rekey(from, to)), One(DeskOf(Migrated(at, from, to))))
  }

  ghost function RemeasureScript(r: State, from: Password, to: Password, ctx: Ctx, g: Gaps): Script {
    var at := MigratePoint(r, g);
    Both(Both(HaltScript(r.daemon.Running?, g(0)), MoveScript(at, from, to)),
         ResumeScript(Migrated(at, from, to), r.daemon.Running?, ctx, g(1), g(2)))
  }

  lemma MoveRan(at: State, from: Password, to: Password)
    ensures Ran(at, MoveScript(at, from, to)) == Migrated(at, from, to)
  {
    RanTwo(at, Rekey(from, to), DeskOf(Migrated(at, from, to)));
    DeskGives(Did(at, Rekey(from, to)), Migrated(at, from, to));
  }

  lemma RemeasureRan(r: State, from: Password, to: Password, ctx: Ctx, g: Gaps)
    ensures Ran(r, RemeasureScript(r, from, to, ctx, g)) == Remeasured(r, from, to, ctx, g)
  {
    var at := MigratePoint(r, g);
    HaltRan(r, r.daemon.Running?, g(0));
    MoveRan(at, from, to);
    RanBoth(r, HaltScript(r.daemon.Running?, g(0)), MoveScript(at, from, to));
    ResumeRan(Migrated(at, from, to), r.daemon.Running?, ctx, g(1), g(2));
  }

  /** A change of password takes its own account to the new key, and leaves the others at theirs. */
  lemma RemeasureCarries(r: State, from: Password, to: Password, ctx: Ctx, g: Gaps, k: Password)
    requires from != to && from != "" && to != "" && to != k && to !in AllKeys(MigratePoint(r, g))
    ensures Carries(r, RemeasureScript(r, from, to, ctx, g), k, if k == from then to else k)
  {
    var at := MigratePoint(r, g);
    var m := Migrated(at, from, to);
    var j := if k == from then to else k;
    var stop, move := HaltScript(r.daemon.Running?, g(0)), MoveScript(at, from, to);
    var resume := ResumeScript(m, r.daemon.Running?, ctx, g(1), g(2));
    HaltRan(r, r.daemon.Running?, g(0));
    MigratePointIs(r, g);
    MoveRan(at, from, to);
    ResumeRan(m, r.daemon.Running?, ctx, g(1), g(2));
    PlainCarries(r, stop, k);
    CarriesOne(at, Rekey(from, to), k);
    CarriesOne(Did(at, Rekey(from, to)), DeskOf(m), j);
    CarriesBoth(at, One(Rekey(from, to)), One(DeskOf(m)), k, j, j);
    CarriesBoth(r, stop, move, k, k, j);
    RanBoth(r, stop, move);
    PlainCarries(m, resume, j);
    CarriesBoth(r, Both(stop, move), resume, k, j, j);
  }

  ghost function ChangeScript(s: State, user: Login, to: Password, ctx: Ctx, g: Gaps): Script {
    if user !in s.users then Nothing
    else if !s.users[user].proto.Zivpn? then One(DeskOf(Rekeyed(s, user, to)))
    else if s.users[user].pass == to || Refused(s, user, to) then Nothing
    else Both(One(DeskOf(Rekeyed(s, user, to))), RemeasureScript(Rekeyed(s, user, to), s.users[user].pass, to, ctx, g))
  }

  lemma ChangeRan(s: State, user: Login, to: Password, ctx: Ctx, g: Gaps)
    ensures Ran(s, ChangeScript(s, user, to, ctx, g)) == ChangePassword(s, user, to, ctx, g)
  {
    if user in s.users {
      DeskGives(s, Rekeyed(s, user, to));
      RemeasureRan(Rekeyed(s, user, to), s.users[user].pass, to, ctx, g);
    }
  }

  // ---- all of them ----

  function MachineScript(s: State, op: Op): Script
    requires Machine(op)
  {
    match op
    case OpBackup(now, dropped) => One(Shelve(now, dropped))
    case OpRestore => One(Recover)
    case OpDaemon(acts) => One(Acts(acts))
    case OpStart => One(Boot)
    case OpStop => One(Halt)
    case OpDiskFault => One(Damage)
  }

  lemma MachineRan(s: State, op: Op)
    requires Machine(op)
    ensures Ran(s, MachineScript(s, op)) == Operated(s, op)
    ensures op.OpDiskFault? || Plain(MachineScript(s, op))
  {
    DeskGives(s, s);
  }

  ghost function ScriptOf(s: State, m: Move): Script {
    if Edits(m.op) then EditScript(s, m)
    else if Machine(m.op) then MachineScript(s, m.op)
    else match m.op
      case OpCreate(proto, user, pass, draws, exp, quota) => CreateScript(s, proto, user, pass, draws, exp, quota, m.ctx, m.g)
      case OpDelete(user, pw) => DeleteScript(s, user, pw, m.ctx, m.g)
      case OpChangePassword(user, to) => ChangeScript(s, user, to, m.ctx, m.g)
      case OpEnforce(order, meter) => EnforceScript(s, order, meter, m.ctx, m.g)
      case OpGuard(cooling, alive, placeholder) => GuardScript(s, m.ctx, cooling, alive, placeholder, m.g)
  }

  /** Running its script is doing the operation. */
  lemma ScriptOfRan(s: State, m: Move)
    ensures Ran(s, ScriptOf(s, m)) == Next(s, m)
  {
    if Edits(m.op) {
      EditRan(s, m);
    } else if Machine(m.op) {
      MachineRan(s, m.op);
    } else {
      match m.op
      case OpCreate(proto, user, pass, draws, exp, quota) => CreateRan(s, proto, user, pass, draws, exp, quota, m.ctx, m.g);
      case OpDelete(user, pw) => DeleteRan(s, user, pw, m.ctx, m.g);
      case OpChangePassword(user, to) => ChangeRan(s, user, to, m.ctx, m.g);
      case OpEnforce(order, meter) => EnforceRan(s, order, meter, m.ctx, m.g);
      case OpGuard(cooling, alive, placeholder) => GuardRan(s, m.ctx, cooling, alive, placeholder, m.g);
    }
  }
}
