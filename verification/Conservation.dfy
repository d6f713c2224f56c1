/** Whole runs again: where an account's bytes are, and what becomes of them. */
module Conservation {
  import opened Quota
  import opened Ledger
  import opened Accounts
  import opened StateFile
  import opened Panel
  import opened Attribution
  import opened Enforcement
  import opened Runs
  import opened Standing
  import opened Steps
  import opened Scripts
  import Incidents

  // ---- one operation, seen from an account it does not create or delete ----

  /** The password an account has after an operation. */
  ghost predicate KeepsKey(s: State, t: State, u: Login) {
    u in s.users && u in t.users && t.users[u].proto == s.users[u].proto && t.users[u].pass == s.users[u].pass
  }

  lemma WritesKeepKeys(s: State, op: Op, u: Login)
    requires Edits(op) && u in s.users
    ensures KeepsKey(s, EditWrites(s, op).state, u)
  {
    match op
    case OpBlock(names, reason) => BlockSameStores(s, names, reason);
    case OpUnblock(names) => UnblockSameStores(s, names);
    case OpRenew(user, exp) => if user in s.users { RenewedSame(s.users[user], exp); }
    case _ =>
  }

  lemma EditKeepsKeys(s: State, m: Move, u: Login)
    requires Edits(m.op) && u in s.users
    ensures KeepsKey(s, Edited(s, m), u)
  {
    var w := EditWrites(s, m.op);
    WritesKeepKeys(s, m.op, u);
    EditIsWritten(s, m);
    ApplyFrame(w.state, m.ctx, m.g(0));
  }

  lemma EditIsWritten(s: State, m: Move)
    requires Edits(m.op)
    ensures var w := EditWrites(s, m.op);
            Edited(s, m) == if w.applies then Apply(w.state, m.ctx, m.g(0)) else w.state
  {
  }

  lemma PassKeepsKeys(s: State, order: seq<Login>, meter: Login -> nat, ctx: Ctx, g: Gaps, u: Login)
    requires u in s.users
    ensures KeepsKey(s, Enforce(s, order, meter, ctx, g), u)
  {
    EnforceIsPassed(s, order, meter, ctx, g);
    PassOnAccount(s, order, meter, ctx.today, u);
    VerdictIsStable(Synced(s).users[u], ctx.today, Usage(Synced(s), meter, u));
  }

  lemma GuardKeepsKeys(s: State, ctx: Ctx, cooling: bool, alive: bool, placeholder: Password, g: Gaps, u: Login)
    requires u in s.users
    ensures KeepsKey(s, Guard(s, ctx, cooling, alive, placeholder, g).state, u)
  {
    StartKeys(s);
    ChecksUsers(RestoredIfCorrupt(Synced(Seeded(Start(s)))), ctx, cooling, alive, placeholder, g);
  }

  /** A zivpn account with a password. */
  predicate Metering(s: State, u: Login) {
    u in s.users && s.users[u].proto.Zivpn? && s.users[u].pass != ""
  }

  /** The script leads an account that was there and stays from its key to its key. */
  ghost predicate Leads(s: State, script: Script, t: State, u: Login) {
    Metering(s, u) && Metering(t, u)
    && Spares(s, script, s.users[u].pass) && Follow(script, s.users[u].pass) == t.users[u].pass
  }

  lemma KeptLeads(s: State, script: Script, t: State, u: Login)
    requires Metering(s, u) && KeepsKey(s, t, u) && Carries(s, script, s.users[u].pass, s.users[u].pass)
    ensures Leads(s, script, t, u)
  {
  }

  lemma LiveIs(users: Users, u: Login)
    requires u in users && users[u].proto.Zivpn? && users[u].pass != ""
    ensures users[u].pass in Live(users)
  {
  }

  lemma MachineLeads(s: State, op: Op, u: Login)
    requires Metering(s, u) && Machine(op)
    ensures Leads(s, MachineScript(s, op), Operated(s, op), u)
  {
    MachineRan(s, op);
    if !op.OpDiskFault? { PlainCarries(s, MachineScript(s, op), s.users[u].pass); }
  }

  lemma CreateZivpnCarries(s: State, user: Login, pass: Password, draws: seq<Password>, exp: Day,
                           quota: Limit, ctx: Ctx, g: Gaps, k: Password)
    requires Safe(s) && k in Live(s.users)
    ensures var t := Settle(s, pass, draws, g);
            Carries(s, Both(SettleScript(s, pass, draws, g),
                            if t.pw == "" then Nothing else EnrolScript(t.state, user, t.pw, exp, quota, ctx, g)), k, k)
  {
    var t := Settle(s, pass, draws, g);
    var settle := SettleScript(s, pass, draws, g);
    SettleRan(s, pass, draws, g);
    PlainCarries(s, settle, k);
    if t.pw == "" {
      assert Carries(t.state, Nothing, k, k);
      CarriesBoth(s, settle, Nothing, k, k, k);
    } else {
      SettledIsFree(s, pass, draws, g);
      EnrolCarries(t.state, user, t.pw, exp, quota, ctx, g, k);
      CarriesBoth(s, settle, EnrolScript(t.state, user, t.pw, exp, quota, ctx, g), k, k, k);
    }
  }

  lemma CreateCarries(s: State, proto: Proto, user: Login, pass: Password, draws: seq<Password>, exp: Day,
                      quota: Limit, ctx: Ctx, g: Gaps, k: Password)
    requires Safe(s) && k in Live(s.users)
    ensures Carries(s, CreateScript(s, proto, user, pass, draws, exp, quota, ctx, g), k, k)
  {
    CreateZivpnCarries(s, user, pass, draws, exp, quota, ctx, g, k);
    CarriesOne(s, DeskOf(Create(s, proto, user, pass, draws, exp, quota, ctx, g).state), k);
  }

  lemma EnrolledUsers(s: State, user: Login, pass: Password, draws: seq<Password>, exp: Day,
                      quota: Limit, ctx: Ctx, g: Gaps)
    ensures var t := Settle(s, pass, draws, g);
            CreateZivpn(s, user, pass, draws, exp, quota, ctx, g).state.users ==
            if t.pw == "" then s.users else s.users[user := NewAccount(Zivpn, exp, t.pw, quota)]
  {
    var t := Settle(s, pass, draws, g);
    SettleIsOutside(s, pass, draws, g);
    EnrolKeys(t.state, user, t.pw, exp, quota, ctx, g);
  }

  lemma CreatedUsers(s: State, proto: Proto, user: Login, pass: Password, draws: seq<Password>, exp: Day,
                     quota: Limit, ctx: Ctx, g: Gaps, u: Login)
    requires u in s.users
    ensures KeepsKey(s, Create(s, proto, user, pass, draws, exp, quota, ctx, g).state, u)
  {
    EnrolledUsers(s, user, pass, draws, exp, quota, ctx, g);
  }

  lemma DeletedUsers(s: State, user: Login, pw: Password, ctx: Ctx, g: Gaps)
    ensures Delete(s, user, pw, ctx, g).users == s.users - {user}
  {
    DeleteKeys(s.(users := s.users - {user}), user, pw, ctx, g);
  }

  /** What a deletion purges is not another account's key. */
  lemma AnotherKey(s: State, user: Login, pw: Password, u: Login)
    requires Safe(s) && Metering(s, u) && u != user && DeleteTarget(s, user, pw)
    requires user !in s.users ==> pw !in Live(s.users)
    requires user in s.users ==> s.users[user].proto.Zivpn?
    ensures s.users[u].pass != pw
  {
    LiveIs(s.users, u);
    if user in s.users { assert Owns(s.users[user], s.users[u].pass) ==> user == u; }
  }

  lemma DeleteCarries(s: State, user: Login, pw: Password, ctx: Ctx, g: Gaps, k: Password)
    requires k != pw || (user in s.users && !s.users[user].proto.Zivpn?)
    ensures Carries(s, DeleteScript(s, user, pw, ctx, g), k, k)
  {
    var gone := s.(users := s.users - {user});
    DeskGives(s, gone);
    CarriesOne(s, DeskOf(gone), k);
    if user in s.users && !s.users[user].proto.Zivpn? {
      assert Carries(gone, Nothing, k, k);
      CarriesBoth(s, One(DeskOf(gone)), Nothing, k, k, k);
    } else {
      DeleteZivpnCarries(gone, user, pw, ctx, g, k);
      CarriesBoth(s, One(DeskOf(gone)), DeleteZivpnScript(gone, user, pw, ctx, g), k, k, k);
    }
  }

  lemma DeleteLeads(s: State, user: Login, pw: Password, ctx: Ctx, g: Gaps, u: Login)
    requires Safe(s) && Metering(s, u) && u != user && DeleteTarget(s, user, pw)
    requires user !in s.users ==> pw !in Live(s.users)
    ensures Leads(s, DeleteScript(s, user, pw, ctx, g), Delete(s, user, pw, ctx, g), u)
  {
    if user in s.users ==> s.users[user].proto.Zivpn? { AnotherKey(s, user, pw, u); }
    DeleteCarries(s, user, pw, ctx, g, s.users[u].pass);
    DeletedUsers(s, user, pw, ctx, g);
    KeptLeads(s, DeleteScript(s, user, pw, ctx, g), Delete(s, user, pw, ctx, g), u);
  }

  /** A change of password that is accepted. */
  predicate Accepted(s: State, user: Login, to: Password) {
    user in s.users && s.users[user].proto.Zivpn? && s.users[user].pass != to && !Refused(s, user, to)
  }

  lemma ChangedUsers(s: State, user: Login, to: Password, ctx: Ctx, g: Gaps)
    ensures var t := ChangePassword(s, user, to, ctx, g);
            t.users == if Accepted(s, user, to) || (user in s.users && !s.users[user].proto.Zivpn?)
                       then Rekeyed(s, user, to).users else s.users
  {
    if user in s.users { RemeasuredUsers(Rekeyed(s, user, to), s.users[user].pass, to, ctx, g); }
  }

  lemma AcceptedCarries(s: State, user: Login, to: Password, ctx: Ctx, g: Gaps, k: Password)
    requires Safe(s) && Accepted(s, user, to) && s.users[user].pass != "" && to != "" && k in Live(s.users)
    ensures Carries(s, ChangeScript(s, user, to, ctx, g), k, if k == s.users[user].pass then to else k)
  {
    var r := Rekeyed(s, user, to);
    var from := s.users[user].pass;
    var j := if k == from then to else k;
    RefusedCoversLive(s, user, to);
    MigratePointIs(r, g);
    DeskGives(s, r);
    CarriesOne(s, DeskOf(r), k);
    RemeasureCarries(r, from, to, ctx, g, k);
    CarriesBoth(s, One(DeskOf(r)), RemeasureScript(r, from, to, ctx, g), k, k, j);
  }

  lemma AcceptedLeads(s: State, user: Login, to: Password, ctx: Ctx, g: Gaps, u: Login)
    requires Safe(s) && Metering(s, u) && Accepted(s, user, to) && s.users[user].pass != "" && to != ""
    ensures Leads(s, ChangeScript(s, user, to, ctx, g), ChangePassword(s, user, to, ctx, g), u)
  {
    var k := s.users[u].pass;
    LiveIs(s.users, u);
    AcceptedCarries(s, user, to, ctx, g, k);
    ChangedUsers(s, user, to, ctx, g);
    assert k == s.users[user].pass ==> u == user by { assert Owns(s.users[user], k) ==> user == u; }
  }

  lemma ChangeLeads(s: State, user: Login, to: Password, ctx: Ctx, g: Gaps, u: Login)
    requires Safe(s) && Metering(s, u)
    requires user in s.users && s.users[user].proto.Zivpn? ==> s.users[user].pass != "" && to != ""
    ensures Leads(s, ChangeScript(s, user, to, ctx, g), ChangePassword(s, user, to, ctx, g), u)
  {
    if Accepted(s, user, to) {
      AcceptedLeads(s, user, to, ctx, g, u);
    } else {
      var script := ChangeScript(s, user, to, ctx, g);
      assert script == Nothing || script == One(DeskOf(Rekeyed(s, user, to)));
      PlainCarries(s, script, s.users[u].pass);
      ChangedUsers(s, user, to, ctx, g);
      KeptLeads(s, script, ChangePassword(s, user, to, ctx, g), u);
    }
  }

  lemma EditLeads(s: State, m: Move, u: Login)
    requires Metering(s, u) && Edits(m.op)
    ensures Leads(s, EditScript(s, m), Edited(s, m), u)
  {
    EditKeepsKeys(s, m, u);
    EditRan(s, m);
    PlainCarries(s, EditScript(s, m), s.users[u].pass);
    KeptLeads(s, EditScript(s, m), Edited(s, m), u);
  }

  ghost predicate Tracks(s: State, m: Move, u: Login) {
    Leads(s, ScriptOf(s, m), Next(s, m), u)
  }

  lemma CreateLeads(s: State, proto: Proto, user: Login, pass: Password, draws: seq<Password>, exp: Day,
                    quota: Limit, ctx: Ctx, g: Gaps, u: Login)
    requires Safe(s) && Metering(s, u)
    ensures Leads(s, CreateScript(s, proto, user, pass, draws, exp, quota, ctx, g),
                  Create(s, proto, user, pass, draws, exp, quota, ctx, g).state, u)
  {
    LiveIs(s.users, u);
    var script := CreateScript(s, proto, user, pass, draws, exp, quota, ctx, g);
    var t := Create(s, proto, user, pass, draws, exp, quota, ctx, g).state;
    assert Carries(s, script, s.users[u].pass, s.users[u].pass) by {
      CreateCarries(s, proto, user, pass, draws, exp, quota, ctx, g, s.users[u].pass);
    }
    assert KeepsKey(s, t, u) by {
      CreatedUsers(s, proto, user, pass, draws, exp, quota, ctx, g, u);
    }
    KeptLeads(s, script, t, u);
  }

  lemma PassLeads(s: State, order: seq<Login>, meter: Login -> nat, ctx: Ctx, g: Gaps, u: Login)
    requires Metering(s, u)
    ensures Leads(s, EnforceScript(s, order, meter, ctx, g), Enforce(s, order, meter, ctx, g), u)
  {
    PassKeepsKeys(s, order, meter, ctx, g, u);
    EnforceRan(s, order, meter, ctx, g);
    PlainCarries(s, EnforceScript(s, order, meter, ctx, g), s.users[u].pass);
  }

  lemma GuardLeads(s: State, ctx: Ctx, cooling: bool, alive: bool, placeholder: Password, g: Gaps, u: Login)
    requires Metering(s, u)
    ensures Leads(s, GuardScript(s, ctx, cooling, alive, placeholder, g),
                  Guard(s, ctx, cooling, alive, placeholder, g).state, u)
  {
    GuardKeepsKeys(s, ctx, cooling, alive, placeholder, g, u);
    GuardRan(s, ctx, cooling, alive, placeholder, g);
    PlainCarries(s, GuardScript(s, ctx, cooling, alive, placeholder, g), s.users[u].pass);
  }

  /** Every operation leads a staying account from its key to its key. */
  lemma NextTracks(s: State, m: Move, u: Login)
    requires Safe(s) && Aimed(s, m) && Metering(s, u) && u in Next(s, m).users
    ensures Tracks(s, m, u)
  {
    if Edits(m.op) {
      EditLeads(s, m, u);
    } else if Machine(m.op) {
      MachineLeads(s, m.op, u);
    } else {
      match m.op
      case OpCreate(proto, user, pass, draws, exp, quota) =>
        CreateLeads(s, proto, user, pass, draws, exp, quota, m.ctx, m.g, u);
      case OpDelete(user, pw) =>
        DeletedUsers(s, user, pw, m.ctx, m.g);
        DeleteLeads(s, user, pw, m.ctx, m.g, u);
      case OpChangePassword(user, to) => ChangeLeads(s, user, to, m.ctx, m.g, u);
      case OpEnforce(order, meter) => PassLeads(s, order, meter, m.ctx, m.g, u);
      case OpGuard(cooling, alive, placeholder) => GuardLeads(s, m.ctx, cooling, alive, placeholder, m.g, u);
    }
  }

  // ---- runs ----

  ghost function RunScript(s: State, moves: seq<Move>): Script {
    if moves == [] then Nothing
    else
      var n := |moves| - 1;
      Both(RunScript(s, moves[..n]), ScriptOf(After(s, moves[..n]), moves[n]))
  }

  lemma {:induction false} RunScriptRan(s: State, moves: seq<Move>)
    ensures Ran(s, RunScript(s, moves)) == After(s, moves)
  {
    if moves != [] {
      var n := |moves| - 1;
      RunScriptRan(s, moves[..n]);
      ScriptOfRan(After(s, moves[..n]), moves[n]);
      RanBoth(s, RunScript(s, moves[..n]), ScriptOf(After(s, moves[..n]), moves[n]));
    }
  }

  ghost predicate NoFault(moves: seq<Move>) {
    forall i :: 0 <= i < |moves| ==> !moves[i].op.OpDiskFault?
  }

  lemma {:induction false} RunTracks(s: State, moves: seq<Move>, u: Login)
    requires Safe(s) && Sound(s, moves) && Metering(s, u) && Stays(s, moves, u)
    ensures Metering(After(s, moves), u)
    ensures Spares(s, RunScript(s, moves), s.users[u].pass)
    ensures Follow(RunScript(s, moves), s.users[u].pass) == After(s, moves).users[u].pass
  {
    StaysBefore(s, moves, u);
    if moves != [] {
      var n := |moves| - 1;
      var t := After(s, moves[..n]);
      SoundPrefix(s, moves);
      RunTracks(s, moves[..n], u);
      RunsAreSafe(s, moves[..n]);
      NextTracks(t, moves[n], u);
      RunScriptRan(s, moves[..n]);
    }
  }

  lemma {:induction false} RunIsUndamaged(s: State, moves: seq<Move>)
    requires NoFault(moves)
    ensures Undamaged(RunScript(s, moves))
  {
    if moves != [] {
      var n := |moves| - 1;
      assert forall i :: 0 <= i < n ==> moves[..n][i] == moves[i];
      RunIsUndamaged(s, moves[..n]);
      ScriptOfIsUndamaged(After(s, moves[..n]), moves[n]);
      UndamagedBoth(RunScript(s, moves[..n]), ScriptOf(After(s, moves[..n]), moves[n]));
    }
  }

  /** Conservation over every sound run: the bytes metered for an account that stays are the growth
      of what is in service for it, plus what went missing on the way: what the daemon was told to
      reset, what it held in memory when it was stopped and had not saved, and what a restored or
      damaged file no longer has. Its own changes of password, and every operation on the others,
      move nothing. */
  lemma BytesAreConserved(s: State, moves: seq<Move>, u: Login)
    requires Safe(s) && Sound(s, moves) && Metering(s, u) && Stays(s, moves, u)
    ensures var k := s.users[u].pass;
            && Metering(After(s, moves), u)
            && Balanced(s, After(s, moves), k, After(s, moves).users[u].pass, DroppedIn(s, RunScript(s, moves), k))
  {
    RunTracks(s, moves, u);
    RunScriptRan(s, moves);
    ScriptBalances(s, RunScript(s, moves), s.users[u].pass);
  }

  /** An account never loses its own bytes on a run without disk faults on which every stop finds
      the counter file up to date for it, and nobody resets it. The code does not see to the
      first: `stop` comes at any time after the last save. */
  lemma GentleRunsLoseNothing(s: State, moves: seq<Move>, u: Login)
    requires Safe(s) && Sound(s, moves) && Metering(s, u) && Stays(s, moves, u)
    requires Ready(s) && NoFault(moves) && Gentle(s, RunScript(s, moves), s.users[u].pass)
    ensures Metering(After(s, moves), u)
    ensures Balanced(s, After(s, moves), s.users[u].pass, After(s, moves).users[u].pass, 0)
  {
    BytesAreConserved(s, moves, u);
    RunTracks(s, moves, u);
    RunIsUndamaged(s, moves);
    GentleScriptDropsNothing(s, RunScript(s, moves), s.users[u].pass);
  }

  // ---- what stopping the daemon for one account costs the others ----

  lemma StartServes(s: State, k: Password)
    ensures InService(Start(s), k) == InService(s, k)
  {
  }

  lemma ApplyWhileDown(s: State, ctx: Ctx, k: Password)
    requires s.daemon.Stopped?
    ensures var t := Apply(s, ctx, []);
            InService(t, k) == LoadedUsed(s.files, k) && t.files == s.files && t.carried == s.carried
  {
    ApplyFrame(s, ctx, []);
    if s.config.Cfg? && s.config != Derived(s.users, ctx) {
      var r := Reconfigured(s, ctx);
      assert Stop(Env(r, [])) == r;
      StartServes(r, k);
    }
  }

  lemma ErasedElsewhere(f: Files, pw: Password, k: Password)
    requires (Loadable(f.main) || (f.main.Absent? && f.bak.Absent?)) && k != pw
    ensures LoadedUsed(Forget(f, pw), k) == f.main.Used(k) && Forget(f, pw).main.Used(k) == f.main.Used(k)
  {
  }

  lemma RedeployedServes(s: State, user: Login, pw: Password, ctx: Ctx, k: Password)
    requires s.daemon.Running? && Ready(s) && pw != "" && k != pw
    ensures var t := Redeployed(s, user, pw, ctx, Incidents.NO_GAPS);
            InService(t, k) == s.files.main.Used(k) && t.files.main.Used(k) == s.files.main.Used(k)
            && CarriedBy(t, k) == CarriedBy(s, k)
  {
    assert PurgePoint(s, pw, Incidents.NO_GAPS) == Stop(s);
    var purged := Purge(Stop(s), user, pw);
    ErasedElsewhere(s.files, pw, k);
    ApplyWhileDown(purged, ctx, k);
    StartServes(Apply(purged, ctx, []), k);
    StartKeys(Apply(purged, ctx, []));
  }

  /** Deleting one account stops the daemon, which does not save on the way: every other account
      goes on from what the counter file held: it loses what the stop dropped, and nothing exactly when
      the file was up to date. */
  lemma DeletionCostsOthersIff(s: State, user: Login, pw: Password, ctx: Ctx, k: Password)
    requires s.daemon.Running? && Ready(s) && pw != "" && k != pw
    ensures var t := DeleteZivpn(s, user, pw, ctx, Incidents.NO_GAPS);
            && InService(t, k) == s.files.main.Used(k) && CarriedBy(t, k) == CarriedBy(s, k)
            && InService(s, k) - InService(t, k) == Dropped(s, Halt, k)
            && (InService(t, k) == InService(s, k) <==> s.files.main.Used(k) == UsedIn(s.daemon.body, k))
  {
    RedeployedServes(s, user, pw, ctx, k);
    HaltDropsIff(s, k);
  }

  /** An account "a" with `n` bytes in the daemon's memory, and a counter file last saved before. */
  function Unsaved(n: nat, config: Config): State {
    var saved := Content(map["p" := 0], map[]);
    State(map["a" := NewAccount(Zivpn, 30, "p", Limit(1.0, 1.0)), "b" := NewAccount(Zivpn, 30, "q", Limit(0.0, 0.0))],
          Files(Sealed(saved), Sealed(saved)), [], {"p", "q"}, map[], config,
          Running(Content(map["p" := n], map["p" := 1.0]), multiset{"p", "q"}), map["p" := n])
  }

  /** So deleting "b" before the next save costs "a" everything it metered since the last one. */
  lemma DeletingOneCostsAnother(n: nat, config: Config, ctx: Ctx)
    ensures var s := Unsaved(n, config);
            var t := Delete(s, "b", "q", ctx, Incidents.NO_GAPS);
            && DeleteTarget(s, "b", "q") && InService(s, "p") == n == CarriedBy(s, "p")
            && InService(t, "p") == 0 && CarriedBy(t, "p") == n
  {
    var s := Unsaved(n, config);
    DeletionCostsOthersIff(s.(users := s.users - {"b"}), "b", "q", ctx, "p");
  }

  // ---- the lifetime ledger over runs ----

  /** Every zivpn account's ledger, with all it can still read, is at most what was metered for it. */
  ghost predicate AllCovered(s: State) {
    forall u :: Metering(s, u) ==> Covered(s, s.users[u].pass, s.users[u].ledger)
  }

  lemma RawIsUsed(s: State, u: Login)
    requires Safe(s) && Metering(s, u) && u !in Live(s.users)
    ensures Raw(s, u) == s.files.main.Used(s.users[u].pass)
  {
  }

  lemma StayingIsCovered(s: State, m: Move, u: Login)
    requires Safe(s) && Aimed(s, m) && !m.op.OpDiskFault? && Intact(s)
    requires Ledgered(s.users) && AllCovered(s) && u !in Live(s.users)
    requires Metering(s, u) && u in Next(s, m).users
    ensures Metering(Next(s, m), u) && Covered(Next(s, m), Next(s, m).users[u].pass, Next(s, m).users[u].ledger)
  {
    var k, l := s.users[u].pass, s.users[u].ledger;
    var now := Next(s, m).users[u].ledger;
    NextTracks(s, m, u);
    NextLedgers(s, m);
    assert LedgerFrom(s, u, now);
    RawIsUsed(s, u);
    PollIsCovered(s, k, l);
    assert Covered(s, k, now);
    ScriptOfIsUndamaged(s, m);
    ScriptCovers(s, ScriptOf(s, m), k, now);
    ScriptOfRan(s, m);
  }

  lemma NewcomerIsCovered(t: State, user: Login, pw: Password, exp: Day, quota: Limit, ctx: Ctx, g: Gaps)
    requires pw !in AllKeys(t) && Intact(t)
    ensures Covered(Enrol(t, user, pw, exp, quota, ctx, g), pw, EMPTY)
  {
    var w := Panel.Written(t, user, pw, exp, quota);
    var rest := Both(ApplyScript(Env(w, g(1)), ctx, g(2)), One(Acts(g(3))));
    assert Covered(w, pw, EMPTY);
    ActsCover(w, g(1), pw, EMPTY);
    ActsKeepIntact(w, g(1));
    EnrolRan(t, user, pw, exp, quota, ctx, g);
    PlainCarries(Env(w, g(1)), rest, pw);
    ScriptCovers(Env(w, g(1)), rest, pw, EMPTY);
    ApplyRan(Env(w, g(1)), ctx, g(2));
    RanBoth(Env(w, g(1)), ApplyScript(Env(w, g(1)), ctx, g(2)), One(Acts(g(3))));
  }

  lemma CreatedIsCovered(s: State, m: Move, u: Login)
    requires Safe(s) && m.op.OpCreate? && Intact(s)
    requires u !in s.users && Metering(Next(s, m), u)
    ensures Covered(Next(s, m), Next(s, m).users[u].pass, Next(s, m).users[u].ledger)
  {
    var OpCreate(proto, user, pass, draws, exp, quota) := m.op;
    var t := Settle(s, pass, draws, m.g);
    Standing.SettleIsOutside(s, pass, draws, m.g);
    assert ValidName(user) && !LoginTaken(s.users, user) && proto.Zivpn? && t.pw != "";
    SettledOwned(s, pass, draws, m.g);
    SettleRan(s, pass, draws, m.g);
    PlainCarries(s, SettleScript(s, pass, draws, m.g), t.pw);
    ScriptKeepsIntact(s, SettleScript(s, pass, draws, m.g));
    EnrolKeys(t.state, user, t.pw, exp, quota, m.ctx, m.g);
    NewcomerIsCovered(t.state, user, t.pw, exp, quota, m.ctx, m.g);
  }

  /** Only a creation brings in a login. */
  lemma OthersBringNobody(s: State, m: Move)
    requires !m.op.OpCreate?
    ensures Next(s, m).users.Keys <= s.users.Keys
  {
    if Edits(m.op) {
      EditBringsNobody(s, m);
    } else if !Machine(m.op) {
      match m.op
      case OpDelete(user, pw) => DeletedUsers(s, user, pw, m.ctx, m.g);
      case OpChangePassword(user, to) => ChangedUsers(s, user, to, m.ctx, m.g);
      case OpEnforce(order, meter) => EnforceIsPassed(s, order, meter, m.ctx, m.g);
      case OpGuard(cooling, alive, placeholder) => GuardBringsNobody(s, m.ctx, cooling, alive, placeholder, m.g);
    }
  }

  lemma GuardBringsNobody(s: State, ctx: Ctx, cooling: bool, alive: bool, placeholder: Password, g: Gaps)
    ensures Guard(s, ctx, cooling, alive, placeholder, g).state.users.Keys == s.users.Keys
  {
    StartKeys(s);
    ChecksUsers(RestoredIfCorrupt(Synced(Seeded(Start(s)))), ctx, cooling, alive, placeholder, g);
  }

  lemma EditBringsNobody(s: State, m: Move)
    requires Edits(m.op)
    ensures Edited(s, m).users.Keys == s.users.Keys
  {
    WritesBringNobody(s, m.op);
    EditIsWritten(s, m);
    ApplyFrame(EditWrites(s, m.op).state, m.ctx, m.g(0));
  }

  lemma WritesBringNobody(s: State, op: Op)
    requires Edits(op)
    ensures EditWrites(s, op).state.users.Keys == s.users.Keys
  {
    match op
    case OpBlock(names, reason) => BlockSameStores(s, names, reason);
    case OpUnblock(names) => UnblockSameStores(s, names);
    case _ =>
  }

  lemma ProtocolStays(s: State, m: Move, u: Login)
    requires u in s.users && u in Next(s, m).users
    ensures Next(s, m).users[u].proto == s.users[u].proto
  {
    if Edits(m.op) {
      EditKeepsKeys(s, m, u);
    } else if !Machine(m.op) {
      match m.op
      case OpCreate(proto, user, pass, draws, exp, quota) =>
        CreatedUsers(s, proto, user, pass, draws, exp, quota, m.ctx, m.g, u);
      case OpDelete(user, pw) => DeletedUsers(s, user, pw, m.ctx, m.g);
      case OpChangePassword(user, to) => ChangedUsers(s, user, to, m.ctx, m.g);
      case OpEnforce(order, meter) => PassKeepsKeys(s, order, meter, m.ctx, m.g, u);
      case OpGuard(cooling, alive, placeholder) => GuardKeepsKeys(s, m.ctx, cooling, alive, placeholder, m.g, u);
    }
  }

  lemma NextIsCovered(s: State, m: Move)
    requires Safe(s) && Aimed(s, m) && !m.op.OpDiskFault? && Intact(s)
    requires Ledgered(s.users) && AllCovered(s) && NoAliases(s.users)
    ensures AllCovered(Next(s, m))
  {
    forall u | Metering(Next(s, m), u)
      ensures Covered(Next(s, m), Next(s, m).users[u].pass, Next(s, m).users[u].ledger)
    {
      if u !in s.users {
        if !m.op.OpCreate? { OthersBringNobody(s, m); }
        CreatedIsCovered(s, m, u);
      } else {
        ProtocolStays(s, m, u);
        StayingIsCovered(s, m, u);
      }
    }
  }

  lemma ScriptOfIsUndamaged(s: State, m: Move)
    requires !m.op.OpDiskFault?
    ensures Undamaged(ScriptOf(s, m))
  {
    if Edits(m.op) {
      EditRan(s, m);
      PlainCarries(s, ScriptOf(s, m), "");
    } else if Machine(m.op) {
      MachineRan(s, m.op);
      PlainCarries(s, ScriptOf(s, m), "");
    } else {
      match m.op
      case OpCreate(proto, user, pass, draws, exp, quota) => CreateIsUndamaged(s, proto, user, pass, draws, exp, quota, m.ctx, m.g);
      case OpDelete(user, pw) => DeleteIsUndamaged(s, user, pw, m.ctx, m.g);
      case OpChangePassword(user, to) => ChangeIsUndamaged(s, user, to, m.ctx, m.g);
      case OpEnforce(order, meter) =>
        EnforceRan(s, order, meter, m.ctx, m.g);
        PlainCarries(s, ScriptOf(s, m), "");
      case OpGuard(cooling, alive, placeholder) =>
        GuardRan(s, m.ctx, cooling, alive, placeholder, m.g);
        PlainCarries(s, ScriptOf(s, m), "");
    }
  }

  lemma CreateIsUndamaged(s: State, proto: Proto, user: Login, pass: Password, draws: seq<Password>, exp: Day,
                          quota: Limit, ctx: Ctx, g: Gaps)
    ensures Undamaged(CreateScript(s, proto, user, pass, draws, exp, quota, ctx, g))
  {
    if ValidName(user) && !LoginTaken(s.users, user) && proto.Zivpn? {
      var t := Settle(s, pass, draws, g);
      SettleRan(s, pass, draws, g);
      PlainCarries(s, SettleScript(s, pass, draws, g), "");
      EnrolCarries(t.state, user, t.pw, exp, quota, ctx, g, t.pw + "x");
    }
  }

  lemma DeleteIsUndamaged(s: State, user: Login, pw: Password, ctx: Ctx, g: Gaps)
    ensures Undamaged(DeleteScript(s, user, pw, ctx, g))
  {
    DeleteZivpnCarries(s.(users := s.users - {user}), user, pw, ctx, g, pw + "x");
  }

  lemma ChangeIsUndamaged(s: State, user: Login, to: Password, ctx: Ctx, g: Gaps)
    ensures Undamaged(ChangeScript(s, user, to, ctx, g))
  {
    if user in s.users {
      var r := Rekeyed(s, user, to);
      var at := MigratePoint(r, g);
      var m := Migrated(at, s.users[user].pass, to);
      HaltRan(r, r.daemon.Running?, g(0));
      PlainCarries(r, HaltScript(r.daemon.Running?, g(0)), "");
      ResumeRan(m, r.daemon.Running?, ctx, g(1), g(2));
      PlainCarries(m, ResumeScript(m, r.daemon.Running?, ctx, g(1), g(2)), "");
      UndamagedBoth(One(Rekey(s.users[user].pass, to)), One(DeskOf(m)));
      UndamagedBoth(HaltScript(r.daemon.Running?, g(0)), MoveScript(at, s.users[user].pass, to));
    }
  }

  lemma UndamagedBoth(a: Script, b: Script)
    ensures Undamaged(Both(a, b)) <==> Undamaged(a) && Undamaged(b)
    ensures forall e :: Undamaged(One(e)) <==> !e.Damage?
  {
  }

  lemma NextIsIntact(s: State, m: Move)
    requires Safe(s) && Intact(s) && !m.op.OpDiskFault?
    ensures Intact(Next(s, m))
  {
    ScriptOfIsUndamaged(s, m);
    ScriptKeepsIntact(s, ScriptOf(s, m));
    ScriptOfRan(s, m);
  }

  ghost predicate Plainly(s: State, moves: seq<Move>) {
    NoFault(moves) && forall i :: 0 <= i <= |moves| ==> NoAliases(After(s, moves[..i]).users)
  }

  lemma PlainlyBefore(s: State, moves: seq<Move>)
    requires Plainly(s, moves) && moves != []
    ensures Plainly(s, moves[..|moves| - 1]) && NoAliases(After(s, moves[..|moves| - 1]).users)
    ensures !moves[|moves| - 1].op.OpDiskFault?
  {
    var n := |moves| - 1;
    assert forall i :: 0 <= i <= n ==> moves[..n][..i] == moves[..i];
  }

  lemma {:induction false} RunsStayCovered(s: State, moves: seq<Move>)
    requires Safe(s) && Sound(s, moves) && Plainly(s, moves)
    requires Intact(s) && Ledgered(s.users) && AllCovered(s)
    ensures AllCovered(After(s, moves)) && Intact(After(s, moves))
  {
    if moves != [] {
      var n := |moves| - 1;
      SoundPrefix(s, moves);
      PlainlyBefore(s, moves);
      RunsStayCovered(s, moves[..n]);
      RunsAreSafe(s, moves[..n]);
      RunsStayLedgered(s, moves[..n]);
      NextIsCovered(After(s, moves[..n]), moves[n]);
      NextIsIntact(After(s, moves[..n]), moves[n]);
    }
  }

  /** What enforcement charges: over every sound run without a disk fault, so that no reading fails
      and no older copy comes back, an account's lifetime total is at most the bytes metered for
      it, resets, stops and changes of password included. The run may begin on a new installation. */
  lemma TotalsAreMetered(s: State, moves: seq<Move>, u: Login)
    requires Safe(s) && Sound(s, moves) && Plainly(s, moves)
    requires Ready(s) && Ledgered(s.users) && AllCovered(s)
    requires Metering(After(s, moves), u)
    ensures var t := After(s, moves); t.users[u].ledger.total.OrZero() <= CarriedBy(t, t.users[u].pass)
  {
    RunsStayCovered(s, moves);
    assert Covered(After(s, moves), After(s, moves).users[u].pass, After(s, moves).users[u].ledger);
  }
}
