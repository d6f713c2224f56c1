/** Operations taken apart into small steps, and the bytes that go missing in them. A counter is in
    service where the daemon counts: in its memory while it runs, in the file it would start from
    while it does not. */
module Steps {
  import opened Ledger
  import opened Accounts
  import opened StateFile
  import opened Panel
  import opened Attribution

  datatype Small =
    | Acts(acts: seq<Act>)
    | Halt
    | Boot
    | Erase(pw: Password)
    | Rekey(from: Password, to: Password)
    | Recover
    | Damage
    | Fresh(pw: Password)
    | Retire(pw: Password)
    | Shelve(now: int, retired: set<int>)
    | Cleanse(pw: Password)
    | Desk(users: Users, registry: set<Password>, quarantine: map<Password, Login>, config: Config)

  /** `Desk` is whatever the panel writes that no counter is kept in. */
  function DeskOf(t: State): Small {
    Desk(t.users, t.registry, t.quarantine, t.config)
  }

  function Did(s: State, e: Small): State {
    match e
    case Acts(acts) => Env(s, acts)
    case Halt => Stop(s)
    case Boot => Start(s)
    case Erase(pw) => s.(files := Forget(s.files, pw))
    case Rekey(from, to) =>
      s.(files := Migrate(s.files, from, to), copies := Purged(s.copies, from),
         carried := s.carried[to := CarriedBy(s, from)] - {from})
    case Recover => s.(files := Restore(s.files, s.copies))
    case Damage => s.(files := s.files.(main := Corrupt))
    case Fresh(pw) => s.(carried := s.carried[pw := 0])
    case Retire(pw) =>
      s.(copies := Purged(s.copies, pw), carried := if pw == "" then s.carried else s.carried - {pw})
    case Shelve(now, retired) => s.(copies := Backup(s.files, s.copies, now, retired))
    case Cleanse(pw) => s.(copies := Purged(s.copies, pw))
    case Desk(users, registry, quarantine, config) =>
      s.(users := users, registry := registry, quarantine := quarantine, config := config)
  }

  lemma DeskGives(s: State, t: State)
    requires t.files == s.files && t.copies == s.copies && t.daemon == s.daemon && t.carried == s.carried
    ensures Did(s, DeskOf(t)) == t
  {
  }

  // ---- what the daemon does on its own ----

  /** What a running daemon counts: every byte of a password in its quota map, once, and no other's. */
  ghost predicate Counts(s: State, t: State, pw: Password, n: nat)
    requires s.daemon.Running?
  {
    && t.daemon.Running? && t.files == s.files
    && forall k: Password ::
         var grown := if k == pw && pw in s.daemon.body.quotas then n else 0;
         UsedIn(t.daemon.body, k) == UsedIn(s.daemon.body, k) + grown && CarriedBy(t, k) == CarriedBy(s, k) + grown
  }

  /** A save leaves the files it reaches sealed and with the counters in memory; a reset leaves nothing
      on the counters it names, and takes both files with it. */
  ghost predicate SavesAs(s: State, t: State, act: Act)
    requires s.daemon.Running?
  {
    && t.daemon.Running? && t.carried == s.carried
    && (act == Save(MirrorOnly) ==> t.files.main == s.files.main)
    && (act == Save(MainOnly) ==> t.files.bak == s.files.bak)
    && (act != Save(MirrorOnly) ==> Loadable(t.files.main))
    && (act != Save(MainOnly) ==> Loadable(t.files.bak))
    && forall k: Password ::
         && UsedIn(t.daemon.body, k) ==
            (if act == ResetAll || act == ResetUsage(k) then 0 else UsedIn(s.daemon.body, k))
         && (act != Save(MirrorOnly) ==> t.files.main.Used(k) == UsedIn(t.daemon.body, k))
         && (act != Save(MainOnly) ==> t.files.bak.Used(k) == UsedIn(t.daemon.body, k))
  }

  lemma DaemonMoves(s: State, act: Act)
    requires s.daemon.Running?
    ensures if act.Log? then Counts(s, Do(s, act), act.pw, act.bytes) else SavesAs(s, Do(s, act), act)
  {
  }

  datatype Script = Nothing | One(step: Small) | Both(first: Script, second: Script)

  function Ran(s: State, script: Script): State
    decreases script
  {
    match script
    case Nothing => s
    case One(e) => Did(s, e)
    case Both(a, b) => Ran(Ran(s, a), b)
  }

  // ---- the books ----

  /** What the daemon would start from. */
  function LoadedUsed(f: Files, k: Password): nat {
    var used := Loaded(f.main, f.bak);
    if k in used then used[k] else 0
  }

  function InService(s: State, k: Password): nat {
    if s.daemon.Running? then UsedIn(s.daemon.body, k) else LoadedUsed(s.files, k)
  }

  /** The key an account's counter is under after a step. */
  function Followed(e: Small, k: Password): Password {
    if e.Rekey? && k == e.from then e.to else k
  }

  function Follow(script: Script, k: Password): Password {
    match script
    case Nothing => k
    case One(e) => Followed(e, k)
    case Both(a, b) => Follow(b, Follow(a, k))
  }

  predicate Resets(act: Act, k: Password) {
    act.ResetAll? || (act.ResetUsage? && act.pw == k)
  }

  /** The bytes the daemon itself was told to reset. */
  function ResetBytes(s: State, acts: seq<Act>, k: Password): nat {
    if acts == [] then 0
    else
      var n := |acts| - 1;
      var t := Env(s, acts[..n]);
      ResetBytes(s, acts[..n], k)
      + (if t.daemon.Running? && Resets(acts[n], k) then UsedIn(t.daemon.body, k) else 0)
  }

  /** The bytes a step takes out of service: those reset, those in the memory of a daemon that is
      stopped and not in the file it will start from, and those a rewritten file no longer has. At
      stops and rewrites that is the difference of what is in service, so there the balance of a
      single step is a definition. What the balance says of the code lies elsewhere: that the
      operations are these steps and no others (`ScriptOfRan`), that they take no other account's
      key (the `Carries` lemmas), and when a stop (`HaltDropsIff`) or a run (`GentleRunsLoseNothing`)
      drops nothing. */
  function Dropped(s: State, e: Small, k: Password): int {
    match e
    case Acts(acts) => ResetBytes(s, acts, k)
    case Halt => if s.daemon.Running? then UsedIn(s.daemon.body, k) - LoadedUsed(s.files, k) else 0
    case Erase(_) => FileLoss(s, e, k)
    case Rekey(_, _) => FileLoss(s, e, k)
    case Recover => FileLoss(s, e, k)
    case Damage => FileLoss(s, e, k)
    case _ => 0
  }

  function FileLoss(s: State, e: Small, k: Password): int {
    if s.daemon.Running? then 0 else LoadedUsed(s.files, k) - LoadedUsed(Did(s, e).files, Followed(e, k))
  }

  function DroppedIn(s: State, script: Script, k: Password): int
    decreases script
  {
    match script
    case Nothing => 0
    case One(e) => Dropped(s, e, k)
    case Both(a, b) => DroppedIn(s, a, k) + DroppedIn(Ran(s, a), b, Follow(a, k))
  }

  /** The step is not about somebody else taking this key, or this account going; a counter moves
      only while the daemon is down, and to a key no counter is under. */
  predicate SparesStep(s: State, e: Small, k: Password) {
    match e
    case Erase(pw) => pw != k
    case Fresh(pw) => pw != k
    case Retire(pw) => pw != k
    case Rekey(from, to) =>
      s.daemon.Stopped? && from != to && from != "" && to != "" && to != k && to !in s.files.main.Keys() + s.files.bak.Keys()
    case _ => true
  }

  predicate Spares(s: State, script: Script, k: Password)
    decreases script
  {
    match script
    case Nothing => true
    case One(e) => SparesStep(s, e, k)
    case Both(a, b) => Spares(s, a, k) && Spares(Ran(s, a), b, Follow(a, k))
  }

  ghost predicate Balanced(s: State, t: State, k: Password, j: Password, dropped: int) {
    CarriedBy(t, j) - CarriedBy(s, k) == InService(t, j) - InService(s, k) + dropped
  }

  lemma DoBalances(s: State, act: Act, k: Password)
    ensures Balanced(s, Do(s, act), k, k,
                     if s.daemon.Running? && Resets(act, k) then UsedIn(s.daemon.body, k) else 0)
  {
  }

  lemma {:induction false} ActsBalance(s: State, acts: seq<Act>, k: Password)
    ensures Balanced(s, Env(s, acts), k, k, ResetBytes(s, acts, k))
  {
    if acts != [] {
      var n := |acts| - 1;
      ActsBalance(s, acts[..n], k);
      DoBalances(Env(s, acts[..n]), acts[n], k);
    }
  }

  lemma StepBalances(s: State, e: Small, k: Password)
    requires SparesStep(s, e, k)
    ensures Balanced(s, Did(s, e), k, Followed(e, k), Dropped(s, e, k))
  {
    if e.Acts? { ActsBalance(s, e.acts, k); }
  }

  /** Conservation: through any script, the bytes metered for an account are the growth of what is
      in service for it plus what was taken out of service on the way. */
  lemma {:induction false} ScriptBalances(s: State, script: Script, k: Password)
    requires Spares(s, script, k)
    ensures Balanced(s, Ran(s, script), k, Follow(script, k), DroppedIn(s, script, k))
    decreases script
  {
    match script
    case Nothing =>
    case One(e) => StepBalances(s, e, k);
    case Both(a, b) =>
      ScriptBalances(s, a, k);
      ScriptBalances(Ran(s, a), b, Follow(a, k));
  }

  // ---- when nothing is dropped ----

  /** A main file the daemon can load, or a new installation with nothing to load or restore yet. */
  predicate Ready(s: State) {
    Loadable(s.files.main) || (s.files.main.Absent? && s.files.bak.Absent? && s.copies == [])
  }

  /** Where that leads without disk faults: as long as no save has reached the main file, there may
      be a mirror, but no copy. */
  predicate Intact(s: State) {
    || Loadable(s.files.main)
    || (s.files.main.Absent? && s.copies == [] && (s.files.bak.Absent? || Loadable(s.files.bak)))
  }

  /** Stopping the daemon loses what it metered since the main file was last written, and nothing
      exactly when the file is up to date. The daemon has no handler for the signal it is stopped
      with: it does not save. */
  lemma HaltDropsIff(s: State, k: Password)
    requires s.daemon.Running? && Ready(s)
    ensures Dropped(s, Halt, k) == UsedIn(s.daemon.body, k) - s.files.main.Used(k)
    ensures Dropped(s, Halt, k) == 0 <==> s.files.main.Used(k) == UsedIn(s.daemon.body, k)
  {
  }

  lemma {:induction false} ActsKeepIntact(s: State, acts: seq<Act>)
    requires Intact(s)
    ensures Intact(Env(s, acts))
  {
    if acts != [] {
      ActsKeepIntact(s, acts[..|acts| - 1]);
    }
  }

  predicate Undamaged(script: Script) {
    match script
    case Nothing => true
    case One(e) => !e.Damage?
    case Both(a, b) => Undamaged(a) && Undamaged(b)
  }

  lemma StepKeepsIntact(s: State, e: Small)
    requires Intact(s) && !e.Damage?
    ensures Intact(Did(s, e))
  {
    if e.Acts? { ActsKeepIntact(s, e.acts); }
  }

  lemma {:induction false} ScriptKeepsIntact(s: State, script: Script)
    requires Intact(s) && Undamaged(script)
    ensures Intact(Ran(s, script))
    decreases script
  {
    match script
    case Nothing =>
    case One(e) => StepKeepsIntact(s, e);
    case Both(a, b) =>
      ScriptKeepsIntact(s, a);
      ScriptKeepsIntact(Ran(s, a), b);
  }

  /** Every stop finds the file up to date for this key, and nobody resets it. */
  predicate GentleStep(s: State, e: Small, k: Password) {
    && (e.Acts? ==> forall i :: 0 <= i < |e.acts| ==> !Resets(e.acts[i], k))
    && (e.Halt? && s.daemon.Running? ==> s.files.main.Used(k) == UsedIn(s.daemon.body, k))
  }

  predicate Gentle(s: State, script: Script, k: Password)
    decreases script
  {
    match script
    case Nothing => true
    case One(e) => GentleStep(s, e, k)
    case Both(a, b) => Gentle(s, a, k) && Gentle(Ran(s, a), b, Follow(a, k))
  }

  lemma {:induction false} NothingReset(s: State, acts: seq<Act>, k: Password)
    requires forall i :: 0 <= i < |acts| ==> !Resets(acts[i], k)
    ensures ResetBytes(s, acts, k) == 0
  {
    if acts != [] {
      NothingReset(s, acts[..|acts| - 1], k);
    }
  }

  /** While there is no main file, the mirror holds no more of this account than the daemon's
      memory does, and nothing once the daemon is down. */
  predicate Level(s: State, k: Password) {
    s.files.main.Absent? ==> s.files.bak.Used(k) <= if s.daemon.Running? then UsedIn(s.daemon.body, k) else 0
  }

  lemma {:induction false} ActsKeepLevel(s: State, acts: seq<Act>, k: Password)
    requires Level(s, k)
    ensures Level(Env(s, acts), k)
  {
    if acts != [] {
      ActsKeepLevel(s, acts[..|acts| - 1], k);
    }
  }

  lemma RekeyDropsNothing(s: State, from: Password, to: Password, k: Password)
    requires Intact(s) && Level(s, k) && SparesStep(s, Rekey(from, to), k)
    ensures var e := Rekey(from, to); Dropped(s, e, k) == 0 && Level(Did(s, e), Followed(e, k))
  {
  }

  lemma GentleStepDropsNothing(s: State, e: Small, k: Password)
    requires Intact(s) && !e.Damage? && Level(s, k) && SparesStep(s, e, k) && GentleStep(s, e, k)
    ensures Dropped(s, e, k) == 0 && Level(Did(s, e), Followed(e, k))
  {
    if e.Acts? {
      NothingReset(s, e.acts, k);
      ActsKeepLevel(s, e.acts, k);
    }
    if e.Rekey? { RekeyDropsNothing(s, e.from, e.to, k); }
  }

  /** With a main file the daemon can load, or none yet, the stops and the resets are the only
      places where bytes are lost: where they are gentle, nothing is. */
  lemma {:induction false} GentleScriptDropsNothing(s: State, script: Script, k: Password)
    requires Intact(s) && Undamaged(script) && Level(s, k) && Spares(s, script, k) && Gentle(s, script, k)
    ensures DroppedIn(s, script, k) == 0 && Level(Ran(s, script), Follow(script, k))
    decreases script
  {
    match script
    case Nothing =>
    case One(e) => GentleStepDropsNothing(s, e, k);
    case Both(a, b) =>
      GentleScriptDropsNothing(s, a, k);
      ScriptKeepsIntact(s, a);
      GentleScriptDropsNothing(Ran(s, a), b, Follow(a, k));
  }

  // ---- the lifetime ledger against what was metered ----

  /** The ledger, and whatever it can still add by reading the file now and again after the next
      save, is at most what was metered; and a mirror without a main file is not ahead. */
  predicate Covered(s: State, k: Password, l: Ledger) {
    && (s.files.main.Absent? ==> s.files.bak.Used(k) <= InService(s, k))
    && l.total.OrZero() + Growth(l.last.OrZero(), s.files.main.Used(k))
    + Growth(s.files.main.Used(k), InService(s, k)) <= CarriedBy(s, k)
  }

  /** Reading on the way adds at least as much as not reading on the way. */
  lemma GrowthTriangle(a: nat, b: nat, c: nat)
    ensures Growth(a, c) <= Growth(a, b) + Growth(b, c)
  {
  }

  lemma GrowthBySteps(a: nat, b: nat, n: nat)
    ensures Growth(a, b + n) <= Growth(a, b) + n
  {
  }

  lemma SaveCovers(s: State, mode: SaveMode, k: Password, l: Ledger)
    requires Covered(s, k, l)
    ensures Covered(Do(s, Save(mode)), k, l)
  {
    GrowthTriangle(l.last.OrZero(), s.files.main.Used(k), InService(s, k));
  }

  lemma LogCovers(s: State, pw: Password, n: nat, k: Password, l: Ledger)
    requires Covered(s, k, l)
    ensures Covered(Do(s, Log(pw, n)), k, l)
  {
    GrowthBySteps(s.files.main.Used(k), InService(s, k), n);
  }

  lemma DoCovers(s: State, act: Act, k: Password, l: Ledger)
    requires Covered(s, k, l)
    ensures Covered(Do(s, act), k, l)
  {
    match act
    case Log(pw, n) => LogCovers(s, pw, n, k, l);
    case Save(mode) => SaveCovers(s, mode, k, l);
    case _ => GrowthTriangle(l.last.OrZero(), s.files.main.Used(k), InService(s, k));
  }

  lemma {:induction false} ActsCover(s: State, acts: seq<Act>, k: Password, l: Ledger)
    requires Covered(s, k, l)
    ensures Covered(Env(s, acts), k, l)
  {
    if acts != [] {
      var n := |acts| - 1;
      ActsCover(s, acts[..n], k, l);
      DoCovers(Env(s, acts[..n]), acts[n], k, l);
    }
  }

  lemma RekeyCovers(s: State, from: Password, to: Password, k: Password, l: Ledger)
    requires Intact(s) && SparesStep(s, Rekey(from, to), k) && Covered(s, k, l)
    ensures Covered(Did(s, Rekey(from, to)), Followed(Rekey(from, to), k), l)
  {
  }

  lemma RecoverCovers(s: State, k: Password, l: Ledger)
    requires Intact(s) && Covered(s, k, l)
    ensures Covered(Did(s, Recover), k, l)
  {
    GrowthTriangle(l.last.OrZero(), s.files.main.Used(k), InService(s, k));
  }

  lemma StepCovers(s: State, e: Small, k: Password, l: Ledger)
    requires Intact(s) && !e.Damage? && SparesStep(s, e, k) && Covered(s, k, l)
    ensures Covered(Did(s, e), Followed(e, k), l)
  {
    match e
    case Acts(acts) => ActsCover(s, acts, k, l);
    case Rekey(from, to) => RekeyCovers(s, from, to, k, l);
    case Recover => RecoverCovers(s, k, l);
    case _ =>
  }

  lemma {:induction false} ScriptCovers(s: State, script: Script, k: Password, l: Ledger)
    requires Intact(s) && Undamaged(script) && Spares(s, script, k) && Covered(s, k, l)
    ensures Covered(Ran(s, script), Follow(script, k), l)
    decreases script
  {
    match script
    case Nothing =>
    case One(e) => StepCovers(s, e, k, l);
    case Both(a, b) =>
      ScriptCovers(s, a, k, l);
      ScriptKeepsIntact(s, a);
      ScriptCovers(Ran(s, a), b, Follow(a, k), l);
  }

  /** A poll of the counter file spends only what was covered. */
  lemma PollIsCovered(s: State, k: Password, l: Ledger)
    requires Covered(s, k, l) && l.last.OrZero() <= l.total.OrZero()
    ensures Covered(s, k, Poll(l, s.files.main.Used(k)))
  {
  }
}
