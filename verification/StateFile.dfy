/** `quota-state.json`, its `.bak` mirror and its timed copies: the daemon's counters on disk,
    and what the panel does to them behind the daemon's back. */
module StateFile {
  import opened Accounts
  import opened Sums

  datatype Content = Content(used: map<Password, nat>, quotas: map<Password, real>)
  {
    function Keys(): set<Password> {
      used.Keys + quotas.Keys
    }

    function Without(pw: Password): Content {
      Content(used - {pw}, quotas - {pw})
    }
  }

  /** A version-2 file is sealed: its checksum names the content it was computed over. A legacy
      file, or one the panel rewrote, carries none. */
  datatype Seal = Unsealed | Over(content: Content)

  datatype File = Absent | Corrupt | Doc(body: Content, seal: Seal)
  {
    function Keys(): set<Password> {
      if Doc? then body.Keys() else {}
    }

    function Used(pw: Password): nat {
      if Doc? && pw in body.used then body.used[pw] else 0
    }
  }

  function Sealed(body: Content): File {
    Doc(body, Over(body))
  }

  /** `loadStateFile`: the daemon refuses a file whose checksum does not match. */
  predicate Loadable(f: File) {
    f.Doc? && (f.seal.Over? ==> f.seal.content == f.body)
  }

  /** The counters the daemon starts from. */
  function Loaded(main: File, bak: File): map<Password, nat> {
    if Loadable(main) then main.body.used else if Loadable(bak) then bak.body.used else map[]
  }

  datatype Files = Files(main: File, bak: File)

  /** `_zivpn_forget_password`: both sections, the seal dropped, the mirror overwritten. */
  function Forget(f: Files, pw: Password): Files {
    if pw == "" || !f.main.Doc? || pw !in f.main.Keys() then f
    else
      var payload := Doc(f.main.body.Without(pw), Unsealed);
      Files(payload, payload)
  }

  predicate Movable<V>(m: map<Password, V>, from: Password, to: Password) {
    from in m && to !in m
  }

  function Moved<V>(m: map<Password, V>, from: Password, to: Password): map<Password, V> {
    if Movable(m, from, to) then (m - {from})[to := m[from]] else m
  }

  /** `_zivpn_migrate_state_key`. */
  function Migrate(f: Files, from: Password, to: Password): Files {
    if from == "" || to == "" || from == to || !f.main.Doc? then f
    else if Movable(f.main.body.used, from, to) || Movable(f.main.body.quotas, from, to) then
      var payload := Doc(Content(Moved(f.main.body.used, from, to), Moved(f.main.body.quotas, from, to)), Unsealed);
      Files(payload, payload)
    else f
  }

  /** A file under `backups/`: a timed copy of the main file, or of the mirror (`.json.bak`). */
  datatype Copy = Copy(stamp: int, mirror: bool, file: File)

  function PurgedFile(f: File, pw: Password): File {
    if f.Doc? && pw in f.Keys() then Doc(f.body.Without(pw), Unsealed) else f
  }

  /** `_zivpn_purge_password_in_backups`. */
  function Purged(copies: seq<Copy>, pw: Password): (r: seq<Copy>)
    ensures |r| == |copies|
  {
    if pw == "" then copies
    else seq(|copies|, i requires 0 <= i < |copies| => copies[i].(file := PurgedFile(copies[i].file, pw)))
  }

  /** The newest main copy. */
  function Newest(copies: seq<Copy>): File {
    if copies == [] then Absent
    else
      var last := copies[|copies| - 1];
      if !last.mirror then last.file else Newest(copies[..|copies| - 1])
  }

  function Kept(copies: seq<Copy>, dropped: set<int>): seq<Copy> {
    if copies == [] then []
    else if copies[0].stamp in dropped then Kept(copies[1..], dropped)
    else [copies[0]] + Kept(copies[1..], dropped)
  }

  /** `zivpn_state_backup`: `dropped` are the stamps past the retention date. */
  function Backup(f: Files, copies: seq<Copy>, now: int, dropped: set<int>): seq<Copy> {
    if f.main.Absent? then copies
    else
      var taken := if Newest(copies) == f.main then copies
                   else copies + [Copy(now, false, f.main)]
                        + (if f.bak.Absent? then [] else [Copy(now, true, f.bak)]);
      Kept(taken, dropped)
  }

  /** The newest readable main copy, or nothing. */
  function NewestValid(copies: seq<Copy>): File {
    if copies == [] then Absent
    else
      var last := copies[|copies| - 1];
      if !last.mirror && last.file.Doc? then last.file else NewestValid(copies[..|copies| - 1])
  }

  /** `zivpn_state_restore`. */
  function Restore(f: Files, copies: seq<Copy>): Files {
    if f.main.Doc? then f
    else if f.bak.Doc? then f.(main := f.bak)
    else if NewestValid(copies).Doc? then f.(main := NewestValid(copies))
    else f
  }

  /** The passwords restorable from the copies. */
  function CopyKeys(copies: seq<Copy>): set<Password> {
    set i, pw | 0 <= i < |copies| && pw in copies[i].file.Keys() :: pw
  }

  // ---- what a purge leaves behind ----

  /** A purge leaves nothing of the password in the main file or the mirror exactly when the
      mirror had no counter the main file lacked: an unreadable main file counts as lacking all. */
  lemma ForgetIsCleanIff(f: Files, pw: Password)
    requires pw != ""
    ensures pw !in Forget(f, pw).main.Keys() && pw !in Forget(f, pw).bak.Keys() <==>
            (pw in f.bak.Keys() ==> pw in f.main.Keys())
  {
  }

  /** The same for the old password of a migration, once the new one is free. */
  lemma MigrateIsCleanIff(f: Files, from: Password, to: Password)
    requires from != "" && to != "" && from != to && to !in f.main.Keys()
    ensures from !in Migrate(f, from, to).main.Keys() && from !in Migrate(f, from, to).bak.Keys() <==>
            (from in f.bak.Keys() ==> from in f.main.Keys())
  {
  }

  /** A purge touches only its own counter, and the daemon accepts what it wrote. */
  lemma ForgetTouchesOneCounter(f: Files, pw: Password, other: Password)
    requires other != pw
    ensures Forget(f, pw).main.Used(other) == f.main.Used(other)
    ensures pw in f.main.Keys() && pw != "" ==>
              Loaded(Forget(f, pw).main, Forget(f, pw).bak) == f.main.body.used - {pw}
  {
  }

  /** Why the seal is dropped and the mirror overwritten: a purge that kept either would hand
      the daemon the mirror, and the purged counter with it. */
  lemma StaleSealRevivesTheCounter(body: Content, pw: Password)
    requires pw in body.used
    ensures var kept := Doc(body.Without(pw), Over(body));
            !Loadable(kept) && Loaded(kept, Sealed(body)) == body.used
  {
    assert pw !in body.Without(pw).used;
  }

  /** A migration moves a counter and its limit to the new key and changes nothing else: every
      other counter, and the sum of all of them, is the same, in the mirror too. */
  lemma MigrateConserves(f: Files, from: Password, to: Password)
    requires from != "" && to != "" && from != to && f.main.Doc? && to !in f.main.Keys()
    ensures var g := Migrate(f, from, to);
            && g.main.Doc?
            && g.main.Used(to) == f.main.Used(from)
            && g.main.Used(from) == 0 && from !in g.main.Keys()
            && (forall pw :: pw != from && pw != to ==> g.main.Used(pw) == f.main.Used(pw))
            && Sum(g.main.body.used) == Sum(f.main.body.used)
            && (from in f.main.Keys() ==> g.bak == g.main && Loaded(g.main, g.bak) == g.main.body.used)
  {
    var used := f.main.body.used;
    var moved := Migrate(f, from, to).main.body.used;
    if from in used {
      SumWithout(used, from);
      SumWithout(moved, to);
      assert moved - {to} == used - {from};
    }
  }

  /** A migration never writes over a counter: with one under the new key already, both stay as they are. */
  lemma MigrateNeverOverwrites(f: Files, from: Password, to: Password)
    requires f.main.Doc? && to in f.main.body.used
    ensures var g := Migrate(f, from, to);
            g.main.Doc? && g.main.body.used == f.main.body.used
            && (g.bak == f.bak || (g.bak.Doc? && g.bak.body.used == f.main.body.used))
    ensures to in f.main.body.quotas ==> Migrate(f, from, to) == f
  {
  }

  /** Purged copies can bring the password back under no restore. */
  lemma PurgedCopiesAreClean(copies: seq<Copy>, pw: Password)
    ensures CopyKeys(Purged(copies, pw)) <= CopyKeys(copies)
    ensures pw != "" ==> pw !in CopyKeys(Purged(copies, pw))
    ensures forall i :: 0 <= i < |copies| && pw !in copies[i].file.Keys() ==> Purged(copies, pw)[i] == copies[i]
  {
    var purged := Purged(copies, pw);
    forall k | k in CopyKeys(purged) ensures k in CopyKeys(copies) && (pw == "" || k != pw) {
      var i :| 0 <= i < |purged| && k in purged[i].file.Keys();
      assert k in copies[i].file.Keys();
    }
  }

  lemma {:induction false} NewestValidIsACopy(copies: seq<Copy>)
    ensures NewestValid(copies).Doc? ==> exists i :: 0 <= i < |copies| && copies[i].file == NewestValid(copies)
    ensures NewestValid(copies).Keys() <= CopyKeys(copies)
  {
    if copies != [] {
      var n := |copies| - 1;
      NewestValidIsACopy(copies[..n]);
      assert CopyKeys(copies[..n]) <= CopyKeys(copies) by {
        forall k | k in CopyKeys(copies[..n]) ensures k in CopyKeys(copies) {
          var i :| 0 <= i < n && k in copies[..n][i].file.Keys();
          assert k in copies[i].file.Keys();
        }
      }
      if NewestValid(copies).Doc? {
        if !copies[n].mirror && copies[n].file.Doc? {
          forall k | k in NewestValid(copies).Keys() ensures k in CopyKeys(copies) {
            assert k in copies[n].file.Keys();
          }
        } else {
          var i :| 0 <= i < n && copies[..n][i].file == NewestValid(copies[..n]);
          assert copies[i].file == NewestValid(copies);
        }
      }
    }
  }

  lemma {:induction false} KeptAreCopies(copies: seq<Copy>, dropped: set<int>)
    ensures forall i :: 0 <= i < |Kept(copies, dropped)| ==> Kept(copies, dropped)[i] in copies
  {
    if copies != [] {
      KeptAreCopies(copies[1..], dropped);
    }
  }

  /** A backup holds nothing but what the files and the earlier copies held. */
  lemma BackupsAreCopies(f: Files, copies: seq<Copy>, now: int, dropped: set<int>)
    ensures forall c :: c in Backup(f, copies, now, dropped) ==>
              c in copies || c.file == f.main || c.file == f.bak
  {
    var taken := if Newest(copies) == f.main then copies
                 else copies + [Copy(now, false, f.main)]
                      + (if f.bak.Absent? then [] else [Copy(now, true, f.bak)]);
    KeptAreCopies(taken, dropped);
  }

  lemma {:induction false} KeptIffNotDropped(copies: seq<Copy>, dropped: set<int>, c: Copy)
    ensures c in Kept(copies, dropped) <==> c in copies && c.stamp !in dropped
  {
    if copies != [] {
      KeptIffNotDropped(copies[1..], dropped, c);
      assert copies == [copies[0]] + copies[1..];
    }
  }

  /** What a backup leaves: of the earlier copies those not past retention, and, unless the newest
      main copy equals the file, a copy of the file and of its mirror. */
  lemma BackupKeeps(f: Files, copies: seq<Copy>, now: int, dropped: set<int>, c: Copy)
    requires !f.main.Absent?
    ensures c in Backup(f, copies, now, dropped) <==>
              && c.stamp !in dropped
              && (c in copies || (Newest(copies) != f.main
                                  && (c == Copy(now, false, f.main) || (!f.bak.Absent? && c == Copy(now, true, f.bak)))))
  {
    var mirrors := if f.bak.Absent? then [] else [Copy(now, true, f.bak)];
    var taken := if Newest(copies) == f.main then copies else copies + [Copy(now, false, f.main)] + mirrors;
    KeptIffNotDropped(taken, dropped, c);
  }

  // ---- backup and restore ----

  /** Where the newest main copy is, or -1. */
  function NewestAt(copies: seq<Copy>): (i: int)
    ensures -1 <= i < |copies|
    ensures i >= 0 ==> !copies[i].mirror && copies[i].file == Newest(copies)
    ensures i < 0 ==> Newest(copies) == Absent
    ensures forall k :: i < k < |copies| ==> copies[k].mirror
  {
    if copies == [] then -1
    else if !copies[|copies| - 1].mirror then |copies| - 1
    else NewestAt(copies[..|copies| - 1])
  }

  /** Retention drops the oldest copies first. */
  ghost predicate Aged(copies: seq<Copy>, dropped: set<int>) {
    forall i, j :: 0 <= i < j < |copies| && copies[j].stamp in dropped ==> copies[i].stamp in dropped
  }

  /** There is no newest main copy equal to the file for a backup to rely on, or there is one and
      retention keeps it. */
  predicate Outlives(main: File, copies: seq<Copy>, dropped: set<int>) {
    Newest(copies) == main ==> NewestAt(copies) >= 0 && copies[NewestAt(copies)].stamp !in dropped
  }

  lemma {:induction false} KeptAppend(a: seq<Copy>, b: seq<Copy>, dropped: set<int>)
    ensures Kept(a + b, dropped) == Kept(a, dropped) + Kept(b, dropped)
  {
    if a == [] {
      assert a + b == b;
    } else {
      assert (a + b)[1..] == a[1..] + b;
      KeptAppend(a[1..], b, dropped);
    }
  }

  lemma KeptLast(copies: seq<Copy>, dropped: set<int>)
    requires copies != []
    ensures var n := |copies| - 1;
            Kept(copies, dropped) == Kept(copies[..n], dropped) + (if copies[n].stamp in dropped then [] else [copies[n]])
  {
    var n := |copies| - 1;
    assert copies == copies[..n] + [copies[n]];
    KeptAppend(copies[..n], [copies[n]], dropped);
    assert [copies[n]][1..] == [];
  }

  /** If the newest main copy is kept it stays the newest; if it is dropped, oldest first, no main
      copy is left. */
  lemma {:induction false} NewestKept(copies: seq<Copy>, dropped: set<int>)
    requires NewestAt(copies) >= 0 && Aged(copies, dropped)
    ensures Newest(Kept(copies, dropped)) ==
            if copies[NewestAt(copies)].stamp in dropped then Absent else Newest(copies)
  {
    var n := |copies| - 1;
    KeptLast(copies, dropped);
    if copies[n].mirror {
      assert NewestAt(copies) == NewestAt(copies[..n]) && Newest(copies) == Newest(copies[..n]);
      NewestKept(copies[..n], dropped);
      NewestPast(Kept(copies[..n], dropped), copies[n]);
      assert Kept(copies[..n], dropped) + [] == Kept(copies[..n], dropped);
    } else if copies[n].stamp in dropped {
      AllDropped(copies, dropped);
    } else {
      var kept := Kept(copies[..n], dropped) + [copies[n]];
      assert kept[|kept| - 1] == copies[n];
    }
  }

  /** A mirror copy on top changes nothing about the newest main copy. */
  lemma NewestPast(copies: seq<Copy>, mirror: Copy)
    requires mirror.mirror
    ensures Newest(copies + [mirror]) == Newest(copies)
    ensures NewestValid(copies + [mirror]) == NewestValid(copies)
  {
    assert (copies + [mirror])[..|copies|] == copies;
  }

  lemma NewestOnTop(copies: seq<Copy>, main: Copy)
    requires !main.mirror
    ensures Newest(copies + [main]) == main.file
  {
  }

  /** A pair written by a backup that is not past retention ends up on top. */
  lemma KeptPair(copies: seq<Copy>, main: Copy, mirrors: seq<Copy>, dropped: set<int>)
    requires !main.mirror && main.stamp !in dropped
    requires |mirrors| <= 1 && forall i :: 0 <= i < |mirrors| ==> mirrors[i].mirror && mirrors[i].stamp !in dropped
    ensures Newest(Kept(copies + [main] + mirrors, dropped)) == main.file
  {
    var kept := Kept(copies, dropped);
    KeptAppend(copies, [main], dropped);
    KeptAppend(copies + [main], mirrors, dropped);
    KeptAll([main], dropped);
    KeptAll(mirrors, dropped);
    NewestOnTop(kept, main);
    if mirrors == [] {
      assert kept + [main] + mirrors == kept + [main];
    } else {
      assert mirrors == [mirrors[0]];
      NewestPast(kept + [main], mirrors[0]);
    }
  }

  lemma {:induction false} KeptAll(copies: seq<Copy>, dropped: set<int>)
    requires forall i :: 0 <= i < |copies| ==> copies[i].stamp !in dropped
    ensures Kept(copies, dropped) == copies
  {
    if copies != [] {
      KeptAll(copies[1..], dropped);
    }
  }

  lemma {:induction false} AllDropped(copies: seq<Copy>, dropped: set<int>)
    requires forall i :: 0 <= i < |copies| ==> copies[i].stamp in dropped
    ensures Kept(copies, dropped) == []
  {
    if copies != [] {
      AllDropped(copies[1..], dropped);
    }
  }

  /** What one backup run leaves as the newest main copy: the file, unless the newest copy already
      equalled it and was past retention; then there is none. */
  lemma BackedUpNewest(f: Files, copies: seq<Copy>, now: int, dropped: set<int>)
    requires !f.main.Absent? && now !in dropped && Aged(copies, dropped)
    ensures Newest(Backup(f, copies, now, dropped)) ==
            if Outlives(f.main, copies, dropped) then f.main else Absent
  {
    if Newest(copies) == f.main {
      NewestKept(copies, dropped);
    } else {
      var mirrors := if f.bak.Absent? then [] else [Copy(now, true, f.bak)];
      KeptPair(copies, Copy(now, false, f.main), mirrors, dropped);
    }
  }

  lemma {:induction false} NewestReadableIsTaken(copies: seq<Copy>)
    requires Newest(copies).Doc?
    ensures NewestValid(copies) == Newest(copies)
  {
    var n := |copies| - 1;
    if copies[n].mirror {
      NewestReadableIsTaken(copies[..n]);
    }
  }

  lemma {:induction false} NoMainCopyNoRestore(copies: seq<Copy>)
    requires Newest(copies).Absent? && NewestAt(copies) < 0
    ensures NewestValid(copies) == Absent
  {
    if copies != [] {
      NoMainCopyNoRestore(copies[..|copies| - 1]);
    }
  }

  /** Only an absent main file can be copied as absent: the copies of a real one are not. */
  ghost predicate RealCopies(copies: seq<Copy>) {
    forall i :: 0 <= i < |copies| ==> !copies[i].file.Absent?
  }

  lemma KeptAreReal(copies: seq<Copy>, dropped: set<int>)
    requires RealCopies(copies)
    ensures RealCopies(Kept(copies, dropped))
  {
    KeptAreCopies(copies, dropped);
  }

  /** Backup, lose both files, restore: the counters are back exactly when the newest copy, if the
      backup relied on it instead of writing one, was not past retention. An idle week fails: the
      newest copy equals the file, so none is written, and the same run deletes it as too old. */
  lemma BackupThenRestoreIff(f: Files, copies: seq<Copy>, now: int, dropped: set<int>, lost: Files)
    requires f.main.Doc? && !lost.main.Doc? && !lost.bak.Doc?
    requires now !in dropped && Aged(copies, dropped) && RealCopies(copies)
    ensures Restore(lost, Backup(f, copies, now, dropped)).main == f.main <==> Outlives(f.main, copies, dropped)
  {
    var kept := Backup(f, copies, now, dropped);
    BackedUpNewest(f, copies, now, dropped);
    if Outlives(f.main, copies, dropped) {
      NewestReadableIsTaken(kept);
    } else {
      KeptAreReal(copies, dropped);
      assert kept == Kept(copies, dropped);
      NoMainCopyNoRestore(kept);
    }
  }

  /** The idle week at an input: one old copy of an unchanged file, and nothing left to restore. */
  lemma IdleWeekLosesTheBackup(f: Files, now: int, lost: Files)
    requires f.main.Doc? && !lost.main.Doc? && !lost.bak.Doc?
    ensures var copies := [Copy(0, false, f.main), Copy(0, true, f.bak)];
            Backup(f, copies, now, {0}) == [] && Restore(lost, Backup(f, copies, now, {0})) == lost
  {
    var copies := [Copy(0, false, f.main), Copy(0, true, f.bak)];
    AllDropped(copies, {0});
    assert copies[..1] == [Copy(0, false, f.main)];
    assert Newest(copies) == Newest(copies[..1]) == f.main;
  }

  /** Backing up again with nothing changed copies nothing the second time, and only applies
      retention, exactly when the first run left the file among the copies. */
  lemma BackupIsIdempotentIff(f: Files, copies: seq<Copy>, now: int, dropped: set<int>, later: int, past: set<int>)
    requires !f.main.Absent? && now !in dropped && later !in past && Aged(copies, dropped)
    ensures var once := Backup(f, copies, now, dropped);
            Backup(f, once, later, past) == Kept(once, past) <==> Outlives(f.main, copies, dropped)
  {
    var once := Backup(f, copies, now, dropped);
    BackedUpNewest(f, copies, now, dropped);
    var main := [Copy(later, false, f.main)];
    var added := main + (if f.bak.Absent? then [] else [Copy(later, true, f.bak)]);
    KeptAppend(once, added, past);
    KeptLast(main, past);
    KeptLast(added, past);
    assert added[..1] == main && main[..0] == [] && once + added == once + main + added[1..];
    assert Kept(added, past) != [];
  }

  /** A restore ends with a readable file exactly when the file, its mirror or some main copy is
      readable. */
  lemma RestoreSucceedsIff(f: Files, copies: seq<Copy>)
    ensures Restore(f, copies).main.Doc? <==>
            f.main.Doc? || f.bak.Doc? || exists i :: 0 <= i < |copies| && !copies[i].mirror && copies[i].file.Doc?
  {
    NewestValidIff(copies);
  }

  /** Copy `i` is the newest readable one of the main file. */
  ghost predicate IsNewestReadable(copies: seq<Copy>, i: int) {
    && 0 <= i < |copies| && !copies[i].mirror && copies[i].file.Doc?
    && forall k :: i < k < |copies| ==> copies[k].mirror || !copies[k].file.Doc?
  }

  lemma {:induction false} NewestReadableIs(copies: seq<Copy>, i: int)
    requires IsNewestReadable(copies, i)
    ensures NewestValid(copies) == copies[i].file
  {
    var n := |copies| - 1;
    if i < n { NewestReadableIs(copies[..n], i); }
  }

  /** What a restore takes: nothing while the main file is readable, then the mirror, which the
      daemon wrote last, and only without either the newest readable copy of the main file. The
      mirror itself is never written. */
  lemma RestorePrefersTheMirror(f: Files, copies: seq<Copy>)
    ensures Restore(f, copies).bak == f.bak
    ensures f.main.Doc? ==> Restore(f, copies).main == f.main
    ensures !f.main.Doc? && f.bak.Doc? ==> Restore(f, copies).main == f.bak
    ensures forall i :: !f.main.Doc? && !f.bak.Doc? && IsNewestReadable(copies, i) ==>
              Restore(f, copies).main == copies[i].file
  {
    forall i | IsNewestReadable(copies, i) ensures NewestValid(copies) == copies[i].file {
      NewestReadableIs(copies, i);
    }
  }

  lemma {:induction false} NewestValidIff(copies: seq<Copy>)
    ensures NewestValid(copies).Doc? <==>
            exists i :: 0 <= i < |copies| && !copies[i].mirror && copies[i].file.Doc?
  {
    if copies != [] {
      var n := |copies| - 1;
      NewestValidIff(copies[..n]);
      assert forall i :: 0 <= i < n ==> copies[..n][i] == copies[i];
    }
  }
}
