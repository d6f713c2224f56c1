# Accounts, quotas and traffic accounting of the panel, verified

`install2.py` keeps VPN accounts as small text files and, beside them, several stores that have to
agree: the zivpn daemon's configuration, its counter file with a mirror and timed copies, a registry
of issued passwords, and a quarantine file. A zivpn account is counted under its password, so every
create, delete and change of password has to move or erase counters that a running daemon may be
writing at the same moment. This project models that engine, the daemon's quota logger
(`zivpn-clone/source/extras/trafficlogger/quota.go`), the traffic ledgers and two pieces of text
surgery, and proves what the code promises about them.

## How it is laid out

| module | what it holds |
|---|---|
| `Text`, `MetaFile`, `Renewal` | line splitting and joining as Python does it; the `field=value` files; `write_meta` and `renew_user` on their text, and that this is the renewal of the account the text describes |
| `MetaLock` | `_meta_set` by any number of processes, system call by system call |
| `Quota`, `Ledger`, `Sums` | the two quota parsers; the lifetime ledger against the bytes that really flowed; sums over maps |
| `Accounts`, `StateFile`, `Panel` | accounts and the derived configuration; the counter file, mirror and copies; the shared state and every operation on it as a function |
| `Attribution`, `Enforcement`, `Quarantine` | where a counter's key can be and whose bytes it holds; the enforcement pass and the guard; quarantine against locks |
| `Runs`, `Incidents`, `Standing` | whole runs of all operations: safety, what half saves and disk faults do, what else stands at every point |
| `Steps`, `Scripts`, `Conservation` | every operation taken apart into small steps with a balance of bytes for each; over whole runs, where an account's bytes are and what becomes of them |
| `Serving` | the running daemon against its configuration: what it goes by, and when it is up |
| `Outcomes`, `Sweep`, `ControlPanel` | what a caller can rely on after a creation, an edit, a deletion, a batch or a guard run; the pass account by account; the panel as a class whose methods update its fields in place, each proved to compute the operation of the same name in `Panel` |
| `SshTracker` | per-connection kernel counters charged to SSH accounts |
| `Haproxy` | `_strip_ssh_lb` |

The daemon is part of the state. It loads its counters when it starts, lets in the passwords and counts
under the keys of the configuration it was started with, and may at any moment write its memory over
the counter file, the mirror, or both. Each operation has numbered gaps, and a theorem about an operation
holds for every sequence of daemon moves in every gap. The clock, the directory order, random passwords, the number
formatting `{q:g}` (any monotone idempotent rounding) and the other protocols' meters are parameters.

## What was found

Most of what the code's comments promise holds. Where it does not, there is a lemma at a concrete
input, a condition under which it does, or both; the lemmas whose names end in `Iff` give the exact
condition.

- "An account never inherits another's bytes" (install2.py:652-657) holds over every run whose purges
  find the mirror not ahead (`RunsAreSafe`). "An account never loses its own" does not. The daemon saves
  at its start and then every few seconds (zivpn-clone/source/app/cmd/server.go:683-700), and has no
  handler for the signal `systemctl stop` sends: it is killed without a save. The loss that
  zivpn-clone/docs/CONTRAT_QUOTA.md:62-63 admits for a brutal kill is therefore that of every ordinary
  stop: each deletion, change of password or restarting apply, for any account, drops what was metered
  since the last save, for all accounts (`HaltDropsIff`, `DeletionCostsOthersIff`, and
  `DeletingOneCostsAnother` at an input). What does hold over every run is conservation: what was
  metered is what is in service plus what was dropped, each drop named (`BytesAreConserved`), and
  nothing is dropped when every stop finds the file up to date (`GentleRunsLoseNothing`). "No loss" of a
  change of password (install2.py:3650-3651) holds under that same condition (`ChangeConservesUsage`).
- A purge (`_zivpn_forget_password`) removes a password from the main file and the mirror exactly
  when the mirror holds no key the main file lacks (`ForgetIsCleanIff`). While every save reaches both
  files that is always so (`CalmRunsAreSafe`). An ordinary stop between the two writes leaves a save of
  the main file alone behind, and it stays so exactly when every key of the mirror is among those saved
  (`CutSaveKeepsSteadyIff`). With a damaged main file it need not be, and a new account can then inherit
  a deleted one's bytes (`DamagedFileLetsBytesBeInherited`).
- The meter falls back to the login when the password has no counter (install2.py:5480-5487), so an
  account whose login is another's password reads the other's bytes until it has a counter of its own
  (`ReadsItsOwnIff`, `LoginAsPasswordReadsAnother`); `create_user` does not refuse such a login.
- The timed copies do not survive an idle week. A run that finds the newest copy equal to the file
  writes none, and the same run deletes every copy older than seven days, that one included: nothing
  is left to restore (`IdleWeekLosesTheBackup`). Backup and restore bring the counters back exactly
  when the copy relied on is not past retention (`BackupThenRestoreIff`), and under the same condition
  a second backup copies nothing (`BackupIsIdempotentIff`).
- A deletion keeps every present password registered exactly when it names an account of another
  protocol, or no other account has the password it releases (`DeleteKeepsCoverIff`). `delete_user`
  accepts a quarantined password as its argument even while its account exists, and that one fails
  (`QuarantinedPasswordIsATarget`).
- `renew_user` never forgives a zivpn account's quota (`ZivpnRenewalForgivesNothing`,
  `RenewedStillPays`), but drops every field that is on neither of its lists, so the lifetime total of
  an Xray account is reset (`RenewalKeepsExactly`, `XrayRenewalForgetsUsage`).
- The two quota parsers disagree exactly on decimal commas and on numbers too large for a float, which
  the panel takes for no quota at all (`ParsersAgree`).
- A reading of 0 from an unreadable counter file, and a counter restored from an older copy, charge
  bytes twice; both are harmless under exact conditions (`FailedReadingIsHarmlessIff`,
  `RestoredCounterIsHarmlessIff`).
- `renew_user` and `set_user_quota` can part the quarantine from the locks, exactly when
  `RenewKeepsMirrorIff` and `SetQuotaKeepsMirrorIff` say.
- The guard never repairs a stale password list while no account has a quota (`GuardSettlesIff`); its
  second test of an empty list (install2.py:1460) cannot be reached.
- The guard reports a repair it cannot make: when the daemon has stopped counting while its configuration
  is in step, there is nothing to rewrite and so nothing is restarted (`DeadCounterIsNotRestarted`).
- The SSH flush charges a byte twice exactly when it reads a nonzero answer cached before the last
  rebuild (`StaleFlushIsHarmlessIff`), a rebuild without a flush before it loses what is owed
  (`RebuildIsFreeIff`), and an endpoint reused before the old connection is seen closed is charged to
  the old account (`ReusedEndpointStaysCharged`).
- `valid_name` lets one trailing newline through: `$` matches before it
  (`TrailingNewlineIsAccepted`).
- Two comments are out of date and the code was followed: install2.py:5490 and 5507 speak of a
  monthly reset the daemon no longer does (quota.go:138-151), and install2.py:533-534 counts backups
  among the traces that refuse a password, while the code purges them instead.

## Model

| member | source | states |
|---|---|---|
| Text.SplitRender | install2.py:351-363 | writing lines and reading them back is the identity exactly on non-empty lists of lines without a line boundary of their own |
| Text.LineEndSplits | install2.py:325-333 | each of `\n`, `\r\n` and `\r` ends a line once |
| Text.BlanksAreStripped | install2.py:411-423 | spaces, tabs and line ends around a text are stripped, and nothing of it |
| Text.CapitalsFold | install2.py:484-491 | each capital folds to its letter, and nothing else changes |
| MetaFile.GetAfterSet | install2.py:317-333 | a field reads as the value just set exactly when its name has no `=` |
| MetaFile.GetOtherAfterSet | install2.py:373-400 | setting a field leaves the reading of every other field alone |
| MetaFile.SetTwice | install2.py:390-397 | two settings of a field equal the last one, on the whole file |
| MetaFile.SetSurvivesTheFile | install2.py:351-371 | an update survives being written and read back exactly when neither name nor value holds a line boundary |
| MetaFile.UserMeta.Get | install2.py:325-333 | the first line with the prefix decides |
| MetaFile.UserMeta.Set | install2.py:386-400 | rewrites every line of the field in place, or appends one; the whole new text |
| MetaFile.UserMeta.WriteMeta | install2.py:447-465 | the exact lines, optional ones left out when empty |
| MetaFile.UserMeta.Renew | install2.py:3554-3582 | the renewed file, through `write_meta` and one `_meta_set` per kept field, equals the specification that the next rows speak about |
| MetaFile.RewrittenFields | install2.py:3554-3562 | what the rewrite does to every field: two dates new, fourteen fields kept, everything else gone |
| MetaFile.RenewalKeepsExactly | install2.py:3554-3582 | a field that is no flag and no date survives a renewal if and only if it is on one of the two lists or was empty |
| MetaFile.ZivpnRenewalForgivesNothing | install2.py:3554-3582 | pass, quota, limit, uuid, reseller, hit flag and lifetime fields of a zivpn account survive; only a lock set by expiry is lifted |
| MetaFile.XrayRenewalForgetsUsage | install2.py:3557-3562 | the lifetime total of an Xray account, whatever it was, is gone after a renewal |
| Renewal.RenewalOfTheFile | install2.py:3554-3582 | renewing the text and reading it as an account is renewing the account read from the text |
| MetaLock.RunKeepsInv | install2.py:373-409 | every step of every process keeps the invariant: one holder, private temporary files, every inode the name ever had reads as a serial prefix |
| MetaLock.MetaSetIsSerialisable | install2.py:373-409 | after any run the file is the committed calls applied in lock order, and every open reader sees a prefix of them |
| MetaLock.NoUpdateIsLost | install2.py:373-409 | if no process died or gave up, every call that got the lock is in the file, except at most the one still holding it |
| MetaLock.EachFieldReadsItsLastUpdate | install2.py:377-380 | under the serial meaning each field reads as its own last committed update |
| Quota.ParsersAgree | install2.py:411-423 | enforcement's and the daemon's parse agree exactly when the text has no decimal comma with a nonzero fraction and its number fits a float; a comma apart, enforcement's differs only where it takes an infinite number for none |
| Quota.WholeReadsBack | install2.py:411-423 | a printed whole number, whatever unit follows it, is read as that number |
| Quota.DecimalReadsBack | install2.py:411-423 | with decimals after a point, as that number and their fraction |
| Quota.FractionIs | install2.py:411-423 | the fraction of the decimals is their number over ten to the power of their count |
| Ledger.ReadTraffic | install2.py:5488-5522 | the branches of one call leave the polled ledger and return its reading, of which the next rows speak |
| Ledger.PollIsIdempotent | install2.py:5495-5522 | a second reading of the same counter changes nothing |
| Ledger.TotalIsObserved | install2.py:5495-5515 | from a fresh account the total is the sum of observed increases (the raw value after a drop) and is at least the last reading |
| Ledger.NextReadingIsTheTotal | install2.py:5515-5520 | the first-measure branch is never taken and the returned maximum is the total |
| Ledger.RunIsAccounted | install2.py:5488-5522 | over every sequence of traffic, resets and polls the total accounts for at most the true bytes, exactly while all polls were clean |
| Ledger.LedgerIsExactIff | install2.py:5488-5522 | right after a poll the total equals the true traffic if and only if every poll so far missed nothing |
| Ledger.FlankedResetsLoseNothing | install2.py:5488-5522 | with a poll just before and after each reset, every poll is clean |
| Ledger.FlankedLedgerIsExact | install2.py:5488-5522 | so the total is then the true traffic |
| Ledger.BothReturnsAgree | install2.py:5249-5267 | the Xray and V2Ray versions, which return the total without the maximum, answer the same |
| Ledger.TotalIsMonotone | install2.py:5497-5510 | the total never decreases |
| Ledger.FailedReadingIsHarmlessIff | install2.py:5480-5487 | a failed reading of 0 overcharges by exactly the last reading |
| Ledger.RestoredCounterIsHarmlessIff | install2.py:912-934 | a counter restored lower is charged again in full |
| Accounts.RoundedComparison | install2.py:1043-1054 | comparing with the rounded, re-parsed value still yields the rounding of the maximum |
| Accounts.FoldedIsDerived | install2.py:1026-1056 | folding in one more account is adding it to the derived map |
| Accounts.FoldIsOrderIndependent | install2.py:1026-1056 | the fold over any directory order is the rounded true maximum per password |
| Accounts.LargestQuota | install2.py:1043-1054 | the largest quota among the metered accounts with a password |
| StateFile.ForgetIsCleanIff | install2.py:1119-1149 | exact condition for a purge to leave nothing in the two files |
| StateFile.ForgetTouchesOneCounter | install2.py:1119-1149 | other counters are untouched, and the daemon loads the purged file |
| StateFile.StaleSealRevivesTheCounter | install2.py:1119-1149 | keeping the checksum would make the daemon load the mirror and the purged counter with it |
| StateFile.MigrateIsCleanIff | install2.py:848-878 | exact condition for a migration to leave nothing under the old key |
| StateFile.MigrateConserves | install2.py:848-878 | the counter moves with its value, all others and the sum are unchanged, in the mirror too |
| StateFile.MigrateNeverOverwrites | install2.py:848-878 | a migration never writes over a counter the new key already has |
| StateFile.PurgedCopiesAreClean | install2.py:787-815 | no copy holds the purged password, untouched copies are the same |
| StateFile.NewestValidIsACopy | install2.py:912-934 | a restore takes nothing that was not in a copy |
| StateFile.BackupsAreCopies | install2.py:880-910 | a backup holds only the two files and earlier copies |
| StateFile.BackupKeeps | install2.py:880-910 | a copy is there after a backup exactly when it is not past retention and was there before, or is of the file or its mirror and the newest copy was not the file |
| StateFile.BackupIsIdempotentIff | install2.py:880-910 | whatever retention drops in either run, the second copies nothing exactly when the first left the file among the copies |
| StateFile.BackupThenRestoreIff | install2.py:880-934 | after a backup and the loss of both files a restore brings the counters back exactly when the copy the backup relied on is not past retention |
| StateFile.IdleWeekLosesTheBackup | install2.py:880-910 | one old copy of an unchanged file: the backup deletes it, writes none, and a restore finds nothing |
| StateFile.RestoreSucceedsIff | install2.py:912-934 | a restore ends with a readable file exactly when the file, the mirror or some main copy is readable |
| StateFile.RestorePrefersTheMirror | install2.py:912-934 | a readable file is left alone; else the mirror is taken; without either, the newest readable copy of the main file; the mirror is never written |
| Attribution.EnvKeys | zivpn-clone/source/extras/trafficlogger/quota.go:61-125 | the daemon neither invents a key nor changes the panel's stores |
| Attribution.ApplyKeys | install2.py:1007-1090 | applying the configuration brings in only passwords of present accounts |
| Attribution.DeleteRemovesEveryTrace | install2.py:3519-3546 | stop, purge, start: under every interleaving the deleted password is in no file, no copy, not in the daemon's memory and not in the configuration |
| Attribution.MirrorAheadSurvivesPurge | install2.py:1119-1149 | with the mirror ahead the purge changes nothing and the daemon's next start can load the old counter |
| Attribution.FirstFreeIsFree | install2.py:544-552 | a drawn password is neither in use nor registered |
| Attribution.SettledStartsFreshIff | install2.py:528-553 | an accepted password is free, and starts from nothing exactly when the daemon in service does not still hold it |
| Attribution.SettledOwned | install2.py:528-555 | on safe states that is always so |
| Attribution.DeletedPasswordIsReusable | install2.py:3541-3546 | a cleanly deleted password is accepted for a new account at once, and starts from nothing |
| Attribution.NewAccountReadsZero | install2.py:528-555 | a created zivpn account's raw counter reads zero |
| Attribution.ChangeRemovesOldKey | install2.py:3645-3674 | after an accepted change nothing anywhere holds the old password |
| Attribution.ChangeConservesUsage | install2.py:3633-3676 | an accepted change moves the counter, keeps all others, their sum and the ledger, and brings the daemon back with it; no byte of the account is lost exactly when the file was up to date at the stop |
| Enforcement.VerdictClosedForm | install2.py:3704-3785 | the five branches have one closed form, the date before today and the quota in GiB spelled out, and a lock change is the only change |
| Enforcement.VerdictIsStable | install2.py:3704-3785 | a second verdict on the same reading changes nothing; identity, quota and ledger are never touched |
| Enforcement.PassOnAccount | install2.py:3688-3785 | an account's way through a pass: polled once, judged once |
| Enforcement.PassClosedForm | install2.py:3688-3788 | after a pass an account is locked exactly when its date is before today, or its total has reached its quota in GiB, or locked for another reason |
| Enforcement.PassIsIdempotent | install2.py:3688-3788 | a second pass changes nothing at all and rebuilds nothing |
| Enforcement.RenewedStillPays | install2.py:3554-3582 | renewed and enforced, a zivpn account is open only if unexpired and under its quota by its unchanged lifetime total |
| Enforcement.ReadingIsTheTotal | install2.py:5520 | with the total at least the last reading, a call returns the total it leaves |
| Enforcement.DerivedDependsOnActive | install2.py:1007-1056 | the derived configuration depends on the active zivpn accounts only |
| Enforcement.DirtyFlagIsSound | install2.py:3737-3788 | in step on an earlier day, in step after a pass today, even when the rebuild is skipped |
| Enforcement.GuardFixpoint | install2.py:1473-1494 | right after an apply there is no drift and every quota key is in the password list |
| Enforcement.GuardSettlesIff | install2.py:1401-1500 | exactly when a guard run leaves the configuration in step, the daemon running or stopped beforehand |
| Quarantine.LockMirrors | install2.py:1299-1323 | locking and quarantining keeps the quarantine the mirror of the locks |
| Quarantine.UnlockMirrors | install2.py:1325-1342 | unlocking and freeing keeps it |
| Quarantine.DeleteMirrors | install2.py:3519-3540 | deleting and freeing by login and password keeps it |
| Quarantine.EnforceMirrors | install2.py:3737-3758 | a pass in any directory order keeps it |
| Quarantine.BlockMirrors | install2.py:1344-1370 | a batch block keeps it |
| Quarantine.UnblockMirrors | install2.py:1372-1394 | a batch unblock keeps it when no name is a password |
| Quarantine.RenewKeepsMirrorIff | install2.py:3573-3576 | a renewal keeps it exactly when expiry had not locked the account |
| Quarantine.SetQuotaKeepsMirrorIff | install2.py:3601-3607 | setting a quota keeps it exactly when the account was open or held by its quota |
| Runs.NextIsSafe | install2.py:482-555 | every one of seventeen operations keeps safety |
| Runs.RunsAreSafe | install2.py:652-657 | over every run: each counter key anywhere has a present owner and is registered, no shared passwords, no logins equal up to case, no store charges more than was metered for the owner |
| Runs.NobodyPaysForAnother | install2.py:748-750 | no account whose login is not a password reads an earlier owner's bytes, by restore or otherwise, and nothing deleted comes back |
| Incidents.LoginAsPasswordReadsAnother | install2.py:5480-5487 | on a safe state an account whose login is another's password reads the other's bytes |
| Incidents.CalmRunsStaySteady | install2.py:1119-1149 | while every save reaches both files and no disk fault occurs, the mirror is never ahead and the main file stays readable |
| Incidents.CalmRunsAreSafe | install2.py:3519-3546 | so every such run is safe with no condition on its purges |
| Incidents.DamagedFileLetsBytesBeInherited | install2.py:528-555 | a concrete run in which a new account reads a deleted account's bytes |
| Incidents.DeleteKeepsCoverIff | install2.py:630-644 | any deletion keeps every present password registered exactly when it is of an account of another protocol or no account left has the released password |
| Incidents.QuarantinedPasswordIsATarget | install2.py:3451-3463 | a quarantined password is accepted as what to delete while an account has it, and leaves that account's password off the register |
| Incidents.CutSaveKeepsSteadyIff | zivpn-clone/source/extras/trafficlogger/quota.go:210-228 | a save of the main file alone keeps the mirror from being ahead exactly when every key of the mirror is among those saved |
| Incidents.TrailingNewlineIsAccepted | install2.py:467-480 | a valid name followed by a newline is a valid name |
| Incidents.NamesAtTheLimit | install2.py:467 | 32 characters pass and 33 do not; a dot, an underscore and a hyphen pass, a space and a slash do not |
| Standing.NextInStep | install2.py:3554-3676 | every operation leaves the configuration in step with the accounts |
| Standing.RunsStayInStep | install2.py:1007-1090 | over every run the configuration is the one derived from the present accounts, as of some day from the run's start to the last operation's |
| Standing.RunsKeepTheMirror | install2.py:1299-1394 | over every run of the operations that promise it, the quarantine holds exactly the locked zivpn accounts |
| Standing.NextLedgers | install2.py:5488-5522 | an account that stays has the ledger it had, or that ledger polled once with its own raw counter; only a new account has an empty one |
| Standing.TotalsNeverFall | install2.py:5497-5510 | over every run the lifetime total of an account that stays never falls |
| Standing.AnyRunThenPass | install2.py:3688-3788 | the closed form of a pass after any run whatsoever |
| Serving.ApplyRestartsIff | install2.py:1069-1082 | an apply that finds another configuration restarts the daemon on the new one, up exactly when somebody is to be served; otherwise it touches nothing |
| Serving.DeletionLeavesItUp | install2.py:3519-3534 | a deletion leaves a daemon that was up up, if somebody is left to serve, even when the configuration does not change |
| Serving.ChangeLeavesItUp | install2.py:3656-3670 | and so does a change of password |
| Serving.NextServes | install2.py:1007-1090 | every operation leaves a running daemon going by the password list and the quotas on disk, and none but a stop takes it down while somebody is to be served |
| Serving.RunsServe | install2.py:1007-1090 | over every run a running daemon goes by its configuration file |
| Serving.RunsStayUp | install2.py:3519-3534 | over every run on which nobody stops it and somebody is always to be served, a daemon that is up stays up |
| Outcomes.CreateOutcome | install2.py:482-574 | the code due by the exact cause of each, and with 0 one account more: protocol, date, quota and password as asked for, open, never polled, registered and let in |
| Outcomes.DeleteOutcome | install2.py:3446-3552 | only the account goes; the daemon goes on serving; safety is kept |
| Outcomes.TracesAreDeletable | install2.py:3451-3475 | without an account, what is in quarantine or has a counter nobody owns can be deleted, and nothing else |
| Outcomes.ChangeOutcome | install2.py:3633-3676 | refused exactly for a password another account has or that was issued before; else the new password and nothing else, the register and the daemon following |
| Outcomes.BlockOutcome | install2.py:1344-1370 | every open zivpn account named is locked and flagged for the reason given, nobody else, and the count is theirs |
| Outcomes.BatchQuarantines | install2.py:1344-1370 | every zivpn account named is in quarantine afterwards, locked before or not, and no entry is lost |
| Outcomes.UnblockOutcome | install2.py:1372-1394 | every zivpn account named is open with no flag, nobody else, and the count is of the names |
| Outcomes.GuardOutcome | install2.py:1401-1500 | the verdict due, every ledger polled once, every password registered, a damaged file restored if anything can be, and the daemon up |
| Outcomes.DeadCounterIsNotRestarted | install2.py:1490-1500 | a daemon that no longer counts, with its configuration in step, is reported repaired and left as it is |
| Steps.ScriptBalances | install2.py:652-657 | through any sequence of small steps, the bytes metered for an account are the growth of what is in service for it plus what each step took out of service |
| Steps.HaltDropsIff | zivpn-clone/source/app/cmd/server.go:683-700 | a stop drops what was metered since the main file was last written, and nothing exactly when that is up to date |
| Scripts.ScriptOfRan | install2.py:482-555 | every one of the seventeen operations is its sequence of small steps |
| Conservation.NextTracks | install2.py:3633-3676 | every operation leads the counter of an account that stays from its password before to its password after |
| Conservation.BytesAreConserved | install2.py:652-657 | over every sound run, the bytes metered for an account that stays are the growth of what is in service for it plus what was dropped |
| Conservation.GentleRunsLoseNothing | install2.py:3650-3651 | without disk faults and resets, and with the file up to date at every stop, an account loses none of its bytes over any run, a new installation's included |
| Conservation.DeletionCostsOthersIff | install2.py:3519-3546 | after a deletion every other account goes on from what the file held: it loses what the stop dropped, and nothing exactly when the file was up to date |
| Conservation.DeletingOneCostsAnother | install2.py:3519-3546 | a deletion after which another account has lost everything it metered since the last save |
| Conservation.TotalsAreMetered | install2.py:5488-5522 | over every sound run without a disk fault on which no login is a password, from a new installation or a readable counter file, the lifetime total enforcement charges is at most the bytes metered for the account, resets, stops and changes of password included |
| Sweep.BlockedIsTurnedOn | install2.py:3701-3788 | the blocked count is the number of locks turned on |
| Sweep.RestoredIsTurnedOff | install2.py:3701-3788 | the restored count is the number of locks turned off |
| Sweep.TallyOfAll | install2.py:3704-3788 | the loop, account by account, amounts to judging every account, with those counts, and a dirty flag set exactly when some zivpn lock changed |
| ControlPanel.ControlPanel.Tick | zivpn-clone/source/extras/trafficlogger/quota.go:61-125 | the daemon's moves, in place |
| ControlPanel.ControlPanel.Move | zivpn-clone/source/extras/trafficlogger/quota.go:61-125 | bytes count once, for a metered password only; a save leaves the files it reaches with the counters in memory; a reset leaves none, in both files |
| ControlPanel.ControlPanel.StartService | zivpn-clone/source/extras/trafficlogger/quota.go:233-257 | up exactly when the configuration has a password; starting loses and brings in no byte of any account, and keeps safety |
| ControlPanel.ControlPanel.Passwords | install2.py:576-590 | the loop computes exactly the passwords of the open accounts of the protocol up to their last day |
| ControlPanel.ControlPanel.FoldSeen | install2.py:1026-1056 | the first fold computes the derived quota map |
| ControlPanel.ControlPanel.FoldExpected | install2.py:1095-1117 | the second, written differently, computes the same map |
| ControlPanel.ControlPanel.SyncConfig | install2.py:1007-1090 | in step afterwards; on a change the daemon is restarted on the new configuration, up exactly when somebody is to be served; without one nothing is touched |
| ControlPanel.ControlPanel.PasswordInUse | install2.py:630-644 | some other account of the protocol has the password |
| ControlPanel.ControlPanel.ForgetPassword | install2.py:1119-1149 | the purge of both sections, and that it is complete when it reports a change |
| ControlPanel.ControlPanel.MigrateKey | install2.py:848-878 | the migration of both sections |
| ControlPanel.ControlPanel.PurgeBackups | install2.py:787-815 | the copies rewritten one by one |
| ControlPanel.ControlPanel.StateBackup | install2.py:880-910 | nothing new when the newest copy equals the file; copies past retention dropped |
| ControlPanel.ControlPanel.StateRestore | install2.py:912-934 | the readable file kept, else the mirror, else the newest readable copy of the main file; the mirror untouched |
| ControlPanel.ControlPanel.QuarantineAdd | install2.py:1299-1323 | the quarantine mirrors the locks once this account's lock is recorded; nobody else's entry changes |
| ControlPanel.ControlPanel.QuarantineRemove | install2.py:1325-1342 | by password if it is one, otherwise every entry with the login |
| ControlPanel.ControlPanel.Residuals | install2.py:767-785 | some trace in either file or the quarantine, or an unreadable file |
| ControlPanel.ControlPanel.LoginIsTaken | install2.py:484-491 | some login equal up to case |
| ControlPanel.ControlPanel.CreateUser | install2.py:482-574 | the code by its exact cause, and with 0 one account more as it was asked for, nobody else touched, the daemon still serving |
| ControlPanel.ControlPanel.ClaimPassword | install2.py:535-543 | the password asked for is refused, taken free, or taken off the register and out of the copies |
| ControlPanel.ControlPanel.CreateZivpnUser | install2.py:528-555 | check, release, register, write, apply, with the daemon moving in between |
| ControlPanel.ControlPanel.FindOrphan | install2.py:662-710 | finds an orphan identity exactly when there is one |
| ControlPanel.ControlPanel.DeleteUser | install2.py:3446-3552 | deletes what it is aimed at, touching no other account and, with a clean purge, keeping safety; or reports 2 exactly when there is nothing |
| ControlPanel.ControlPanel.DeleteZivpnUser | install2.py:3519-3546 | stop, purge, apply, start, release, with the daemon moving in between; off the register and out of quarantine, in step, up again if it was and somebody is left, and with a clean purge no store keeps the password |
| ControlPanel.ControlPanel.ChangeUserPassword | install2.py:3633-3676 | refused for exactly the causes named, with everything as it was; else the new password alone is changed, registered and let in, the daemon up again |
| ControlPanel.ControlPanel.RenewUser | install2.py:3554-3582 | new date, old quota and ledger, the locks lifted named by protocol; open and in date the running daemon lets it in; safety kept, nobody else touched |
| ControlPanel.ControlPanel.SetUserQuota | install2.py:3584-3608 | new quota, its own lock lifted and no other; the running daemon meters the account by it; safety kept, everybody else untouched |
| ControlPanel.ControlPanel.LockUser | install2.py:3610-3620 | the running daemon no longer lets the account in, the quarantine still mirrors the locks, safety is kept, nothing else of any account changes |
| ControlPanel.ControlPanel.UnlockUser | install2.py:3621-3631 | up to its last day the running daemon lets the account in, the quarantine still mirrors the locks, safety is kept, nothing else of any account changes |
| ControlPanel.ControlPanel.BlockUsers | install2.py:1344-1370 | the open zivpn accounts named are locked with the flag of the reason, and counted; the daemon follows |
| ControlPanel.ControlPanel.UnblockUsers | install2.py:1372-1394 | the zivpn accounts named are open with no flag, and counted; the daemon follows |
| ControlPanel.ControlPanel.GetTraffic | install2.py:5480-5522 | one poll of one account's ledger |
| ControlPanel.ControlPanel.SyncUsage | install2.py:1206-1224 | every zivpn ledger polled |
| ControlPanel.ControlPanel.QuotaEnforce | install2.py:3688-3788 | the pass, of which the closed form above speaks; the two counts as numbers of lock changes; the daemon follows |
| ControlPanel.ControlPanel.RegistrySeed | install2.py:817-832 | every present password registered |
| ControlPanel.ControlPanel.QuotaGuard | install2.py:1401-1500 | the verdict due, and with the daemon up the ledgers polled, the passwords registered, the file restored and the daemon left up |
| SshTracker.SshLedger.PollLogs | install2.py:5388-5418 | logins tracked once per endpoint, seeds charged |
| SshTracker.SshLedger.Flush | install2.py:5449-5467 | in whatever order, every account pays the sum of its connections' charges; closed and ownerless connections go |
| SshTracker.SshLedger.Rebuild | install2.py:5361-5367 | a fresh table, every mark at zero |
| SshTracker.ChargedIs | install2.py:5453-5462 | the loop's result does not depend on its order |
| SshTracker.RunsAreSound | install2.py:5406-5408 | over every run no two tracked connections share an endpoint |
| SshTracker.BytesAreConserved | install2.py:5388-5467 | charged, plus still owed, plus written off, is the start plus every byte brought in, over every run and for any snapshots |
| SshTracker.AcceptedIsTracked | install2.py:5406-5408 | a login on a new endpoint is tracked for its account, and nothing else of the table of connections changes |
| SshTracker.FlushSettles | install2.py:5449-5467 | every account pays what its connections counted since their marks, and those of existing accounts still there are tracked on |
| SshTracker.NobodyIsOvercharged | install2.py:5449-5467 | each byte is charged at most once when flushes read snapshots taken since the last rebuild |
| SshTracker.SecondFlushAddsNothing | install2.py:5457-5462 | a second flush on the same snapshot charges nothing |
| SshTracker.LiveFlushWritesNothingOff | install2.py:5453-5466 | a connection is settled before it is dropped |
| SshTracker.RebuildIsFreeIff | install2.py:5361-5367 | a rebuild loses nothing exactly when every mark is at its counter |
| SshTracker.CarefulRunsAreExact | install2.py:5388-5467 | when flushes read the table and rebuilds follow them, nothing is lost at all |
| SshTracker.StaleFlushIsHarmlessIff | install2.py:5420-5434 | a flush after a rebuild on a cached answer charges nothing exactly when that answer is zero |
| SshTracker.ReusedEndpointStaysCharged | install2.py:5406-5408 | traffic of a reused endpoint goes to the account tracked first |
| Haproxy.ConfigFile.StripSshLb | install2.py:2588-2605 | the file rewritten in place |
| Haproxy.LinesOutsideSurvive | install2.py:2588-2605 | the non-blank lines outside the cut sections are exactly what is left, in order and untrimmed, but for the left end of the first and the right end of the last |
| Haproxy.NoHeaderIsLeft | install2.py:2594-2600 | no line of the result, trimmed, starts with `frontend ssh-lb` or `backend ssh-mixed` |
| Haproxy.InSectionIff | install2.py:2594-2600 | a line is cut exactly when an opening line precedes it with nothing but continuing lines in between, or it is one |
| Haproxy.IsBodyIs | install2.py:2597-2600 | a line continues a section exactly when it is blank or indented by four spaces or a tab |
| Haproxy.StripLbIsIdempotent | install2.py:2588-2605 | a second run changes nothing |

## Left out

- Shell, systemd, nftables, journalctl and cron calls; `useradd`, `chpasswd`, `passwd -l`; menus, bots, licences, installers: plumbing and user interface. "Service active" is whether the daemon runs, and a restart is a stop and a start.
- The Xray, V2Ray-DNS and hysteria configurations, and the quota in `users.json`: only the accounts of those protocols are modelled.
- Two operations of the panel at once: operations are atomic with respect to each other and interleave only with the daemon; `_meta_set` alone is modelled under full concurrency.
- MetaLock.MetaSetIsSerialisable: a lock file that cannot be opened (install2.py:382-384, the update then runs unlocked), a short `os.write`, and `write_meta` at the same time are not modelled.
- Runs.RunsAreSafe: asks that deletions not name a live account's password by itself, and that a purge not find the mirror ahead; the first is needed by `DeleteKeepsCoverIff`, the second by `DamagedFileLetsBytesBeInherited`, and dropped by `CalmRunsAreSafe` for runs whose saves reach both files.
- Standing.RunsStayInStep: a guard run that pads an empty password list with a placeholder is excluded, since a padded list is by design not the derived one.
- Standing.RunsKeepTheMirror: renewals and quota changes enter only under the conditions their own theorems prove exact, and a locked account does not change its password.
- Enforcement.PassClosedForm: the meters of the other protocols are given functions; the re-entry of the SSH branch into the tracker (`_ssh_quota_apply`) is cut, and midnight does not fall inside a pass.
- Ledger.LedgerIsExactIff: calls of `get_zivpn_traffic` are atomic; their read and two writes are not under one lock in the code.
- SshTracker.NobodyIsOvercharged: parsing the journal and the output of `ss` and `nft` is not modelled, and two connection ids never collide; `get_ssh_traffic`, which adds whole live counters on top of the ledger (install2.py:5469-5478), is not claimed exact. A seed counts as bytes brought in each time a connection is tracked, so a connection dropped after a failed `ss` call and tracked again from the same journal line pays its seed twice without that showing as an overcharge.
- Quota.ParsersAgree: `\d` is the ten ASCII digits, and floats are reals up to the bound at which they overflow; the daemon refuses a configuration with an infinite limit, which is not modelled.
- Attribution.ChangeConservesUsage: metering after the restart is left out of this one statement, so that "unchanged" can be an equality; `BytesAreConserved` has it.
- Conservation.GentleRunsLoseNothing: its condition on every stop is sufficient, not necessary: a reset that was not saved before a stop can make up for bytes lost at another. Exact is that what `BytesAreConserved` counts as dropped sums to nothing, and, stop by stop, `HaltDropsIff`.
- Conservation.TotalsAreMetered: asks that no disk fault occur, since a failed reading or an older copy charges bytes twice (`FailedReadingIsHarmlessIff`, `RestoredCounterIsHarmlessIff`), and that no login be a password (`LoginAsPasswordReadsAnother`).
- Runs.NobodyPaysForAnother: speaks of accounts whose login is no zivpn password, for the same reason.
- `delete_user` on an empty meta file, and its search of the Xray and V2Ray JSON files: an account without a protocol is not modelled.
- Passwords with outer white space: registry and counter keys are stripped by the code, and modelled as already stripped.
- The sorted order of the password list: modelled as a multiset, which is all its readers use.
- `zivpn_unblock_users` with `purge_quarantine=False`, and the second count `zivpn_block_users` returns; the placeholder prefix the orphan search skips (install2.py:706).
- A quarantine entry's date, quota and reason; JSON documents without the expected sections; checksum collisions; 64-bit wrap of the daemon's counters; the conversion of quotas from GB to bytes in the daemon, which cuts clients off by itself.
- StateFile.BackupThenRestoreIff: which stamps are past retention is a parameter, oldest dropped first; the copies are in the order of their names, so the clock does not run backwards between two backups, and the later date of a copy that a purge rewrote is not modelled.
- `fasto/raw/main/install2.py`, an older copy of the engine.
