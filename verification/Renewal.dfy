/** The renewal of a meta file, read as an account, is the renewal of the account: the model on
    text in `MetaFile` and the model on accounts in `Panel` say the same. */
module Renewal {
  import opened Text
  import opened MetaFile
  import opened Quota
  import opened Ledger
  import opened Accounts
  import opened Panel

  /** How the text of a protocol name, a date and a counter is understood. */
  datatype Reader = Reader(proto: string -> Proto, exp: string -> Expiry, count: string -> Field)

  /** The names stand for the protocols `renew_user` groups together. */
  ghost predicate Faithful(r: Reader) {
    && (forall name :: Quotable(name) && name != "xray" <==> XrayLike(r.proto(name)))
    && (forall name :: Udp(name) <==> r.proto(name).Zivpn? || r.proto(name).Hysteria?)
    && (forall name :: name == "ssh" <==> r.proto(name).Ssh?)
  }

  predicate IsOne(lines: seq<string>, field: string) {
    GetField(lines, field) == "1"
  }

  function AccountOf(lines: seq<string>, r: Reader): Account {
    Account(r.proto(GetField(lines, "proto")), r.exp(GetField(lines, "exp")), GetField(lines, "pass"),
            ReadLimit(GetField(lines, "quota")),
            IsOne(lines, "locked"), IsOne(lines, "quota_hit"), IsOne(lines, "exp_lock"),
            Ledger(r.count(GetField(lines, "used_total_zivpn")), r.count(GetField(lines, "last_api_zivpn"))))
  }

  /** Setting three flags to zero, in the order given, leaves each at zero and the rest alone. */
  lemma ThreeCleared(lines: seq<string>)
    ensures var r := SetField(SetField(SetField(lines, "exp_lock", "0"), "quota_hit", "0"), "locked", "0");
            !IsOne(r, "exp_lock") && !IsOne(r, "quota_hit") && !IsOne(r, "locked")
  {
    var a := SetField(lines, "exp_lock", "0");
    var b := SetField(a, "quota_hit", "0");
    FlagNames();
    GetAfterSet(lines, "exp_lock", "0");
    GetOtherAfterSet(a, "quota_hit", "0", "exp_lock");
    GetOtherAfterSet(b, "locked", "0", "exp_lock");
    GetAfterSet(a, "quota_hit", "0");
    GetOtherAfterSet(b, "locked", "0", "quota_hit");
    GetAfterSet(b, "locked", "0");
  }

  /** Two flags cleared, `first` before `second`; the third reads as before. */
  lemma TwoCleared(lines: seq<string>, first: string, second: string, third: string)
    requires PlainName(first) && PlainName(second) && PlainName(third)
    requires first != second && first != third && second != third
    ensures var r := SetField(SetField(lines, first, "0"), second, "0");
            !IsOne(r, first) && !IsOne(r, second) && IsOne(r, third) == IsOne(lines, third)
  {
    var a := SetField(lines, first, "0");
    GetAfterSet(lines, first, "0");
    GetOtherAfterSet(a, second, "0", first);
    GetAfterSet(a, second, "0");
    GetOtherAfterSet(lines, first, "0", third);
    GetOtherAfterSet(a, second, "0", third);
  }

  /** The lock flags after the rewrite, as a function of the lock flags before. */
  lemma ReleasedFlags(lines: seq<string>)
    ensures var proto := GetField(lines, "proto");
            var r := Released(lines);
            var locked, hit, lock := IsOne(lines, "locked"), IsOne(lines, "quota_hit"), IsOne(lines, "exp_lock");
            if Quotable(proto) && locked && (lock || hit) then
              !IsOne(r, "locked") && !IsOne(r, "quota_hit") && !IsOne(r, "exp_lock")
            else if (Udp(proto) && locked && lock) || (proto == "ssh" && lock) then
              !IsOne(r, "locked") && IsOne(r, "quota_hit") == hit && !IsOne(r, "exp_lock")
            else r == lines
  {
    FlagNames();
    ThreeCleared(lines);
    TwoCleared(lines, "exp_lock", "locked", "quota_hit");
    TwoCleared(lines, "locked", "exp_lock", "quota_hit");
  }

  /** Fields that are no lock flag go through the whole renewal as through the rewrite. */
  lemma RenewedField(lines: seq<string>, exp: string, created: string, field: string)
    requires PlainName(field) && !Flag(field) && (IsRewritten(field) || IsKept(field) || field == "exp")
    ensures GetField(Renewed(KEPT, lines, exp, created), field) ==
            if field == "exp" then exp else GetField(lines, field)
  {
    KeptNames();
    RewrittenFields(KEPT, lines, exp, created, field);
    ReleasedOther(Rewritten(KEPT, lines, exp, created), field);
    if IsKept(field) { KeptIsNotWritten(field); }
  }

  lemma FlagsSurviveTheRewrite(kept: seq<string>, lines: seq<string>, exp: string, created: string, flag: string)
    requires ListsKept(kept) && Flag(flag)
    ensures GetField(Rewritten(kept, lines, exp, created), flag) == GetField(lines, flag)
  {
    KeptIsNotWritten(flag);
    RewrittenFields(kept, lines, exp, created, flag);
  }

  lemma FlagsAfterRewrite(lines: seq<string>, w: seq<string>, exp: string, created: string)
    requires w == Rewritten(KEPT, lines, exp, created)
    ensures IsOne(w, "locked") == IsOne(lines, "locked") && IsOne(w, "quota_hit") == IsOne(lines, "quota_hit")
    ensures IsOne(w, "exp_lock") == IsOne(lines, "exp_lock") && GetField(w, "proto") == GetField(lines, "proto")
  {
    KeptNames();
    FlagsSurviveTheRewrite(KEPT, lines, exp, created, "locked");
    FlagsSurviveTheRewrite(KEPT, lines, exp, created, "quota_hit");
    FlagsSurviveTheRewrite(KEPT, lines, exp, created, "exp_lock");
    RewrittenNames();
    RewrittenFields(KEPT, lines, exp, created, "proto");
  }

  lemma AccountFieldNames()
    ensures PlainName("used_total_zivpn") && PlainName("last_api_zivpn") && PlainName("exp") && PlainName("pass")
    ensures !Flag("used_total_zivpn") && !Flag("last_api_zivpn") && !Flag("exp") && !Flag("pass") && !Flag("proto") && !Flag("quota")
    ensures PlainName("proto") && PlainName("quota")
  {
  }

  /** The fields of an account other than its flags, after a renewal. */
  lemma RenewedBody(lines: seq<string>, r: Reader, exp: string, created: string)
    ensures var a, b := AccountOf(lines, r), AccountOf(Renewed(KEPT, lines, exp, created), r);
            b.proto == a.proto && b.exp == r.exp(exp) && b.pass == a.pass && b.quota == a.quota && b.ledger == a.ledger
  {
    AccountFieldNames();
    RenewedField(lines, exp, created, "proto");
    RenewedField(lines, exp, created, "exp");
    RenewedField(lines, exp, created, "pass");
    RenewedField(lines, exp, created, "quota");
    RenewedField(lines, exp, created, "used_total_zivpn");
    RenewedField(lines, exp, created, "last_api_zivpn");
  }

  /** `renew_user` on the text of the meta file is `RenewedAccount` on the account it describes:
      same protocol, password, quota and lifetime counters, the new date, and exactly the flags
      cleared that the account's renewal clears. */
  lemma RenewalOfTheFile(lines: seq<string>, r: Reader, exp: string, created: string, day: Day)
    requires Faithful(r) && r.exp(exp) == On(day) && GetField(lines, "proto") != "xray"
    ensures AccountOf(Renewed(KEPT, lines, exp, created), r) == RenewedAccount(AccountOf(lines, r), day)
  {
    var w := Rewritten(KEPT, lines, exp, created);
    RenewedBody(lines, r, exp, created);
    FlagsAfterRewrite(lines, w, exp, created);
    ReleasedFlags(w);
  }
}
