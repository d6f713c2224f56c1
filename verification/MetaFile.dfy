/** The per-user meta file: one `field=value` line per field. */
module MetaFile {
  import opened Text

  /** What `write_meta` and `_meta_set` put on one line. */
  function Line(field: string, value: string): string {
    field + "=" + value
  }

  /** `line.startswith(f"{field}=")`. */
  predicate Matches(line: string, field: string) {
    field + "=" <= line
  }

  /** `line.split("=", 1)[1]`. */
  function AfterFirstEquals(line: string): string {
    if line == "" then "" else if line[0] == '=' then line[1..] else AfterFirstEquals(line[1..])
  }

  function GetField(lines: seq<string>, field: string): string {
    if lines == [] then ""
    else if Matches(lines[0], field) then AfterFirstEquals(lines[0])
    else GetField(lines[1..], field)
  }

  predicate HasField(lines: seq<string>, field: string) {
    exists i :: 0 <= i < |lines| && Matches(lines[i], field)
  }

  /** Every line of the field replaced. */
  function Replaced(lines: seq<string>, field: string, value: string): (r: seq<string>)
    ensures |r| == |lines|
  {
    seq(|lines|, i requires 0 <= i < |lines| =>
      if Matches(lines[i], field) then Line(field, value) else lines[i])
  }

  function SetField(lines: seq<string>, field: string, value: string): (r: seq<string>)
    ensures r != []
  {
    if HasField(lines, field) then Replaced(lines, field, value) else lines + [Line(field, value)]
  }

  /** A name that `split("=", 1)` cuts where `startswith` matched it. */
  predicate PlainName(field: string) {
    '=' !in field
  }

  lemma {:induction false} AfterFirstEqualsOfLine(field: string, rest: string)
    ensures AfterFirstEquals(field + "=" + rest) == rest <==> PlainName(field)
    ensures |AfterFirstEquals(field + "=" + rest)| >= |rest|
  {
    var line := field + "=" + rest;
    if field == "" {
      assert line[1..] == rest;
    } else if field[0] == '=' {
      assert line[1..] == field[1..] + "=" + rest;
    } else {
      assert line[1..] == field[1..] + "=" + rest;
      AfterFirstEqualsOfLine(field[1..], rest);
      assert PlainName(field) <==> PlainName(field[1..]) by {
        assert field == [field[0]] + field[1..];
      }
    }
  }

  /** Two different plain names never claim the same line. */
  lemma MatchesUnique(line: string, f: string, g: string)
    requires PlainName(f) && PlainName(g) && Matches(line, f) && Matches(line, g)
    ensures f == g
  {
    assert (f + "=")[|f|] == '=' && (g + "=")[|g|] == '=';
    if |f| == |g| {
      assert f == line[..|f|] == g;
    }
  }

  lemma {:induction false} GetReplaced(lines: seq<string>, field: string, value: string)
    requires HasField(lines, field)
    ensures GetField(Replaced(lines, field, value), field) == AfterFirstEquals(Line(field, value))
  {
    var r := Replaced(lines, field, value);
    assert r[1..] == Replaced(lines[1..], field, value);
    if !Matches(lines[0], field) {
      assert HasField(lines[1..], field) by {
        var i :| 0 <= i < |lines| && Matches(lines[i], field);
        assert lines[1..][i - 1] == lines[i];
      }
      GetReplaced(lines[1..], field, value);
    }
  }

  lemma {:induction false} GetAppended(lines: seq<string>, field: string, last: string)
    ensures HasField(lines, field) ==> GetField(lines + [last], field) == GetField(lines, field)
    ensures !HasField(lines, field) ==>
              GetField(lines, field) == ""
              && GetField(lines + [last], field) == if Matches(last, field) then AfterFirstEquals(last) else ""
  {
    if lines != [] {
      assert (lines + [last])[1..] == lines[1..] + [last];
      GetAppended(lines[1..], field, last);
      assert HasField(lines, field) <==> Matches(lines[0], field) || HasField(lines[1..], field) by {
        if HasField(lines, field) && !Matches(lines[0], field) {
          var i :| 0 <= i < |lines| && Matches(lines[i], field);
          assert lines[1..][i - 1] == lines[i];
        }
        if HasField(lines[1..], field) {
          var i :| 0 <= i < |lines[1..]| && Matches(lines[1..][i], field);
          assert lines[i + 1] == lines[1..][i];
        }
      }
    } else {
      assert [last][1..] == [];
      assert [] + [last] == [last];
    }
  }

  /** Reading a field right after setting it gives the value back, exactly for plain names. */
  lemma GetAfterSet(lines: seq<string>, field: string, value: string)
    ensures GetField(SetField(lines, field, value), field) == value <==> PlainName(field)
  {
    AfterFirstEqualsOfLine(field, value);
    if HasField(lines, field) {
      GetReplaced(lines, field, value);
    } else {
      GetAppended(lines, field, Line(field, value));
    }
  }

  lemma {:induction false} GetReplacedOther(lines: seq<string>, field: string, value: string, other: string)
    requires PlainName(field) && PlainName(other) && field != other
    ensures GetField(Replaced(lines, field, value), other) == GetField(lines, other)
  {
    if lines != [] {
      assert Replaced(lines, field, value)[1..] == Replaced(lines[1..], field, value);
      GetReplacedOther(lines[1..], field, value, other);
      if Matches(lines[0], field) {
        if Matches(lines[0], other) { MatchesUnique(lines[0], field, other); }
        if Matches(Line(field, value), other) { MatchesUnique(Line(field, value), field, other); }
      }
    }
  }

  /** Setting one field leaves every other field's reading alone. */
  lemma GetOtherAfterSet(lines: seq<string>, field: string, value: string, other: string)
    requires PlainName(field) && PlainName(other) && field != other
    ensures GetField(SetField(lines, field, value), other) == GetField(lines, other)
  {
    if HasField(lines, field) {
      GetReplacedOther(lines, field, value, other);
    } else {
      GetAppended(lines, other, Line(field, value));
      if Matches(Line(field, value), other) { MatchesUnique(Line(field, value), field, other); }
    }
  }

  /** The last of two settings of a field is the only one that shows. */
  lemma SetTwice(lines: seq<string>, field: string, v: string, w: string)
    ensures SetField(SetField(lines, field, v), field, w) == SetField(lines, field, w)
  {
    var once := SetField(lines, field, v);
    assert Matches(Line(field, v), field);
    if HasField(lines, field) {
      var i :| 0 <= i < |lines| && Matches(lines[i], field);
      assert Matches(once[i], field);
    } else {
      assert once[|lines|] == Line(field, v);
      assert HasField(once, field);
    }
    assert SetField(once, field, w) == SetField(lines, field, w);
  }

  /** A written update is read back line for line exactly when it smuggles in no line boundary. */
  lemma SetSurvivesTheFile(text: string, field: string, value: string)
    ensures var lines := SetField(SplitLines(text), field, value);
            SplitLines(Render(lines)) == lines <==> NoBreak(field) && NoBreak(value)
  {
    var old_ := SplitLines(text);
    var lines := SetField(old_, field, value);
    SplitLinesNoBreak(text);
    SplitRender(lines);
    if NoBreak(field) && NoBreak(value) {
      assert NoBreak(Line(field, value));
    } else {
      assert !NoBreak(Line(field, value)) by {
        if !NoBreak(field) {
          var i :| 0 <= i < |field| && IsBreak(field[i]);
          assert Line(field, value)[i] == field[i];
        } else {
          var i :| 0 <= i < |value| && IsBreak(value[i]);
          assert Line(field, value)[|field| + 1 + i] == value[i];
        }
      }
      if HasField(old_, field) {
        var i :| 0 <= i < |old_| && Matches(old_[i], field);
        assert lines[i] == Line(field, value);
      } else {
        assert lines[|old_|] == Line(field, value);
      }
    }
  }

  // ---- write_meta and renew_user ----

  /** An optional field: no line at all when the value is empty. */
  function Optional(field: string, value: string): seq<string> {
    if value == "" then [] else [Line(field, value)]
  }

  /** The lines of `write_meta`. Its first three fields are written even when empty. */
  function MetaLines(proto: string, exp: string, created: string,
                     limit: string, pass: string, uuid: string, quota: string): seq<string> {
    [Line("proto", proto)] + ([Line("exp", exp)] + ([Line("created", created)]
    + (Optional("limit", limit) + (Optional("pass", pass) + (Optional("uuid", uuid) + Optional("quota", quota))))))
  }

  function SetAll(lines: seq<string>, fields: seq<string>, from: seq<string>): seq<string>
    decreases |fields|
  {
    if fields == [] then lines
    else
      var v := GetField(from, fields[0]);
      SetAll(if v == "" then lines else SetField(lines, fields[0], v), fields[1..], from)
  }

  /** The fields `renew_user` reads before `write_meta` wipes the file, and sets again after. */
  const KEPT: seq<string> := ["used", "quota_hit", "locked", "exp_lock", "reseller", "shell",
                              "passwd_set", "used_total_zivpn", "last_api_zivpn"]

  predicate Flag(field: string) {
    field == "locked" || field == "exp_lock" || field == "quota_hit"
  }

  predicate IsKept(field: string) {
    Flag(field) || field == "used" || field == "reseller" || field == "shell"
    || field == "passwd_set" || field == "used_total_zivpn" || field == "last_api_zivpn"
  }

  /** The fields `renew_user` passes through `write_meta`. */
  predicate IsRewritten(field: string) {
    field == "proto" || field == "limit" || field == "pass" || field == "uuid" || field == "quota"
  }

  predicate IsDate(field: string) {
    field == "exp" || field == "created"
  }

  /** `kept` lists exactly the fields carried over, whatever their order. */
  ghost predicate ListsKept(kept: seq<string>) {
    && (forall f :: f in kept <==> IsKept(f))
    && (forall f :: f in kept ==> PlainName(f) && NoBreak(f))
  }

  lemma KeptName(f: string)
    requires IsKept(f)
    ensures PlainName(f) && NoBreak(f)
  {
    if f == "used" {
    } else if f == "reseller" {
    } else if f == "shell" {
    } else if f == "passwd_set" {
    } else if f == "used_total_zivpn" {
    } else if f == "last_api_zivpn" {
    } else {
      FlagNames();
    }
  }

  lemma FlagNames()
    ensures NoBreak("locked") && NoBreak("exp_lock") && NoBreak("quota_hit") && NoBreak("0")
    ensures PlainName("locked") && PlainName("exp_lock") && PlainName("quota_hit")
  {
  }

  lemma KeptNames()
    ensures ListsKept(KEPT)
  {
    assert KEPT[0] == "used" && KEPT[1] == "quota_hit" && KEPT[2] == "locked" && KEPT[3] == "exp_lock";
    assert KEPT[4] == "reseller" && KEPT[5] == "shell" && KEPT[6] == "passwd_set";
    assert KEPT[7] == "used_total_zivpn" && KEPT[8] == "last_api_zivpn";
    forall f | f in KEPT ensures IsKept(f) {
      var i :| 0 <= i < |KEPT| && KEPT[i] == f;
      assert i == 0 || i == 1 || i == 2 || i == 3 || i == 4 || i == 5 || i == 6 || i == 7 || i == 8;
    }
    forall f | IsKept(f) ensures PlainName(f) && NoBreak(f) {
      KeptName(f);
    }
  }

  /** None of the carried-over fields is one `write_meta` writes. */
  lemma KeptIsNotWritten(f: string)
    requires IsKept(f)
    ensures !IsRewritten(f) && !IsDate(f)
  {
    if f == "used" {
    } else if f == "reseller" {
    } else if f == "shell" {
    } else if f == "passwd_set" {
    } else if f == "used_total_zivpn" {
    } else if f == "last_api_zivpn" {
    } else if f == "locked" {
    } else if f == "exp_lock" {
    }
  }

  function Rewritten(kept: seq<string>, lines: seq<string>, exp: string, created: string): seq<string> {
    SetAll(MetaLines(GetField(lines, "proto"), exp, created, GetField(lines, "limit"),
                     GetField(lines, "pass"), GetField(lines, "uuid"), GetField(lines, "quota")),
           kept, lines)
  }

  predicate Quotable(proto: string) {
    proto == "v2raydns" || proto == "vmess" || proto == "vless" || proto == "trojan" || proto == "xray"
  }

  predicate Udp(proto: string) {
    proto == "zivpn" || proto == "hysteria"
  }

  /** The flags cleared after the rewrite, by protocol. */
  function Released(lines: seq<string>): seq<string> {
    var proto := GetField(lines, "proto");
    var locked := GetField(lines, "locked") == "1";
    var expLock := GetField(lines, "exp_lock") == "1";
    var quotaHit := GetField(lines, "quota_hit") == "1";
    if Quotable(proto) && locked && (expLock || quotaHit) then
      SetField(SetField(SetField(lines, "exp_lock", "0"), "quota_hit", "0"), "locked", "0")
    else if Udp(proto) && locked && expLock then
      SetField(SetField(lines, "exp_lock", "0"), "locked", "0")
    else if proto == "ssh" && expLock then
      SetField(SetField(lines, "locked", "0"), "exp_lock", "0")
    else lines
  }

  /** `renew_user`, for a list of carried-over fields (`KEPT` in the program). */
  function Renewed(kept: seq<string>, lines: seq<string>, exp: string, created: string): seq<string> {
    Released(Rewritten(kept, lines, exp, created))
  }

  lemma {:induction false} GetConcat(a: seq<string>, b: seq<string>, field: string)
    ensures GetField(a + b, field) == if HasField(a, field) then GetField(a, field) else GetField(b, field)
  {
    if a == [] {
      assert a + b == b;
    } else {
      assert (a + b)[1..] == a[1..] + b;
      GetConcat(a[1..], b, field);
      if HasField(a, field) && !Matches(a[0], field) {
        var i :| 0 <= i < |a| && Matches(a[i], field);
        assert a[1..][i - 1] == a[i];
      }
      if HasField(a[1..], field) {
        var i :| 0 <= i < |a[1..]| && Matches(a[1..][i], field);
        assert a[i + 1] == a[1..][i];
      }
    }
  }

  lemma GetOneLine(name: string, value: string, field: string)
    requires PlainName(field) && PlainName(name)
    ensures HasField([Line(name, value)], field) <==> name == field
    ensures GetField([Line(name, value)], field) == if name == field then value else ""
  {
    AfterFirstEqualsOfLine(name, value);
    assert Matches(Line(name, value), name);
    if Matches(Line(name, value), field) {
      MatchesUnique(Line(name, value), name, field);
      assert [Line(name, value)][0] == Line(name, value);
    }
    assert [Line(name, value)][1..] == [];
  }

  lemma GetAfterLine(name: string, value: string, rest: seq<string>, field: string)
    requires PlainName(field) && PlainName(name)
    ensures GetField([Line(name, value)] + rest, field) == if name == field then value else GetField(rest, field)
    ensures GetField(Optional(name, value) + rest, field) ==
            if name == field && value != "" then value else GetField(rest, field)
  {
    GetConcat([Line(name, value)], rest, field);
    GetOneLine(name, value, field);
    assert [] + rest == rest;
  }

  lemma RewrittenNames()
    ensures PlainName("proto") && PlainName("exp") && PlainName("created") && PlainName("limit")
    ensures PlainName("pass") && PlainName("uuid") && PlainName("quota")
  {
  }

  lemma GetMetaLines(proto: string, exp: string, created: string,
                     limit: string, pass: string, uuid: string, quota: string, field: string)
    requires PlainName(field)
    ensures GetField(MetaLines(proto, exp, created, limit, pass, uuid, quota), field) ==
            if field == "proto" then proto else if field == "exp" then exp
            else if field == "created" then created else if field == "limit" then limit
            else if field == "pass" then pass else if field == "uuid" then uuid
            else if field == "quota" then quota else ""
  {
    RewrittenNames();
    var q := Optional("quota", quota);
    var u := Optional("uuid", uuid) + q;
    var p := Optional("pass", pass) + u;
    var l := Optional("limit", limit) + p;
    var c := [Line("created", created)] + l;
    var e := [Line("exp", exp)] + c;
    GetAfterLine("quota", quota, [], field);
    assert q + [] == q;
    GetAfterLine("uuid", uuid, q, field);
    GetAfterLine("pass", pass, u, field);
    GetAfterLine("limit", limit, p, field);
    GetAfterLine("created", created, l, field);
    GetAfterLine("exp", exp, c, field);
    GetAfterLine("proto", proto, e, field);
  }

  lemma {:induction false} GetSetAll(lines: seq<string>, fields: seq<string>, from: seq<string>, field: string)
    requires PlainName(field) && forall f :: f in fields ==> PlainName(f)
    ensures GetField(SetAll(lines, fields, from), field) ==
            if field in fields && GetField(from, field) != "" then GetField(from, field) else GetField(lines, field)
    decreases |fields|
  {
    if fields != [] {
      var v := GetField(from, fields[0]);
      var next := if v == "" then lines else SetField(lines, fields[0], v);
      GetSetAll(next, fields[1..], from, field);
      if v != "" {
        GetAfterSet(lines, fields[0], v);
        if field != fields[0] { GetOtherAfterSet(lines, fields[0], v, field); }
      }
      assert field in fields <==> field == fields[0] || field in fields[1..];
    }
  }

  /** What the rewrite of `renew_user` does to every field. */
  lemma RewrittenFields(kept: seq<string>, lines: seq<string>, exp: string, created: string, field: string)
    requires ListsKept(kept)
    requires PlainName(field)
    ensures GetField(Rewritten(kept, lines, exp, created), field) ==
            if field == "exp" then exp else if field == "created" then created
            else if field in {"proto", "limit", "pass", "uuid", "quota",
                              "used", "quota_hit", "locked", "exp_lock", "reseller", "shell", "passwd_set",
                              "used_total_zivpn", "last_api_zivpn"}
            then GetField(lines, field) else ""
  {
    GetMetaLines(GetField(lines, "proto"), exp, created, GetField(lines, "limit"),
                 GetField(lines, "pass"), GetField(lines, "uuid"), GetField(lines, "quota"), field);
    GetSetAll(MetaLines(GetField(lines, "proto"), exp, created, GetField(lines, "limit"),
                        GetField(lines, "pass"), GetField(lines, "uuid"), GetField(lines, "quota")),
              kept, lines, field);
    if IsKept(field) {
      KeptIsNotWritten(field);
    }
  }

  lemma ReleasedOther(lines: seq<string>, field: string)
    requires PlainName(field) && !Flag(field)
    ensures GetField(Released(lines), field) == GetField(lines, field)
  {
    var a := SetField(lines, "exp_lock", "0");
    var b := SetField(a, "quota_hit", "0");
    var l := SetField(lines, "locked", "0");
    GetOtherAfterSet(lines, "exp_lock", "0", field);
    GetOtherAfterSet(a, "quota_hit", "0", field);
    GetOtherAfterSet(a, "locked", "0", field);
    GetOtherAfterSet(b, "locked", "0", field);
    GetOtherAfterSet(lines, "locked", "0", field);
    GetOtherAfterSet(l, "exp_lock", "0", field);
  }

  /** A renewal keeps a field (other than the dates it exists to change and the lock flags)
      exactly when the field is on one of its two lists or was empty; any other field is gone.
      The lifetime fields of the other protocols, such as `used_total`, are on neither list. */
  lemma RenewalKeepsExactly(kept: seq<string>, lines: seq<string>, exp: string, created: string, field: string)
    requires ListsKept(kept)
    requires PlainName(field) && !Flag(field) && !IsDate(field)
    ensures GetField(Renewed(kept, lines, exp, created), field) == GetField(lines, field) <==>
            IsRewritten(field) || IsKept(field) || GetField(lines, field) == ""
    ensures !IsRewritten(field) && !IsKept(field) ==> GetField(Renewed(kept, lines, exp, created), field) == ""
  {
    RewrittenFields(kept, lines, exp, created, field);
    ReleasedOther(Rewritten(kept, lines, exp, created), field);
  }

  /** What a zivpn account is charged by. */
  predicate IsChargeField(field: string) {
    field == "pass" || field == "quota" || field == "limit" || field == "uuid"
    || field == "reseller" || field == "used_total_zivpn" || field == "last_api_zivpn"
  }

  lemma ChargeFieldsAreKept(field: string)
    requires IsChargeField(field)
    ensures PlainName(field) && !Flag(field) && !IsDate(field) && (IsRewritten(field) || IsKept(field))
  {
  }

  lemma ReleasedZivpn(lines: seq<string>)
    requires GetField(lines, "proto") == "zivpn"
    ensures GetField(Released(lines), "quota_hit") == GetField(lines, "quota_hit")
    ensures GetField(Released(lines), "locked") ==
            if GetField(lines, "locked") == "1" && GetField(lines, "exp_lock") == "1" then "0"
            else GetField(lines, "locked")
  {
    var a := SetField(lines, "exp_lock", "0");
    GetOtherAfterSet(lines, "exp_lock", "0", "quota_hit");
    GetOtherAfterSet(a, "locked", "0", "quota_hit");
    GetAfterSet(a, "locked", "0");
  }

  /** Renewing a zivpn account never forgives its quota: the password, the quota, the hit flag
      and the lifetime counter all survive, and the lock is lifted only if expiry set it. */
  lemma ZivpnRenewalForgivesNothing(kept: seq<string>, lines: seq<string>, exp: string, created: string)
    requires ListsKept(kept)
    requires GetField(lines, "proto") == "zivpn"
    ensures var r := Renewed(kept, lines, exp, created);
            && GetField(r, "exp") == exp
            && GetField(r, "quota_hit") == GetField(lines, "quota_hit")
            && GetField(r, "locked") ==
               (if GetField(lines, "locked") == "1" && GetField(lines, "exp_lock") == "1" then "0"
                else GetField(lines, "locked"))
    ensures forall f :: IsChargeField(f) ==> GetField(Renewed(kept, lines, exp, created), f) == GetField(lines, f)
  {
    var w := Rewritten(kept, lines, exp, created);
    forall f | IsChargeField(f)
      ensures GetField(Renewed(kept, lines, exp, created), f) == GetField(lines, f)
    {
      ChargeFieldsAreKept(f);
      RenewalKeepsExactly(kept, lines, exp, created, f);
    }
    RewrittenFields(kept, lines, exp, created, "exp");
    ReleasedOther(w, "exp");
    RewrittenFields(kept, lines, exp, created, "proto");
    RewrittenFields(kept, lines, exp, created, "locked");
    RewrittenFields(kept, lines, exp, created, "exp_lock");
    RewrittenFields(kept, lines, exp, created, "quota_hit");
    ReleasedZivpn(w);
  }

  lemma UsedTotalIsNotKept(total: string)
    requires total == "used_total"
    ensures PlainName(total) && !Flag(total) && !IsDate(total) && !IsRewritten(total) && !IsKept(total)
  {
    assert |total| == 10 && total[0] == 'u' && total[5] == 't';
  }

  /** `used_total`, the lifetime counter of an Xray account, is on neither list, so a renewal
      resets it. */
  lemma XrayRenewalForgetsUsage(kept: seq<string>, lines: seq<string>, total: string, usage: string,
                                exp: string, created: string)
    requires ListsKept(kept) && total == "used_total"
    ensures var used := SetField(lines, total, usage);
            GetField(used, total) == usage && GetField(Renewed(kept, used, exp, created), total) == ""
  {
    UsedTotalIsNotKept(total);
    GetAfterSet(lines, total, usage);
    RenewalKeepsExactly(kept, SetField(lines, total, usage), exp, created, total);
  }

  lemma {:induction false} GetNoBreak(lines: seq<string>, field: string)
    requires AllNoBreak(lines)
    ensures NoBreak(GetField(lines, field))
  {
    if lines != [] {
      GetNoBreak(lines[1..], field);
      AfterFirstEqualsNoBreak(lines[0]);
    }
  }

  lemma {:induction false} AfterFirstEqualsNoBreak(line: string)
    requires NoBreak(line)
    ensures NoBreak(AfterFirstEquals(line))
  {
    if line != "" && line[0] != '=' {
      AfterFirstEqualsNoBreak(line[1..]);
    }
  }

  /** One user's meta file on disk. */
  class UserMeta {
    var text: string

    constructor (text: string)
      ensures this.text == text
    {
      this.text := text;
    }

    method Get(field: string) returns (value: string)
      ensures value == GetField(SplitLines(text), field)
    {
      var lines := SplitLines(text);
      var i := 0;
      while i < |lines|
        invariant 0 <= i <= |lines|
        invariant GetField(lines, field) == GetField(lines[i..], field)
      {
        if Matches(lines[i], field) { return AfterFirstEquals(lines[i]); }
        i := i + 1;
      }
      value := "";
    }

    /** `_meta_set` once its lock is held and its read and write succeed. */
    method Set(field: string, value: string)
      modifies this
      ensures text == Render(SetField(SplitLines(old(text)), field, value))
    {
      var lines := SplitLines(text);
      var new_: seq<string> := [];
      var found := false;
      var i := 0;
      while i < |lines|
        invariant 0 <= i <= |lines|
        invariant new_ == Replaced(lines[..i], field, value)
        invariant found == HasField(lines[..i], field)
      {
        assert lines[..i + 1] == lines[..i] + [lines[i]];
        if Matches(lines[i], field) {
          new_ := new_ + [Line(field, value)];
          found := true;
          assert lines[..i + 1][i] == lines[i];
        } else {
          new_ := new_ + [lines[i]];
          assert HasField(lines[..i], field) ==> HasField(lines[..i + 1], field) by {
            if HasField(lines[..i], field) {
              var k :| 0 <= k < i && Matches(lines[..i][k], field);
              assert lines[..i + 1][k] == lines[..i][k];
            }
          }
          assert HasField(lines[..i + 1], field) ==> HasField(lines[..i], field) by {
            if HasField(lines[..i + 1], field) {
              var k :| 0 <= k < i + 1 && Matches(lines[..i + 1][k], field);
              assert lines[..i][k] == lines[..i + 1][k];
            }
          }
        }
        i := i + 1;
      }
      assert lines[..i] == lines;
      if !found { new_ := new_ + [Line(field, value)]; }
      assert new_ == SetField(lines, field, value);
      text := Render(new_);
    }

    /** `renew_user`, down to the last field it sets. */
    method Renew(exp: string, created: string)
      requires NoBreak(exp) && NoBreak(created)
      modifies this
      ensures SplitLines(text) == Renewed(KEPT, SplitLines(old(text)), exp, created)
    {
      KeptNames();
      RenewWith(KEPT, exp, created);
    }

    method RenewWith(kept: seq<string>, exp: string, created: string)
      requires NoBreak(exp) && NoBreak(created) && ListsKept(kept)
      modifies this
      ensures SplitLines(text) == Renewed(kept, SplitLines(old(text)), exp, created)
    {
      ghost var before := SplitLines(text);
      var keep := Collect(kept);
      SplitLinesNoBreak(text);
      GetNoBreak(before, "proto");
      GetNoBreak(before, "limit");
      GetNoBreak(before, "pass");
      GetNoBreak(before, "uuid");
      GetNoBreak(before, "quota");
      var proto := Get("proto");
      var limit := Get("limit");
      var pass := Get("pass");
      var uuid := Get("uuid");
      var quota := Get("quota");
      WriteMeta(proto, exp, created, limit, pass, uuid, quota);
      Restore(kept, keep, before);
      Release();
    }

    /** `write_meta`. */
    method WriteMeta(proto: string, exp: string, created: string,
                     limit: string, pass: string, uuid: string, quota: string)
      modifies this
      ensures text == Render(MetaLines(proto, exp, created, limit, pass, uuid, quota))
      ensures NoBreak(proto) && NoBreak(exp) && NoBreak(created) && NoBreak(limit) && NoBreak(pass)
              && NoBreak(uuid) && NoBreak(quota) ==>
              SplitLines(text) == MetaLines(proto, exp, created, limit, pass, uuid, quota)
    {
      var lines := MetaLines(proto, exp, created, limit, pass, uuid, quota);
      text := Render(lines);
      SplitRender(lines);
      if NoBreak(proto) && NoBreak(exp) && NoBreak(created) && NoBreak(limit) && NoBreak(pass)
         && NoBreak(uuid) && NoBreak(quota) {
        MetaLinesNoBreak(proto, exp, created, limit, pass, uuid, quota);
      }
    }

    method Collect(fields: seq<string>) returns (keep: map<string, string>)
      ensures forall f :: f in fields ==> f in keep && keep[f] == GetField(SplitLines(text), f)
      ensures forall f :: f in keep ==> NoBreak(keep[f])
    {
      keep := map[];
      var i := 0;
      while i < |fields|
        invariant 0 <= i <= |fields|
        invariant forall k :: 0 <= k < i ==> fields[k] in keep
        invariant forall f :: f in keep ==> keep[f] == GetField(SplitLines(text), f) && NoBreak(keep[f])
      {
        var v := Get(fields[i]);
        SplitLinesNoBreak(text);
        GetNoBreak(SplitLines(text), fields[i]);
        keep := keep[fields[i] := v];
        i := i + 1;
      }
    }

    method Restore(fields: seq<string>, keep: map<string, string>, ghost before: seq<string>)
      requires forall f :: f in fields ==>
                 NoBreak(f) && f in keep && keep[f] == GetField(before, f) && NoBreak(keep[f])
      modifies this
      ensures SplitLines(text) == SetAll(SplitLines(old(text)), fields, before)
    {
      var i := 0;
      while i < |fields|
        invariant 0 <= i <= |fields|
        invariant SetAll(SplitLines(text), fields[i..], before) == SetAll(SplitLines(old(text)), fields, before)
      {
        assert fields[i..][0] == fields[i] && fields[i..][1..] == fields[i + 1..];
        if keep[fields[i]] != "" {
          Put(fields[i], keep[fields[i]]);
        }
        i := i + 1;
      }
    }

    method Release()
      modifies this
      ensures SplitLines(text) == Released(SplitLines(old(text)))
    {
      FlagNames();
      var proto := Get("proto");
      var locked := Get("locked");
      var expLock := Get("exp_lock");
      var quotaHit := Get("quota_hit");
      if Quotable(proto) && locked == "1" && (expLock == "1" || quotaHit == "1") {
        Put("exp_lock", "0");
        Put("quota_hit", "0");
        Put("locked", "0");
      } else if Udp(proto) && locked == "1" && expLock == "1" {
        Put("exp_lock", "0");
        Put("locked", "0");
      } else if proto == "ssh" && expLock == "1" {
        Put("locked", "0");
        Put("exp_lock", "0");
      }
    }

    /** `_meta_set` with a value that fits on a line. */
    method Put(field: string, value: string)
      requires NoBreak(field) && NoBreak(value)
      modifies this
      ensures SplitLines(text) == SetField(SplitLines(old(text)), field, value)
    {
      SetSurvivesTheFile(text, field, value);
      Set(field, value);
    }
  }

  lemma ConcatNoBreak(a: seq<string>, b: seq<string>)
    requires AllNoBreak(a) && AllNoBreak(b)
    ensures AllNoBreak(a + b)
  {
  }

  lemma LineNoBreak(field: string, value: string)
    requires NoBreak(field) && NoBreak(value)
    ensures AllNoBreak([Line(field, value)]) && AllNoBreak(Optional(field, value))
  {
  }

  lemma FieldNamesNoBreak()
    ensures NoBreak("proto") && NoBreak("exp") && NoBreak("created") && NoBreak("limit")
    ensures NoBreak("pass") && NoBreak("uuid") && NoBreak("quota")
  {
  }

  lemma OptionalsNoBreak(limit: string, pass: string, uuid: string, quota: string)
    requires NoBreak(limit) && NoBreak(pass) && NoBreak(uuid) && NoBreak(quota)
    ensures AllNoBreak(Optional("limit", limit) + (Optional("pass", pass) + (Optional("uuid", uuid) + Optional("quota", quota))))
  {
    FieldNamesNoBreak();
    var u := Optional("uuid", uuid) + Optional("quota", quota);
    var p := Optional("pass", pass) + u;
    LineNoBreak("quota", quota);
    LineNoBreak("uuid", uuid);
    ConcatNoBreak(Optional("uuid", uuid), Optional("quota", quota));
    LineNoBreak("pass", pass);
    ConcatNoBreak(Optional("pass", pass), u);
    LineNoBreak("limit", limit);
    ConcatNoBreak(Optional("limit", limit), p);
  }

  lemma MetaLinesNoBreak(proto: string, exp: string, created: string,
                         limit: string, pass: string, uuid: string, quota: string)
    requires NoBreak(proto) && NoBreak(exp) && NoBreak(created)
    requires NoBreak(limit) && NoBreak(pass) && NoBreak(uuid) && NoBreak(quota)
    ensures AllNoBreak(MetaLines(proto, exp, created, limit, pass, uuid, quota))
  {
    FieldNamesNoBreak();
    OptionalsNoBreak(limit, pass, uuid, quota);
    var l := Optional("limit", limit) + (Optional("pass", pass) + (Optional("uuid", uuid) + Optional("quota", quota)));
    var c := [Line("created", created)] + l;
    var e := [Line("exp", exp)] + c;
    LineNoBreak("created", created);
    ConcatNoBreak([Line("created", created)], l);
    LineNoBreak("exp", exp);
    ConcatNoBreak([Line("exp", exp)], c);
    LineNoBreak("proto", proto);
    ConcatNoBreak([Line("proto", proto)], e);
  }
}
