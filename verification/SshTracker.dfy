/** The SSH ledger: kernel counters per connection, charged to accounts by high-water marks
    (`_ssh_tracker_poll_logs`, `_ssh_tracker_flush`, `_ssh_tracker_rebuild`). */
module SshTracker {
  import opened Accounts
  import opened Sums

  type Id = string

  datatype Counter = Counter(rx: nat, tx: nat)

  const ZERO := Counter(0, 0)

  /** An nftables rule pair and the counter behind it. */
  datatype Rule = Rule(src: string, sport: string, count: Counter)

  /** A tracked connection: whose it is, and how much of its counter has been charged. */
  datatype Conn = Conn(user: Login, src: string, sport: string, last: Counter)

  /** The byte counts `ss` reports for a connection that was open before it was tracked. */
  datatype Seed = NoSeed | Seed(rx: nat, tx: nat)
  {
    function Bytes(): nat {
      if Seed? then rx + tx else 0
    }
  }

  /** `used` holds the field of that name of every existing SSH account. */
  datatype Tracker = Tracker(conns: map<Id, Conn>, table: map<Id, Rule>, used: map<Login, int>)

  function Reading(snap: map<Id, Counter>, id: Id): Counter {
    if id in snap then snap[id] else ZERO
  }

  /** `_ssh_conn_live`, read from the table now. */
  function Live(table: map<Id, Rule>): map<Id, Counter> {
    map id | id in table :: table[id].count
  }

  // ---- the operations ----

  predicate Taken(conns: map<Id, Conn>, src: string, sport: string) {
    exists id :: id in conns && conns[id].src == src && conns[id].sport == sport
  }

  /** One accepted login of `_ssh_tracker_poll_logs`. */
  function Polled(s: Tracker, id: Id, user: Login, src: string, sport: string, seed: Seed): Tracker {
    if user !in s.used || Taken(s.conns, src, sport) then s
    else Tracker(s.conns[id := Conn(user, src, sport, ZERO)], s.table[id := Rule(src, sport, ZERO)],
                 s.used[user := s.used[user] + seed.Bytes()])
  }

  predicate Advances(c: Conn, b: Counter) {
    b.rx > c.last.rx || b.tx > c.last.tx
  }

  function Charge(c: Conn, b: Counter): int {
    if Advances(c, b) then (b.rx - c.last.rx) + (b.tx - c.last.tx) else 0
  }

  function Marked(c: Conn, b: Counter): Conn {
    if Advances(c, b) then c.(last := b) else c
  }

  predicate Kept(s: Tracker, id: Id, alive: set<(string, string)>)
    requires id in s.conns
  {
    s.conns[id].user in s.used && (s.conns[id].src, s.conns[id].sport) in alive
  }

  /** What a flush charges a user for these connections, one by one. */
  function Charges(conns: map<Id, Conn>, snap: map<Id, Counter>, user: Login): map<Id, int> {
    map id | id in conns :: if conns[id].user == user then Charge(conns[id], Reading(snap, id)) else 0
  }

  function Paid(used: map<Login, int>, user: Login, charge: int): map<Login, int> {
    if user in used then used[user := used[user] + charge] else used
  }

  /** The accounts once these connections have been charged, in some order. */
  ghost function Charged(used: map<Login, int>, conns: map<Id, Conn>, snap: map<Id, Counter>): map<Login, int>
    decreases |conns|
  {
    if conns == map[] then used
    else
      var k :| k in conns.Keys;
      Paid(Charged(used, conns - {k}, snap), conns[k].user, Charge(conns[k], Reading(snap, k)))
  }

  function KeptConns(s: Tracker, snap: map<Id, Counter>, alive: set<(string, string)>): map<Id, Conn> {
    map id | id in s.conns && Kept(s, id, alive) :: Marked(s.conns[id], Reading(snap, id))
  }

  /** `_ssh_tracker_flush` on a snapshot of the counters, as one step: every account pays the sum
      of its connections' charges. `alive` are the endpoints `ss` still shows. */
  ghost function Flushed(s: Tracker, snap: map<Id, Counter>, alive: set<(string, string)>): Tracker {
    s.(conns := KeptConns(s, snap, alive), used := Charged(s.used, s.conns, snap))
  }

  /** `_ssh_tracker_rebuild`: a new table, every counter and every mark at zero. */
  function Rebuilt(s: Tracker): Tracker {
    s.(conns := map id | id in s.conns :: s.conns[id].(last := ZERO),
       table := map id | id in s.conns :: Rule(s.conns[id].src, s.conns[id].sport, ZERO))
  }

  function Grown(r: Rule, src: string, sport: string, rx: nat, tx: nat): Rule {
    if r.src == src && r.sport == sport then r.(count := Counter(r.count.rx + rx, r.count.tx + tx)) else r
  }

  /** The kernel counts bytes of one endpoint on every rule that matches it. */
  function Counted(s: Tracker, src: string, sport: string, rx: nat, tx: nat): Tracker {
    s.(table := map id | id in s.table :: Grown(s.table[id], src, sport, rx, tx))
  }

  // ---- the order of the charges makes no difference ----

  lemma {:induction false} ChargedWithout(used: map<Login, int>, conns: map<Id, Conn>, snap: map<Id, Counter>, k: Id)
    requires k in conns
    ensures Charged(used, conns, snap) ==
            Paid(Charged(used, conns - {k}, snap), conns[k].user, Charge(conns[k], Reading(snap, k)))
    decreases |conns|
  {
    var j :| j in conns.Keys && Charged(used, conns, snap) ==
             Paid(Charged(used, conns - {j}, snap), conns[j].user, Charge(conns[j], Reading(snap, j)));
    if j != k {
      var x, y := Charge(conns[k], Reading(snap, k)), Charge(conns[j], Reading(snap, j));
      var both := Charged(used, conns - {j} - {k}, snap);
      assert Charged(used, conns - {j}, snap) == Paid(both, conns[k].user, x) by {
        ChargedWithout(used, conns - {j}, snap, k);
      }
      assert Charged(used, conns - {k}, snap) == Paid(both, conns[j].user, y) by {
        assert conns - {j} - {k} == conns - {k} - {j};
        ChargedWithout(used, conns - {k}, snap, j);
      }
      PaidTwice(both, conns[k].user, x, conns[j].user, y);
    }
  }

  lemma PaidTwice(used: map<Login, int>, u: Login, x: int, v: Login, y: int)
    ensures Paid(Paid(used, u, x), v, y) == Paid(Paid(used, v, y), u, x)
  {
  }

  lemma {:induction false} ChargedKeys(used: map<Login, int>, conns: map<Id, Conn>, snap: map<Id, Counter>)
    ensures Charged(used, conns, snap).Keys == used.Keys
    decreases |conns|
  {
    if conns != map[] {
      var k :| k in conns;
      ChargedWithout(used, conns, snap, k);
      ChargedKeys(used, conns - {k}, snap);
    }
  }

  lemma ChargesWithout(conns: map<Id, Conn>, snap: map<Id, Counter>, user: Login, k: Id)
    requires k in conns
    ensures Sum(Charges(conns, snap, user)) ==
            Sum(Charges(conns - {k}, snap, user))
            + (if conns[k].user == user then Charge(conns[k], Reading(snap, k)) else 0)
  {
    SumWithout(Charges(conns, snap, user), k);
    assert Charges(conns - {k}, snap, user) == Charges(conns, snap, user) - {k};
  }

  /** Whatever the order, an account pays the sum of its connections' charges. */
  lemma {:induction false} ChargedIs(used: map<Login, int>, conns: map<Id, Conn>, snap: map<Id, Counter>, user: Login)
    ensures user in Charged(used, conns, snap) <==> user in used
    ensures user in used ==> Charged(used, conns, snap)[user] == used[user] + Sum(Charges(conns, snap, user))
    decreases |conns|
  {
    if conns == map[] {
      assert Charges(conns, snap, user) == map[];
    } else {
      var k :| k in conns;
      ChargedIs(used, conns - {k}, snap, user);
      ChargedWithout(used, conns, snap, k);
      ChargesWithout(conns, snap, user, k);
    }
  }

  lemma PaidNothing(used: map<Login, int>, user: Login)
    ensures Paid(used, user, 0) == used
  {
  }

  lemma {:induction false} ChargedNothing(used: map<Login, int>, conns: map<Id, Conn>, snap: map<Id, Counter>)
    requires forall id :: id in conns ==> Charge(conns[id], Reading(snap, id)) == 0
    ensures Charged(used, conns, snap) == used
    decreases |conns|
  {
    if conns != map[] {
      var k :| k in conns;
      ChargedWithout(used, conns, snap, k);
      ChargedNothing(used, conns - {k}, snap);
      PaidNothing(used, conns[k].user);
    }
  }

  // ---- the events of a run ----

  datatype Event =
    | Accepted(id: Id, user: Login, src: string, sport: string, seed: Seed)
    | Traffic(src: string, sport: string, rx: nat, tx: nat)
    | Flush(snap: map<Id, Counter>, alive: set<(string, string)>)
    | Rebuild
    | Enlist(user: Login)
    | Remove(user: Login)

  ghost function Next(s: Tracker, e: Event): Tracker {
    match e
    case Accepted(id, user, src, sport, seed) => Polled(s, id, user, src, sport, seed)
    case Traffic(src, sport, rx, tx) => Counted(s, src, sport, rx, tx)
    case Flush(snap, alive) => Flushed(s, snap, alive)
    case Rebuild => Rebuilt(s)
    case Enlist(user) => if user in s.used then s else s.(used := s.used[user := 0])
    case Remove(user) => s.(used := s.used - {user})
  }

  ghost function After(s: Tracker, run: seq<Event>): Tracker {
    if run == [] then s else Next(After(s, run[..|run| - 1]), run[|run| - 1])
  }

  /** A new connection id is new: it names neither a connection nor a counter. */
  predicate Legal(s: Tracker, e: Event) {
    e.Accepted? ==> e.id !in s.conns && e.id !in s.table
  }

  ghost predicate IsRun(s: Tracker, run: seq<Event>) {
    forall i :: 0 <= i < |run| ==> Legal(After(s, run[..i]), run[i])
  }

  predicate SameEndpoint(c: Conn, d: Conn) {
    c.src == d.src && c.sport == d.sport
  }

  ghost predicate OnePerEndpoint(conns: map<Id, Conn>) {
    forall i, j :: i in conns && j in conns && SameEndpoint(conns[i], conns[j]) ==> i == j
  }

  /** Every tracked connection has its rule in the table, and no two share an endpoint. */
  ghost predicate Sound(s: Tracker) {
    && (forall id :: id in s.conns ==>
          id in s.table && s.table[id].src == s.conns[id].src && s.table[id].sport == s.conns[id].sport)
    && OnePerEndpoint(s.conns)
  }

  lemma NewEndpoint(conns: map<Id, Conn>, id: Id, c: Conn)
    requires OnePerEndpoint(conns) && id !in conns && !Taken(conns, c.src, c.sport)
    ensures OnePerEndpoint(conns[id := c])
  {
    assert forall i :: i in conns ==> !SameEndpoint(conns[i], c);
  }

  lemma FewerEndpoints(conns: map<Id, Conn>, fewer: map<Id, Conn>)
    requires OnePerEndpoint(conns) && forall id :: id in fewer ==> id in conns && SameEndpoint(fewer[id], conns[id])
    ensures OnePerEndpoint(fewer)
  {
    forall i, j | i in fewer && j in fewer && SameEndpoint(fewer[i], fewer[j]) ensures i == j {
      assert SameEndpoint(conns[i], conns[j]);
    }
  }

  lemma NextIsSound(s: Tracker, e: Event)
    requires Sound(s) && Legal(s, e)
    ensures Sound(Next(s, e))
  {
    if e.Accepted? {
      if Next(s, e) != s { NewEndpoint(s.conns, e.id, Conn(e.user, e.src, e.sport, ZERO)); }
    } else {
      FewerEndpoints(s.conns, Next(s, e).conns);
    }
  }

  /** Over every run, no two tracked connections share an endpoint. */
  lemma {:induction false} RunsAreSound(s: Tracker, run: seq<Event>)
    requires Sound(s) && IsRun(s, run)
    ensures Sound(After(s, run))
  {
    if run != [] {
      var n := |run| - 1;
      ShorterRun(s, run);
      RunsAreSound(s, run[..n]);
      NextIsSound(After(s, run[..n]), run[n]);
    }
  }

  lemma ShorterRun(s: Tracker, run: seq<Event>)
    requires run != [] && IsRun(s, run)
    ensures IsRun(s, run[..|run| - 1]) && Legal(After(s, run[..|run| - 1]), run[|run| - 1])
  {
    var n := |run| - 1;
    assert forall i :: 0 <= i < n ==> run[..n][..i] == run[..i] && run[..n][i] == run[i];
  }

  // ---- the books ----

  function UsedOf(s: Tracker, user: Login): int {
    if user in s.used then s.used[user] else 0
  }

  /** Counted by the kernel and not charged yet. */
  function Owed(c: Conn, count: Counter): int {
    (count.rx - c.last.rx) + (count.tx - c.last.tx)
  }

  function Owing(s: Tracker, user: Login): map<Id, int> {
    map id | id in s.conns ::
      if s.conns[id].user == user then Owed(s.conns[id], Reading(Live(s.table), id)) else 0
  }

  ghost function Pending(s: Tracker, user: Login): int {
    Sum(Owing(s, user))
  }

  /** An endpoint is tracked for this user. */
  predicate TrackedFor(s: Tracker, src: string, sport: string, user: Login) {
    exists id :: id in s.conns && s.conns[id].user == user && s.conns[id].src == src && s.conns[id].sport == sport
  }

  /** The bytes an event brings a user: a seed, or traffic of an endpoint tracked for them. */
  function Brought(s: Tracker, e: Event, user: Login): nat {
    match e
    case Accepted(_, u, src, sport, seed) =>
      if u == user && u in s.used && !Taken(s.conns, src, sport) && seed.Seed? then seed.rx + seed.tx else 0
    case Traffic(src, sport, rx, tx) => if TrackedFor(s, src, sport, user) then rx + tx else 0
    case _ => 0
  }

  /** The mark a flush leaves on a connection, dropped or not. */
  function Settled(s: Tracker, snap: map<Id, Counter>, id: Id): Conn
    requires id in s.conns
  {
    if s.conns[id].user in s.used then Marked(s.conns[id], Reading(snap, id)) else s.conns[id]
  }

  function LostByFlush(s: Tracker, snap: map<Id, Counter>, alive: set<(string, string)>, user: Login): map<Id, int> {
    map id | id in s.conns ::
      if s.conns[id].user == user && !Kept(s, id, alive) then Owed(Settled(s, snap, id), Reading(Live(s.table), id)) else 0
  }

  /** The bytes an event writes off: counters dropped with something owed on them, or an account
      removed with its total. */
  ghost function WrittenOff(s: Tracker, e: Event, user: Login): int {
    match e
    case Flush(snap, alive) => Sum(LostByFlush(s, snap, alive, user))
    case Rebuild => Pending(s, user)
    case Remove(u) => if u == user then UsedOf(s, user) else 0
    case _ => 0
  }

  ghost function BroughtIn(s: Tracker, run: seq<Event>, user: Login): nat {
    if run == [] then 0
    else BroughtIn(s, run[..|run| - 1], user) + Brought(After(s, run[..|run| - 1]), run[|run| - 1], user)
  }

  ghost function WrittenOffIn(s: Tracker, run: seq<Event>, user: Login): int {
    if run == [] then 0
    else WrittenOffIn(s, run[..|run| - 1], user) + WrittenOff(After(s, run[..|run| - 1]), run[|run| - 1], user)
  }

  /** An event keeps the books of a user balanced. */
  ghost predicate Balances(s: Tracker, e: Event, user: Login) {
    UsedOf(Next(s, e), user) + Pending(Next(s, e), user) + WrittenOff(s, e, user)
    == UsedOf(s, user) + Pending(s, user) + Brought(s, e, user)
  }

  lemma SameReading(table: map<Id, Rule>, id: Id, rule: Rule, other: Id)
    requires id !in table
    ensures Reading(Live(table[id := rule]), other) ==
            if other == id then rule.count else Reading(Live(table), other)
  {
  }

  lemma OwingGrows(s: Tracker, t: Tracker, id: Id, user: Login)
    requires id !in s.conns && id in t.conns && t.conns == s.conns[id := t.conns[id]]
    requires id !in s.table && t.table == s.table[id := Rule(t.conns[id].src, t.conns[id].sport, t.conns[id].last)]
    ensures Owing(t, user) == Owing(s, user)[id := 0]
  {
    forall i | i in t.conns ensures Owing(t, user)[i] == Owing(s, user)[id := 0][i] {
      SameReading(s.table, id, t.table[id], i);
    }
  }

  lemma AcceptedBalances(s: Tracker, e: Event, user: Login)
    requires e.Accepted? && Legal(s, e)
    ensures Balances(s, e, user)
  {
    var t := Next(s, e);
    if t != s {
      OwingGrows(s, t, e.id, user);
      SumPlus(Owing(s, user), e.id, 0);
    }
  }

  /** One connection is owed the traffic of its endpoint, every other what it was owed before. */
  lemma TrafficOwed(s: Tracker, src: string, sport: string, rx: nat, tx: nat, id: Id)
    requires Sound(s) && id in s.conns
    ensures var t := Counted(s, src, sport, rx, tx);
            Owed(t.conns[id], Reading(Live(t.table), id)) == Owed(s.conns[id], Reading(Live(s.table), id))
              + (if s.conns[id].src == src && s.conns[id].sport == sport then rx + tx else 0)
  {
  }

  lemma TrafficBalances(s: Tracker, e: Event, user: Login)
    requires e.Traffic? && Sound(s)
    ensures Balances(s, e, user)
  {
    var t := Next(s, e);
    forall id | id in s.conns
      ensures Owing(t, user)[id] == Owing(s, user)[id]
                + (if s.conns[id].user == user && s.conns[id].src == e.src && s.conns[id].sport == e.sport
                   then e.rx + e.tx else 0)
    {
      TrafficOwed(s, e.src, e.sport, e.rx, e.tx, id);
    }
    if TrackedFor(s, e.src, e.sport, user) {
      var id :| id in s.conns && s.conns[id].user == user && s.conns[id].src == e.src && s.conns[id].sport == e.sport;
      forall i | i in s.conns && i != id ensures Owing(t, user)[i] == Owing(s, user)[i] {
        assert !SameEndpoint(s.conns[i], s.conns[id]);
      }
      SumReplaced(Owing(s, user), Owing(t, user), id);
    } else {
      assert Owing(t, user) == Owing(s, user);
    }
  }

  function ChargesOf(s: Tracker, snap: map<Id, Counter>, user: Login): map<Id, int> {
    map id | id in s.conns :: if user in s.used then Charges(s.conns, snap, user)[id] else 0
  }

  /** What the kept connections still owe after a flush. */
  function StillOwing(s: Tracker, snap: map<Id, Counter>, alive: set<(string, string)>, user: Login): map<Id, int> {
    map id | id in s.conns ::
      if s.conns[id].user == user && Kept(s, id, alive) then Owed(Settled(s, snap, id), Reading(Live(s.table), id)) else 0
  }

  /** A flush splits what each connection owes into charged, still owed, and written off. */
  lemma FlushSplits(s: Tracker, snap: map<Id, Counter>, alive: set<(string, string)>, user: Login, id: Id)
    requires id in s.conns
    ensures Owing(s, user)[id] ==
            ChargesOf(s, snap, user)[id] + StillOwing(s, snap, alive, user)[id] + LostByFlush(s, snap, alive, user)[id]
  {
  }

  lemma StillOwingIsPending(s: Tracker, snap: map<Id, Counter>, alive: set<(string, string)>, user: Login)
    ensures Sum(StillOwing(s, snap, alive, user)) == Pending(Flushed(s, snap, alive), user)
  {
    var t := Flushed(s, snap, alive);
    forall id | id in s.conns
      ensures StillOwing(s, snap, alive, user)[id] == if id in t.conns then Owing(t, user)[id] else 0
    {
    }
    SumOfPart(StillOwing(s, snap, alive, user), Owing(t, user));
  }

  lemma ChargesOfIsPaid(s: Tracker, snap: map<Id, Counter>, alive: set<(string, string)>, user: Login)
    ensures UsedOf(Flushed(s, snap, alive), user) == UsedOf(s, user) + Sum(ChargesOf(s, snap, user))
  {
    ChargedIs(s.used, s.conns, snap, user);
    if user in s.used {
      assert ChargesOf(s, snap, user) == Charges(s.conns, snap, user);
    } else {
      SumOfPart(ChargesOf(s, snap, user), map[]);
    }
  }

  lemma FlushBalances(s: Tracker, e: Event, user: Login)
    requires e.Flush?
    ensures Balances(s, e, user)
  {
    var charged, still := ChargesOf(s, e.snap, user), StillOwing(s, e.snap, e.alive, user);
    var lost := LostByFlush(s, e.snap, e.alive, user);
    var rest := map id | id in s.conns :: still[id] + lost[id];
    SumAdds(still, lost, rest);
    forall id | id in s.conns ensures Owing(s, user)[id] == charged[id] + rest[id] {
      FlushSplits(s, e.snap, e.alive, user, id);
    }
    SumAdds(charged, rest, Owing(s, user));
    StillOwingIsPending(s, e.snap, e.alive, user);
    ChargesOfIsPaid(s, e.snap, e.alive, user);
  }

  lemma RebuildBalances(s: Tracker, e: Event, user: Login)
    requires e.Rebuild?
    ensures Balances(s, e, user)
  {
    SumOfPart(Owing(Next(s, e), user), map[]);
  }

  /** Every event, on any snapshot, keeps the books balanced. */
  lemma NextBalances(s: Tracker, e: Event, user: Login)
    requires Sound(s) && Legal(s, e)
    ensures Balances(s, e, user)
  {
    match e
    case Accepted(_, _, _, _, _) => AcceptedBalances(s, e, user);
    case Traffic(_, _, _, _) => TrafficBalances(s, e, user);
    case Flush(_, _) => FlushBalances(s, e, user);
    case Rebuild => RebuildBalances(s, e, user);
    case Enlist(_) => assert Owing(Next(s, e), user) == Owing(s, user);
    case Remove(_) => assert Owing(Next(s, e), user) == Owing(s, user);
  }

  /** Conservation over every run: what an account has been charged, plus what its connections
      still owe, plus what was written off, is what it started with plus every byte brought in.
      Each byte is on exactly one side of the books, once. */
  lemma {:induction false} BytesAreConserved(s: Tracker, run: seq<Event>, user: Login)
    requires Sound(s) && IsRun(s, run)
    ensures UsedOf(After(s, run), user) + Pending(After(s, run), user) + WrittenOffIn(s, run, user)
            == UsedOf(s, user) + Pending(s, user) + BroughtIn(s, run, user)
  {
    if run != [] {
      var n := |run| - 1;
      ShorterRun(s, run);
      BytesAreConserved(s, run[..n], user);
      RunsAreSound(s, run[..n]);
      NextBalances(After(s, run[..n]), run[n], user);
    }
  }

  // ---- at most once ----

  predicate AtMost(a: Counter, b: Counter) {
    a.rx <= b.rx && a.tx <= b.tx
  }

  /** No mark is past its counter, and no account is in debt. */
  ghost predicate InOrder(s: Tracker) {
    && (forall id :: id in s.conns ==> AtMost(s.conns[id].last, Reading(Live(s.table), id)))
    && (forall u :: u in s.used ==> s.used[u] >= 0)
  }

  /** A snapshot taken since the last rebuild: kernel counters only grow, so it is at most the
      table as it is now, and no older than the marks. */
  ghost predicate Timely(s: Tracker, e: Event) {
    e.Flush? ==> forall id :: id in s.conns ==>
      AtMost(s.conns[id].last, Reading(e.snap, id)) && AtMost(Reading(e.snap, id), Reading(Live(s.table), id))
  }

  lemma ChargesAreNonNegative(s: Tracker, e: Event, user: Login)
    requires e.Flush? && Timely(s, e)
    ensures Sum(Charges(s.conns, e.snap, user)) >= 0
  {
    SumIsNonNegative(Charges(s.conns, e.snap, user));
  }

  lemma FlushIsInOrder(s: Tracker, e: Event, user: Login)
    requires e.Flush? && InOrder(s) && Timely(s, e)
    ensures InOrder(Next(s, e)) && WrittenOff(s, e, user) >= 0
    ensures UsedOf(Next(s, e), user) >= UsedOf(s, user)
  {
    forall u ensures u in Next(s, e).used <==> u in s.used
             ensures u in s.used ==> Next(s, e).used[u] >= s.used[u]
    {
      ChargedIs(s.used, s.conns, e.snap, u);
      ChargesAreNonNegative(s, e, u);
    }
    SumIsNonNegative(LostByFlush(s, e.snap, e.alive, user));
  }

  lemma TrafficIsInOrder(s: Tracker, e: Event)
    requires (e.Traffic? || e.Accepted?) && Sound(s) && Legal(s, e) && InOrder(s)
    ensures InOrder(Next(s, e))
  {
  }

  lemma NextIsInOrder(s: Tracker, e: Event, user: Login)
    requires Sound(s) && Legal(s, e) && InOrder(s) && Timely(s, e)
    ensures InOrder(Next(s, e)) && WrittenOff(s, e, user) >= 0
    ensures e != Remove(user) ==> UsedOf(Next(s, e), user) >= UsedOf(s, user)
  {
    match e
    case Accepted(_, _, _, _, _) => TrafficIsInOrder(s, e);
    case Traffic(_, _, _, _) => TrafficIsInOrder(s, e);
    case Flush(snap, alive) => FlushIsInOrder(s, e, user);
    case Rebuild => SumIsNonNegative(Owing(s, user));
    case Enlist(_) =>
    case Remove(_) =>
  }

  ghost predicate TimelyRun(s: Tracker, run: seq<Event>) {
    forall i :: 0 <= i < |run| ==> Timely(After(s, run[..i]), run[i])
  }

  lemma {:induction false} RunsAreInOrder(s: Tracker, run: seq<Event>, user: Login)
    requires Sound(s) && IsRun(s, run) && InOrder(s) && TimelyRun(s, run)
    ensures InOrder(After(s, run)) && WrittenOffIn(s, run, user) >= 0
  {
    if run != [] {
      var n := |run| - 1;
      ShorterRun(s, run);
      assert forall i :: 0 <= i < n ==> run[..n][..i] == run[..i] && run[..n][i] == run[i];
      RunsAreInOrder(s, run[..n], user);
      RunsAreSound(s, run[..n]);
      NextIsInOrder(After(s, run[..n]), run[n], user);
    }
  }

  /** Every byte is charged at most once: over every run whose flushes read snapshots taken since
      the last rebuild, an account never pays more than its start, its seeds and the bytes its
      connections carried. */
  lemma NobodyIsOvercharged(s: Tracker, run: seq<Event>, user: Login)
    requires Sound(s) && IsRun(s, run) && InOrder(s) && TimelyRun(s, run)
    ensures UsedOf(After(s, run), user) <= UsedOf(s, user) + Pending(s, user) + BroughtIn(s, run, user)
  {
    BytesAreConserved(s, run, user);
    RunsAreInOrder(s, run, user);
    SumIsNonNegative(Owing(After(s, run), user));
  }

  /** A login of an SSH account on a new endpoint is tracked for it from then on; nobody else's
      connections change. */
  lemma AcceptedIsTracked(s: Tracker, id: Id, user: Login, src: string, sport: string, seed: Seed)
    requires id !in s.conns && user in s.used && !Taken(s.conns, src, sport)
    ensures var t := Next(s, Accepted(id, user, src, sport, seed));
            && TrackedFor(t, src, sport, user) && t.conns.Keys == s.conns.Keys + {id}
            && (forall i :: i in s.conns ==> t.conns[i] == s.conns[i])
  {
    var t := Next(s, Accepted(id, user, src, sport, seed));
    assert t.conns[id].user == user && t.conns[id].src == src && t.conns[id].sport == sport;
  }

  /** Every account has paid the sum of what its connections have counted since their marks, and tracked
      on are exactly the connections of existing accounts whose endpoint is still there. */
  ghost predicate Settles(s: Tracker, t: Tracker, snap: map<Id, Counter>, alive: set<(string, string)>) {
    && t.used.Keys == s.used.Keys && t.table == s.table
    && (forall u :: u in s.used ==> t.used[u] == s.used[u] + Sum(Charges(s.conns, snap, u)))
    && (forall id :: id in t.conns <==>
          id in s.conns && s.conns[id].user in s.used && (s.conns[id].src, s.conns[id].sport) in alive)
  }

  lemma FlushSettles(s: Tracker, snap: map<Id, Counter>, alive: set<(string, string)>)
    ensures Settles(s, Flushed(s, snap, alive), snap, alive)
  {
    ChargedKeys(s.used, s.conns, snap);
    forall u | u in s.used ensures Charged(s.used, s.conns, snap)[u] == s.used[u] + Sum(Charges(s.conns, snap, u)) {
      ChargedIs(s.used, s.conns, snap, u);
    }
  }

  /** A second flush on the same snapshot charges nobody anything, whatever the snapshot. */
  lemma SecondFlushAddsNothing(s: Tracker, snap: map<Id, Counter>, alive: set<(string, string)>,
                               later: set<(string, string)>)
    ensures Flushed(Flushed(s, snap, alive), snap, later).used == Flushed(s, snap, alive).used
  {
    ChargedNothing(Flushed(s, snap, alive).used, KeptConns(s, snap, alive), snap);
  }

  /** A flush that reads the table itself writes nothing off for an existing account: it settles
      a closing connection before dropping it. */
  lemma LiveFlushWritesNothingOff(s: Tracker, alive: set<(string, string)>, user: Login)
    requires Sound(s) && InOrder(s) && user in s.used
    ensures WrittenOff(s, Flush(Live(s.table), alive), user) == 0
    ensures Pending(Flushed(s, Live(s.table), alive), user) == 0
  {
    SumOfPart(LostByFlush(s, Live(s.table), alive, user), map[]);
    SumOfPart(Owing(Flushed(s, Live(s.table), alive), user), map[]);
  }

  /** So a rebuild straight after such a flush loses nothing; one without loses exactly what has
      been counted since the marks. */
  lemma RebuildIsFreeIff(s: Tracker, user: Login)
    requires InOrder(s)
    ensures WrittenOff(s, Rebuild, user) == 0 <==>
            forall id :: id in s.conns && s.conns[id].user == user ==> s.conns[id].last == Reading(Live(s.table), id)
  {
    SumIsZeroIff(Owing(s, user));
    assert forall id :: id in s.conns && s.conns[id].user == user ==>
      (Owing(s, user)[id] == 0 <==> s.conns[id].last == Reading(Live(s.table), id));
  }

  /** Flushes read the table itself, rebuilds come when nothing of the user's is owed, and the
      account stays. */
  ghost predicate Careful(s: Tracker, e: Event, user: Login) {
    && user in s.used && e != Remove(user)
    && (e.Flush? ==> e.snap == Live(s.table))
    && (e.Rebuild? ==> forall id :: id in s.conns && s.conns[id].user == user ==> s.conns[id].last == Reading(Live(s.table), id))
  }

  lemma CarefulWritesNothingOff(s: Tracker, e: Event, user: Login)
    requires Sound(s) && Legal(s, e) && InOrder(s) && Careful(s, e, user)
    ensures WrittenOff(s, e, user) == 0 && InOrder(Next(s, e))
  {
    NextIsInOrder(s, e, user);
    if e.Flush? { LiveFlushWritesNothingOff(s, e.alive, user); }
    if e.Rebuild? { RebuildIsFreeIff(s, user); }
  }

  ghost predicate CarefulRun(s: Tracker, run: seq<Event>, user: Login) {
    forall i :: 0 <= i < |run| ==> Careful(After(s, run[..i]), run[i], user)
  }

  lemma ShorterCarefulRun(s: Tracker, run: seq<Event>, user: Login)
    requires run != [] && CarefulRun(s, run, user)
    ensures CarefulRun(s, run[..|run| - 1], user)
    ensures Careful(After(s, run[..|run| - 1]), run[|run| - 1], user)
  {
    var n := |run| - 1;
    assert forall i :: 0 <= i < n ==> run[..n][..i] == run[..i] && run[..n][i] == run[i];
  }

  lemma {:induction false} CarefulRunsWriteNothingOff(s: Tracker, run: seq<Event>, user: Login)
    requires Sound(s) && IsRun(s, run) && InOrder(s) && CarefulRun(s, run, user)
    ensures InOrder(After(s, run)) && WrittenOffIn(s, run, user) == 0
  {
    if run != [] {
      var n := |run| - 1;
      ShorterRun(s, run);
      ShorterCarefulRun(s, run, user);
      CarefulRunsWriteNothingOff(s, run[..n], user);
      RunsAreSound(s, run[..n]);
      CarefulWritesNothingOff(After(s, run[..n]), run[n], user);
    }
  }

  /** On careful runs the ledger is exact: charged plus still owed is every byte brought in. */
  lemma CarefulRunsAreExact(s: Tracker, run: seq<Event>, user: Login)
    requires Sound(s) && IsRun(s, run) && InOrder(s) && CarefulRun(s, run, user)
    ensures UsedOf(After(s, run), user) + Pending(After(s, run), user)
            == UsedOf(s, user) + Pending(s, user) + BroughtIn(s, run, user)
  {
    BytesAreConserved(s, run, user);
    CarefulRunsWriteNothingOff(s, run, user);
  }

  lemma ChargeAfterRebuild(s: Tracker, snap: map<Id, Counter>, user: Login, id: Id)
    requires id in s.conns
    ensures var b := Reading(snap, id);
            Charges(Rebuilt(s).conns, snap, user)[id] == if s.conns[id].user == user then b.rx + b.tx else 0
  {
  }

  /** `_ssh_conn_live` caches its answer for two seconds. A flush right after a rebuild that still
      gets the old answer charges it a second time: harmless exactly when it reads zero. */
  lemma StaleFlushIsHarmlessIff(s: Tracker, snap: map<Id, Counter>, alive: set<(string, string)>, user: Login)
    requires user in s.used
    ensures UsedOf(Flushed(Rebuilt(s), snap, alive), user) == UsedOf(s, user) <==>
            forall id :: id in s.conns && s.conns[id].user == user ==> Reading(snap, id) == ZERO
  {
    var charges := Charges(Rebuilt(s).conns, snap, user);
    assert charges.Keys == s.conns.Keys;
    forall id | id in s.conns
      ensures charges[id] >= 0
      ensures charges[id] == 0 <==> (s.conns[id].user == user ==> Reading(snap, id) == ZERO)
    {
      ChargeAfterRebuild(s, snap, user, id);
    }
    SumIsZeroIff(charges);
    ChargedIs(s.used, Rebuilt(s).conns, snap, user);
  }

  /** An endpoint reused before the old connection is noticed closed stays with the old account,
      which pays for the new one's bytes. */
  lemma ReusedEndpointStaysCharged(s: Tracker, e: Event, rx: nat, tx: nat)
    requires Sound(s) && e.Accepted? && Taken(s.conns, e.src, e.sport) && !TrackedFor(s, e.src, e.sport, e.user)
    ensures var traffic := Traffic(e.src, e.sport, rx, tx);
            Next(s, e) == s && Brought(s, traffic, e.user) == 0
            && exists other :: other != e.user && Brought(s, traffic, other) == rx + tx
  {
    var id :| id in s.conns && s.conns[id].src == e.src && s.conns[id].sport == e.sport;
    var other := s.conns[id].user;
    assert TrackedFor(s, e.src, e.sport, other);
    assert Brought(s, Traffic(e.src, e.sport, rx, tx), other) == rx + tx;
  }

  // ---- the tracker as a program ----

  /** One parsed line of the journal: an accepted login, the id it would get, and its seed. */
  datatype Entry = Entry(id: Id, user: Login, src: string, sport: string, seed: Seed)

  function PolledAll(s: Tracker, entries: seq<Entry>): Tracker {
    if entries == [] then s
    else
      var n := |entries| - 1;
      var e := entries[n];
      Polled(PolledAll(s, entries[..n]), e.id, e.user, e.src, e.sport, e.seed)
  }

  lemma PayOneMore(used: map<Login, int>, snap: map<Id, Counter>, done: map<Id, Conn>, id: Id, c: Conn)
    requires id !in done
    ensures Charged(used, done[id := c], snap) == Paid(Charged(used, done, snap), c.user, Charge(c, Reading(snap, id)))
  {
    ChargedWithout(used, done[id := c], snap, id);
    assert done[id := c] - {id} == done;
  }

  /** The connections once some of them have been settled. */
  function SettledOf(s: Tracker, snap: map<Id, Counter>, done: set<Id>): map<Id, Conn> {
    map id | id in s.conns :: if id in done then Settled(s, snap, id) else s.conns[id]
  }

  lemma SettleOneMore(s: Tracker, snap: map<Id, Counter>, done: set<Id>, id: Id)
    requires id in s.conns && id !in done
    ensures SettledOf(s, snap, done)[id] == s.conns[id]
    ensures SettledOf(s, snap, done + {id}) == SettledOf(s, snap, done)[id := Settled(s, snap, id)]
  {
  }

  lemma SameKept(s: Tracker, t: Tracker, id: Id, snap: map<Id, Counter>, alive: set<(string, string)>)
    requires id in s.conns && id in t.conns && s.conns[id] == t.conns[id] && s.used.Keys == t.used.Keys
    ensures Kept(s, id, alive) == Kept(t, id, alive) && Settled(s, snap, id) == Settled(t, snap, id)
  {
  }

  /** The charged connections a flush will drop. */
  ghost function Closing(s: Tracker, done: map<Id, Conn>, alive: set<(string, string)>): set<Id> {
    set id | id in done && id in s.conns && !Kept(s, id, alive)
  }

  lemma NextDone(conns: map<Id, Conn>, left: set<Id>, id: Id)
    requires id in left && left <= conns.Keys
    ensures conns - (left - {id}) == (conns - left)[id := conns[id]] && id !in conns - left
    ensures (conns - left)[id := conns[id]].Keys == (conns - left).Keys + {id}
  {
  }

  /** The connection whose turn it is stands as it was, and is judged as it would have been. */
  lemma SettleNext(s: Tracker, t: Tracker, snap: map<Id, Counter>, alive: set<(string, string)>, done: map<Id,
                   Conn>, id: Id)
    requires id in s.conns && id !in done && t.conns == SettledOf(s, snap, done.Keys)
    requires t.used == Charged(s.used, done, snap)
    ensures t.conns[id] == s.conns[id] && Kept(t, id, alive) == Kept(s, id, alive)
    ensures Settled(t, snap, id) == Settled(s, snap, id)
    ensures SettledOf(s, snap, done.Keys + {id}) == t.conns[id := Settled(s, snap, id)]
    ensures Closing(s, done[id := s.conns[id]], alive) == Closing(s, done, alive) + (if Kept(s, id, alive) then {} else {id})
  {
    ChargedKeys(s.used, done, snap);
    SettleOneMore(s, snap, done.Keys, id);
    SameKept(s, t, id, snap, alive);
  }

  class SshLedger {
    var conns: map<Id, Conn>
    var table: map<Id, Rule>
    var used: map<Login, int>

    ghost function Snap(): Tracker
      reads this
    {
      Tracker(conns, table, used)
    }

    constructor ()
      ensures Snap() == Tracker(map[], map[], map[])
    {
      conns, table, used := map[], map[], map[];
    }

    method IsTaken(src: string, sport: string) returns (taken: bool)
      ensures taken == Taken(conns, src, sport)
    {
      var left := conns.Keys;
      while left != {}
        invariant left <= conns.Keys
        invariant forall id :: id in conns && id !in left ==> !(conns[id].src == src && conns[id].sport == sport)
        decreases left
      {
        var id :| id in left;
        left := left - {id};
        if conns[id].src == src && conns[id].sport == sport { return true; }
      }
      return false;
    }

    /** `_ssh_tracker_poll_logs`, on the parsed lines. */
    method PollLogs(entries: seq<Entry>)
      modifies this
      ensures Snap() == PolledAll(old(Snap()), entries)
    {
      var i := 0;
      while i < |entries|
        invariant 0 <= i <= |entries|
        invariant Snap() == PolledAll(old(Snap()), entries[..i])
      {
        assert entries[..i + 1][..i] == entries[..i];
        var e := entries[i];
        i := i + 1;
        if e.user !in used { continue; }
        var taken := IsTaken(e.src, e.sport);
        if taken { continue; }
        conns := conns[e.id := Conn(e.user, e.src, e.sport, ZERO)];
        if e.seed.Seed? && (e.seed.rx > 0 || e.seed.tx > 0) {
          used := used[e.user := used[e.user] + e.seed.rx + e.seed.tx];
        }
        table := table[e.id := Rule(e.src, e.sport, ZERO)];
      }
      assert entries[..i] == entries;
    }

    /** One turn of the flush loop. */
    method ChargeOne(id: Id, live: map<Id, Counter>, alive: set<(string, string)>) returns (closes: bool)
      requires id in conns
      modifies this`conns, this`used
      ensures closes == !Kept(old(Snap()), id, alive)
      ensures conns == old(conns)[id := Settled(old(Snap()), live, id)]
      ensures used == Paid(old(used), old(conns)[id].user, Charge(old(conns)[id], Reading(live, id)))
    {
      var c := conns[id];
      if c.user !in used {
        assert conns == conns[id := c];
        return true;
      }
      var b := if id in live then live[id] else ZERO;
      if b.rx > c.last.rx || b.tx > c.last.tx {
        used := used[c.user := used[c.user] + (b.rx - c.last.rx) + (b.tx - c.last.tx)];
        conns := conns[id := c.(last := b)];
      } else {
        assert conns == conns[id := c] && used == used[c.user := used[c.user] + 0];
      }
      return (c.src, c.sport) !in alive;
    }

    /** The flush loop, over the connections in whatever order the dictionary yields. */
    method ChargeAll(live: map<Id, Counter>, alive: set<(string, string)>) returns (closed: set<Id>)
      modifies this`conns, this`used
      ensures used == Charged(old(used), old(conns), live)
      ensures conns == SettledOf(old(Snap()), live, old(conns).Keys)
      ensures closed == Closing(old(Snap()), old(conns), alive)
    {
      var left := conns.Keys;
      closed := {};
      ghost var was := Snap();
      ghost var done: map<Id, Conn> := map[];
      while left != {}
        invariant left <= was.conns.Keys && done == was.conns - left
        invariant used == Charged(was.used, done, live)
        invariant conns == SettledOf(was, live, done.Keys)
        invariant closed == Closing(was, done, alive)
        decreases left
      {
        var id :| id in left;
        NextDone(was.conns, left, id);
        PayOneMore(was.used, live, done, id, was.conns[id]);
        SettleNext(was, Snap(), live, alive, done, id);
        var closes := ChargeOne(id, live, alive);
        if closes { closed := closed + {id}; }
        left := left - {id};
        done := done[id := was.conns[id]];
      }
      assert done == was.conns;
    }

    /** `_ssh_tracker_flush`. */
    method Flush(live: map<Id, Counter>, alive: set<(string, string)>)
      modifies this`conns, this`used
      ensures Snap() == Flushed(old(Snap()), live, alive)
    {
      var closed := ChargeAll(live, alive);
      conns := map id | id in conns && id !in closed :: conns[id];
      assert conns == KeptConns(old(Snap()), live, alive);
    }

    /** `_ssh_tracker_rebuild`. */
    method Rebuild()
      modifies this`conns, this`table
      ensures Snap() == Rebuilt(old(Snap()))
    {
      table := map[];
      var left := conns.Keys;
      while left != {}
        invariant left <= conns.Keys && conns.Keys == old(conns).Keys
        invariant table.Keys == conns.Keys - left
        invariant forall id :: id in left ==> conns[id] == old(conns)[id]
        invariant forall id :: id in table ==>
          conns[id] == old(conns)[id].(last := ZERO) && table[id] == Rule(conns[id].src, conns[id].sport, ZERO)
        decreases left
      {
        var id :| id in left;
        left := left - {id};
        table := table[id := Rule(conns[id].src, conns[id].sport, ZERO)];
        conns := conns[id := conns[id].(last := ZERO)];
      }
    }
  }
}
