/** `_meta_set` run by any number of processes at once, as a state machine over its system
    calls: open and `flock` of the lock file, open and read of the meta file, open-and-truncate
    of a per-process temporary file, write, rename, unlock. A process may fail a try, give up
    after three, or die anywhere (the kernel then drops its lock and its temporary file stays
    behind). Plain readers (`_meta_get`) open the file, and so pin its inode, at any moment. */
module MetaLock {
  import opened Text
  import opened MetaFile

  type Pid = nat
  type Inode = nat

  datatype Call = Call(field: string, value: string)

  datatype Pc =
    | Idle
    | Waiting(call: Call)
    | Locked(call: Call, tries: nat)
    | Pinned(call: Call, tries: nat, ino: Inode)
    | Loaded(call: Call, tries: nat, lines: seq<string>)
    | TempOpen(call: Call, tries: nat, lines: seq<string>, fd: Inode)
    | TempFull(call: Call, tries: nat, lines: seq<string>, fd: Inode)
    | Leaving
    | Peeking(ino: Inode)
  {
    /** Between reading the lock and renaming the temporary file. */
    predicate Busy() {
      Locked? || Pinned? || Loaded? || TempOpen? || TempFull?
    }

    predicate HoldsLock() {
      Busy() || Leaving?
    }
  }

  datatype Status = Pending | Done | Dropped
  datatype Entry = Entry(call: Call, status: Status)
  datatype Holder = Free | HeldBy(pid: Pid)

  /** `log` lists the calls in the order they got the lock, `past` every inode the name of the
      meta file has pointed to. */
  datatype World = World(disk: map<Inode, string>, cur: Inode, temps: map<Pid, Inode>,
                         lock: Holder, pcs: map<Pid, Pc>, log: seq<Entry>, past: seq<Inode>)
  {
    function At(p: Pid): Pc {
      if p in pcs then pcs[p] else Idle
    }

    function Move(p: Pid, pc: Pc): World {
      this.(pcs := pcs[p := pc])
    }

    function Close(status: Status): World {
      if log == [] then this
      else this.(log := log[|log| - 1 := log[|log| - 1].(status := status)])
    }
  }

  datatype Event =
    | Begin(p: Pid, call: Call)
    | Acquire(p: Pid)
    | OpenMeta(p: Pid)
    | ReadMeta(p: Pid)
    | OpenTemp(p: Pid, unused: Inode)
    | WritePart(p: Pid, part: string)
    | WriteTemp(p: Pid)
    | Rename(p: Pid)
    | Fail(p: Pid)
    | Unlock(p: Pid)
    | Crash(p: Pid)
    | Peek(p: Pid)
    | Look(p: Pid)

  predicate Fits(call: Call) {
    NoBreak(call.field) && NoBreak(call.value)
  }

  function Update(lines: seq<string>, call: Call): seq<string> {
    SetField(lines, call.field, call.value)
  }

  predicate Enabled(w: World, e: Event) {
    var pc := w.At(e.p);
    match e
    case Begin(_, call) => pc.Idle? && Fits(call)
    case Acquire(_) => pc.Waiting? && w.lock.Free?
    case OpenMeta(_) => pc.Locked?
    case ReadMeta(_) => pc.Pinned? && pc.ino in w.disk
    case OpenTemp(_, unused) => pc.Loaded? && unused !in w.disk
    case WritePart(_, _) => pc.TempOpen?
    case WriteTemp(_) => pc.TempOpen?
    case Rename(_) => pc.TempFull?
    case Fail(_) => pc.Busy()
    case Unlock(_) => pc.Leaving?
    case Crash(_) => true
    case Peek(_) => pc.Idle?
    case Look(_) => pc.Peeking?
  }

  function Step(w: World, e: Event): World
    requires Enabled(w, e)
  {
    var p := e.p;
    var pc := w.At(p);
    match e
    case Begin(_, call) => w.Move(p, Waiting(call))
    case Acquire(_) => w.Move(p, Locked(pc.call, 0)).(lock := HeldBy(p), log := w.log + [Entry(pc.call, Pending)])
    case OpenMeta(_) => w.Move(p, Pinned(pc.call, pc.tries, w.cur))
    case ReadMeta(_) => w.Move(p, Loaded(pc.call, pc.tries, SplitLines(w.disk[pc.ino])))
    case OpenTemp(_, unused) =>
      var fd := if p in w.temps then w.temps[p] else unused;
      w.Move(p, TempOpen(pc.call, pc.tries, pc.lines, fd)).(temps := w.temps[p := fd], disk := w.disk[fd := ""])
    case WritePart(_, part) => w.(disk := w.disk[pc.fd := part])
    case WriteTemp(_) =>
      w.Move(p, TempFull(pc.call, pc.tries, pc.lines, pc.fd)).(disk := w.disk[pc.fd := Render(Update(pc.lines, pc.call))])
    case Rename(_) =>
      w.Move(p, Leaving).Close(Done).(cur := pc.fd, temps := w.temps - {p}, past := w.past + [pc.fd])
    case Fail(_) =>
      var tidy := w.(temps := w.temps - {p});
      if pc.tries < 2 then tidy.Move(p, Locked(pc.call, pc.tries + 1)) else tidy.Move(p, Leaving).Close(Dropped)
    case Unlock(_) => w.Move(p, Idle).(lock := Free)
    case Crash(_) =>
      var freed := if pc.HoldsLock() then w.(lock := Free) else w;
      (if pc.Busy() then freed.Close(Dropped) else freed).Move(p, Idle)
    case Peek(_) => w.Move(p, Peeking(w.cur))
    case Look(_) => w.Move(p, Idle)
  }

  ghost predicate IsRun(w: World, events: seq<Event>)
    decreases |events|
  {
    events == [] || (Enabled(w, events[0]) && IsRun(Step(w, events[0]), events[1..]))
  }

  function After(w: World, events: seq<Event>): World
    requires IsRun(w, events)
    decreases |events|
  {
    if events == [] then w else After(Step(w, events[0]), events[1..])
  }

  /** The meta file holds `text`; nobody has touched it yet. */
  function Start(text: string): World {
    World(map[0 := text], 0, map[], Free, map[], [], [0])
  }

  // ---- the serial meaning ----

  /** The calls whose rename happened, in lock order. */
  function Committed(log: seq<Entry>): seq<Call> {
    if log == [] then []
    else
      var n := |log| - 1;
      if log[n].status.Done? then Committed(log[..n]) + [log[n].call] else Committed(log[..n])
  }

  /** The calls of `calls` done one after the other. */
  function Serial(base: seq<string>, calls: seq<Call>): seq<string> {
    if calls == [] then base else Update(Serial(base, calls[..|calls| - 1]), calls[|calls| - 1])
  }

  // ---- the invariant ----

  /** Each inode the name ever pointed to reads as a serial prefix, and is never written again. */
  ghost predicate History(w: World, base: seq<string>) {
    && |w.past| == 1 + |Committed(w.log)|
    && w.cur == w.past[|w.past| - 1]
    && (forall i :: 0 <= i < |w.past| ==> w.past[i] in w.disk)
    && (forall i :: 0 <= i < |w.past| ==> SplitLines(w.disk[w.past[i]]) == Serial(base, Committed(w.log)[..i]))
  }

  ghost predicate PrivateTemps(w: World) {
    && (forall p :: p in w.temps ==> w.temps[p] in w.disk && w.temps[p] !in w.past)
    && (forall p, q :: p in w.temps && q in w.temps && p != q ==> w.temps[p] != w.temps[q])
  }

  ghost predicate OneHolder(w: World) {
    && (forall p :: w.At(p).HoldsLock() ==> w.lock == HeldBy(p))
    && (w.lock.HeldBy? ==> w.At(w.lock.pid).HoldsLock())
    && (forall p :: w.At(p).Waiting? ==> Fits(w.At(p).call))
    && (forall i :: 0 <= i < |w.log| - 1 ==> !w.log[i].status.Pending?)
    && (w.log != [] ==>
        var last := w.log[|w.log| - 1];
        last.status.Pending? <==> w.lock.HeldBy? && w.At(w.lock.pid).Busy())
    && (w.lock.HeldBy? ==> w.log != [])
    && (w.lock.HeldBy? && w.At(w.lock.pid).Busy() ==> w.log[|w.log| - 1].call == w.At(w.lock.pid).call)
  }

  /** What a process knows at its point in the protocol. */
  ghost predicate Knows(w: World, p: Pid) {
    var pc := w.At(p);
    && (pc.Busy() ==> Fits(pc.call))
    && (pc.Pinned? ==> pc.ino == w.cur)
    && (pc.Loaded? || pc.TempOpen? || pc.TempFull? ==> w.cur in w.disk && pc.lines == SplitLines(w.disk[w.cur]))
    && (pc.TempOpen? || pc.TempFull? ==> p in w.temps && pc.fd == w.temps[p] && pc.fd in w.disk)
    && (pc.TempFull? ==> w.disk[pc.fd] == Render(Update(pc.lines, pc.call)))
    && (pc.Peeking? ==> pc.ino in w.past)
  }

  ghost predicate Progress(w: World) {
    forall p :: Knows(w, p)
  }

  ghost predicate Inv(w: World, base: seq<string>) {
    History(w, base) && PrivateTemps(w) && OneHolder(w) && Progress(w)
  }

  lemma CommittedClose(w: World, status: Status)
    requires w.log != [] && w.log[|w.log| - 1].status.Pending?
    ensures Committed(w.Close(status).log) ==
            if status.Done? then Committed(w.log) + [w.log[|w.log| - 1].call] else Committed(w.log)
  {
    assert w.Close(status).log[..|w.log| - 1] == w.log[..|w.log| - 1];
  }

  /** Only this process moved. */
  ghost predicate Moved(w: World, v: World, p: Pid) {
    forall q :: q != p ==> v.At(q) == w.At(q)
  }

  lemma SameHistory(w: World, v: World, base: seq<string>)
    requires History(w, base) && v.disk == w.disk && v.past == w.past && v.cur == w.cur
    requires Committed(v.log) == Committed(w.log)
    ensures History(v, base)
  {
  }

  lemma FewerTemps(w: World, v: World)
    requires PrivateTemps(w) && v.disk == w.disk && v.past == w.past
    requires forall p :: p in v.temps ==> p in w.temps && v.temps[p] == w.temps[p]
    ensures PrivateTemps(v)
  {
  }

  /** The others know what they knew, if the disk and their files are as they were. */
  lemma OthersKnow(w: World, v: World, p: Pid)
    requires Progress(w) && Moved(w, v, p) && v.cur == w.cur && v.disk == w.disk && v.past == w.past
    requires forall q :: q != p && q in w.temps ==> q in v.temps && v.temps[q] == w.temps[q]
    requires Knows(v, p)
    ensures Progress(v)
  {
    forall q ensures Knows(v, q) {
      if q != p { assert Knows(w, q); }
    }
  }

  /** The process with the lock moved on and is still busy with the same call. */
  lemma StillBusy(w: World, v: World, p: Pid)
    requires OneHolder(w) && w.At(p).Busy() && Moved(w, v, p) && v.lock == w.lock && v.log == w.log
    requires v.At(p).Busy() && v.At(p).call == w.At(p).call
    ensures OneHolder(v)
  {
    assert w.lock == HeldBy(p);
  }

  /** The process with the lock closed its entry of the log and is about to leave, or is gone. */
  lemma NoLongerBusy(w: World, v: World, p: Pid, status: Status)
    requires OneHolder(w) && w.At(p).Busy() && Moved(w, v, p) && !status.Pending? && v.log == w.Close(status).log
    requires (v.At(p).Leaving? && v.lock == w.lock) || (v.At(p).Idle? && v.lock == Free)
    ensures OneHolder(v)
  {
    assert w.lock == HeldBy(p);
    assert forall q :: q != p ==> !w.At(q).HoldsLock();
  }

  /** The temporary file of the process with the lock, opened or written. */
  function WithTemp(w: World, p: Pid, pc: Pc, text: string): World
    requires pc.TempOpen? || pc.TempFull?
  {
    w.Move(p, pc).(temps := w.temps[p := pc.fd], disk := w.disk[pc.fd := text])
  }

  /** The inode is the process's own or new, and the rest of what it knows is as before. */
  ghost predicate OwnTemp(w: World, p: Pid, pc: Pc, text: string) {
    && (pc.TempOpen? || pc.TempFull?)
    && (if p in w.temps then pc.fd == w.temps[p] else pc.fd !in w.disk)
    && w.At(p).Busy() && pc.call == w.At(p).call
    && w.cur in w.disk && pc.lines == SplitLines(w.disk[w.cur])
    && (pc.TempFull? ==> text == Render(Update(pc.lines, pc.call)))
  }

  lemma TempIsPrivate(w: World, base: seq<string>, p: Pid, pc: Pc, text: string)
    requires Inv(w, base) && OwnTemp(w, p, pc, text)
    ensures pc.fd !in w.past && w.cur in w.past
    ensures History(WithTemp(w, p, pc, text), base) && PrivateTemps(WithTemp(w, p, pc, text))
  {
    var v := WithTemp(w, p, pc, text);
    assert forall i :: 0 <= i < |w.past| ==> v.disk[w.past[i]] == w.disk[w.past[i]];
  }

  lemma StepTemp(w: World, base: seq<string>, p: Pid, pc: Pc, text: string)
    requires Inv(w, base) && OwnTemp(w, p, pc, text)
    ensures Inv(WithTemp(w, p, pc, text), base)
  {
    var v := WithTemp(w, p, pc, text);
    TempIsPrivate(w, base, p, pc, text);
    assert Moved(w, v, p) && v.At(p) == pc;
    StillBusy(w, v, p);
    assert Knows(w, p);
    forall q ensures Knows(v, q) {
      assert Knows(w, q);
      if q != p { assert !w.At(q).HoldsLock(); }
    }
  }

  lemma StepOpenTemp(w: World, base: seq<string>, e: Event)
    requires Inv(w, base) && Enabled(w, e) && e.OpenTemp?
    ensures Inv(Step(w, e), base)
  {
    var pc := w.At(e.p);
    assert Knows(w, e.p);
    var fd := if e.p in w.temps then w.temps[e.p] else e.unused;
    StepTemp(w, base, e.p, TempOpen(pc.call, pc.tries, pc.lines, fd), "");
  }

  lemma StepWritePart(w: World, base: seq<string>, e: Event)
    requires Inv(w, base) && Enabled(w, e) && e.WritePart?
    ensures Inv(Step(w, e), base)
  {
    assert Knows(w, e.p);
    StepTemp(w, base, e.p, w.At(e.p), e.part);
    assert w.pcs[e.p := w.At(e.p)] == w.pcs && w.temps[e.p := w.At(e.p).fd] == w.temps;
    assert Step(w, e) == WithTemp(w, e.p, w.At(e.p), e.part);
  }

  lemma StepWriteTemp(w: World, base: seq<string>, e: Event)
    requires Inv(w, base) && Enabled(w, e) && e.WriteTemp?
    ensures Inv(Step(w, e), base)
  {
    var pc := w.At(e.p);
    assert Knows(w, e.p);
    var full := TempFull(pc.call, pc.tries, pc.lines, pc.fd);
    StepTemp(w, base, e.p, full, Render(Update(pc.lines, pc.call)));
    assert w.temps[e.p := pc.fd] == w.temps;
    assert Step(w, e) == WithTemp(w, e.p, full, Render(Update(pc.lines, pc.call)));
  }

  /** Pointing the name at a finished update extends the serial history by one call. */
  lemma HistoryGrows(w: World, v: World, base: seq<string>, call: Call)
    requires History(w, base) && v.cur in v.disk && v.disk == w.disk && v.past == w.past + [v.cur]
    requires Committed(v.log) == Committed(w.log) + [call]
    requires SplitLines(w.disk[v.cur]) == Update(SplitLines(w.disk[w.cur]), call)
    ensures History(v, base)
  {
    var calls := Committed(w.log);
    assert calls[..|calls|] == calls;
    assert (calls + [call])[..|calls|] == calls;
    forall i | 0 <= i < |v.past|
      ensures v.past[i] in v.disk && SplitLines(v.disk[v.past[i]]) == Serial(base, Committed(v.log)[..i])
    {
      if i < |w.past| {
        assert (calls + [call])[..i] == calls[..i];
      } else {
        assert (calls + [call])[..i] == calls + [call];
      }
    }
  }

  lemma RenamedLog(w: World, e: Event)
    requires OneHolder(w) && Enabled(w, e) && e.Rename?
    ensures Committed(Step(w, e).log) == Committed(w.log) + [w.At(e.p).call]
  {
    assert w.lock == HeldBy(e.p);
    CommittedClose(w.Move(e.p, Leaving), Done);
  }

  lemma StepRenameHistory(w: World, base: seq<string>, e: Event)
    requires Inv(w, base) && Enabled(w, e) && e.Rename?
    ensures History(Step(w, e), base)
  {
    var pc := w.At(e.p);
    assert Knows(w, e.p);
    RenamedLog(w, e);
    SetSurvivesTheFile(w.disk[w.cur], pc.call.field, pc.call.value);
    HistoryGrows(w, Step(w, e), base, pc.call);
  }

  lemma StepRename(w: World, base: seq<string>, e: Event)
    requires Inv(w, base) && Enabled(w, e) && e.Rename?
    ensures Inv(Step(w, e), base)
  {
    var v := Step(w, e);
    var p := e.p;
    assert Knows(w, p);
    StepRenameHistory(w, base, e);
    assert Moved(w, v, p) && v.At(p) == Leaving;
    NoLongerBusy(w, v, p, Done);
    assert PrivateTemps(v) by {
      assert forall q :: q in v.temps ==> v.temps[q] == w.temps[q] && w.temps[q] != w.At(p).fd;
    }
    forall q ensures Knows(v, q) {
      assert Knows(w, q);
      if q != p { assert !w.At(q).HoldsLock(); }
    }
  }

  lemma StepFail(w: World, base: seq<string>, e: Event)
    requires Inv(w, base) && Enabled(w, e) && e.Fail?
    ensures Inv(Step(w, e), base)
  {
    var v := Step(w, e);
    var p := e.p;
    CommittedClose(w, Dropped);
    assert Moved(w, v, p) && Knows(w, p);
    SameHistory(w, v, base);
    FewerTemps(w, v);
    if w.At(p).tries < 2 { StillBusy(w, v, p); } else { NoLongerBusy(w, v, p, Dropped); }
    assert Knows(v, p);
    OthersKnow(w, v, p);
  }

  lemma CrashHolder(w: World, base: seq<string>, e: Event)
    requires Inv(w, base) && Enabled(w, e) && e.Crash?
    ensures OneHolder(Step(w, e)) && Committed(Step(w, e).log) == Committed(w.log)
  {
    var v := Step(w, e);
    var p := e.p;
    assert Moved(w, v, p) && v.At(p) == Idle;
    if w.At(p).Busy() {
      CommittedClose(w, Dropped);
      NoLongerBusy(w, v, p, Dropped);
    } else if w.At(p).Leaving? {
      assert w.lock == HeldBy(p);
      assert forall q :: q != p ==> !w.At(q).HoldsLock();
    } else {
      assert w.lock != HeldBy(p);
    }
  }

  lemma StepCrash(w: World, base: seq<string>, e: Event)
    requires Inv(w, base) && Enabled(w, e) && e.Crash?
    ensures Inv(Step(w, e), base)
  {
    var v := Step(w, e);
    CrashHolder(w, base, e);
    SameHistory(w, v, base);
    FewerTemps(w, v);
    assert Moved(w, v, e.p) && v.At(e.p) == Idle;
    OthersKnow(w, v, e.p);
  }

  /** A process without the lock may move between the points outside it. */
  lemma MoveOutside(w: World, base: seq<string>, p: Pid, pc: Pc)
    requires Inv(w, base) && !w.At(p).HoldsLock() && !pc.HoldsLock()
    requires (pc.Waiting? ==> Fits(pc.call)) && (pc.Peeking? ==> pc.ino in w.past)
    ensures Inv(w.Move(p, pc), base)
  {
    var v := w.Move(p, pc);
    assert Moved(w, v, p) && v.At(p) == pc;
    SameHistory(w, v, base);
    FewerTemps(w, v);
    OthersKnow(w, v, p);
    assert OneHolder(v);
  }

  /** Steps of the process with the lock that touch neither the disk, the names, nor the log. */
  lemma StepInside(w: World, base: seq<string>, e: Event)
    requires Inv(w, base) && Enabled(w, e) && (e.OpenMeta? || e.ReadMeta?)
    ensures Inv(Step(w, e), base)
  {
    var v := Step(w, e);
    var p := e.p;
    assert Moved(w, v, p) && Knows(w, p);
    SameHistory(w, v, base);
    FewerTemps(w, v);
    StillBusy(w, v, p);
    assert Knows(v, p);
    OthersKnow(w, v, p);
  }

  lemma StepUnlock(w: World, base: seq<string>, e: Event)
    requires Inv(w, base) && Enabled(w, e) && e.Unlock?
    ensures Inv(Step(w, e), base)
  {
    var v := Step(w, e);
    var p := e.p;
    assert Moved(w, v, p) && v.At(p) == Idle && w.lock == HeldBy(p);
    SameHistory(w, v, base);
    FewerTemps(w, v);
    assert OneHolder(v) by {
      assert forall q :: q != p ==> !w.At(q).HoldsLock();
    }
    OthersKnow(w, v, p);
  }

  lemma AcquiredHolder(w: World, e: Event)
    requires OneHolder(w) && Enabled(w, e) && e.Acquire?
    ensures OneHolder(Step(w, e)) && Committed(Step(w, e).log) == Committed(w.log)
  {
    var v := Step(w, e);
    var p := e.p;
    assert v.log[..|w.log|] == w.log;
    assert Moved(w, v, p) && v.At(p) == Locked(w.At(p).call, 0);
    assert forall q :: q != p ==> !w.At(q).HoldsLock();
  }

  lemma StepAcquire(w: World, base: seq<string>, e: Event)
    requires Inv(w, base) && Enabled(w, e) && e.Acquire?
    ensures Inv(Step(w, e), base)
  {
    var v := Step(w, e);
    var p := e.p;
    AcquiredHolder(w, e);
    SameHistory(w, v, base);
    FewerTemps(w, v);
    assert Moved(w, v, p) && Fits(w.At(p).call);
    OthersKnow(w, v, p);
  }

  lemma StepKeepsInv(w: World, base: seq<string>, e: Event)
    requires Inv(w, base) && Enabled(w, e)
    ensures Inv(Step(w, e), base)
  {
    match e
    case Acquire(_) => StepAcquire(w, base, e);
    case OpenTemp(_, _) => StepOpenTemp(w, base, e);
    case WritePart(_, _) => StepWritePart(w, base, e);
    case WriteTemp(_) => StepWriteTemp(w, base, e);
    case Rename(_) => StepRename(w, base, e);
    case Fail(_) => StepFail(w, base, e);
    case Crash(_) => StepCrash(w, base, e);
    case Begin(_, call) => MoveOutside(w, base, e.p, Waiting(call));
    case Peek(_) => MoveOutside(w, base, e.p, Peeking(w.cur));
    case Look(_) => MoveOutside(w, base, e.p, Idle);
    case Unlock(_) => StepUnlock(w, base, e);
    case _ => StepInside(w, base, e);
  }

  lemma {:induction false} RunKeepsInv(w: World, base: seq<string>, events: seq<Event>)
    requires Inv(w, base) && IsRun(w, events)
    ensures Inv(After(w, events), base)
    decreases |events|
  {
    if events != [] {
      StepKeepsInv(w, base, events[0]);
      RunKeepsInv(Step(w, events[0]), base, events[1..]);
    }
  }

  // ---- the theorems ----

  ghost predicate ReadsAsPrefix(text: string, base: seq<string>, calls: seq<Call>) {
    exists k :: 0 <= k <= |calls| && SplitLines(text) == Serial(base, calls[..k])
  }

  /** After every run of any number of processes, the file reads as the committed calls done
      one at a time in the order they got the lock, and everything a reader has open reads as
      a prefix of that serial history. */
  lemma MetaSetIsSerialisable(text: string, events: seq<Event>)
    requires IsRun(Start(text), events)
    ensures var w := After(Start(text), events);
            w.cur in w.disk && SplitLines(w.disk[w.cur]) == Serial(SplitLines(text), Committed(w.log))
    ensures var w := After(Start(text), events);
            forall p :: w.At(p).Peeking? ==>
              w.At(p).ino in w.disk && ReadsAsPrefix(w.disk[w.At(p).ino], SplitLines(text), Committed(w.log))
  {
    var base := SplitLines(text);
    var w := After(Start(text), events);
    assert Inv(Start(text), base);
    RunKeepsInv(Start(text), base, events);
    var calls := Committed(w.log);
    assert calls[..|calls|] == calls;
    forall p | w.At(p).Peeking?
      ensures w.At(p).ino in w.disk && ReadsAsPrefix(w.disk[w.At(p).ino], base, calls)
    {
      assert Knows(w, p);
      var k :| 0 <= k < |w.past| && w.past[k] == w.At(p).ino;
    }
  }

  function Calls(log: seq<Entry>): (calls: seq<Call>)
    ensures |calls| == |log|
  {
    seq(|log|, i requires 0 <= i < |log| => log[i].call)
  }

  lemma {:induction false} AllCommitted(log: seq<Entry>)
    requires forall i :: 0 <= i < |log| ==> log[i].status.Done?
    ensures Committed(log) == Calls(log)
  {
    if log != [] {
      AllCommitted(log[..|log| - 1]);
      assert Calls(log) == Calls(log[..|log| - 1]) + [log[|log| - 1].call];
    }
  }

  /** How many of the calls that got the lock are past their rename or will never reach it. */
  function Settled(log: seq<Entry>): (n: nat)
    ensures n <= |log|
  {
    if log != [] && log[|log| - 1].status.Pending? then |log| - 1 else |log|
  }

  lemma CommittedIsSettled(log: seq<Entry>)
    requires forall i :: 0 <= i < |log| ==> !log[i].status.Dropped?
    requires forall i :: 0 <= i < |log| - 1 ==> !log[i].status.Pending?
    ensures Committed(log) == Calls(log)[..Settled(log)]
  {
    var n := Settled(log);
    AllCommitted(log[..n]);
    assert Calls(log[..n]) == Calls(log)[..n];
    assert n == |log| ==> log[..n] == log;
  }

  ghost predicate NoneDropped(log: seq<Entry>) {
    forall i :: 0 <= i < |log| ==> !log[i].status.Dropped?
  }

  /** When no process died or gave up, nothing is lost: every call that got the lock is in the
      file, except at most the one still holding it. */
  lemma NoUpdateIsLost(text: string, events: seq<Event>)
    requires IsRun(Start(text), events) && NoneDropped(After(Start(text), events).log)
    ensures var w := After(Start(text), events);
            && (w.lock.Free? ==> Settled(w.log) == |w.log|)
            && w.cur in w.disk
            && SplitLines(w.disk[w.cur]) == Serial(SplitLines(text), Calls(w.log)[..Settled(w.log)])
  {
    var w := After(Start(text), events);
    assert Inv(Start(text), SplitLines(text));
    RunKeepsInv(Start(text), SplitLines(text), events);
    MetaSetIsSerialisable(text, events);
    CommittedIsSettled(w.log);
  }

  /** The value of the last committed call on a field, or what the file held at the start. */
  function LastValue(base: seq<string>, calls: seq<Call>, field: string): string {
    if calls == [] then GetField(base, field)
    else if calls[|calls| - 1].field == field then calls[|calls| - 1].value
    else LastValue(base, calls[..|calls| - 1], field)
  }

  /** Field by field: each reads as its own last committed update, whatever the others did. */
  lemma {:induction false} EachFieldReadsItsLastUpdate(base: seq<string>, calls: seq<Call>, field: string)
    requires PlainName(field) && forall c :: c in calls ==> PlainName(c.field)
    ensures GetField(Serial(base, calls), field) == LastValue(base, calls, field)
  {
    if calls != [] {
      var n := |calls| - 1;
      EachFieldReadsItsLastUpdate(base, calls[..n], field);
      var last := calls[n];
      if last.field == field {
        GetAfterSet(Serial(base, calls[..n]), field, last.value);
      } else {
        GetOtherAfterSet(Serial(base, calls[..n]), last.field, last.value, field);
      }
    }
  }
}
