/**
The two mounts agree.  The Unix handle queues operations and pushes them at
whatever moments it is flushed; the Windows adapter commits each one.  While
nobody else writes, both leave the same content on the server, except in one
family of cases that is characterized exactly.
*/
module MountEquivalence {
  import opened Options
  import opened FileOps
  import opened Vfs
  import opened VfsCache
  import opened CachedIo
  import opened UnixHandle
  import opened WinFs

  // ----- what both sides do to a content, without caches -----

  /** The operation is within the limit, so both sides accept it. */
  predicate Accepted(op: FileOp, max: nat) {
    match op
    case Write(off, data) => 0 <= off && off + |data| <= max
    case Truncate(size) => size <= max
    case Unknown(_) => false
  }

  function AcceptedOf(ops: seq<FileOp>, max: nat): seq<FileOp> {
    if ops == [] then []
    else (if Accepted(ops[0], max) then [ops[0]] else []) + AcceptedOf(ops[1..], max)
  }

  /** Committing one operation; a failing one changes nothing. */
  function Commit(data: Content, op: FileOp, max: nat): Content {
    match Apply(data, [op], max) case Ok(r) => r case Err(_) => data
  }

  function CommitAll(data: Content, ops: seq<FileOp>, max: nat): Content
    decreases |ops|
  {
    if ops == [] then data else CommitAll(Commit(data, ops[0], max), ops[1..], max)
  }

  /** The operation an event offers, if any. */
  function OpOf(e: Event): seq<FileOp> {
    match e
    case WriteEv(off, data) => [Write(off, data)]
    case TruncateEv(size) => [Truncate(size)]
    case _ => []
  }

  /** The operations in a run of handle events. */
  function OpsOf(events: seq<Event>): seq<FileOp> {
    if events == [] then []
    else OpOf(events[0]) + OpsOf(events[1..])
  }

  /** The event pushes what is queued. */
  predicate Flushes(e: Event) { e.FlushEv? || e.ReleaseEv? }

  /** One event of the queueing handle over the server's content. */
  function QueueStep(h: Handle, data: Content, m: Mount, e: Event): (Handle, Content) {
    match e
    case WriteEv(off, d) => (if WriteRefusal(m, off, d).Some? then h else Queued(h, Write(off, d)), data)
    case TruncateEv(size) => (if size > m.max then h else Queued(h, Truncate(size)), data)
    case FlushEv(_) => QueueFlush(h, data, m)
    case ReleaseEv(_) => QueueFlush(h, data, m)
    case _ => (h, data)
  }

  function QueueFlush(h: Handle, data: Content, m: Mount): (Handle, Content) {
    if !h.dirty || h.flushed then (h, data)
    else
      match Readable(h, data, m.max)
      case Ok(buf) => (Flushed(h), buf)
      case Err(_) => (h, data)
  }

  function QueueRun(h: Handle, data: Content, m: Mount, events: seq<Event>): (Handle, Content)
    decreases |events|
  {
    if events == [] then (h, data)
    else
      var (h', data') := QueueStep(h, data, m, events[0]);
      QueueRun(h', data', m, events[1..])
  }

  // ----- the content-level theorem -----

  lemma {:induction false} AcceptedFit(ops: seq<FileOp>, max: nat)
    requires max <= MAX_INT
    ensures AllFit(AcceptedOf(ops, max), max)
  {
    if ops != [] {
      AcceptedFit(ops[1..], max);
    }
  }

  /** Committing one by one is replaying the accepted operations as one log. */
  lemma {:induction false} CommitAllIsReplay(data: Content, ops: seq<FileOp>, max: nat)
    requires max <= MAX_INT
    requires var acc := AcceptedOf(ops, max); acc == [] || Enters(data, acc, max)
    ensures Apply(data, AcceptedOf(ops, max), max) ==
            if AcceptedOf(ops, max) == [] && |data| > max then Err(EFBIG) else Ok(CommitAll(data, ops, max))
    ensures AcceptedOf(ops, max) == [] ==> CommitAll(data, ops, max) == data
    decreases |ops|
  {
    if ops != [] {
      var op, rest := ops[0], ops[1..];
      var acc, accRest := AcceptedOf(ops, max), AcceptedOf(rest, max);
      AcceptedFit(ops, max);
      ApplySucceedsIff(data, [op], max);
      if Accepted(op, max) {
        assert acc == [op] + accRest && acc[0] == op;
        ApplyComposesIff(data, [op], accRest, max);
        CommitAllIsReplay(Commit(data, op, max), rest, max);
      } else {
        assert !Fits([op][0], max);
        assert Commit(data, op, max) == data;
        assert acc == accRest;
        CommitAllIsReplay(data, rest, max);
      }
    }
  }

  /** An oversized content stays as it is until the first accepted truncate, and
      is within the limit from then on. */
  lemma {:induction false} CommitAllOversized(data: Content, ops: seq<FileOp>, max: nat)
    requires max <= MAX_INT
    ensures |data| <= max ==> |CommitAll(data, ops, max)| <= max
    ensures |data| > max && (forall op | op in AcceptedOf(ops, max) :: !op.Truncate?) ==>
              CommitAll(data, ops, max) == data
    ensures |data| > max && (exists op | op in AcceptedOf(ops, max) :: op.Truncate?) ==>
              |CommitAll(data, ops, max)| <= max
    decreases |ops|
  {
    if ops != [] {
      var op := ops[0];
      ApplySucceedsIff(data, [op], max);
      CommitAllOversized(Commit(data, op, max), ops[1..], max);
      assert Accepted(op, max) ==> Fits([op][0], max);
    }
  }

  /** What the handle's queue will be applied to. */
  function BaseOf(h: Handle, data: Content): Content {
    if h.startTrunc then [] else data
  }

  /** A handle as it came from an open, a create or a flush, plus queued operations. */
  ghost predicate Pending(h: Handle, data: Content) {
    && !(h.dirty && h.flushed)
    && (!h.dirty ==> h.ops == [] && BaseOf(h, data) == data)
    && (h.dirty ==> h.startTrunc || h.ops != [])
  }

  function FinalContent(h: Handle, data: Content, m: Mount, events: seq<Event>, end: Event): Content {
    QueueRun(h, data, m, events + [end]).1
  }

  lemma FinalContentStep(h: Handle, data: Content, m: Mount, events: seq<Event>, end: Event)
    ensures events != [] ==>
              var (h', data') := QueueStep(h, data, m, events[0]);
              FinalContent(h, data, m, events, end) == FinalContent(h', data', m, events[1..], end)
    ensures events == [] ==> FinalContent(h, data, m, events, end) == QueueStep(h, data, m, end).1
  {
    if events != [] {
      assert (events + [end])[1..] == events[1..] + [end];
    } else {
      var only := [end];
      assert events + only == only;
      var (h', data') := QueueStep(h, data, m, only[0]);
      assert QueueRun(h, data, m, only) == QueueRun(h', data', m, only[1..]) == (h', data');
    }
  }

  /** `h` and `data` stand for the log `ops` yet to be replayed in full. */
  ghost predicate StandsFor(h: Handle, data: Content, ops: seq<FileOp>, max: nat) {
    && Pending(h, data) && AllFit(h.ops, max)
    && Enters(BaseOf(h, data), h.ops + ops, max)
  }

  function Meaning(h: Handle, data: Content, ops: seq<FileOp>, max: nat): Outcome<Content> {
    Apply(BaseOf(h, data), h.ops + ops, max)
  }

  lemma QueuedKeepsMeaning(h: Handle, data: Content, max: nat, op: FileOp, rest: seq<FileOp>)
    requires Fits(op, max) && StandsFor(h, data, [op] + rest, max)
    ensures StandsFor(Queued(h, op), data, rest, max)
    ensures Meaning(Queued(h, op), data, rest, max) == Meaning(h, data, [op] + rest, max)
  {
    assert h.ops + ([op] + rest) == (h.ops + [op]) + rest;
  }

  lemma OpEventKeepsMeaning(h: Handle, data: Content, m: Mount, e: Event, rest: seq<FileOp>)
    requires !m.ro && m.max <= MAX_INT && !Flushes(e)
    requires StandsFor(h, data, AcceptedOf(OpOf(e), m.max) + rest, m.max)
    ensures var (h', data') := QueueStep(h, data, m, e);
            && StandsFor(h', data', rest, m.max)
            && Meaning(h', data', rest, m.max) == Meaning(h, data, AcceptedOf(OpOf(e), m.max) + rest, m.max)
  {
    AcceptedHead(e, [], m.max);
    if OpOf(e) != [] && Accepted(OpOf(e)[0], m.max) {
      QueuedKeepsMeaning(h, data, m.max, OpOf(e)[0], rest);
    } else {
      assert AcceptedOf(OpOf(e), m.max) + rest == rest;
    }
  }

  lemma FlushEventKeepsMeaning(h: Handle, data: Content, m: Mount, e: Event, rest: seq<FileOp>)
    requires Flushes(e) && StandsFor(h, data, rest, m.max)
    ensures var (h', data') := QueueStep(h, data, m, e);
            && StandsFor(h', data', rest, m.max)
            && Meaning(h', data', rest, m.max) == Meaning(h, data, rest, m.max)
  {
    if h.dirty {
      FlushSplitsReplay(BaseOf(h, data), h.ops, rest, m.max);
      assert [] + rest == rest;
    }
  }

  lemma FinalFlushIsMeaning(h: Handle, data: Content, m: Mount, e: Event)
    requires Flushes(e) && StandsFor(h, data, [], m.max)
    ensures Meaning(h, data, [], m.max) == Ok(QueueStep(h, data, m, e).1)
  {
    assert h.ops + [] == h.ops;
    ApplySucceedsIff(BaseOf(h, data), h.ops, m.max);
  }

  /** Wherever the flushes fall, the final content is the whole log replayed once. */
  lemma {:induction false} QueueRunIsReplay(h: Handle, data: Content, m: Mount, events: seq<Event>, end: Event)
    requires Flushes(end)
    requires !m.ro && m.max <= MAX_INT
    requires StandsFor(h, data, AcceptedOf(OpsOf(events), m.max), m.max)
    ensures Meaning(h, data, AcceptedOf(OpsOf(events), m.max), m.max) == Ok(FinalContent(h, data, m, events, end))
    decreases |events|
  {
    FinalContentStep(h, data, m, events, end);
    if events == [] {
      FinalFlushIsMeaning(h, data, m, end);
    } else {
      var e, rest := events[0], AcceptedOf(OpsOf(events[1..]), m.max);
      AcceptedHead(e, events[1..], m.max);
      assert events == [e] + events[1..];
      if Flushes(e) {
        assert AcceptedOf(OpOf(e), m.max) + rest == rest;
        FlushEventKeepsMeaning(h, data, m, e, rest);
      } else {
        OpEventKeepsMeaning(h, data, m, e, rest);
      }
      var (h', data') := QueueStep(h, data, m, e);
      QueueRunIsReplay(h', data', m, events[1..], end);
    }
  }

  lemma AcceptedHead(e: Event, rest: seq<Event>, max: nat)
    ensures AcceptedOf(OpsOf([e] + rest), max) == AcceptedOf(OpOf(e), max) + AcceptedOf(OpsOf(rest), max)
    ensures OpOf(e) == [] ==> AcceptedOf(OpOf(e), max) == []
    ensures OpOf(e) != [] ==> AcceptedOf(OpOf(e), max) == if Accepted(OpOf(e)[0], max) then OpOf(e) else []
  {
    assert ([e] + rest)[1..] == rest;
    assert OpsOf([e] + rest) == OpOf(e) + OpsOf(rest);
    if OpOf(e) != [] {
      assert (OpOf(e) + OpsOf(rest))[1..] == OpsOf(rest);
      assert OpOf(e)[1..] == [];
    } else {
      assert OpOf(e) + OpsOf(rest) == OpsOf(rest);
    }
  }

  /** Flushing `a` and later replaying `b` is replaying `a + b`. */
  lemma FlushSplitsReplay(base: Content, a: seq<FileOp>, b: seq<FileOp>, max: nat)
    requires AllFit(a, max) && Enters(base, a + b, max)
    requires a != [] || |base| <= max
    ensures Apply(base, a, max).Ok? && |Apply(base, a, max).value| <= max
    ensures Apply(Apply(base, a, max).value, b, max) == Apply(base, a + b, max)
  {
    assert a != [] ==> (a + b)[0] == a[0];
    ApplySucceedsIff(base, a, max);
    ApplyComposesIff(base, a, b, max);
  }

  /** An oversized content whose log, queued or still to come, starts with a write. */
  ghost predicate Stuck(h: Handle, data: Content, ops: seq<FileOp>, max: nat) {
    && |data| > max && !h.startTrunc && !h.flushed && h.dirty == (h.ops != [])
    && (h.ops + ops == [] || (h.ops + ops)[0].Write?)
  }

  lemma StuckStep(h: Handle, data: Content, m: Mount, e: Event, rest: seq<FileOp>)
    requires !m.ro && Stuck(h, data, AcceptedOf(OpOf(e), m.max) + rest, m.max)
    ensures var (h', data') := QueueStep(h, data, m, e); data' == data && Stuck(h', data, rest, m.max)
  {
    AcceptedHead(e, [], m.max);
    var acc := AcceptedOf(OpOf(e), m.max);
    if acc != [] {
      assert h.ops + (acc + rest) == (h.ops + acc) + rest;
    } else {
      assert acc + rest == rest;
      assert h.ops != [] ==> (h.ops + rest)[0] == h.ops[0];
    }
  }

  /** A write queued first over an oversized content never reaches the server,
      nor does anything queued after it. */
  lemma {:induction false} QueueStuck(h: Handle, data: Content, m: Mount, events: seq<Event>, end: Event)
    requires Flushes(end)
    requires !m.ro && Stuck(h, data, AcceptedOf(OpsOf(events), m.max), m.max)
    ensures FinalContent(h, data, m, events, end) == data
    decreases |events|
  {
    FinalContentStep(h, data, m, events, end);
    if events == [] {
      assert h.ops + [] == h.ops;
    } else {
      AcceptedHead(events[0], events[1..], m.max);
      assert events == [events[0]] + events[1..];
      StuckStep(h, data, m, events[0], AcceptedOf(OpsOf(events[1..]), m.max));
      QueueStuck(QueueStep(h, data, m, events[0]).0, data, m, events[1..], end);
    }
  }

  /** How the file was opened; a create hands out an empty file. */
  datatype Mode = Plain | Truncating | Creating

  function StartHandle(mode: Mode, p: Path): Handle {
    if mode.Creating? then Created(p) else Opened(p, mode.Truncating?)
  }

  /** When the two mounts end with the same content.  They differ exactly when an
      oversized file, not cut by the open, is first written to and later truncated:
      the queue is refused as a whole, while the adapter refuses only the writes
      before the truncate. */
  predicate MountsAgree(mode: Mode, data: Content, ops: seq<FileOp>, max: nat) {
    var acc := AcceptedOf(ops, max);
    mode.Truncating? || |data| <= max || acc == [] || acc[0].Truncate? || forall op | op in acc :: !op.Truncate?
  }

  lemma ContentsAgreeIff(mode: Mode, p: Path, data: Content, m: Mount, events: seq<Event>, end: Event)
    requires Flushes(end)
    requires !m.ro && m.max <= MAX_INT
    requires mode.Creating? ==> data == []
    ensures var start := if mode.Truncating? then [] else data;
            FinalContent(StartHandle(mode, p), data, m, events, end) == CommitAll(start, OpsOf(events), m.max)
            <==> MountsAgree(mode, data, OpsOf(events), m.max)
  {
    var h, ops := StartHandle(mode, p), OpsOf(events);
    var start := BaseOf(h, data);
    var acc := AcceptedOf(ops, m.max);
    assert h.ops + acc == acc;
    if |start| <= m.max || (acc != [] && acc[0].Truncate?) {
      QueueRunIsReplay(h, data, m, events, end);
      CommitAllIsReplay(start, ops, m.max);
    } else {
      if acc != [] {
        AcceptedInList(ops, m.max, acc[0]);
      }
      QueueStuck(h, data, m, events, end);
      CommitAllOversized(data, ops, m.max);
    }
  }

  lemma {:induction false} AcceptedInList(ops: seq<FileOp>, max: nat, op: FileOp)
    requires op in AcceptedOf(ops, max)
    ensures op.Write? || op.Truncate?
  {
    if !(Accepted(ops[0], max) && op == ops[0]) {
      AcceptedInList(ops[1..], max, op);
    }
  }

  // ----- the full mounts behave like these functions -----

  /** The events of a run are operations, and undisturbed reads, flushes and releases. */
  ghost predicate QuietEvents(events: seq<Event>, now: nat)
    decreases |events|
  {
    events != [] ==>
      match events[0]
      case WriteEv(_, _) => QuietEvents(events[1..], now)
      case TruncateEv(_) => QuietEvents(events[1..], now)
      case FlushEv(script) => QuietScript(script, now) && QuietEvents(events[1..], script.write.now)
      case ReleaseEv(script) => QuietScript(script, now) && QuietEvents(events[1..], script.write.now)
      case ReadEv(script) => QuietScript(script, now) && QuietEvents(events[1..], script.write.now)
      case OutsideEv(_) => false
  }

  lemma {:induction false} QuietLater(events: seq<Event>, now: nat, earlier: nat)
    requires QuietEvents(events, now) && earlier <= now
    ensures QuietEvents(events, earlier)
    decreases |events|
  {
    if events != [] && (events[0].WriteEv? || events[0].TruncateEv?) {
      QuietLater(events[1..], now, earlier);
    }
  }

  /** The Unix mount, cache and all, does to the server what the queue does. */
  lemma {:induction false} UnixMountRuns(h: Handle, s: State, m: Mount, events: seq<Event>)
    requires !m.ro && Settled(s, h.path) && QuietEvents(events, s.world.now)
    ensures var (h', s') := HandleRun(h, s, m, events);
            && h'.path == h.path && Settled(s', h.path)
            && (h', DataAt(s', h.path)) == QueueRun(h, DataAt(s, h.path), m, events)
    decreases |events|
  {
    if events != [] {
      var (h', s') := HandleStep(h, s, m, events[0]);
      if Flushes(events[0]) {
        if h.dirty && !h.flushed {
          QuietFlush(h, s, m, events[0].script);
        }
        QuietLater(events[1..], events[0].script.write.now, s'.world.now);
      } else if events[0].ReadEv? {
        QuietMaterialize(h, s, m, events[0].script);
        QuietLater(events[1..], events[0].script.write.now, s'.world.now);
      }
      UnixMountRuns(h', s', m, events[1..]);
    }
  }

  datatype WinCall = WinCall(op: FileOp, ws: WinScript)

  ghost predicate QuietCalls(calls: seq<WinCall>, now: nat)
    decreases |calls|
  {
    calls != [] ==>
      && Quiet(calls[0].ws.check) && now <= calls[0].ws.check.now
      && QuietScript(calls[0].ws.io, calls[0].ws.check.now)
      && QuietCalls(calls[1..], calls[0].ws.io.write.now)
  }

  lemma QuietCallsLater(calls: seq<WinCall>, now: nat, earlier: nat)
    requires QuietCalls(calls, now) && earlier <= now
    ensures QuietCalls(calls, earlier)
  {
  }

  function CallStep(s: State, m: Mount, p: Path, c: WinCall): (s': State)
    requires s.world.trace != []
    ensures s'.world.trace != []
  {
    var h := Some(WinHandle(p, true));
    match c.op
    case Write(off, data) => WriteThrough(s, m, h, off, data, c.ws).1
    case Truncate(size) => ResizeThrough(s, m, p, h, size, c.ws).1
    case Unknown(_) => s
  }

  function CallRun(s: State, m: Mount, p: Path, calls: seq<WinCall>): State
    requires s.world.trace != []
    decreases |calls|
  {
    if calls == [] then s else CallRun(CallStep(s, m, p, calls[0]), m, p, calls[1..])
  }

  function CallOps(calls: seq<WinCall>): seq<FileOp> {
    seq(|calls|, i requires 0 <= i < |calls| => calls[i].op)
  }

  lemma SingleOp(data: Content, op: FileOp, max: nat)
    ensures Apply(data, [op], max) ==
            if Enters(data, [op], max) then ApplyOp(data, op, max) else Err(EFBIG)
  {
    assert [op][0] == op && [op][1..] == [];
    if ApplyOp(data, op, max).Ok? {
      assert ApplyAll(ApplyOp(data, op, max).value, [], max) == ApplyOp(data, op, max);
    }
  }

  lemma QuietFlushBuffer(s: State, p: Path, max: nat, ops: seq<FileOp>, script: Script)
    requires Settled(s, p) && QuietScript(script, s.world.now)
    ensures var s' := FlushThrough(s, p, false, max, false, ops, script).1;
            && Settled(s', p) && s'.world.now <= script.write.now
            && DataAt(s', p) == (match Apply(DataAt(s, p), ops, max) case Ok(r) => r case Err(_) => DataAt(s, p))
  {
    QuietRead(s, p, script);
    var s1 := ReadThrough(s, p, script).1;
    var buf := Apply(DataAt(s, p), ops, max);
    if buf.Ok? {
      QuietStore(s1, p, buf.value, script.write);
    }
  }

  lemma WinWriteCommits(s: State, m: Mount, p: Path, off: int, data: Content, ws: WinScript)
    requires !m.ro && Settled(s, p) && QuietScript(ws.io, s.world.now)
    ensures var s' := WriteThrough(s, m, Some(WinHandle(p, true)), off, data, ws).1;
            && Settled(s', p) && s'.world.now <= ws.io.write.now
            && DataAt(s', p) == Commit(DataAt(s, p), Write(off, data), m.max)
  {
    if off < 0 || off + |data| > m.max {
      SingleOp(DataAt(s, p), Write(off, data), m.max);
    } else {
      QuietFlushBuffer(s, p, m.max, [Write(off, data)], ws.io);
    }
  }

  lemma QuietTruncate(s: State, m: Mount, p: Path, size: nat, script: Script)
    requires Settled(s, p) && QuietScript(script, s.world.now)
    ensures var s' := TruncateThrough(s, p, size, m.max, script).1;
            && Settled(s', p) && s'.world.now <= script.write.now
            && DataAt(s', p) == Commit(DataAt(s, p), Truncate(size), m.max)
  {
    SingleOp(DataAt(s, p), Truncate(size), m.max);
    QuietRead(s, p, script);
    var s1 := ReadThrough(s, p, script).1;
    var buf := ResizeTo(DataAt(s, p), size, m.max);
    if buf.Ok? {
      QuietStore(s1, p, buf.value, script.write);
    }
  }

  /** A resize within the limit is carried out on the state after its check. */
  lemma WinResizeReaches(s: State, m: Mount, p: Path, size: nat, ws: WinScript)
    requires !m.ro && Settled(s, p) && size <= m.max
    requires Quiet(ws.check) && s.world.now <= ws.check.now
    ensures var s1 := StatThrough(s, p, ws.check).1;
            && Settled(s1, p) && DataAt(s1, p) == DataAt(s, p) && s1.world.now <= ws.check.now
            && ResizeThrough(s, m, p, Some(WinHandle(p, true)), size, ws).1
               == TruncateThrough(s1, p, size, m.max, ws.io).1
  {
    QuietStat(s, p, ws.check);
  }

  lemma WinResizeCommits(s: State, m: Mount, p: Path, size: nat, ws: WinScript)
    requires !m.ro && Settled(s, p)
    requires Quiet(ws.check) && s.world.now <= ws.check.now && QuietScript(ws.io, ws.check.now)
    ensures var s' := ResizeThrough(s, m, p, Some(WinHandle(p, true)), size, ws).1;
            && Settled(s', p) && s'.world.now <= ws.io.write.now
            && DataAt(s', p) == Commit(DataAt(s, p), Truncate(size), m.max)
  {
    if size > m.max {
      SingleOp(DataAt(s, p), Truncate(size), m.max);
    } else {
      WinResizeReaches(s, m, p, size, ws);
      QuietTruncate(StatThrough(s, p, ws.check).1, m, p, size, ws.io);
    }
  }

  lemma WinMountSteps(s: State, m: Mount, p: Path, c: WinCall)
    requires !m.ro && Settled(s, p) && QuietCalls([c], s.world.now)
    ensures var s' := CallStep(s, m, p, c);
            && Settled(s', p) && s'.world.now <= c.ws.io.write.now
            && DataAt(s', p) == Commit(DataAt(s, p), c.op, m.max)
  {
    assert c == [c][0];
    match c.op {
      case Write(off, data) => WinWriteCommits(s, m, p, off, data, c.ws);
      case Truncate(size) => WinResizeCommits(s, m, p, size, c.ws);
      case Unknown(_) => SingleOp(DataAt(s, p), c.op, m.max);
    }
  }

  /** The Windows mount, cache and all, commits each operation. */
  lemma {:induction false} WinMountRuns(s: State, m: Mount, p: Path, calls: seq<WinCall>)
    requires !m.ro && Settled(s, p) && QuietCalls(calls, s.world.now)
    ensures var s' := CallRun(s, m, p, calls);
            Settled(s', p) && DataAt(s', p) == CommitAll(DataAt(s, p), CallOps(calls), m.max)
    decreases |calls|
  {
    if calls != [] {
      assert QuietCalls([calls[0]], s.world.now);
      WinMountSteps(s, m, p, calls[0]);
      var s' := CallStep(s, m, p, calls[0]);
      QuietCallsLater(calls[1..], calls[0].ws.io.write.now, s'.world.now);
      WinMountRuns(s', m, p, calls[1..]);
      assert CallOps(calls)[1..] == CallOps(calls[1..]);
    }
  }

  /** Opening for writing, undisturbed, on the Windows side. */
  lemma WinMountOpens(s: State, m: Mount, p: Path, truncate: bool, ws: WinScript)
    requires !m.ro && Settled(s, p) && QuietCalls([WinCall(Truncate(0), ws)], s.world.now)
    ensures var (out, s') := OpenThrough(s, m, p, ReadWrite, truncate, ws);
            && out.Ok? && Settled(s', p) && s'.world.now <= ws.io.write.now
            && DataAt(s', p) == if truncate then [] else DataAt(s, p)
  {
    assert WinCall(Truncate(0), ws) == [WinCall(Truncate(0), ws)][0];
    WinOpenReaches(s, m, p, truncate, ws);
    if truncate {
      QuietStore(StatThrough(s, p, ws.check).1, p, [], ws.io.write);
    }
  }

  lemma WinOpenReaches(s: State, m: Mount, p: Path, truncate: bool, ws: WinScript)
    requires !m.ro && Settled(s, p) && Quiet(ws.check) && s.world.now <= ws.check.now
    ensures var s1 := StatThrough(s, p, ws.check).1;
            var flushed := FlushThrough(s1, p, m.ro, m.max, true, [], ws.io);
            && Settled(s1, p) && DataAt(s1, p) == DataAt(s, p) && s1.world.now <= ws.check.now
            && OpenThrough(s, m, p, ReadWrite, truncate, ws)
               == if !truncate then (Ok(()), s1)
                  else (match flushed.0 case Err(e) => Err(e) case Ok(_) => Ok(()), flushed.1)
  {
    QuietStat(s, p, ws.check);
  }

  /** The theorem: the same operations through the two mounts of one server, the
      Unix handle read and flushed at any moments and flushed or released at the end,
      the Windows adapter
      committing each call, leave the same content on the server exactly when
      `MountsAgree`. */
  lemma MountsLeaveSameContentIff(mode: Mode, p: Path, s: State, m: Mount, events: seq<Event>, end: Event,
                                  open: WinScript, calls: seq<WinCall>)
    requires Flushes(end)
    requires !m.ro && m.max <= MAX_INT
    requires Settled(s, p) && (mode.Creating? ==> DataAt(s, p) == [])
    requires QuietEvents(events + [end], s.world.now)
    requires QuietCalls([WinCall(Truncate(0), open)] + calls, s.world.now)
    requires CallOps(calls) == OpsOf(events)
    ensures var unix := HandleRun(StartHandle(mode, p), s, m, events + [end]).1;
            var win := CallRun(OpenThrough(s, m, p, ReadWrite, mode.Truncating?, open).1, m, p, calls);
            && unix.world.trace != [] && win.world.trace != []
            && p in Current(unix.world).files && p in Current(win.world).files
            && (DataAt(unix, p) == DataAt(win, p) <==> MountsAgree(mode, DataAt(s, p), OpsOf(events), m.max))
  {
    var all := [WinCall(Truncate(0), open)] + calls;
    assert all[0] == WinCall(Truncate(0), open) && all[1..] == calls;
    assert QuietCalls([WinCall(Truncate(0), open)], s.world.now);
    UnixMountRuns(StartHandle(mode, p), s, m, events + [end]);
    WinMountOpens(s, m, p, mode.Truncating?, open);
    var s' := OpenThrough(s, m, p, ReadWrite, mode.Truncating?, open).1;
    QuietCallsLater(calls, open.io.write.now, s'.world.now);
    WinMountRuns(s', m, p, calls);
    ContentsAgreeIff(mode, p, DataAt(s, p), m, events, end);
  }

  /** The excluded family is real: two bytes over a limit of one, a write, then a
      truncate to nothing. */
  lemma OversizedWriteThenTruncateDiffers(p: Path, end: Event)
    requires Flushes(end)
    ensures var events := [WriteEv(0, [7]), TruncateEv(0)];
            var m := Mount(false, 1);
            && FinalContent(Opened(p, false), [5, 6], m, events, end) == [5, 6]
            && CommitAll([5, 6], OpsOf(events), 1) == []
  {
    var events := [WriteEv(0, [7]), TruncateEv(0)];
    var ops := OpsOf(events);
    assert events[1..] == [TruncateEv(0)] && [TruncateEv(0)][1..] == [];
    assert ops == [Write(0, [7]), Truncate(0)];
    assert ops[1..] == [Truncate(0)] && [Truncate(0)][1..] == [];
    assert AcceptedOf(ops, 1) == ops by {
      assert AcceptedOf([Truncate(0)], 1) == [Truncate(0)];
    }
    QueueStuck(Opened(p, false), [5, 6], Mount(false, 1), events, end);
    SingleOp([5, 6], Write(0, [7]), 1);
    SingleOp([5, 6], Truncate(0), 1);
    assert CommitAll([5, 6], ops, 1) == CommitAll([5, 6], [Truncate(0)], 1) == Resized([5, 6], 0);
  }
}
