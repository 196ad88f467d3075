/**
Reads and whole-file writes through the cache (fuse/handle.go) while other
clients write to the same server.  The functions say what one call does to
cache and world; the methods are the code; the theorems are about every run of
calls made one at a time.
*/
module CachedIo {
  import opened Options
  import opened FileOps
  import opened Vfs
  import opened VfsCache

  datatype State = State(cache: Contents, world: World)

  /** The replies one call may need, in the order it asks for them. */
  datatype Script = Script(stat: Reply, read: Reply, write: Reply)

  /** What a content read hands to its caller, with the version it belongs to. */
  datatype Served = Served(version: nat, data: Content)

  // ----- one call -----

  function StatThrough(s: State, p: Path, r: Reply): (res: (Outcome<Node>, State))
    requires s.world.trace != []
    ensures s.world.trace <= res.1.world.trace
  {
    var cache := AfterGetAttr(s.cache, p, s.world.now);
    match LiveAttr(s.cache, p, s.world.now)
    case Some(node) => (Ok(node), State(cache, s.world))
    case None =>
      var (out, world) := RpcStat(s.world, p, r);
      match out
      case Err(e) => (Err(e), State(cache, world))
      case Ok(node) => (Ok(node), State(WithAttr(cache, p, node, world.now), world))
  }

  /** A read whose attributes were found: from the cache if it holds that version,
      else from the server. */
  function FetchThrough(s: State, p: Path, version: nat, r: Reply): (res: (Outcome<Served>, State))
    requires s.world.trace != []
    ensures s.world.trace <= res.1.world.trace
  {
    match ContentAt(s.cache, p, version)
    case Some(data) => (Ok(Served(version, data)), s)
    case None =>
      var (out, world) := RpcRead(s.world, p, r);
      match out
      case Err(e) => (Err(e), State(s.cache, world))
      case Ok(f) => (Ok(Served(f.version, f.data)), State(WithContent(s.cache, p, f.version, f.data), world))
  }

  function ReadThrough(s: State, p: Path, script: Script): (res: (Outcome<Served>, State))
    requires s.world.trace != []
    ensures s.world.trace <= res.1.world.trace
  {
    var (node, s') := StatThrough(s, p, script.stat);
    match node
    case Err(e) => (Err(e), s')
    case Ok(n) => FetchThrough(s', p, n.version, script.read)
  }

  /** Push a whole content and remember the acknowledged node and bytes. */
  function StoreThrough(s: State, p: Path, data: Content, r: Reply): (res: (Outcome<Node>, State))
    requires s.world.trace != []
    ensures s.world.trace <= res.1.world.trace
  {
    var (out, world) := RpcWrite(s.world, p, data, r);
    match out
    case Err(e) => (Err(e), State(s.cache, world))
    case Ok(node) =>
      (Ok(node), State(WithContent(WithAttr(s.cache, p, node, world.now), p, node.version, data), world))
  }

  function TruncateThrough(s: State, p: Path, size: nat, max: nat, script: Script): (res: (Outcome<Node>, State))
    requires s.world.trace != []
    ensures s.world.trace <= res.1.world.trace
  {
    var (got, s') := ReadThrough(s, p, script);
    match got
    case Err(e) => (Err(e), s')
    case Ok(served) =>
      match ResizeTo(served.data, size, max)
      case Err(e) => (Err(e), s')
      case Ok(resized) => StoreThrough(s', p, resized, script.write)
  }

  /** A file that vanished under a write is reported stale. */
  function StaleIfGone(out: Outcome<Node>): Outcome<Node> {
    if out == Err(ENOENT) then Err(ESTALE) else out
  }

  /** The base a batch applies to: nothing after a truncating open, else the
      current content. */
  function BaseThrough(s: State, p: Path, startTrunc: bool, script: Script): (res: (Outcome<Content>, State))
    requires s.world.trace != []
    ensures s.world.trace <= res.1.world.trace
  {
    if startTrunc then (Ok([]), s)
    else
      var (got, s') := ReadThrough(s, p, script);
      (match got case Err(e) => Err(e) case Ok(served) => Ok(served.data), s')
  }

  function FlushThrough(s: State, p: Path, ro: bool, max: nat, startTrunc: bool, ops: seq<FileOp>, script: Script)
    : (res: (Outcome<Node>, State))
    requires s.world.trace != []
    ensures s.world.trace <= res.1.world.trace
  {
    if ro then (Err(EROFS), s)
    else
      var (base, s') := BaseThrough(s, p, startTrunc, script);
      match base
      case Err(e) => (Err(e), s')
      case Ok(b) =>
        match Apply(b, ops, max)
        case Err(e) => (Err(e), s')
        case Ok(buf) =>
          var (out, s'') := StoreThrough(s', p, buf, script.write);
          (StaleIfGone(out), s'')
  }

  // ----- the code -----

  method StatCached(cache: Cache, world: World, path: Path, r: Reply) returns (node: Outcome<Node>, world': World)
    requires world.trace != []
    modifies cache
    ensures (node, State(cache.View(), world')) == old(StatThrough(State(cache.View(), world), path, r))
  {
    var hit := cache.GetAttr(path, world.now);
    if hit.Some? {
      return Ok(hit.value), world;
    }
    var reply := RpcStat(world, path, r);
    node, world' := reply.0, reply.1;
    if node.Ok? {
      cache.PutAttr(path, node.value, world'.now);
    }
  }

  method ContentReader(cache: Cache, world: World, path: Path, script: Script)
    returns (data: Outcome<Content>, world': World)
    requires world.trace != []
    modifies cache
    ensures var (got, s') := old(ReadThrough(State(cache.View(), world), path, script));
            && State(cache.View(), world') == s'
            && data == (match got case Err(e) => Err(e) case Ok(served) => Ok(served.data))
  {
    var node;
    node, world' := StatCached(cache, world, path, script.stat);
    if node.Err? {
      return Err(node.errno), world';
    }
    var hit := cache.GetContent(path, node.value.version);
    if hit.Some? {
      return Ok(hit.value), world';
    }
    var reply := RpcRead(world', path, script.read);
    world' := reply.1;
    if reply.0.Err? {
      return Err(reply.0.errno), world';
    }
    cache.PutContent(path, reply.0.value.version, reply.0.value.data);
    data := Ok(reply.0.value.data);
  }

  method Store(cache: Cache, world: World, path: Path, data: Content, r: Reply)
    returns (node: Outcome<Node>, world': World)
    requires world.trace != []
    modifies cache
    ensures (node, State(cache.View(), world')) == old(StoreThrough(State(cache.View(), world), path, data, r))
  {
    var reply := RpcWrite(world, path, data, r);
    node, world' := reply.0, reply.1;
    if node.Ok? {
      cache.PutAttr(path, node.value, world'.now);
      cache.PutContent(path, node.value.version, data);
    }
  }

  method TruncatePath(cache: Cache, world: World, path: Path, size: nat, max: nat, script: Script)
    returns (node: Outcome<Node>, world': World)
    requires world.trace != []
    modifies cache
    ensures (node, State(cache.View(), world'))
            == old(TruncateThrough(State(cache.View(), world), path, size, max, script))
  {
    var data;
    data, world' := ContentReader(cache, world, path, script);
    if data.Err? {
      return Err(data.errno), world';
    }
    var resized := ResizeTo(data.value, size, max);
    if resized.Err? {
      return Err(resized.errno), world';
    }
    node, world' := Store(cache, world', path, resized.value, script.write);
  }

  method FlushBuffer(cache: Cache, world: World, path: Path, ro: bool, max: nat, startTrunc: bool,
                     ops: seq<FileOp>, script: Script)
    returns (node: Outcome<Node>, world': World)
    requires world.trace != []
    modifies cache
    ensures (node, State(cache.View(), world'))
            == old(FlushThrough(State(cache.View(), world), path, ro, max, startTrunc, ops, script))
  {
    world' := world;
    if ro {
      return Err(EROFS), world;
    }
    var base: Outcome<Content> := Ok([]);
    if !startTrunc {
      base, world' := ContentReader(cache, world, path, script);
      if base.Err? {
        return Err(base.errno), world';
      }
    }
    var buf := Apply(base.value, ops, max);
    if buf.Err? {
      return Err(buf.errno), world';
    }
    node, world' := Store(cache, world', path, buf.value, script.write);
    node := StaleIfGone(node);
  }

  // ----- runs -----

  /** Creating an empty file: its parent's listing goes, its attributes stay. */
  function CreateThrough(s: State, p: Path, r: Reply): (res: (Outcome<Node>, State))
    requires s.world.trace != []
    ensures s.world.trace <= res.1.world.trace
  {
    var (out, world) := RpcCreate(s.world, p, r);
    if out.Err? then (out, State(s.cache, world))
    else (out, State(WithAttr(Invalidated(s.cache, p), p, out.value, world.now), world))
  }

  /** Everything a serialized client does, and the passage of time between calls. */
  datatype Action =
    | StatAct(path: Path, script: Script)
    | ReadAct(path: Path, script: Script)
    | TruncateAct(path: Path, size: nat, max: nat, script: Script)
    | FlushAct(path: Path, ro: bool, max: nat, startTrunc: bool, ops: seq<FileOp>, script: Script)
    | CreateAct(path: Path, script: Script)
    | UnlinkAct(path: Path, script: Script)
    | IdleAct(more: seq<Snapshot>, now: nat)

  function Step(s: State, a: Action): (s': State)
    requires s.world.trace != []
    ensures s.world.trace <= s'.world.trace
  {
    match a
    case StatAct(p, script) => StatThrough(s, p, script.stat).1
    case ReadAct(p, script) => ReadThrough(s, p, script).1
    case TruncateAct(p, size, max, script) => TruncateThrough(s, p, size, max, script).1
    case FlushAct(p, ro, max, startTrunc, ops, script) => FlushThrough(s, p, ro, max, startTrunc, ops, script).1
    case CreateAct(p, script) => CreateThrough(s, p, script.write).1
    case UnlinkAct(p, script) =>
      var (out, world) := RpcRemove(s.world, p, script.write);
      if out.Err? then State(s.cache, world) else State(Invalidated(s.cache, p), world)
    case IdleAct(more, now) => State(s.cache, World(s.world.trace + more, now))
  }

  /** Does the action read content, and if so of which path? */
  predicate Reads(a: Action) {
    a.ReadAct? || a.TruncateAct? || (a.FlushAct? && !a.ro && !a.startTrunc)
  }

  function ServedIn(s: State, a: Action): Option<(Path, Served)>
    requires s.world.trace != []
  {
    if Reads(a) then
      match ReadThrough(s, a.path, a.script).0
      case Err(_) => None
      case Ok(served) => Some((a.path, served))
    else None
  }

  function Run(s: State, acts: seq<Action>): (s': State)
    requires s.world.trace != []
    ensures s.world.trace <= s'.world.trace
    decreases |acts|
  {
    if acts == [] then s else Run(Step(s, acts[0]), acts[1..])
  }

  /** Every content served in a run, in order. */
  function ServedLog(s: State, acts: seq<Action>): seq<(Path, Served)>
    requires s.world.trace != []
    decreases |acts|
  {
    if acts == [] then []
    else
      var head := match ServedIn(s, acts[0]) case None => [] case Some(x) => [x];
      head + ServedLog(Step(s, acts[0]), acts[1..])
  }

  // ----- the invariant -----

  ghost predicate Described(t: seq<Snapshot>, p: Path, node: Node) {
    exists k | 0 <= k < |t| :: p in t[k].files && NodeOf(t[k].files[p]) == node
  }

  ghost predicate VersionHeld(t: seq<Snapshot>, p: Path, version: nat) {
    exists k | 0 <= k < |t| :: p in t[k].files && t[k].files[p].version == version
  }

  /** Every cached pair is what the server held at that version, and every cached
      node describes a file the server had. */
  ghost predicate Coherent(s: State) {
    && (forall p | p in s.cache.content ::
          Held(s.world.trace, p, s.cache.content[p].version, s.cache.content[p].data))
    && (forall p | p in s.cache.attrs :: Described(s.world.trace, p, s.cache.attrs[p].node))
  }

  /** `marks` records the last version served of each path. */
  ghost predicate Inv(s: State, marks: map<Path, nat>) {
    && s.world.trace != []
    && Coherent(s)
    && (forall p | p in marks :: VersionHeld(s.world.trace, p, marks[p]))
    && (forall p | p in marks && p in s.cache.content :: marks[p] <= s.cache.content[p].version)
  }

  lemma InvInLonger(s: State, marks: map<Path, nat>, world: World)
    requires Inv(s, marks) && s.world.trace <= world.trace
    ensures Inv(State(s.cache, world), marks)
  {
    var t := s.world.trace;
    var more := world.trace[|t|..];
    assert world.trace == t + more;
    forall p | p in s.cache.content
      ensures Held(world.trace, p, s.cache.content[p].version, s.cache.content[p].data)
    {
      HeldInLonger(t, more, 0, p, s.cache.content[p].version, s.cache.content[p].data);
    }
    assert forall k | 0 <= k < |t| :: world.trace[k] == t[k];
  }

  lemma InvWithContent(s: State, marks: map<Path, nat>, p: Path, version: nat, data: Content)
    requires Inv(s, marks)
    requires Held(s.world.trace, p, version, data)
    requires p in marks ==> marks[p] <= version
    ensures Inv(State(WithContent(s.cache, p, version, data), s.world), marks)
  {
  }

  lemma InvWithAttr(s: State, marks: map<Path, nat>, p: Path, node: Node, now: nat)
    requires Inv(s, marks)
    requires Described(s.world.trace, p, node)
    ensures Inv(State(WithAttr(s.cache, p, node, now), s.world), marks)
  {
  }

  lemma InvWithMark(s: State, marks: map<Path, nat>, p: Path, version: nat, data: Content)
    requires Inv(s, marks)
    requires p in s.cache.content && s.cache.content[p] == ContentEntry(version, data)
    ensures Inv(s, marks[p := version]) && Held(s.world.trace, p, version, data)
  {
    assert Held(s.world.trace, p, version, data);
    assert VersionHeld(s.world.trace, p, version);
  }

  /** What the server has at the end of a history is no older than any mark. */
  lemma LatestReachesMarks(s: State, marks: map<Path, nat>, t: seq<Snapshot>, j: nat, p: Path)
    requires Inv(s, marks) && ValidTrace(t) && s.world.trace <= t
    requires |s.world.trace| - 1 <= j < |t| && p in t[j].files
    ensures p in marks ==> marks[p] <= t[j].files[p].version
  {
    if p in marks {
      var i :| 0 <= i < |s.world.trace| && p in s.world.trace[i].files
               && s.world.trace[i].files[p].version == marks[p];
      assert t[i] == s.world.trace[i];
      VersionsOrderHistory(t, i, j, p);
    }
  }

  lemma StatKeepsInv(s: State, marks: map<Path, nat>, p: Path, r: Reply)
    requires Inv(s, marks)
    ensures Inv(StatThrough(s, p, r).1, marks)
  {
    var cache := AfterGetAttr(s.cache, p, s.world.now);
    var s1 := State(cache, s.world);
    assert Inv(s1, marks);
    if LiveAttr(s.cache, p, s.world.now).None? {
      var (out, world) := RpcStat(s.world, p, r);
      InvInLonger(s1, marks, world);
      if out.Ok? {
        var k := |s.world.trace + r.before| - 1;
        assert world.trace[k] == AtServer(s.world, r);
        InvWithAttr(State(cache, world), marks, p, out.value, world.now);
      }
    }
  }

  lemma FetchKeepsInv(s: State, marks: map<Path, nat>, p: Path, version: nat, r: Reply)
    requires Inv(s, marks) && ValidTrace(FetchThrough(s, p, version, r).1.world.trace)
    ensures var (got, s') := FetchThrough(s, p, version, r);
            match got
            case Err(_) => Inv(s', marks)
            case Ok(served) =>
              && (p in marks ==> marks[p] <= served.version)
              && Held(s'.world.trace, p, served.version, served.data)
              && Inv(s', marks[p := served.version])
  {
    var (got, s') := FetchThrough(s, p, version, r);
    if ContentAt(s.cache, p, version).None? {
      var (out, world) := RpcRead(s.world, p, r);
      InvInLonger(s, marks, world);
      if out.Ok? {
        var k := |s.world.trace + r.before| - 1;
        assert world.trace[k] == AtServer(s.world, r);
        LatestReachesMarks(s, marks, world.trace, k, p);
        assert Held(world.trace, p, out.value.version, out.value.data);
        InvWithContent(State(s.cache, world), marks, p, out.value.version, out.value.data);
      }
    }
    if got.Ok? {
      InvWithMark(s', marks, p, got.value.version, got.value.data);
    }
  }

  /** A read keeps the invariant; what it serves is what the server held, and no
      older than anything served before. */
  lemma ReadKeepsInv(s: State, marks: map<Path, nat>, p: Path, script: Script)
    requires Inv(s, marks) && ValidTrace(ReadThrough(s, p, script).1.world.trace)
    ensures var (got, s') := ReadThrough(s, p, script);
            match got
            case Err(_) => Inv(s', marks)
            case Ok(served) =>
              && (p in marks ==> marks[p] <= served.version)
              && Held(s'.world.trace, p, served.version, served.data)
              && Inv(s', marks[p := served.version])
  {
    StatKeepsInv(s, marks, p, script.stat);
    var (node, s') := StatThrough(s, p, script.stat);
    if node.Ok? {
      FetchKeepsInv(s', marks, p, node.value.version, script.read);
    }
  }

  lemma StoreKeepsInv(s: State, marks: map<Path, nat>, p: Path, data: Content, r: Reply)
    requires Inv(s, marks) && ValidTrace(StoreThrough(s, p, data, r).1.world.trace)
    ensures Inv(StoreThrough(s, p, data, r).1, marks)
  {
    var (out, world) := RpcWrite(s.world, p, data, r);
    InvInLonger(s, marks, world);
    if out.Ok? {
      var k := |s.world.trace + r.before|;
      assert world.trace[k].files[p] == Stored(out.value.version, File, true, data);
      LatestReachesMarks(s, marks, world.trace, k, p);
      InvWithAttr(State(s.cache, world), marks, p, out.value, world.now);
      InvWithContent(State(WithAttr(s.cache, p, out.value, world.now), world), marks, p, out.value.version, data);
    }
  }

  lemma MarksAfterRead(s: State, marks: map<Path, nat>, p: Path, script: Script) returns (marks': map<Path, nat>)
    requires Inv(s, marks) && ValidTrace(ReadThrough(s, p, script).1.world.trace)
    ensures var (got, s') := ReadThrough(s, p, script);
            && Inv(s', marks')
            && marks' == (match got case Err(_) => marks case Ok(served) => marks[p := served.version])
  {
    ReadKeepsInv(s, marks, p, script);
    var got := ReadThrough(s, p, script).0;
    marks' := match got case Err(_) => marks case Ok(served) => marks[p := served.version];
  }

  function MarksAfter(s: State, marks: map<Path, nat>, a: Action): map<Path, nat>
    requires s.world.trace != []
  {
    match ServedIn(s, a) case None => marks case Some(x) => marks[x.0 := x.1.version]
  }

  lemma WritingStepKeepsInv(s: State, marks: map<Path, nat>, a: Action)
    requires a.TruncateAct? || a.FlushAct?
    requires Inv(s, marks) && ValidTrace(Step(s, a).world.trace)
    ensures Inv(Step(s, a), MarksAfter(s, marks, a))
  {
    if Reads(a) {
      var s1 := ReadThrough(s, a.path, a.script).1;
      assert s1.world.trace <= Step(s, a).world.trace;
      PrefixOfValid(s1.world.trace, Step(s, a).world.trace);
      var marks' := MarksAfterRead(s, marks, a.path, a.script);
      assert marks' == MarksAfter(s, marks, a);
      if Step(s, a) != s1 {
        var data :| Step(s, a) == StoreThrough(s1, a.path, data, a.script.write).1;
        StoreKeepsInv(s1, marks', a.path, data, a.script.write);
      }
    } else if Step(s, a) != s {
      var data :| Step(s, a) == StoreThrough(s, a.path, data, a.script.write).1;
      StoreKeepsInv(s, marks, a.path, data, a.script.write);
    }
  }

  lemma CreateOrUnlinkKeepsInv(s: State, marks: map<Path, nat>, a: Action)
    requires a.CreateAct? || a.UnlinkAct?
    requires Inv(s, marks) && ValidTrace(Step(s, a).world.trace)
    ensures Inv(Step(s, a), marks)
  {
    var world := Step(s, a).world;
    InvInLonger(s, marks, world);
    var gone := State(Invalidated(s.cache, a.path), world);
    assert Inv(gone, marks);
    if a.CreateAct? && RpcCreate(s.world, a.path, a.script.write).0.Ok? {
      var node := RpcCreate(s.world, a.path, a.script.write).0.value;
      var k := |s.world.trace + a.script.write.before|;
      assert NodeOf(world.trace[k].files[a.path]) == node;
      InvWithAttr(gone, marks, a.path, node, world.now);
    }
  }

  lemma StepKeepsInv(s: State, marks: map<Path, nat>, a: Action)
    requires Inv(s, marks) && ValidTrace(Step(s, a).world.trace)
    ensures Inv(Step(s, a), MarksAfter(s, marks, a))
    ensures match ServedIn(s, a)
            case None => true
            case Some((p, served)) =>
              && (p in marks ==> marks[p] <= served.version)
              && Held(Step(s, a).world.trace, p, served.version, served.data)
  {
    if Reads(a) {
      var s1 := ReadThrough(s, a.path, a.script).1;
      assert s1.world.trace <= Step(s, a).world.trace;
      PrefixOfValid(s1.world.trace, Step(s, a).world.trace);
      ReadKeepsInv(s, marks, a.path, a.script);
      var got := ReadThrough(s, a.path, a.script).0;
      if got.Ok? {
        var t := Step(s, a).world.trace;
        HeldInLonger(s1.world.trace, t[|s1.world.trace|..], 0, a.path, got.value.version, got.value.data);
        assert t == s1.world.trace + t[|s1.world.trace|..];
      }
    }
    match a {
      case StatAct(p, script) => StatKeepsInv(s, marks, p, script.stat);
      case ReadAct(p, script) => var _ := MarksAfterRead(s, marks, p, script);
      case IdleAct(more, now) => InvInLonger(s, marks, World(s.world.trace + more, now));
      case CreateAct(_, _) => CreateOrUnlinkKeepsInv(s, marks, a);
      case UnlinkAct(_, _) => CreateOrUnlinkKeepsInv(s, marks, a);
      case _ => WritingStepKeepsInv(s, marks, a);
    }
  }

  // ----- the theorems -----

  /** Whatever the remote writers do, after any run from a coherent start each
      cached pair is what the server held at that version. */
  lemma {:induction false} RunStaysCoherent(s: State, acts: seq<Action>, marks: map<Path, nat>)
    requires Inv(s, marks) && ValidTrace(Run(s, acts).world.trace)
    ensures Coherent(Run(s, acts))
    decreases |acts|
  {
    if acts != [] {
      var s' := Step(s, acts[0]);
      PrefixOfValid(s'.world.trace, Run(s, acts).world.trace);
      StepKeepsInv(s, marks, acts[0]);
      RunStaysCoherent(s', acts[1..], MarksAfter(s, marks, acts[0]));
    }
  }

  ghost predicate NoneBelow(log: seq<(Path, Served)>, marks: map<Path, nat>) {
    forall i | 0 <= i < |log| && log[i].0 in marks :: marks[log[i].0] <= log[i].1.version
  }

  ghost predicate NeverDecreases(log: seq<(Path, Served)>) {
    forall i, j | 0 <= i < j < |log| && log[i].0 == log[j].0 :: log[i].1.version <= log[j].1.version
  }

  lemma LogExtended(x: (Path, Served), tail: seq<(Path, Served)>, marks: map<Path, nat>)
    requires NoneBelow(tail, marks[x.0 := x.1.version]) && NeverDecreases(tail)
    requires x.0 in marks ==> marks[x.0] <= x.1.version
    ensures NoneBelow([x] + tail, marks) && NeverDecreases([x] + tail)
  {
    var log := [x] + tail;
    assert forall i | 0 < i < |log| :: log[i] == tail[i - 1];
    assert forall i | 0 <= i < |tail| && tail[i].0 == x.0 :: x.1.version <= tail[i].1.version;
    forall i | 0 < i < |log| && log[i].0 in marks ensures marks[log[i].0] <= log[i].1.version {
      assert log[i] == tail[i - 1];
      assert tail[i - 1].0 in marks[x.0 := x.1.version];
    }
  }

  /** The versions of one path served over a run never decrease, and each is at
      least what was served before the run. */
  lemma {:induction false} ServedVersionsNeverDecrease(s: State, acts: seq<Action>, marks: map<Path, nat>)
    requires Inv(s, marks) && ValidTrace(Run(s, acts).world.trace)
    ensures NoneBelow(ServedLog(s, acts), marks)
    ensures NeverDecreases(ServedLog(s, acts))
    decreases |acts|
  {
    if acts != [] {
      var s' := Step(s, acts[0]);
      PrefixOfValid(s'.world.trace, Run(s, acts).world.trace);
      StepKeepsInv(s, marks, acts[0]);
      ServedVersionsNeverDecrease(s', acts[1..], MarksAfter(s, marks, acts[0]));
      var tail := ServedLog(s', acts[1..]);
      match ServedIn(s, acts[0]) {
        case None => assert ServedLog(s, acts) == tail;
        case Some(x) => LogExtended(x, tail, marks);
      }
    }
  }

  ghost predicate AllHeld(t: seq<Snapshot>, log: seq<(Path, Served)>) {
    forall i | 0 <= i < |log| :: Held(t, log[i].0, log[i].1.version, log[i].1.data)
  }

  lemma AllHeldExtended(t: seq<Snapshot>, t': seq<Snapshot>, x: (Path, Served), tail: seq<(Path, Served)>)
    requires t <= t' && AllHeld(t', tail) && Held(t, x.0, x.1.version, x.1.data)
    ensures AllHeld(t', [x] + tail)
  {
    assert t' == t + t'[|t|..];
    HeldInLonger(t, t'[|t|..], 0, x.0, x.1.version, x.1.data);
    assert forall i | 0 < i < |[x] + tail| :: ([x] + tail)[i] == tail[i - 1];
  }

  /** Every content served in a run is what the server held at its version. */
  lemma {:induction false} ServedContentsWereHeld(s: State, acts: seq<Action>, marks: map<Path, nat>)
    requires Inv(s, marks) && ValidTrace(Run(s, acts).world.trace)
    ensures AllHeld(Run(s, acts).world.trace, ServedLog(s, acts))
    decreases |acts|
  {
    if acts != [] {
      var s' := Step(s, acts[0]);
      var end := Run(s, acts).world.trace;
      PrefixOfValid(s'.world.trace, end);
      StepKeepsInv(s, marks, acts[0]);
      ServedContentsWereHeld(s', acts[1..], MarksAfter(s, marks, acts[0]));
      var tail := ServedLog(s', acts[1..]);
      match ServedIn(s, acts[0]) {
        case None => assert ServedLog(s, acts) == tail;
        case Some(x) => AllHeldExtended(s'.world.trace, end, x, tail);
      }
    }
  }

  /** Once the attributes of a path have expired, a read serves what the server
      holds at some moment during that very read. */
  lemma ReadAfterExpiryIsCurrent(s: State, marks: map<Path, nat>, p: Path, script: Script)
    requires Inv(s, marks) && ValidTrace(ReadThrough(s, p, script).1.world.trace)
    requires LiveAttr(s.cache, p, s.world.now).None?
    requires ReadThrough(s, p, script).0.Ok?
    ensures var (got, s') := ReadThrough(s, p, script);
            HeldSince(s'.world.trace, |s.world.trace| - 1, p, got.value.version, got.value.data)
  {
    var (node, s1) := StatThrough(s, p, script.stat);
    var k := |s.world.trace + script.stat.before| - 1;
    var t := s1.world.trace;
    assert t[k] == AtServer(s.world, script.stat);
    var hit := ContentAt(s1.cache, p, node.value.version);
    if hit.Some? {
      StatKeepsInv(s, marks, p, script.stat);
      var i :| 0 <= i < |t| && p in t[i].files && t[i].files[p].version == node.value.version
               && t[i].files[p].data == hit.value;
      if i <= k {
        VersionsOrderHistory(t, i, k, p);
      } else {
        VersionsOrderHistory(t, k, i, p);
      }
      assert HeldSince(t, |s.world.trace| - 1, p, node.value.version, hit.value);
    } else {
      var (out, world) := RpcRead(s1.world, p, script.read);
      var j := |t + script.read.before| - 1;
      assert world.trace[j] == AtServer(s1.world, script.read);
    }
  }

  /** The mount's promise in one place: from an empty cache, for every behaviour
      of the server and every run of calls made one at a time, the cache agrees
      with the server's history, every content served was held by the server at
      its version, and no path is ever served an older version than before. */
  lemma SerializedRunsAreSafe(attrTTL: nat, dentryTTL: nat, w: World, acts: seq<Action>)
    requires w.trace != []
    requires ValidTrace(Run(State(EmptyContents(attrTTL, dentryTTL), w), acts).world.trace)
    ensures var s := State(EmptyContents(attrTTL, dentryTTL), w);
            && Coherent(Run(s, acts))
            && AllHeld(Run(s, acts).world.trace, ServedLog(s, acts))
            && NeverDecreases(ServedLog(s, acts))
  {
    var s := State(EmptyContents(attrTTL, dentryTTL), w);
    assert Inv(s, map[]);
    RunStaysCoherent(s, acts, map[]);
    ServedContentsWereHeld(s, acts, map[]);
    ServedVersionsNeverDecrease(s, acts, map[]);
  }

  /** Serialization is needed.  A reader that fetched version 1 but stores it only
      after another reader was served version 2 makes the next read go back to
      version 1, for as long as the attributes naming version 1 are live. */
  lemma InterleavedReadersGoBack(p: Path, idle: Reply)
    requires Quiet(idle) && idle.now == 0
    ensures var f1, f2 := Stored(1, File, true, [1]), Stored(2, File, true, [2]);
            var t1, t2 := [Snapshot(1, map[p := f1])], [Snapshot(1, map[p := f1]), Snapshot(2, map[p := f2])];
            var cache := WithAttr(EmptyContents(5, 5), p, NodeOf(f1), 0);
            var script := Script(idle, idle, idle);
            var (second, s2) := ReadThrough(State(cache, World(t2, 0)), p, script);
            var late := State(WithContent(s2.cache, p, f1.version, f1.data), s2.world);
            && ValidTrace(t2)
            && FetchThrough(State(cache, World(t1, 0)), p, 1, idle).0 == Ok(Served(1, [1]))
            && second == Ok(Served(2, [2]))
            && ReadThrough(late, p, script).0 == Ok(Served(1, [1]))
  {
    var f1, f2 := Stored(1, File, true, [1]), Stored(2, File, true, [2]);
    var t2 := [Snapshot(1, map[p := f1]), Snapshot(2, map[p := f2])];
    assert t2[0].gen == 1 && Sound(t2[0]) && Sound(t2[1]) && Evolves(t2[0], t2[1]);
  }
}
