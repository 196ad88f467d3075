/**
The Unix file handle (fuse/fs.go): writes and truncates are queued and pushed
as one read-modify-write when the handle is flushed.
*/
module UnixHandle {
  import opened Options
  import opened FileOps
  import opened Vfs
  import opened VfsCache
  import opened CachedIo

  /** What every handle of a mount shares besides the cache. */
  datatype Mount = Mount(ro: bool, max: nat)

  datatype Handle = Handle(path: Path, ops: seq<FileOp>, startTrunc: bool, dirty: bool, flushed: bool)

  function Opened(path: Path, truncate: bool): Handle {
    Handle(path, [], truncate, truncate, false)
  }

  function Created(path: Path): Handle {
    Handle(path, [], true, false, false)
  }

  /** Opening a file: what changes it, or may, is refused on a read-only mount and on a
      node that is missing or not writable. */
  function OpenNode(s: State, m: Mount, path: Path, writes: bool, truncate: bool, r: Reply)
    : (res: (Outcome<Handle>, State))
    requires s.world.trace != []
    ensures s.world.trace <= res.1.world.trace
  {
    if !writes && !truncate then (Ok(Opened(path, false)), s)
    else if m.ro then (Err(EROFS), s)
    else
      var (node, s1) := StatThrough(s, path, r);
      match node
      case Err(e) => (Err(e), s1)
      case Ok(n) => (if n.writable then Ok(Opened(path, truncate)) else Err(EACCES), s1)
  }

  /** Creating a file in `dir`. */
  function CreateNode(s: State, m: Mount, dir: Path, name: string, r: Reply): (res: (Outcome<Handle>, State))
    requires s.world.trace != []
    ensures s.world.trace <= res.1.world.trace
  {
    if m.ro then (Err(EROFS), s)
    else
      var child := ChildPath(dir, name);
      var (node, s1) := CreateThrough(s, child, r);
      match node
      case Err(e) => (Err(e), s1)
      case Ok(_) => (Ok(Created(child)), s1)
  }

  function Queued(h: Handle, op: FileOp): Handle {
    h.(ops := h.ops + [op], dirty := true, flushed := false)
  }

  function Flushed(h: Handle): Handle {
    h.(ops := [], startTrunc := false, dirty := false, flushed := true)
  }

  /** Why a write is refused before it is queued, if it is. */
  function WriteRefusal(m: Mount, off: int, data: Content): Option<Errno> {
    if m.ro then Some(EROFS)
    else if off < 0 then Some(EINVAL)
    else if off > m.max || |data| > m.max - off then Some(EFBIG)
    else None
  }

  /** The content a reader of this handle sees: the queue over its base. */
  function Materialized(h: Handle, s: State, m: Mount, script: Script): (res: (Outcome<Content>, State))
    requires s.world.trace != []
    ensures s.world.trace <= res.1.world.trace
  {
    if !h.dirty then BaseThrough(s, h.path, false, script)
    else
      var (base, s') := BaseThrough(s, h.path, h.startTrunc, script);
      match base
      case Err(e) => (Err(e), s')
      case Ok(b) => (Apply(b, h.ops, m.max), s')
  }

  function FlushOf(h: Handle, s: State, m: Mount, script: Script): (res: (Outcome<()>, Handle, State))
    requires s.world.trace != []
    ensures s.world.trace <= res.2.world.trace
  {
    if !h.dirty || h.flushed then (Ok(()), h, s)
    else if m.ro then (Err(EROFS), h, s)
    else
      var (buf, s') := Materialized(h, s, m, script);
      match buf
      case Err(e) => (Err(e), h, s')
      case Ok(b) =>
        var (out, s'') := StoreThrough(s', h.path, b, script.write);
        match StaleIfGone(out)
        case Err(e) => (Err(e), h, s'')
        case Ok(_) => (Ok(()), Flushed(h), s'')
  }

  function ReleaseOf(h: Handle, s: State, m: Mount, script: Script): (res: (Outcome<()>, Handle, State))
    requires s.world.trace != []
    ensures s.world.trace <= res.2.world.trace
  {
    if h.flushed then (Ok(()), h, s) else FlushOf(h, s, m, script)
  }

  /** The bytes a read of `n` bytes at `off` returns. */
  function Window(data: Content, off: nat, n: nat): Content {
    if off >= |data| then [] else if off + n < |data| then data[off..off + n] else data[off..]
  }

  // ----- the object -----

  class FileHandle {
    const path: Path
    var ops: seq<FileOp>
    var startTrunc: bool
    var dirty: bool
    var flushed: bool

    function View(): Handle
      reads this
    {
      Handle(path, ops, startTrunc, dirty, flushed)
    }

    constructor (h: Handle)
      ensures View() == h
    {
      path, ops, startTrunc, dirty, flushed := h.path, h.ops, h.startTrunc, h.dirty, h.flushed;
    }

    static method Open(cache: Cache, world: World, m: Mount, path: Path, writes: bool, truncate: bool, r: Reply)
      returns (h: Outcome<FileHandle>, world': World)
      requires world.trace != []
      modifies cache
      ensures var (out, s') := old(OpenNode(State(cache.View(), world), m, path, writes, truncate, r));
              && State(cache.View(), world') == s'
              && (match out case Err(e) => h == Err(e) case Ok(v) => h.Ok? && fresh(h.value) && h.value.View() == v)
    {
      world' := world;
      if writes || truncate {
        if m.ro {
          return Err(EROFS), world;
        }
        var node;
        node, world' := StatCached(cache, world, path, r);
        if node.Err? {
          return Err(node.errno), world';
        }
        if !node.value.writable {
          return Err(EACCES), world';
        }
      }
      var handle := new FileHandle(Handle(path, [], truncate, truncate, false));
      h := Ok(handle);
    }

    static method Create(cache: Cache, world: World, m: Mount, dir: Path, name: string, r: Reply)
      returns (h: Outcome<FileHandle>, world': World)
      requires world.trace != []
      modifies cache
      ensures var (out, s') := old(CreateNode(State(cache.View(), world), m, dir, name, r));
              && State(cache.View(), world') == s'
              && (match out case Err(e) => h == Err(e) case Ok(v) => h.Ok? && fresh(h.value) && h.value.View() == v)
    {
      if m.ro {
        return Err(EROFS), world;
      }
      var child := ChildPath(dir, name);
      var reply := RpcCreate(world, child, r);
      world' := reply.1;
      if reply.0.Err? {
        return Err(reply.0.errno), world';
      }
      cache.Invalidate(child);
      cache.PutAttr(child, reply.0.value, world'.now);
      var handle := new FileHandle(Handle(child, [], true, false, false));
      h := Ok(handle);
    }

    method Write(m: Mount, data: Content, off: int) returns (n: Outcome<nat>)
      modifies this
      ensures match WriteRefusal(m, off, data)
              case Some(e) => n == Err(e) && View() == old(View())
              case None => n == Ok(|data|) && View() == old(Queued(View(), FileOp.Write(off, data)))
    {
      if m.ro {
        return Err(EROFS);
      }
      if off < 0 {
        return Err(EINVAL);
      }
      if off > m.max || |data| > m.max - off {
        return Err(EFBIG);
      }
      ops := ops + [FileOp.Write(off, data)];
      dirty, flushed := true, false;
      n := Ok(|data|);
    }

    method Truncate(m: Mount, size: nat) returns (done: Outcome<()>)
      modifies this
      ensures if size > m.max then done == Err(EFBIG) && View() == old(View())
              else done == Ok(()) && View() == old(Queued(View(), FileOp.Truncate(size)))
    {
      if size > m.max {
        return Err(EFBIG);
      }
      ops := ops + [FileOp.Truncate(size)];
      dirty, flushed := true, false;
      done := Ok(());
    }

    method Materialize(m: Mount, cache: Cache, world: World, script: Script)
      returns (buf: Outcome<Content>, world': World)
      requires world.trace != []
      modifies cache
      ensures (buf, State(cache.View(), world')) == old(Materialized(View(), State(cache.View(), world), m, script))
      ensures world.trace <= world'.trace
    {
      if !dirty {
        buf, world' := ContentReader(cache, world, path, script);
        return;
      }
      var base: Content := [];
      world' := world;
      if !startTrunc {
        buf, world' := ContentReader(cache, world, path, script);
        if buf.Err? {
          return;
        }
        base := buf.value;
      }
      buf := Apply(base, ops, m.max);
    }

    method Read(m: Mount, cache: Cache, world: World, n: nat, off: int, script: Script)
      returns (data: Outcome<Content>, world': World)
      requires world.trace != []
      modifies cache
      ensures off < 0 ==> data == Err(EINVAL) && world' == world && cache.View() == old(cache.View())
      ensures off >= 0 ==>
                var (all, s') := old(Materialized(View(), State(cache.View(), world), m, script));
                && State(cache.View(), world') == s'
                && data == (match all case Err(e) => Err(e) case Ok(d) => Ok(Window(d, off, n)))
    {
      if off < 0 {
        return Err(EINVAL), world;
      }
      data, world' := Materialize(m, cache, world, script);
      if data.Err? {
        return;
      }
      var all := data.value;
      if off >= |all| {
        return Ok([]), world';
      }
      var end := |all|;
      if off + n < end {
        end := off + n;
      }
      assert all[off..|all|] == all[off..];
      data := Ok(all[off..end]);
    }

    method Flush(m: Mount, cache: Cache, world: World, script: Script)
      returns (done: Outcome<()>, world': World)
      requires world.trace != []
      modifies this, cache
      ensures (done, View(), State(cache.View(), world')) == old(FlushOf(View(), State(cache.View(), world), m, script))
    {
      if !dirty || flushed {
        return Ok(()), world;
      }
      if m.ro {
        return Err(EROFS), world;
      }
      var buf, node;
      buf, world' := Materialize(m, cache, world, script);
      if buf.Err? {
        return Err(buf.errno), world';
      }
      node, world' := Store(cache, world', path, buf.value, script.write);
      if node.Err? {
        return if node.errno == ENOENT then Err(ESTALE) else Err(node.errno), world';
      }
      ops, startTrunc, dirty, flushed := [], false, false, true;
      done := Ok(());
    }

    method Release(m: Mount, cache: Cache, world: World, script: Script)
      returns (done: Outcome<()>, world': World)
      requires world.trace != []
      modifies this, cache
      ensures (done, View(), State(cache.View(), world'))
              == old(ReleaseOf(View(), State(cache.View(), world), m, script))
    {
      if !flushed {
        done, world' := Flush(m, cache, world, script);
      } else {
        done, world' := Ok(()), world;
      }
    }
  }

  // ----- runs of one handle -----

  datatype Event =
    | WriteEv(off: int, data: Content)
    | TruncateEv(size: nat)
    | FlushEv(script: Script)
    | ReadEv(script: Script)
    | ReleaseEv(script: Script)
    | OutsideEv(next: State)

  function HandleStep(h: Handle, s: State, m: Mount, e: Event): (Handle, State)
    requires s.world.trace != []
  {
    match e
    case WriteEv(off, data) => (if WriteRefusal(m, off, data).Some? then h else Queued(h, Write(off, data)), s)
    case TruncateEv(size) => (if size > m.max then h else Queued(h, Truncate(size)), s)
    case FlushEv(script) => (FlushOf(h, s, m, script).1, FlushOf(h, s, m, script).2)
    case ReadEv(script) => (h, Materialized(h, s, m, script).1)
    case ReleaseEv(script) => (ReleaseOf(h, s, m, script).1, ReleaseOf(h, s, m, script).2)
    case OutsideEv(next) => if next.world.trace != [] then (h, next) else (h, s)
  }

  function HandleRun(h: Handle, s: State, m: Mount, events: seq<Event>): (Handle, State)
    requires s.world.trace != []
    decreases |events|
  {
    if events == [] then (h, s)
    else
      var (h', s') := HandleStep(h, s, m, events[0]);
      HandleRun(h', s', m, events[1..])
  }

  /** `dirty` and `flushed` exclude each other, a clean handle has an empty queue,
      everything queued was within the limit, and a flushed handle no longer
      starts from empty content. */
  ghost predicate HandleInv(h: Handle, m: Mount) {
    && !(h.dirty && h.flushed)
    && (!h.dirty ==> h.ops == [])
    && (h.flushed ==> !h.startTrunc)
    && (forall k | 0 <= k < |h.ops| ::
          match h.ops[k]
          case Write(off, data) => 0 <= off && off + |data| <= m.max
          case Truncate(size) => size <= m.max
          case Unknown(_) => false)
  }

  /** The invariant holds in every reachable state, whatever the server, the cache
      and the other handles do in between. */
  lemma StepKeepsHandleInv(h: Handle, s: State, m: Mount, e: Event)
    requires s.world.trace != [] && HandleInv(h, m)
    ensures HandleInv(HandleStep(h, s, m, e).0, m)
  {
  }

  /** Every handle reachable from a sound one is sound. */
  lemma {:induction false} ReachableHandlesAreSound(h: Handle, s: State, m: Mount, events: seq<Event>)
    requires s.world.trace != []
    requires HandleInv(h, m)
    ensures HandleInv(HandleRun(h, s, m, events).0, m)
    decreases |events|
  {
    if events != [] {
      var (h', s') := HandleStep(h, s, m, events[0]);
      StepKeepsHandleInv(h, s, m, events[0]);
      ReachableHandlesAreSound(h', s', m, events[1..]);
    }
  }

  /** Opening and creating give sound handles; a clean one, unless a truncation is
      still to be flushed, and a truncating one on a writable file only. */
  lemma NewHandlesAreSound(s: State, m: Mount, path: Path, writes: bool, truncate: bool, name: string, r: Reply)
    requires s.world.trace != []
    ensures OpenNode(s, m, path, writes, truncate, r).0.Ok? ==>
              var h := OpenNode(s, m, path, writes, truncate, r).0.value;
              && HandleInv(h, m) && (h.dirty <==> truncate)
              && (writes || truncate ==>
                    !m.ro && StatThrough(s, path, r).0.Ok? && StatThrough(s, path, r).0.value.writable)
    ensures CreateNode(s, m, path, name, r).0.Ok? ==>
              var h := CreateNode(s, m, path, name, r).0.value;
              HandleInv(h, m) && !m.ro && !h.dirty && h.path == ChildPath(path, name)
  {
  }

  /** A failed flush or release loses no queued operation, for every server
      behaviour; a successful release of a sound handle leaves nothing queued. */
  lemma ReleaseLosesNothing(h: Handle, s: State, m: Mount, script: Script)
    requires s.world.trace != []
    requires HandleInv(h, m)
    ensures FlushOf(h, s, m, script).0.Err? ==> FlushOf(h, s, m, script).1 == h
    ensures ReleaseOf(h, s, m, script).0.Err? ==> ReleaseOf(h, s, m, script).1 == h
    ensures ReleaseOf(h, s, m, script).0.Ok? ==>
              var h' := ReleaseOf(h, s, m, script).1;
              !h'.dirty && h'.ops == []
  {
  }

  /** A flush that reports success put the whole queue, applied to the base it
      read, on the server. */
  lemma FlushedDataReachedServer(h: Handle, s: State, m: Mount, script: Script)
    requires s.world.trace != []
    requires h.dirty && !h.flushed
    requires FlushOf(h, s, m, script).0.Ok?
    ensures var (base, s1) := BaseThrough(s, h.path, h.startTrunc, script);
            var t := FlushOf(h, s, m, script).2.world.trace;
            && base.Ok? && Apply(base.value, h.ops, m.max).Ok?
            && exists k | |s1.world.trace| <= k < |t| ::
                 h.path in t[k].files && t[k].files[h.path].data == Apply(base.value, h.ops, m.max).value
  {
    var (buf, s1) := Materialized(h, s, m, script);
    var (out, s2) := StoreThrough(s1, h.path, buf.value, script.write);
    assert out.Ok?;
    var k := |s1.world.trace + script.write.before|;
    assert s2.world.trace[k].files[h.path].data == buf.value;
  }

  // ----- while nobody else writes -----

  /** Nobody else acts, nothing fails, and the clock does not run backwards. */
  ghost predicate QuietScript(script: Script, now: nat) {
    && Quiet(script.stat) && Quiet(script.read) && Quiet(script.write)
    && now <= script.stat.now <= script.read.now <= script.write.now
  }

  /** The mount agrees with the server about `p`: a writable file whose live cached
      attributes, if any, are current. */
  ghost predicate Settled(s: State, p: Path) {
    && ValidTrace(s.world.trace)
    && Coherent(s)
    && p in Current(s.world).files
    && Current(s.world).files[p].kind.File?
    && Current(s.world).files[p].writable
    && (p in s.cache.attrs && s.world.now <= s.cache.attrs[p].exp ==>
          s.cache.attrs[p].node == NodeOf(Current(s.world).files[p]))
  }

  function DataAt(s: State, p: Path): Content
    requires s.world.trace != [] && p in Current(s.world).files
  {
    Current(s.world).files[p].data
  }

  lemma QuietStat(s: State, p: Path, r: Reply)
    requires Settled(s, p) && Quiet(r) && s.world.now <= r.now
    ensures var (out, s') := StatThrough(s, p, r);
            && out == Ok(NodeOf(Current(s.world).files[p]))
            && s'.world.trace == s.world.trace && s.world.now <= s'.world.now <= r.now
            && Settled(s', p)
  {
    var (out, s') := StatThrough(s, p, r);
    assert s.world.trace + [] + [] == s.world.trace;
    StatKeepsInv(s, map[], p, r);
  }

  lemma QuietFetch(s: State, p: Path, r: Reply)
    requires Settled(s, p) && Quiet(r) && s.world.now <= r.now
    ensures var version := Current(s.world).files[p].version;
            var (got, s') := FetchThrough(s, p, version, r);
            && got == Ok(Served(version, DataAt(s, p)))
            && s'.world.trace == s.world.trace && s.world.now <= s'.world.now <= r.now
            && Settled(s', p)
  {
    var t, f := s.world.trace, Current(s.world).files[p];
    var (got, s') := FetchThrough(s, p, f.version, r);
    assert t + [] + [] == t;
    if ContentAt(s.cache, p, f.version).Some? {
      assert Held(t, p, f.version, s.cache.content[p].data);
      var k :| 0 <= k < |t| && p in t[k].files && t[k].files[p].version == f.version
               && t[k].files[p].data == s.cache.content[p].data;
      VersionsOrderHistory(t, k, |t| - 1, p);
    } else {
      FetchKeepsInv(s, map[], p, f.version, r);
    }
  }

  /** Undisturbed, a read returns the server's content and changes nothing there. */
  lemma QuietRead(s: State, p: Path, script: Script)
    requires Settled(s, p) && QuietScript(script, s.world.now)
    ensures var (got, s') := ReadThrough(s, p, script);
            && got == Ok(Served(Current(s.world).files[p].version, DataAt(s, p)))
            && s'.world.trace == s.world.trace && s.world.now <= s'.world.now <= script.read.now
            && Settled(s', p)
  {
    QuietStat(s, p, script.stat);
    var s1 := StatThrough(s, p, script.stat).1;
    QuietFetch(s1, p, script.read);
  }

  /** Undisturbed, a store succeeds and the server then has exactly `data`. */
  lemma QuietStore(s: State, p: Path, data: Content, r: Reply)
    requires Settled(s, p) && Quiet(r) && s.world.now <= r.now
    ensures var (out, s') := StoreThrough(s, p, data, r);
            && out.Ok? && s'.world.now == r.now
            && Settled(s', p) && DataAt(s', p) == data
  {
    var (out, s') := StoreThrough(s, p, data, r);
    var t, t' := s.world.trace, s'.world.trace;
    var cur := Current(s.world);
    var next := Snapshot(cur.gen + 1, cur.files[p := Stored(cur.gen + 1, File, true, data)]);
    assert t' == t + [next];
    assert Sound(cur);
    assert Evolves(cur, next) && Sound(next);
    assert ValidTrace(t') by {
      assert forall i | 0 <= i < |t| :: t'[i] == t[i];
    }
    StoreKeepsInv(s, map[], p, data, r);
  }

  /** The content a handle stands for when the server holds `data`. */
  function Readable(h: Handle, data: Content, max: nat): Outcome<Content> {
    if !h.dirty then Ok(data) else Apply(if h.startTrunc then [] else data, h.ops, max)
  }

  lemma QuietMaterialize(h: Handle, s: State, m: Mount, script: Script)
    requires Settled(s, h.path) && QuietScript(script, s.world.now)
    ensures var (buf, s') := Materialized(h, s, m, script);
            && buf == Readable(h, DataAt(s, h.path), m.max)
            && s'.world.trace == s.world.trace && s.world.now <= s'.world.now <= script.read.now
            && Settled(s', h.path)
  {
    if !h.startTrunc || !h.dirty {
      QuietRead(s, h.path, script);
    }
  }

  lemma QuietFlush(h: Handle, s: State, m: Mount, script: Script)
    requires !m.ro && h.dirty && !h.flushed
    requires Settled(s, h.path) && QuietScript(script, s.world.now)
    ensures var (out, h', s') := FlushOf(h, s, m, script);
            && Settled(s', h.path) && s.world.now <= s'.world.now <= script.write.now
            && match Readable(h, DataAt(s, h.path), m.max)
               case Ok(buf) => out.Ok? && h' == Flushed(h) && DataAt(s', h.path) == buf
               case Err(e) => out == Err(e) && h' == h && DataAt(s', h.path) == DataAt(s, h.path)
  {
    QuietMaterialize(h, s, m, script);
    var (buf, s1) := Materialized(h, s, m, script);
    if buf.Ok? {
      QuietStore(s1, h.path, buf.value, script.write);
    }
  }

  /** Undisturbed, flushing does not change what the handle reads: a successful
      flush leaves that content on the server, and a flush fails exactly when the
      content could not be read either, with the same error. */
  lemma FlushKeepsReadableContent(h: Handle, s: State, m: Mount, script: Script, again: Script)
    requires HandleInv(h, m) && !m.ro
    requires Settled(s, h.path)
    requires QuietScript(script, s.world.now) && QuietScript(again, script.write.now)
    ensures var before := Materialized(h, s, m, script).0;
            var (out, h', s') := FlushOf(h, s, m, script);
            && Materialized(h', s', m, again).0 == before
            && (h.dirty ==> (out.Ok? <==> before.Ok?) && (out.Err? ==> before == Err(out.errno)))
            && (out.Ok? ==> Settled(s', h.path) && Ok(DataAt(s', h.path)) == before)
  {
    QuietMaterialize(h, s, m, script);
    if h.dirty {
      QuietFlush(h, s, m, script);
    }
    var (_, h', s') := FlushOf(h, s, m, script);
    QuietMaterialize(h', s', m, again);
  }
}
