/**
The Windows adapter (fuse/fs_windows.go): every operation is committed to the
server before it returns, and one lock serializes them all.
*/
module WinFs {
  import opened Options
  import opened FileOps
  import opened Vfs
  import opened VfsCache
  import opened CachedIo
  import opened UnixHandle

  datatype Access = ReadOnly | WriteOnly | ReadWrite

  datatype WinHandle = WinHandle(path: Path, writable: bool)

  /** The replies of one adapter call: the permission check, then the transfer. */
  datatype WinScript = WinScript(check: Reply, io: Script)

  /** Backslashes become slashes; the empty path is the root. */
  function FusePath(p: Path): Path {
    if p == "" then "/" else seq(|p|, i requires 0 <= i < |p| => if p[i] == '\\' then '/' else p[i])
  }

  function OpenThrough(s: State, m: Mount, p: Path, access: Access, truncate: bool, ws: WinScript)
    : (res: (Outcome<()>, State))
    requires s.world.trace != []
    ensures s.world.trace <= res.1.world.trace
  {
    var changes := access != ReadOnly || truncate;
    if changes && m.ro then (Err(EROFS), s)
    else
      var (node, s1) := if changes then StatThrough(s, p, ws.check) else (Err(EIO), s);
      if changes && node.Err? then (Err(node.errno), s1)
      else if changes && !node.value.writable then (Err(EACCES), s1)
      else if !truncate then (Ok(()), s1)
      else
        var (out, s2) := FlushThrough(s1, p, m.ro, m.max, true, [], ws.io);
        (match out case Err(e) => Err(e) case Ok(_) => Ok(()), s2)
  }

  function WriteThrough(s: State, m: Mount, h: Option<WinHandle>, off: int, data: Content, ws: WinScript)
    : (res: (Outcome<nat>, State))
    requires s.world.trace != []
    ensures s.world.trace <= res.1.world.trace
  {
    if m.ro then (Err(EROFS), s)
    else if h.None? || !h.value.writable then (Err(EBADF), s)
    else if off < 0 then (Err(EINVAL), s)
    else if off > m.max || |data| > m.max - off then (Err(EFBIG), s)
    else
      var (out, s') := FlushThrough(s, h.value.path, m.ro, m.max, false, [Write(off, data)], ws.io);
      (match out case Err(e) => Err(e) case Ok(_) => Ok(|data|), s')
  }

  /** The path a truncate works on: the handle's if there is one. */
  function TargetOf(path: Path, h: Option<WinHandle>): Path {
    if h.Some? then h.value.path else FusePath(path)
  }

  function ResizeThrough(s: State, m: Mount, path: Path, h: Option<WinHandle>, size: int, ws: WinScript)
    : (res: (Outcome<()>, State))
    requires s.world.trace != []
    ensures s.world.trace <= res.1.world.trace
  {
    if size < 0 then (Err(EINVAL), s)
    else if m.ro then (Err(EROFS), s)
    else if size > m.max then (Err(EFBIG), s)
    else if h.Some? && !h.value.writable then (Err(EBADF), s)
    else
      var p := TargetOf(path, h);
      var (node, s1) := StatThrough(s, p, ws.check);
      match node
      case Err(e) => (Err(e), s1)
      case Ok(n) =>
        if n.kind.Dir? then (Err(EISDIR), s1)
        else if !n.writable then (Err(EACCES), s1)
        else
          var (out, s2) := TruncateThrough(s1, p, size, m.max, ws.io);
          (match out case Err(e) => Err(e) case Ok(_) => Ok(()), s2)
  }

  class Adapter {
    const cache: Cache
    const mount: Mount
    var next: nat
    var files: map<nat, WinHandle>

    ghost predicate Valid()
      reads this
    {
      forall fh | fh in files :: 0 < fh <= next
    }

    function Get(fh: nat): Option<WinHandle>
      reads this
    {
      if fh in files then Some(files[fh]) else None
    }

    constructor (cache: Cache, mount: Mount)
      ensures Valid() && files == map[]
      ensures this.cache == cache && this.mount == mount
    {
      this.cache, this.mount, next, files := cache, mount, 0, map[];
    }

    /** A new handle never takes the number of one that is still open. */
    method Alloc(h: WinHandle) returns (fh: nat)
      requires Valid()
      modifies this
      ensures Valid()
      ensures fh !in old(files) && files == old(files)[fh := h]
    {
      next := next + 1;
      files := files[next := h];
      fh := next;
    }

    method Open(path: Path, access: Access, truncate: bool, world: World, ws: WinScript)
      returns (fh: Outcome<nat>, world': World)
      requires Valid() && world.trace != []
      modifies this, cache
      ensures Valid()
      ensures var (out, s') :=
                old(OpenThrough(State(cache.View(), world), mount, FusePath(path), access, truncate, ws));
              && State(cache.View(), world') == s'
              && (match out
                  case Err(e) => fh == Err(e) && files == old(files)
                  case Ok(_) =>
                    && fh.Ok? && fh.value !in old(files)
                    && files == old(files)[fh.value := WinHandle(FusePath(path), access != ReadOnly)])
    {
      var p := FusePath(path);
      world' := world;
      if access != ReadOnly || truncate {
        if mount.ro {
          return Err(EROFS), world;
        }
        var node;
        node, world' := StatCached(cache, world, p, ws.check);
        if node.Err? {
          return Err(node.errno), world';
        }
        if !node.value.writable {
          return Err(EACCES), world';
        }
      }
      if truncate {
        var node;
        node, world' := FlushBuffer(cache, world', p, mount.ro, mount.max, true, [], ws.io);
        if node.Err? {
          return Err(node.errno), world';
        }
      }
      var n := Alloc(WinHandle(p, access != ReadOnly));
      fh := Ok(n);
    }

    method Write(fh: nat, data: Content, off: int, world: World, ws: WinScript)
      returns (n: Outcome<nat>, world': World)
      requires Valid() && world.trace != []
      modifies cache
      ensures (n, State(cache.View(), world'))
              == old(WriteThrough(State(cache.View(), world), mount, Get(fh), off, data, ws))
    {
      if mount.ro {
        return Err(EROFS), world;
      }
      var h := Get(fh);
      if h.None? || !h.value.writable {
        return Err(EBADF), world;
      }
      if off < 0 {
        return Err(EINVAL), world;
      }
      if off > mount.max || |data| > mount.max - off {
        return Err(EFBIG), world;
      }
      var node;
      node, world' := FlushBuffer(cache, world, h.value.path, mount.ro, mount.max, false,
                                  [FileOp.Write(off, data)], ws.io);
      n := if node.Err? then Err(node.errno) else Ok(|data|);
    }

    method Truncate(path: Path, size: int, fh: nat, world: World, ws: WinScript)
      returns (done: Outcome<()>, world': World)
      requires Valid() && world.trace != []
      modifies cache
      ensures (done, State(cache.View(), world'))
              == old(ResizeThrough(State(cache.View(), world), mount, path, Get(fh), size, ws))
    {
      if size < 0 {
        return Err(EINVAL), world;
      }
      if mount.ro {
        return Err(EROFS), world;
      }
      if size > mount.max {
        return Err(EFBIG), world;
      }
      var p := FusePath(path);
      var h := Get(fh);
      if h.Some? {
        if !h.value.writable {
          return Err(EBADF), world;
        }
        p := h.value.path;
      }
      var node;
      node, world' := StatCached(cache, world, p, ws.check);
      if node.Err? {
        return Err(node.errno), world';
      }
      if node.value.kind.Dir? {
        return Err(EISDIR), world';
      }
      if !node.value.writable {
        return Err(EACCES), world';
      }
      node, world' := TruncatePath(cache, world', p, size, mount.max, ws.io);
      done := if node.Err? then Err(node.errno) else Ok(());
    }

    method Read(path: Path, n: nat, off: int, fh: nat, world: World, script: Script)
      returns (data: Outcome<Content>, world': World)
      requires Valid() && world.trace != []
      modifies cache
      ensures var p := FusePath(if Get(fh).Some? then Get(fh).value.path else path);
              var (got, s') := old(ReadThrough(State(cache.View(), world), p, script));
              && State(cache.View(), world') == s'
              && data == (match got
                          case Err(e) => Err(e)
                          case Ok(served) => if off < 0 then Err(EINVAL) else Ok(Window(served.data, off, n)))
    {
      var h := Get(fh);
      var p := FusePath(if h.Some? then h.value.path else path);
      data, world' := ContentReader(cache, world, p, script);
      if data.Err? {
        return;
      }
      if off < 0 {
        return Err(EINVAL), world';
      }
      data := Ok(Window(data.value, off, n));
    }

    method Release(fh: nat)
      requires Valid()
      modifies this
      ensures Valid()
      ensures files == old(files) - {fh}
    {
      files := files - {fh};
    }
  }
}
