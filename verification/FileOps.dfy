/**
The write log of an open file and its replay over a base content
(fuse/handle.go).  `Apply` is the meaning of a log; `ApplyFileOps` is the
in-place replay; the lemmas say what every byte of the result is and how logs
compose.
*/
module FileOps {

  newtype byte = x: int | 0 <= x < 256

  type Content = seq<byte>

  /** The errors of the VFS layer.  `PANIC` stands for the run-time fault of a
      slice expression whose bounds wrapped around the machine integer. */
  datatype Errno =
    | EPERM | ENOENT | EIO | EBADF | EACCES | EEXIST | ENOTDIR | EISDIR | EINVAL | EFBIG
    | EROFS | ENOSYS | ENOTEMPTY | EOPNOTSUPP | ECONNRESET | ESTALE | PANIC

  datatype Outcome<+T> = Ok(value: T) | Err(errno: Errno)

  /** One entry of the log.  `Unknown` is an entry whose kind is neither write
      nor truncate. */
  datatype FileOp =
    | Write(off: int, data: Content)
    | Truncate(size: nat)
    | Unknown(kind: nat)

  /** The largest value of the platform's `int`. */
  const MAX_INT: nat := 0x7FFF_FFFF_FFFF_FFFF

  // ----- the meaning of one operation -----

  /** `data` cut or zero-extended to `size` bytes. */
  function Resized(data: Content, size: nat): Content {
    seq(size, i requires 0 <= i < size => if i < |data| then data[i] else 0)
  }

  function ResizeTo(data: Content, size: nat, max: nat): Outcome<Content> {
    if size > max || size > MAX_INT then Err(EFBIG) else Ok(Resized(data, size))
  }

  /** `buf` with `data` laid over it from `off`, zero-filled where neither reaches. */
  function Spliced(buf: Content, off: nat, data: Content): Content {
    var n := if off + |data| > |buf| then off + |data| else |buf|;
    seq(n, i requires 0 <= i < n =>
      if off <= i < off + |data| then data[i - off] else if i < |buf| then buf[i] else 0)
  }

  function ApplyOp(buf: Content, op: FileOp, max: nat): Outcome<Content> {
    match op
    case Truncate(size) => ResizeTo(buf, size, max)
    case Write(off, data) =>
      if |buf| > max || off < 0 || off > max || |data| > max - off then Err(EFBIG)
      else if off + |data| > MAX_INT then Err(PANIC)
      else Ok(Spliced(buf, off, data))
    case Unknown(_) => Err(EINVAL)
  }

  // ----- the meaning of a log -----

  function ApplyAll(buf: Content, ops: seq<FileOp>, max: nat): Outcome<Content>
    decreases |ops|
  {
    if ops == [] then Ok(buf)
    else
      match ApplyOp(buf, ops[0], max)
      case Err(e) => Err(e)
      case Ok(next) => ApplyAll(next, ops[1..], max)
  }

  /** An oversized base may only enter a log whose first entry cuts it down. */
  predicate Enters(base: Content, ops: seq<FileOp>, max: nat) {
    |base| <= max || (ops != [] && ops[0].Truncate?)
  }

  function Apply(base: Content, ops: seq<FileOp>, max: nat): Outcome<Content> {
    if Enters(base, ops, max) then ApplyAll(base, ops, max) else Err(EFBIG)
  }

  function Then(first: Outcome<Content>, ops: seq<FileOp>, max: nat): Outcome<Content> {
    if first.Ok? then Apply(first.value, ops, max) else first
  }

  // ----- when a log succeeds, and how long its result is -----

  predicate Fits(op: FileOp, max: nat) {
    match op
    case Write(off, data) => 0 <= off && off + |data| <= max && off + |data| <= MAX_INT
    case Truncate(size) => size <= max && size <= MAX_INT
    case Unknown(_) => false
  }

  predicate AllFit(ops: seq<FileOp>, max: nat) {
    forall k | 0 <= k < |ops| :: Fits(ops[k], max)
  }

  function LengthAfter(n: nat, ops: seq<FileOp>): nat
    decreases |ops|
  {
    if ops == [] then n
    else
      var m := match ops[0]
        case Write(off, data) => if off + |data| > n then off + |data| else n
        case Truncate(size) => size
        case Unknown(_) => n;
      LengthAfter(m, ops[1..])
  }

  lemma {:induction false} ApplyAllSucceedsIff(buf: Content, ops: seq<FileOp>, max: nat)
    requires |buf| <= max || (ops != [] && ops[0].Truncate?)
    ensures ApplyAll(buf, ops, max).Ok? <==> AllFit(ops, max)
    ensures ApplyAll(buf, ops, max).Ok? ==> |ApplyAll(buf, ops, max).value| == LengthAfter(|buf|, ops) <= max
    decreases |ops|
  {
    if ops != [] {
      var next := ApplyOp(buf, ops[0], max);
      assert next.Ok? <==> Fits(ops[0], max);
      if next.Ok? {
        ApplyAllSucceedsIff(next.value, ops[1..], max);
        assert AllFit(ops, max) <==> AllFit(ops[1..], max) by {
          assert forall k | 0 < k < |ops| :: ops[k] == ops[1..][k - 1];
          assert forall k | 0 <= k < |ops| - 1 :: ops[1..][k] == ops[k + 1];
        }
      }
    }
  }

  /** A log succeeds exactly when the base may enter it and every entry lies
      within the limit; the result then has the length the log dictates and never
      exceeds the limit. */
  lemma ApplySucceedsIff(base: Content, ops: seq<FileOp>, max: nat)
    ensures Apply(base, ops, max).Ok? <==> Enters(base, ops, max) && AllFit(ops, max)
    ensures Apply(base, ops, max).Ok? ==> |Apply(base, ops, max).value| == LengthAfter(|base|, ops) <= max
  {
    if Enters(base, ops, max) {
      ApplyAllSucceedsIff(base, ops, max);
    }
  }

  // ----- what each byte of the result is -----

  /** The operation decides byte `i`: a write over it, or a truncate at or below it. */
  predicate Touches(op: FileOp, i: nat) {
    match op
    case Write(off, data) => off <= i < off + |data|
    case Truncate(size) => size <= i
    case Unknown(_) => false
  }

  predicate LastTouch(ops: seq<FileOp>, k: nat, i: nat) {
    && k < |ops|
    && Touches(ops[k], i)
    && forall j | k < j < |ops| :: !Touches(ops[j], i)
  }

  function ByteFrom(op: FileOp, i: nat): byte
    requires Touches(op, i)
  {
    match op
    case Write(off, data) => data[i - off]
    case Truncate(_) => 0
  }

  function ByteOrZero(buf: Content, i: nat): byte {
    if i < |buf| then buf[i] else 0
  }

  lemma OpPointwise(buf: Content, op: FileOp, max: nat, i: nat)
    requires ApplyOp(buf, op, max).Ok?
    ensures ByteOrZero(ApplyOp(buf, op, max).value, i) ==
            if Touches(op, i) then ByteFrom(op, i) else ByteOrZero(buf, i)
  {
  }

  /** Byte `i` of the replay, read off the log from its end. */
  function ByteAfter(buf: Content, ops: seq<FileOp>, i: nat): byte {
    if ops == [] then ByteOrZero(buf, i)
    else if Touches(ops[|ops| - 1], i) then ByteFrom(ops[|ops| - 1], i)
    else ByteAfter(buf, ops[..|ops| - 1], i)
  }

  lemma {:induction false} ApplyAllByteAfter(buf: Content, ops: seq<FileOp>, max: nat, i: nat)
    requires ApplyAll(buf, ops, max).Ok?
    ensures ByteOrZero(ApplyAll(buf, ops, max).value, i) == ByteAfter(buf, ops, i)
    decreases |ops|
  {
    if ops != [] {
      var init, last := ops[..|ops| - 1], ops[|ops| - 1];
      assert ops == init + [last];
      ApplyAllConcat(buf, init, [last], max);
      var mid := ApplyAll(buf, init, max).value;
      ApplyAllByteAfter(buf, init, max, i);
      assert ApplyAll(mid, [last], max) == ApplyOp(mid, last, max) by {
        assert [last][1..] == [];
      }
      OpPointwise(mid, last, max, i);
    }
  }

  lemma {:induction false} ByteAfterLastTouch(buf: Content, ops: seq<FileOp>, i: nat, k: nat)
    requires LastTouch(ops, k, i)
    ensures ByteAfter(buf, ops, i) == ByteFrom(ops[k], i)
  {
    if k < |ops| - 1 {
      ByteAfterLastTouch(buf, ops[..|ops| - 1], i, k);
    }
  }

  lemma {:induction false} ByteAfterUntouched(buf: Content, ops: seq<FileOp>, i: nat)
    requires forall k | 0 <= k < |ops| :: !Touches(ops[k], i)
    ensures ByteAfter(buf, ops, i) == ByteOrZero(buf, i)
  {
    if ops != [] {
      ByteAfterUntouched(buf, ops[..|ops| - 1], i);
    }
  }

  /** Every byte of the result comes from the last write covering it after the
      last truncate at or below it; failing such a write it is the surviving base
      byte, and zero everywhere else. */
  lemma ApplyPointwise(base: Content, ops: seq<FileOp>, max: nat, i: nat)
    requires Apply(base, ops, max).Ok?
    requires i < |Apply(base, ops, max).value|
    ensures forall k: nat | LastTouch(ops, k, i) ::
              Apply(base, ops, max).value[i] == ByteFrom(ops[k], i)
    ensures (forall k | 0 <= k < |ops| :: !Touches(ops[k], i)) ==>
              Apply(base, ops, max).value[i] == ByteOrZero(base, i)
  {
    ApplyAllByteAfter(base, ops, max, i);
    forall k: nat | LastTouch(ops, k, i)
      ensures ByteAfter(base, ops, i) == ByteFrom(ops[k], i)
    {
      ByteAfterLastTouch(base, ops, i, k);
    }
    if forall k | 0 <= k < |ops| :: !Touches(ops[k], i) {
      ByteAfterUntouched(base, ops, i);
    }
  }

  // ----- composition -----

  lemma {:induction false} ApplyAllConcat(buf: Content, a: seq<FileOp>, b: seq<FileOp>, max: nat)
    ensures ApplyAll(buf, a + b, max) ==
            (match ApplyAll(buf, a, max) case Err(e) => Err(e) case Ok(mid) => ApplyAll(mid, b, max))
    decreases |a|
  {
    if a == [] {
      assert a + b == b;
    } else {
      assert (a + b)[1..] == a[1..] + b;
      var next := ApplyOp(buf, a[0], max);
      if next.Ok? {
        ApplyAllConcat(next.value, a[1..], b, max);
      }
    }
  }

  /** Logs compose: replaying `a` and then `b` over its result is replaying
      `a + b`, for every base, with one exception.  An oversized base with nothing
      before `b` is refused by the empty log, although `b` alone may cut it down. */
  lemma ApplyComposesIff(base: Content, a: seq<FileOp>, b: seq<FileOp>, max: nat)
    ensures Apply(base, a + b, max) == Then(Apply(base, a, max), b, max)
            <==> |base| <= max || a != [] || Apply(base, b, max) == Err(EFBIG)
  {
    if a == [] {
      assert a + b == b;
    } else {
      assert (a + b)[0] == a[0];
      if Enters(base, a, max) {
        ApplyAllConcat(base, a, b, max);
        ApplySucceedsIff(base, a, max);
      }
    }
  }

  // ----- the in-place replay -----

  method ResizeContent(data: array<byte>, size: nat, max: nat) returns (resized: array<byte>, errno: Outcome<()>)
    ensures fresh(resized)
    ensures match ResizeTo(data[..], size, max)
            case Ok(r) => errno.Ok? && resized[..] == r
            case Err(e) => errno == Err(e)
  {
    if size > max || size > MAX_INT {
      resized := new byte[0];
      return resized, Err(EFBIG);
    }
    resized := new byte[size](i reads data => if 0 <= i < data.Length then data[i] else 0);
    errno := Ok(());
  }

  /** The write branch of the replay: grow when the write ends past the buffer,
      then overwrite in place. */
  method WriteInto(buf: array<byte>, off: nat, data: Content) returns (out: array<byte>)
    modifies buf
    ensures out == buf || fresh(out)
    ensures out[..] == Spliced(old(buf[..]), off, data)
  {
    var end := off + |data|;
    out := buf;
    if end > buf.Length {
      out := new byte[end](i reads buf => if 0 <= i < buf.Length then buf[i] else 0);
    }
    assert forall i | 0 <= i < out.Length :: out[i] == ByteOrZero(old(buf[..]), i);
    forall i | 0 <= i < |data| {
      out[off + i] := data[i];
    }
    assert out[..] == Spliced(old(buf[..]), off, data);
  }

  /** Replays `ops` over a private copy of `base`: the result is the meaning of
      the log, and `base`, which the content cache shares, keeps its bytes. */
  method ApplyFileOps(base: array<byte>, ops: seq<FileOp>, max: nat) returns (buf: array<byte>, errno: Outcome<()>)
    ensures fresh(buf)
    ensures base[..] == old(base[..])
    ensures match Apply(base[..], ops, max)
            case Ok(r) => errno.Ok? && buf[..] == r
            case Err(e) => errno == Err(e)
  {
    var start := 0;
    if base.Length > max {
      if ops == [] || !ops[0].Truncate? {
        buf := new byte[0];
        return buf, Err(EFBIG);
      }
      buf, errno := ResizeContent(base, ops[0].size, max);
      if errno.Err? {
        return;
      }
      start := 1;
    } else {
      buf := new byte[base.Length](i reads base => if 0 <= i < base.Length then base[i] else 0);
      assert buf[..] == base[..];
    }
    var k := start;
    while k < |ops|
      invariant start <= k <= |ops|
      invariant fresh(buf)
      invariant ApplyAll(base[..], ops, max) == ApplyAll(buf[..], ops[k..], max)
    {
      assert ops[k..][0] == ops[k] && ops[k..][1..] == ops[k + 1..];
      match ops[k] {
        case Truncate(size) =>
          buf, errno := ResizeContent(buf, size, max);
          if errno.Err? {
            return;
          }
        case Write(off, data) =>
          if buf.Length > max || off < 0 || off > max || |data| > max - off {
            return buf, Err(EFBIG);
          }
          if off + |data| > MAX_INT {
            return buf, Err(PANIC);
          }
          buf := WriteInto(buf, off, data);
        case Unknown(_) =>
          return buf, Err(EINVAL);
      }
      k := k + 1;
    }
    assert ops[k..] == [];
    errno := Ok(());
  }
}
