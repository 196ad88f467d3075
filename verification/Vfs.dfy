/**
The remote file system as the mount sees it: a history of snapshots in which
every change of a path takes a version no earlier snapshot used, and the
remote procedures of fuse/client.go as functions of that history.  Other
writers may act before a request takes effect and before its reply arrives.
*/
module Vfs {
  import opened Options
  import opened FileOps

  type Path = string

  datatype Kind = Dir | File

  /** What `vfs/stat` and the write acknowledgements report. */
  datatype Node = Node(kind: Kind, size: nat, version: nat, writable: bool)

  datatype Stored = Stored(version: nat, kind: Kind, writable: bool, data: Content)

  function NodeOf(f: Stored): Node {
    Node(f.kind, |f.data|, f.version, f.writable)
  }

  /** The server at one moment.  `gen` bounds every version handed out so far. */
  datatype Snapshot = Snapshot(gen: nat, files: map<Path, Stored>)

  /** The server's whole past and the mount's clock. */
  datatype World = World(trace: seq<Snapshot>, now: nat)

  function Current(w: World): Snapshot
    requires w.trace != []
  {
    w.trace[|w.trace| - 1]
  }

  ghost predicate Sound(s: Snapshot) {
    forall p | p in s.files :: s.files[p].version <= s.gen
  }

  /** Between two moments a path keeps its file or gets one with a new version. */
  ghost predicate Evolves(a: Snapshot, b: Snapshot) {
    && a.gen <= b.gen
    && forall p | p in b.files ::
         (p in a.files && b.files[p] == a.files[p]) || a.gen < b.files[p].version
  }

  ghost predicate ValidTrace(t: seq<Snapshot>) {
    && t != []
    && (forall i | 0 <= i < |t| :: Sound(t[i]))
    && (forall i | 0 < i < |t| :: Evolves(t[i - 1], t[i]))
  }

  lemma {:induction false} GenGrows(t: seq<Snapshot>, i: nat, j: nat)
    requires ValidTrace(t) && i <= j < |t|
    ensures t[i].gen <= t[j].gen
    decreases j
  {
    if i < j {
      GenGrows(t, i, j - 1);
      assert Evolves(t[j - 1], t[j]);
    }
  }

  /** A version already handed out at `i` can only be carried over since then. */
  lemma {:induction false} OldVersionsAreCarried(t: seq<Snapshot>, i: nat, j: nat, p: Path)
    requires ValidTrace(t) && i <= j < |t|
    requires p in t[j].files && t[j].files[p].version <= t[i].gen
    ensures p in t[i].files && t[i].files[p] == t[j].files[p]
    decreases j
  {
    if i < j {
      GenGrows(t, i, j - 1);
      assert Evolves(t[j - 1], t[j]);
      OldVersionsAreCarried(t, i, j - 1, p);
    }
  }

  /** Versions of a path never go back, and a version determines the file. */
  lemma VersionsOrderHistory(t: seq<Snapshot>, i: nat, j: nat, p: Path)
    requires ValidTrace(t) && i <= j < |t|
    requires p in t[i].files && p in t[j].files
    ensures t[i].files[p].version <= t[j].files[p].version
    ensures t[i].files[p].version == t[j].files[p].version ==> t[i].files[p] == t[j].files[p]
  {
    assert Sound(t[i]);
    if t[j].files[p].version <= t[i].gen {
      OldVersionsAreCarried(t, i, j, p);
    }
  }

  // ----- one remote procedure call -----

  /** How the outside world behaves during one call: what other writers do before
      the request takes effect, whether the call fails on the way (a lost
      acknowledgement shows up as this client's own write among `before`), what
      they do before the reply is handled, and the clock then. */
  datatype Reply = Reply(before: seq<Snapshot>, fault: Option<Errno>, after: seq<Snapshot>, now: nat)

  /** A call during which nobody else acts and nothing fails. */
  predicate Quiet(r: Reply) {
    r.before == [] && r.after == [] && r.fault.None?
  }

  function AtServer(w: World, r: Reply): (s: Snapshot)
    requires w.trace != []
  {
    if r.before == [] then Current(w) else r.before[|r.before| - 1]
  }

  /** The world after a call that changed nothing itself. */
  function Observed(w: World, r: Reply): (w': World)
    ensures w.trace <= w'.trace
  {
    World(w.trace + r.before + r.after, r.now)
  }

  /** The world after a call that moved the server to `s`. */
  function Mutated(w: World, r: Reply, s: Snapshot): (w': World)
    ensures w.trace <= w'.trace
  {
    World(w.trace + r.before + [s] + r.after, r.now)
  }

  function RpcStat(w: World, p: Path, r: Reply): (Outcome<Node>, World)
    requires w.trace != []
  {
    var s := AtServer(w, r);
    var out := if r.fault.Some? then Err(r.fault.value)
               else if p !in s.files then Err(ENOENT)
               else Ok(NodeOf(s.files[p]));
    (out, Observed(w, r))
  }

  /** A read returns the stored file; a caller sees its data and version. */
  function RpcRead(w: World, p: Path, r: Reply): (Outcome<Stored>, World)
    requires w.trace != []
  {
    var s := AtServer(w, r);
    var out := if r.fault.Some? then Err(r.fault.value)
               else if p !in s.files then Err(ENOENT)
               else if s.files[p].kind.Dir? then Err(EISDIR)
               else Ok(s.files[p]);
    (out, Observed(w, r))
  }

  function RpcWrite(w: World, p: Path, data: Content, r: Reply): (Outcome<Node>, World)
    requires w.trace != []
  {
    var s := AtServer(w, r);
    if r.fault.Some? then (Err(r.fault.value), Observed(w, r))
    else if p !in s.files then (Err(ENOENT), Observed(w, r))
    else if s.files[p].kind.Dir? then (Err(EISDIR), Observed(w, r))
    else if !s.files[p].writable then (Err(EACCES), Observed(w, r))
    else
      var f := Stored(s.gen + 1, File, true, data);
      (Ok(NodeOf(f)), Mutated(w, r, Snapshot(s.gen + 1, s.files[p := f])))
  }

  function RpcCreate(w: World, p: Path, r: Reply): (Outcome<Node>, World)
    requires w.trace != []
  {
    var s := AtServer(w, r);
    if r.fault.Some? then (Err(r.fault.value), Observed(w, r))
    else if p in s.files then (Err(EEXIST), Observed(w, r))
    else
      var f := Stored(s.gen + 1, File, true, []);
      (Ok(NodeOf(f)), Mutated(w, r, Snapshot(s.gen + 1, s.files[p := f])))
  }

  function RpcRemove(w: World, p: Path, r: Reply): (Outcome<()>, World)
    requires w.trace != []
  {
    var s := AtServer(w, r);
    if r.fault.Some? then (Err(r.fault.value), Observed(w, r))
    else if p !in s.files then (Err(ENOENT), Observed(w, r))
    else (Ok(()), Mutated(w, r, Snapshot(s.gen + 1, s.files - {p})))
  }

  // ----- facts about what the server held -----

  lemma PrefixOfValid(t: seq<Snapshot>, t': seq<Snapshot>)
    requires ValidTrace(t') && t <= t' && t != []
    ensures ValidTrace(t)
  {
    assert forall i | 0 <= i < |t| :: t[i] == t'[i];
  }

  /** `p` was `f` at some moment of the history from index `from` on. */
  ghost predicate HeldSince(t: seq<Snapshot>, from: nat, p: Path, version: nat, data: Content) {
    exists k | from <= k < |t| :: p in t[k].files && t[k].files[p].version == version && t[k].files[p].data == data
  }

  ghost predicate Held(t: seq<Snapshot>, p: Path, version: nat, data: Content) {
    HeldSince(t, 0, p, version, data)
  }

  lemma HeldInLonger(t: seq<Snapshot>, more: seq<Snapshot>, from: nat, p: Path, version: nat, data: Content)
    requires HeldSince(t, from, p, version, data)
    ensures HeldSince(t + more, from, p, version, data)
  {
    var k :| from <= k < |t| && p in t[k].files && t[k].files[p].version == version && t[k].files[p].data == data;
    assert (t + more)[k] == t[k];
  }
}
