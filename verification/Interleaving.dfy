/**
The cache under concurrent handles (fuse/handle.go, fuse/cache.go).  The client
and the cache are each locked for the length of one call, so what several
handles do interleaves at single remote calls and single cache calls.  A handle
stores only what a remote call told it or it told the server, but it may do so
at any later time.
*/
module Interleaving {
  import opened Options
  import opened FileOps
  import opened Vfs
  import opened VfsCache
  import opened CachedIo

  /** A path, and a file some handle knows the server to have had there. */
  datatype Fact = Fact(path: Path, file: Stored)

  /** The mount's state, and everything any handle has learned. */
  datatype Shared = Shared(s: State, facts: set<Fact>)

  datatype Micro =
    | AskStat(path: Path, r: Reply)
    | AskRead(path: Path, r: Reply)
    | AskWrite(path: Path, data: Content, r: Reply)
    | AskCreate(path: Path, r: Reply)
    | AskRemove(path: Path, r: Reply)
    | LookUp(path: Path)
    | KeepNode(fact: Fact)
    | KeepPair(fact: Fact)
    | Forget(path: Path)
    | Elapse(more: seq<Snapshot>, now: nat)

  /** A remote call that leads to `world` and, if it succeeds, teaches `file`. */
  function Learned(sh: Shared, world: World, succeeded: bool, path: Path, file: Stored): Shared {
    Shared(State(sh.s.cache, world), if succeeded then sh.facts + {Fact(path, file)} else sh.facts)
  }

  function MicroStep(sh: Shared, a: Micro): (sh': Shared)
    requires sh.s.world.trace != []
    ensures sh.s.world.trace <= sh'.s.world.trace
  {
    var w, cache := sh.s.world, sh.s.cache;
    match a
    case AskStat(p, r) =>
      var (out, world) := RpcStat(w, p, r);
      Learned(sh, world, out.Ok?, p, if out.Ok? then AtServer(w, r).files[p] else Stored(0, File, true, []))
    case AskRead(p, r) =>
      var (out, world) := RpcRead(w, p, r);
      Learned(sh, world, out.Ok?, p, if out.Ok? then out.value else Stored(0, File, true, []))
    case AskWrite(p, data, r) =>
      var (out, world) := RpcWrite(w, p, data, r);
      Learned(sh, world, out.Ok?, p, Stored(AtServer(w, r).gen + 1, File, true, data))
    case AskCreate(p, r) =>
      var (out, world) := RpcCreate(w, p, r);
      Learned(sh, world, out.Ok?, p, Stored(AtServer(w, r).gen + 1, File, true, []))
    case AskRemove(p, r) => Shared(State(cache, RpcRemove(w, p, r).1), sh.facts)
    case LookUp(p) => Shared(State(AfterGetAttr(cache, p, w.now), w), sh.facts)
    case KeepNode(f) =>
      if f in sh.facts then Shared(State(WithAttr(cache, f.path, NodeOf(f.file), w.now), w), sh.facts) else sh
    case KeepPair(f) =>
      if f in sh.facts
      then Shared(State(WithContent(cache, f.path, f.file.version, f.file.data), w), sh.facts)
      else sh
    case Forget(p) => Shared(State(Invalidated(cache, p), w), sh.facts)
    case Elapse(more, now) => Shared(State(cache, World(w.trace + more, now)), sh.facts)
  }

  function MicroRun(sh: Shared, acts: seq<Micro>): (sh': Shared)
    requires sh.s.world.trace != []
    ensures sh.s.world.trace <= sh'.s.world.trace
  {
    if acts == [] then sh else MicroStep(MicroRun(sh, acts[..|acts| - 1]), acts[|acts| - 1])
  }

  // ----- calls made alone are such runs -----

  /** One step, then the rest. */
  lemma {:induction false} RunFirst(sh: Shared, a: Micro, rest: seq<Micro>)
    requires sh.s.world.trace != []
    ensures MicroRun(sh, [a] + rest) == MicroRun(MicroStep(sh, a), rest)
  {
    if rest == [] {
      assert [a] + rest == [a] && [a][..0] == [];
    } else {
      assert ([a] + rest)[..|rest|] == [a] + rest[..|rest| - 1];
      RunFirst(sh, a, rest[..|rest| - 1]);
    }
  }

  lemma StatIsRun(sh: Shared, p: Path, r: Reply) returns (acts: seq<Micro>)
    requires sh.s.world.trace != []
    ensures MicroRun(sh, acts).s == StatThrough(sh.s, p, r).1
  {
    var looked := MicroStep(sh, LookUp(p));
    acts := [LookUp(p)];
    assert [LookUp(p)][..0] == [];
    if LiveAttr(sh.s.cache, p, sh.s.world.now).None? {
      var asked := MicroStep(looked, AskStat(p, r));
      var keep := KeepNode(Fact(p, if RpcStat(sh.s.world, p, r).0.Ok? then AtServer(sh.s.world, r).files[p]
                                   else Stored(0, File, true, [])));
      acts := [LookUp(p)] + [AskStat(p, r)];
      RunFirst(sh, LookUp(p), [AskStat(p, r)]);
      assert [AskStat(p, r)][..0] == [];
      if RpcStat(sh.s.world, p, r).0.Ok? {
        acts := [LookUp(p)] + ([AskStat(p, r)] + [keep]);
        RunFirst(sh, LookUp(p), [AskStat(p, r)] + [keep]);
        RunFirst(looked, AskStat(p, r), [keep]);
        assert [keep][..0] == [];
      }
    }
  }

  lemma FetchIsRun(sh: Shared, p: Path, version: nat, r: Reply) returns (acts: seq<Micro>)
    requires sh.s.world.trace != []
    ensures MicroRun(sh, acts).s == FetchThrough(sh.s, p, version, r).1
  {
    acts := [];
    if ContentAt(sh.s.cache, p, version).None? {
      var out := RpcRead(sh.s.world, p, r).0;
      acts := [AskRead(p, r)];
      assert [AskRead(p, r)][..0] == [];
      if out.Ok? {
        var keep := KeepPair(Fact(p, out.value));
        acts := [AskRead(p, r)] + [keep];
        RunFirst(sh, AskRead(p, r), [keep]);
        assert [keep][..0] == [];
      }
    }
  }

  lemma StoreIsRun(sh: Shared, p: Path, data: Content, r: Reply) returns (acts: seq<Micro>)
    requires sh.s.world.trace != []
    ensures MicroRun(sh, acts).s == StoreThrough(sh.s, p, data, r).1
  {
    var ask := AskWrite(p, data, r);
    acts := [ask];
    assert [ask][..0] == [];
    if RpcWrite(sh.s.world, p, data, r).0.Ok? {
      var fact := Fact(p, Stored(AtServer(sh.s.world, r).gen + 1, File, true, data));
      acts := [ask] + ([KeepNode(fact)] + [KeepPair(fact)]);
      RunFirst(sh, ask, [KeepNode(fact)] + [KeepPair(fact)]);
      RunFirst(MicroStep(sh, ask), KeepNode(fact), [KeepPair(fact)]);
      assert [KeepPair(fact)][..0] == [];
    }
  }

  // ----- the invariant -----

  /** The server had `file` at `path` at some moment. */
  ghost predicate InHistory(t: seq<Snapshot>, f: Fact) {
    exists k | 0 <= k < |t| :: f.path in t[k].files && t[k].files[f.path] == f.file
  }

  ghost predicate Truthful(sh: Shared) {
    && sh.s.world.trace != [] && Coherent(sh.s)
    && forall f | f in sh.facts :: InHistory(sh.s.world.trace, f)
  }

  lemma HistoryGrows(t: seq<Snapshot>, longer: seq<Snapshot>, f: Fact)
    requires InHistory(t, f) && t <= longer
    ensures InHistory(longer, f)
  {
    var k :| 0 <= k < |t| && f.path in t[k].files && t[k].files[f.path] == f.file;
    assert longer[k] == t[k];
  }

  lemma FactIsHeld(t: seq<Snapshot>, f: Fact)
    requires InHistory(t, f)
    ensures Held(t, f.path, f.file.version, f.file.data) && Described(t, f.path, NodeOf(f.file))
  {
  }

  /** A longer history keeps everything true. */
  lemma WorldGrows(sh: Shared, world: World)
    requires Truthful(sh) && sh.s.world.trace <= world.trace
    ensures Truthful(Shared(State(sh.s.cache, world), sh.facts))
  {
    InvInLonger(sh.s, map[], world);
    forall f | f in sh.facts ensures InHistory(world.trace, f) {
      HistoryGrows(sh.s.world.trace, world.trace, f);
    }
  }

  lemma LearningKeepsTruth(sh: Shared, world: World, succeeded: bool, path: Path, file: Stored)
    requires Truthful(sh) && sh.s.world.trace <= world.trace
    requires succeeded ==> InHistory(world.trace, Fact(path, file))
    ensures Truthful(Learned(sh, world, succeeded, path, file))
  {
    WorldGrows(sh, world);
  }

  /** What a call finds at the server is in the history after it. */
  lemma FoundIsInHistory(w: World, r: Reply, p: Path)
    requires w.trace != [] && p in AtServer(w, r).files
    ensures InHistory(Observed(w, r).trace, Fact(p, AtServer(w, r).files[p]))
  {
    var t, k := Observed(w, r).trace, |w.trace + r.before| - 1;
    assert t[k] == AtServer(w, r);
  }

  /** What a call puts there is too. */
  lemma PutIsInHistory(w: World, r: Reply, next: Snapshot, p: Path)
    requires p in next.files
    ensures InHistory(Mutated(w, r, next).trace, Fact(p, next.files[p]))
  {
    assert Mutated(w, r, next).trace[|w.trace + r.before|] == next;
  }

  lemma AskKeepsTruth(sh: Shared, a: Micro)
    requires Truthful(sh) && (a.AskStat? || a.AskRead? || a.AskWrite? || a.AskCreate?)
    ensures Truthful(MicroStep(sh, a))
  {
    var w := sh.s.world;
    match a {
      case AskStat(p, r) =>
        var (out, world) := RpcStat(w, p, r);
        var file := if out.Ok? then AtServer(w, r).files[p] else Stored(0, File, true, []);
        if out.Ok? {
          FoundIsInHistory(w, r, p);
        }
        LearningKeepsTruth(sh, world, out.Ok?, p, file);
      case AskRead(p, r) =>
        var (out, world) := RpcRead(w, p, r);
        var file := if out.Ok? then out.value else Stored(0, File, true, []);
        if out.Ok? {
          FoundIsInHistory(w, r, p);
        }
        LearningKeepsTruth(sh, world, out.Ok?, p, file);
      case AskWrite(p, data, r) => PutKeepsTruth(sh, p, data, r, RpcWrite(w, p, data, r));
      case AskCreate(p, r) => PutKeepsTruth(sh, p, [], r, RpcCreate(w, p, r));
    }
  }

  lemma PutKeepsTruth(sh: Shared, p: Path, data: Content, r: Reply, put: (Outcome<Node>, World))
    requires Truthful(sh)
    requires put == RpcWrite(sh.s.world, p, data, r) || (data == [] && put == RpcCreate(sh.s.world, p, r))
    ensures Truthful(Learned(sh, put.1, put.0.Ok?, p, Stored(AtServer(sh.s.world, r).gen + 1, File, true, data)))
  {
    var at := AtServer(sh.s.world, r);
    var file := Stored(at.gen + 1, File, true, data);
    if put.0.Ok? {
      PutIsInHistory(sh.s.world, r, Snapshot(at.gen + 1, at.files[p := file]), p);
    }
    LearningKeepsTruth(sh, put.1, put.0.Ok?, p, file);
  }

  lemma StepKeepsTruth(sh: Shared, a: Micro)
    requires Truthful(sh)
    ensures Truthful(MicroStep(sh, a))
  {
    match a {
      case AskStat(_, _) => AskKeepsTruth(sh, a);
      case AskRead(_, _) => AskKeepsTruth(sh, a);
      case AskWrite(_, _, _) => AskKeepsTruth(sh, a);
      case AskCreate(_, _) => AskKeepsTruth(sh, a);
      case AskRemove(_, _) => WorldGrows(sh, MicroStep(sh, a).s.world);
      case Elapse(_, _) => WorldGrows(sh, MicroStep(sh, a).s.world);
      case KeepNode(f) =>
        if f in sh.facts {
          FactIsHeld(sh.s.world.trace, f);
        }
      case KeepPair(f) =>
        if f in sh.facts {
          FactIsHeld(sh.s.world.trace, f);
        }
      case _ =>
    }
  }

  /** However the calls of any number of handles interleave, and whatever remote writers
      do: each cached pair is what the server held at that version, each cached node
      describes a file it had, and everything a read returned was held. */
  lemma {:induction false} InterleavedRunsStayCoherent(attrTTL: nat, dentryTTL: nat, w: World, acts: seq<Micro>)
    requires w.trace != []
    ensures var sh := MicroRun(Shared(State(EmptyContents(attrTTL, dentryTTL), w), {}), acts);
            && Coherent(sh.s)
            && forall f | f in sh.facts :: Held(sh.s.world.trace, f.path, f.file.version, f.file.data)
    ensures Truthful(MicroRun(Shared(State(EmptyContents(attrTTL, dentryTTL), w), {}), acts))
  {
    var start := Shared(State(EmptyContents(attrTTL, dentryTTL), w), {});
    if acts != [] {
      InterleavedRunsStayCoherent(attrTTL, dentryTTL, w, acts[..|acts| - 1]);
      StepKeepsTruth(MicroRun(start, acts[..|acts| - 1]), acts[|acts| - 1]);
    }
    var sh := MicroRun(start, acts);
    forall f | f in sh.facts ensures Held(sh.s.world.trace, f.path, f.file.version, f.file.data) {
      FactIsHeld(sh.s.world.trace, f);
    }
  }
}
