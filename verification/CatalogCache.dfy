/**
The catalog cache (pg/pg_mcp/src/cache.rs) and the list-changed flag that cuts
its staleness short (pg/pg_mcp/src/client.rs, `Notifications`;
pg/pg_mcp/src/tables/catalog.rs, `fetch_list`;
pg/pg_mcp/src/tables/per_tool.rs, `resolve_tool`).  The flag lives on the
session and is set while a reply is read; the slice it speaks of lives in the
cache.  The theorems say when the two agree.
*/
module CatalogCache {
  import opened Options

  datatype Slice = Tools | Prompts | Resources | ResourceTemplates | InitializeResult

  /** A foreign server and a user. */
  type Key = (nat, nat)

  datatype Ref = Ref(key: Key, slice: Slice)

  /** A cached slice.  `begun` is the number of list-changed notifications that had
      been observed when its fetch began. */
  datatype Entry = Entry(fetchedAt: nat, items: seq<string>, begun: nat)

  datatype Fetch = Fetch(ref: Ref, items: seq<string>, at: nat)

  /** The backend: cached slices, the flag of each live session, and for the
      statements below how many notifications were observed and what was fetched. */
  datatype State = State(entries: map<Ref, Entry>, flags: map<Key, bool>, observed: map<Key, nat>, fetches: seq<Fetch>)

  function Count(st: State, key: Key): nat { if key in st.observed then st.observed[key] else 0 }

  predicate Flagged(st: State, key: Key) { key in st.flags && st.flags[key] }

  // ----- the network's part -----

  /** How a request can fail: on the transport, by a cancel of the statement, or
      otherwise.  The first two lose the session. */
  datatype Fault = Transport | Cancel | Other

  predicate Fatal(f: Fault) { !f.Other? }

  datatype Reply = Items(items: seq<string>) | MethodNotFound | Failed(fault: Fault)

  /** What a fetch brings, and how many notifications are observed meanwhile. */
  datatype Traffic = Traffic(reply: Reply, changes: nat)

  /** The times before and after a fetch, and how opening a session would end. */
  datatype Circumstances = Circumstances(now: nat, done: nat, openError: Option<Fault>, traffic: Traffic)

  // ----- pieces -----

  /** The entry is there and younger than the caller's TTL; a TTL of 0 never hits. */
  function Hit(st: State, ref: Ref, ttl: nat, now: nat): Option<Entry> {
    if ttl > 0 && ref in st.entries && now < st.entries[ref].fetchedAt + ttl then Some(st.entries[ref]) else None
  }

  function DropTools(st: State, key: Key): State { st.(entries := st.entries - {Ref(key, Tools)}) }

  function Opened(st: State, key: Key): State {
    if key in st.flags then st else st.(flags := st.flags[key := false])
  }

  function Observed(st: State, key: Key, changes: nat): State
    requires key in st.flags
  {
    st.(observed := st.observed[key := Count(st, key) + changes],
        flags := st.flags[key := st.flags[key] || changes > 0])
  }

  /** A session is lost, and its flag with it. */
  function Lost(st: State, key: Key): State { st.(flags := st.flags - {key}) }

  function Stored(st: State, ref: Ref, items: seq<string>, ttl: nat, done: nat, begun: nat): State {
    var fetched := st.(fetches := st.fetches + [Fetch(ref, items, done)]);
    if ttl == 0 then fetched else fetched.(entries := st.entries[ref := Entry(done, items, begun)])
  }

  datatype Outcome = Fresh(items: seq<string>) | Cached(entry: Entry) | Raised(fault: Fault)

  datatype Done = Done(state: State, outcome: Outcome)

  // ----- a catalog scan -----

  /** The flag is taken, and the slice dropped for it, before the cache is asked. */
  function Polled(st: State, key: Key, poll: bool): State {
    if poll && Flagged(st, key) then DropTools(st.(flags := st.flags[key := false]), key) else st
  }

  /** A fetch on an open session; an unknown list method reads as an empty list, while
      the handshake's own slice cannot do without its answer. */
  function Fetched(st: State, ref: Ref, ttl: nat, c: Circumstances): Done
    requires ref.key in st.flags
  {
    var after := Observed(st, ref.key, c.traffic.changes);
    match c.traffic.reply
    case Items(items) => Done(Stored(after, ref, items, ttl, c.done, Count(st, ref.key)), Fresh(items))
    case MethodNotFound =>
      if ref.slice.InitializeResult? then Done(after, Raised(Other))
      else Done(Stored(after, ref, [], ttl, c.done, Count(st, ref.key)), Fresh([]))
    case Failed(fault) => Done(after, Raised(fault))
  }

  /** A scan, up to the point where the session goes back into the map. */
  function Scanned(st: State, ref: Ref, ttl: nat, c: Circumstances): Done {
    if ref.key !in st.flags && c.openError.Some? then Done(st, Raised(c.openError.value))
    else
      var polled := Polled(Opened(st, ref.key), ref.key, ref.slice.Tools?);
      match Hit(polled, ref, ttl, c.now)
      case Some(entry) => Done(polled, Cached(entry))
      case None => Fetched(polled, ref, ttl, c)
  }

  /** The session goes back unless a transport error or a cancel ended the statement. */
  function Returned(d: Done, key: Key): Done {
    if d.outcome.Raised? && Fatal(d.outcome.fault) then d.(state := Lost(d.state, key)) else d
  }

  function FetchList(st: State, ref: Ref, ttl: nat, c: Circumstances): Done {
    Returned(Scanned(st, ref, ttl, c), ref.key)
  }

  // ----- a per-tool table -----

  function FetchedTools(st: State, key: Key, ttl: nat, c: Circumstances): Done
    requires key in st.flags
  {
    var after := Observed(st, key, c.traffic.changes);
    match c.traffic.reply
    case Items(items) => Done(Stored(after, Ref(key, Tools), items, ttl, c.done, Count(st, key)), Fresh(items))
    case MethodNotFound => Done(after, Raised(Other))
    case Failed(fault) => Done(after, Raised(fault))
  }

  /** The list comes first; a flag that is set afterwards drops the slice, and stays. */
  function Peeked(d: Done, key: Key): Done {
    if !d.outcome.Raised? && Flagged(d.state, key) then d.(state := DropTools(d.state, key)) else d
  }

  function ResolvedTools(st: State, key: Key, ttl: nat, c: Circumstances): Done {
    match Hit(st, Ref(key, Tools), ttl, c.now)
    case Some(entry) => Peeked(Done(st, Cached(entry)), key)
    case None =>
      if key !in st.flags && c.openError.Some? then Done(st, Raised(c.openError.value))
      else Peeked(FetchedTools(Opened(st, key), key, ttl, c), key)
  }

  function ResolveTool(st: State, key: Key, ttl: nat, c: Circumstances): Done {
    Returned(ResolvedTools(st, key, ttl, c), key)
  }

  // ----- everything else that touches the flag -----

  function Refreshed(st: State, key: Key): State {
    State(map r | r in st.entries && r.key != key :: st.entries[r], st.flags - {key}, st.observed, st.fetches)
  }

  /** Another request on the session, which is opened if need be. */
  function Requested(st: State, key: Key, c: Circumstances): Done {
    if key !in st.flags && c.openError.Some? then Done(st, Raised(c.openError.value))
    else
      Done(Observed(Opened(st, key), key, c.traffic.changes),
           match c.traffic.reply
           case Items(items) => Fresh(items)
           case MethodNotFound => Raised(Other)
           case Failed(fault) => Raised(fault))
  }

  // ----- the classes -----

  class Catalog {
    var entries: map<Ref, Entry>
    var flags: map<Key, bool>
    var observed: map<Key, nat>
    var fetches: seq<Fetch>

    function View(): State
      reads this
    {
      State(entries, flags, observed, fetches)
    }

    constructor ()
      ensures View() == State(map[], map[], map[], [])
    {
      entries, flags, observed, fetches := map[], map[], map[], [];
    }

    method TakeFlag(key: Key) returns (was: bool)
      requires key in flags
      modifies this
      ensures was == old(flags[key]) && View() == old(View()).(flags := old(flags)[key := false])
    {
      was := flags[key];
      flags := flags[key := false];
    }

    method DoDropTools(key: Key) returns (existed: bool)
      modifies this
      ensures existed <==> Ref(key, Tools) in old(entries)
      ensures View() == DropTools(old(View()), key)
    {
      existed := Ref(key, Tools) in entries;
      entries := entries - {Ref(key, Tools)};
    }

    /** Only a fetch that succeeds is stored, and only under a TTL. */
    method Store(ref: Ref, items: seq<string>, ttl: nat, done: nat, begun: nat)
      modifies this
      ensures View() == Stored(old(View()), ref, items, ttl, done, begun)
    {
      fetches := fetches + [Fetch(ref, items, done)];
      if ttl > 0 {
        entries := entries[ref := Entry(done, items, begun)];
      }
    }

    method Observe(key: Key, changes: nat)
      requires key in flags
      modifies this
      ensures View() == Observed(old(View()), key, changes)
    {
      observed := observed[key := (if key in observed then observed[key] else 0) + changes];
      if changes > 0 {
        flags := flags[key := true];
      }
      assert flags == old(flags)[key := old(flags)[key] || changes > 0];
    }

    method DoFetchList(ref: Ref, ttl: nat, c: Circumstances) returns (out: Outcome)
      modifies this
      ensures Done(View(), out) == FetchList(old(View()), ref, ttl, c)
    {
      if ref.key !in flags {
        if c.openError.Some? {
          assert flags == flags - {ref.key};
          return Raised(c.openError.value);
        }
        flags := flags[ref.key := false];
      }
      ghost var ready := View();
      if ref.slice.Tools? {
        var changed := TakeFlag(ref.key);
        if changed {
          var _ := DoDropTools(ref.key);
        } else {
          assert flags == ready.flags;
        }
      }
      assert View() == Polled(ready, ref.key, ref.slice.Tools?);
      if ttl > 0 && ref in entries && c.now < entries[ref].fetchedAt + ttl {
        return Cached(entries[ref]);
      }
      var begun := if ref.key in observed then observed[ref.key] else 0;
      Observe(ref.key, c.traffic.changes);
      match c.traffic.reply {
        case Items(items) =>
          Store(ref, items, ttl, c.done, begun);
          out := Fresh(items);
        case MethodNotFound =>
          if ref.slice.InitializeResult? {
            out := Raised(Other);
          } else {
            Store(ref, [], ttl, c.done, begun);
            out := Fresh([]);
          }
        case Failed(fault) =>
          out := Raised(fault);
          if Fatal(fault) {
            flags := flags - {ref.key};
          }
      }
    }

    method DoResolveTool(key: Key, ttl: nat, c: Circumstances) returns (out: Outcome)
      modifies this
      ensures Done(View(), out) == ResolveTool(old(View()), key, ttl, c)
    {
      var ref := Ref(key, Tools);
      if ttl > 0 && ref in entries && c.now < entries[ref].fetchedAt + ttl {
        out := Cached(entries[ref]);
      } else {
        if key !in flags {
          if c.openError.Some? {
            assert flags == flags - {key};
            return Raised(c.openError.value);
          }
          flags := flags[key := false];
        }
        var begun := if key in observed then observed[key] else 0;
        Observe(key, c.traffic.changes);
        match c.traffic.reply {
          case Items(items) =>
            Store(ref, items, ttl, c.done, begun);
            out := Fresh(items);
          case MethodNotFound =>
            return Raised(Other);
          case Failed(fault) =>
            if Fatal(fault) {
              flags := flags - {key};
            }
            return Raised(fault);
        }
      }
      if key in flags && flags[key] {
        var _ := DoDropTools(key);
      }
    }

    method Refresh(key: Key)
      modifies this
      ensures View() == Refreshed(old(View()), key)
    {
      flags := flags - {key};
      entries := map r | r in entries && r.key != key :: entries[r];
    }
  }

  // ----- runs -----

  datatype Action =
    | Scan(ref: Ref, ttl: nat, c: Circumstances)
    | Resolve(key: Key, ttl: nat, c: Circumstances)
    | Request(key: Key, c: Circumstances)
    | Refresh(key: Key)
    | Replace(key: Key) // the server's URL was altered

  function KeyOf(a: Action): Key { if a.Scan? then a.ref.key else a.key }

  /** The step up to the point where the session is put back or lost. */
  function Working(st: State, a: Action): Done {
    match a
    case Scan(ref, ttl, c) => Scanned(st, ref, ttl, c)
    case Resolve(key, ttl, c) => ResolvedTools(st, key, ttl, c)
    case Request(key, c) => Requested(st, key, c)
    case Refresh(key) => Done(Refreshed(st, key), Fresh([]))
    case Replace(key) => Done(st, Raised(Transport))
  }

  function Act(st: State, a: Action): Done { Returned(Working(st, a), KeyOf(a)) }

  function Run(st: State, actions: seq<Action>): State {
    if actions == [] then st else Act(Run(st, actions[..|actions| - 1]), actions[|actions| - 1]).state
  }

  // ----- the flag and the slice -----

  /** The flag is clear if and only if no notification was observed since the fetch
      of the cached tools began. */
  ghost predicate Exact(st: State, key: Key) {
    Ref(key, Tools) in st.entries ==>
      var begun := st.entries[Ref(key, Tools)].begun;
      begun <= Count(st, key) && (Flagged(st, key) <==> begun < Count(st, key))
  }

  lemma PolledKeepsExact(st: State, key: Key, poll: bool, k: Key)
    requires Exact(st, k)
    ensures Exact(Polled(Opened(st, key), key, poll), k)
    ensures key in Polled(Opened(st, key), key, poll).flags
    ensures poll ==> !Flagged(Polled(Opened(st, key), key, poll), key)
  {
  }

  lemma ObservedKeepsExact(st: State, key: Key, changes: nat, k: Key)
    requires key in st.flags && Exact(st, k)
    ensures Exact(Observed(st, key, changes), k)
  {
  }

  /** Storing a slice whose fetch the flag was clear for. */
  lemma StoredIsExact(st: State, ref: Ref, items: seq<string>, ttl: nat, c: Circumstances, k: Key)
    requires ref.key in st.flags && Exact(st, k) && (ref.slice.Tools? ==> !Flagged(st, ref.key))
    ensures Exact(Stored(Observed(st, ref.key, c.traffic.changes), ref, items, ttl, c.done, Count(st, ref.key)), k)
  {
    ObservedKeepsExact(st, ref.key, c.traffic.changes, k);
  }

  lemma ScannedKeepsExact(st: State, ref: Ref, ttl: nat, c: Circumstances, k: Key)
    requires Exact(st, k)
    ensures Exact(Scanned(st, ref, ttl, c).state, k)
  {
    if !(ref.key !in st.flags && c.openError.Some?) {
      var polled := Polled(Opened(st, ref.key), ref.key, ref.slice.Tools?);
      PolledKeepsExact(st, ref.key, ref.slice.Tools?, k);
      ObservedKeepsExact(polled, ref.key, c.traffic.changes, k);
      forall items {
        StoredIsExact(polled, ref, items, ttl, c, k);
      }
    }
  }

  lemma FetchedToolsPeeked(st: State, key: Key, ttl: nat, c: Circumstances, k: Key)
    requires key in st.flags && Exact(st, k)
    ensures Exact(Peeked(FetchedTools(st, key, ttl, c), key).state, k)
  {
    ObservedKeepsExact(st, key, c.traffic.changes, k);
    if c.traffic.reply.Items? && !Flagged(st, key) {
      StoredIsExact(st, Ref(key, Tools), c.traffic.reply.items, ttl, c, k);
    }
  }

  lemma ResolvedKeepsExact(st: State, key: Key, ttl: nat, c: Circumstances, k: Key)
    requires Exact(st, k)
    ensures Exact(ResolvedTools(st, key, ttl, c).state, k)
  {
    if Hit(st, Ref(key, Tools), ttl, c.now).None? && (key in st.flags || c.openError.None?) {
      FetchedToolsPeeked(Opened(st, key), key, ttl, c, k);
    }
  }

  lemma WorkingKeepsExact(st: State, a: Action, k: Key)
    requires Exact(st, k)
    ensures Exact(Working(st, a).state, k)
  {
    match a {
      case Scan(ref, ttl, c) => ScannedKeepsExact(st, ref, ttl, c, k);
      case Resolve(key, ttl, c) => ResolvedKeepsExact(st, key, ttl, c, k);
      case Request(key, c) =>
        if key in st.flags || c.openError.None? {
          ObservedKeepsExact(Opened(st, key), key, c.traffic.changes, k);
        }
      case _ =>
    }
  }

  /** The session is open, or opens. */
  predicate HasSession(st: State, key: Key, c: Circumstances) {
    key in st.flags || c.openError.None?
  }

  /** The request ends in a transport error or a cancel. */
  predicate Dies(c: Circumstances) { c.traffic.reply.Failed? && Fatal(c.traffic.reply.fault) }

  /** What has to come together for a step to lose a change: tools are cached; the
      session's URL is replaced while its flag is set, or a request is made on it, dies
      on the transport or by a cancel, and the flag was set before or is set meanwhile.  A tools scan
      takes the flag and drops the tools first, so for it only a change that is
      observed meanwhile can be lost, with a slice that is past the scan's TTL. */
  predicate LosesChange(st: State, a: Action) {
    && Ref(KeyOf(a), Tools) in st.entries
    && match a
       case Replace(key) => Flagged(st, key)
       case Refresh(_) => false
       case Request(key, c) => HasSession(st, key, c) && Dies(c) && (Flagged(st, key) || c.traffic.changes > 0)
       case Resolve(key, ttl, c) =>
         && HasSession(st, key, c) && Dies(c) && (Flagged(st, key) || c.traffic.changes > 0)
         && Hit(st, Ref(key, Tools), ttl, c.now).None?
       case Scan(ref, ttl, c) =>
         && HasSession(st, ref.key, c) && Dies(c) && Hit(st, ref, ttl, c.now).None?
         && if ref.slice.Tools? then !Flagged(st, ref.key) && c.traffic.changes > 0
            else Flagged(st, ref.key) || c.traffic.changes > 0
  }

  lemma LosesChangeIs(st: State, a: Action)
    ensures LosesChange(st, a) <==>
            var w := Working(st, a);
            && w.outcome.Raised? && Fatal(w.outcome.fault)
            && Flagged(w.state, KeyOf(a)) && Ref(KeyOf(a), Tools) in w.state.entries
  {
    match a {
      case Scan(ref, ttl, c) => ScanLoses(st, ref, ttl, c);
      case Resolve(key, ttl, c) => ResolveLoses(st, key, ttl, c);
      case _ =>
    }
  }

  lemma ScanLoses(st: State, ref: Ref, ttl: nat, c: Circumstances)
    ensures LosesChange(st, Scan(ref, ttl, c)) <==>
            var w := Scanned(st, ref, ttl, c);
            && w.outcome.Raised? && Fatal(w.outcome.fault)
            && Flagged(w.state, ref.key) && Ref(ref.key, Tools) in w.state.entries
  {
    if HasSession(st, ref.key, c) {
      var polled := Polled(Opened(st, ref.key), ref.key, ref.slice.Tools?);
      if ref.slice.Tools? && Flagged(st, ref.key) {
        assert ref !in polled.entries;
      } else {
        assert polled.entries == st.entries && (Flagged(polled, ref.key) <==> Flagged(st, ref.key));
      }
    }
  }

  lemma ResolveLoses(st: State, key: Key, ttl: nat, c: Circumstances)
    ensures LosesChange(st, Resolve(key, ttl, c)) <==>
            var w := ResolvedTools(st, key, ttl, c);
            w.outcome.Raised? && Fatal(w.outcome.fault) && Flagged(w.state, key) && Ref(key, Tools) in w.state.entries
  {
  }

  /** A step keeps the flag and the slice in agreement if and only if it does not lose
      a change. */
  lemma StepKeepsExactIff(st: State, a: Action)
    requires Exact(st, KeyOf(a))
    ensures Exact(Act(st, a).state, KeyOf(a)) <==> !LosesChange(st, a)
  {
    LosesChangeIs(st, a);
    WorkingKeepsExact(st, a, KeyOf(a));
  }

  lemma OthersKeepExact(st: State, a: Action, k: Key)
    requires Exact(st, k) && k != KeyOf(a)
    ensures Exact(Act(st, a).state, k)
  {
    WorkingKeepsExact(st, a, k);
  }

  /** So they agree over every run in which no such session is lost. */
  lemma {:induction false} RunsKeepExact(actions: seq<Action>, k: Key)
    requires forall n | 0 <= n < |actions| ::
               !LosesChange(Run(State(map[], map[], map[], []), actions[..n]), actions[n])
    ensures Exact(Run(State(map[], map[], map[], []), actions), k)
  {
    if actions != [] {
      var init, a := actions[..|actions| - 1], actions[|actions| - 1];
      var empty := State(map[], map[], map[], []);
      forall n | 0 <= n < |init| ensures !LosesChange(Run(empty, init[..n]), init[n]) {
        assert init[..n] == actions[..n];
      }
      RunsKeepExact(init, k);
      if k == KeyOf(a) {
        StepKeepsExactIff(Run(empty, init), a);
      } else {
        OthersKeepExact(Run(empty, init), a, k);
      }
    }
  }

  /** A tools scan never serves a slice older than an observed change. */
  lemma ScansServeCurrent(st: State, key: Key, ttl: nat, c: Circumstances)
    requires Exact(st, key) && FetchList(st, Ref(key, Tools), ttl, c).outcome.Cached?
    ensures FetchList(st, Ref(key, Tools), ttl, c).outcome.entry.begun == Count(st, key)
  {
    PolledKeepsExact(st, key, true, key);
  }

  /** A per-tool table asks the cache before it looks at the flag: what it serves from
      the cache is current if and only if the flag is clear. */
  lemma ResolveServesCurrentIff(st: State, key: Key, ttl: nat, c: Circumstances)
    requires Exact(st, key) && ResolveTool(st, key, ttl, c).outcome.Cached?
    ensures ResolveTool(st, key, ttl, c).outcome.entry.begun == Count(st, key) <==> !Flagged(st, key)
    ensures Flagged(st, key) ==> Ref(key, Tools) !in ResolveTool(st, key, ttl, c).state.entries
  {
  }

  /** When a flagged session is lost, the next tools scan serves the slice that the
      notification was about, for as long as its TTL lasts. */
  lemma LostFlagServesStale(st: State, key: Key, ttl: nat, c: Circumstances)
    requires Exact(st, key) && Flagged(st, key) && c.openError.None?
    requires Hit(st, Ref(key, Tools), ttl, c.now).Some?
    ensures var d := FetchList(Lost(st, key), Ref(key, Tools), ttl, c);
            d.outcome.Cached? && d.outcome.entry.begun < Count(st, key)
  {
  }

  // ----- whose answer it is -----

  /** Every cached slice is what a fetch of the same list for the same server and user
      returned. */
  ghost predicate Owned(st: State) {
    forall r | r in st.entries :: Fetch(r, st.entries[r].items, st.entries[r].fetchedAt) in st.fetches
  }

  lemma StoredIsOwned(st: State, ref: Ref, items: seq<string>, ttl: nat, done: nat, begun: nat)
    requires Owned(st)
    ensures Owned(Stored(st, ref, items, ttl, done, begun))
  {
    var more := st.fetches + [Fetch(ref, items, done)];
    assert more[|st.fetches|] == Fetch(ref, items, done);
    assert forall f | f in st.fetches :: f in more;
  }

  lemma ScannedKeepsOwned(st: State, ref: Ref, ttl: nat, c: Circumstances)
    requires Owned(st)
    ensures Owned(Scanned(st, ref, ttl, c).state)
  {
    if ref.key in st.flags || c.openError.None? {
      var polled := Polled(Opened(st, ref.key), ref.key, ref.slice.Tools?);
      assert Owned(polled);
      var after := Observed(polled, ref.key, c.traffic.changes);
      forall items {
        StoredIsOwned(after, ref, items, ttl, c.done, Count(polled, ref.key));
      }
    }
  }

  lemma ResolvedKeepsOwned(st: State, key: Key, ttl: nat, c: Circumstances)
    requires Owned(st)
    ensures Owned(ResolvedTools(st, key, ttl, c).state)
  {
    if key in st.flags || c.openError.None? {
      var after := Observed(Opened(st, key), key, c.traffic.changes);
      forall items {
        StoredIsOwned(after, Ref(key, Tools), items, ttl, c.done, Count(st, key));
      }
    }
  }

  lemma WorkingKeepsOwned(st: State, a: Action)
    requires Owned(st)
    ensures Owned(Working(st, a).state)
  {
    match a {
      case Scan(ref, ttl, c) => ScannedKeepsOwned(st, ref, ttl, c);
      case Resolve(key, ttl, c) => ResolvedKeepsOwned(st, key, ttl, c);
      case _ =>
    }
  }

  lemma {:induction false} RunsKeepOwned(actions: seq<Action>)
    ensures Owned(Run(State(map[], map[], map[], []), actions))
  {
    if actions != [] {
      var init := actions[..|actions| - 1];
      RunsKeepOwned(init);
      WorkingKeepsOwned(Run(State(map[], map[], map[], []), init), actions[|actions| - 1]);
    }
  }

  /** In every run, a cached answer was fetched for the same server, user and list, and
      is younger than the caller's TTL; of a scan and of a per-tool table. */
  lemma CachedAnswersAreOwn(actions: seq<Action>, ref: Ref, ttl: nat, c: Circumstances)
    ensures var st := Run(State(map[], map[], map[], []), actions);
            var scan, resolve := FetchList(st, ref, ttl, c).outcome, ResolveTool(st, ref.key, ttl, c).outcome;
            && (scan.Cached? ==>
                  && Fetch(ref, scan.entry.items, scan.entry.fetchedAt) in st.fetches
                  && c.now < scan.entry.fetchedAt + ttl)
            && (resolve.Cached? ==>
                  && Fetch(Ref(ref.key, Tools), resolve.entry.items, resolve.entry.fetchedAt) in st.fetches
                  && c.now < resolve.entry.fetchedAt + ttl)
  {
    RunsKeepOwned(actions);
    var st := Run(State(map[], map[], map[], []), actions);
    ScansReturnTheReply(st, ref, ttl, c);
    if FetchList(st, ref, ttl, c).outcome.Cached? {
      ScanHitIsYoung(st, ref, ttl, c);
    }
  }

  lemma ScanHitIsYoung(st: State, ref: Ref, ttl: nat, c: Circumstances)
    requires FetchList(st, ref, ttl, c).outcome.Cached?
    ensures c.now < FetchList(st, ref, ttl, c).outcome.entry.fetchedAt + ttl
  {
  }

  /** A scan that is not served from the cache returns what the server sent, an unknown
      method reading as an empty list, and stores exactly that under its own key with
      the time it ended; one that is served from it asks the server nothing. */
  lemma ScansReturnTheReply(st: State, ref: Ref, ttl: nat, c: Circumstances)
    ensures var d := FetchList(st, ref, ttl, c);
            && (d.outcome.Fresh? ==>
                  && (c.traffic.reply == Items(d.outcome.items)
                      || (c.traffic.reply.MethodNotFound? && d.outcome.items == [] && !ref.slice.InitializeResult?))
                  && d.state.fetches == st.fetches + [Fetch(ref, d.outcome.items, c.done)]
                  && (ttl > 0 ==>
                        && ref in d.state.entries
                        && d.state.entries[ref] == Entry(c.done, d.outcome.items, Count(st, ref.key)))
                  && Count(d.state, ref.key) == Count(st, ref.key) + c.traffic.changes)
            && (d.outcome.Cached? ==>
                  ref in st.entries && d.outcome.entry == st.entries[ref] && d.state.fetches == st.fetches
                  && Count(d.state, ref.key) == Count(st, ref.key))
  {
  }

  /** A scan touches no other slice, except that it may drop its server's tools. */
  lemma ScansKeepOthers(st: State, ref: Ref, ttl: nat, c: Circumstances, r: Ref)
    requires r != ref && r != Ref(ref.key, Tools)
    ensures var d := FetchList(st, ref, ttl, c);
            (r in d.state.entries <==> r in st.entries) && (r in st.entries ==> d.state.entries[r] == st.entries[r])
  {
    if ref.key in st.flags || c.openError.None? {
      var polled := Polled(Opened(st, ref.key), ref.key, ref.slice.Tools?);
      assert (r in polled.entries <==> r in st.entries) && (r in st.entries ==> polled.entries[r] == st.entries[r]);
      FetchKeepsOthers(polled, ref, ttl, c, r);
    }
  }

  lemma FetchKeepsOthers(st: State, ref: Ref, ttl: nat, c: Circumstances, r: Ref)
    requires ref.key in st.flags && r != ref
    ensures var d := Fetched(st, ref, ttl, c);
            (r in d.state.entries <==> r in st.entries) && (r in st.entries ==> d.state.entries[r] == st.entries[r])
  {
  }

  /** `later` holds no slice that `st` does not. */
  ghost predicate NothingStored(st: State, later: State) {
    forall r | r in later.entries :: r in st.entries && later.entries[r] == st.entries[r]
  }

  lemma ScanStoresNothing(st: State, ref: Ref, ttl: nat, c: Circumstances)
    requires Scanned(st, ref, ttl, c).outcome.Raised? || ttl == 0
    ensures NothingStored(st, Scanned(st, ref, ttl, c).state)
  {
    var polled := Polled(Opened(st, ref.key), ref.key, ref.slice.Tools?);
    assert NothingStored(st, polled);
  }

  lemma ResolveStoresNothing(st: State, key: Key, ttl: nat, c: Circumstances)
    requires ResolvedTools(st, key, ttl, c).outcome.Raised? || ttl == 0
    ensures NothingStored(st, ResolvedTools(st, key, ttl, c).state)
  {
  }

  /** A failure stores nothing, and neither does anything under a TTL of 0. */
  lemma FailuresAreNotStored(st: State, a: Action)
    requires Working(st, a).outcome.Raised? || (a.Scan? && a.ttl == 0) || (a.Resolve? && a.ttl == 0)
    ensures NothingStored(st, Act(st, a).state)
  {
    match a {
      case Scan(ref, ttl, c) => ScanStoresNothing(st, ref, ttl, c);
      case Resolve(key, ttl, c) => ResolveStoresNothing(st, key, ttl, c);
      case _ =>
    }
  }
}
