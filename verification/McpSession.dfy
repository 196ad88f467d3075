/**
MCP sessions over HTTP (pg/pg_mcp/src/client.rs, `McpSession`) and the
per-backend session map (pg/pg_mcp/src/session.rs, `with_session`).  A request
whose session is gone re-initializes once and is sent again once.  The theorems
are about every run of a backend against a network that answers anything.
*/
module McpSession {
  import opened Options

  /** An error, whether it is a transport error, and whether its message says the
      session is unknown or expired. */
  datatype Error = Error(text: string, transport: bool, expired: bool)

  /** A decoded JSON-RPC envelope. */
  datatype Reply = Result(value: string) | Failure(error: Error)

  /** What became of one HTTP exchange.  Only a JSON reply carries a session header;
      a stream stands for the reply that reading it gave.  An interrupt cancels the
      statement before the request is sent or while its stream is read. */
  datatype Wire =
    | Json(reply: Reply, header: Option<string>)
    | Stream(reply: Reply)
    | Accepted
    | SessionGone
    | Broken(error: Error)
    | Interrupt

  /** The answer to each exchange of the backend, by its number. */
  type Script = nat -> Wire

  datatype Kind = Handshake | Initialized | Call(what: string)

  /** One exchange that was begun: the session that made it, the request id if it is a
      request, and the session header it carries.  An interrupted one may not have gone
      out. */
  datatype Sent = Sent(born: nat, kind: Kind, id: Option<nat>, header: Option<string>)

  /** A session; `born` is the number of exchanges made before it was opened. */
  datatype Session = Session(born: nat, url: string, nextId: nat, sessionId: Option<string>, initializeCount: nat)

  function TransportError(text: string): Error { Error(text, true, false) }

  // ----- one exchange -----

  /** How a statement's use of its session ends; a cancelled one unwinds at once. */
  datatype Outcome = Answered(value: string) | Raised(error: Error) | Cancelled

  datatype Shaken = Ready(header: Option<string>) | NotReady(why: Outcome)

  function HandshakeOf(w: Wire): (r: Shaken)
    ensures r.NotReady? ==> !r.why.Answered?
  {
    match w
    case Json(Result(_), header) => Ready(header)
    case Json(Failure(e), _) => NotReady(Raised(e))
    case Stream(Result(_)) => Ready(None)
    case Stream(Failure(e)) => NotReady(Raised(e))
    case Accepted => NotReady(Raised(TransportError("not answered")))
    case SessionGone => NotReady(Raised(TransportError("rejected as an unknown session")))
    case Broken(e) => NotReady(Raised(e))
    case Interrupt => NotReady(Cancelled)
  }

  datatype Verdict = Value(value: string) | Gone | Failed(error: Error) | Stopped

  /** A reply that says the session is gone is only recognized outside streams. */
  function Judged(w: Wire): Verdict {
    match w
    case Json(Result(v), _) => Value(v)
    case Json(Failure(e), _) => if e.expired then Gone else Failed(e)
    case Stream(Result(v)) => Value(v)
    case Stream(Failure(e)) => Failed(e)
    case Accepted => Failed(TransportError("accepted without an answer"))
    case SessionGone => Gone
    case Broken(e) => Failed(e)
    case Interrupt => Stopped
  }

  /** A notification only fails when it cannot be sent. */
  function NotifiedBy(w: Wire): Option<Outcome> {
    match w
    case Broken(e) => Some(Raised(e))
    case Interrupt => Some(Cancelled)
    case _ => None
  }

  // ----- the session's operations -----

  /** `ended` is how the step failed, if it did. */
  datatype Step = Step(session: Session, log: seq<Sent>, ended: Option<Outcome>)

  function Initialize(s: Session, log: seq<Sent>, script: Script): (st: Step)
    ensures st.ended.Some? ==> !st.ended.value.Answered?
  {
    var asked := log + [Sent(s.born, Handshake, Some(s.nextId), None)];
    match HandshakeOf(script(|log|))
    case NotReady(why) => Step(s.(nextId := s.nextId + 1), asked, Some(why))
    case Ready(header) =>
      Step(s.(nextId := s.nextId + 1, sessionId := header, initializeCount := s.initializeCount + 1),
           asked + [Sent(s.born, Initialized, None, header)],
           NotifiedBy(script(|asked|)))
  }

  datatype Tried = Tried(session: Session, log: seq<Sent>, verdict: Verdict)

  function TryRequest(s: Session, log: seq<Sent>, what: string, script: Script): Tried {
    Tried(s.(nextId := s.nextId + 1),
          log + [Sent(s.born, Call(what), Some(s.nextId), s.sessionId)],
          Judged(script(|log|)))
  }

  /** The outcome of a last try. */
  function OutcomeOf(v: Verdict): Outcome {
    match v
    case Value(value) => Answered(value)
    case Failed(e) => Raised(e)
    case Gone => Raised(TransportError("rejected twice"))
    case Stopped => Cancelled
  }

  datatype Exchange = Exchange(session: Session, log: seq<Sent>, outcome: Outcome)

  function Request(s: Session, log: seq<Sent>, what: string, script: Script): Exchange {
    var first := TryRequest(s, log, what, script);
    if !first.verdict.Gone? then Exchange(first.session, first.log, OutcomeOf(first.verdict))
    else
      var again := Initialize(first.session.(sessionId := None), first.log, script);
      if again.ended.Some? then Exchange(again.session, again.log, again.ended.value)
      else
        var second := TryRequest(again.session, again.log, what, script);
        Exchange(second.session, second.log, OutcomeOf(second.verdict))
  }

  /** The exchanges of this backend. */
  class Network {
    const script: Script
    var log: seq<Sent>

    constructor (script: Script)
      ensures this.script == script && log == []
    {
      this.script := script;
      log := [];
    }

    method Dispatch(sent: Sent) returns (w: Wire)
      modifies this
      ensures log == old(log) + [sent] && w == script(old(|log|))
    {
      w := script(|log|);
      log := log + [sent];
    }
  }

  class Client {
    const born: nat
    const url: string
    var nextId: nat
    var sessionId: Option<string>
    var initializeCount: nat

    function View(): Session
      reads this
    {
      Session(born, url, nextId, sessionId, initializeCount)
    }

    constructor (s: Session)
      ensures View() == s
    {
      born, url, nextId, sessionId, initializeCount := s.born, s.url, s.nextId, s.sessionId, s.initializeCount;
    }

    method TakeId() returns (id: nat)
      modifies this
      ensures id == old(nextId) && View() == old(View()).(nextId := id + 1)
    {
      id := nextId;
      nextId := nextId + 1;
    }

    method DoInitialize(net: Network) returns (ended: Option<Outcome>)
      modifies this, net
      ensures Step(View(), net.log, ended) == Initialize(old(View()), old(net.log), net.script)
    {
      var id := TakeId();
      var w := net.Dispatch(Sent(born, Handshake, Some(id), None));
      var shaken := HandshakeOf(w);
      if shaken.NotReady? {
        return Some(shaken.why);
      }
      sessionId := shaken.header;
      initializeCount := initializeCount + 1;
      w := net.Dispatch(Sent(born, Initialized, None, sessionId));
      ended := NotifiedBy(w);
    }

    method DoTryRequest(net: Network, what: string) returns (verdict: Verdict)
      modifies this, net
      ensures Tried(View(), net.log, verdict) == TryRequest(old(View()), old(net.log), what, net.script)
    {
      var id := TakeId();
      var w := net.Dispatch(Sent(born, Call(what), Some(id), sessionId));
      verdict := Judged(w);
    }

    method DoRequest(net: Network, what: string) returns (outcome: Outcome)
      modifies this, net
      ensures Exchange(View(), net.log, outcome) == Request(old(View()), old(net.log), what, net.script)
    {
      var verdict := DoTryRequest(net, what);
      if verdict.Gone? {
        sessionId := None;
        var ended := DoInitialize(net);
        if ended.Some? {
          return ended.value;
        }
        verdict := DoTryRequest(net, what);
      }
      outcome := OutcomeOf(verdict);
    }
  }

  // ----- the session map -----

  type Key = (nat, nat)

  function Fresh(born: nat, url: string): Session { Session(born, url, 1, None, 0) }

  /** What a statement does with its session: requests made in order until one does
      not answer, and what it makes of the last answer or error; it may also be
      cancelled between them. */
  datatype Work = Work(whats: seq<string>, conclude: Outcome -> Outcome)

  function Requests(s: Session, log: seq<Sent>, whats: seq<string>, last: Outcome, script: Script): Exchange
    decreases |whats|
  {
    if whats == [] || !last.Answered? then Exchange(s, log, last)
    else
      var e := Request(s, log, whats[0], script);
      Requests(e.session, e.log, whats[1..], e.outcome, script)
  }

  datatype Backend = Backend(sessions: map<Key, Session>, log: seq<Sent>)

  datatype Served = Served(backend: Backend, outcome: Outcome)

  /** The session a call runs on: the kept one when the URL is still the same, else a
      new one. */
  function Obtain(b: Backend, key: Key, url: string, script: Script): Step {
    if key in b.sessions && b.sessions[key].url == url then Step(b.sessions[key], b.log, None)
    else Initialize(Fresh(|b.log|, url), b.log, script)
  }

  /** A session is not put back after a transport error, nor when the statement was
      cancelled and unwound past that point. */
  predicate LosesSession(outcome: Outcome) { outcome.Cancelled? || (outcome.Raised? && outcome.error.transport) }

  /** A cancelled statement concludes nothing. */
  function Concluded(work: Work, last: Outcome): Outcome {
    if last.Cancelled? then Cancelled else work.conclude(last)
  }

  function WithSession(b: Backend, key: Key, url: string, work: Work, script: Script): Served {
    var others := b.sessions - {key};
    var got := Obtain(b, key, url, script);
    if got.ended.Some? then Served(Backend(others, got.log), got.ended.value)
    else
      var e := Requests(got.session, got.log, work.whats, Answered(""), script);
      var outcome := Concluded(work, e.outcome);
      Served(Backend(if LosesSession(outcome) then others else others[key := e.session], e.log), outcome)
  }

  class Sessions {
    const net: Network
    var sessions: map<Key, Session>

    function View(): Backend
      reads this, net
    {
      Backend(sessions, net.log)
    }

    constructor (net: Network)
      ensures this.net == net && sessions == map[]
    {
      this.net := net;
      sessions := map[];
    }

    method DoWithSession(key: Key, url: string, work: Work) returns (outcome: Outcome)
      modifies this, net
      ensures Served(View(), outcome) == WithSession(old(View()), key, url, work, net.script)
    {
      var client;
      if key in sessions && sessions[key].url == url {
        client := new Client(sessions[key]);
        sessions := sessions - {key};
      } else {
        client := new Client(Fresh(|net.log|, url));
        sessions := sessions - {key};
        var ended := client.DoInitialize(net);
        if ended.Some? {
          return ended.value;
        }
      }
      ghost var got := Obtain(old(View()), key, url, net.script);
      ghost var all := Requests(got.session, got.log, work.whats, Answered(""), net.script);
      var last, left := Answered(""), work.whats;
      while left != [] && last.Answered?
        invariant sessions == old(sessions) - {key}
        invariant Requests(client.View(), net.log, left, last, net.script) == all
        decreases |left|
      {
        last := client.DoRequest(net, left[0]);
        left := left[1..];
      }
      outcome := Concluded(work, last);
      if !LosesSession(outcome) {
        sessions := sessions[key := client.View()];
      }
    }

    method DropSession(key: Key) returns (dropped: bool)
      modifies this
      ensures dropped <==> key in old(sessions)
      ensures sessions == old(sessions) - {key}
    {
      dropped := key in sessions;
      sessions := sessions - {key};
    }
  }

  // ----- one request -----

  /** The exchanges a request makes at most: the call, a handshake, and the call again
      on the session that the handshake gave. */
  function Attempts(s: Session, what: string, header: Option<string>): seq<Sent> {
    [Sent(s.born, Call(what), Some(s.nextId), s.sessionId),
     Sent(s.born, Handshake, Some(s.nextId + 1), None),
     Sent(s.born, Initialized, None, header),
     Sent(s.born, Call(what), Some(s.nextId + 2), header)]
  }

  ghost predicate Shape(s: Session, log: seq<Sent>, what: string, script: Script, e: Exchange,
                        header: Option<string>, n: nat) {
    && 1 <= n <= 4 && e.log == log + Attempts(s, what, header)[..n]
    && (n > 1 <==> Judged(script(|log|)).Gone?)
    && (n == 1 ==> e.session == s.(nextId := s.nextId + 1))
    && (n == 2 ==> e.session == s.(nextId := s.nextId + 2, sessionId := None))
    && (n > 2 ==>
          e.session
          == s.(nextId := s.nextId + n - 1, sessionId := header, initializeCount := s.initializeCount + 1))
    && (n == 1 ==> e.outcome == OutcomeOf(Judged(script(|log|))))
    && (n == 2 || n == 3 ==> !e.outcome.Answered?)
    && (n == 4 ==> e.outcome == OutcomeOf(Judged(script(|log| + 3))))
  }

  /** One request re-initializes at most once and sends its method at most twice; the
      second time it carries the header of the new session. */
  lemma RequestShape(s: Session, log: seq<Sent>, what: string, script: Script) returns (header: Option<string>, n: nat)
    ensures Shape(s, log, what, script, Request(s, log, what, script), header, n)
  {
    var w := HandshakeOf(script(|log| + 1));
    header := if w.Ready? then w.header else None;
    var all := Attempts(s, what, header);
    assert all[..1] == [all[0]] && all[..2] == [all[0], all[1]];
    assert all[..3] == [all[0], all[1], all[2]] && all[..4] == all;
    var e := Request(s, log, what, script);
    n := |e.log| - |log|;
    if n == 1 {
      assert e.log == log + all[..1];
    } else if n == 2 {
      assert e.log == log + all[..2];
    } else if n == 3 {
      assert e.log == log + all[..3];
    } else {
      assert e.log == log + all;
    }
  }

  // ----- ids -----

  /** The ids of each session's requests increase strictly. */
  ghost predicate Ordered(log: seq<Sent>) {
    forall i, j | 0 <= i < j < |log| && log[i].born == log[j].born && log[i].id.Some? && log[j].id.Some? ::
      log[i].id.value < log[j].id.value
  }

  ghost predicate Below(log: seq<Sent>, born: nat, n: nat) {
    forall i | 0 <= i < |log| && log[i].born == born && log[i].id.Some? :: log[i].id.value < n
  }

  ghost predicate BornBefore(log: seq<Sent>) {
    forall i | 0 <= i < |log| :: log[i].born <= i
  }

  ghost predicate SessionInv(s: Session, log: seq<Sent>) {
    Ordered(log) && BornBefore(log) && Below(log, s.born, s.nextId) && s.born <= |log|
  }

  /** Everything that `longer` adds was sent by the session born at `born`. */
  ghost predicate OnlyBy(log: seq<Sent>, longer: seq<Sent>, born: nat) {
    log <= longer && forall i | |log| <= i < |longer| :: longer[i].born == born
  }

  lemma SendKeeps(s: Session, log: seq<Sent>, x: Sent, next: Session)
    requires SessionInv(s, log) && x.born == s.born == next.born
    requires x.id.None? ==> next.nextId == s.nextId
    requires x.id.Some? ==> x.id.value == s.nextId && next.nextId == s.nextId + 1
    ensures SessionInv(next, log + [x]) && OnlyBy(log, log + [x], s.born)
  {
    var more := log + [x];
    assert more[|log|] == x && forall i | 0 <= i < |log| :: more[i] == log[i];
  }

  lemma OnlyByTrans(a: seq<Sent>, b: seq<Sent>, c: seq<Sent>, born: nat)
    requires OnlyBy(a, b, born) && OnlyBy(b, c, born)
    ensures OnlyBy(a, c, born)
  {
    assert forall i | |a| <= i < |b| :: c[i] == b[i];
  }

  lemma InitializeKeeps(s: Session, log: seq<Sent>, script: Script)
    requires SessionInv(s, log)
    ensures var st := Initialize(s, log, script);
            && SessionInv(st.session, st.log) && OnlyBy(log, st.log, s.born) && |st.log| > |log|
            && st.session.born == s.born && st.session.url == s.url
            && (st.ended.None? ==> st.session.initializeCount == s.initializeCount + 1)
  {
    var st := Initialize(s, log, script);
    var x, asked := Sent(s.born, Handshake, Some(s.nextId), None), s.(nextId := s.nextId + 1);
    SendKeeps(s, log, x, asked);
    if |st.log| == |log| + 2 {
      SendKeeps(asked, log + [x], st.log[|log| + 1], st.session);
      OnlyByTrans(log, log + [x], st.log, s.born);
    }
  }

  lemma TryKeeps(s: Session, log: seq<Sent>, what: string, script: Script)
    requires SessionInv(s, log)
    ensures var t := TryRequest(s, log, what, script);
            SessionInv(t.session, t.log) && OnlyBy(log, t.log, s.born) && t.session.born == s.born
  {
    var t := TryRequest(s, log, what, script);
    SendKeeps(s, log, t.log[|log|], t.session);
  }

  lemma RequestKeeps(s: Session, log: seq<Sent>, what: string, script: Script)
    requires SessionInv(s, log)
    ensures var e := Request(s, log, what, script);
            && SessionInv(e.session, e.log) && OnlyBy(log, e.log, s.born)
            && e.session.born == s.born && e.session.url == s.url && e.session.initializeCount >= s.initializeCount
  {
    var first := TryRequest(s, log, what, script);
    TryKeeps(s, log, what, script);
    if first.verdict.Gone? {
      var s1 := first.session.(sessionId := None);
      assert SessionInv(s1, first.log);
      var again := Initialize(s1, first.log, script);
      InitializeKeeps(s1, first.log, script);
      OnlyByTrans(log, first.log, again.log, s.born);
      if again.ended.None? {
        TryKeeps(again.session, again.log, what, script);
        OnlyByTrans(log, again.log, TryRequest(again.session, again.log, what, script).log, s.born);
      }
    }
  }

  lemma {:induction false} RequestsKeep(s: Session, log: seq<Sent>, whats: seq<string>, last: Outcome, script: Script)
    requires SessionInv(s, log)
    ensures var e := Requests(s, log, whats, last, script);
            && SessionInv(e.session, e.log) && OnlyBy(log, e.log, s.born)
            && e.session.born == s.born && e.session.url == s.url && e.session.initializeCount >= s.initializeCount
    decreases |whats|
  {
    if whats != [] && last.Answered? {
      var e := Request(s, log, whats[0], script);
      RequestKeeps(s, log, whats[0], script);
      RequestsKeep(e.session, e.log, whats[1..], e.outcome, script);
      OnlyByTrans(log, e.log, Requests(e.session, e.log, whats[1..], e.outcome, script).log, s.born);
    }
  }

  // ----- runs of a backend -----

  ghost predicate Inv(b: Backend) {
    && Ordered(b.log) && BornBefore(b.log)
    && (forall k | k in b.sessions ::
          && b.sessions[k].born < |b.log| && Below(b.log, b.sessions[k].born, b.sessions[k].nextId)
          && b.sessions[k].initializeCount >= 1)
    && (forall k, l | k in b.sessions && l in b.sessions && k != l :: b.sessions[k].born != b.sessions[l].born)
  }

  datatype Action = Use(key: Key, url: string, work: Work) | Forget(key: Key)

  function Act(b: Backend, a: Action, script: Script): Backend {
    match a
    case Use(key, url, work) => WithSession(b, key, url, work, script).backend
    case Forget(key) => b.(sessions := b.sessions - {key})
  }

  function Run(b: Backend, actions: seq<Action>, script: Script): Backend {
    if actions == [] then b else Act(Run(b, actions[..|actions| - 1], script), actions[|actions| - 1], script)
  }

  lemma ObtainKeeps(b: Backend, key: Key, url: string, script: Script)
    requires Inv(b)
    ensures var got := Obtain(b, key, url, script);
            && SessionInv(got.session, got.log) && OnlyBy(b.log, got.log, got.session.born)
            && got.session.born < |got.log| && got.session.url == url
            && (got.ended.None? ==> got.session.initializeCount >= 1)
            && (forall k | k in b.sessions && k != key :: b.sessions[k].born != got.session.born)
  {
    if !(key in b.sessions && b.sessions[key].url == url) {
      InitializeKeeps(Fresh(|b.log|, url), b.log, script);
    }
  }

  /** Sessions that sent nothing keep their place. */
  lemma OthersKeep(b: Backend, log: seq<Sent>, born: nat, k: Key)
    requires Inv(b) && OnlyBy(b.log, log, born) && k in b.sessions && b.sessions[k].born != born
    ensures b.sessions[k].born < |log| && Below(log, b.sessions[k].born, b.sessions[k].nextId)
  {
    forall i | 0 <= i < |log| && log[i].born == b.sessions[k].born && log[i].id.Some?
      ensures log[i].id.value < b.sessions[k].nextId
    {
      assert i < |b.log| && log[i] == b.log[i];
    }
  }

  lemma StoreKeepsInv(b: Backend, key: Key, s: Session, log: seq<Sent>, keep: bool)
    requires Inv(b) && SessionInv(s, log) && OnlyBy(b.log, log, s.born) && s.born < |log| && s.initializeCount >= 1
    requires forall k | k in b.sessions && k != key :: b.sessions[k].born != s.born
    ensures var others := b.sessions - {key};
            Inv(Backend(if keep then others[key := s] else others, log))
  {
    forall k | k in b.sessions && k != key
      ensures b.sessions[k].born < |log| && Below(log, b.sessions[k].born, b.sessions[k].nextId)
    {
      OthersKeep(b, log, s.born, k);
    }
  }

  lemma FailedOpenKeepsInv(b: Backend, key: Key, s: Session, log: seq<Sent>)
    requires Inv(b) && SessionInv(s, log) && OnlyBy(b.log, log, s.born)
    requires forall k | k in b.sessions && k != key :: b.sessions[k].born != s.born
    ensures Inv(Backend(b.sessions - {key}, log))
  {
    forall k | k in b.sessions && k != key
      ensures b.sessions[k].born < |log| && Below(log, b.sessions[k].born, b.sessions[k].nextId)
    {
      OthersKeep(b, log, s.born, k);
    }
  }

  lemma ActKeepsInv(b: Backend, a: Action, script: Script)
    requires Inv(b)
    ensures Inv(Act(b, a, script)) && b.log <= Act(b, a, script).log
  {
    if a.Use? {
      var got := Obtain(b, a.key, a.url, script);
      ObtainKeeps(b, a.key, a.url, script);
      if got.ended.Some? {
        FailedOpenKeepsInv(b, a.key, got.session, got.log);
      } else {
        var e := Requests(got.session, got.log, a.work.whats, Answered(""), script);
        RequestsKeep(got.session, got.log, a.work.whats, Answered(""), script);
        OnlyByTrans(b.log, got.log, e.log, got.session.born);
        StoreKeepsInv(b, a.key, e.session, e.log, !LosesSession(Concluded(a.work, e.outcome)));
      }
    }
  }

  /** Over every run of a backend, against any network, the ids that a session sends
      increase strictly. */
  lemma {:induction false} RunsKeepIdsOrdered(actions: seq<Action>, script: Script)
    ensures Inv(Run(Backend(map[], []), actions, script))
    ensures Ordered(Run(Backend(map[], []), actions, script).log)
  {
    if actions != [] {
      RunsKeepIdsOrdered(actions[..|actions| - 1], script);
      ActKeepsInv(Run(Backend(map[], []), actions[..|actions| - 1], script), actions[|actions| - 1], script);
    }
  }

  lemma {:induction false} RequestsSameSession(s: Session, log: seq<Sent>, whats: seq<string>, last: Outcome,
                                               script: Script)
    ensures var e := Requests(s, log, whats, last, script);
            e.session.born == s.born && e.session.url == s.url && e.session.nextId >= s.nextId
    decreases |whats|
  {
    if whats != [] && last.Answered? {
      var e := Request(s, log, whats[0], script);
      RequestsSameSession(e.session, e.log, whats[1..], e.outcome, script);
    }
  }

  /** A session is in the map afterwards exactly when there was one to run on, the
      outcome is not a transport error and the statement was not cancelled; it is then
      that session, on the asked URL.  Other sessions stay as they were. */
  lemma KeptIff(b: Backend, key: Key, url: string, work: Work, script: Script)
    ensures var r, got := WithSession(b, key, url, work, script), Obtain(b, key, url, script);
            && (key in r.backend.sessions <==> got.ended.None? && !LosesSession(r.outcome))
            && (key in r.backend.sessions ==>
                  && r.backend.sessions[key].born == got.session.born && r.backend.sessions[key].url == url
                  && r.backend.sessions[key].nextId >= got.session.nextId)
            && (forall k | k != key :: (k in r.backend.sessions <==> k in b.sessions)
                                       && (k in b.sessions ==> r.backend.sessions[k] == b.sessions[k]))
  {
    var got := Obtain(b, key, url, script);
    RequestsSameSession(got.session, got.log, work.whats, Answered(""), script);
  }

  // ----- one handshake for many calls -----

  function Handshakes(log: seq<Sent>): nat {
    if log == [] then 0 else Handshakes(log[..|log| - 1]) + if log[|log| - 1].kind.Handshake? then 1 else 0
  }

  /** No reply from exchange `from` up to `to` says that the session is gone. */
  ghost predicate Quiet(script: Script, from: nat, to: nat) {
    forall n | from <= n < to :: !Judged(script(n)).Gone?
  }

  lemma RequestQuiet(s: Session, log: seq<Sent>, what: string, script: Script)
    requires Quiet(script, |log|, |Request(s, log, what, script).log|)
    ensures var e := Request(s, log, what, script);
            && e.session == s.(nextId := s.nextId + 1) && |e.log| == |log| + 1 && Handshakes(e.log) == Handshakes(log)
  {
    var e := Request(s, log, what, script);
    assert |e.log| > |log|;
    assert e.log[..|log|] == log;
  }

  lemma {:induction false} RequestsGrow(s: Session, log: seq<Sent>, whats: seq<string>, last: Outcome, script: Script)
    ensures |log| <= |Requests(s, log, whats, last, script).log|
    decreases |whats|
  {
    if whats != [] && last.Answered? {
      var e := Request(s, log, whats[0], script);
      RequestsGrow(e.session, e.log, whats[1..], e.outcome, script);
    }
  }

  lemma {:induction false} RequestsQuiet(s: Session, log: seq<Sent>, whats: seq<string>, last: Outcome, script: Script)
    requires Quiet(script, |log|, |Requests(s, log, whats, last, script).log|)
    ensures var e := Requests(s, log, whats, last, script);
            && e.session.initializeCount == s.initializeCount && e.session.url == s.url && e.session.born == s.born
            && Handshakes(e.log) == Handshakes(log)
    decreases |whats|
  {
    if whats != [] && last.Answered? {
      var e := Request(s, log, whats[0], script);
      RequestsGrow(e.session, e.log, whats[1..], e.outcome, script);
      RequestQuiet(s, log, whats[0], script);
      RequestsQuiet(e.session, e.log, whats[1..], e.outcome, script);
    }
  }

  lemma OpenCounts(s: Session, log: seq<Sent>, script: Script)
    requires Initialize(s, log, script).ended.None?
    ensures var st := Initialize(s, log, script);
            && Handshakes(st.log) == Handshakes(log) + 1 && st.session.initializeCount == s.initializeCount + 1
            && |log| <= |st.log|
  {
    var st, asked := Initialize(s, log, script), log + [Sent(s.born, Handshake, Some(s.nextId), None)];
    assert asked[..|log|] == log;
    assert st.log[..|asked|] == asked;
  }

  lemma UseGrows(b: Backend, key: Key, url: string, work: Work, script: Script)
    ensures |b.log| <= |WithSession(b, key, url, work, script).backend.log|
  {
    var got := Obtain(b, key, url, script);
    if got.ended.None? {
      RequestsGrow(got.session, got.log, work.whats, Answered(""), script);
    }
  }

  ghost predicate AllInitializedOnce(b: Backend) {
    forall k | k in b.sessions :: b.sessions[k].initializeCount == 1
  }

  lemma ActGrows(b: Backend, a: Action, script: Script)
    ensures |b.log| <= |Act(b, a, script).log|
  {
    if a.Use? {
      UseGrows(b, a.key, a.url, a.work, script);
    }
  }

  lemma ActInitializesOnce(b: Backend, a: Action, script: Script)
    requires AllInitializedOnce(b) && Quiet(script, |b.log|, |Act(b, a, script).log|)
    ensures AllInitializedOnce(Act(b, a, script))
  {
    if a.Use? {
      var got := Obtain(b, a.key, a.url, script);
      if got.ended.None? {
        if !(a.key in b.sessions && b.sessions[a.key].url == a.url) {
          OpenCounts(Fresh(|b.log|, a.url), b.log, script);
        }
        RequestsGrow(got.session, got.log, a.work.whats, Answered(""), script);
        RequestsQuiet(got.session, got.log, a.work.whats, Answered(""), script);
      }
    }
  }

  /** Over every run of a backend, with any keys, URLs, drops, cancels, failures and
      transport errors: if no reply says that a session is gone, every session in the map was
      initialized exactly once. */
  lemma {:induction false} QuietRunsInitializeOnce(actions: seq<Action>, script: Script)
    requires Quiet(script, 0, |Run(Backend(map[], []), actions, script).log|)
    ensures AllInitializedOnce(Run(Backend(map[], []), actions, script))
  {
    if actions != [] {
      var init, a := actions[..|actions| - 1], actions[|actions| - 1];
      var before := Run(Backend(map[], []), init, script);
      ActGrows(before, a, script);
      QuietRunsInitializeOnce(init, script);
      ActInitializesOnce(before, a, script);
    }
  }

  /** A backend that has exactly one session for `key`, opened once. */
  ghost predicate OpenedOnce(b: Backend, key: Key, url: string) {
    key in b.sessions && b.sessions[key].url == url && b.sessions[key].initializeCount == 1 && Handshakes(b.log) == 1
  }

  lemma FirstUse(key: Key, url: string, work: Work, script: Script)
    requires var b := WithSession(Backend(map[], []), key, url, work, script).backend;
             key in b.sessions && Quiet(script, 0, |b.log|)
    ensures OpenedOnce(WithSession(Backend(map[], []), key, url, work, script).backend, key, url)
  {
    var got := Obtain(Backend(map[], []), key, url, script);
    OpenCounts(Fresh(0, url), [], script);
    RequestsGrow(got.session, got.log, work.whats, Answered(""), script);
    RequestsQuiet(got.session, got.log, work.whats, Answered(""), script);
  }

  lemma NextUse(b: Backend, key: Key, url: string, work: Work, script: Script)
    requires OpenedOnce(b, key, url)
    requires var r := WithSession(b, key, url, work, script);
             !LosesSession(r.outcome) && Quiet(script, |b.log|, |r.backend.log|)
    ensures OpenedOnce(WithSession(b, key, url, work, script).backend, key, url)
    ensures |b.log| <= |WithSession(b, key, url, work, script).backend.log|
  {
    RequestsGrow(b.sessions[key], b.log, work.whats, Answered(""), script);
    RequestsQuiet(b.sessions[key], b.log, work.whats, Answered(""), script);
  }

  function Uses(b: Backend, key: Key, url: string, works: seq<Work>, script: Script): Backend
    decreases |works|
  {
    if works == [] then b
    else Uses(WithSession(b, key, url, works[0], script).backend, key, url, works[1..], script)
  }

  ghost predicate SessionsKept(b: Backend, key: Key, url: string, works: seq<Work>, script: Script)
    decreases |works|
  {
    works != [] ==>
      var r := WithSession(b, key, url, works[0], script);
      !LosesSession(r.outcome) && SessionsKept(r.backend, key, url, works[1..], script)
  }

  lemma {:induction false} UsesGrow(b: Backend, key: Key, url: string, works: seq<Work>, script: Script)
    ensures |b.log| <= |Uses(b, key, url, works, script).log|
    decreases |works|
  {
    if works != [] {
      UseGrows(b, key, url, works[0], script);
      UsesGrow(WithSession(b, key, url, works[0], script).backend, key, url, works[1..], script);
    }
  }

  lemma {:induction false} LaterUses(b: Backend, key: Key, url: string, works: seq<Work>, script: Script)
    requires OpenedOnce(b, key, url) && SessionsKept(b, key, url, works, script)
    requires Quiet(script, |b.log|, |Uses(b, key, url, works, script).log|)
    ensures OpenedOnce(Uses(b, key, url, works, script), key, url)
    decreases |works|
  {
    if works != [] {
      var next := WithSession(b, key, url, works[0], script).backend;
      UsesGrow(next, key, url, works[1..], script);
      NextUse(b, key, url, works[0], script);
      LaterUses(next, key, url, works[1..], script);
    }
  }

  /** Any number of calls share one handshake: once the first has a session, and as
      long as no outcome is a transport error, no call is cancelled and no reply says
      that the session is gone, exactly one handshake is made in all. */
  lemma OneHandshakeForManyCalls(key: Key, url: string, works: seq<Work>, script: Script)
    requires works != []
    requires var first := WithSession(Backend(map[], []), key, url, works[0], script).backend;
             key in first.sessions && SessionsKept(first, key, url, works[1..], script)
    requires Quiet(script, 0, |Uses(Backend(map[], []), key, url, works, script).log|)
    ensures OpenedOnce(Uses(Backend(map[], []), key, url, works, script), key, url)
  {
    var first := WithSession(Backend(map[], []), key, url, works[0], script).backend;
    UsesGrow(first, key, url, works[1..], script);
    FirstUse(key, url, works[0], script);
    LaterUses(first, key, url, works[1..], script);
  }
}
