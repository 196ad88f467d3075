/**
The mount's connection to the VFS socket (fuse/client.go): dial, authenticate,
send a framed request, read frames until the answer to it arrives, and retry
once on a fresh connection after a transport failure.  The network is a list
of things that may happen next, chosen in advance by nobody in particular:
dials and writes may fail, answers may come late, twice or never, and frames
that answer nothing, under any id, may come between them.  A timeout falls
between frames.
*/
module VfsClient {
  import opened Options
  import opened FileOps

  /** `size` is the length of the encoded request body. */
  datatype Request = Request(verb: string, params: string, size: nat)

  const AUTH := "vfs/auth"
  const MAX_FRAME_SIZE: nat := 16 * 1024 * 1024

  /** A request as it went out: on which connection, under which id. */
  datatype Sent = Sent(conn: nat, id: nat, req: Request)

  /** What a response says: refused with an error, or a result (for the handshake:
      whether it authenticated, for others whether its payload decodes). */
  datatype Verdict = Refused(errno: Errno) | Result(good: bool)

  /** A response frame, with the request it answers; a foreign frame answers none. */
  datatype Response = Response(to: Option<Sent>, verdict: Verdict)

  datatype Net =
    | Dials
    | DialFails(errno: Errno)
    | Writes
    | Answers(k: nat, verdict: Verdict) // the server answers the k-th request it was sent
    | Foreign(id: nat, verdict: Verdict) // a frame that answers nothing; a missing id decodes to 0
    | Breaks(errno: Errno)              // a timeout, a closed connection or a bad frame

  /** The largest id used so far on connection `c`. */
  function MaxId(log: seq<Sent>, c: nat): nat {
    if log == [] then 0
    else
      var x, m := log[|log| - 1], MaxId(log[..|log| - 1], c);
      if x.conn == c && x.id > m then x.id else m
  }

  /** A handshake that was answered: its place in the log, the response, and the place
      of that frame in what the network sent. */
  datatype Welcome = Welcome(at: nat, resp: Response, frame: nat)

  /** Each request took a larger id than all before it on its connection, and all but
      handshakes went out after the handshake of their connection was answered. */
  ghost predicate WellSent(log: seq<Sent>, dialed: nat, authed: map<nat, Welcome>) {
    log != [] ==>
      var init, x := log[..|log| - 1], log[|log| - 1];
      && WellSent(init, dialed, authed)
      && x.conn < dialed && MaxId(init, x.conn) < x.id
      && (x.req.verb == AUTH || (x.conn in authed && authed[x.conn].at < |init|))
  }

  lemma {:induction false} MaxIdBounds(log: seq<Sent>, i: nat)
    requires i < |log|
    ensures log[i].id <= MaxId(log, log[i].conn)
  {
    if i < |log| - 1 {
      MaxIdBounds(log[..|log| - 1], i);
    }
  }

  /** Ids increase along each connection. */
  lemma {:induction false} WellSentMeans(log: seq<Sent>, dialed: nat, authed: map<nat, Welcome>, i: nat, j: nat)
    requires WellSent(log, dialed, authed) && i < j < |log|
    ensures log[i].conn == log[j].conn ==> log[i].id < log[j].id
  {
    var init := log[..|log| - 1];
    if j < |log| - 1 {
      WellSentMeans(init, dialed, authed, i, j);
    } else {
      MaxIdBounds(init, i);
    }
  }

  /** Every request but a handshake went out after the answered handshake of its
      connection. */
  lemma {:induction false} RequestsFollowHandshake(log: seq<Sent>, dialed: nat, authed: map<nat, Welcome>, j: nat)
    requires WellSent(log, dialed, authed) && j < |log| && log[j].req.verb != AUTH
    ensures log[j].conn in authed && authed[log[j].conn].at < j
  {
    if j < |log| - 1 {
      RequestsFollowHandshake(log[..|log| - 1], dialed, authed, j);
    }
  }

  lemma {:induction false} WellSentGrows(log: seq<Sent>, dialed: nat, authed: map<nat, Welcome>, dialed': nat,
                                         authed': map<nat, Welcome>)
    requires WellSent(log, dialed, authed) && dialed <= dialed'
    requires forall c | c in authed :: c in authed' && authed'[c] == authed[c]
    ensures WellSent(log, dialed', authed')
  {
    if log != [] {
      WellSentGrows(log[..|log| - 1], dialed, authed, dialed', authed');
    }
  }

  lemma {:induction false} NewConnUnused(log: seq<Sent>, dialed: nat, authed: map<nat, Welcome>, c: nat)
    requires WellSent(log, dialed, authed) && dialed <= c
    ensures MaxId(log, c) == 0
  {
    if log != [] {
      NewConnUnused(log[..|log| - 1], dialed, authed, c);
    }
  }

  lemma WellSentAppend(log: seq<Sent>, dialed: nat, authed: map<nat, Welcome>, x: Sent)
    requires WellSent(log, dialed, authed) && x.conn < dialed && MaxId(log, x.conn) < x.id
    requires x.req.verb == AUTH || (x.conn in authed && authed[x.conn].at < |log|)
    ensures WellSent(log + [x], dialed, authed) && MaxId(log + [x], x.conn) == x.id
  {
    assert (log + [x])[..|log|] == log;
  }

  /** Connection `c` counts as authenticated by `w`: a handshake went out on it and a
      good result came under its id, from the server unless that frame was foreign. */
  ghost predicate Accepts(w: Welcome, log: seq<Sent>, c: nat, all: seq<Net>) {
    && w.at < |log| && log[w.at].conn == c && log[w.at].req.verb == AUTH && w.resp.verdict == Result(true)
    && w.frame < |all|
    && (!all[w.frame].Foreign? ==> w.resp.to == Some(log[w.at]))
    && (all[w.frame].Foreign? ==> w.resp.to == None && all[w.frame].id == log[w.at].id)
  }

  // ----- waiting for an answer -----

  datatype Frame = Got(id: nat, resp: Response) | Skipped | Broken(errno: Errno)

  /** What the client reads off connection `c` for one thing that happens. */
  function FrameOf(n: Net, log: seq<Sent>, c: nat): Frame {
    match n
    case Answers(k, verdict) =>
      if k < |log| && log[k].conn == c then Got(log[k].id, Response(Some(log[k]), verdict)) else Skipped
    case Foreign(id, verdict) => Got(id, Response(None, verdict))
    case Breaks(e) => Broken(e)
    case _ => Broken(EIO)
  }

  /** What a wait returns, and how far the network has come. */
  datatype Wait = Wait(resp: Outcome<Response>, pos: nat)

  /** The first frame under `id` from `pos` on, whatever else comes before it. */
  function Awaited(all: seq<Net>, pos: nat, log: seq<Sent>, c: nat, id: nat): (w: Wait)
    requires pos <= |all|
    ensures pos <= w.pos <= |all|
    decreases |all| - pos
  {
    if pos == |all| then Wait(Err(ESTALE), pos)
    else
      match FrameOf(all[pos], log, c)
      case Broken(e) => Wait(Err(e), pos + 1)
      case Skipped => Awaited(all, pos + 1, log, c, id)
      case Got(i, resp) => if i == id then Wait(Ok(resp), pos + 1) else Awaited(all, pos + 1, log, c, id)
  }

  /** `resp`, read from `frame`, is the answer to `last`, unless the frame was foreign,
      under its id. */
  ghost predicate Taken(frame: Net, resp: Response, last: Sent) {
    && (resp.to == Some(last) <==> !frame.Foreign?)
    && (frame.Foreign? ==> resp.to == None && frame.id == last.id)
  }

  /** A foreign frame under `id` comes from `pos` on, before `end`. */
  ghost predicate ForeignUnder(all: seq<Net>, pos: nat, end: nat, id: nat)
    requires end <= |all|
  {
    exists i | pos <= i < end :: all[i].Foreign? && all[i].id == id
  }

  /** An answer under the id of the last request answers that request, as ids are
      unique on a connection. */
  lemma OwnIdIsLast(log: seq<Sent>, dialed: nat, authed: map<nat, Welcome>, k: nat)
    requires WellSent(log, dialed, authed) && k < |log|
    requires log[k].conn == log[|log| - 1].conn && log[k].id == log[|log| - 1].id
    ensures log[k] == log[|log| - 1]
  {
    if k < |log| - 1 {
      WellSentMeans(log, dialed, authed, k, |log| - 1);
    }
  }

  /** What is accepted for the last request is the server's answer to it if and only if
      no foreign frame read on the way carried its id; the one that did is then the
      last one read. */
  lemma {:induction false} AwaitedOwnIff(all: seq<Net>, pos: nat, log: seq<Sent>, dialed: nat,
                                         authed: map<nat, Welcome>)
    requires pos <= |all| && WellSent(log, dialed, authed) && log != []
    requires Awaited(all, pos, log, log[|log| - 1].conn, log[|log| - 1].id).resp.Ok?
    ensures var last := log[|log| - 1];
            var w := Awaited(all, pos, log, last.conn, last.id);
            && pos < w.pos && Taken(all[w.pos - 1], w.resp.value, last)
            && (w.resp.value.to == Some(last) <==> !ForeignUnder(all, pos, w.pos, last.id))
    decreases |all| - pos
  {
    var last := log[|log| - 1];
    var f := FrameOf(all[pos], log, last.conn);
    if f.Got? && f.id == last.id {
      if all[pos].Answers? {
        OwnIdIsLast(log, dialed, authed, all[pos].k);
      }
    } else {
      AwaitedOwnIff(all, pos + 1, log, dialed, authed);
    }
  }

  /** The failing input: any foreign frame under the awaited id is taken for the answer. */
  lemma ForeignFrameIsTaken(all: seq<Net>, pos: nat, log: seq<Sent>, c: nat)
    requires pos < |all| && all[pos].Foreign?
    ensures Awaited(all, pos, log, c, all[pos].id) == Wait(Ok(Response(None, all[pos].verdict)), pos + 1)
  {
  }

  // ----- what a call sends -----

  /** Between two moments only handshakes and `req` went out. */
  ghost predicate SentFor(start: seq<Sent>, end: seq<Sent>, req: Request) {
    start <= end && forall i | |start| <= i < |end| :: end[i].req.verb == AUTH || end[i].req == req
  }

  /** `resp` answers `req` as sent last, and that was after `start`. */
  ghost predicate OwnAnswer(start: seq<Sent>, end: seq<Sent>, req: Request, resp: Response) {
    |start| < |end| && resp.to == Some(end[|end| - 1]) && end[|end| - 1].req == req
  }

  /** `resp` answers `req`, or nothing at all. */
  ghost predicate AnswersCall(resp: Response, req: Request) {
    resp.to.Some? ==> resp.to.value.req == req
  }

  /** How often `req` was sent. */
  function SendCount(log: seq<Sent>, req: Request): nat {
    if log == [] then 0 else SendCount(log[..|log| - 1], req) + if log[|log| - 1].req == req then 1 else 0
  }

  /** Sending only handshakes does not count towards `req`. */
  lemma {:induction false} OnlyHandshakes(start: seq<Sent>, end: seq<Sent>, req: Request)
    requires start <= end && req.verb != AUTH
    requires forall i | |start| <= i < |end| :: end[i].req.verb == AUTH
    ensures SendCount(end, req) == SendCount(start, req)
    decreases |end|
  {
    if |start| < |end| {
      OnlyHandshakes(start, end[..|end| - 1], req);
    } else {
      assert start == end;
    }
  }

  /** One more `req` at most. */
  lemma OneMore(start: seq<Sent>, mid: seq<Sent>, end: seq<Sent>, req: Request)
    requires SentFor(start, mid, req) && mid <= end && |end| <= |mid| + 1
    requires |mid| < |end| ==> end[|mid|].req == req
    ensures SentFor(start, end, req) && SendCount(end, req) <= SendCount(mid, req) + 1
  {
    if |mid| < |end| {
      assert end[..|end| - 1] == mid;
    } else {
      assert mid == end;
    }
  }

  class Client {
    const apiKey: string
    var conn: Option<nat>
    var nextID: nat

    // The network as this client meets it: all that happens and how far it has
    // come, how many connections were opened, every request sent, and for each
    // connection whose handshake was answered, that response.
    var dialed: nat
    var log: seq<Sent>
    const all: seq<Net>
    var pos: nat
    ghost var authed: map<nat, Welcome>

    /** The log is well sent, only the newest connection is ever in use, and every
        connection counted as authenticated has an answered handshake. */
    ghost predicate Sound()
      reads this
    {
      && pos <= |all|
      && WellSent(log, dialed, authed)
      && (forall c | c in authed :: c < dialed && Accepts(authed[c], log, c, all) && authed[c].frame < pos)
      && (conn.Some? ==> conn.value + 1 == dialed && MaxId(log, conn.value) <= nextID)
    }

    /** `Sound`, and the connection at hand is authenticated. */
    ghost predicate Ready()
      reads this
    {
      Sound() && (conn.Some? ==> conn.value in authed)
    }

    constructor (apiKey: string, all: seq<Net>)
      ensures Ready() && log == [] && this.all == all && pos == 0
    {
      this.apiKey, conn, nextID, this.all, pos, dialed := apiKey, None, 0, all, 0, 0;
      log, authed := [], map[];
    }

    method Happens() returns (n: Net)
      requires pos <= |all|
      modifies this`pos
      ensures old(pos) <= pos <= |all|
      ensures old(pos) == |all| ==> pos == |all| && n == Breaks(ESTALE)
      ensures old(pos) < |all| ==> pos == old(pos) + 1 && n == all[old(pos)]
    {
      if pos == |all| {
        return Breaks(ESTALE);
      }
      n, pos := all[pos], pos + 1;
    }

    /** One frame from the connection. */
    method ReadFrame() returns (frame: Frame)
      requires conn.Some? && pos <= |all|
      modifies this`pos
      ensures old(pos) == |all| ==> pos == |all| && frame == Broken(ESTALE)
      ensures old(pos) < |all| ==> pos == old(pos) + 1 && frame == FrameOf(all[old(pos)], log, conn.value)
    {
      var n := Happens();
      frame := FrameOf(n, log, conn.value);
    }

    /** Puts one request on the connection under a fresh id. */
    method Send(req: Request) returns (id: nat, sent: Outcome<()>)
      requires Sound() && conn.Some? && (req.verb == AUTH || conn.value in authed)
      modifies this`nextID, this`pos, this`log
      ensures Sound()
      ensures if req.size > MAX_FRAME_SIZE then sent == Err(EFBIG) && log == old(log)
              else log == old(log) + [Sent(conn.value, id, req)] && id > 0
    {
      nextID := nextID + 1;
      id := nextID;
      if req.size > MAX_FRAME_SIZE {
        return id, Err(EFBIG);
      }
      WellSentAppend(log, dialed, authed, Sent(conn.value, id, req));
      log := log + [Sent(conn.value, id, req)];
      var w := Happens();
      sent := if w.Writes? then Ok(()) else if w.Breaks? then Err(w.errno) else Err(EIO);
    }

    /** Reads frames until one has the id of the last request. */
    method Await(id: nat) returns (resp: Outcome<Response>)
      requires conn.Some? && pos <= |all|
      modifies this`pos
      ensures pos <= |all| && Wait(resp, pos) == Awaited(all, old(pos), log, conn.value, id)
    {
      while true
        invariant pos <= |all| && Awaited(all, pos, log, conn.value, id) == Awaited(all, old(pos), log, conn.value, id)
        decreases |all| - pos
      {
        if pos == |all| {
          return Err(ESTALE);
        }
        var frame := ReadFrame();
        match frame {
          case Broken(e) => return Err(e);
          case Skipped =>
          case Got(i, got) =>
            if i == id {
              return Ok(got);
            }
        }
      }
    }

    /** `resp` is the server's answer to the last request, unless the frame read last
        was foreign, under its id. */
    ghost predicate TakenFor(resp: Response)
      reads this
    {
      log != [] && 0 < pos <= |all| && Taken(all[pos - 1], resp, log[|log| - 1])
    }

    /** Sends one request and awaits its response. */
    method RoundTrip(req: Request) returns (resp: Outcome<Response>)
      requires Sound() && conn.Some? && (req.verb == AUTH || conn.value in authed)
      modifies this`nextID, this`pos, this`log
      ensures Sound()
      ensures req.size > MAX_FRAME_SIZE ==> resp.Err? && log == old(log)
      ensures req.size <= MAX_FRAME_SIZE ==>
                |log| == |old(log)| + 1 && log[..|old(log)|] == old(log) && log[|old(log)|].req == req
                && log[|old(log)|].conn == conn.value
      ensures resp.Ok? ==> req.size <= MAX_FRAME_SIZE && TakenFor(resp.value)
    {
      var id, sent := Send(req);
      if sent.Err? {
        return Err(sent.errno);
      }
      ghost var start := pos;
      resp := Await(id);
      if resp.Ok? {
        AwaitedOwnIff(all, start, log, dialed, authed);
      }
    }

    method CloseConn()
      requires Sound()
      modifies this`conn
      ensures Ready() && conn == None
    {
      conn := None;
    }

    /** The handshake; it succeeds only on a good result under its id. */
    method Auth() returns (done: Outcome<()>)
      requires Sound() && conn.Some? && conn.value !in authed
      modifies this`nextID, this`pos, this`log, this`authed
      ensures Sound() && old(log) <= log
      ensures forall i | |old(log)| <= i < |log| :: log[i].req.verb == AUTH
      ensures done.Ok? ==> Ready()
    {
      var resp := RoundTrip(Request(AUTH, apiKey, |apiKey|));
      if resp.Err? {
        return Err(EACCES);
      }
      match resp.value.verdict {
        case Refused(e) => done := Err(e);
        case Result(good) =>
          if !good {
            return Err(EACCES);
          }
          ghost var more := authed[conn.value := Welcome(|log| - 1, resp.value, pos - 1)];
          WellSentGrows(log, dialed, authed, dialed, more);
          authed := more;
          done := Ok(());
      }
    }

    method Dial() returns (done: Outcome<()>)
      requires Ready() && conn.None?
      modifies this`conn, this`nextID, this`pos, this`dialed, this`log, this`authed
      ensures Ready() && old(log) <= log
      ensures forall i | |old(log)| <= i < |log| :: log[i].req.verb == AUTH
      ensures done.Ok? <==> conn.Some?
    {
      done := Err(EIO);
      var attempt := 0;
      while attempt < 3
        invariant Ready() && conn.None? && done.Err? && log == old(log)
      {
        var d := Happens();
        if d.Dials? {
          NewConnUnused(log, dialed, authed, dialed);
          WellSentGrows(log, dialed, authed, dialed + 1, authed);
          conn, dialed, nextID := Some(dialed), dialed + 1, 0;
          done := Auth();
          if done.Err? {
            CloseConn();
          }
          return;
        }
        done := if d.DialFails? then Err(d.errno) else Err(EIO);
        attempt := attempt + 1;
      }
    }

    /** A live, authenticated connection, dialed if there is none. */
    method Connect(ghost req: Request) returns (reached: Outcome<()>)
      requires Ready() && req.verb != AUTH
      modifies this`conn, this`nextID, this`pos, this`dialed, this`log, this`authed
      ensures Ready() && SentFor(old(log), log, req) && SendCount(log, req) == SendCount(old(log), req)
      ensures reached.Ok? ==> conn.Some?
    {
      reached := Ok(());
      if conn.None? {
        reached := Dial();
      }
      OnlyHandshakes(old(log), log, req);
    }

    /** One try of a call: connect if need be, then one round trip. */
    method Attempt(req: Request) returns (reached: Outcome<()>, resp: Outcome<Response>)
      requires Ready() && req.verb != AUTH
      modifies this`conn, this`nextID, this`pos, this`dialed, this`log, this`authed
      ensures Ready() && SentFor(old(log), log, req) && SendCount(log, req) <= SendCount(old(log), req) + 1
      ensures reached.Ok? && resp.Ok? ==>
                |old(log)| < |log| && log[|log| - 1].req == req && TakenFor(resp.value)
    {
      resp := Err(EIO);
      reached := Connect(req);
      if reached.Err? {
        return;
      }
      ghost var mid := log;
      resp := RoundTrip(req);
      OneMore(old(log), mid, log, req);
    }

    /** One call.  Whatever the network does: a response that is returned answers
        this call's own request, sent during this call, if and only if the frame it
        came in was not a foreign one under the same id; the request went out at most
        twice; everything else sent was a handshake; and the invariant about unique
        ids and answered handshakes is kept. */
    method Call(req: Request) returns (out: Outcome<Response>)
      requires Ready() && req.verb != AUTH
      modifies this`conn, this`nextID, this`pos, this`dialed, this`log, this`authed
      ensures Ready() && SentFor(old(log), log, req)
      ensures SendCount(log, req) <= SendCount(old(log), req) + 2
      ensures out.Ok? ==>
                && log != [] && 0 < pos <= |all|
                && (OwnAnswer(old(log), log, req, out.value) <==> !all[pos - 1].Foreign?)
                && (all[pos - 1].Foreign? ==> out.value.to == None && all[pos - 1].id == log[|log| - 1].id)
    {
      var attempt := 0;
      while true
        invariant Ready() && 0 <= attempt <= 1
        invariant SentFor(old(log), log, req)
        invariant SendCount(log, req) <= SendCount(old(log), req) + attempt
        decreases 1 - attempt
      {
        var reached, resp := Attempt(req);
        if reached.Err? {
          return Err(reached.errno);
        }
        if resp.Ok? {
          match resp.value.verdict {
            case Refused(e) => return Err(e);
            case Result(good) => return if good then Ok(resp.value) else Err(EIO);
          }
        }
        if resp.errno == ESTALE || resp.errno == EFBIG {
          return Err(resp.errno);
        }
        CloseConn();
        if attempt > 0 {
          return Err(resp.errno);
        }
        attempt := attempt + 1;
      }
    }

    /** A whole run of calls on one client: every returned response answers the
        request of its own call, however late or doubled the answers come, unless it
        came in a foreign frame. */
    method Run(reqs: seq<Request>) returns (outs: seq<Outcome<Response>>)
      requires Ready() && forall i | 0 <= i < |reqs| :: reqs[i].verb != AUTH
      modifies this`conn, this`nextID, this`pos, this`dialed, this`log, this`authed
      ensures Ready() && old(log) <= log && |outs| == |reqs|
      ensures forall i | 0 <= i < |reqs| && outs[i].Ok? :: AnswersCall(outs[i].value, reqs[i])
      ensures (forall n | n in all :: !n.Foreign?) ==>
              forall i | 0 <= i < |reqs| && outs[i].Ok? :: outs[i].value.to.Some?
    {
      outs := [];
      while |outs| < |reqs|
        invariant Ready() && old(log) <= log && |outs| <= |reqs|
        invariant forall i | 0 <= i < |outs| && outs[i].Ok? :: AnswersCall(outs[i].value, reqs[i])
        invariant (forall n | n in all :: !n.Foreign?) ==>
                  forall i | 0 <= i < |outs| && outs[i].Ok? :: outs[i].value.to.Some?
      {
        var out := Call(reqs[|outs|]);
        outs := outs + [out];
      }
    }
  }
}
