// How a queue object uses its Redis connection: dial if there is none, write one
// command, read one reply, and drop the connection when the read fails. A failed
// write only returns the error: the connection, whose writer refuses everything
// from then on, is kept.
module Client {
  import opened Wrappers
  import opened Resp

  // The connection as a value; `failed` when its writer met an error.
  datatype Link = Down | Up(unread: Bytes, failed: bool)

  // What the outside does to one command: whether a dial succeeds, how many bytes
  // the socket takes, what Redis answers to a whole command, and how much of the
  // answer arrives before the connection ends.
  datatype Turn = Turn(dials: bool, takes: nat, reply: Frame, arrives: nat) {
    function Arrived(): Bytes {
      if arrives < |Encode(reply)| then Encode(reply)[..arrives] else Encode(reply)
    }
  }

  datatype Failure = NotConnected | NotWritten | NotRead(fault: Fault)

  type Reply = Result<Value, Failure>

  // ---------------------------------------------------------- one round trip

  function Dialled(link: Link, turn: Turn): Link {
    if link.Down? && turn.dials then Up([], false) else link
  }

  function Exchange(link: Link, parts: seq<Bytes>, turn: Turn): (Link, Reply) {
    var up := Dialled(link, turn);
    if up.Down? then (Down, Err(NotConnected))
    else if up.failed || |Command(parts)| > turn.takes then (up.(failed := true), Err(NotWritten))
    else
      var read := Parse(up.unread + turn.Arrived());
      match read.result
      case Ok(v) => (Up(read.rest, false), Ok(v))
      case Err(e) => (Down, Err(NotRead(e)))
  }

  class RedisClient {
    var conn: Connection?

    ghost predicate Valid()
      reads this, conn
    {
      conn != null ==> conn.Valid()
    }

    ghost function State(): Link
      reads this, conn
    {
      if conn == null then Down else Up(conn.unread, conn.failed)
    }

    constructor ()
      ensures Valid() && State() == Down
    {
      conn := null;
    }

    method Do(parts: seq<Bytes>, turn: Turn) returns (reply: Reply)
      requires Valid()
      modifies this, conn
      ensures Valid() && (conn != old(conn) ==> conn == null || fresh(conn))
      ensures (State(), reply) == Exchange(old(State()), parts, turn)
    {
      if conn == null {
        if !turn.dials {
          return Err(NotConnected);
        }
        conn := new Connection([]);
      }
      var ok := conn.WriteCommand(parts, turn.takes);
      if !ok {
        return Err(NotWritten);
      }
      conn.unread := conn.unread + turn.Arrived();
      var read := conn.ReadResponse();
      if read.Err? {
        conn := null;
        return Err(NotRead(read.error));
      }
      reply := Ok(read.value);
    }
  }

  // ------------------------------------------------------- what Redis answers

  // A reply Redis can send: sound, or with error lines in it.
  predicate Formed(f: Frame) {
    match f
    case ErrorLine(line) => LF !in line
    case Multi(frames) => |frames| < INT64_LIMIT && forall g :: g in frames ==> Formed(g)
    case _ => Sound(f)
  }

  // An error anywhere in a reply is the caller's error, not a value.
  lemma {:induction false} ErrorInside(f: Frame, rest: Bytes)
    requires Formed(f) && !Sound(f)
    ensures Parse(Encode(f) + rest).result.Err?
    decreases f, 0
  {
    match f
    case ErrorLine(line) => ErrorRoundTrip(line, rest);
    case Multi(frames) =>
      var i :| 0 <= i < |frames| && !Sound(frames[i]);
      FrameRead(STAR, Decimal(|frames|), EncodeAll(frames), rest);
      DecimalRoundTrip(|frames|);
      ErrorAmong(frames, i, rest);
    case _ =>
  }

  lemma {:induction false} ErrorAmong(frames: seq<Frame>, i: nat, rest: Bytes)
    requires (forall f :: f in frames ==> Formed(f)) && i < |frames| && !Sound(frames[i])
    ensures ParseMany(|frames|, EncodeAll(frames) + rest).result.Err?
    decreases frames, 1
  {
    var tail := EncodeAll(frames[1..]) + rest;
    HeadFirst(frames, rest);
    if i == 0 || !Sound(frames[0]) {
      ErrorInside(frames[0], tail);
      FaultEndsMany(|frames|, Encode(frames[0]) + tail);
    } else {
      RoundTrip(frames[0], tail);
      ErrorAmong(frames[1..], i - 1, rest);
      FaultLater(|frames|, Encode(frames[0]) + tail);
    }
  }

  lemma FaultEndsMany(count: nat, s: Bytes)
    requires count > 0 && Parse(s).result.Err?
    ensures ParseMany(count, s).result.Err?
  {
  }

  lemma FaultLater(count: nat, s: Bytes)
    requires count > 0 && Parse(s).result.Ok? && ParseMany(count - 1, Parse(s).rest).result.Err?
    ensures ParseMany(count, s).result.Err?
  {
  }

  lemma HeadFirst(frames: seq<Frame>, rest: Bytes)
    requires frames != []
    ensures EncodeAll(frames) + rest == Encode(frames[0]) + (EncodeAll(frames[1..]) + rest)
  {
  }

  // Read on its own, a reply that arrived is its value exactly when it arrived
  // whole and reports no error.
  lemma ArrivedRead(turn: Turn)
    requires Formed(turn.reply)
    ensures var read := Parse(turn.Arrived());
      if turn.arrives >= |Encode(turn.reply)| && Sound(turn.reply)
      then read == Read(Ok(Meaning(turn.reply)), [])
      else read.result.Err?
  {
    var whole := Encode(turn.reply);
    assert whole + [] == whole;
    if Sound(turn.reply) { RoundTrip(turn.reply, []); } else { ErrorInside(turn.reply, []); }
    if turn.arrives < |whole| {
      var part, more := whole[..turn.arrives], whole[turn.arrives..];
      assert whole == part + more;
      if Parse(part).result.Ok? { Stable(part, more); }
    }
  }

  // ---------------------------------------------------------------- one command

  // A connection in use has nothing left to read.
  predicate InStep(link: Link) {
    link.Up? && !link.failed ==> link.unread == []
  }

  predicate Usable(link: Link, turn: Turn) {
    if link.Down? then turn.dials else !link.failed
  }

  // Exactly when a command succeeds, with what, and what it leaves behind.
  lemma ExchangeExact(link: Link, parts: seq<Bytes>, turn: Turn)
    requires InStep(link) && Formed(turn.reply)
    ensures var (link', reply) := Exchange(link, parts, turn);
      && InStep(link')
      && (reply.Ok? <==> Usable(link, turn) && |Command(parts)| <= turn.takes
                         && turn.arrives >= |Encode(turn.reply)| && Sound(turn.reply))
      && (reply.Ok? ==> reply.value == Meaning(turn.reply))
      && (link'.Up? && link'.failed <==> reply == Err(NotWritten))
  {
    var up := Dialled(link, turn);
    if up.Up? && !up.failed && |Command(parts)| <= turn.takes {
      ArrivedRead(turn);
      assert up.unread + turn.Arrived() == turn.Arrived();
    }
  }

  // ------------------------------------------------------------ whole sessions

  datatype Request = Request(parts: seq<Bytes>, turn: Turn)

  function After(link: Link, requests: seq<Request>): Link {
    if requests == [] then link
    else
      var last := requests[|requests| - 1];
      Exchange(After(link, requests[..|requests| - 1]), last.parts, last.turn).0
  }

  // The reply to the i-th command of a session on a new queue object.
  function ReplyTo(requests: seq<Request>, i: nat): Reply
    requires i < |requests|
  {
    Exchange(After(Down, requests[..i]), requests[i].parts, requests[i].turn).1
  }

  ghost predicate AllFormed(requests: seq<Request>) {
    forall r :: r in requests ==> Formed(r.turn.reply)
  }

  lemma {:induction false} StaysInStep(link: Link, requests: seq<Request>)
    requires InStep(link) && AllFormed(requests)
    ensures InStep(After(link, requests))
  {
    if requests != [] {
      var last := requests[|requests| - 1];
      StaysInStep(link, requests[..|requests| - 1]);
      ExchangeExact(After(link, requests[..|requests| - 1]), last.parts, last.turn);
    }
  }

  // Whatever was cut off or refused before, a command that succeeds returns the
  // answer to itself, never one to an earlier command.
  lemma RepliesMatch(requests: seq<Request>, i: nat)
    requires AllFormed(requests) && i < |requests| && ReplyTo(requests, i).Ok?
    ensures Sound(requests[i].turn.reply) && ReplyTo(requests, i) == Ok(Meaning(requests[i].turn.reply))
  {
    assert forall r :: r in requests[..i] ==> r in requests;
    assert requests[i] in requests;
    StaysInStep(Down, requests[..i]);
    ExchangeExact(After(Down, requests[..i]), requests[i].parts, requests[i].turn);
  }

  lemma {:induction false} FailedForever(link: Link, requests: seq<Request>)
    requires link.Up? && link.failed
    ensures After(link, requests).Up? && After(link, requests).failed
  {
    if requests != [] {
      FailedForever(link, requests[..|requests| - 1]);
    }
  }

  lemma {:induction false} AfterConcat(link: Link, requests: seq<Request>, more: seq<Request>)
    ensures After(link, requests + more) == After(After(link, requests), more)
  {
    if more == [] {
      assert requests + more == requests;
    } else {
      assert (requests + more)[..|requests + more| - 1] == requests + more[..|more| - 1];
      AfterConcat(link, requests, more[..|more| - 1]);
    }
  }

  // The reply to a command that follows after a session and more.
  lemma LaterReply(requests: seq<Request>, more: seq<Request>, next: Request)
    ensures ReplyTo(requests + more + [next], |requests + more|) ==
      Exchange(After(After(Down, requests), more), next.parts, next.turn).1
  {
    assert (requests + more + [next])[..|requests + more|] == requests + more;
    AfterConcat(Down, requests, more);
  }

  // On a connection whose writer has not failed, the next command can succeed.
  lemma CanSucceed(requests: seq<Request>)
    requires AllFormed(requests) && var link := After(Down, requests); !(link.Up? && link.failed)
    ensures exists next: Request :: ReplyTo(requests + [] + [next], |requests + []|).Ok?
  {
    var next := Request([], Turn(true, |Command([])|, NilBulk, |Encode(NilBulk)|));
    StaysInStep(Down, requests);
    ExchangeExact(After(Down, requests), next.parts, next.turn);
    LaterReply(requests, [], next);
    assert ReplyTo(requests + [] + [next], |requests + []|).Ok?;
  }

  // A command can succeed some time after the session exactly if no write of the
  // session failed: after one that did, every command fails until the process is
  // replaced, however healthy Redis and the network are.
  lemma RecoversIff(requests: seq<Request>)
    requires AllFormed(requests)
    ensures (exists more, next: Request :: ReplyTo(requests + more + [next], |requests + more|).Ok?)
      <==> forall i :: 0 <= i < |requests| ==> ReplyTo(requests, i) != Err(NotWritten)
  {
    FailedIff(requests);
    var link := After(Down, requests);
    if link.Up? && link.failed {
      forall more, next: Request ensures !ReplyTo(requests + more + [next], |requests + more|).Ok? {
        LaterReply(requests, more, next);
        FailedForever(link, more);
      }
    } else {
      CanSucceed(requests);
    }
  }

  lemma {:induction false} FailedIff(requests: seq<Request>)
    requires AllFormed(requests)
    ensures var link := After(Down, requests);
      (link.Up? && link.failed) <==> exists i :: 0 <= i < |requests| && ReplyTo(requests, i) == Err(NotWritten)
  {
    if requests != [] {
      var n := |requests| - 1;
      var front := requests[..n];
      FailedIff(front);
      StaysInStep(Down, front);
      ExchangeExact(After(Down, front), requests[n].parts, requests[n].turn);
      forall i | 0 <= i < n ensures ReplyTo(front, i) == ReplyTo(requests, i) {
        assert front[..i] == requests[..i];
      }
      if After(Down, front).Up? && After(Down, front).failed {
        var i :| 0 <= i < n && ReplyTo(front, i) == Err(NotWritten);
        assert ReplyTo(requests, i) == Err(NotWritten);
      } else if ReplyTo(requests, n) != Err(NotWritten) {
        assert forall i :: 0 <= i < n ==> ReplyTo(front, i) != Err(NotWritten);
      }
    }
  }
}
