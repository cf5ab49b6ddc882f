// The wire format between the service and Redis: the writer of commands, the
// recursive reader of replies, and the byte strings they must agree on.
module Resp {
  import opened Wrappers

  newtype Byte = b: int | 0 <= b < 256

  type Bytes = seq<Byte>

  const LF: Byte := 10
  const CR: Byte := 13
  const STAR: Byte := 42
  const DOLLAR: Byte := 36
  const PLUS: Byte := 43
  const MINUS: Byte := 45
  const COLON: Byte := 58
  const ZERO: Byte := 48
  const CRLF: Bytes := [CR, LF]

  const INT64_LIMIT: int := 0x8000_0000_0000_0000

  // What the reader hands to its caller.
  datatype Value = Text(text: Bytes) | Integer(value: int) | Nil | Items(items: seq<Value>)

  datatype Fault =
    | Short                        // the connection ended first
    | ServerError(message: Bytes)
    | BadNumber(line: Bytes)
    | BadPrefix(prefix: Byte)

  // A read and the bytes it left on the connection.
  datatype Read<+T> = Read(result: Result<T, Fault>, rest: Bytes)

  // ---------------------------------------------------------------- numbers

  function Digits(n: nat): (s: Bytes)
    ensures |s| > 0 && forall b :: b in s ==> IsDigit(b)
  {
    if n < 10 then [ZERO + n as Byte] else Digits(n / 10) + [ZERO + (n % 10) as Byte]
  }

  predicate IsDigit(b: Byte) {
    ZERO <= b < ZERO + 10
  }

  function Number(s: Bytes): nat
    requires forall b :: b in s ==> IsDigit(b)
  {
    if s == [] then 0
    else
      assert IsDigit(s[|s| - 1]);
      10 * Number(s[..|s| - 1]) + (s[|s| - 1] as nat - ZERO as nat)
  }

  // strconv.ParseInt(s, 10, 64), which is also Atoi on a 64-bit platform
  function ParseInt(s: Bytes): Option<int> {
    var signed := s != [] && s[0] in {PLUS, MINUS};
    var digits := if signed then s[1..] else s;
    if digits == [] || exists b :: b in digits && !IsDigit(b) then None
    else
      var magnitude: int := Number(digits);
      var n := if signed && s[0] == MINUS then -magnitude else magnitude;
      if -INT64_LIMIT <= n < INT64_LIMIT then Some(n) else None
  }

  function Decimal(n: int): (s: Bytes)
    ensures |s| > 0 && LF !in s
  {
    if n < 0 then [MINUS] + Digits(-n) else Digits(n)
  }

  lemma {:induction false} NumberOfDigits(n: nat)
    ensures Number(Digits(n)) == n
  {
    if n >= 10 {
      NumberOfDigits(n / 10);
      assert Digits(n)[..|Digits(n)| - 1] == Digits(n / 10);
    }
  }

  lemma ParsesTo(s: Bytes, n: int)
    requires s != [] && (forall b :: b in s ==> IsDigit(b)) && Number(s) == n
    ensures ParseInt(s) == if n < INT64_LIMIT then Some(n) else None
    ensures ParseInt([MINUS] + s) == if n <= INT64_LIMIT then Some(-n) else None
  {
    assert s[0] in s && s[0] !in {PLUS, MINUS};
    assert ([MINUS] + s)[1..] == s;
  }

  lemma DecimalRoundTrip(n: int)
    ensures ParseInt(Decimal(n)) == if -INT64_LIMIT <= n < INT64_LIMIT then Some(n) else None
  {
    var magnitude := if n < 0 then -n else n;
    NumberOfDigits(magnitude);
    ParsesTo(Digits(magnitude), magnitude);
  }

  // The value of a run of digits, from the left.
  lemma NumberGrows(s: Bytes, b: Byte)
    requires (forall c :: c in s ==> 48 <= c <= 57) && 48 <= b <= 57
    ensures forall c :: c in s + [b] ==> IsDigit(c)
    ensures Number([]) == 0 && Number(s + [b]) == 10 * Number(s) + (b as int - 48)
  {
    assert (s + [b])[..|s|] == s;
  }

  // A number is an optional sign and at least one digit, nothing else, that fits
  // 64 bits.
  lemma NumbersRead(s: Bytes)
    ensures
      var digits := if s != [] && s[0] in {43, 45} then s[1..] else s;
      if digits != [] && forall b :: b in digits ==> 48 <= b <= 57 then
        && (forall b :: b in digits ==> IsDigit(b))
        && var magnitude: int := Number(digits);
        var value := if s[0] == 45 then -magnitude else magnitude;
        ParseInt(s) == if -0x8000_0000_0000_0000 <= value <= 0x7FFF_FFFF_FFFF_FFFF then Some(value) else None
      else ParseInt(s) == None
  {
    var digits := if s != [] && s[0] in {43, 45} then s[1..] else s;
    forall b: Byte ensures IsDigit(b) <==> 48 <= b <= 57 {}
    assert (exists b :: b in digits && !IsDigit(b)) <==> !(forall b :: b in digits ==> 48 <= b <= 57);
  }

  // A number is written without leading zeros, and with a sign exactly when it
  // is negative.
  lemma {:induction false} DigitsCanonical(n: nat)
    ensures Digits(n)[0] == 48 ==> n == 0 && Digits(n) == [48]
  {
    if n >= 10 { DigitsCanonical(n / 10); }
  }

  lemma DecimalCanonical(n: int)
    ensures var s := Decimal(n);
      && (s[0] == 45 <==> n < 0)
      && (s[0] == 48 ==> n == 0 && s == [48])
      && (s[0] == 45 ==> |s| > 1 && 49 <= s[1] <= 57)
  {
    var magnitude := if n < 0 then -n else n;
    DigitsCanonical(magnitude);
    assert Digits(magnitude)[0] in Digits(magnitude);
  }

  // ------------------------------------------------------------------ reader

  function Before(s: Bytes, b: Byte): (n: nat)
    ensures n <= |s| && b !in s[..n]
    ensures n < |s| ==> s[n] == b
  {
    if s == [] || s[0] == b then 0 else 1 + Before(s[1..], b)
  }

  function TrimSuffix(s: Bytes, b: Byte): Bytes {
    if s != [] && s[|s| - 1] == b then s[..|s| - 1] else s
  }

  // ReadString('\n') and the two trims
  function TakeLine(s: Bytes): (r: Read<Bytes>)
    ensures r.result.Ok? ==> |r.rest| < |s|
  {
    var n := Before(s, LF);
    if n == |s| then Read(Err(Short), []) else Read(Ok(TrimSuffix(s[..n], CR)), s[n + 1..])
  }

  // The payload and the two bytes behind it, whatever they are.
  function TakeBulk(size: nat, s: Bytes): (r: Read<Value>)
    ensures r.result.Ok? ==> |r.rest| <= |s|
  {
    if |s| < size + 2 then Read(Err(Short), []) else Read(Ok(Text(s[..size])), s[size + 2..])
  }

  function Parse(s: Bytes): (r: Read<Value>)
    ensures r.result.Ok? ==> |r.rest| < |s|
    decreases |s|, 0
  {
    if s == [] then Read(Err(Short), [])
    else
      var line := TakeLine(s[1..]);
      match line.result
      case Err(e) => Read(Err(e), line.rest)
      case Ok(text) => ParseBody(s[0], text, line.rest)
  }

  // The switch on the prefix, once the header line is read.
  function ParseBody(prefix: Byte, text: Bytes, s: Bytes): (r: Read<Value>)
    ensures r.result.Ok? ==> |r.rest| <= |s|
    decreases |s|, 2
  {
    if prefix == PLUS then Read(Ok(Text(text)), s)
    else if prefix == MINUS then Read(Err(ServerError(text)), s)
    else if prefix !in {COLON, DOLLAR, STAR} then Read(Err(BadPrefix(prefix)), s)
    else
      match ParseInt(text)
      case None => Read(Err(BadNumber(text)), s)
      case Some(n) =>
        if prefix == COLON then Read(Ok(Integer(n)), s)
        else if n < 0 then Read(Ok(Nil), s)
        else if prefix == DOLLAR then TakeBulk(n, s)
        else
          var all := ParseMany(n, s);
          Read(match all.result case Ok(values) => Ok(Items(values)) case Err(e) => Err(e), all.rest)
  }

  // `count` replies in a row; the first fault ends the read.
  function ParseMany(count: nat, s: Bytes): (r: Read<seq<Value>>)
    ensures r.result.Ok? ==> |r.rest| <= |s| && |r.result.value| == count
    decreases |s|, 1
  {
    if count == 0 then Read(Ok([]), s)
    else
      var first := Parse(s);
      match first.result
      case Err(e) => Read(Err(e), first.rest)
      case Ok(v) =>
        var others := ParseMany(count - 1, first.rest);
        Read(match others.result case Ok(vs) => Ok([v] + vs) case Err(e) => Err(e), others.rest)
  }

  // ------------------------------------------------------------------ writer

  // The forms a reply or a command can take on the wire.
  datatype Frame =
    | Simple(line: Bytes)
    | ErrorLine(line: Bytes)
    | Int(value: int)
    | Bulk(text: Bytes)
    | NilBulk
    | NilArray
    | Multi(frames: seq<Frame>)

  function Framed(prefix: Byte, line: Bytes, body: Bytes): Bytes {
    [prefix] + (line + (CRLF + body))
  }

  function Encode(f: Frame): Bytes {
    match f
    case Simple(line) => Framed(PLUS, line, [])
    case ErrorLine(line) => Framed(MINUS, line, [])
    case Int(n) => Framed(COLON, Decimal(n), [])
    case Bulk(text) => Framed(DOLLAR, Decimal(|text|), text + CRLF)
    case NilBulk => Framed(DOLLAR, Decimal(-1), [])
    case NilArray => Framed(STAR, Decimal(-1), [])
    case Multi(frames) => Framed(STAR, Decimal(|frames|), EncodeAll(frames))
  }

  function EncodeAll(frames: seq<Frame>): Bytes {
    if frames == [] then [] else Encode(frames[0]) + EncodeAll(frames[1..])
  }

  // What the format itself demands: one line stays one line, numbers and
  // lengths are signed 64-bit, and no reply inside reports an error.
  predicate Sound(f: Frame) {
    match f
    case Simple(line) => LF !in line
    case ErrorLine(_) => false
    case Int(n) => -INT64_LIMIT <= n < INT64_LIMIT
    case Bulk(text) => |text| < INT64_LIMIT
    case NilBulk => true
    case NilArray => true
    case Multi(frames) => |frames| < INT64_LIMIT && forall g :: g in frames ==> Sound(g)
  }

  function Meaning(f: Frame): Value
    requires Sound(f)
  {
    match f
    case Simple(line) => Text(line)
    case Int(n) => Integer(n)
    case Bulk(text) => Text(text)
    case NilBulk => Nil
    case NilArray => Nil
    case Multi(frames) => Items(MeaningAll(frames))
  }

  function MeaningAll(frames: seq<Frame>): seq<Value>
    requires forall g :: g in frames ==> Sound(g)
  {
    if frames == [] then [] else [Meaning(frames[0])] + MeaningAll(frames[1..])
  }

  // -------------------------------------------------------------- round trip

  lemma {:induction false} BeforeFirst(s: Bytes, t: Bytes, b: Byte)
    requires b !in s
    ensures Before(s + [b] + t, b) == |s|
  {
    if s != [] {
      assert (s + [b] + t)[1..] == s[1..] + [b] + t;
      BeforeFirst(s[1..], t, b);
    }
  }

  lemma HeaderRoundTrip(prefix: Byte, line: Bytes, body: Bytes)
    requires LF !in line
    ensures Parse(Framed(prefix, line, body)) == ParseBody(prefix, line, body)
  {
    var s := Framed(prefix, line, body);
    assert s[1..] == (line + [CR]) + [LF] + body;
    BeforeFirst(line + [CR], body, LF);
    assert s[1..][..|line| + 1] == line + [CR];
    assert s[1..][|line| + 2..] == body;
  }

  lemma FrameRead(prefix: Byte, line: Bytes, body: Bytes, rest: Bytes)
    requires LF !in line
    ensures Parse(Framed(prefix, line, body) + rest) == ParseBody(prefix, line, body + rest)
  {
    assert Framed(prefix, line, body) + rest == Framed(prefix, line, body + rest);
    HeaderRoundTrip(prefix, line, body + rest);
  }

  lemma LineRead(prefix: Byte, line: Bytes, rest: Bytes)
    requires LF !in line
    ensures Parse(Framed(prefix, line, []) + rest) == ParseBody(prefix, line, rest)
  {
    FrameRead(prefix, line, [], rest);
    assert [] + rest == rest;
  }

  lemma BulkRoundTrip(text: Bytes, rest: Bytes)
    requires |text| < INT64_LIMIT
    ensures Parse(Encode(Bulk(text)) + rest) == Read(Ok(Text(text)), rest)
  {
    FrameRead(DOLLAR, Decimal(|text|), text + CRLF, rest);
    DecimalRoundTrip(|text|);
    assert (text + CRLF + rest)[..|text|] == text;
    assert (text + CRLF + rest)[|text| + 2..] == rest;
  }

  // Whatever bytes the strings carry, the reader returns what was written and
  // leaves exactly the bytes that follow.
  lemma {:induction false} RoundTrip(f: Frame, rest: Bytes)
    requires Sound(f)
    ensures Parse(Encode(f) + rest) == Read(Ok(Meaning(f)), rest)
    decreases f, 0
  {
    match f
    case Simple(line) =>
      LineRead(PLUS, line, rest);
    case Int(n) =>
      LineRead(COLON, Decimal(n), rest);
      DecimalRoundTrip(n);
    case Bulk(text) =>
      BulkRoundTrip(text, rest);
    case NilBulk =>
      LineRead(DOLLAR, Decimal(-1), rest);
      DecimalRoundTrip(-1);
    case NilArray =>
      LineRead(STAR, Decimal(-1), rest);
      DecimalRoundTrip(-1);
    case Multi(frames) =>
      FrameRead(STAR, Decimal(|frames|), EncodeAll(frames), rest);
      DecimalRoundTrip(|frames|);
      StreamRoundTrip(frames, rest);
  }

  // Replies queued on one connection are read back in order, none shifted.
  lemma {:induction false} StreamRoundTrip(frames: seq<Frame>, rest: Bytes)
    requires forall f :: f in frames ==> Sound(f)
    ensures ParseMany(|frames|, EncodeAll(frames) + rest) == Read(Ok(MeaningAll(frames)), rest)
    decreases frames, 1
  {
    if frames == [] {
      assert EncodeAll(frames) + rest == rest;
    } else {
      var tail := EncodeAll(frames[1..]) + rest;
      assert EncodeAll(frames) + rest == Encode(frames[0]) + tail;
      RoundTrip(frames[0], tail);
      StreamRoundTrip(frames[1..], rest);
    }
  }

  // An error reply comes back as that error.
  lemma ErrorRoundTrip(line: Bytes, rest: Bytes)
    requires LF !in line
    ensures Parse(Encode(ErrorLine(line)) + rest) == Read(Err(ServerError(line)), rest)
  {
    LineRead(MINUS, line, rest);
  }

  // -------------------------------------------------------------- streaming

  function More<T>(r: Read<T>, more: Bytes): Read<T> {
    Read(r.result, r.rest + more)
  }

  lemma {:induction false} BeforeStable(s: Bytes, more: Bytes, b: Byte)
    requires Before(s, b) < |s|
    ensures Before(s + more, b) == Before(s, b)
  {
    if s[0] != b {
      assert (s + more)[1..] == s[1..] + more;
      BeforeStable(s[1..], more, b);
    }
  }

  // A read that did not run out of bytes never depended on the later ones.
  lemma {:induction false} Stable(s: Bytes, more: Bytes)
    requires Parse(s).result != Err(Short)
    ensures Parse(s + more) == More(Parse(s), more)
    decreases |s|, 0
  {
    var t := s[1..];
    var n := Before(t, LF);
    assert (s + more)[1..] == t + more;
    BeforeStable(t, more, LF);
    assert (t + more)[..n] == t[..n];
    assert (t + more)[n + 1..] == t[n + 1..] + more;
    BodyStable(s[0], TrimSuffix(t[..n], CR), t[n + 1..], more);
  }

  lemma {:induction false} BodyStable(prefix: Byte, text: Bytes, s: Bytes, more: Bytes)
    requires ParseBody(prefix, text, s).result != Err(Short)
    ensures ParseBody(prefix, text, s + more) == More(ParseBody(prefix, text, s), more)
    decreases |s|, 2
  {
    if prefix in {DOLLAR, STAR} && ParseInt(text).Some? && ParseInt(text).value >= 0 {
      var n: nat := ParseInt(text).value;
      if prefix == STAR {
        ManyStable(n, s, more);
      } else {
        assert (s + more)[..n] == s[..n];
        assert (s + more)[n + 2..] == s[n + 2..] + more;
      }
    }
  }

  lemma {:induction false} ManyStable(count: nat, s: Bytes, more: Bytes)
    requires ParseMany(count, s).result != Err(Short)
    ensures ParseMany(count, s + more) == More(ParseMany(count, s), more)
    decreases |s|, 1
  {
    if count > 0 {
      Stable(s, more);
      if Parse(s).result.Ok? {
        ManyStable(count - 1, Parse(s).rest, more);
      }
    }
  }

  // No reply is a proper prefix of another: a reader that has seen only part of
  // a reply keeps waiting, and never mistakes the part for a whole.
  lemma PartIsNoReply(f: Frame, part: Bytes, more: Bytes)
    requires Sound(f) && Encode(f) == part + more && more != []
    ensures Parse(part).result == Err(Short)
  {
    RoundTrip(f, []);
    assert Encode(f) + [] == part + more;
    if Parse(part).result != Err(Short) {
      Stable(part, more);
    }
  }

  // ---------------------------------------------------------------- commands

  function Bulks(parts: seq<Bytes>): seq<Frame> {
    if parts == [] then [] else [Bulk(parts[0])] + Bulks(parts[1..])
  }

  function Command(parts: seq<Bytes>): Bytes {
    Encode(Multi(Bulks(parts)))
  }

  function Texts(parts: seq<Bytes>): seq<Value> {
    seq(|parts|, i requires 0 <= i < |parts| => Text(parts[i]))
  }

  lemma {:induction false} BulksMean(parts: seq<Bytes>)
    requires forall p :: p in parts ==> |p| < INT64_LIMIT
    ensures |Bulks(parts)| == |parts|
    ensures forall f :: f in Bulks(parts) ==> Sound(f)
    ensures MeaningAll(Bulks(parts)) == Texts(parts)
  {
    if parts != [] {
      BulksMean(parts[1..]);
      assert Bulks(parts)[1..] == Bulks(parts[1..]);
    }
  }

  // A command is understood as the list of strings it was written from.
  lemma CommandRoundTrip(parts: seq<Bytes>, rest: Bytes)
    requires |parts| < INT64_LIMIT && forall p :: p in parts ==> |p| < INT64_LIMIT
    ensures Parse(Command(parts) + rest) == Read(Ok(Items(Texts(parts))), rest)
  {
    BulksMean(parts);
    RoundTrip(Multi(Bulks(parts)), rest);
  }

  lemma {:induction false} EncodeAllSnoc(frames: seq<Frame>, f: Frame)
    ensures EncodeAll(frames + [f]) == EncodeAll(frames) + Encode(f)
  {
    if frames == [] {
      assert [f][1..] == [];
    } else {
      assert (frames + [f])[1..] == frames[1..] + [f];
      EncodeAllSnoc(frames[1..], f);
    }
  }

  lemma {:induction false} BulksSnoc(parts: seq<Bytes>, p: Bytes)
    ensures Bulks(parts + [p]) == Bulks(parts) + [Bulk(p)]
  {
    if parts == [] {
      assert [p][1..] == [];
    } else {
      assert (parts + [p])[1..] == parts[1..] + [p];
      BulksSnoc(parts[1..], p);
    }
  }

  // A command of which Redis got only a part is no command to it.
  lemma CutIsNoCommand(parts: seq<Bytes>, n: nat)
    requires |parts| < INT64_LIMIT && forall p :: p in parts ==> |p| < INT64_LIMIT
    requires n < |Command(parts)|
    ensures Parse(Command(parts)[..n]).result == Err(Short)
  {
    BulksMean(parts);
    assert Command(parts) == Command(parts)[..n] + Command(parts)[n..];
    PartIsNoReply(Multi(Bulks(parts)), Command(parts)[..n], Command(parts)[n..]);
  }

  // The buffered connection: what Redis has got, what it has sent, and the
  // writer's buffer. The writer remembers an error and takes nothing after it.
  class Connection {
    var sent: Bytes
    var unread: Bytes
    var buffered: Bytes
    var failed: bool

    ghost predicate Valid()
      reads this
    {
      !failed ==> buffered == []
    }

    constructor (unread: Bytes)
      ensures Valid() && !failed && this.sent == [] && this.unread == unread
    {
      this.sent, this.unread, buffered, failed := [], unread, [], false;
    }

    // The socket takes so many bytes before it fails. When the buffer is pushed
    // makes no difference to what Redis gets in the end.
    method Flush(takes: nat) returns (ok: bool)
      requires !failed
      modifies this`sent, this`buffered, this`failed
      ensures Valid() && failed == !ok
      ensures ok <==> |old(buffered)| <= takes
      ensures sent == old(sent) + if ok then old(buffered) else old(buffered)[..takes]
    {
      ok := |buffered| <= takes;
      if ok {
        sent, buffered := sent + buffered, [];
      } else {
        sent, buffered, failed := sent + buffered[..takes], buffered[takes..], true;
      }
    }

    method WriteCommand(parts: seq<Bytes>, takes: nat) returns (ok: bool)
      requires Valid()
      modifies this`sent, this`buffered, this`failed
      ensures Valid() && failed == !ok
      ensures ok <==> !old(failed) && |Command(parts)| <= takes
      ensures if old(failed) then sent == old(sent) else sent == old(sent) + if ok then Command(parts) else Command(parts)[..takes]
    {
      if failed {
        return false;
      }
      buffered := [STAR] + Decimal(|parts|) + CRLF;
      ghost var header := buffered;
      assert parts[..0] == [];
      assert header + [] == header;
      var i := 0;
      while i < |parts|
        invariant 0 <= i <= |parts|
        invariant !failed && sent == old(sent) && buffered == header + EncodeAll(Bulks(parts[..i]))
      {
        WrittenBulk(header, parts, i);
        buffered := buffered + [DOLLAR] + Decimal(|parts[i]|) + CRLF + parts[i] + CRLF;
        i := i + 1;
      }
      assert parts[..|parts|] == parts;
      WrittenHeader(parts);
      ok := Flush(takes);
    }

    method ReadResponse() returns (r: Result<Value, Fault>)
      modifies this`unread
      ensures Read(r, unread) == Parse(old(unread))
      decreases |unread|, 0
    {
      if unread == [] {
        return Err(Short);
      }
      var prefix := unread[0];
      var line := TakeLine(unread[1..]);
      unread := line.rest;
      if line.result.Err? {
        return Err(line.result.error);
      }
      var text := line.result.value;
      if prefix == PLUS {
        return Ok(Text(text));
      } else if prefix == MINUS {
        return Err(ServerError(text));
      } else if prefix !in {COLON, DOLLAR, STAR} {
        return Err(BadPrefix(prefix));
      }
      var n := ParseInt(text);
      if n.None? {
        return Err(BadNumber(text));
      } else if prefix == COLON {
        return Ok(Integer(n.value));
      } else if n.value < 0 {
        return Ok(Nil);
      } else if prefix == DOLLAR {
        var bulk := TakeBulk(n.value, unread);
        unread := bulk.rest;
        return bulk.result;
      }
      var items := ReadItems(n.value);
      r := match items case Ok(values) => Ok(Items(values)) case Err(e) => Err(e);
    }

    // The loop over the items of an array.
    method ReadItems(count: nat) returns (r: Result<seq<Value>, Fault>)
      modifies this`unread
      ensures Read(r, unread) == ParseMany(count, old(unread))
      decreases |unread|, 1
    {
      var values: seq<Value> := [];
      ContinueNothing(ParseMany(count, unread));
      while |values| < count
        invariant |values| <= count && |unread| <= |old(unread)|
        invariant ParseMany(count, old(unread)) == Continue(values, ParseMany(count - |values|, unread))
      {
        ghost var before := unread;
        var item := ReadResponse();
        ManyStep(values, count - |values|, before);
        if item.Err? {
          return Err(item.error);
        }
        values := values + [item.value];
      }
      assert values + [] == values;
      return Ok(values);
    }
  }

  lemma WrittenBulk(header: Bytes, parts: seq<Bytes>, i: nat)
    requires i < |parts|
    ensures header + EncodeAll(Bulks(parts[..i])) + [DOLLAR] + Decimal(|parts[i]|) + CRLF + parts[i] + CRLF
         == header + EncodeAll(Bulks(parts[..i + 1]))
  {
    assert parts[..i + 1] == parts[..i] + [parts[i]];
    BulksSnoc(parts[..i], parts[i]);
    EncodeAllSnoc(Bulks(parts[..i]), Bulk(parts[i]));
  }

  lemma WrittenHeader(parts: seq<Bytes>)
    ensures [STAR] + Decimal(|parts|) + CRLF + EncodeAll(Bulks(parts)) == Command(parts)
  {
    BulksCount(parts);
    Reassociate([STAR], Decimal(|parts|), CRLF, EncodeAll(Bulks(parts)));
  }

  lemma Reassociate(a: Bytes, b: Bytes, c: Bytes, d: Bytes)
    ensures a + b + c + d == a + (b + (c + d))
  {
  }

  lemma {:induction false} BulksCount(parts: seq<Bytes>)
    ensures |Bulks(parts)| == |parts|
  {
    if parts != [] {
      BulksCount(parts[1..]);
    }
  }

  lemma ContinueNothing(r: Read<seq<Value>>)
    ensures Continue([], r) == r
  {
    if r.result.Ok? {
      assert [] + r.result.value == r.result.value;
    }
  }

  lemma ManyStep(values: seq<Value>, count: nat, s: Bytes)
    requires count > 0
    ensures Continue(values, ParseMany(count, s)) ==
      match Parse(s).result
      case Err(e) => Read(Err(e), Parse(s).rest)
      case Ok(v) => Continue(values + [v], ParseMany(count - 1, Parse(s).rest))
  {
    var first := Parse(s);
    if first.result.Ok? {
      var others := ParseMany(count - 1, first.rest);
      if others.result.Ok? {
        assert values + ([first.result.value] + others.result.value) == values + [first.result.value] + others.result.value;
      }
    }
  }

  // A read whose first values are already known.
  function Continue(values: seq<Value>, r: Read<seq<Value>>): Read<seq<Value>> {
    Read(match r.result case Ok(vs) => Ok(values + vs) case Err(e) => Err(e), r.rest)
  }
}
