// The newline-framed message reader and the queue of notifications that
// requests leave for completion.
module Rpc {
  import opened Common

  const NEWLINE := 10
  const MAX_MESSAGE := 256_000
  const MAX_TOTAL := 2_000_000
  const READ_SIZE := 16_384
  const MAX_PENDING := 512
  const MAX_TEXT := 8_192

  type Byte = b: int | 0 <= b < 256

  // What one read of the process's output finds.
  datatype Chunk = Data(bytes: seq<Byte>) | Silence | Closed

  datatype Error =
    | Timeout | Eof | Oversized | Invalid | ServerRequest | ToolsForbidden | Rejected | IdMismatch
    | OutputOversized | TurnFailed | CompactionUnverified | AnswerAmbiguous | Malformed | InputOversized

  // ------------------------------------------------------------------- framing

  // The bytes held, how many were ever read, and the reads still to come.
  datatype Wire = Wire(buffer: seq<Byte>, total: nat, chunks: seq<Chunk>)

  datatype Read = Line(line: seq<Byte>, rest: Wire) | Failed(error: Error)

  function Flat(chunks: seq<Chunk>): seq<Byte> {
    if chunks == [] then [] else (if chunks[0].Data? then chunks[0].bytes else []) + Flat(chunks[1..])
  }

  // Everything not yet delivered.
  function Unread(w: Wire): seq<Byte> { w.buffer + Flat(w.chunks) }

  function FirstNewline(bytes: seq<Byte>): (n: nat)
    ensures n <= |bytes| && (n < |bytes| ==> bytes[n] == NEWLINE) && forall i :: 0 <= i < n ==> bytes[i] != NEWLINE
  {
    if bytes == [] || bytes[0] == NEWLINE then 0 else 1 + FirstNewline(bytes[1..])
  }

  function ReadLine(w: Wire): Read
    decreases |w.chunks|
  {
    var n := FirstNewline(w.buffer);
    if n < |w.buffer| then Line(w.buffer[..n], w.(buffer := w.buffer[n + 1..]))
    else if w.chunks == [] || w.chunks[0].Silence? then Failed(Timeout)
    else if w.chunks[0].Closed? || w.chunks[0].bytes == [] then Failed(Eof)
    else
      var data := w.chunks[0].bytes;
      var w' := Wire(w.buffer + data, w.total + |data|, w.chunks[1..]);
      if w'.total > MAX_TOTAL || FirstNewline(w'.buffer) > MAX_MESSAGE then Failed(Oversized) else ReadLine(w')
  }

  // The lines of a byte string; what follows the last newline is no line.
  function Lines(bytes: seq<Byte>): seq<seq<Byte>>
    decreases |bytes|
  {
    var n := FirstNewline(bytes);
    if n == |bytes| then [] else [bytes[..n]] + Lines(bytes[n + 1..])
  }

  lemma {:induction false} NewlineAfter(a: seq<Byte>, b: seq<Byte>)
    ensures FirstNewline(a + b) == if FirstNewline(a) < |a| then FirstNewline(a) else |a| + FirstNewline(b)
  {
    if a == [] {
      assert a + b == b;
    } else if a[0] != NEWLINE {
      assert (a + b)[1..] == a[1..] + b;
      NewlineAfter(a[1..], b);
    }
  }

  // A line delivered is the first line of what was unread, however it arrived.
  lemma {:induction false} LineIsFirst(w: Wire)
    requires ReadLine(w).Line?
    ensures var n := FirstNewline(Unread(w));
            n < |Unread(w)| && ReadLine(w).line == Unread(w)[..n] && Unread(ReadLine(w).rest) == Unread(w)[n + 1..]
    decreases |w.chunks|
  {
    var n := FirstNewline(w.buffer);
    if n < |w.buffer| {
      HeldLine(w);
    } else {
      var w' := Wire(w.buffer + w.chunks[0].bytes, w.total + |w.chunks[0].bytes|, w.chunks[1..]);
      ReadKeepsUnread(w);
      assert ReadLine(w) == ReadLine(w');
      LineIsFirst(w');
    }
  }

  lemma HeldLine(w: Wire)
    requires FirstNewline(w.buffer) < |w.buffer|
    ensures var n := FirstNewline(w.buffer);
            FirstNewline(Unread(w)) == n && Unread(w)[..n] == w.buffer[..n]
            && Unread(w.(buffer := w.buffer[n + 1..])) == Unread(w)[n + 1..]
  {
    NewlineAfter(w.buffer, Flat(w.chunks));
    hide Flat, FirstNewline;
  }

  lemma ReadKeepsUnread(w: Wire)
    requires w.chunks != [] && w.chunks[0].Data?
    ensures Unread(Wire(w.buffer + w.chunks[0].bytes, w.total + |w.chunks[0].bytes|, w.chunks[1..])) == Unread(w)
  {
    assert Flat(w.chunks) == w.chunks[0].bytes + Flat(w.chunks[1..]);
    hide Flat;
  }

  // Every read brings some bytes, and what is left is within the total.
  predicate Flowing(w: Wire) {
    (forall i :: 0 <= i < |w.chunks| ==> w.chunks[i].Data? && 0 < |w.chunks[i].bytes| <= READ_SIZE)
    && w.total + |Flat(w.chunks)| <= MAX_TOTAL
  }

  predicate LinesFit(bytes: seq<Byte>)
    decreases |bytes|
  {
    var n := FirstNewline(bytes);
    n <= MAX_MESSAGE && (n < |bytes| ==> LinesFit(bytes[n + 1..]))
  }

  // Within the limits a line that is there is delivered.
  lemma {:induction false} FlowingDelivers(w: Wire)
    requires Flowing(w) && FirstNewline(Unread(w)) <= MAX_MESSAGE
    ensures ReadLine(w).Line? <==> FirstNewline(Unread(w)) < |Unread(w)|
    ensures ReadLine(w).Line? ==> Flowing(ReadLine(w).rest)
    decreases |w.chunks|
  {
    if FirstNewline(w.buffer) < |w.buffer| {
      HeldLine(w);
      hide Flat, FirstNewline, Unread;
    } else if w.chunks == [] {
      assert Unread(w) == w.buffer;
      hide Flat, FirstNewline, Unread;
    } else {
      FlowingRead(w);
      hide Flat, FirstNewline, ReadLine, Flowing, Unread;
      FlowingDelivers(Wire(w.buffer + w.chunks[0].bytes, w.total + |w.chunks[0].bytes|, w.chunks[1..]));
    }
  }

  // One more read of a stream within the limits is within them too.
  lemma FlowingRead(w: Wire)
    requires Flowing(w) && w.chunks != [] && FirstNewline(w.buffer) == |w.buffer|
             && FirstNewline(Unread(w)) <= MAX_MESSAGE
    ensures w.chunks[0].Data?
    ensures var w' := Wire(w.buffer + w.chunks[0].bytes, w.total + |w.chunks[0].bytes|, w.chunks[1..]);
            Flowing(w') && Unread(w') == Unread(w) && ReadLine(w) == ReadLine(w')
  {
    var w' := Wire(w.buffer + w.chunks[0].bytes, w.total + |w.chunks[0].bytes|, w.chunks[1..]);
    ReadKeepsUnread(w);
    assert |Flat(w.chunks)| == |w.chunks[0].bytes| + |Flat(w.chunks[1..])|;
    NewlineAfter(w'.buffer, Flat(w'.chunks));
    hide Flat, FirstNewline;
  }

  // All the lines successive reads deliver.
  function Delivered(w: Wire): seq<seq<Byte>>
    decreases |Unread(w)|
  {
    if ReadLine(w).Failed? then []
    else
      LineIsFirst(w);
      [ReadLine(w).line] + Delivered(ReadLine(w).rest)
  }

  // Main result: for every way of cutting a stream into reads, within the size
  // limits, what is delivered is exactly its lines, in order.
  lemma {:induction false} FramingIsExact(w: Wire)
    requires Flowing(w) && LinesFit(Unread(w))
    ensures Delivered(w) == Lines(Unread(w))
    decreases |Unread(w)|
  {
    FlowingDelivers(w);
    if ReadLine(w).Line? {
      LineIsFirst(w);
      FramingIsExact(ReadLine(w).rest);
    }
  }

  // What one read may leave behind the first newline.
  predicate Bounded(w: Wire) {
    var n := FirstNewline(w.buffer);
    n <= MAX_MESSAGE && (n < |w.buffer| ==> |w.buffer| - n <= READ_SIZE)
    && forall i :: 0 <= i < |w.chunks| && w.chunks[i].Data? ==> |w.chunks[i].bytes| <= READ_SIZE
  }

  // No line over the limit is ever delivered, though a line already held is
  // handed out without another check.
  lemma {:induction false} DeliveredFits(w: Wire)
    requires Bounded(w) && ReadLine(w).Line?
    ensures |ReadLine(w).line| <= MAX_MESSAGE && Bounded(ReadLine(w).rest)
    decreases |w.chunks|
  {
    var n := FirstNewline(w.buffer);
    if n < |w.buffer| {
      assert FirstNewline(w.buffer[n + 1..]) <= READ_SIZE;
    } else {
      var data := w.chunks[0].bytes;
      var w' := Wire(w.buffer + data, w.total + |data|, w.chunks[1..]);
      NewlineAfter(w.buffer, data);
      DeliveredFits(w');
    }
  }

  // ------------------------------------------------------------------ messages

  datatype Id = NoId | Number(n: int) | OtherId

  datatype Method = NoMethod | TurnStarted | TokenUsage | ItemStarted | ItemCompleted | TurnCompleted | OtherMethod

  datatype ItemKind = UserMessage | AgentMessage | Reasoning | Compaction | OtherItem

  datatype Item = Item(kind: ItemKind, id: string, text: Option<seq<Byte>>, final: bool)

  datatype TurnStatus = InProgress | Completed | OtherStatus

  datatype Turn = Turn(id: Option<string>, status: TurnStatus, error: bool)

  // `rejected` says that a response carries an error or no result object.
  datatype Message = Message(
    id: Id, verb: Method, rejected: bool, result: string, thread: Option<string>, eventTurn: Option<string>,
    item: Item, turn: Turn, usage: Option<nat>)

  // A line as JSON: not JSON, not an object, or a message.
  datatype Parsed = NotJson | NotObject | Parsed(message: Message)

  datatype Received = Got(message: Message, rest: Wire) | Raised(error: Error)

  function Accept(p: Parsed): Option<Error> {
    if !p.Parsed? then Some(Invalid)
    else if p.message.verb != NoMethod && p.message.id != NoId then Some(ServerRequest)
    else if p.message.verb.ItemStarted? && p.message.item.kind.OtherItem? then Some(ToolsForbidden)
    else None
  }

  function Receive(w: Wire, parse: seq<Byte> -> Parsed): Received {
    var r := ReadLine(w);
    if r.Failed? then Raised(r.error)
    else
      var refused := Accept(parse(r.line));
      if refused.Some? then Raised(refused.value) else Got(parse(r.line).message, r.rest)
  }

  // Every message successive receives give, and what stops them.
  datatype Tape = Tape(messages: seq<Message>, end: Error)

  function Stream(w: Wire, parse: seq<Byte> -> Parsed): Tape
    decreases |Unread(w)|
  {
    var r := Receive(w, parse);
    if r.Raised? then Tape([], r.error)
    else
      LineIsFirst(w);
      var t := Stream(r.rest, parse);
      Tape([r.message] + t.messages, t.end)
  }

  // ------------------------------------------------------------------ requests

  datatype Reply = Reply(result: string) | NoReply(error: Error)

  // What a request leaves: the reply, the queue, and the reads still to come.
  datatype Asked = Asked(reply: Reply, pending: seq<Message>, rest: Wire)

  function RequestFrom(w: Wire, pending: seq<Message>, key: int, parse: seq<Byte> -> Parsed): Asked
    decreases |Unread(w)|
  {
    var r := Receive(w, parse);
    if r.Raised? then Asked(NoReply(r.error), pending, w)
    else if r.message.id == Number(key)
    then Asked(if r.message.rejected then NoReply(Rejected) else Reply(r.message.result), pending, r.rest)
    else if r.message.id != NoId then Asked(NoReply(IdMismatch), pending, r.rest)
    else if |pending| >= MAX_PENDING then Asked(NoReply(Oversized), pending, r.rest)
    else
      ReceiveShrinks(w, parse);
      RequestFrom(r.rest, pending + [r.message], key, parse)
  }

  lemma ReceiveShrinks(w: Wire, parse: seq<Byte> -> Parsed)
    requires Receive(w, parse).Got?
    ensures |Unread(Receive(w, parse).rest)| < |Unread(w)|
  {
    LineIsFirst(w);
  }

  // ---------------------------------------------------------------- completion

  datatype Scan = Scan(texts: map<string, seq<Byte>>, compacted: bool, compactTurn: Option<string>, usage: Option<nat>)

  datatype Finding =
    | More(scan: Scan)
    | Done(id: string, texts: map<string, seq<Byte>>, usage: Option<nat>)
    | Bad(error: Error)

  datatype Awaited = Awaited(thread: string, turn: Option<string>, compact: bool)

  function Finish(s: Scan, m: Message, a: Awaited): Finding {
    if m.turn.id != (if a.compact then s.compactTurn else a.turn) then More(s)
    else if !m.turn.status.Completed? || m.turn.error then Bad(TurnFailed)
    else if a.compact && !s.compacted then Bad(CompactionUnverified)
    else if !a.compact && |s.texts| != 1 then Bad(AnswerAmbiguous)
    else if m.turn.id.None? then Bad(Malformed)
    else if a.compact then Done(m.turn.id.value, map[], s.usage)
    else Done(m.turn.id.value, s.texts, if s.usage == Some(0) then None else s.usage)
  }

  function Note(s: Scan, m: Message, a: Awaited): Finding {
    if m.thread != Some(a.thread) then More(s)
    else if a.compact && m.verb.TurnStarted? && m.turn.status.InProgress? && m.turn.id.None? then Bad(Malformed)
    else
      var s1 := if a.compact && m.verb.TurnStarted? && m.turn.status.InProgress? then s.(compactTurn := m.turn.id)
                else s;
      if a.turn.Some? && m.eventTurn.Some? && m.eventTurn != a.turn then More(s1)
      else
        match m.verb
        case TokenUsage => More(if m.eventTurn == a.turn && a.turn.Some? then s1.(usage := m.usage) else s1)
        case ItemCompleted =>
          if m.item.kind.Compaction? && m.eventTurn == s1.compactTurn && s1.compactTurn.Some?
          then More(s1.(compacted := true))
          else if m.item.kind.AgentMessage? && !a.compact && m.eventTurn == a.turn then
            if m.item.text.None? || |m.item.text.value| > MAX_TEXT then Bad(OutputOversized)
            else More(if m.item.final then s1.(texts := s1.texts[m.item.id := m.item.text.value]) else s1)
          else More(s1)
        case TurnCompleted => Finish(s1, m, a)
        case _ => More(s1)
  }

  // What completion makes of messages taken one after another, and how many it took.
  function Complete(s: Scan, messages: seq<Message>, end: Error, a: Awaited): (Finding, nat)
    decreases |messages|
  {
    if messages == [] then (Bad(end), 0)
    else
      var finding := Note(s, messages[0], a);
      if !finding.More? then (finding, 1)
      else
        var (result, n) := Complete(finding.scan, messages[1..], end, a);
        (result, n + 1)
  }

  const BEGUN := Scan(map[], false, None, None)

  lemma StreamStep(w: Wire, parse: seq<Byte> -> Parsed)
    ensures var r, t := Receive(w, parse), Stream(w, parse);
            if r.Raised? then t == Tape([], r.error)
            else t.messages == [r.message] + Stream(r.rest, parse).messages && t.end == Stream(r.rest, parse).end
  {
    hide Receive;
  }

  lemma CompleteStep(s: Scan, messages: seq<Message>, end: Error, a: Awaited)
    ensures var r := Complete(s, messages, end, a);
            if messages == [] then r == (Bad(end), 0)
            else
              var finding := Note(s, messages[0], a);
              if !finding.More? then r == (finding, 1)
              else
                r.0 == Complete(finding.scan, messages[1..], end, a).0
                && r.1 == Complete(finding.scan, messages[1..], end, a).1 + 1
  {
    hide Note;
  }

  class Connection {
    const parse: seq<Byte> -> Parsed
    var buffer: seq<Byte>
    var total: nat
    var chunks: seq<Chunk>
    var sequence: nat
    var pending: seq<Message>
    var usage: Option<nat>

    constructor (parse: seq<Byte> -> Parsed, chunks: seq<Chunk>)
      ensures this.parse == parse && At() == Wire([], 0, chunks) && sequence == 0 && pending == [] && usage == None
    {
      this.parse, this.chunks := parse, chunks;
      buffer, total, sequence, pending, usage := [], 0, 0, [], None;
    }

    function At(): Wire
      reads this
    {
      Wire(buffer, total, chunks)
    }

    method Fetch() returns (r: Read)
      modifies this`buffer, this`total, this`chunks
      ensures old(ReadLine(At())).Failed? ==> r == old(ReadLine(At()))
      ensures old(ReadLine(At())).Line? ==> r == old(ReadLine(At())) && At() == r.rest
    {
      ghost var w := At();
      while FirstNewline(buffer) == |buffer|
        invariant ReadLine(w) == ReadLine(At())
        decreases |chunks|
      {
        if chunks == [] || chunks[0].Silence? { return Failed(Timeout); }
        if chunks[0].Closed? || chunks[0].bytes == [] { return Failed(Eof); }
        var data := chunks[0].bytes;
        chunks := chunks[1..];
        total := total + |data|;
        buffer := buffer + data;
        if total > MAX_TOTAL || FirstNewline(buffer) > MAX_MESSAGE { return Failed(Oversized); }
      }
      var n := FirstNewline(buffer);
      var line := buffer[..n];
      buffer := buffer[n + 1..];
      r := Line(line, At());
    }

    method Next() returns (r: Received)
      modifies this`buffer, this`total, this`chunks
      ensures r == old(Receive(At(), parse)) && (r.Got? ==> At() == r.rest)
    {
      var read := Fetch();
      if read.Failed? { return Raised(read.error); }
      var p := parse(read.line);
      var refused := Accept(p);
      if refused.Some? { return Raised(refused.value); }
      r := Got(p.message, read.rest);
    }

    // The reply to a request; `unsent` is the error of sending it, if any.
    method Request(unsent: Option<Error>) returns (reply: Reply)
      modifies this
      ensures sequence == old(sequence) + 1 && usage == old(usage)
      ensures unsent.Some? ==> reply == NoReply(unsent.value) && pending == old(pending) && At() == old(At())
      ensures unsent.None? ==>
                var asked := RequestFrom(old(At()), old(pending), sequence, parse);
                reply == asked.reply && pending == asked.pending && (reply.Reply? ==> At() == asked.rest)
    {
      sequence := sequence + 1;
      if unsent.Some? { return NoReply(unsent.value); }
      hide Receive, Unread;
      while true
        invariant sequence == old(sequence) + 1 && usage == old(usage)
        invariant RequestFrom(old(At()), old(pending), sequence, parse) == RequestFrom(At(), pending, sequence, parse)
        decreases |Unread(At())|
      {
        ghost var w := At();
        var r := Next();
        if r.Raised? { return NoReply(r.error); }
        ReceiveShrinks(w, parse);
        var m := r.message;
        if m.id == Number(sequence) {
          return if m.rejected then NoReply(Rejected) else Reply(m.result);
        }
        if m.id != NoId { return NoReply(IdMismatch); }
        if |pending| >= MAX_PENDING { return NoReply(Oversized); }
        pending := pending + [m];
      }
    }

    // Completion of a turn.
    method Await(a: Awaited) returns (finding: Finding)
      modifies this
      ensures sequence == old(sequence)
      ensures var ended := AwaitFrom(BEGUN, old(pending), old(At()), a, parse);
              finding == ended.finding && pending == ended.pending
              && (finding.Done? ==> At() == ended.rest && usage == finding.usage)
    {
      hide Receive, Unread, Note;
      usage := None;
      var scan := BEGUN;
      while true
        invariant sequence == old(sequence)
        invariant AwaitFrom(BEGUN, old(pending), old(At()), a, parse) == AwaitFrom(scan, pending, At(), a, parse)
        decreases |Unread(At())| + |pending|
      {
        var m: Message;
        if pending != [] {
          m := pending[0];
          pending := pending[1..];
        } else {
          ghost var w := At();
          var r := Next();
          if r.Raised? { return Bad(r.error); }
          ReceiveShrinks(w, parse);
          m := r.message;
        }
        var noted := Note(scan, m, a);
        if !noted.More? {
          if noted.Done? { usage := noted.usage; }
          return noted;
        }
        scan := noted.scan;
        usage := scan.usage;
      }
    }
  }

  datatype Ended = Ended(finding: Finding, pending: seq<Message>, rest: Wire)

  function AwaitFrom(s: Scan, pending: seq<Message>, w: Wire, a: Awaited, parse: seq<Byte> -> Parsed): Ended
    decreases |Unread(w)| + |pending|
  {
    if pending != [] then
      var noted := Note(s, pending[0], a);
      if noted.More? then AwaitFrom(noted.scan, pending[1..], w, a, parse) else Ended(noted, pending[1..], w)
    else
      var r := Receive(w, parse);
      if r.Raised? then Ended(Bad(r.error), [], w)
      else
        ReceiveShrinks(w, parse);
        var noted := Note(s, r.message, a);
        if noted.More? then AwaitFrom(noted.scan, [], r.rest, a, parse) else Ended(noted, [], r.rest)
  }

  // Everything still to be consumed: what is queued, then what is yet to arrive.
  function Inbox(pending: seq<Message>, w: Wire, parse: seq<Byte> -> Parsed): seq<Message> {
    pending + Stream(w, parse).messages
  }

  // A request takes its response out of the stream and queues, in order, the
  // notifications before it: nothing is lost, doubled or moved.
  lemma {:induction false} RequestQueues(
      w: Wire, pending: seq<Message>, key: int, parse: seq<Byte> -> Parsed) returns (n: nat)
    ensures var asked, t := RequestFrom(w, pending, key, parse), Stream(w, parse);
            n <= |t.messages| && asked.pending == pending + t.messages[..n]
            && (forall i :: 0 <= i < n ==> t.messages[i].id == NoId)
            && (asked.reply.Reply? ==>
                  n < |t.messages| && t.messages[n].id == Number(key) && asked.reply == Reply(t.messages[n].result)
                  && Inbox(asked.pending, asked.rest, parse) == pending + t.messages[..n] + t.messages[n + 1..])
    decreases |Unread(w)|
  {
    StreamStep(w, parse);
    n := 0;
    var t := Stream(w, parse);
    var asked := RequestFrom(w, pending, key, parse);
    assert t.messages[..0] == [];
    var r := Receive(w, parse);
    if r.Got? {
      ReceiveShrinks(w, parse);
      hide Receive, Stream, Unread;
      if r.message.id == NoId && |pending| < MAX_PENDING {
        var t' := Stream(r.rest, parse);
        n := RequestQueues(r.rest, pending + [r.message], key, parse);
        Shift(pending, r.message, t'.messages, n);
        n := n + 1;
      } else {
        assert t.messages[1..] == Stream(r.rest, parse).messages;
      }
    }
  }

  lemma Shift<T>(xs: seq<T>, x: T, ys: seq<T>, n: nat)
    requires n <= |ys|
    ensures (xs + [x]) + ys[..n] == xs + ([x] + ys)[..n + 1]
    ensures n < |ys| ==> (xs + [x]) + ys[..n] + ys[n + 1..] == xs + ([x] + ys)[..n + 1] + ([x] + ys)[n + 2..]
  {
    assert ([x] + ys)[..n + 1] == [x] + ys[..n];
    if n < |ys| { assert ([x] + ys)[n + 2..] == ys[n + 1..]; }
  }

  // Completion makes of the queue and the stream what it would make of one
  // sequence, the queued messages first; it takes each message once, in order,
  // and reads nothing new while something is queued.
  ghost predicate Consumes(s: Scan, pending: seq<Message>, w: Wire, a: Awaited, parse: seq<Byte> -> Parsed) {
    var ended, inbox := AwaitFrom(s, pending, w, a, parse), Inbox(pending, w, parse);
    var (finding, n) := Complete(s, inbox, Stream(w, parse).end, a);
    ended.finding == finding && !finding.More? && n <= |inbox|
    && ended.pending == (if n <= |pending| then pending[n..] else [])
    && (finding.Done? ==> Inbox(ended.pending, ended.rest, parse) == inbox[n..])
    && (ended.pending != [] ==> ended.rest == w)
  }

  lemma OneQueued(s: Scan, pending: seq<Message>, w: Wire, a: Awaited, parse: seq<Byte> -> Parsed)
    requires pending != []
    requires Note(s, pending[0], a).More? ==> Consumes(Note(s, pending[0], a).scan, pending[1..], w, a, parse)
    ensures Consumes(s, pending, w, a, parse)
  {
    var inbox, end := Inbox(pending, w, parse), Stream(w, parse).end;
    CompleteStep(s, inbox, end, a);
    assert inbox[1..] == Inbox(pending[1..], w, parse);
    var noted := Note(s, pending[0], a);
    assert AwaitFrom(s, pending, w, a, parse)
        == if noted.More? then AwaitFrom(noted.scan, pending[1..], w, a, parse) else Ended(noted, pending[1..], w);
    hide Note, Receive, Stream, Complete, Unread, AwaitFrom;
    if noted.More? {
      var n := Complete(noted.scan, inbox[1..], end, a).1;
      assert n <= |inbox| - 1 ==> inbox[1..][n..] == inbox[n + 1..];
      assert n <= |pending| - 1 ==> pending[1..][n..] == pending[n + 1..];
    }
  }

  lemma NoneQueued(s: Scan, w: Wire, a: Awaited, parse: seq<Byte> -> Parsed)
    requires var r := Receive(w, parse);
             r.Got? && Note(s, r.message, a).More? ==> Consumes(Note(s, r.message, a).scan, [], r.rest, a, parse)
    ensures Consumes(s, [], w, a, parse)
  {
    StreamStep(w, parse);
    var inbox, end, r := Inbox([], w, parse), Stream(w, parse).end, Receive(w, parse);
    CompleteStep(s, inbox, end, a);
    if r.Got? {
      var noted := Note(s, r.message, a);
      assert inbox[1..] == Inbox([], r.rest, parse);
      assert AwaitFrom(s, [], w, a, parse)
             == if noted.More? then AwaitFrom(noted.scan, [], r.rest, a, parse) else Ended(noted, [], r.rest);
      hide Note, Receive, Stream, Complete, Unread, AwaitFrom;
      if noted.More? {
        var n := Complete(noted.scan, inbox[1..], end, a).1;
        assert n <= |inbox| - 1 ==> inbox[1..][n..] == inbox[n + 1..];
      }
    } else {
      assert inbox == [];
    }
  }

  // Main result: every completion consumes so.
  lemma {:induction false} AwaitConsumes(
      s: Scan, pending: seq<Message>, w: Wire, a: Awaited, parse: seq<Byte> -> Parsed)
    ensures Consumes(s, pending, w, a, parse)
    decreases |Unread(w)| + |pending|
  {
    hide Note, Receive, Stream, Complete, Consumes, AwaitFrom;
    if pending != [] {
      if Note(s, pending[0], a).More? { AwaitConsumes(Note(s, pending[0], a).scan, pending[1..], w, a, parse); }
      OneQueued(s, pending, w, a, parse);
    } else {
      var r := Receive(w, parse);
      if r.Got? {
        ReceiveShrinks(w, parse);
        if Note(s, r.message, a).More? { AwaitConsumes(Note(s, r.message, a).scan, [], r.rest, a, parse); }
      }
      NoneQueued(s, w, a, parse);
    }
  }
}
