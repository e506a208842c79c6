/** The event stream: the browser's incremental parser, the server's printer, and resumption by cursor.  The block
    format is that of section 9.2 of the HTML Standard, as far as both sides use it. */
module EventStream {
  import opened Domain

  datatype Frame = Frame(event: string, data: string, id: Option<string>)

  // ---------------------------------------------------------------- the parser's patterns

  /** The length of a line break, `\r?\n`, at position i; 0 if there is none. */
  function BreakAt(s: string, i: nat): (n: nat)
    ensures n <= 2 && (n > 0 ==> i + n <= |s|)
  {
    if i < |s| && s[i] == '\n' then 1
    else if i + 1 < |s| && s[i] == '\r' && s[i + 1] == '\n' then 2
    else 0
  }

  /** The length of a blank line, `\r?\n\r?\n`, that starts here; 0 if none does. */
  function BlankAt(s: string): (n: nat)
    ensures n <= |s|
  {
    var first := BreakAt(s, 0);
    if first == 0 then 0
    else
      var second := BreakAt(s, first);
      if second == 0 then 0 else first + second
  }

  /** The text before the first blank line, and the text after it. */
  function NextBlock(s: string): (r: Option<(string, string)>)
    ensures r.Some? ==> |r.value.1| < |s|
    decreases |s|
  {
    if s == "" then None
    else if BlankAt(s) > 0 then Some(("", s[BlankAt(s)..]))
    else
      var next := NextBlock(s[1..]);
      if next.None? then None else Some(([s[0]] + next.value.0, next.value.1))
  }

  /** `split(/\r?\n/)`. */
  function Lines(s: string): (r: seq<string>)
    ensures r != []
    decreases |s|
  {
    if s == "" then [""]
    else if BreakAt(s, 0) > 0 then [""] + Lines(s[BreakAt(s, 0)..])
    else
      var rest := Lines(s[1..]);
      [[s[0]] + rest[0]] + rest[1..]
  }

  function IndexOf(s: string, c: char): Option<nat>
    decreases |s|
  {
    if s == "" then None
    else if s[0] == c then Some(0)
    else
      var i := IndexOf(s[1..], c);
      if i.None? then None else Some(i.value + 1)
  }

  lemma {:induction false} IndexInside(s: string, c: char)
    ensures IndexOf(s, c).Some? ==> IndexOf(s, c).value < |s| && s[IndexOf(s, c).value] == c
    ensures IndexOf(s, c).None? ==> c !in s
    decreases |s|
  {
    if s != "" {
      IndexInside(s[1..], c);
    }
  }

  /** A line's field name and value; one space after the colon is not part of the value. */
  function Field(line: string): (string, string) {
    IndexInside(line, ':');
    var colon := IndexOf(line, ':');
    if colon.None? then (line, "")
    else
      var value := line[colon.value + 1..];
      (line[..colon.value], if value != "" && value[0] == ' ' then value[1..] else value)
  }

  datatype Fields = Fields(event: string, id: Option<string>, data: seq<string>)

  function ReadLine(f: Fields, line: string): Fields {
    if line != "" && line[0] == ':' then f
    else
      var (name, value) := Field(line);
      if name == "data" then f.(data := f.data + [value])
      else if name == "event" then f.(event := value)
      else if name == "id" && '\0' !in value then f.(id := Some(value))
      else f
  }

  function ReadLines(f: Fields, lines: seq<string>): Fields
    decreases |lines|
  {
    if lines == [] then f else ReadLines(ReadLine(f, lines[0]), lines[1..])
  }

  function Join(lines: seq<string>): string
    decreases |lines|
  {
    if lines == [] then "" else if |lines| == 1 then lines[0] else lines[0] + "\n" + Join(lines[1..])
  }

  const NO_FIELDS := Fields("message", None, [])

  /** The frame of one block; a block without data has none. */
  function BlockFrame(raw: string): Option<Frame> {
    var f := ReadLines(NO_FIELDS, Lines(raw));
    if f.data == [] then None else Some(Frame(f.event, Join(f.data), f.id))
  }

  function OneFrame(raw: string): seq<Frame> {
    if BlockFrame(raw).Some? then [BlockFrame(raw).value] else []
  }

  /** All complete blocks of a text, and what is left of it. */
  function Frames(s: string): (seq<Frame>, string)
    decreases |s|
  {
    var next := NextBlock(s);
    if next.None? then ([], s)
    else
      var (frames, rest) := Frames(next.value.1);
      (OneFrame(next.value.0) + frames, rest)
  }

  // ---------------------------------------------------------------- the parser

  const MAX_BUFFER := 2_000_000

  class SseParser {
    var buffer: string

    constructor ()
      ensures buffer == ""
    {
      buffer := "";
    }

    /** `push`.  None is the error of a buffer that grew too long. */
    method Push(chunk: string) returns (frames: Option<seq<Frame>>)
      modifies this
      ensures buffer == Frames(old(buffer) + chunk).1
      ensures frames == if |buffer| > MAX_BUFFER then None else Some(Frames(old(buffer) + chunk).0)
    {
      hide Frames, NextBlock, OneFrame;
      buffer := buffer + chunk;
      ghost var text := buffer;
      var found: seq<Frame> := [];
      assert [] + Frames(text).0 == Frames(text).0;
      var next := FindBlock(buffer);
      while next.Some?
        invariant next == NextBlock(buffer)
        invariant Frames(text).0 == found + Frames(buffer).0 && Frames(text).1 == Frames(buffer).1
        decreases |buffer|
      {
        FramesOfBlock(buffer);
        ghost var (raw, rest) := next.value;
        assert found + (OneFrame(raw) + Frames(rest).0) == found + OneFrame(raw) + Frames(rest).0;
        buffer := next.value.1;
        var frame := ReadBlock(next.value.0);
        found := found + frame;
        next := FindBlock(buffer);
      }
      FramesOfRest(buffer);
      assert found + [] == found;
      if |buffer| > MAX_BUFFER {
        return None;
      }
      return Some(found);
    }
  }

  lemma FramesOfBlock(s: string)
    requires NextBlock(s).Some?
    ensures |NextBlock(s).value.1| < |s|
    ensures var (raw, rest) := NextBlock(s).value;
            Frames(s).0 == OneFrame(raw) + Frames(rest).0 && Frames(s).1 == Frames(rest).1
  {}

  /** The search of the blank line. */
  method FindBlock(s: string) returns (block: Option<(string, string)>)
    ensures block == NextBlock(s)
  {
    hide BlankAt;
    var i := 0;
    PrefixNothing(s);
    while i < |s|
      invariant 0 <= i <= |s|
      invariant NextBlock(s) == Prefixed(s[..i], NextBlock(s[i..]))
    {
      var n := BlankAt(s[i..]);
      if n > 0 {
        assert s[i..][n..] == s[i + n..] && s[..i] + "" == s[..i];
        return Some((s[..i], s[i + n..]));
      }
      PrefixMoves(s, i);
      i := i + 1;
    }
    assert s[i..] == "";
    return None;
  }

  lemma PrefixNothing(s: string)
    ensures NextBlock(s) == Prefixed(s[..0], NextBlock(s[0..]))
  {
    assert s[0..] == s;
    if NextBlock(s).Some? {
      assert s[..0] + NextBlock(s).value.0 == NextBlock(s).value.0;
    }
  }

  lemma PrefixMoves(s: string, i: nat)
    requires i < |s| && BlankAt(s[i..]) == 0
    ensures Prefixed(s[..i], NextBlock(s[i..])) == Prefixed(s[..i + 1], NextBlock(s[i + 1..]))
  {
    assert s[i..][1..] == s[i + 1..];
    var rest := NextBlock(s[i + 1..]);
    if rest.Some? {
      assert s[..i] + ([s[i]] + rest.value.0) == s[..i + 1] + rest.value.0;
    }
  }

  function Prefixed(before: string, block: Option<(string, string)>): Option<(string, string)> {
    if block.None? then None else Some((before + block.value.0, block.value.1))
  }

  /** The loop over a block's lines, and the frame if there was data. */
  method ReadBlock(raw: string) returns (frame: seq<Frame>)
    ensures frame == OneFrame(raw)
  {
    var lines, f, i := Lines(raw), NO_FIELDS, 0;
    while i < |lines|
      invariant 0 <= i <= |lines|
      invariant ReadLines(NO_FIELDS, lines) == ReadLines(f, lines[i..])
    {
      assert lines[i..][1..] == lines[i + 1..];
      f := ReadLine(f, lines[i]);
      i := i + 1;
    }
    return if f.data == [] then [] else [Frame(f.event, Join(f.data), f.id)];
  }

  // ---------------------------------------------------------------- chunks do not matter

  lemma BlankExtends(a: string, b: string)
    ensures BlankAt(a) > 0 ==> BlankAt(a + b) == BlankAt(a)
    ensures BlankAt(a) == 0 && a != "" && NextBlock(a[1..]).Some? ==> BlankAt(a + b) == 0
  {
    if a != "" && NextBlock(a[1..]).Some? {
      BlockNeedsTwo(a[1..]);
    }
  }

  /** A text that holds a blank line has two characters, and if no more than two, is one. */
  lemma {:induction false} BlockNeedsTwo(s: string)
    requires NextBlock(s).Some?
    ensures |s| >= 2 && (|s| == 2 ==> s[0] == '\n' && s[1] == '\n')
    decreases |s|
  {
    if BlankAt(s) == 0 {
      BlockNeedsTwo(s[1..]);
    }
  }

  lemma {:induction false} BlockExtends(a: string, b: string)
    requires NextBlock(a).Some?
    ensures NextBlock(a + b) == Some((NextBlock(a).value.0, NextBlock(a).value.1 + b))
    decreases |a|
  {
    BlankExtends(a, b);
    var n := BlankAt(a);
    if n > 0 {
      assert (a + b)[n..] == a[n..] + b;
    } else {
      BlockExtends(a[1..], b);
      assert (a + b)[1..] == a[1..] + b && (a + b)[0] == a[0];
    }
  }

  /** Pushing two chunks gives the frames and the buffer that pushing them as one gives. */
  lemma {:induction false} ChunksDoNotMatter(a: string, b: string)
    ensures Frames(a + b) == (Frames(a).0 + Frames(Frames(a).1 + b).0, Frames(Frames(a).1 + b).1)
    decreases |a|
  {
    if NextBlock(a).Some? {
      var (raw, rest) := NextBlock(a).value;
      BlockExtends(a, b);
      ChunksDoNotMatter(rest, b);
      assert OneFrame(raw) + (Frames(rest).0 + Frames(Frames(rest).1 + b).0)
          == OneFrame(raw) + Frames(rest).0 + Frames(Frames(rest).1 + b).0;
    } else {
      assert [] + Frames(a + b).0 == Frames(a + b).0;
    }
  }

  /** What a parser that starts with `buffer` returns for a sequence of chunks, and its buffer at the end. */
  function PushAll(buffer: string, chunks: seq<string>): (seq<Frame>, string)
    decreases |chunks|
  {
    if chunks == [] then ([], buffer)
    else
      var (first, rest) := Frames(buffer + chunks[0]);
      var (frames, last) := PushAll(rest, chunks[1..]);
      (first + frames, last)
  }

  function Concat(chunks: seq<string>): string
    decreases |chunks|
  {
    if chunks == [] then "" else chunks[0] + Concat(chunks[1..])
  }

  lemma {:induction false} FramesSettled(s: string)
    ensures NextBlock(Frames(s).1).None?
    decreases |s|
  {
    if NextBlock(s).Some? {
      FramesSettled(NextBlock(s).value.1);
    }
  }

  lemma FramesOfRest(s: string)
    requires NextBlock(s).None?
    ensures Frames(s) == ([], s)
  {}

  /** Any chunking of a text gives the same frames as the whole text. */
  lemma {:induction false} ChunkIndependence(buffer: string, chunks: seq<string>)
    requires NextBlock(buffer).None?
    ensures PushAll(buffer, chunks) == Frames(buffer + Concat(chunks))
    decreases |chunks|
  {
    hide Frames, NextBlock;
    if chunks == [] {
      assert buffer + Concat(chunks) == buffer;
      FramesOfRest(buffer);
    } else {
      var first := buffer + chunks[0];
      FramesSettled(first);
      ChunkIndependence(Frames(first).1, chunks[1..]);
      ChunksDoNotMatter(first, Concat(chunks[1..]));
      assert buffer + Concat(chunks) == first + Concat(chunks[1..]);
    }
  }

  // ---------------------------------------------------------------- the server's printer

  /** What the server writes: a durable event, a passing one, or a comment that keeps the connection open. */
  datatype Block = Durable(id: string, event: string, data: string) | Passing(data: string) | Heartbeat

  predicate Clean(s: string) {
    '\n' !in s && '\r' !in s
  }

  /** JSON is printed on one line, and an id is a run's id and a number. */
  predicate Printable(b: Block) {
    match b
    case Durable(id, event, data) => Clean(id) && '\0' !in id && Clean(event) && Clean(data)
    case Passing(data) => Clean(data)
    case Heartbeat => true
  }

  predicate AllPrintable(blocks: seq<Block>) {
    forall i :: 0 <= i < |blocks| ==> Printable(blocks[i])
  }

  function LinesOf(b: Block): seq<string> {
    match b
    case Durable(id, event, data) => ["id: " + id, "event: " + event, "data: " + data]
    case Passing(data) => ["event: message.delta", "data: " + data]
    case Heartbeat => [": heartbeat"]
  }

  function FrameOf(b: Block): seq<Frame> {
    match b
    case Durable(id, event, data) => [Frame(event, data, Some(id))]
    case Passing(data) => [Frame("message.delta", data, None)]
    case Heartbeat => []
  }

  function Print(b: Block): string {
    Join(LinesOf(b)) + "\n\n"
  }

  function PrintAll(blocks: seq<Block>): string
    decreases |blocks|
  {
    if blocks == [] then "" else Print(blocks[0]) + PrintAll(blocks[1..])
  }

  function FramesOf(blocks: seq<Block>): seq<Frame>
    decreases |blocks|
  {
    if blocks == [] then [] else FrameOf(blocks[0]) + FramesOf(blocks[1..])
  }

  predicate CleanLines(lines: seq<string>) {
    lines != [] && forall i :: 0 <= i < |lines| ==> lines[i] != "" && Clean(lines[i])
  }

  lemma {:induction false} BlockSkipsLine(line: string, t: string)
    requires Clean(line)
    ensures NextBlock(line + t) == Prefixed(line, NextBlock(t))
    decreases |line|
  {
    if line == "" {
      assert line + t == t;
      if NextBlock(t).Some? {
        assert line + NextBlock(t).value.0 == NextBlock(t).value.0;
      }
    } else {
      assert (line + t)[0] == line[0] && (line + t)[1..] == line[1..] + t;
      BlockSkipsLine(line[1..], t);
      if NextBlock(t).Some? {
        assert [line[0]] + (line[1..] + NextBlock(t).value.0) == line + NextBlock(t).value.0;
      }
    }
  }

  lemma BlankLine(rest: string)
    ensures NextBlock("\n\n" + rest) == Some(("", rest))
  {
    assert ("\n\n" + rest)[2..] == rest;
  }

  lemma BreakGoesOn(tail: string)
    requires tail != "" && tail[0] != '\n' && tail[0] != '\r'
    ensures NextBlock("\n" + tail) == Prefixed("\n", NextBlock(tail))
  {
    var s := "\n" + tail;
    assert s[1..] == tail && s[1] == tail[0] && [s[0]] == "\n";
    assert BlankAt(s) == 0;
  }

  lemma {:induction false} FirstBlock(lines: seq<string>, rest: string)
    requires CleanLines(lines)
    ensures NextBlock(Join(lines) + "\n\n" + rest) == Some((Join(lines), rest))
    decreases |lines|
  {
    hide NextBlock;
    if |lines| == 1 {
      BlankLine(rest);
      BlockSkipsLine(lines[0], "\n\n" + rest);
      assert Join(lines) + "\n\n" + rest == lines[0] + ("\n\n" + rest) && lines[0] + "" == lines[0];
    } else {
      var inner := Join(lines[1..]);
      var tail := inner + "\n\n" + rest;
      FirstBlock(lines[1..], rest);
      JoinStarts(lines[1..]);
      assert tail[0] == lines[1][0];
      BreakGoesOn(tail);
      BlockSkipsLine(lines[0], "\n" + tail);
      assert Join(lines) + "\n\n" + rest == lines[0] + ("\n" + tail);
      assert lines[0] + ("\n" + inner) == Join(lines);
    }
  }

  lemma JoinStarts(lines: seq<string>)
    requires CleanLines(lines)
    ensures Join(lines) != "" && Join(lines)[0] == lines[0][0]
  {}

  lemma {:induction false} LinesSkipLine(line: string, t: string)
    requires Clean(line)
    ensures Lines(line + t) == [line + Lines(t)[0]] + Lines(t)[1..]
    decreases |line|
  {
    if line == "" {
      assert line + t == t && line + Lines(t)[0] == Lines(t)[0];
    } else {
      assert (line + t)[0] == line[0] && (line + t)[1..] == line[1..] + t;
      LinesSkipLine(line[1..], t);
      assert [line[0]] + (line[1..] + Lines(t)[0]) == line + Lines(t)[0];
    }
  }

  lemma {:induction false} LinesOfJoin(lines: seq<string>)
    requires CleanLines(lines)
    ensures Lines(Join(lines)) == lines
    decreases |lines|
  {
    if |lines| == 1 {
      LinesSkipLine(lines[0], "");
      assert lines[0] + "" == lines[0];
    } else {
      LinesOfJoin(lines[1..]);
      var tail := Join(lines[1..]);
      assert Join(lines) == lines[0] + ("\n" + tail);
      LinesSkipLine(lines[0], "\n" + tail);
      assert ("\n" + tail)[1..] == tail;
      assert Lines("\n" + tail) == [""] + lines[1..];
      assert lines[0] + "" == lines[0];
    }
  }

  lemma {:induction false} IndexOfColon(name: string, value: string)
    requires ':' !in name
    ensures IndexOf(name + ": " + value, ':') == Some(|name|)
    decreases |name|
  {
    var s := name + ": " + value;
    if name == "" {
      assert s[0] == ':';
    } else {
      assert s[0] == name[0] && s[1..] == name[1..] + ": " + value;
      IndexOfColon(name[1..], value);
    }
  }

  lemma FieldPrinted(name: string, value: string)
    requires ':' !in name
    ensures Field(name + ": " + value) == (name, value)
  {
    IndexOfColon(name, value);
    var s := name + ": " + value;
    assert s[..|name|] == name && s[|name| + 1..] == " " + value;
    assert (" " + value)[1..] == value;
  }

  lemma LineRead(f: Fields, name: string, value: string)
    requires ':' !in name && name != ""
    ensures ReadLine(f, name + ": " + value)
         == if name == "data" then f.(data := f.data + [value])
            else if name == "event" then f.(event := value)
            else if name == "id" && '\0' !in value then f.(id := Some(value))
            else f
  {
    FieldPrinted(name, value);
    assert (name + ": " + value)[0] == name[0];
  }

  lemma DurableRead(id: string, event: string, data: string)
    requires '\0' !in id
    ensures ReadLines(NO_FIELDS, LinesOf(Block.Durable(id, event, data))) == Fields(event, Some(id), [data])
  {
    hide ReadLine, ReadLines;
    LineRead(NO_FIELDS, "id", id);
    LineRead(Fields("message", Some(id), []), "event", event);
    LineRead(Fields(event, Some(id), []), "data", data);
    assert "id" + ": " + id == "id: " + id && "event" + ": " + event == "event: " + event
        && "data" + ": " + data == "data: " + data;
    ReadThree(NO_FIELDS, "id: " + id, "event: " + event, "data: " + data);
    assert [] + [data] == [data];
  }

  lemma PassingRead(data: string)
    ensures ReadLines(NO_FIELDS, LinesOf(Passing(data))) == Fields("message.delta", None, [data])
  {
    hide ReadLine, ReadLines;
    LineRead(NO_FIELDS, "event", "message.delta");
    LineRead(Fields("message.delta", None, []), "data", data);
    assert "event" + ": " + "message.delta" == "event: message.delta" && "data" + ": " + data == "data: " + data;
    ReadTwo(NO_FIELDS, "event: message.delta", "data: " + data);
    assert [] + [data] == [data];
  }

  lemma HeartbeatRead()
    ensures ReadLines(NO_FIELDS, LinesOf(Heartbeat)) == NO_FIELDS
  {
    hide ReadLine;
    var lines := LinesOf(Heartbeat);
    CommentRead(NO_FIELDS, " heartbeat");
    assert ":" + " heartbeat" == ": heartbeat" && lines[1..] == [];
    assert ReadLines(NO_FIELDS, lines) == ReadLines(ReadLine(NO_FIELDS, lines[0]), []);
  }

  lemma BlockRead(b: Block)
    requires Printable(b)
    ensures CleanLines(LinesOf(b)) && OneFrame(Join(LinesOf(b))) == FrameOf(b)
  {
    hide Join, ReadLines, Lines, LinesOf;
    PrintedLines(b);
    LinesOfJoin(LinesOf(b));
    match b
    case Durable(id, event, data) =>
      DurableRead(id, event, data);
      JoinOne(data);
    case Passing(data) =>
      PassingRead(data);
      JoinOne(data);
    case Heartbeat => HeartbeatRead();
  }

  lemma ReadTwo(f: Fields, a: string, b: string)
    ensures ReadLines(f, [a, b]) == ReadLine(ReadLine(f, a), b)
  {
    hide ReadLine;
    assert [a, b][1..] == [b] && [b][1..] == [];
    assert ReadLines(ReadLine(f, a), [b]) == ReadLines(ReadLine(ReadLine(f, a), b), []);
  }

  lemma ReadThree(f: Fields, a: string, b: string, c: string)
    ensures ReadLines(f, [a, b, c]) == ReadLine(ReadLine(ReadLine(f, a), b), c)
  {
    hide ReadLine;
    assert [a, b, c][1..] == [b, c];
    ReadTwo(ReadLine(f, a), b, c);
  }

  lemma CommentRead(f: Fields, text: string)
    ensures ReadLine(f, ":" + text) == f
  {}

  lemma JoinOne(s: string)
    ensures Join([s]) == s
  {}

  lemma PrintedLines(b: Block)
    requires Printable(b)
    ensures CleanLines(LinesOf(b))
  {}

  /** Parsing what the server printed returns exactly the printed events, in order, and leaves no text. */
  lemma {:induction false} RoundTrip(blocks: seq<Block>)
    requires AllPrintable(blocks)
    ensures Frames(PrintAll(blocks)) == (FramesOf(blocks), "")
    decreases |blocks|
  {
    hide LinesOf, FrameOf, OneFrame, Printable;
    if blocks != [] {
      BlockRead(blocks[0]);
      FirstBlock(LinesOf(blocks[0]), PrintAll(blocks[1..]));
      RoundTrip(blocks[1..]);
    }
  }

  /** A connection that breaks anywhere in the printed text has delivered, in whatever chunks, a prefix of the
      printed events. */
  lemma BrokenConnection(blocks: seq<Block>, chunks: seq<string>, lost: string)
    requires AllPrintable(blocks) && Concat(chunks) + lost == PrintAll(blocks)
    ensures PushAll("", chunks).0 <= FramesOf(blocks)
  {
    ChunkIndependence("", chunks);
    assert "" + Concat(chunks) == Concat(chunks);
    ChunksDoNotMatter(Concat(chunks), lost);
    RoundTrip(blocks);
  }

  // ---------------------------------------------------------------- from the log to the client

  /** An event as both sides know it; a passing one has no number of its own. */
  datatype Envelope = Envelope(kind: string, run: nat, durable: bool, number: nat, body: nat)

  /** How envelopes are written on one line and read back, and the id of a run's event with a number. */
  datatype Wire = Wire(encode: Envelope -> string, decode: string -> Option<Envelope>, id: (nat, nat) -> string)

  ghost predicate Faithful(w: Wire) {
    && (forall e :: w.decode(w.encode(e)) == Some(e) && Clean(w.encode(e)))
    && (forall run, number :: Clean(w.id(run, number)) && '\0' !in w.id(run, number))
  }

  /** A run's durable events; the one at position i has number i + 1. */
  type Log = seq<Envelope>

  predicate Numbered(log: Log, run: nat) {
    forall i :: 0 <= i < |log| ==> log[i].durable && log[i].number == i + 1 && log[i].run == run && Clean(log[i].kind)
  }

  /** One turn of the server's loop: the next durable event if there is one, a passing event, or a heartbeat. */
  datatype Turn = Next | Pass(body: nat) | Beat

  const DELTA := "message.delta"

  function Delta(run: nat, body: nat): Envelope {
    Envelope(DELTA, run, false, 0, body)
  }

  function TurnBlocks(w: Wire, run: nat, log: Log, cursor: nat, turn: Turn): seq<Block> {
    match turn
    case Next =>
      if cursor < |log| then [Block.Durable(w.id(run, cursor + 1), log[cursor].kind, w.encode(log[cursor]))] else []
    case Pass(body) => [Passing(w.encode(Delta(run, body)))]
    case Beat => [Heartbeat]
  }

  function After(log: Log, cursor: nat, turn: Turn): nat {
    if turn.Next? && cursor < |log| then cursor + 1 else cursor
  }

  /** What the server's loop writes from a cursor. */
  function Blocks(w: Wire, run: nat, log: Log, cursor: nat, turns: seq<Turn>): seq<Block>
    decreases |turns|
  {
    if turns == [] then []
    else TurnBlocks(w, run, log, cursor, turns[0]) + Blocks(w, run, log, After(log, cursor, turns[0]), turns[1..])
  }

  function Reached(log: Log, cursor: nat, turns: seq<Turn>): nat
    decreases |turns|
  {
    if turns == [] then cursor else Reached(log, After(log, cursor, turns[0]), turns[1..])
  }

  /** `broken`: the connection was given up because a frame did not fit its envelope. */
  datatype Client = Client(last: nat, applied: Log, needsRecovery: bool, broken: bool)

  /** The reducer: what it has is ignored, the next event is applied, a gap asks for recovery. */
  function Receive(c: Client, e: Envelope): Client {
    if !e.durable || e.number <= c.last then c
    else if e.number == c.last + 1 then c.(last := e.number, applied := c.applied + [e])
    else c.(needsRecovery := true)
  }

  /** The checks of `connectEvents` on one frame, and then the reducer. */
  function Handle(w: Wire, run: nat, c: Client, f: Frame): Client {
    if c.needsRecovery || c.broken then c
    else
      var e := w.decode(f.data);
      if e.None? || e.value.kind != f.event || e.value.run != run then c.(broken := true)
      else if e.value.durable && f.id != Some(w.id(run, e.value.number)) then c.(broken := true)
      else if !e.value.durable && f.id.Some? then c.(broken := true)
      else Receive(c, e.value)
  }

  function HandleAll(w: Wire, run: nat, c: Client, frames: seq<Frame>): Client
    decreases |frames|
  {
    if frames == [] then c else HandleAll(w, run, Handle(w, run, c, frames[0]), frames[1..])
  }

  /** The client has exactly the events up to its cursor, each once and in order. */
  predicate UpToDate(log: Log, c: Client) {
    c.last <= |log| && !c.needsRecovery && !c.broken && c.applied == log[..c.last]
  }

  lemma {:induction false} BlocksPrintable(w: Wire, run: nat, log: Log, cursor: nat, turns: seq<Turn>)
    requires Faithful(w) && Numbered(log, run)
    ensures AllPrintable(Blocks(w, run, log, cursor, turns))
    decreases |turns|
  {
    hide TurnBlocks, Printable, Faithful;
    if turns != [] {
      BlocksPrintable(w, run, log, After(log, cursor, turns[0]), turns[1..]);
      TurnPrintable(w, run, log, cursor, turns[0]);
    }
  }

  lemma TurnPrintable(w: Wire, run: nat, log: Log, cursor: nat, turn: Turn)
    requires Faithful(w) && Numbered(log, run)
    ensures AllPrintable(TurnBlocks(w, run, log, cursor, turn))
  {}

  /** A printed durable event passes the client's checks and reaches the reducer as it was logged. */
  lemma DurableHandled(w: Wire, run: nat, log: Log, cursor: nat, c: Client)
    requires Faithful(w) && Numbered(log, run) && cursor < |log| && cursor <= c.last && UpToDate(log, c)
    ensures var n := Handle(w, run, c, Frame(log[cursor].kind, w.encode(log[cursor]), Some(w.id(run, cursor + 1))));
            UpToDate(log, n) && cursor + 1 <= n.last && c.last <= n.last
  {
    if cursor == c.last {
      assert log[..cursor + 1] == log[..cursor] + [log[cursor]];
    }
  }

  lemma PassingHandled(w: Wire, run: nat, c: Client, body: nat)
    requires Faithful(w)
    ensures Handle(w, run, c, Frame(DELTA, w.encode(Delta(run, body)), None)) == c
  {}

  lemma FramesSplit(first: seq<Block>, rest: seq<Block>)
    requires |first| <= 1
    ensures FramesOf(first + rest) == (if first == [] then [] else FrameOf(first[0])) + FramesOf(rest)
  {
    if first == [] {
      assert first + rest == rest;
    } else {
      assert (first + rest)[1..] == rest;
    }
  }

  /** Any number of the printed frames, from a cursor the client has reached, keeps it up to date, and all of them
      bring it to where the server got. */
  lemma {:induction false} PrefixHandled(w: Wire, run: nat, log: Log, cursor: nat, turns: seq<Turn>, c: Client,
                                         frames: seq<Frame>)
    requires Faithful(w) && Numbered(log, run) && UpToDate(log, c) && cursor <= c.last
    requires frames <= FramesOf(Blocks(w, run, log, cursor, turns))
    ensures var n := HandleAll(w, run, c, frames); UpToDate(log, n) && c.last <= n.last
    ensures frames == FramesOf(Blocks(w, run, log, cursor, turns)) ==>
              Reached(log, cursor, turns) <= HandleAll(w, run, c, frames).last
    decreases |turns|
  {
    hide Faithful, Numbered, UpToDate, Handle;
    if turns != [] {
      var turn, next := turns[0], After(log, cursor, turns[0]);
      var first, rest := TurnBlocks(w, run, log, cursor, turn), Blocks(w, run, log, next, turns[1..]);
      FramesSplit(first, rest);
      if turn.Beat? || (turn.Next? && cursor >= |log|) {
        assert frames <= FramesOf(rest);
        PrefixHandled(w, run, log, next, turns[1..], c, frames);
      } else if frames != [] {
        assert FramesOf(first + rest)[0] == FrameOf(first[0])[0] && FramesOf(first + rest)[1..] == FramesOf(rest);
        assert frames[0] == FrameOf(first[0])[0] && frames[1..] <= FramesOf(rest);
        if turn.Next? {
          DurableHandled(w, run, log, cursor, c);
        } else {
          PassingHandled(w, run, c, turn.body);
        }
        PrefixHandled(w, run, log, next, turns[1..], Handle(w, run, c, frames[0]), frames[1..]);
      }
    }
  }

  /** One connection: the server prints from a cursor, with passing events and heartbeats between; the text breaks
      anywhere and arrives in any chunks; the client parses, checks and applies.  It stays up to date, never asks for
      recovery, and if nothing was lost it has what the server had sent. */
  lemma ResumeDeliversOnce(w: Wire, run: nat, log: Log, cursor: nat, turns: seq<Turn>, chunks: seq<string>,
                           lost: string, c: Client)
    requires Faithful(w) && Numbered(log, run) && UpToDate(log, c) && cursor <= c.last
    requires Concat(chunks) + lost == PrintAll(Blocks(w, run, log, cursor, turns))
    ensures var n := HandleAll(w, run, c, PushAll("", chunks).0); UpToDate(log, n) && c.last <= n.last
    ensures lost == "" ==> Reached(log, cursor, turns) <= HandleAll(w, run, c, PushAll("", chunks).0).last
  {
    hide Faithful, Numbered, UpToDate, Blocks;
    var blocks := Blocks(w, run, log, cursor, turns);
    BlocksPrintable(w, run, log, cursor, turns);
    BrokenConnection(blocks, chunks, lost);
    if lost == "" {
      assert Concat(chunks) + lost == Concat(chunks) && "" + Concat(chunks) == Concat(chunks);
      ChunkIndependence("", chunks);
      RoundTrip(blocks);
    }
    PrefixHandled(w, run, log, cursor, turns, c, PushAll("", chunks).0);
  }

  /** One connection, after the log has grown by `more`. */
  datatype Session = Session(more: Log, turns: seq<Turn>, chunks: seq<string>, lost: string)

  function Connect(w: Wire, run: nat, c: Client, chunks: seq<string>): Client {
    HandleAll(w, run, c.(broken := false), PushAll("", chunks).0)
  }

  function Play(w: Wire, run: nat, log: Log, c: Client, sessions: seq<Session>): (Log, Client)
    decreases |sessions|
  {
    if sessions == [] then (log, c)
    else Play(w, run, log + sessions[0].more, Connect(w, run, c, sessions[0].chunks), sessions[1..])
  }

  /** The log grows by numbered events, and each connection carries what the server prints from the client's cursor. */
  predicate Carried(w: Wire, run: nat, log: Log, c: Client, sessions: seq<Session>)
    decreases |sessions|
  {
    sessions != [] ==>
      && Numbered(log + sessions[0].more, run)
      && Concat(sessions[0].chunks) + sessions[0].lost == PrintAll(Blocks(w, run, log + sessions[0].more, c.last,
                                                                          sessions[0].turns))
      && Carried(w, run, log + sessions[0].more, Connect(w, run, c, sessions[0].chunks), sessions[1..])
  }

  /** Over any number of connections to a growing log, each broken anywhere, the client applies each durable event
      once, in order. */
  lemma {:induction false} EveryEventOnce(w: Wire, run: nat, log: Log, c: Client, sessions: seq<Session>)
    requires Faithful(w) && UpToDate(log, c) && Carried(w, run, log, c, sessions)
    ensures UpToDate(Play(w, run, log, c, sessions).0, Play(w, run, log, c, sessions).1)
    decreases |sessions|
  {
    hide Faithful, Numbered, Blocks, HandleAll;
    if sessions != [] {
      var grown := log + sessions[0].more;
      assert grown[..c.last] == log[..c.last];
      assert c.(broken := false) == c;
      ResumeDeliversOnce(w, run, grown, c.last, sessions[0].turns, sessions[0].chunks, sessions[0].lost, c);
      EveryEventOnce(w, run, grown, Connect(w, run, c, sessions[0].chunks), sessions[1..]);
    }
  }
}
