/** Event frames on the wire: the subset of section 9.2.5 of the WHATWG HTML Living Standard that the stream
    handler writes, and the line filter that reads it back. */
module Framing {

  /** The scanner's buffer: a line and its newline must fit. */
  const LIMIT := 2 * 1024 * 1024

  const CONNECTED := ":connected"
  const KEEPALIVE := ":keepalive"
  const EVENT_LINE := "event: replication"
  const DATA := "data: "

  datatype Chunk = Connected | Keepalive | Message(payload: string)

  /** The first line of a chunk, and the second one if it has a data line. */
  function Encode(chunk: Chunk): string {
    match chunk
    case Connected => OneLine(CONNECTED)
    case Keepalive => OneLine(KEEPALIVE)
    case Message(payload) => EVENT_LINE + "\n" + OneLine(DATA + payload)
  }

  /** A line followed by an empty one. */
  function OneLine(line: string): string {
    line + "\n" + "\n"
  }

  function EncodeAll(chunks: seq<Chunk>): string {
    if chunks == [] then "" else Encode(chunks[0]) + EncodeAll(chunks[1..])
  }

  function PayloadOf(chunk: Chunk): seq<string> {
    if chunk.Message? then [chunk.payload] else []
  }

  function Payloads(chunks: seq<Chunk>): seq<string> {
    if chunks == [] then [] else PayloadOf(chunks[0]) + Payloads(chunks[1..])
  }

  // ---------- The reader ----------

  /** The characters from start on, up to the next newline or the end. */
  function LineAt(input: string, start: nat): (line: string)
    requires start <= |input|
    ensures start + |line| <= |input|
    decreases |input| - start
  {
    if start == |input| || input[start] == '\n' then "" else [input[start]] + LineAt(input, start + 1)
  }

  function DropReturn(line: string): string {
    if line != "" && line[|line| - 1] == '\r' then line[..|line| - 1] else line
  }

  /** What the line filter takes from a line. */
  function Data(line: string): seq<string> {
    if DATA <= DropReturn(line) then [DropReturn(line)[|DATA|..]] else []
  }

  datatype Reading = Reading(payloads: seq<string>, tooLong: bool)

  function Prepend(payloads: seq<string>, reading: Reading): Reading {
    Reading(payloads + reading.payloads, reading.tooLong)
  }

  /** The position after the line that ends at a newline or at the end of the input. */
  function Past(input: string, end: nat): (k: nat)
    requires end <= |input|
    ensures end <= k <= |input|
  {
    if end == |input| then end else end + 1
  }

  /** The lines from a position on; a last line without its newline is still a line. */
  function Lines(input: string, start: nat): seq<string>
    requires start <= |input|
    decreases |input| - start
  {
    if start == |input| then []
    else
      var line := LineAt(input, start);
      [line] + Lines(input, Past(input, start + |line|))
  }

  /** What the reader takes from lines; one that does not fit the buffer stops it. */
  function Filter(lines: seq<string>): Reading {
    if lines == [] then Reading([], false)
    else if |lines[0]| >= LIMIT then Reading([], true)
    else Prepend(Data(lines[0]), Filter(lines[1..]))
  }

  /** The reading of a connection that ends after this input. */
  function Read(input: string): Reading {
    Filter(Lines(input, 0))
  }

  lemma PrependTwice(a: seq<string>, b: seq<string>, reading: Reading)
    ensures Prepend(a, Prepend(b, reading)) == Prepend(a + b, reading)
  {
    assert a + (b + reading.payloads) == a + b + reading.payloads;
  }

  method ScanLine(input: string, start: nat) returns (line: string)
    requires start <= |input|
    ensures line == LineAt(input, start)
  {
    line := "";
    var end := start;
    while end < |input| && input[end] != '\n'
      invariant start <= end <= |input|
      invariant line + LineAt(input, end) == LineAt(input, start)
    {
      assert line + ([input[end]] + LineAt(input, end + 1)) == line + [input[end]] + LineAt(input, end + 1);
      line := line + [input[end]];
      end := end + 1;
    }
    assert line + "" == line;
  }

  lemma LinesStep(input: string, start: nat, line: string)
    requires start < |input| && line == LineAt(input, start)
    ensures Lines(input, start) == [line] + Lines(input, Past(input, start + |line|))
  {
  }

  lemma FilterFirst(line: string, lines: seq<string>)
    ensures Filter([line] + lines) ==
            if |line| >= LIMIT then Reading([], true) else Prepend(Data(line), Filter(lines))
  {
    assert ([line] + lines)[1..] == lines;
  }

  lemma TakeFirst(taken: seq<string>, line: string, lines: seq<string>, whole: Reading)
    requires Prepend(taken, Filter([line] + lines)) == whole
    ensures
      if |line| >= LIMIT then whole == Reading(taken, true)
      else whole == Prepend(taken + Data(line), Filter(lines))
  {
    FilterFirst(line, lines);
    if |line| >= LIMIT {
      assert taken + [] == taken;
    } else {
      PrependTwice(taken, Data(line), Filter(lines));
    }
  }

  /** One line of the scanning loop, which has taken some payloads of the whole reading. */
  lemma ReadStep(taken: seq<string>, input: string, start: nat, line: string, whole: Reading)
    requires start < |input| && line == LineAt(input, start)
    requires Prepend(taken, Filter(Lines(input, start))) == whole
    ensures
      if |line| >= LIMIT then whole == Reading(taken, true)
      else whole == Prepend(taken + Data(line), Filter(Lines(input, Past(input, start + |line|))))
  {
    LinesStep(input, start, line);
    TakeFirst(taken, line, Lines(input, Past(input, start + |line|)), whole);
  }

  /** The scanning loop. */
  method ReadConnection(input: string) returns (payloads: seq<string>, tooLong: bool)
    ensures Reading(payloads, tooLong) == Read(input)
  {
    payloads := [];
    var start := 0;
    while start < |input|
      invariant 0 <= start <= |input|
      invariant Prepend(payloads, Filter(Lines(input, start))) == Read(input)
    {
      var line := ScanLine(input, start);
      ReadStep(payloads, input, start, line, Read(input));
      if |line| >= LIMIT {
        return payloads, true;
      }
      payloads := payloads + Data(line);
      start := Past(input, start + |line|);
    }
    tooLong := false;
  }

  // ---------- Reading concatenations ----------

  lemma {:induction false} LineShift(whole: string, w: nat, rest: string, i: nat)
    requires w <= |whole| && whole[w..] == rest && i <= |rest|
    ensures LineAt(whole, w + i) == LineAt(rest, i)
    decreases |rest| - i
  {
    if i < |rest| {
      assert whole[w + i] == rest[i];
      if rest[i] != '\n' {
        LineShift(whole, w, rest, i + 1);
      }
    }
  }

  /** What was read before does not matter to the rest. */
  lemma {:induction false} LinesShift(whole: string, w: nat, rest: string, i: nat)
    requires w <= |whole| && whole[w..] == rest && i <= |rest|
    ensures Lines(whole, w + i) == Lines(rest, i)
    decreases |rest| - i
  {
    if i < |rest| {
      var line := LineAt(rest, i);
      LineShift(whole, w, rest, i);
      LinesShift(whole, w, rest, Past(rest, i + |line|));
      LinesStep(whole, w + i, line);
      LinesStep(rest, i, line);
    }
  }

  predicate Line(line: string) {
    && (forall i :: 0 <= i < |line| ==> line[i] != '\n')
    && |line| + 1 <= LIMIT
  }

  lemma {:induction false} LineIs(line: string, rest: string, i: nat)
    requires forall j :: 0 <= j < |line| ==> line[j] != '\n'
    requires i <= |line| && (rest == "" || rest[0] == '\n')
    ensures LineAt(line + rest, i) == line[i..]
    decreases |line| - i
  {
    if i < |line| {
      LineIs(line, rest, i + 1);
    }
  }

  lemma LinesFirst(line: string, rest: string)
    requires forall i :: 0 <= i < |line| ==> line[i] != '\n'
    ensures Lines(line + "\n" + rest, 0) == [line] + Lines(rest, 0)
  {
    var input := line + "\n" + rest;
    assert input == line + ("\n" + rest);
    LineIs(line, "\n" + rest, 0);
    LinesShift(input, |line| + 1, rest, 0);
  }

  lemma LinesOnly(line: string)
    requires line != "" && forall i :: 0 <= i < |line| ==> line[i] != '\n'
    ensures Lines(line, 0) == [line] + []
  {
    assert line + "" == line;
    LineIs(line, "", 0);
  }

  /** The reader on any input: an empty one gives nothing; a line that with its newline does not fit two mebibytes
      stops it for good; any other line gives its data, and the reader goes on behind it; and a last line without
      its newline counts as well. */
  lemma ReaderCases(line: string, rest: string)
    requires forall i :: 0 <= i < |line| ==> line[i] != '\n'
    ensures Read("") == Reading([], false)
    ensures Read(line + "\n" + rest) ==
            if |line| >= 2_097_152 then Reading([], true)
            else Reading(Data(line) + Read(rest).payloads, Read(rest).tooLong)
    ensures line != "" ==> Read(line) == if |line| >= 2_097_152 then Reading([], true) else Reading(Data(line), false)
  {
    LinesFirst(line, rest);
    FilterFirst(line, Lines(rest, 0));
    if line != "" {
      LinesOnly(line);
      FilterFirst(line, []);
      assert Data(line) + [] == Data(line);
    }
  }

  /** What a line gives: what follows "data: " at its start, less one carriage return at its end; or nothing. */
  lemma DataCases(line: string)
    ensures line == "" || line[|line| - 1] != '\r' ==>
              Data(line) == if "data: " <= line then [line[6..]] else []
    ensures Data(line + "\r") == if "data: " <= line then [line[6..]] else []
  {
    var returned := line + "\r";
    assert returned[|returned| - 1] == '\r' && returned[..|returned| - 1] == line;
  }

  /** The text on the wire. */
  lemma WireFormat(payload: string)
    ensures Encode(Message(payload)) == "event: replication\ndata: " + payload + "\n\n"
    ensures Encode(Connected) == ":connected\n\n" && Encode(Keepalive) == ":keepalive\n\n"
  {
    assert EVENT_LINE + "\n" + (DATA + payload + "\n" + "\n") == "event: replication\ndata: " + payload + "\n\n";
  }

  /** One chunk after another. */
  lemma WireOrder(chunk: Chunk, chunks: seq<Chunk>)
    ensures EncodeAll([]) == ""
    ensures EncodeAll([chunk] + chunks) == Encode(chunk) + EncodeAll(chunks)
    ensures Payloads([]) == []
    ensures Payloads([chunk] + chunks) == (if chunk.Message? then [chunk.payload] else []) + Payloads(chunks)
  {
    assert ([chunk] + chunks)[1..] == chunks;
  }

  lemma ReadLine(line: string, rest: string)
    requires Line(line)
    ensures Read(line + "\n" + rest) == Prepend(Data(line), Read(rest))
  {
    LinesFirst(line, rest);
    FilterFirst(line, Lines(rest, 0));
  }

  /** A line cut short by the end of the connection. */
  lemma ReadCutLine(line: string)
    requires Line(line)
    ensures Read(line) == Reading(Data(line), false)
  {
    if line == "" {
      NoData(line);
    } else {
      LinesOnly(line);
      FilterFirst(line, []);
      assert Data(line) + [] == Data(line);
    }
  }

  lemma ReadOneLine(line: string, rest: string)
    requires Line(line)
    ensures Read(OneLine(line) + rest) == Prepend(Data(line), Read(rest))
  {
    assert OneLine(line) + rest == line + "\n" + ("" + "\n" + rest);
    ReadLine(line, "" + "\n" + rest);
    ReadLine("", rest);
    assert Data("") == [];
    PrependTwice(Data(line), [], Read(rest));
    assert Data(line) + [] == Data(line);
  }

  /** A connection cut inside a line or the empty line after it. */
  lemma CutOneLine(line: string, k: nat)
    requires Line(line) && k < |OneLine(line)|
    ensures Read(OneLine(line)[..k]) == Reading(Data(if k <= |line| then line[..k] else line), false)
  {
    var cut := OneLine(line)[..k];
    if k <= |line| {
      assert cut == line[..k];
      ReadCutLine(cut);
    } else {
      assert cut == line + "\n" + "";
      ReadLine(line, "");
      assert Data(line) + [] == Data(line);
    }
  }

  // ---------- Lines of the protocol ----------

  /** What a JSON encoder produces: no raw line break, and small enough for the scanner. */
  predicate Sendable(payload: string) {
    && (forall i :: 0 <= i < |payload| ==> payload[i] != '\n' && payload[i] != '\r')
    && |DATA| + |payload| + 1 <= LIMIT
  }

  predicate AllSendable(chunks: seq<Chunk>) {
    forall i :: 0 <= i < |chunks| && chunks[i].Message? ==> Sendable(chunks[i].payload)
  }

  lemma NoData(line: string)
    requires line == "" || line[0] != 'd'
    ensures Data(line) == []
  {
  }

  lemma DataOf(payload: string)
    requires Sendable(payload)
    ensures Line(DATA + payload) && Data(DATA + payload) == [payload]
  {
    var line := DATA + payload;
    assert line[|line| - 1] != '\r';
    assert line[|DATA|..] == payload;
  }

  lemma FixedLines()
    ensures Line(CONNECTED) && CONNECTED[0] == ':'
    ensures Line(KEEPALIVE) && KEEPALIVE[0] == ':'
    ensures Line(EVENT_LINE) && EVENT_LINE[0] == 'e'
  {
  }

  /** The first lines of a message, then its data line. */
  lemma ReadTwoLines(first: string, second: string, rest: string)
    requires Line(first) && Data(first) == [] && Line(second)
    ensures Read(first + "\n" + OneLine(second) + rest) == Prepend(Data(second), Read(rest))
  {
    assert first + "\n" + OneLine(second) + rest == first + "\n" + (OneLine(second) + rest);
    ReadLine(first, OneLine(second) + rest);
    ReadOneLine(second, rest);
    PrependTwice([], Data(second), Read(rest));
    assert [] + Data(second) == Data(second);
  }

  /** The reader takes from one chunk its payload, if it has one, and goes on with the rest. */
  lemma ReadChunk(chunk: Chunk, rest: string)
    requires chunk.Message? ==> Sendable(chunk.payload)
    ensures Read(Encode(chunk) + rest) == Prepend(PayloadOf(chunk), Read(rest))
  {
    FixedLines();
    match chunk
    case Connected =>
      ReadOneLine(CONNECTED, rest);
      NoData(CONNECTED);
    case Keepalive =>
      ReadOneLine(KEEPALIVE, rest);
      NoData(KEEPALIVE);
    case Message(payload) =>
      NoData(EVENT_LINE);
      DataOf(payload);
      ReadTwoLines(EVENT_LINE, DATA + payload, rest);
  }

  // ---------- Round trip ----------

  /** Reading back a whole connection gives exactly the payloads written, whatever comments are in between. */
  lemma {:induction false} RoundTrip(chunks: seq<Chunk>)
    requires AllSendable(chunks)
    ensures Read(EncodeAll(chunks)) == Reading(Payloads(chunks), false)
  {
    if chunks == [] {
    } else {
      ReadChunk(chunks[0], EncodeAll(chunks[1..]));
      RoundTrip(chunks[1..]);
    }
  }

  /** All of the first payloads, except that the last one may be cut short. */
  predicate CutShort(got: seq<string>, all: seq<string>) {
    && |got| <= |all|
    && (forall i :: 0 <= i < |got| - 1 ==> got[i] == all[i])
    && (got != [] ==> got[|got| - 1] <= all[|got| - 1])
  }

  /** A data line cut short gives nothing or a prefix of its payload. */
  lemma CutDataLine(payload: string, k: nat)
    requires Sendable(payload) && k <= |DATA + payload|
    ensures CutShort(Data((DATA + payload)[..k]), [payload])
  {
    var cut := (DATA + payload)[..k];
    if k < |DATA| {
      assert |DropReturn(cut)| < |DATA|;
    } else {
      var part := payload[..k - |DATA|];
      assert cut == DATA + part;
      DataOf(part);
    }
  }

  /** A line that carries no data, cut anywhere. */
  lemma NoDataCut(line: string, k: nat)
    requires k <= |line| && (line == "" || line[0] != 'd')
    ensures Data(line[..k]) == []
  {
    NoData(line[..k]);
  }

  lemma CutTwoLines(first: string, second: string, k: nat)
    requires Line(first) && first != "" && first[0] != 'd' && Line(second)
    requires k < |first + "\n" + OneLine(second)|
    ensures
      var n := |first| + 1;
      Read((first + "\n" + OneLine(second))[..k]) ==
        if k < n then Reading([], false)
        else Reading(Data(if k - n <= |second| then second[..k - n] else second), false)
  {
    var n := |first| + 1;
    var cut := (first + "\n" + OneLine(second))[..k];
    if k < n {
      assert cut == first[..k];
      ReadCutLine(cut);
      NoDataCut(first, k);
    } else {
      assert cut == first + "\n" + OneLine(second)[..k - n];
      ReadLine(first, OneLine(second)[..k - n]);
      NoData(first);
      CutOneLine(second, k - n);
      var data := Data(if k - n <= |second| then second[..k - n] else second);
      assert [] + data == data;
    }
  }

  lemma CutComment(line: string, k: nat)
    requires Line(line) && line != "" && line[0] != 'd' && k < |OneLine(line)|
    ensures Read(OneLine(line)[..k]) == Reading([], false)
  {
    CutOneLine(line, k);
    NoDataCut(line, if k <= |line| then k else |line|);
    assert line[..|line|] == line;
  }

  lemma CutMessage(payload: string, k: nat)
    requires Sendable(payload) && k < |Encode(Message(payload))|
    ensures
      var reading := Read(Encode(Message(payload))[..k]);
      !reading.tooLong && CutShort(reading.payloads, [payload])
  {
    var line, n := DATA + payload, |EVENT_LINE| + 1;
    FixedLines();
    DataOf(payload);
    CutTwoLines(EVENT_LINE, line, k);
    if k >= n && k - n <= |line| {
      CutDataLine(payload, k - n);
    }
  }

  lemma CutChunk(chunk: Chunk, k: nat)
    requires chunk.Message? ==> Sendable(chunk.payload)
    requires k < |Encode(chunk)|
    ensures
      var reading := Read(Encode(chunk)[..k]);
      !reading.tooLong && CutShort(reading.payloads, PayloadOf(chunk))
  {
    match chunk
    case Connected =>
      FixedLines();
      CutComment(CONNECTED, k);
    case Keepalive =>
      FixedLines();
      CutComment(KEEPALIVE, k);
    case Message(payload) =>
      CutMessage(payload, k);
  }

  lemma CutShortWithin(got: seq<string>, head: seq<string>, tail: seq<string>)
    requires CutShort(got, head)
    ensures CutShort(got, head + tail)
  {
  }

  lemma CutShortAfter(head: seq<string>, got: seq<string>, tail: seq<string>)
    requires CutShort(got, tail)
    ensures CutShort(head + got, head + tail)
  {
    if got != [] {
      assert (head + got)[|head + got| - 1] == got[|got| - 1];
      assert (head + tail)[|head + got| - 1] == tail[|got| - 1];
    }
  }

  lemma CutInRest(chunk: Chunk, rest: string, k: nat, tail: seq<string>)
    requires chunk.Message? ==> Sendable(chunk.payload)
    requires |Encode(chunk)| <= k <= |Encode(chunk)| + |rest|
    requires
      var reading := Read(rest[..k - |Encode(chunk)|]);
      !reading.tooLong && CutShort(reading.payloads, tail)
    ensures
      var reading := Read((Encode(chunk) + rest)[..k]);
      !reading.tooLong && CutShort(reading.payloads, PayloadOf(chunk) + tail)
  {
    var cut := rest[..k - |Encode(chunk)|];
    assert (Encode(chunk) + rest)[..k] == Encode(chunk) + cut;
    ReadChunk(chunk, cut);
    CutShortAfter(PayloadOf(chunk), Read(cut).payloads, tail);
  }

  /** Cutting the connection anywhere costs nothing but its tail: the reader gets a prefix of the payloads, the
      last of them perhaps cut short, and never anything else. */
  lemma {:induction false} CutAnywhere(chunks: seq<Chunk>, k: nat)
    requires AllSendable(chunks) && k <= |EncodeAll(chunks)|
    ensures
      var reading := Read(EncodeAll(chunks)[..k]);
      !reading.tooLong && CutShort(reading.payloads, Payloads(chunks))
    decreases |chunks|
  {
    if chunks == [] {
    } else {
      var first, rest := Encode(chunks[0]), EncodeAll(chunks[1..]);
      var head, tail := PayloadOf(chunks[0]), Payloads(chunks[1..]);
      if k < |first| {
        assert EncodeAll(chunks)[..k] == first[..k];
        CutChunk(chunks[0], k);
        CutShortWithin(Read(first[..k]).payloads, head, tail);
      } else {
        CutAnywhere(chunks[1..], k - |first|);
        CutInRest(chunks[0], rest, k, tail);
      }
    }
  }
}
