/** The text of the peer event stream, a subset of section 9.2.5 of the WHATWG HTML Standard, and the
    line scanner that reads it back. JSON is an abstract codec. */
module Sse {
  import opened TaskTypes
  import opened NodeProto

  datatype Codec = Codec(encode: TaskEventFrame -> string, decode: string -> Option<TaskEventFrame>)

  /** What the streams need of JSON: it inverts, stays on one line, and a text that is cut short does
      not decode. */
  ghost predicate Lawful(codec: Codec) {
    && (forall f :: codec.decode(codec.encode(f)) == Some(f))
    && (forall f :: '\n' !in codec.encode(f) && '\r' !in codec.encode(f))
    && (forall f, n :: 0 <= n < |codec.encode(f)| ==> codec.decode(codec.encode(f)[..n]) == None)
  }

  datatype Item = Frame(frame: TaskEventFrame) | KeepAlive

  // ---- Printing ----

  function Digits(n: nat): (r: string)
    ensures forall c :: c in r ==> '0' <= c <= '9'
  {
    (if n < 10 then "" else Digits(n / 10)) + [('0' as int + n % 10) as char]
  }

  function Decimal(n: int): (r: string)
    ensures forall c :: c in r ==> c == '-' || '0' <= c <= '9'
  {
    if n < 0 then "-" + Digits(-n) else Digits(n)
  }

  const EventLine := "event: task.event"
  const CommentLine := ": keep-alive"
  const DataPrefix := "data: "

  function IdLine(f: TaskEventFrame): string {
    "id: " + Decimal(f.seqNo)
  }

  function DataLine(codec: Codec, f: TaskEventFrame): string {
    DataPrefix + codec.encode(f)
  }

  /** The lines of one item; each block ends with an empty line. */
  function Lines(codec: Codec, item: Item): seq<string> {
    match item
    case Frame(f) => [EventLine, IdLine(f), DataLine(codec, f), ""]
    case KeepAlive => [CommentLine, ""]
  }

  function Terminated(lines: seq<string>): string {
    if lines == [] then "" else lines[0] + "\n" + Terminated(lines[1..])
  }

  function AllLines(codec: Codec, items: seq<Item>): seq<string> {
    if items == [] then [] else Lines(codec, items[0]) + AllLines(codec, items[1..])
  }

  /** Everything written to the stream. */
  function Print(codec: Codec, items: seq<Item>): string {
    Terminated(AllLines(codec, items))
  }

  // ---- Scanning ----

  /** The scanner's largest token, terminator included. */
  const MaxLine := 65536

  /** The frames delivered before the stream ended, and whether it ended without an error. */
  datatype Scanned = Scanned(frames: seq<TaskEventFrame>, ok: bool)

  function LineLength(text: string): (n: nat)
    ensures n <= |text| && '\n' !in text[..n] && (n < |text| ==> text[n] == '\n')
  {
    if text == "" || text[0] == '\n' then 0
    else
      var n := LineLength(text[1..]);
      assert text[..n + 1] == [text[0]] + text[1..][..n];
      n + 1
  }

  function DropCarriageReturn(line: string): string {
    if line != "" && line[|line| - 1] == '\r' then line[..|line| - 1] else line
  }

  predicate IsData(line: string) {
    DataPrefix <= line
  }

  datatype LineResult = Skip | Deliver(frame: TaskEventFrame) | Fail

  /** What one line, its terminator removed, does to the scanning loop. */
  function ReadLine(codec: Codec, raw: string): LineResult {
    var line := DropCarriageReturn(raw);
    if |raw| >= MaxLine then Fail
    else if !IsData(line) then Skip
    else
      match codec.decode(line[|DataPrefix|..])
      case None => Fail
      case Some(f) => Deliver(f)
  }

  /** The text after the first line and its terminator. */
  function RestAfter(text: string, n: nat): (rest: string)
    requires n <= |text|
    ensures text != "" ==> |rest| < |text|
  {
    if n < |text| then text[n + 1..] else ""
  }

  function Prepended(frames: seq<TaskEventFrame>, tail: Scanned): Scanned {
    Scanned(frames + tail.frames, tail.ok)
  }

  /** Reading `text` to its end, line by line; the last line need not be terminated. */
  function Scan(codec: Codec, text: string): Scanned
    decreases |text|
  {
    if text == "" then Scanned([], true)
    else
      var n := LineLength(text);
      match ReadLine(codec, text[..n])
      case Fail => Scanned([], false)
      case Skip => Scan(codec, RestAfter(text, n))
      case Deliver(f) => Prepended([f], Scan(codec, RestAfter(text, n)))
  }

  /** The scanning loop of the client. */
  method StreamTaskEvents(codec: Codec, text: string) returns (r: Scanned)
    ensures r == Scan(codec, text)
  {
    var frames: seq<TaskEventFrame> := [];
    var rest := text;
    while rest != ""
      invariant Scan(codec, text) == Prepended(frames, Scan(codec, rest))
      decreases |rest|
    {
      var n := LineLength(rest);
      var next := RestAfter(rest, n);
      match ReadLine(codec, rest[..n]) {
        case Fail =>
          assert frames + [] == frames;
          return Scanned(frames, false);
        case Skip =>
        case Deliver(f) =>
          PrependTwice(frames, [f], Scan(codec, next));
          frames := frames + [f];
      }
      rest := next;
    }
    assert frames + [] == frames;
    r := Scanned(frames, true);
  }

  lemma PrependTwice(a: seq<TaskEventFrame>, b: seq<TaskEventFrame>, tail: Scanned)
    ensures Prepended(a, Prepended(b, tail)) == Prepended(a + b, tail)
  {
    assert a + (b + tail.frames) == a + b + tail.frames;
  }

  // ---- Round trip ----

  function FramesOf(items: seq<Item>): seq<TaskEventFrame>
    decreases items
  {
    if items == [] then []
    else (if items[0].Frame? then [items[0].frame] else []) + FramesOf(items[1..])
  }

  /** The frames among items: each frame counts, in its place, and a keep-alive does not. */
  lemma FramesCount(f: TaskEventFrame, rest: seq<Item>)
    ensures FramesOf([]) == [] && FramesOf([Frame(f)] + rest) == [f] + FramesOf(rest) && FramesOf([KeepAlive] + rest) == FramesOf(rest)
  {
    assert ([Frame(f)] + rest)[1..] == rest && ([KeepAlive] + rest)[1..] == rest;
    assert [] + FramesOf(rest) == FramesOf(rest);
  }

  /** What the scanning loop makes of one line: a line of 65536 characters or more ends it, a data line is decoded
      and delivered, one that does not decode ends it too, and any other line is passed over. */
  lemma LineSays(codec: Codec, raw: string)
    ensures |raw| >= 65536 ==> ReadLine(codec, raw) == Fail
    ensures forall text :: raw == "data: " + text && |raw| < 65536 && (text == "" || text[|text| - 1] != '\r') ==>
              ReadLine(codec, raw) == match codec.decode(text) case Some(f) => Deliver(f) case None => Fail
    ensures |raw| < 65536 && !("data: " <= raw) ==> ReadLine(codec, raw) == Skip
  {
    forall text | raw == "data: " + text ensures raw[|DataPrefix|..] == text && (text != "" ==> raw[|raw| - 1] == text[|text| - 1]) {
    }
  }

  /** Both lines of a frame that depend on it fit the scanner. */
  predicate Fits(codec: Codec, item: Item) {
    item.Frame? ==> |IdLine(item.frame)| < MaxLine && |DataLine(codec, item.frame)| < MaxLine
  }

  /** The frames of the items before the first one that does not fit. */
  function Deliverable(codec: Codec, items: seq<Item>): seq<TaskEventFrame>
    decreases items
  {
    if items == [] || !Fits(codec, items[0]) then []
    else (if items[0].Frame? then [items[0].frame] else []) + Deliverable(codec, items[1..])
  }

  predicate AllFit(codec: Codec, items: seq<Item>) {
    forall i :: 0 <= i < |items| ==> Fits(codec, items[i])
  }

  /** Scanning a list of terminated lines, and what follows them. */
  function ScanLines(codec: Codec, lines: seq<string>, tail: string): Scanned
    decreases lines
  {
    if lines == [] then Scan(codec, tail)
    else
      match ReadLine(codec, lines[0])
      case Fail => Scanned([], false)
      case Skip => ScanLines(codec, lines[1..], tail)
      case Deliver(f) => Prepended([f], ScanLines(codec, lines[1..], tail))
  }

  predicate OneLine(line: string) {
    '\n' !in line
  }

  lemma {:induction false} LineLengthAt(line: string, tail: string)
    requires OneLine(line)
    ensures LineLength(line + "\n" + tail) == |line| && LineLength(line) == |line|
    decreases |line|
  {
    var text := line + "\n" + tail;
    if line != "" {
      assert text[0] == line[0];
      assert text[1..] == line[1..] + "\n" + tail;
      LineLengthAt(line[1..], tail);
    }
  }

  lemma {:induction false} ScanByLines(codec: Codec, lines: seq<string>, tail: string)
    requires forall i :: 0 <= i < |lines| ==> OneLine(lines[i])
    ensures Scan(codec, Terminated(lines) + tail) == ScanLines(codec, lines, tail)
    decreases lines
  {
    if lines == [] {
      assert Terminated(lines) + tail == tail;
    } else {
      var more := Terminated(lines[1..]) + tail;
      var text := lines[0] + "\n" + more;
      assert Terminated(lines) + tail == text;
      LineLengthAt(lines[0], more);
      assert text[..|lines[0]|] == lines[0] && text[|lines[0]| + 1..] == more;
      ScanByLines(codec, lines[1..], tail);
    }
  }

  lemma LinesAreLines(codec: Codec, item: Item)
    requires Lawful(codec)
    ensures forall i :: 0 <= i < |Lines(codec, item)| ==> OneLine(Lines(codec, item)[i])
  {
    if item.Frame? {
      var f := item.frame;
      assert forall c :: c in Decimal(f.seqNo) ==> c != '\n';
    }
  }

  /** What the four lines of a frame do to the scanner. */
  lemma FrameLines(codec: Codec, f: TaskEventFrame)
    requires Lawful(codec)
    ensures ReadLine(codec, EventLine) == Skip && ReadLine(codec, CommentLine) == Skip && ReadLine(codec, "") == Skip
    ensures ReadLine(codec, IdLine(f)) == if |IdLine(f)| < MaxLine then Skip else Fail
    ensures ReadLine(codec, DataLine(codec, f)) == if |DataLine(codec, f)| < MaxLine then Deliver(f) else Fail
  {
    var id, data := IdLine(f), DataLine(codec, f);
    assert id[0] == 'i' && DropCarriageReturn(id) == id by {
      assert id[|id| - 1] in Decimal(f.seqNo) || id[|id| - 1] == ' ';
    }
    assert data[|DataPrefix|..] == codec.encode(f);
    assert DropCarriageReturn(data) == data by {
      assert codec.encode(f) != "" ==> data[|data| - 1] in codec.encode(f);
    }
    assert DataPrefix <= data;
    assert EventLine[0] != DataPrefix[0] && CommentLine[0] != DataPrefix[0];
  }

  lemma ScanOne(codec: Codec, line: string, more: seq<string>)
    ensures ScanLines(codec, [line] + more, "")
         == match ReadLine(codec, line)
            case Fail => Scanned([], false)
            case Skip => ScanLines(codec, more, "")
            case Deliver(f) => Prepended([f], ScanLines(codec, more, ""))
  {
    assert ([line] + more)[1..] == more;
  }

  lemma ScanComment(codec: Codec, more: seq<string>)
    ensures ScanLines(codec, [CommentLine, ""] + more, "") == ScanLines(codec, more, "")
  {
    assert [CommentLine, ""] + more == [CommentLine] + ([""] + more);
    assert CommentLine[0] != DataPrefix[0];
    ScanOne(codec, CommentLine, [""] + more);
    ScanOne(codec, "", more);
  }

  lemma ScanFrame(codec: Codec, f: TaskEventFrame, more: seq<string>)
    requires Lawful(codec)
    ensures ScanLines(codec, Lines(codec, Frame(f)) + more, "")
         == if Fits(codec, Frame(f)) then Prepended([f], ScanLines(codec, more, "")) else Scanned([], false)
  {
    FrameLines(codec, f);
    hide ReadLine, Scan, ScanLines, Lawful;
    var last := [""] + more;
    var data := [DataLine(codec, f)] + last;
    var id := [IdLine(f)] + data;
    assert Lines(codec, Frame(f)) + more == [EventLine] + id;
    ScanOne(codec, EventLine, id);
    ScanOne(codec, IdLine(f), data);
    ScanOne(codec, DataLine(codec, f), last);
    ScanOne(codec, "", more);
  }

  lemma AllFitSplit(codec: Codec, items: seq<Item>)
    requires items != []
    ensures AllFit(codec, items) <==> Fits(codec, items[0]) && AllFit(codec, items[1..])
  {
    assert forall i :: 1 <= i < |items| ==> items[i] == items[1..][i - 1];
  }

  lemma {:induction false} ScanItems(codec: Codec, items: seq<Item>)
    requires Lawful(codec)
    ensures ScanLines(codec, AllLines(codec, items), "") == Scanned(Deliverable(codec, items), AllFit(codec, items))
    decreases items
  {
    if items != [] {
      ScanItems(codec, items[1..]);
      AllFitSplit(codec, items);
      match items[0]
      case KeepAlive => ScanComment(codec, AllLines(codec, items[1..]));
      case Frame(f) => ScanFrame(codec, f, AllLines(codec, items[1..]));
    }
  }

  lemma {:induction false} AllLinesAreLines(codec: Codec, items: seq<Item>)
    requires Lawful(codec)
    ensures forall i :: 0 <= i < |AllLines(codec, items)| ==> OneLine(AllLines(codec, items)[i])
    decreases items
  {
    if items != [] {
      LinesAreLines(codec, items[0]);
      AllLinesAreLines(codec, items[1..]);
    }
  }

  /** Round trip: scanning a printed stream delivers its frames, in order and unchanged, up to the
      first one that does not fit a scanner line, and ends without an error exactly when all fit.
      Keep-alive comments leave no trace. */
  lemma PrintThenScan(codec: Codec, items: seq<Item>)
    requires Lawful(codec)
    ensures Scan(codec, Print(codec, items)) == Scanned(Deliverable(codec, items), AllFit(codec, items))
    ensures Deliverable(codec, items) <= FramesOf(items)
    ensures AllFit(codec, items) <==> Scan(codec, Print(codec, items)) == Scanned(FramesOf(items), true)
  {
    AllLinesAreLines(codec, items);
    ScanByLines(codec, AllLines(codec, items), "");
    assert Print(codec, items) + "" == Print(codec, items);
    ScanItems(codec, items);
    DeliverableIsPrefix(codec, items);
  }

  lemma {:induction false} DeliverableIsPrefix(codec: Codec, items: seq<Item>)
    ensures Deliverable(codec, items) <= FramesOf(items)
    ensures AllFit(codec, items) ==> Deliverable(codec, items) == FramesOf(items)
    decreases items
  {
    if items != [] {
      DeliverableIsPrefix(codec, items[1..]);
      AllFitSplit(codec, items);
    }
  }

  // ---- A stream that is cut short ----

  /** No proper beginning of the line is delivered as a frame. */
  predicate CutSafe(codec: Codec, line: string) {
    forall m :: 0 <= m < |line| ==> !ReadLine(codec, line[..m]).Deliver?
  }

  lemma LinesAreCutSafe(codec: Codec, item: Item)
    requires Lawful(codec)
    ensures forall i :: 0 <= i < |Lines(codec, item)| ==> CutSafe(codec, Lines(codec, item)[i])
  {
    forall i | 0 <= i < |Lines(codec, item)| ensures CutSafe(codec, Lines(codec, item)[i]) {
      var line := Lines(codec, item)[i];
      if item.Frame? && i == 2 {
        DataLineIsCutSafe(codec, item.frame);
      } else if line != "" {
        OtherLineIsCutSafe(codec, line);
      }
    }
  }

  lemma OtherLineIsCutSafe(codec: Codec, line: string)
    requires line != "" && line[0] != DataPrefix[0]
    ensures CutSafe(codec, line)
  {
    forall m | 0 <= m < |line| ensures !ReadLine(codec, line[..m]).Deliver? {
      assert m > 0 ==> line[..m][0] == line[0];
    }
  }

  lemma DataLineIsCutSafe(codec: Codec, f: TaskEventFrame)
    requires Lawful(codec)
    ensures CutSafe(codec, DataLine(codec, f))
  {
    var line, text := DataLine(codec, f), codec.encode(f);
    forall m | 0 <= m < |line| ensures !ReadLine(codec, line[..m]).Deliver? {
      var p := line[..m];
      assert p != "" ==> p[m - 1] == line[m - 1];
      assert m > |DataPrefix| ==> line[m - 1] == text[m - 1 - |DataPrefix|];
      assert DropCarriageReturn(p) == p;
      if IsData(p) {
        assert p[|DataPrefix|..] == text[..m - |DataPrefix|];
      }
    }
  }

  lemma {:induction false} AllLinesAreCutSafe(codec: Codec, items: seq<Item>)
    requires Lawful(codec)
    ensures forall i :: 0 <= i < |AllLines(codec, items)| ==> CutSafe(codec, AllLines(codec, items)[i])
    decreases items
  {
    if items != [] {
      LinesAreCutSafe(codec, items[0]);
      AllLinesAreCutSafe(codec, items[1..]);
    }
  }

  lemma {:induction false} CutDeliversPrefix(codec: Codec, lines: seq<string>, n: nat)
    requires n <= |Terminated(lines)|
    requires forall i :: 0 <= i < |lines| ==> OneLine(lines[i]) && CutSafe(codec, lines[i])
    ensures Scan(codec, Terminated(lines)[..n]).frames <= ScanLines(codec, lines, "").frames
    decreases lines
  {
    if lines != [] {
      var line, more := lines[0], Terminated(lines[1..]);
      var text := Terminated(lines)[..n];
      if n <= |line| {
        assert text == line[..n];
        CutInsideLine(codec, line, n);
      } else {
        var m := n - |line| - 1;
        assert text == line + "\n" + more[..m];
        LineLengthAt(line, more[..m]);
        assert text[..|line|] == line && text[|line| + 1..] == more[..m];
        CutDeliversPrefix(codec, lines[1..], m);
      }
    }
  }

  /** A cut inside a line delivers nothing of it, unless it only lost the terminator. */
  lemma CutInsideLine(codec: Codec, line: string, n: nat)
    requires OneLine(line) && CutSafe(codec, line) && n <= |line|
    ensures Scan(codec, line[..n]).frames
         == if n == |line| && line != "" && ReadLine(codec, line).Deliver? then [ReadLine(codec, line).frame] else []
  {
    var p := line[..n];
    LineLengthAt(p, "");
    assert p[..|p|] == p;
    assert n == |line| ==> p == line;
  }

  /** Wherever a connection breaks, mid-line or even mid-frame, the frames that were delivered are the
      first frames of the stream, whole and in order. */
  lemma BrokenStreamDeliversPrefix(codec: Codec, items: seq<Item>, n: nat)
    requires Lawful(codec) && n <= |Print(codec, items)|
    ensures Scan(codec, Print(codec, items)[..n]).frames <= FramesOf(items)
  {
    AllLinesAreLines(codec, items);
    AllLinesAreCutSafe(codec, items);
    CutDeliversPrefix(codec, AllLines(codec, items), n);
    ScanItems(codec, items);
    DeliverableIsPrefix(codec, items);
  }
}
