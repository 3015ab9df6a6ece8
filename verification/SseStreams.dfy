/**
 * Server-sent event frames: the writers of internal/runs/logs.go and events_handler.go, and the three parsers of
 * sdks/typescript/src/index.ts, web/lib/api.ts and pkg/sdk-go/client.go. This is a subset of section 9.2
 * (Server-sent events) of the WHATWG HTML Standard. Characters stand for bytes.
 */
module SseStreams {
  import opened Prelude

  // ---------------------------------------------------------------- text

  /** buffer.indexOf("\n\n"), with |s| for "absent". */
  function BlankAt(s: string): (i: nat)
    ensures i <= |s|
    ensures i < |s| ==> i + 1 < |s| && s[i] == '\n' && s[i + 1] == '\n'
    ensures forall k :: 0 <= k < i && k + 1 < |s| ==> !(s[k] == '\n' && s[k + 1] == '\n')
  {
    if |s| < 2 then |s|
    else if s[0] == '\n' && s[1] == '\n' then 0
    else
      var i := BlankAt(s[1..]);
      assert forall k :: 1 <= k < |s| ==> s[k] == s[1..][k - 1];
      i + 1
  }

  predicate HasBlank(s: string) { BlankAt(s) < |s| }

  predicate NewlineFree(s: string) { forall i :: 0 <= i < |s| ==> s[i] != '\n' }

  /** s.split("\n"). */
  function Split(s: string): (parts: seq<string>)
    ensures parts != []
    ensures forall p :: p in parts ==> NewlineFree(p)
  {
    if s == "" then [""]
    else
      var rest := Split(s[1..]);
      assert rest[0] in rest && forall p :: p in rest[1..] ==> p in rest;
      if s[0] == '\n' then [""] + rest else [[s[0]] + rest[0]] + rest[1..]
  }

  const DATA := "data: "
  const EVENT := "event: "

  function Payload(line: string): seq<string> { if DATA <= line then [line[|DATA|..]] else [] }

  /** What a log parser yields for one frame. */
  function DataOf(lines: seq<string>): seq<string> {
    if lines == [] then [] else Payload(lines[0]) + DataOf(lines[1..])
  }

  lemma {:induction false} SplitSingle(s: string)
    requires NewlineFree(s)
    ensures Split(s) == [s]
  {
    if s != "" {
      SplitSingle(s[1..]);
      assert [s[0]] + s[1..] == s;
    }
  }

  lemma {:induction false} SplitAtNewline(a: string, b: string)
    requires NewlineFree(a)
    ensures Split(a + "\n" + b) == [a] + Split(b)
  {
    if a == "" {
      assert (a + "\n" + b)[1..] == b;
    } else {
      SplitAtNewline(a[1..], b);
      assert (a + "\n" + b)[1..] == a[1..] + "\n" + b;
      assert [a[0]] + a[1..] == a;
    }
  }

  // ---------------------------------------------------------------- frames

  /** Complete frames at the front of s, and what is left of it. */
  function Frames(s: string): (seq<string>, string)
    decreases |s|
  {
    var i := BlankAt(s);
    if i == |s| then ([], s)
    else
      var rest := Frames(s[i + 2..]);
      ([s[..i]] + rest.0, rest.1)
  }

  function Flatten(chunks: seq<string>): string {
    if chunks == [] then "" else Flatten(chunks[..|chunks| - 1]) + chunks[|chunks| - 1]
  }

  lemma BlankIsStable(a: string, b: string)
    requires HasBlank(a)
    ensures BlankAt(a + b) == BlankAt(a)
  {
    var s := a + b;
    var i, j := BlankAt(a), BlankAt(s);
    assert s[i] == a[i] && s[i + 1] == a[i + 1];
    assert j <= i;
    assert s[j] == a[j] && s[j + 1] == a[j + 1];
  }

  lemma FirstFrame(a: string, b: string)
    requires HasBlank(a)
    ensures var i := BlankAt(a);
            var rest := Frames(a[i + 2..] + b);
            Frames(a + b).0 == [a[..i]] + rest.0 && Frames(a + b).1 == rest.1
  {
    var i := BlankAt(a);
    BlankIsStable(a, b);
    assert (a + b)[..i] == a[..i] && (a + b)[i + 2..] == a[i + 2..] + b;
  }

  /** Cutting a stream anywhere and going on with the leftover buffer loses and invents nothing. */
  lemma {:induction false} FramesSplit(a: string, b: string)
    ensures Frames(a + b).0 == Frames(a).0 + Frames(Frames(a).1 + b).0
    ensures Frames(a + b).1 == Frames(Frames(a).1 + b).1
    decreases |a|
  {
    if HasBlank(a) {
      var tail := a[BlankAt(a) + 2..];
      FirstFrame(a, b);
      FirstFrame(a, "");
      assert a + "" == a && tail + "" == tail;
      FramesSplit(tail, b);
      Associative([a[..BlankAt(a)]], Frames(tail).0, Frames(Frames(tail).1 + b).0);
    } else {
      Incomplete(a);
    }
  }

  lemma Incomplete(s: string)
    requires !HasBlank(s)
    ensures Frames(s).0 == [] && Frames(s).1 == s
  {
  }

  lemma {:induction false} LeftoverIncomplete(s: string)
    ensures !HasBlank(Frames(s).1)
    decreases |s|
  {
    if HasBlank(s) {
      LeftoverIncomplete(s[BlankAt(s) + 2..]);
    }
  }

  /** A frame body without a blank line, closed by one, comes out whole. */
  lemma FrameComesOut(body: string, t: string)
    requires body != "" && !HasBlank(body) && body[|body| - 1] != '\n'
    ensures var x := Frames(t); Frames(body + "\n\n" + t) == ([body] + x.0, x.1)
  {
    var s := body + "\n\n" + t;
    var n := |body|;
    assert s[n] == '\n' && s[n + 1] == '\n';
    assert forall k :: 0 <= k < n ==> s[k] == body[k];
    assert forall k :: 0 <= k < n ==> !(s[k] == '\n' && s[k + 1] == '\n');
    assert BlankAt(s) == n;
    assert s[..n] == body && s[n + 2..] == t;
  }

  // ---------------------------------------------------------------- log lines

  /** fmt.Fprintf(w, "data: %s\n\n", line) for each line. */
  function WriteLines(lines: seq<string>): string {
    if lines == [] then "" else DATA + lines[0] + "\n\n" + WriteLines(lines[1..])
  }

  function LinesIn(frame: string): seq<string> { DataOf(Split(frame)) }

  function LinesOf(frames: seq<string>): seq<string> { Collect(frames, LinesIn) }

  /** The TypeScript SDK's and the web page's log parser over a whole stream: lines yielded and leftover buffer. */
  function ParseLines(s: string): (seq<string>, string) { (LinesOf(Frames(s).0), Frames(s).1) }

  lemma NoBlankWithoutNewline(s: string)
    requires NewlineFree(s)
    ensures !HasBlank(s)
  {
  }

  lemma NewlineFreeConcat(a: string, b: string)
    ensures NewlineFree(a + b) <==> NewlineFree(a) && NewlineFree(b)
  {
    assert forall i :: 0 <= i < |a| ==> (a + b)[i] == a[i];
    assert forall i :: 0 <= i < |b| ==> (a + b)[|a| + i] == b[i];
    if NewlineFree(a + b) {
      forall i | 0 <= i < |b| ensures b[i] != '\n' {
        assert (a + b)[|a| + i] != '\n';
      }
    }
  }

  lemma PrefixesAreNewlineFree()
    ensures NewlineFree(DATA) && NewlineFree(EVENT)
  {
  }

  /** A line in its frame is parsed back, and what follows is parsed as if it stood alone. */
  lemma LineFrame(line: string, rest: string)
    requires NewlineFree(line)
    ensures ParseLines(DATA + line + "\n\n" + rest) == ([line] + ParseLines(rest).0, ParseLines(rest).1)
  {
    var body := DATA + line;
    PrefixesAreNewlineFree();
    NewlineFreeConcat(DATA, line);
    NoBlankWithoutNewline(body);
    FrameComesOut(body, rest);
    SplitSingle(body);
    assert body[|DATA|..] == line;
    assert LinesIn(body) == DataOf([body]) == [line];
    CollectFirst(body, Frames(rest).0, LinesIn);
  }

  lemma {:induction false} LinesRoundTrip(lines: seq<string>)
    requires forall l :: l in lines ==> NewlineFree(l)
    ensures ParseLines(WriteLines(lines)) == (lines, "")
  {
    if lines != [] {
      LinesRoundTrip(lines[1..]);
      LineFrame(lines[0], WriteLines(lines[1..]));
      assert [lines[0]] + lines[1..] == lines;
    }
  }

  lemma {:induction false} ParsedAreNewlineFree(lines: seq<string>)
    requires forall l :: l in lines ==> NewlineFree(l)
    ensures forall l :: l in DataOf(lines) ==> NewlineFree(l)
  {
    if lines != [] {
      assert lines[0] in lines;
      ParsedAreNewlineFree(lines[1..]);
    }
  }

  lemma {:induction false} YieldedAreNewlineFree(frames: seq<string>)
    ensures forall l :: l in LinesOf(frames) ==> NewlineFree(l)
  {
    if frames != [] {
      ParsedAreNewlineFree(Split(frames[0]));
      YieldedAreNewlineFree(frames[1..]);
    }
  }

  /** Exactly the newline-free lists of lines survive the stream. */
  lemma LinesRoundTripIff(lines: seq<string>)
    ensures ParseLines(WriteLines(lines)).0 == lines <==> forall l :: l in lines ==> NewlineFree(l)
  {
    if forall l :: l in lines ==> NewlineFree(l) {
      LinesRoundTrip(lines);
    } else {
      YieldedAreNewlineFree(Frames(WriteLines(lines)).0);
    }
  }

  lemma FlattenMore(chunks: seq<string>, n: nat)
    requires n < |chunks|
    ensures Flatten(chunks[..n + 1]) == Flatten(chunks[..n]) + chunks[n]
  {
    assert chunks[..n + 1][..n] == chunks[..n];
  }

  /** A chunk parsed from the leftover of what came before continues the parse of the whole. */
  lemma LinesChunk(a: string, b: string)
    ensures var x := ParseLines(a);
            var y := ParseLines(x.1 + b);
            ParseLines(a + b).0 == x.0 + y.0 && ParseLines(a + b).1 == y.1
  {
    FramesSplit(a, b);
    CollectConcat(Frames(a).0, Frames(Frames(a).1 + b).0, LinesIn);
  }

  lemma LinesOneFrame(buffer: string)
    ensures !HasBlank(buffer) ==> ParseLines(buffer) == ([], buffer)
    ensures HasBlank(buffer) ==>
              var i := BlankAt(buffer);
              var rest := ParseLines(buffer[i + 2..]);
              ParseLines(buffer).0 == DataOf(Split(buffer[..i])) + rest.0 && ParseLines(buffer).1 == rest.1
  {
    if HasBlank(buffer) {
      FirstFrame(buffer, "");
      var i := BlankAt(buffer);
      assert buffer + "" == buffer && buffer[i + 2..] + "" == buffer[i + 2..];
      CollectFirst(buffer[..i], Frames(buffer[i + 2..]).0, LinesIn);
    }
  }

  /** The test every log parser makes on a line. */
  method AppendPayload(lines: seq<string>, line: string) returns (more: seq<string>)
    ensures more == lines + Payload(line)
  {
    more := lines;
    if DATA <= line {
      more := more + [line[|DATA|..]];
    }
  }

  /** The inner loop of a log parser: what one frame yields. */
  method YieldFrame(frame: string) returns (lines: seq<string>)
    ensures lines == DataOf(Split(frame))
  {
    var parts := Split(frame);
    lines := [];
    var k := 0;
    while k < |parts|
      invariant 0 <= k <= |parts|
      invariant lines + DataOf(parts[k..]) == DataOf(parts)
    {
      assert parts[k..][1..] == parts[k + 1..];
      Associative(lines, Payload(parts[k]), DataOf(parts[k + 1..]));
      lines := AppendPayload(lines, parts[k]);
      k := k + 1;
    }
  }

  /** lines so far, and buffer still to be parsed, make up whole. */
  ghost predicate LinesLeft(lines: seq<string>, buffer: string, whole: (seq<string>, string)) {
    lines + ParseLines(buffer).0 == whole.0 && ParseLines(buffer).1 == whole.1
  }

  lemma LinesStep(lines: seq<string>, buffer: string, whole: (seq<string>, string))
    requires HasBlank(buffer) && LinesLeft(lines, buffer, whole)
    ensures LinesLeft(lines + LinesIn(buffer[..BlankAt(buffer)]), buffer[BlankAt(buffer) + 2..], whole)
  {
    LinesOneFrame(buffer);
    var i := BlankAt(buffer);
    Associative(lines, LinesIn(buffer[..i]), ParseLines(buffer[i + 2..]).0);
  }

  /** The while loop over the buffer: every complete frame is cut off and yields its lines. */
  method DrainLines(received: string) returns (lines: seq<string>, buffer: string)
    ensures lines == ParseLines(received).0 && buffer == ParseLines(received).1
  {
    lines, buffer := [], received;
    ghost var whole := ParseLines(received);
    assert [] + whole.0 == whole.0;
    var idx := BlankAt(buffer);
    while idx < |buffer|
      invariant idx == BlankAt(buffer) && LinesLeft(lines, buffer, whole)
      decreases |buffer|
    {
      LinesStep(lines, buffer, whole);
      var yielded := YieldFrame(buffer[..idx]);
      lines := lines + yielded;
      buffer := buffer[idx + 2..];
      idx := BlankAt(buffer);
    }
    LinesOneFrame(buffer);
  }

  lemma LinesArrive(s: string)
    ensures forall sent :: s == WriteLines(sent) && (forall l :: l in sent ==> NewlineFree(l)) ==>
                             ParseLines(s).0 == sent && ParseLines(s).1 == ""
  {
    forall sent | s == WriteLines(sent) && forall l :: l in sent ==> NewlineFree(l)
      ensures ParseLines(s).0 == sent && ParseLines(s).1 == ""
    {
      LinesRoundTrip(sent);
    }
  }

  /**
   * The parser of streamLogs: it grows and slices a buffer, chunk by chunk. Whatever the cuts, it yields the lines
   * of the whole stream and keeps no complete frame back; so what was written is what arrives.
   */
  method StreamLines(chunks: seq<string>) returns (lines: seq<string>, buffer: string)
    ensures lines == ParseLines(Flatten(chunks)).0 && buffer == ParseLines(Flatten(chunks)).1
    ensures !HasBlank(buffer)
    ensures forall sent :: Flatten(chunks) == WriteLines(sent) && (forall l :: l in sent ==> NewlineFree(l)) ==>
                             lines == sent && buffer == ""
  {
    lines, buffer := [], "";
    var n := 0;
    while n < |chunks|
      invariant 0 <= n <= |chunks|
      invariant lines == ParseLines(Flatten(chunks[..n])).0 && buffer == ParseLines(Flatten(chunks[..n])).1
    {
      FlattenMore(chunks, n);
      LinesChunk(Flatten(chunks[..n]), chunks[n]);
      var more;
      more, buffer := DrainLines(buffer + chunks[n]);
      lines := lines + more;
      n := n + 1;
    }
    assert chunks[..|chunks|] == chunks;
    LeftoverIncomplete(Flatten(chunks));
    LinesArrive(Flatten(chunks));
  }

  // ---------------------------------------------------------------- lifecycle events

  /** writeEvent. */
  function WriteEvent(name: string, payload: string): string {
    EVENT + name + "\n" + DATA + payload + "\n\n"
  }

  function WriteEvents(evs: seq<(string, string)>): string {
    if evs == [] then "" else WriteEvent(evs[0].0, evs[0].1) + WriteEvents(evs[1..])
  }

  /** What JavaScript's trim removes. */
  predicate IsSpace(c: char) {
    || ('\U{0009}' <= c <= '\U{000D}') || c == ' ' || c == '\U{00A0}' || c == '\U{1680}'
    || ('\U{2000}' <= c <= '\U{200A}') || c == '\U{2028}' || c == '\U{2029}' || c == '\U{202F}'
    || c == '\U{205F}' || c == '\U{3000}' || c == '\U{FEFF}'
  }

  function Trim(s: string): string
    decreases |s|
  {
    if s != "" && IsSpace(s[0]) then Trim(s[1..])
    else if s != "" && IsSpace(s[|s| - 1]) then Trim(s[..|s| - 1])
    else s
  }

  /** A piece of s with nothing but spaces cut off on either side, and none left at its ends. */
  ghost predicate TrimmedAt(s: string, i: nat, j: nat) {
    && i <= j <= |s| && Trim(s) == s[i..j]
    && (forall k :: 0 <= k < i || j <= k < |s| ==> IsSpace(s[k]))
    && (i < j ==> !IsSpace(s[i]) && !IsSpace(s[j - 1]))
  }

  /** Trimming cuts all the space at both ends and nothing else. */
  lemma {:induction false} TrimIsExact(s: string)
    ensures exists i: nat, j: nat :: TrimmedAt(s, i, j)
    decreases |s|
  {
    if s != "" && IsSpace(s[0]) {
      TrimIsExact(s[1..]);
      var i: nat, j: nat :| TrimmedAt(s[1..], i, j);
      assert s[1..][i..j] == s[i + 1..j + 1];
      assert forall k :: 0 < k < |s| ==> s[k] == s[1..][k - 1];
      assert TrimmedAt(s, i + 1, j + 1);
    } else if s != "" && IsSpace(s[|s| - 1]) {
      TrimIsExact(s[..|s| - 1]);
      var i: nat, j: nat :| TrimmedAt(s[..|s| - 1], i, j);
      assert s[..|s| - 1][i..j] == s[i..j];
      assert forall k :: 0 <= k < |s| - 1 ==> s[k] == s[..|s| - 1][k];
      assert TrimmedAt(s, i, j);
    } else {
      assert s[0..|s|] == s;
      assert TrimmedAt(s, 0, |s|);
    }
  }

  /** Name and data after looking at some lines of a frame; later lines win. */
  function FrameFields(lines: seq<string>): (string, string) {
    if lines == [] then ("message", "")
    else
      var f := FrameFields(lines[..|lines| - 1]);
      var line := lines[|lines| - 1];
      if EVENT <= line then (Trim(line[|EVENT|..]), f.1)
      else if DATA <= line then (f.0, line[|DATA|..])
      else f
  }

  /** Line k is the last with this prefix. */
  predicate LastWith(lines: seq<string>, prefix: string, k: int) {
    0 <= k < |lines| && prefix <= lines[k] && forall j :: k < j < |lines| ==> !(prefix <= lines[j])
  }

  /** The last event line gives the name; without any it is a message. */
  lemma {:induction false} NameIsLast(lines: seq<string>, k: int)
    ensures LastWith(lines, EVENT, k) ==> FrameFields(lines).0 == Trim(lines[k][|EVENT|..])
    ensures (forall j :: 0 <= j < |lines| ==> !(EVENT <= lines[j])) ==> FrameFields(lines).0 == "message"
  {
    if lines != [] {
      var n := |lines| - 1;
      NameIsLast(lines[..n], k);
      LastWithMore(lines, EVENT, k);
    }
  }

  /** The last data line gives the data; without any there is none. */
  lemma {:induction false} DataIsLast(lines: seq<string>, k: int)
    ensures LastWith(lines, DATA, k) ==> FrameFields(lines).1 == lines[k][|DATA|..]
    ensures (forall j :: 0 <= j < |lines| ==> !(DATA <= lines[j])) ==> FrameFields(lines).1 == ""
  {
    if lines != [] {
      var n := |lines| - 1;
      DataIsLast(lines[..n], k);
      LastWithMore(lines, DATA, k);
      assert EVENT <= lines[n] ==> lines[n][0] == 'e';
      assert DATA <= lines[n] ==> lines[n][0] == 'd';
    }
  }

  lemma LastWithMore(lines: seq<string>, prefix: string, k: int)
    requires lines != []
    ensures var n := |lines| - 1;
            LastWith(lines, prefix, k) <==> if prefix <= lines[n] then k == n else LastWith(lines[..n], prefix, k)
  {
    var n := |lines| - 1;
    assert forall j :: 0 <= j < n ==> lines[..n][j] == lines[j];
  }

  /** At most one callback per frame. */
  function Callback(f: (string, string), json: set<string>): (calls: seq<(string, string)>)
    ensures forall e :: e in calls <==> e == f && e.1 != "" && e.1 in json
  {
    if f.1 != "" && f.1 in json then [f] else []
  }

  /** Callbacks for a list of frames; json tells which data parses. */
  function EventsOf(frames: seq<string>, json: set<string>): seq<(string, string)> { Collect(frames, EventsIn(json)) }

  function EventsIn(json: set<string>): string -> seq<(string, string)> {
    frame => Callback(FrameFields(Split(frame)), json)
  }

  /** What a lifecycle event needs to survive: json.Marshal output never has a raw newline nor is it empty. */
  predicate Carriable(e: (string, string), json: set<string>) {
    NewlineFree(e.0) && Trim(e.0) == e.0 && NewlineFree(e.1) && e.1 != "" && e.1 in json
  }

  /** The frames on the wire, letter by letter. */
  lemma OnTheWire(line: string, name: string, payload: string)
    ensures WriteLines([line]) == "data: " + line + "\n\n"
    ensures WriteEvent(name, payload) == "event: " + name + "\n" + "data: " + payload + "\n\n"
  {
    assert [line][1..] == [];
    assert WriteLines([line]) == DATA + line + "\n\n" + WriteLines([]);
  }

  lemma TwoLinesNoBlank(a: string, b: string)
    requires NewlineFree(a) && NewlineFree(b) && b != ""
    ensures !HasBlank(a + "\n" + b)
  {
    var s := a + "\n" + b;
    forall k | 0 <= k && k + 1 < |s| ensures !(s[k] == '\n' && s[k + 1] == '\n') {
      if k < |a| {
        assert s[k] == a[k];
      } else {
        assert s[k + 1] == b[k - |a|];
      }
    }
  }

  lemma EventFrame(name: string, payload: string, t: string)
    requires NewlineFree(name) && NewlineFree(payload)
    ensures var body := EVENT + name + "\n" + DATA + payload;
            Frames(body + "\n\n" + t) == ([body] + Frames(t).0, Frames(t).1)
  {
    var a, b := EVENT + name, DATA + payload;
    var body := EVENT + name + "\n" + DATA + payload;
    assert body == a + "\n" + b;
    PrefixesAreNewlineFree();
    NewlineFreeConcat(EVENT, name);
    NewlineFreeConcat(DATA, payload);
    TwoLinesNoBlank(a, b);
    assert body[|body| - 1] == b[|b| - 1];
    FrameComesOut(body, t);
  }

  lemma FieldsOfEvent(name: string, payload: string)
    requires NewlineFree(name) && NewlineFree(payload) && Trim(name) == name
    ensures FrameFields(Split(EVENT + name + "\n" + DATA + payload)) == (name, payload)
  {
    var a, b := EVENT + name, DATA + payload;
    PrefixesAreNewlineFree();
    NewlineFreeConcat(EVENT, name);
    NewlineFreeConcat(DATA, payload);
    SplitAtNewline(a, b);
    SplitSingle(b);
    assert EVENT + name + "\n" + DATA + payload == a + "\n" + b;
    var parts := [a] + [b];
    assert parts[..1] == [a] && [a][..0] == [];
    assert a[|EVENT|..] == name && b[|DATA|..] == payload && b[0] == 'd';
    assert FrameFields([a]) == (name, "");
  }

  lemma ErrorFrameYields(message: string)
    requires NewlineFree(message)
    ensures ParseLines(WriteEvent("error", message)).0 == [message]
    ensures ParseLines(WriteEvent("error", message)).1 == ""
  {
    var a, b := EVENT + "error", DATA + message;
    var body := a + "\n" + b;
    PrefixesAreNewlineFree();
    EventFrame("error", message, "");
    assert EVENT + "error" + "\n" + DATA + message == body;
    assert body + "\n\n" + "" == WriteEvent("error", message);
    assert Frames("") == ([], "");
    assert [body] + [] == [body];
    NewlineFreeConcat(EVENT, "error");
    NewlineFreeConcat(DATA, message);
    SplitAtNewline(a, b);
    SplitSingle(b);
    ErrorLines(a, message);
    CollectFirst(body, [], LinesIn);
    assert [body] + [] == [body] && LinesIn(body) + [] == LinesIn(body);
  }

  lemma ErrorLines(a: string, message: string)
    requires a != "" && a[0] == 'e'
    ensures DataOf([a] + [DATA + message]) == [message]
  {
    var parts := [a] + [DATA + message];
    assert parts[1..] == [DATA + message] && parts[1..][1..] == [];
    assert (DATA + message)[|DATA|..] == message;
    assert DATA[0] == 'd';
    assert DataOf(parts[1..]) == [message];
  }

  /** An error reported inside the log stream reaches the reader as one more log line. */
  lemma ErrorLooksLikeALine(lines: seq<string>, message: string)
    requires NewlineFree(message) && forall l :: l in lines ==> NewlineFree(l)
    ensures ParseLines(WriteLines(lines) + WriteEvent("error", message)).0 == lines + [message]
    ensures ParseLines(WriteLines(lines) + WriteEvent("error", message)).1 == ""
  {
    var e := WriteEvent("error", message);
    LinesRoundTrip(lines);
    LinesChunk(WriteLines(lines), e);
    assert "" + e == e;
    ErrorFrameYields(message);
  }

  /** The web page's event parser over a whole stream. */
  function ParseEvents(s: string, json: set<string>): (seq<(string, string)>, string) {
    (EventsOf(Frames(s).0, json), Frames(s).1)
  }

  /** An event in its frame is parsed back, and what follows is parsed as if it stood alone. */
  lemma EventComesBack(e: (string, string), t: string, json: set<string>)
    requires Carriable(e, json)
    ensures ParseEvents(WriteEvent(e.0, e.1) + t, json) == ([e] + ParseEvents(t, json).0, ParseEvents(t, json).1)
  {
    var body := EVENT + e.0 + "\n" + DATA + e.1;
    assert WriteEvent(e.0, e.1) + t == body + "\n\n" + t;
    EventFrame(e.0, e.1, t);
    FieldsOfEvent(e.0, e.1);
    CollectFirst(body, Frames(t).0, EventsIn(json));
  }

  /** Lifecycle events arrive as they were written. */
  lemma {:induction false} EventsRoundTrip(evs: seq<(string, string)>, json: set<string>)
    requires forall e :: e in evs ==> Carriable(e, json)
    ensures ParseEvents(WriteEvents(evs), json) == (evs, "")
  {
    if evs != [] {
      EventsRoundTrip(evs[1..], json);
      EventComesBack(evs[0], WriteEvents(evs[1..]), json);
      assert [evs[0]] + evs[1..] == evs;
    }
  }

  /** Nothing reaches a callback but data that is there and parses. */
  lemma {:induction false} CallbacksParse(frames: seq<string>, json: set<string>)
    ensures forall e :: e in EventsOf(frames, json) ==> e.1 != "" && e.1 in json
  {
    if frames != [] {
      CallbacksParse(frames[1..], json);
    }
  }

  lemma EventsChunk(a: string, b: string, json: set<string>)
    ensures var x := ParseEvents(a, json);
            var y := ParseEvents(x.1 + b, json);
            ParseEvents(a + b, json).0 == x.0 + y.0 && ParseEvents(a + b, json).1 == y.1
  {
    FramesSplit(a, b);
    CollectConcat(Frames(a).0, Frames(Frames(a).1 + b).0, EventsIn(json));
  }

  lemma EventsOneFrame(buffer: string, json: set<string>)
    ensures !HasBlank(buffer) ==> ParseEvents(buffer, json) == ([], buffer)
    ensures HasBlank(buffer) ==>
              var i := BlankAt(buffer);
              var rest := ParseEvents(buffer[i + 2..], json);
              && ParseEvents(buffer, json).0 == Callback(FrameFields(Split(buffer[..i])), json) + rest.0
              && ParseEvents(buffer, json).1 == rest.1
  {
    if HasBlank(buffer) {
      FirstFrame(buffer, "");
      var i := BlankAt(buffer);
      assert buffer + "" == buffer && buffer[i + 2..] + "" == buffer[i + 2..];
      CollectFirst(buffer[..i], Frames(buffer[i + 2..]).0, EventsIn(json));
    }
  }

  /** The inner loop of the event parser. */
  method ReadFields(frame: string) returns (name: string, dataLine: string)
    ensures (name, dataLine) == FrameFields(Split(frame))
  {
    name, dataLine := "message", "";
    var parts := Split(frame);
    var k := 0;
    while k < |parts|
      invariant 0 <= k <= |parts|
      invariant (name, dataLine) == FrameFields(parts[..k])
    {
      assert parts[..k + 1][..k] == parts[..k];
      if EVENT <= parts[k] {
        name := Trim(parts[k][|EVENT|..]);
      } else if DATA <= parts[k] {
        dataLine := parts[k][|DATA|..];
      }
      k := k + 1;
    }
    assert parts[..|parts|] == parts;
  }

  ghost predicate EventsLeft(evs: seq<(string, string)>, buffer: string, json: set<string>,
                             whole: (seq<(string, string)>, string))
  {
    evs + ParseEvents(buffer, json).0 == whole.0 && ParseEvents(buffer, json).1 == whole.1
  }

  lemma EventsStep(evs: seq<(string, string)>, buffer: string, json: set<string>,
                   whole: (seq<(string, string)>, string))
    requires HasBlank(buffer) && EventsLeft(evs, buffer, json, whole)
    ensures var f := FrameFields(Split(buffer[..BlankAt(buffer)]));
            EventsLeft(evs + Callback(f, json), buffer[BlankAt(buffer) + 2..], json, whole)
  {
    EventsOneFrame(buffer, json);
    var i := BlankAt(buffer);
    Associative(evs, Callback(FrameFields(Split(buffer[..i])), json), ParseEvents(buffer[i + 2..], json).0);
  }

  /** One frame's callback, if its data is there and parses. */
  method OnFrame(frame: string, json: set<string>) returns (evs: seq<(string, string)>)
    ensures evs == Callback(FrameFields(Split(frame)), json)
  {
    evs := [];
    var name, dataLine := ReadFields(frame);
    if dataLine != "" && dataLine in json {
      evs := [(name, dataLine)];
    }
  }

  /** The while loop over the buffer: every complete frame is cut off and becomes at most one callback. */
  method DrainEvents(received: string, json: set<string>) returns (evs: seq<(string, string)>, buffer: string)
    ensures evs == ParseEvents(received, json).0 && buffer == ParseEvents(received, json).1
  {
    evs, buffer := [], received;
    ghost var whole := ParseEvents(received, json);
    assert [] + whole.0 == whole.0;
    var idx := BlankAt(buffer);
    while idx < |buffer|
      invariant idx == BlankAt(buffer) && EventsLeft(evs, buffer, json, whole)
      decreases |buffer|
    {
      EventsStep(evs, buffer, json, whole);
      var more := OnFrame(buffer[..idx], json);
      evs := evs + more;
      buffer := buffer[idx + 2..];
      idx := BlankAt(buffer);
    }
    EventsOneFrame(buffer, json);
  }

  lemma EventsArrive(s: string, json: set<string>)
    ensures forall sent :: s == WriteEvents(sent) && (forall e :: e in sent ==> Carriable(e, json)) ==>
                             ParseEvents(s, json).0 == sent && ParseEvents(s, json).1 == ""
  {
    forall sent | s == WriteEvents(sent) && forall e :: e in sent ==> Carriable(e, json)
      ensures ParseEvents(s, json).0 == sent && ParseEvents(s, json).1 == ""
    {
      EventsRoundTrip(sent, json);
    }
  }

  ghost predicate EventsRead(evs: seq<(string, string)>, buffer: string, s: string, json: set<string>) {
    evs == ParseEvents(s, json).0 && buffer == ParseEvents(s, json).1
  }

  /** Whatever well-formed events s was written from are what was read. */
  ghost predicate AsWritten(evs: seq<(string, string)>, buffer: string, s: string, json: set<string>) {
    forall sent :: s == WriteEvents(sent) && (forall e :: e in sent ==> Carriable(e, json)) ==>
                     evs == sent && buffer == ""
  }

  /** One chunk, added to what was read before. */
  method OnChunk(buffer: string, chunk: string, json: set<string>, ghost evs: seq<(string, string)>, ghost seen: string)
    returns (more: seq<(string, string)>, rest: string)
    requires EventsRead(evs, buffer, seen, json)
    ensures EventsRead(evs + more, rest, seen + chunk, json)
  {
    EventsChunk(seen, chunk, json);
    more, rest := DrainEvents(buffer + chunk, json);
  }

  lemma ReadAll(evs: seq<(string, string)>, buffer: string, s: string, json: set<string>)
    requires EventsRead(evs, buffer, s, json)
    ensures !HasBlank(buffer) && AsWritten(evs, buffer, s, json)
  {
    LeftoverIncomplete(s);
    EventsArrive(s, json);
  }

  lemma NothingRead(json: set<string>)
    ensures EventsRead([], "", "", json)
  {
  }

  /** streamEvents of the web page, chunk by chunk. */
  method StreamEvents(chunks: seq<string>, json: set<string>) returns (evs: seq<(string, string)>, buffer: string)
    ensures evs == ParseEvents(Flatten(chunks), json).0 && buffer == ParseEvents(Flatten(chunks), json).1
    ensures !HasBlank(buffer) && AsWritten(evs, buffer, Flatten(chunks), json)
  {
    evs, buffer := [], "";
    ghost var seen := "";
    NothingRead(json);
    var n := 0;
    while n < |chunks|
      invariant 0 <= n <= |chunks|
      invariant EventsRead(evs, buffer, seen, json) && seen == Flatten(chunks[..n])
    {
      var more, rest := OnChunk(buffer, chunks[n], json, evs, seen);
      evs, buffer := evs + more, rest;
      FlattenMore(chunks, n);
      seen := seen + chunks[n];
      n := n + 1;
    }
    assert chunks[..|chunks|] == chunks;
    ReadAll(evs, buffer, seen, json);
  }

  // ---------------------------------------------------------------- line scanners in Go

  /** The largest token of the scanners, 1024*1024 bytes including the newline. */
  const MAX_TOKEN: nat := 1024 * 1024

  function NewlineAt(s: string): (i: nat)
    ensures i <= |s| && (i < |s| ==> s[i] == '\n') && NewlineFree(s[..i])
  {
    if s == "" || s[0] == '\n' then 0
    else
      var i := NewlineAt(s[1..]);
      assert s[..i + 1] == [s[0]] + s[1..][..i];
      i + 1
  }

  function DropCr(s: string): string { if s != "" && s[|s| - 1] == '\r' then s[..|s| - 1] else s }

  /** bufio.ScanLines under the limit: the lines, and whether the scan stopped on a token that is too long. */
  function Scan(s: string): (seq<string>, bool)
    decreases |s|
  {
    if s == "" then ([], false)
    else
      var i := NewlineAt(s);
      if i >= MAX_TOKEN then ([], true)
      else if i == |s| then ([DropCr(s)], false)
      else
        var rest := Scan(s[i + 1..]);
        ([DropCr(s[..i])] + rest.0, rest.1)
  }

  /** StreamLogs of the Go SDK. */
  function GoParse(s: string): (seq<string>, bool) { (DataOf(Scan(s).0), Scan(s).1) }

  lemma ScanStep(s: string)
    requires s != ""
    ensures var i := NewlineAt(s);
            var rest := if i == |s| then "" else s[i + 1..];
            if i >= MAX_TOKEN then Scan(s).0 == [] && Scan(s).1
            else Scan(s).0 == [DropCr(s[..i])] + Scan(rest).0 && Scan(s).1 == Scan(rest).1
  {
    var i := NewlineAt(s);
    if i == |s| {
      assert s[..i] == s;
      assert Scan("") == ([], false);
    }
  }

  lemma GoParseStep(s: string)
    requires s != ""
    ensures var i := NewlineAt(s);
            var rest := if i == |s| then "" else s[i + 1..];
            if i >= MAX_TOKEN then GoParse(s).0 == [] && GoParse(s).1
            else GoParse(s).0 == Payload(DropCr(s[..i])) + GoParse(rest).0 && GoParse(s).1 == GoParse(rest).1
  {
    ScanStep(s);
    var i := NewlineAt(s);
    var rest := if i == |s| then "" else s[i + 1..];
    DataFirst(DropCr(s[..i]), Scan(rest).0);
  }

  lemma DataFirst(line: string, rest: seq<string>)
    ensures DataOf([line] + rest) == Payload(line) + DataOf(rest)
  {
    assert ([line] + rest)[1..] == rest;
  }

  method GoStreamLogs(body: string) returns (lines: seq<string>, tooLong: bool)
    ensures lines == GoParse(body).0 && tooLong == GoParse(body).1
  {
    lines, tooLong := [], false;
    var rest := body;
    ghost var whole := GoParse(body);
    while rest != "" && !tooLong
      invariant !tooLong ==> lines + GoParse(rest).0 == whole.0 && GoParse(rest).1 == whole.1
      invariant tooLong ==> lines == whole.0 && whole.1
      decreases |rest|, if tooLong then 0 else 1
    {
      GoParseStep(rest);
      var i := NewlineAt(rest);
      if i >= MAX_TOKEN {
        tooLong := true;
      } else {
        var line := DropCr(rest[..i]);
        rest := if i == |rest| then "" else rest[i + 1..];
        Associative(lines, Payload(line), GoParse(rest).0);
        lines := AppendPayload(lines, line);
      }
    }
  }

  /** What the Go client delivers unchanged: no trailing CR, and room for "data: " and the newline. */
  predicate GoSafe(line: string) {
    (line != "" ==> line[|line| - 1] != '\r') && |DATA| + |line| + 1 <= MAX_TOKEN
  }

  lemma NewlineFound(a: string, t: string)
    requires NewlineFree(a)
    ensures NewlineAt(a + "\n" + t) == |a|
  {
    var s := a + "\n" + t;
    var i := NewlineAt(s);
    assert forall k :: 0 <= k < |a| ==> s[k] == a[k];
    assert s[|a|] == '\n';
    assert forall k :: 0 <= k < i ==> s[..i][k] == s[k];
  }

  /** One scanned line. */
  lemma ScanLine(a: string, t: string)
    requires NewlineFree(a)
    ensures var s := a + "\n" + t;
            if |a| >= MAX_TOKEN then Scan(s).0 == [] && Scan(s).1
            else Scan(s).0 == [DropCr(a)] + Scan(t).0 && Scan(s).1 == Scan(t).1
  {
    var s := a + "\n" + t;
    NewlineFound(a, t);
    assert s[..|a|] == a && s[|a| + 1..] == t;
  }

  lemma EmptyLine(t: string)
    ensures Scan("\n" + t).0 == [""] + Scan(t).0 && Scan("\n" + t).1 == Scan(t).1
  {
    ScanLine("", t);
    assert "" + "\n" + t == "\n" + t;
  }

  lemma ScanBody(a: string, t: string)
    requires NewlineFree(a) && |a| < MAX_TOKEN
    ensures Scan(a + "\n" + ("\n" + t)).0 == [DropCr(a), ""] + Scan(t).0
    ensures Scan(a + "\n" + ("\n" + t)).1 == Scan(t).1
  {
    ScanLine(a, "\n" + t);
    EmptyLine(t);
    TwoFirst(Scan(a + "\n" + ("\n" + t)).0, DropCr(a), "", Scan("\n" + t).0, Scan(t).0);
  }

  lemma TwoFirst(x: seq<string>, a: string, b: string, u: seq<string>, t: seq<string>)
    requires x == [a] + u && u == [b] + t
    ensures x == [a, b] + t
  {
  }

  lemma ScanFrame(l: string, t: string)
    requires NewlineFree(l)
    ensures var s := DATA + l + "\n\n" + t;
            if |DATA| + |l| >= MAX_TOKEN then Scan(s).0 == [] && Scan(s).1
            else Scan(s).0 == [DropCr(DATA + l), ""] + Scan(t).0 && Scan(s).1 == Scan(t).1
  {
    var a := DATA + l;
    PrefixesAreNewlineFree();
    NewlineFreeConcat(DATA, l);
    assert DATA + l + "\n\n" + t == a + "\n" + ("\n" + t);
    if |a| >= MAX_TOKEN {
      ScanLine(a, "\n" + t);
    } else {
      ScanBody(a, t);
    }
  }

  lemma FrameLines(l: string, rest: seq<string>)
    ensures DataOf([DropCr(DATA + l), ""] + rest) == [DropCr(l)] + DataOf(rest)
  {
    var first := DropCr(DATA + l);
    var lines := [first, ""] + rest;
    assert lines[1..][1..] == rest;
    assert l != "" ==> (DATA + l)[|DATA + l| - 1] == l[|l| - 1];
    assert first == DATA + DropCr(l);
    assert first[|DATA|..] == DropCr(l);
    assert DataOf(lines[1..]) == DataOf(rest);
  }

  lemma GoFrame(l: string, t: string)
    requires NewlineFree(l)
    ensures GoParse(DATA + l + "\n\n" + t)
            == if |DATA| + |l| >= MAX_TOKEN then ([], true) else ([DropCr(l)] + GoParse(t).0, GoParse(t).1)
  {
    ScanFrame(l, t);
    FrameLines(l, Scan(t).0);
  }

  lemma FirstAgrees(l: string, rest: seq<string>, more: (seq<string>, bool))
    ensures ([DropCr(l)] + more.0, more.1) == ([l] + rest, false) <==> DropCr(l) == l && more == (rest, false)
  {
    var got := [DropCr(l)] + more.0;
    assert got[0] == DropCr(l) && got[1..] == more.0;
    assert ([l] + rest)[1..] == rest;
  }

  /** The Go client agrees with the others on exactly the streams all of whose lines are safe for it. */
  lemma {:induction false} GoAgreesIff(lines: seq<string>)
    requires forall l :: l in lines ==> NewlineFree(l)
    ensures GoParse(WriteLines(lines)) == (lines, false) <==> forall l :: l in lines ==> GoSafe(l)
  {
    if lines != [] {
      var l, rest := lines[0], lines[1..];
      GoAgreesIff(rest);
      GoFrame(l, WriteLines(rest));
      FirstAgrees(l, rest, GoParse(WriteLines(rest)));
      assert [l] + rest == lines;
      assert forall x :: x in lines <==> x == l || x in rest;
    }
  }

  // ---------------------------------------------------------------- from the pod to the reader

  const TOO_LONG := "bufio.Scanner: token too long"

  /** streamFromPod on a whole pod log: one frame per scanned line, and an error frame if the scan broke off. */
  function PodStream(log: string): string {
    WriteLines(Scan(log).0) + if Scan(log).1 then WriteEvent("error", TOO_LONG) else ""
  }

  lemma {:induction false} WriteOneMore(lines: seq<string>, l: string)
    ensures WriteLines(lines + [l]) == WriteLines(lines) + DATA + l + "\n\n"
  {
    if lines == [] {
      assert lines + [l] == [l] && [l][1..] == [];
    } else {
      WriteOneMore(lines[1..], l);
      assert (lines + [l])[1..] == lines[1..] + [l];
    }
  }

  method StreamFromPod(log: string) returns (out: string)
    ensures out == PodStream(log)
  {
    out := "";
    var rest, tooLong := log, false;
    ghost var sent: seq<string> := [];
    while rest != "" && !tooLong
      invariant out == WriteLines(sent)
      invariant !tooLong ==> sent + Scan(rest).0 == Scan(log).0 && Scan(rest).1 == Scan(log).1
      invariant tooLong ==> sent == Scan(log).0 && Scan(log).1
      decreases |rest|, if tooLong then 0 else 1
    {
      ScanStep(rest);
      var i := NewlineAt(rest);
      if i >= MAX_TOKEN {
        tooLong := true;
      } else {
        var line := DropCr(rest[..i]);
        WriteOneMore(sent, line);
        out := out + DATA + line + "\n\n";
        rest := if i == |rest| then "" else rest[i + 1..];
        Associative(sent, [line], Scan(rest).0);
        sent := sent + [line];
      }
    }
    assert sent == Scan(log).0;
    if tooLong {
      out := out + WriteEvent("error", TOO_LONG);
    }
  }

  lemma {:induction false} ScannedAreNewlineFree(s: string)
    ensures forall l :: l in Scan(s).0 ==> NewlineFree(l)
    decreases |s|
  {
    if s != "" {
      var i := NewlineAt(s);
      if i < MAX_TOKEN && i < |s| {
        ScannedAreNewlineFree(s[i + 1..]);
        var rest := Scan(s[i + 1..]).0;
        assert NewlineFree(DropCr(s[..i]));
      } else {
        assert i == |s| ==> s[..i] == s;
      }
    }
  }

  /**
   * From the pod's log to a browser or TypeScript reader, however the network cuts the stream: every scanned line
   * arrives, in order, followed by the error text if the pod wrote a line beyond the limit.
   */
  lemma PodLogArrives(log: string, chunks: seq<string>)
    requires Flatten(chunks) == PodStream(log)
    ensures ParseLines(Flatten(chunks)).0 == Scan(log).0 + if Scan(log).1 then [TOO_LONG] else []
    ensures ParseLines(Flatten(chunks)).1 == ""
  {
    ScannedAreNewlineFree(log);
    PodLogParses(Scan(log).0, Scan(log).1);
  }

  lemma PodLogParses(lines: seq<string>, tooLong: bool)
    requires forall l :: l in lines ==> NewlineFree(l)
    ensures var s := WriteLines(lines) + if tooLong then WriteEvent("error", TOO_LONG) else "";
            ParseLines(s).0 == lines + (if tooLong then [TOO_LONG] else []) && ParseLines(s).1 == ""
  {
    if tooLong {
      assert NewlineFree(TOO_LONG);
      ErrorLooksLikeALine(lines, TOO_LONG);
    } else {
      LinesRoundTrip(lines);
      assert WriteLines(lines) + "" == WriteLines(lines) && lines + [] == lines;
    }
  }

  lemma PodStreamOfOne(l: string)
    requires Scan(l + "\n").0 == [l] && !Scan(l + "\n").1
    ensures PodStream(l + "\n") == DATA + l + "\n\n" + ""
  {
    assert [l][1..] == [];
    assert WriteLines([l]) == DATA + l + "\n\n" + WriteLines([]);
  }

  /**
   * The writer and the Go reader share one limit, but the reader's tokens are six bytes longer: a log line that
   * the writer's scanner accepts can be one the Go client breaks off at.
   */
  lemma GoBreaksOnLinesTheServerAccepts(l: string)
    requires NewlineFree(l) && (l != "" ==> l[|l| - 1] != '\r')
    requires MAX_TOKEN - |DATA| <= |l| < MAX_TOKEN
    ensures Scan(l + "\n").0 == [l] && !Scan(l + "\n").1
    ensures GoParse(PodStream(l + "\n")).0 == [] && GoParse(PodStream(l + "\n")).1
  {
    ScanLine(l, "");
    assert l + "\n" + "" == l + "\n" && [l] + [] == [l];
    assert Scan("") == ([], false);
    ScanFrame(l, "");
    WriteOneMore([], l);
    assert [] + [l] == [l];
    PodStreamOfOne(l);
  }
}
