/** Build logs, end to end: the worker appends lines to a stream and closes it with a
    sentinel, the gateway replays the stream as server-sent events, and a browser parses
    them by sections 9.2.5 and 9.2.6 of the WHATWG HTML Standard. */
module BuildLogs {
  import opened Common

  // ---------------------------------------------------------------------
  // The standard's event stream parser
  // ---------------------------------------------------------------------

  datatype Event = Event(kind: string, data: string, lastId: string)

  /** The data, event type and last event ID buffers. */
  datatype Buffers = Buffers(data: string, kind: string, id: string)

  /** The terminated lines of `s`, the first one continuing `cur`. A line ends with CR LF,
      LF or CR; what follows the last line end is discarded. */
  function Lines(cur: string, s: string): seq<string>
    decreases |s|
  {
    if s == "" then []
    else if s[0] == '\n' then [cur] + Lines("", s[1..])
    else if s[0] == '\r' then
      [cur] + Lines("", if |s| > 1 && s[1] == '\n' then s[2..] else s[1..])
    else Lines(cur + [s[0]], s[1..])
  }

  /** Position of the first colon, or the length. */
  function ColonAt(line: string): (i: nat)
    ensures i <= |line|
  {
    if line == "" || line[0] == ':' then 0 else 1 + ColonAt(line[1..])
  }

  function WithoutSpace(v: string): string
  {
    if v != "" && v[0] == ' ' then v[1..] else v
  }

  /** The steps for one non-empty line; comments, retry and unknown fields change nothing. */
  function Field(b: Buffers, line: string): Buffers
    requires line != ""
  {
    var i := ColonAt(line);
    var name, value := line[..i], if i < |line| then WithoutSpace(line[i + 1..]) else "";
    if name == "data" then b.(data := b.data + value + "\n")
    else if name == "event" then b.(kind := value)
    else if name == "id" && '\0' !in value then b.(id := value)
    else b
  }

  function Interpret(b: Buffers, lines: seq<string>): seq<Event>
    decreases |lines|
  {
    if lines == [] then []
    else if lines[0] != "" then Interpret(Field(b, lines[0]), lines[1..])
    else
      var next := Interpret(Buffers("", "", b.id), lines[1..]);
      if b.data == "" then next
      else
        [Event(if b.kind == "" then "message" else b.kind, b.data[..|b.data| - 1], b.id)] + next
  }

  function Parse(s: string): seq<Event>
  {
    var body := if s != "" && s[0] == '\U{FEFF}' then s[1..] else s;
    Interpret(Buffers("", "", ""), Lines("", body))
  }

  // ---------------------------------------------------------------------
  // What the gateway writes
  // ---------------------------------------------------------------------

  /** strings.ReplaceAll(line, "\n", " ") */
  function Spaced(line: string): string
  {
    if line == "" then "" else [if line[0] == '\n' then ' ' else line[0]] + Spaced(line[1..])
  }

  function Frame(line: string): string { "data: " + Spaced(line) + "\n\n" }

  function Emit(lines: seq<string>): string
  {
    if lines == [] then "" else Emit(lines[..|lines| - 1]) + Frame(lines[|lines| - 1])
  }

  function Messages(lines: seq<string>): seq<Event>
  {
    seq(|lines|, i requires 0 <= i < |lines| => Event("message", Spaced(lines[i]), ""))
  }

  ghost predicate NoCarriageReturn(lines: seq<string>)
  {
    forall i :: 0 <= i < |lines| ==> '\r' !in lines[i]
  }

  // ---------------------------------------------------------------------
  // Round trip
  // ---------------------------------------------------------------------

  lemma {:induction false} SpacedChars(line: string)
    ensures |Spaced(line)| == |line|
    ensures forall i :: 0 <= i < |line| ==> Spaced(line)[i] == if line[i] == '\n' then ' ' else line[i]
    ensures '\n' !in Spaced(line)
    ensures '\r' in Spaced(line) <==> '\r' in line
    decreases |line|
  {
    if line != "" {
      SpacedChars(line[1..]);
      assert line == [line[0]] + line[1..];
    }
  }

  lemma {:induction false} OneLine(cur: string, t: string, rest: string)
    requires '\n' !in t && '\r' !in t
    ensures Lines(cur, t + "\n" + rest) == [cur + t] + Lines("", rest)
    decreases |t|
  {
    var s := t + "\n" + rest;
    if t == "" {
      assert s[0] == '\n' && s[1..] == rest && cur + t == cur;
    } else {
      assert s[0] == t[0] && s[1..] == t[1..] + "\n" + rest;
      OneLine(cur + [t[0]], t[1..], rest);
      assert cur + [t[0]] + t[1..] == cur + t;
    }
  }

  /** A frame is its data line and an empty line. */
  lemma FrameLines(line: string, rest: string)
    requires '\r' !in line
    ensures Lines("", Frame(line) + rest) == ["data: " + Spaced(line), ""] + Lines("", rest)
  {
    SpacedChars(line);
    var t := "data: " + Spaced(line);
    OneLine("", t, "\n" + rest);
    assert Frame(line) + rest == t + "\n" + ("\n" + rest);
    OneLine("", "", rest);
    assert "" + "\n" + rest == "\n" + rest;
    assert "" + t == t;
    assert [t] + ([""] + Lines("", rest)) == [t, ""] + Lines("", rest);
  }

  lemma DataField(b: Buffers, v: string)
    ensures Field(b, "data: " + v) == b.(data := b.data + v + "\n")
  {
    var line := "data: " + v;
    ColonAfter("data", line);
    assert line[..4] == "data";
    assert line[5..] == " " + v;
    assert WithoutSpace(" " + v) == v;
  }

  lemma {:induction false} ColonAfter(name: string, line: string)
    requires ':' !in name && |name| < |line| && name < line && line[|name|] == ':'
    ensures ColonAt(line) == |name|
    decreases |name|
  {
    if name != "" {
      assert line[0] == name[0];
      ColonAfter(name[1..], line[1..]);
    }
  }

  lemma DispatchOne(v: string, rest: seq<string>)
    ensures Interpret(Buffers("", "", ""), ["data: " + v, ""] + rest)
         == [Event("message", v, "")] + Interpret(Buffers("", "", ""), rest)
  {
    var b := Buffers("", "", "");
    var lines := ["data: " + v, ""] + rest;
    DataField(b, v);
    var b1 := Buffers("" + v + "\n", "", "");
    assert lines[1..] == [""] + rest;
    assert ([""] + rest)[1..] == rest;
    assert b1.data[..|b1.data| - 1] == v;
    assert Interpret(b1, [""] + rest) == [Event("message", v, "")] + Interpret(b, rest);
  }

  function EmitFrom(lines: seq<string>): string
  {
    if lines == [] then "" else Frame(lines[0]) + EmitFrom(lines[1..])
  }

  lemma {:induction false} EmitFromAppend(lines: seq<string>, line: string)
    ensures EmitFrom(lines + [line]) == EmitFrom(lines) + Frame(line)
    decreases |lines|
  {
    if lines == [] {
      assert (lines + [line])[1..] == [];
      assert Frame(line) + "" == Frame(line) == "" + Frame(line);
    } else {
      EmitFromAppend(lines[1..], line);
      assert (lines + [line])[1..] == lines[1..] + [line];
      assert Frame(lines[0]) + (EmitFrom(lines[1..]) + Frame(line))
          == Frame(lines[0]) + EmitFrom(lines[1..]) + Frame(line);
    }
  }

  lemma {:induction false} EmitIsEmitFrom(lines: seq<string>)
    ensures Emit(lines) == EmitFrom(lines)
    decreases |lines|
  {
    if lines != [] {
      var n := |lines| - 1;
      EmitIsEmitFrom(lines[..n]);
      EmitFromAppend(lines[..n], lines[n]);
      assert lines[..n] + [lines[n]] == lines;
    }
  }

  lemma {:induction false} InterpretFrames(lines: seq<string>)
    requires NoCarriageReturn(lines)
    ensures Interpret(Buffers("", "", ""), Lines("", EmitFrom(lines))) == Messages(lines)
    decreases |lines|
  {
    if lines != [] {
      var rest := EmitFrom(lines[1..]);
      assert NoCarriageReturn(lines[1..]);
      InterpretFrames(lines[1..]);
      FrameLines(lines[0], rest);
      DispatchOne(Spaced(lines[0]), Lines("", rest));
      assert Messages(lines) == [Event("message", Spaced(lines[0]), "")] + Messages(lines[1..]);
    }
  }

  lemma RoundTrip(lines: seq<string>)
    requires NoCarriageReturn(lines)
    ensures Parse(Emit(lines)) == Messages(lines)
  {
    EmitIsEmitFrom(lines);
    InterpretFrames(lines);
    if lines != [] {
      assert Emit(lines)[0] == 'd';
    }
  }

  // No event ever carries a carriage return, so a line that has one cannot come back.

  lemma {:induction false} LinesHaveNoReturn(cur: string, s: string)
    requires '\r' !in cur
    ensures NoCarriageReturn(Lines(cur, s))
    decreases |s|
  {
    if s != "" {
      if s[0] == '\n' {
        LinesHaveNoReturn("", s[1..]);
      } else if s[0] == '\r' {
        LinesHaveNoReturn("", if |s| > 1 && s[1] == '\n' then s[2..] else s[1..]);
      } else {
        LinesHaveNoReturn(cur + [s[0]], s[1..]);
      }
    }
  }

  lemma FieldHasNoReturn(b: Buffers, line: string)
    requires line != "" && '\r' !in line && '\r' !in b.data
    ensures '\r' !in Field(b, line).data
  {
  }

  lemma {:induction false} EventsHaveNoReturn(b: Buffers, lines: seq<string>)
    requires NoCarriageReturn(lines) && '\r' !in b.data
    ensures forall i :: 0 <= i < |Interpret(b, lines)| ==> '\r' !in Interpret(b, lines)[i].data
    decreases |lines|
  {
    hide Field;
    if lines != [] {
      assert '\r' !in lines[0];
      if lines[0] != "" {
        FieldHasNoReturn(b, lines[0]);
        EventsHaveNoReturn(Field(b, lines[0]), lines[1..]);
      } else {
        EventsHaveNoReturn(Buffers("", "", b.id), lines[1..]);
      }
    }
  }

  /** Main result: the browser gets back exactly the lines that were written, in order,
      with newlines turned into spaces, if and only if no line has a carriage return. */
  lemma RoundTripIff(lines: seq<string>)
    ensures Parse(Emit(lines)) == Messages(lines) <==> NoCarriageReturn(lines)
  {
    if NoCarriageReturn(lines) {
      RoundTrip(lines);
    }
    var s := Emit(lines);
    var body := if s != "" && s[0] == '\U{FEFF}' then s[1..] else s;
    LinesHaveNoReturn("", body);
    EventsHaveNoReturn(Buffers("", "", ""), Lines("", body));
    if Parse(s) == Messages(lines) {
      forall i | 0 <= i < |lines|
        ensures '\r' !in lines[i]
      {
        SpacedChars(lines[i]);
        assert Messages(lines)[i].data == Spaced(lines[i]);
      }
    }
  }

  // ---------------------------------------------------------------------
  // The stream and its reader
  // ---------------------------------------------------------------------

  const DONE := "__BUILD_DONE__"
  const FAILED := "__BUILD_FAILED__:"

  predicate IsSentinel(line: string)
  {
    line == DONE || FAILED <= line
  }

  /** Which lines end the stream: one exact line, and every line that starts with the other mark. */
  lemma SentinelText(line: string)
    ensures IsSentinel(line) <==> line == "__BUILD_DONE__" || (|line| >= 17 && line[..17] == "__BUILD_FAILED__:")
  {
    assert |FAILED| == 17;
    assert FAILED <= line <==> |line| >= 17 && line[..17] == FAILED;
  }

  datatype Entry = Entry(id: nat, log: string)

  /** Redis gives entries increasing IDs, all after 0-0. */
  predicate Increasing(stream: seq<Entry>)
  {
    && (forall i :: 0 <= i < |stream| ==> stream[i].id > 0)
    && (forall i, j :: 0 <= i < j < |stream| ==> stream[i].id < stream[j].id)
  }

  function Logs(stream: seq<Entry>): seq<string>
  {
    seq(|stream|, i requires 0 <= i < |stream| => stream[i].log)
  }

  function After(stream: seq<Entry>, lastId: nat): seq<Entry>
  {
    if stream == [] then []
    else if stream[0].id > lastId then [stream[0]] + After(stream[1..], lastId)
    else After(stream[1..], lastId)
  }

  /** XREAD COUNT 10: the first ten entries after lastId. */
  function XRead(stream: seq<Entry>, lastId: nat): seq<Entry>
  {
    var newer := After(stream, lastId);
    if |newer| <= 10 then newer else newer[..10]
  }

  lemma {:induction false} AfterAll(stream: seq<Entry>, lastId: nat)
    requires forall i :: 0 <= i < |stream| ==> stream[i].id > lastId
    ensures After(stream, lastId) == stream
    decreases |stream|
  {
    if stream != [] {
      AfterAll(stream[1..], lastId);
    }
  }

  /** With the cursor on entry k - 1, the entries after it are those from k on. */
  lemma {:induction false} AfterCursor(stream: seq<Entry>, k: nat, lastId: nat)
    requires Increasing(stream) && k <= |stream|
    requires lastId == if k == 0 then 0 else stream[k - 1].id
    ensures After(stream, lastId) == stream[k..]
    decreases |stream|
  {
    if k == 0 {
      AfterAll(stream, lastId);
    } else {
      assert stream[0].id <= lastId;
      if k == 1 {
        AfterAll(stream[1..], lastId);
      } else {
        assert stream[1..][k - 2] == stream[k - 1];
        AfterCursor(stream[1..], k - 1, lastId);
      }
      assert stream[1..][k - 1..] == stream[k..];
    }
  }

  /** One turn of the reader's loop: a successful XREAD against the stream as it is then,
      a timeout with nothing new, or a reason to stop (deadline, client gone, Redis error). */
  datatype Poll = Read(stream: seq<Entry>) | Nothing | Stop

  /** What is read along the way is a growing stream that ends as `final`. */
  ghost predicate Growing(polls: seq<Poll>, final: seq<Entry>)
  {
    forall i :: 0 <= i < |polls| && polls[i].Read? ==> polls[i].stream <= final
  }

  ghost predicate NextEntries(batch: seq<Entry>, final: seq<Entry>, k: nat)
  {
    k + |batch| <= |final| && forall i :: 0 <= i < |batch| ==> batch[i] == final[k + i]
  }

  lemma EmitNext(stream: seq<Entry>, k: nat)
    requires k < |stream|
    ensures Emit(Logs(stream[..k + 1])) == Emit(Logs(stream[..k])) + Frame(stream[k].log)
  {
    var a, b := Logs(stream[..k]), Logs(stream[..k + 1]);
    assert b[..|b| - 1] == a && b[|b| - 1] == stream[k].log;
  }

  /** The first `k` entries of `final` have been written, the cursor is on the last of
      them, and there is no sentinel among them. */
  ghost predicate Replayed(final: seq<Entry>, k: nat, out: string, lastId: nat)
  {
    && k <= |final| && out == Emit(Logs(final[..k]))
    && lastId == (if k == 0 then 0 else final[k - 1].id)
    && forall i :: 0 <= i < k ==> !IsSentinel(final[i].log)
  }

  /** The inner loop: write a batch, stopping at a sentinel. */
  method WriteBatch(batch: seq<Entry>, written: string, cursor: nat, ghost final: seq<Entry>, from: nat)
      returns (out: string, lastId: nat, finished: bool, k: nat)
    requires Replayed(final, from, written, cursor) && NextEntries(batch, final, from)
    ensures !finished ==> k == from + |batch| && Replayed(final, k, out, lastId)
    ensures finished ==> from < k <= |final| && k <= from + |batch| && IsSentinel(final[k - 1].log)
    ensures finished ==> out == Emit(Logs(final[..k]))
    ensures finished ==> forall i :: 0 <= i < k - 1 ==> !IsSentinel(final[i].log)
  {
    hide Emit, Frame, IsSentinel, Logs;
    out, lastId, finished, k := written, cursor, false, from;
    for m := 0 to |batch|
      invariant k == from + m && Replayed(final, k, out, lastId) && !finished
    {
      var msg := batch[m];
      assert msg == final[k];
      EmitNext(final, k);
      out := out + Frame(msg.log);
      lastId := msg.id;
      k := k + 1;
      if IsSentinel(msg.log) {
        finished := true;
        return;
      }
    }
  }

  // How far the reader gets, without reference to its loop.

  /** The entries up to and including the first sentinel, or all of them. */
  function Through(stream: seq<Entry>): nat
  {
    if stream == [] then 0
    else if IsSentinel(stream[0].log) then 1
    else 1 + Through(stream[1..])
  }

  lemma {:induction false} ThroughEnds(stream: seq<Entry>, k: nat)
    requires k <= |stream| && forall i :: 0 <= i < k ==> !IsSentinel(stream[i].log)
    ensures k <= Through(stream) <= |stream|
    ensures k < |stream| && IsSentinel(stream[k].log) ==> Through(stream) == k + 1
    decreases |stream|
  {
    hide IsSentinel;
    if stream != [] && !IsSentinel(stream[0].log) {
      assert k < |stream| && k > 0 ==> stream[k] == stream[1..][k - 1];
      ThroughEnds(stream[1..], if k > 0 then k - 1 else 0);
    }
  }

  function Min(a: int, b: int): int { if a <= b then a else b }

  /** How many entries are out after these polls, from k on and at most `end`: a poll that sees a
      longer stream adds ten of its entries or all that are left, one that sees nothing new adds
      none, and nothing counts after a reason to stop. */
  function Written(polls: seq<Poll>, k: nat, end: nat): nat
    decreases |polls|
  {
    if polls == [] || polls[0].Stop? || k >= end then k
    else if polls[0].Nothing? || |polls[0].stream| <= k then Written(polls[1..], k, end)
    else Written(polls[1..], Min(end, Min(k + 10, |polls[0].stream|)), end)
  }

  /** The polls before the first reason to stop that see all of the stream. */
  function FullReads(polls: seq<Poll>, final: seq<Entry>): nat
    decreases |polls|
  {
    if polls == [] || polls[0].Stop? then 0
    else (if polls[0] == Read(final) then 1 else 0) + FullReads(polls[1..], final)
  }

  lemma {:induction false} ReaderProgress(polls: seq<Poll>, final: seq<Entry>, k: nat, end: nat)
    requires k <= end <= |final|
    ensures Min(end, k + 10 * FullReads(polls, final)) <= Written(polls, k, end) <= end
    decreases |polls|
  {
    if polls != [] && !polls[0].Stop? && k < end {
      if polls[0].Nothing? || |polls[0].stream| <= k {
        ReaderProgress(polls[1..], final, k, end);
      } else {
        ReaderProgress(polls[1..], final, Min(end, Min(k + 10, |polls[0].stream|)), end);
      }
    }
  }

  /** A poll that times out changes nothing. */
  lemma {:induction false} TimeoutsDoNotMatter(a: seq<Poll>, b: seq<Poll>, k: nat, end: nat)
    ensures Written(a + [Nothing] + b, k, end) == Written(a + b, k, end)
    decreases |a|
  {
    if a == [] {
      assert (a + [Nothing] + b)[1..] == b && a + b == b;
    } else {
      assert (a + [Nothing] + b)[1..] == a[1..] + [Nothing] + b && (a + b)[1..] == a[1..] + b;
      if !a[0].Stop? && k < end {
        if a[0].Nothing? || |a[0].stream| <= k {
          TimeoutsDoNotMatter(a[1..], b, k, end);
        } else {
          TimeoutsDoNotMatter(a[1..], b, Min(end, Min(k + 10, |a[0].stream|)), end);
        }
      }
    }
  }

  /** Main result: under any batching of the reads, the gateway writes an initial part of
      the stream, each entry once and in order, never past the first sentinel; it reports
      `finished` exactly when it has written that sentinel. `k` counts the entries: it is
      exactly what the polls allow, so that enough polls of the whole stream before any reason
      to stop bring it to the sentinel, or to the end of a stream that has none. */
  method HandleBuildLogs(polls: seq<Poll>, ghost final: seq<Entry>)
      returns (out: string, finished: bool, k: nat)
    requires Increasing(final) && Growing(polls, final)
    ensures k <= |final| && out == Emit(Logs(final[..k]))
    ensures finished <==> k > 0 && IsSentinel(final[k - 1].log)
    ensures forall i :: 0 <= i < k - 1 ==> !IsSentinel(final[i].log)
    ensures k == Written(polls, 0, Through(final))
    ensures 10 * FullReads(polls, final) >= |final| ==> finished || k == |final|
  {
    hide *;
    out, finished, k := "", false, 0;
    var lastId := 0;
    NothingWritten(polls, final);
    for n := 0 to |polls|
      invariant Replayed(final, k, out, lastId) && !finished && OnCourse(polls, n, k, Through(final))
    {
      if polls[n].Stop? {
        Concluded(polls, n, final, k, out, lastId);
        return;
      }
      if polls[n].Nothing? {
        OnePoll(polls, n, k, Through(final));
        continue;
      }
      var batch := XRead(polls[n].stream, lastId);
      PollAdds(polls, n, final, k, out, lastId);
      out, lastId, finished, k := WriteBatch(batch, out, lastId, final, k);
      if finished {
        SentinelReached(polls, n, final, k);
        return;
      }
      StillOnCourse(polls, n, final, k, out, lastId);
    }
    Concluded(polls, |polls|, final, k, out, lastId);
  }

  /** After n polls k entries are out, and the rest of the polls counts from there. */
  ghost predicate OnCourse(polls: seq<Poll>, n: nat, k: nat, end: nat)
  {
    n <= |polls| && k <= end && Written(polls, 0, end) == Written(polls[n..], k, end)
  }

  lemma NothingWritten(polls: seq<Poll>, final: seq<Entry>)
    ensures Replayed(final, 0, "", 0) && OnCourse(polls, 0, 0, Through(final))
  {
    assert polls[0..] == polls && Logs(final[..0]) == [];
  }

  /** What one turn of the loop adds. */
  lemma OnePoll(polls: seq<Poll>, n: nat, k: nat, end: nat)
    requires n < |polls| && OnCourse(polls, n, k, end) && !polls[n].Stop?
    ensures
      var more := if polls[n].Read? then Min(10, |polls[n].stream| - k) else 0;
      OnCourse(polls, n + 1, if more <= 0 then k else Min(end, k + more), end)
  {
    var rest := polls[n..];
    assert rest[0] == polls[n] && rest[1..] == polls[n + 1..];
    EndIsEnd(rest[1..], end);
  }

  /** The next batch, and where the course stands if all of it is written. */
  lemma PollAdds(polls: seq<Poll>, n: nat, final: seq<Entry>, k: nat, out: string, lastId: nat)
    requires Increasing(final) && Growing(polls, final) && n < |polls| && polls[n].Read?
    requires Replayed(final, k, out, lastId) && OnCourse(polls, n, k, Through(final))
    ensures
      var batch := XRead(polls[n].stream, lastId);
      NextEntries(batch, final, k) && OnCourse(polls, n + 1, Min(Through(final), k + |batch|), Through(final))
  {
    BatchIsNext(polls[n].stream, final, k, lastId);
    OnePoll(polls, n, k, Through(final));
    hide XRead, Increasing, Written;
  }

  /** The batch held no sentinel. */
  lemma StillOnCourse(polls: seq<Poll>, n: nat, final: seq<Entry>, k: nat, out: string, lastId: nat)
    requires Replayed(final, k, out, lastId) && n < |polls|
    requires OnCourse(polls, n + 1, Min(Through(final), k), Through(final))
    ensures OnCourse(polls, n + 1, k, Through(final))
  {
    hide IsSentinel, Through, Written;
    ThroughEnds(final, k);
  }

  /** The batch held the first sentinel. */
  lemma SentinelReached(polls: seq<Poll>, n: nat, final: seq<Entry>, k: nat)
    requires 0 < k <= |final| && IsSentinel(final[k - 1].log) && n < |polls|
    requires forall i :: 0 <= i < k - 1 ==> !IsSentinel(final[i].log)
    requires exists size :: size >= k && OnCourse(polls, n + 1, Min(Through(final), size), Through(final))
    ensures k == Written(polls, 0, Through(final))
  {
    hide IsSentinel, Through;
    ThroughEnds(final, k - 1);
    EndIsEnd(polls[n + 1..], Through(final));
  }

  lemma NoMorePolls(polls: seq<Poll>, n: nat, k: nat, end: nat)
    requires OnCourse(polls, n, k, end) && (n == |polls| || polls[n].Stop?)
    ensures k == Written(polls, 0, end)
  {
    assert n < |polls| ==> polls[n..][0] == polls[n];
  }

  /** No further poll counts, and no sentinel is out. */
  lemma Concluded(polls: seq<Poll>, n: nat, final: seq<Entry>, k: nat, out: string, lastId: nat)
    requires Replayed(final, k, out, lastId) && OnCourse(polls, n, k, Through(final))
    requires n == |polls| || polls[n].Stop?
    ensures k == Written(polls, 0, Through(final))
    ensures k <= |final| && out == Emit(Logs(final[..k])) && forall i :: 0 <= i < k ==> !IsSentinel(final[i].log)
    ensures 10 * FullReads(polls, final) >= |final| ==> k == |final|
  {
    NoMorePolls(polls, n, k, Through(final));
    hide IsSentinel, Through, FullReads, Written, OnCourse, Emit, Logs;
    ThroughEnds(final, k);
    ReachedEnd(final, k);
    ReaderProgress(polls, final, 0, Through(final));
  }

  lemma EndIsEnd(polls: seq<Poll>, end: nat)
    ensures Written(polls, end, end) == end
  {
  }

  /** Without a sentinel so far, being through is having read all. */
  lemma ReachedEnd(final: seq<Entry>, k: nat)
    requires k <= |final| && forall i :: 0 <= i < k ==> !IsSentinel(final[i].log)
    ensures k == Through(final) ==> k == |final|
  {
    hide IsSentinel, Through;
    if k < |final| {
      if IsSentinel(final[k].log) {
        ThroughEnds(final, k);
      } else {
        ThroughEnds(final, k + 1);
      }
    }
  }

  /** A read never repeats and never skips: it is the next entries of the final stream,
      as far as the stream had grown (nothing, if an older reply arrives late). */
  lemma BatchIsNext(stream: seq<Entry>, final: seq<Entry>, k: nat, lastId: nat)
    requires Increasing(final) && stream <= final && k <= |final|
    requires lastId == if k == 0 then 0 else final[k - 1].id
    ensures NextEntries(XRead(stream, lastId), final, k)
    ensures |XRead(stream, lastId)| == if |stream| <= k then 0 else Min(10, |stream| - k)
  {
    if k <= |stream| {
      AfterCursor(stream, k, lastId);
    } else {
      AfterNone(stream, lastId);
    }
  }

  lemma {:induction false} AfterNone(stream: seq<Entry>, lastId: nat)
    requires forall i :: 0 <= i < |stream| ==> stream[i].id <= lastId
    ensures After(stream, lastId) == []
    decreases |stream|
  {
    if stream != [] {
      AfterNone(stream[1..], lastId);
    }
  }

  // ---------------------------------------------------------------------
  // The worker
  // ---------------------------------------------------------------------

  datatype Status = Building | Completed | JobFailed

  /** Sentinels appear only at the end: DONE for success, FAILED with the error's text. */
  ghost predicate ClosedLog(lines: seq<string>, err: Option<string>)
  {
    && lines != []
    && (forall i :: 0 <= i < |lines| - 1 ==> !IsSentinel(lines[i]))
    && match err
       case None => lines[|lines| - 1] == DONE
       case Some(msg) => lines[|lines| - 1] == FAILED + " " + msg
  }

  lemma OrdinaryLine(line: string)
    requires line == "" || line[0] != '_'
    ensures !IsSentinel(line)
  {
    assert DONE[0] == '_' && FAILED[0] == '_';
  }

  datatype Stage = Download | Validate | Extract | Upload | Publish

  /** The line that announces a stage. */
  function Announce(stage: Stage): string
  {
    match stage
    case Download => "Downloading package from S3..."
    case Validate => "Validating ZIP package..."
    case Extract => "Extracting ZIP package..."
    case Upload => "Uploading artifacts to S3..."
    case Publish => "Publishing function.built event..."
  }

  /** The error of a failed stage; a failure to publish is only logged. */
  function Complaint(stage: Stage, e: string): string
  {
    match stage
    case Download => "Failed to download package: " + e
    case Validate => "Invalid package: " + e
    case Extract => "Failed to process package: " + e
    case Upload => "Failed to upload artifacts: " + e
    case Publish => ""
  }

  /** The error text of each stage that can fail the build, if it fails. */
  datatype Results = Results(download: Option<string>, validate: Option<string>,
                             extract: Option<string>, upload: Option<string>)

  /** The error the job returns: that of the first stage to fail. */
  function JobError(r: Results): Option<string>
  {
    if r.download.Some? then Some(Complaint(Download, r.download.value))
    else if r.validate.Some? then Some(Complaint(Validate, r.validate.value))
    else if r.extract.Some? then Some(Complaint(Extract, r.extract.value))
    else if r.upload.Some? then Some(Complaint(Upload, r.upload.value))
    else None
  }

  function Announced(r: Results): seq<string>
  {
    [Announce(Download)] +
    if r.download.Some? then []
    else if r.validate.Some? then [Announce(Validate)]
    else if r.extract.Some? then [Announce(Validate), Announce(Extract)]
    else if r.upload.Some? then [Announce(Validate), Announce(Extract), Announce(Upload)]
    else [Announce(Validate), Announce(Extract), Announce(Upload), Announce(Publish)]
  }

  function JobLog(r: Results): seq<string>
  {
    Announced(r) + [match JobError(r) case None => DONE case Some(msg) => FAILED + " " + msg]
  }

  /** The log of a build that succeeds, word for word. */
  lemma LogOfSuccess()
    ensures JobLog(Results(None, None, None, None)) ==
            ["Downloading package from S3...", "Validating ZIP package...", "Extracting ZIP package...",
             "Uploading artifacts to S3...", "Publishing function.built event...", "__BUILD_DONE__"]
  {
  }

  /** And of one that fails: it stops at the stage that failed, with that stage's complaint. */
  lemma LogOfFailure(r: Results, e: string)
    ensures r.download == Some(e) ==>
              JobLog(r) == ["Downloading package from S3...",
                            "__BUILD_FAILED__:" + " " + ("Failed to download package: " + e)]
    ensures r.download.None? && r.validate == Some(e) ==>
              JobLog(r) == ["Downloading package from S3...", "Validating ZIP package...",
                            "__BUILD_FAILED__:" + " " + ("Invalid package: " + e)]
    ensures r.download.None? && r.validate.None? && r.extract == Some(e) ==>
              JobLog(r) == ["Downloading package from S3...", "Validating ZIP package...", "Extracting ZIP package...",
                            "__BUILD_FAILED__:" + " " + ("Failed to process package: " + e)]
    ensures r.download.None? && r.validate.None? && r.extract.None? && r.upload == Some(e) ==>
              JobLog(r) == ["Downloading package from S3...", "Validating ZIP package...", "Extracting ZIP package...",
                            "Uploading artifacts to S3...",
                            "__BUILD_FAILED__:" + " " + ("Failed to upload artifacts: " + e)]
  {
  }

  /** Whatever fails, the log has one sentinel, at its end, of the kind that matches the
      result. */
  lemma JobLogIsClosed(r: Results)
    ensures ClosedLog(JobLog(r), JobError(r))
    ensures JobError(r).None? <==> r == Results(None, None, None, None)
  {
    AnnouncementsAreOrdinary();
    hide IsSentinel, Announce, Complaint;
    assert forall i :: 0 <= i < |Announced(r)| ==> !IsSentinel(Announced(r)[i]);
  }

  lemma AnnouncementsAreOrdinary()
    ensures forall stage :: !IsSentinel(Announce(stage))
  {
    forall stage
      ensures !IsSentinel(Announce(stage))
    {
      OrdinaryLine(Announce(stage));
    }
  }

  class BuildWorker {
    var log: seq<string>
    var status: Status
    var error: string

    constructor ()
      ensures log == []
    {
      log, status, error := [], Building, "";
    }

    method StreamBuildLog(line: string)
      modifies this`log
      ensures log == old(log) + [line]
    {
      log := log + [line];
    }

    method FailBuild(msg: string) returns (err: Option<string>)
      modifies this
      ensures err == Some(msg) && status == JobFailed && error == msg
      ensures log == old(log) + [FAILED + " " + msg]
    {
      StreamBuildLog(FAILED + " " + msg);
      status, error := JobFailed, msg;
      err := Some(msg);
    }

    /** The zip path of processBuildJob for a job that parsed. */
    method ProcessBuildJob(r: Results) returns (err: Option<string>)
      modifies this
      ensures log == old(log) + JobLog(r)
      ensures err == JobError(r)
      ensures status == if err.None? then Completed else JobFailed
      ensures err.Some? ==> error == err.value
    {
      hide Announce, Complaint;
      status := Building;
      StreamBuildLog(Announce(Download));
      if r.download.Some? {
        err := FailBuild(Complaint(Download, r.download.value));
        return;
      }
      StreamBuildLog(Announce(Validate));
      if r.validate.Some? {
        err := FailBuild(Complaint(Validate, r.validate.value));
        return;
      }
      StreamBuildLog(Announce(Extract));
      if r.extract.Some? {
        err := FailBuild(Complaint(Extract, r.extract.value));
        return;
      }
      StreamBuildLog(Announce(Upload));
      if r.upload.Some? {
        err := FailBuild(Complaint(Upload, r.upload.value));
        return;
      }
      StreamBuildLog(Announce(Publish));
      StreamBuildLog(DONE);
      status := Completed;
      err := None;
    }
  }

  // ---------------------------------------------------------------------
  // End to end
  // ---------------------------------------------------------------------

  lemma SentinelsDiffer(msg: string)
    ensures IsSentinel(DONE) && IsSentinel(FAILED + " " + msg) && FAILED + " " + msg != DONE
  {
    assert (FAILED + " " + msg)[8] == 'F' && DONE[8] == 'D';
  }

  /** The only sentinel of a closed log is its last line, so reading one is reading all. */
  lemma SentinelIsLast(lines: seq<string>, err: Option<string>, final: seq<Entry>, k: nat)
    requires ClosedLog(lines, err) && Logs(final) <= lines
    requires 0 < k <= |final| && IsSentinel(final[k - 1].log)
    ensures k == |lines| && Logs(final[..k]) == lines && final[k - 1].log == lines[k - 1]
  {
    hide IsSentinel;
    assert Logs(final)[k - 1] == final[k - 1].log == lines[k - 1];
    assert k == |lines|;
    assert final[..k] == final;
  }

  lemma LastLineTells(lines: seq<string>, err: Option<string>)
    requires ClosedLog(lines, err)
    ensures lines[|lines| - 1] == DONE <==> err.None?
    ensures FAILED <= lines[|lines| - 1] <==> err.Some?
  {
    match err
    case None => assert FAILED[8] == 'F' && DONE[8] == 'D';
    case Some(msg) => SentinelsDiffer(msg);
  }

  /** A reader that finished has the whole log. */
  lemma FinishedReader(r: Results, final: seq<Entry>, k: nat)
    requires Logs(final) <= JobLog(r) && 0 < k <= |final| && IsSentinel(final[k - 1].log)
    ensures k == |JobLog(r)| && Logs(final[..k]) == JobLog(r)
    ensures final[k - 1].log == DONE <==> JobError(r).None?
    ensures FAILED <= final[k - 1].log <==> JobError(r).Some?
  {
    var lines, err := JobLog(r), JobError(r);
    JobLogIsClosed(r);
    hide *;
    SentinelIsLast(lines, err, final, k);
    LastLineTells(lines, err);
  }

  /** Main result: let a job append its log and let the gateway read any growing part of it. When
      it reports that it finished, it has written the whole log, whose last line is DONE exactly
      when the job succeeded and a FAILED line exactly when it did not, and a browser receives
      every line if and only if none has a carriage return. Otherwise it has written a part of
      the log without its sentinel. One read of the whole log, before any reason to stop, is
      enough to finish. */
  method EndToEnd(r: Results, polls: seq<Poll>, ghost final: seq<Entry>) returns (out: string, finished: bool)
    requires Increasing(final) && Growing(polls, final) && Logs(final) <= JobLog(r)
    ensures finished ==> |final| == |JobLog(r)| && out == Emit(JobLog(r))
    ensures finished ==> (final[|final| - 1].log == DONE <==> JobError(r).None?)
    ensures finished ==> (FAILED <= final[|final| - 1].log <==> JobError(r).Some?)
    ensures finished ==> (Parse(out) == Messages(JobLog(r)) <==> NoCarriageReturn(JobLog(r)))
    ensures !finished ==> exists k :: 0 <= k < |JobLog(r)| && out == Emit(JobLog(r)[..k])
    ensures Logs(final) == JobLog(r) && FullReads(polls, final) > 0 ==> finished
  {
    hide *;
    ghost var lines := JobLog(r);
    LogIsShort(r);
    LogsLength(final);
    var k;
    out, finished, k := HandleBuildLogs(polls, final);
    if finished {
      FinishedReader(r, final, k);
      LogsSize(final, lines);
      RoundTripIff(lines);
    } else {
      UnfinishedReader(r, final, k);
    }
  }

  /** Five announcements and a sentinel at most: less than one batch. */
  lemma LogIsShort(r: Results)
    ensures |JobLog(r)| <= 10
  {
    hide Announce, Complaint;
  }

  lemma LogsLength(final: seq<Entry>)
    ensures |Logs(final)| == |final|
  {
  }

  lemma LogsSize(final: seq<Entry>, lines: seq<string>)
    requires Logs(final) <= lines
    ensures |final| <= |lines|
  {
  }

  lemma UnfinishedReader(r: Results, final: seq<Entry>, k: nat)
    requires Logs(final) <= JobLog(r) && k <= |final| && !(k > 0 && IsSentinel(final[k - 1].log))
    ensures k < |JobLog(r)| && Logs(final[..k]) == JobLog(r)[..k]
  {
    var lines := JobLog(r);
    JobLogIsClosed(r);
    hide JobLog;
    assert Logs(final) == lines[..|final|];
    assert forall i :: 0 <= i < k ==> Logs(final)[i] == lines[i] == final[i].log;
    if k == |lines| {
      LastIsSentinel(lines, JobError(r));
    }
    assert Logs(final[..k]) == lines[..k];
  }

  lemma LastIsSentinel(lines: seq<string>, err: Option<string>)
    requires ClosedLog(lines, err)
    ensures IsSentinel(lines[|lines| - 1])
  {
    if err.Some? {
      SentinelsDiffer(err.value);
    }
  }
}
