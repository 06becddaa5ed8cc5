/** The Server-sent events wire format (WHATWG HTML Living Standard, section
    9.2): the `data:` frames the server writes, and the client-side
    interpretation of an event stream as the standard defines it, restricted to
    the `data` field the server uses. */
module ServerSentEvents {

  /** `data: <payload>\n\n`: one event whose data is `payload`. */
  function Frame(payload: string): string {
    "data: " + payload + "\n\n"
  }

  /** The frames for `payloads`, written one after another. */
  function Stream(payloads: seq<string>): string
    decreases |payloads|
  {
    if payloads == [] then [] else Frame(payloads[0]) + Stream(payloads[1..])
  }

  /** A payload that needs no line break of its own (as `JSON.stringify` output). */
  predicate SingleLine(s: string) {
    '\n' !in s && '\r' !in s
  }

  /** The client's state: the line read so far, the data buffer, whether the
      last character was a CR (so that a following LF ends no further line),
      and the data of the events dispatched so far. */
  datatype Parser = Parser(line: string, data: string, afterCr: bool, events: seq<string>)

  /** A parser between events, having dispatched `events`. */
  function Idle(events: seq<string>): Parser {
    Parser([], [], false, events)
  }

  /** The index of the first `c` in `s`, or `|s|` when there is none. */
  function IndexOf(s: string, c: char): (k: nat)
    ensures k <= |s|
    ensures forall j :: 0 <= j < k ==> s[j] != c
    ensures k < |s| ==> s[k] == c
    decreases |s|
  {
    if s == [] then 0 else if s[0] == c then 0 else 1 + IndexOf(s[1..], c)
  }

  /** A line split into field name and value: at the first colon, with one
      space after it dropped; a line without a colon is all field name. */
  function SplitField(line: string): (string, string) {
    var k := IndexOf(line, ':');
    if k == |line| then (line, [])
    else
      var value := line[k + 1..];
      (line[..k], if value != [] && value[0] == ' ' then value[1..] else value)
  }

  /** Dispatching at a blank line: an empty data buffer dispatches nothing;
      otherwise the final LF is dropped and the event fired. */
  function Dispatch(p: Parser): Parser {
    if p.data == [] then p
    else
      var d := if p.data[|p.data| - 1] == '\n' then p.data[..|p.data| - 1] else p.data;
      p.(data := [], events := p.events + [d])
  }

  /** Interpreting one complete line; comment lines and fields other than
      `data` leave the data buffer alone. */
  function ProcessLine(p: Parser): Parser {
    var q := p.(line := []);
    if p.line == [] then Dispatch(q)
    else if p.line[0] == ':' then q
    else
      var fv := SplitField(p.line);
      if fv.0 == "data" then q.(data := q.data + fv.1 + "\n") else q
  }

  /** Reading one character: CR, LF and CR LF each end a line. */
  function Step(p: Parser, c: char): Parser {
    if c == '\r' then ProcessLine(p).(afterCr := true)
    else if c == '\n' then
      (if p.afterCr then p.(afterCr := false) else ProcessLine(p))
    else p.(line := p.line + [c], afterCr := false)
  }

  /** Reading `s` from the left. */
  function Feed(p: Parser, s: string): Parser
    decreases |s|
  {
    if s == [] then p else Feed(Step(p, s[0]), s[1..])
  }

  /** The data of every event a client receives from the stream `s`. */
  function Decode(s: string): seq<string> {
    Feed(Idle([]), s).events
  }
}

/** A stream of frames decodes to exactly the payloads written. */
module ServerSentEventsProperties {
  import opened ServerSentEvents

  lemma {:induction false} FeedConcat(p: Parser, a: string, b: string)
    ensures Feed(p, a + b) == Feed(Feed(p, a), b)
    decreases |a|
  {
    if a != [] {
      assert (a + b)[0] == a[0];
      assert (a + b)[1..] == a[1..] + b;
      FeedConcat(Step(p, a[0]), a[1..], b);
    } else {
      assert a + b == b;
    }
  }

  /** Characters other than line breaks only extend the current line. */
  lemma {:induction false} FeedWithinLine(p: Parser, s: string)
    requires SingleLine(s)
    ensures Feed(p, s) == if s == [] then p else p.(line := p.line + s, afterCr := false)
    decreases |s|
  {
    if s != [] {
      assert s[0] in s;
      assert forall c :: c in s[1..] ==> c in s;
      FeedWithinLine(Step(p, s[0]), s[1..]);
      assert p.line + [s[0]] + s[1..] == p.line + s;
    }
  }

  /** The field of a `data: ` line is `data` and its value the payload. */
  lemma DataLineSplits(payload: string)
    ensures SplitField("data: " + payload) == ("data", payload)
  {
    var line := "data: " + payload;
    assert line[4] == ':';
    assert line[0] != ':' && line[1] != ':' && line[2] != ':' && line[3] != ':';
    assert IndexOf(line, ':') == 4;
    assert line[5..] == " " + payload;
    assert line[..4] == "data";
  }

  /** Reading a `data: ` line up to its end leaves it in the line buffer. */
  lemma DataLineBuffered(events: seq<string>, payload: string)
    requires SingleLine(payload)
    ensures Feed(Idle(events), "data: " + payload) == Parser("data: " + payload, [], false, events)
  {
    var line := "data: " + payload;
    assert SingleLine(line) by {
      assert forall c :: c in line ==> c in "data: " || c in payload;
    }
    FeedWithinLine(Idle(events), line);
  }

  /** One frame read between events dispatches exactly its payload. */
  lemma FrameDispatchesPayload(events: seq<string>, payload: string)
    requires SingleLine(payload)
    ensures Feed(Idle(events), Frame(payload)) == Idle(events + [payload])
  {
    var line := "data: " + payload;
    assert Frame(payload) == line + "\n" + "\n";
    FeedConcat(Idle(events), line + "\n", "\n");
    FeedConcat(Idle(events), line, "\n");
    DataLineBuffered(events, payload);
    DataLineSplits(payload);
    var p1 := Parser(line, [], false, events);
    var p2 := Parser([], payload + "\n", false, events);
    assert Feed(p1, "\n") == p2;
    assert Feed(p2, "\n") == Idle(events + [payload]) by {
      assert (payload + "\n")[..|payload|] == payload;
    }
  }

  /** Frames written one after another reach the client as the same payloads,
      in the same order. */
  lemma {:induction false} StreamDispatchesPayloads(events: seq<string>, payloads: seq<string>)
    requires forall i :: 0 <= i < |payloads| ==> SingleLine(payloads[i])
    ensures Feed(Idle(events), Stream(payloads)) == Idle(events + payloads)
    decreases |payloads|
  {
    if payloads != [] {
      FeedConcat(Idle(events), Frame(payloads[0]), Stream(payloads[1..]));
      FrameDispatchesPayload(events, payloads[0]);
      StreamDispatchesPayloads(events + [payloads[0]], payloads[1..]);
      assert events + [payloads[0]] + payloads[1..] == events + payloads;
    }
  }

  /** Decoding inverts framing. */
  lemma DecodeStream(payloads: seq<string>)
    requires forall i :: 0 <= i < |payloads| ==> SingleLine(payloads[i])
    ensures Decode(Stream(payloads)) == payloads
  {
    StreamDispatchesPayloads([], payloads);
  }
}
