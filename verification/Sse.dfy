/**
 The frame parser of the event-stream connector: the line loop, a reference that works
 block by block, and the event-stream standard to compare with.
 */
module Sse {
  import opened Wrappers
  import opened Text

  const DEFAULT_TYPE := "sse_message"

  /** What one line says. */
  datatype Field = Blank | Name(name: string) | Content(text: string) | Ignored

  datatype Frame = Frame(name: string, data: string)

  function WithoutSpace(s: string): string {
    if s != "" && s[0] == ' ' then s[1..] else s
  }

  /** How the loop reads a line. */
  function ReadLine(line: string): Field {
    if line == "" then Blank
    else if "event:" <= line then Name(TrimSpace(line[6..]))
    else if "data:" <= line then Content(WithoutSpace(line[5..]))
    else Ignored
  }

  /** How section 9.2.6 of the WHATWG HTML Living Standard reads a line. */
  function StandardLine(line: string): Field {
    if line == "" then Blank
    else
      var colon := IndexOfChar(line, ':');
      var value := if colon == |line| then "" else WithoutSpace(line[colon + 1..]);
      if line[..colon] == "event" then Name(value)
      else if line[..colon] == "data" then Content(value)
      else Ignored
  }

  lemma EventLine(value: string)
    ensures ReadLine("event:" + value) == Name(TrimSpace(value))
    ensures StandardLine("event:" + value) == Name(WithoutSpace(value))
  {
    var line := "event:" + value;
    assert line == "event" + [':'] + value;
    IndexAfterHead("event", ':', value);
    assert line[..5] == "event" && line[6..] == value && line[..6] == "event:";
  }

  lemma DataLine(value: string)
    ensures ReadLine("data:" + value) == Content(WithoutSpace(value))
    ensures StandardLine("data:" + value) == Content(WithoutSpace(value))
  {
    var line := "data:" + value;
    assert line == "data" + [':'] + value;
    IndexAfterHead("data", ':', value);
    assert line[..4] == "data" && line[5..] == value && line[..5] == "data:";
    assert line[0] == 'd';
  }

  /** Any other line: the standard takes a bare field name for a field without value. */
  lemma OtherLine(line: string)
    requires line != "" && !("event:" <= line) && !("data:" <= line)
    ensures ReadLine(line) == Ignored
    ensures StandardLine(line) == if line == "event" then Name("") else if line == "data" then Content("") else Ignored
  {
    var colon := IndexOfChar(line, ':');
    if colon < |line| {
      assert line == line[..colon] + [':'] + line[colon + 1..];
      assert line[..colon] != "event" && line[..colon] != "data";
    } else {
      assert line[..colon] == line;
    }
  }

  lemma TrimOneSpace(value: string)
    ensures TrimSpace(value) == TrimSpace(WithoutSpace(value))
    ensures TrimSpace(value) == WithoutSpace(value) <==> Trimmed(WithoutSpace(value))
  {
    TrimSpaceIff(WithoutSpace(value));
    assert IsSpace(' ');
  }

  /** The two read a line alike unless it is a bare field name, or names an event with space
      around the name. */
  lemma LinesReadAlikeIff(line: string)
    ensures ReadLine(line) == StandardLine(line) <==>
      && line != "event" && line != "data"
      && ("event:" <= line ==> Trimmed(WithoutSpace(line[6..])))
  {
    if "event:" <= line {
      assert line == "event:" + line[6..];
      EventLine(line[6..]);
      TrimOneSpace(line[6..]);
    } else if "data:" <= line {
      assert line == "data:" + line[5..];
      DataLine(line[5..]);
    } else if line != "" {
      OtherLine(line);
    }
  }

  // ---- the loop

  datatype State = State(name: string, data: string, out: seq<Frame>)

  const START := State("", "", [])

  function Feed(s: State, f: Field): State {
    match f
    case Blank => if s.data != "" then State("", "", s.out + [Frame(s.name, s.data)]) else s
    case Name(name) => s.(name := name)
    case Content(text) => s.(data := if s.data != "" then s.data + "\n" + text else text)
    case Ignored => s
  }

  function Run(s: State, fields: seq<Field>): State {
    if fields == [] then s else Feed(Run(s, fields[..|fields| - 1]), fields[|fields| - 1])
  }

  /** The frames the loop makes of a stream. */
  function Parse(fields: seq<Field>): seq<Frame> {
    Run(START, fields).out
  }

  function ReadLines(lines: seq<string>): seq<Field> {
    Map(ReadLine, lines)
  }

  datatype Payload = Raw(text: string) | Wrapped(text: string)

  datatype Published = Published(kind: string, payload: Payload)

  /** What is published for a frame: JSON as it is, anything else wrapped in an object. */
  function Publication(jsonValid: string -> bool, f: Frame): Published {
    Published(if f.name == "" then DEFAULT_TYPE else f.name,
              if jsonValid(f.data) then Raw(f.data) else Wrapped(f.data))
  }

  lemma RunLine(lines: seq<string>, i: nat)
    requires i < |lines|
    ensures Run(START, ReadLines(lines[..i + 1])) == Feed(Run(START, ReadLines(lines[..i])), ReadLine(lines[i]))
  {
    MapSnoc(ReadLine, lines[..i], lines[i]);
    assert lines[..i + 1] == lines[..i] + [lines[i]];
    RunSnoc(START, ReadLines(lines[..i]), ReadLine(lines[i]));
  }

  /** What is published is the frames, in order: each under its name, or the default if it has
      none, with its data as it is where that is JSON and wrapped where it is not. */
  predicate PublishesAll(jsonValid: string -> bool, frames: seq<Frame>, published: seq<Published>) {
    |published| == |frames| && forall i :: 0 <= i < |frames| ==>
      && (frames[i].name != "" ==> published[i].kind == frames[i].name)
      && (frames[i].name == "" ==> published[i].kind == "sse_message")
      && (jsonValid(frames[i].data) ==> published[i].payload == Raw(frames[i].data))
      && (!jsonValid(frames[i].data) ==> published[i].payload == Wrapped(frames[i].data))
  }

  lemma PublishesEach(jsonValid: string -> bool, frames: seq<Frame>)
    ensures PublishesAll(jsonValid, frames, Map((f: Frame) => Publication(jsonValid, f), frames))
  {
  }

  /** readLoop over the scanned lines; `cancelledAt` is the line before which the context is
      first seen done, if it ever is. */
  method ReadLoop(lines: seq<string>, cancelledAt: Option<nat>, jsonValid: string -> bool)
    returns (published: seq<Published>, cancelled: bool)
    ensures cancelled <==> cancelledAt.Some? && cancelledAt.value < |lines|
    ensures PublishesAll(jsonValid,
      Parse(ReadLines(if cancelled then lines[..cancelledAt.value] else lines)), published)
  {
    var publish := (f: Frame) => Publication(jsonValid, f);
    var currentEvent, currentData := "", "";
    published, cancelled := [], false;
    ghost var s := START;
    for i := 0 to |lines|
      invariant !cancelled && (cancelledAt.Some? ==> i <= cancelledAt.value)
      invariant s == Run(START, ReadLines(lines[..i]))
      invariant s.name == currentEvent && s.data == currentData && published == Map(publish, s.out)
    {
      if cancelledAt == Some(i) {
        PublishesEach(jsonValid, s.out);
        return published, true;
      }
      var line := lines[i];
      RunLine(lines, i);
      MapSnoc(publish, s.out, Frame(s.name, s.data));
      s := Feed(s, ReadLine(line));
      if line == "" {
        if |currentData| > 0 {
          var payload := if jsonValid(currentData) then Raw(currentData) else Wrapped(currentData);
          var eventType := currentEvent;
          if eventType == "" {
            eventType := DEFAULT_TYPE;
          }
          published := published + [Published(eventType, payload)];
          currentData, currentEvent := "", "";
        }
        continue;
      }
      if "event:" <= line {
        currentEvent := TrimSpace(line[6..]);
      } else if "data:" <= line {
        var content := line[5..];
        if |content| > 0 && content[0] == ' ' {
          content := content[1..];
        }
        if |currentData| > 0 {
          currentData := currentData + "\n";
        }
        currentData := currentData + content;
      }
    }
    assert lines[..|lines|] == lines;
    PublishesEach(jsonValid, s.out);
  }

  lemma {:induction false} RunAppends(s: State, a: seq<Field>, b: seq<Field>)
    ensures Run(s, a + b) == Run(Run(s, a), b)
  {
    if b == [] {
      assert a + b == a;
    } else {
      RunAppends(s, a, b[..|b| - 1]);
      assert (a + b)[..|a + b| - 1] == a + b[..|b| - 1];
    }
  }

  /** What was published before only shows up in front. */
  lemma {:induction false} RunOut(s: State, fields: seq<Field>)
    ensures Run(s, fields) == Run(s.(out := []), fields).(out := s.out + Run(s.(out := []), fields).out)
  {
    if fields == [] {
      assert s.out + [] == s.out;
    } else {
      RunOut(s, fields[..|fields| - 1]);
    }
  }

  // ---- the reference, block by block

  function BlockEnd(fields: seq<Field>): (i: nat)
    ensures i <= |fields| && (i < |fields| ==> fields[i] == Blank)
    ensures forall j :: 0 <= j < i ==> fields[j] != Blank
  {
    if fields == [] || fields[0] == Blank then 0 else 1 + BlockEnd(fields[1..])
  }

  /** The last name a block gives, or the one it starts out with. */
  function BlockName(block: seq<Field>, before: string): string {
    if block == [] then before
    else if block[|block| - 1].Name? then block[|block| - 1].name
    else BlockName(block[..|block| - 1], before)
  }

  function BlockTexts(block: seq<Field>): seq<string> {
    if block == [] then []
    else BlockTexts(block[..|block| - 1]) +
         if block[|block| - 1].Content? then [block[|block| - 1].text] else []
  }

  function WithoutLeadingEmpty(texts: seq<string>): seq<string> {
    if texts != [] && texts[0] == "" then WithoutLeadingEmpty(texts[1..]) else texts
  }

  /** A block is a frame if some data line of it has content; the frame's data begins with
      the first such line. Otherwise the name it gave is kept for the next block. */
  function Spoken(fields: seq<Field>, carried: string): seq<Frame>
    decreases |fields|
  {
    var i := BlockEnd(fields);
    if i == |fields| then []
    else
      var name := BlockName(fields[..i], carried);
      var texts := WithoutLeadingEmpty(BlockTexts(fields[..i]));
      if texts == [] then Spoken(fields[i + 1..], name)
      else [Frame(name, Join(texts, '\n'))] + Spoken(fields[i + 1..], "")
  }

  /** The standard: a block with a data line is a frame of all its data, and every block
      starts without a name. */
  function StandardSpoken(fields: seq<Field>): seq<Frame>
    decreases |fields|
  {
    var i := BlockEnd(fields);
    if i == |fields| then []
    else
      var texts := BlockTexts(fields[..i]);
      (if texts == [] then [] else [Frame(BlockName(fields[..i], ""), Join(texts, '\n'))])
      + StandardSpoken(fields[i + 1..])
  }

  lemma {:induction false} JoinSnoc(texts: seq<string>, text: string)
    requires texts != []
    ensures Join(texts + [text], '\n') == Join(texts, '\n') + "\n" + text
  {
    if |texts| > 1 {
      JoinSnoc(texts[1..], text);
      assert (texts + [text])[1..] == texts[1..] + [text];
    } else {
      assert (texts + [text])[1..] == [text];
    }
  }

  lemma {:induction false} SnocLeading(texts: seq<string>, text: string)
    ensures WithoutLeadingEmpty(texts + [text]) ==
      if WithoutLeadingEmpty(texts) != [] then WithoutLeadingEmpty(texts) + [text]
      else if text != "" then [text] else []
  {
    if texts == [] {
      assert texts + [text] == [text];
    } else if texts[0] == "" {
      SnocLeading(texts[1..], text);
      assert (texts + [text])[1..] == texts[1..] + [text];
    }
  }

  lemma {:induction false} LeadingNotEmpty(texts: seq<string>)
    ensures WithoutLeadingEmpty(texts) != [] ==> WithoutLeadingEmpty(texts)[0] != ""
  {
    if texts != [] && texts[0] == "" {
      LeadingNotEmpty(texts[1..]);
    }
  }

  /** What the loop holds after the lines of a block. */
  lemma {:induction false} RunBlock(carried: string, block: seq<Field>)
    requires Blank !in block
    ensures Run(State(carried, "", []), block) ==
      State(BlockName(block, carried), Join(WithoutLeadingEmpty(BlockTexts(block)), '\n'), [])
  {
    if block != [] {
      var front, last := block[..|block| - 1], block[|block| - 1];
      RunBlock(carried, front);
      if last.Content? {
        SnocLeading(BlockTexts(front), last.text);
        LeadingNotEmpty(BlockTexts(front));
        var texts := WithoutLeadingEmpty(BlockTexts(front));
        if texts != [] {
          JoinSnoc(texts, last.text);
        }
      } else {
        assert BlockTexts(block) == BlockTexts(front);
      }
    }
  }

  lemma RunSnoc(s: State, fields: seq<Field>, f: Field)
    ensures Run(s, fields + [f]) == Feed(Run(s, fields), f)
  {
    assert (fields + [f])[..|fields|] == fields;
  }

  /** What the first block of a stream publishes, and what the rest goes on with. */
  lemma RunFirst(carried: string, block: seq<Field>, rest: seq<Field>)
    requires Blank !in block
    ensures var texts := WithoutLeadingEmpty(BlockTexts(block));
      var name := BlockName(block, carried);
      Run(State(carried, "", []), block + [Blank] + rest).out ==
        if texts == [] then Run(State(name, "", []), rest).out
        else [Frame(name, Join(texts, '\n'))] + Run(State("", "", []), rest).out
  {
    var s := State(carried, "", []);
    RunBlock(carried, block);
    RunSnoc(s, block, Blank);
    RunAppends(s, block + [Blank], rest);
    RunOut(Run(s, block + [Blank]), rest);
    LeadingNotEmpty(BlockTexts(block));
  }

  lemma {:induction false} RunSpeaks(carried: string, fields: seq<Field>)
    ensures Run(State(carried, "", []), fields).out == Spoken(fields, carried)
    decreases |fields|
  {
    var i := BlockEnd(fields);
    if i == |fields| {
      RunBlock(carried, fields);
    } else {
      var block, rest := fields[..i], fields[i + 1..];
      RunFirst(carried, block, rest);
      assert fields == block + [Blank] + rest;
      RunSpeaks(BlockName(block, carried), rest);
      RunSpeaks("", rest);
    }
  }

  /** The line loop publishes exactly the frames of the reference. */
  lemma ParseIsSpoken(fields: seq<Field>)
    ensures Parse(fields) == Spoken(fields, "")
  {
    RunSpeaks("", fields);
  }
}
