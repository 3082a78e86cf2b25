/** What the frame parser does to whole streams, and where it departs from the standard. */
module SseTheorems {
  import opened Wrappers
  import opened Text
  import opened Sse

  // ---- whole streams

  /** A stream after which the loop holds nothing. */
  predicate Settled(fields: seq<Field>) {
    var s := Run(START, fields);
    s.name == "" && s.data == ""
  }

  ghost predicate Separates(a: seq<Field>) {
    forall b: seq<Field> :: Parse(a + b) == Parse(a) + Parse(b)
  }

  /** A stream can be cut at a place, whatever follows, if and only if nothing is held there. */
  lemma ConcatenationIff(a: seq<Field>)
    ensures Separates(a) <==> Settled(a)
  {
    var s := Run(START, a);
    forall b: seq<Field>
      ensures Parse(a + b) == Parse(a) + Run(s.(out := []), b).out
    {
      RunAppends(START, a, b);
      RunOut(s, b);
    }
    if Settled(a) {
      assert s.(out := []) == START;
    } else {
      var b := [Content("x"), Blank];
      TwoLines(START);
      TwoLines(s.(out := []));
      var mine := Run(s.(out := []), b).out;
      assert mine[0] != Parse(b)[0] by {
        assert |s.data + "\n" + "x"| > |"x"|;
      }
      assert Parse(a + b)[|Parse(a)|..] == mine;
      assert Parse(a + b) != Parse(a) + Parse(b);
    }
  }

  lemma TwoLines(s: State)
    ensures Run(s, [Content("x"), Blank]).out ==
      s.out + [Frame(s.name, if s.data != "" then s.data + "\n" + "x" else "x")]
  {
    var b := [Content("x"), Blank];
    assert b[..1] == [Content("x")] && b[..1][..0] == [];
    assert Run(s, b[..1]) == Feed(s, Content("x"));
  }

  /** Lines after the last blank one publish nothing. */
  lemma {:induction false} UnterminatedIsSilent(a: seq<Field>, tail: seq<Field>)
    requires Blank !in tail
    ensures Parse(a + tail) == Parse(a)
  {
    if tail == [] {
      assert a + tail == a;
    } else {
      UnterminatedIsSilent(a, tail[..|tail| - 1]);
      assert (a + tail)[..|a + tail| - 1] == a + tail[..|tail| - 1];
    }
  }

  /** What was published up to some line is never taken back. */
  lemma PublishedStays(a: seq<Field>, b: seq<Field>)
    ensures Parse(a) <= Parse(a + b)
  {
    RunAppends(START, a, b);
    RunOut(Run(START, a), b);
  }

  // ---- the standard

  /** Section 9.2.6 as it is written: every data line ends in a line feed, the last of which
      goes when the event is dispatched; an empty data buffer also clears the event name. */
  function StandardFeed(s: State, f: Field): State {
    match f
    case Blank =>
      if s.data == "" then State("", "", s.out)
      else State("", "", s.out + [Frame(s.name, s.data[..|s.data| - 1])])
    case Name(name) => s.(name := name)
    case Content(text) => s.(data := s.data + text + "\n")
    case Ignored => s
  }

  function StandardRun(s: State, fields: seq<Field>): State {
    if fields == [] then s else StandardFeed(StandardRun(s, fields[..|fields| - 1]), fields[|fields| - 1])
  }

  function StandardParse(fields: seq<Field>): seq<Frame> {
    StandardRun(START, fields).out
  }

  lemma {:induction false} StandardRunAppends(s: State, a: seq<Field>, b: seq<Field>)
    ensures StandardRun(s, a + b) == StandardRun(StandardRun(s, a), b)
  {
    if b == [] {
      assert a + b == a;
    } else {
      StandardRunAppends(s, a, b[..|b| - 1]);
      assert (a + b)[..|a + b| - 1] == a + b[..|b| - 1];
    }
  }

  lemma {:induction false} StandardRunOut(s: State, fields: seq<Field>)
    ensures StandardRun(s, fields).out == s.out + StandardRun(s.(out := []), fields).out
    ensures StandardRun(s, fields).name == StandardRun(s.(out := []), fields).name
    ensures StandardRun(s, fields).data == StandardRun(s.(out := []), fields).data
  {
    if fields == [] {
      assert s.out + [] == s.out;
    } else {
      StandardRunOut(s, fields[..|fields| - 1]);
    }
  }

  /** What the standard's data buffer holds after these data lines. */
  function Buffer(texts: seq<string>): string {
    if texts == [] then "" else Join(texts, '\n') + "\n"
  }

  lemma BufferSnoc(texts: seq<string>, text: string)
    ensures Buffer(texts + [text]) == Buffer(texts) + text + "\n"
  {
    if texts != [] {
      JoinSnoc(texts, text);
    }
  }

  lemma {:induction false} StandardBlock(block: seq<Field>)
    requires Blank !in block
    ensures StandardRun(START, block) == State(BlockName(block, ""), Buffer(BlockTexts(block)), [])
  {
    if block != [] {
      var front, last := block[..|block| - 1], block[|block| - 1];
      StandardBlock(front);
      if last.Content? {
        BufferSnoc(BlockTexts(front), last.text);
      } else {
        assert BlockTexts(block) == BlockTexts(front);
      }
    }
  }

  lemma DispatchDropsLast(texts: seq<string>)
    requires texts != []
    ensures var b := Buffer(texts); b != "" && b[..|b| - 1] == Join(texts, '\n')
  {
  }

  /** The frames of one block, by the standard. */
  function StandardFrames(block: seq<Field>): seq<Frame> {
    var texts := BlockTexts(block);
    if texts == [] then [] else [Frame(BlockName(block, ""), Join(texts, '\n'))]
  }

  lemma StandardRunSnoc(block: seq<Field>, f: Field)
    ensures StandardRun(START, block + [f]) == StandardFeed(StandardRun(START, block), f)
  {
    assert (block + [f])[..|block|] == block;
  }

  lemma StandardFirst(block: seq<Field>, rest: seq<Field>)
    requires Blank !in block
    ensures StandardParse(block + [Blank] + rest) == StandardFrames(block) + StandardParse(rest)
  {
    StandardBlock(block);
    StandardRunSnoc(block, Blank);
    StandardRunAppends(START, block + [Blank], rest);
    var texts := BlockTexts(block);
    if texts != [] {
      DispatchDropsLast(texts);
    }
    var mid := StandardRun(START, block + [Blank]);
    StandardRunOut(mid, rest);
    assert mid.(out := []) == START;
    assert mid.out == StandardFrames(block);
  }

  lemma {:induction false} StandardIsSpoken(fields: seq<Field>)
    ensures StandardParse(fields) == StandardSpoken(fields)
    decreases |fields|
  {
    var i := BlockEnd(fields);
    if i == |fields| {
      StandardBlock(fields);
    } else {
      var block, rest := fields[..i], fields[i + 1..];
      StandardFirst(block, rest);
      assert fields == block + [Blank] + rest;
      StandardIsSpoken(rest);
      assert StandardSpoken(fields) == StandardFrames(block) + StandardSpoken(rest);
    }
  }

  /** Where the loop and the standard part ways: a complete block whose first data line is
      empty, or one that has data but no name after a block that had a name but no data. */
  predicate Conforms(fields: seq<Field>, carried: string)
    decreases |fields|
  {
    var i := BlockEnd(fields);
    i < |fields| ==>
      var block := fields[..i];
      var texts := BlockTexts(block);
      if texts == [] then Conforms(fields[i + 1..], BlockName(block, carried))
      else
        && texts[0] != ""
        && BlockName(block, carried) == BlockName(block, "")
        && Conforms(fields[i + 1..], "")
  }

  /** The loop never publishes more than the standard has it publish. */
  lemma {:induction false} SpokenIsFewer(fields: seq<Field>, carried: string)
    ensures |Spoken(fields, carried)| <= |StandardSpoken(fields)|
    decreases |fields|
  {
    var i := BlockEnd(fields);
    if i < |fields| {
      SpokenIsFewer(fields[i + 1..], BlockName(fields[..i], carried));
      SpokenIsFewer(fields[i + 1..], "");
    }
  }

  lemma {:induction false} LeadingIsShorter(texts: seq<string>)
    ensures |Join(WithoutLeadingEmpty(texts), '\n')| <= |Join(texts, '\n')|
  {
    if texts != [] && texts[0] == "" {
      LeadingIsShorter(texts[1..]);
    }
  }

  /** Dropping an empty first line is seen in the data. */
  lemma LeadingMatters(texts: seq<string>)
    requires texts != [] && texts[0] == "" && WithoutLeadingEmpty(texts) != []
    ensures Join(WithoutLeadingEmpty(texts), '\n') != Join(texts, '\n')
  {
    LeadingIsShorter(texts[1..]);
    assert WithoutLeadingEmpty(texts) == WithoutLeadingEmpty(texts[1..]);
    assert |texts| > 1;
  }

  lemma {:induction false} SpokenConformsIff(fields: seq<Field>, carried: string)
    ensures Spoken(fields, carried) == StandardSpoken(fields) <==> Conforms(fields, carried)
    decreases |fields|
  {
    var i := BlockEnd(fields);
    if i < |fields| {
      var block, rest := fields[..i], fields[i + 1..];
      var texts := BlockTexts(block);
      var name := BlockName(block, carried);
      if texts == [] {
        SpokenConformsIff(rest, name);
        assert [] + StandardSpoken(rest) == StandardSpoken(rest);
      } else if WithoutLeadingEmpty(texts) == [] {
        SpokenIsFewer(rest, name);
      } else {
        SpokenConformsIff(rest, "");
        if texts[0] == "" {
          LeadingMatters(texts);
        }
        var spoken := [Frame(name, Join(WithoutLeadingEmpty(texts), '\n'))] + Spoken(rest, "");
        assert spoken[1..] == Spoken(rest, "") && spoken == Spoken(fields, carried);
        var standard := [Frame(BlockName(block, ""), Join(texts, '\n'))] + StandardSpoken(rest);
        assert standard[1..] == StandardSpoken(rest) && standard == StandardSpoken(fields);
      }
    }
  }

  /** The loop makes of a stream what the standard makes of it exactly when the stream
      conforms. */
  lemma ConformsIff(fields: seq<Field>)
    ensures Parse(fields) == StandardParse(fields) <==> Conforms(fields, "")
  {
    ParseIsSpoken(fields);
    StandardIsSpoken(fields);
    SpokenConformsIff(fields, "");
  }

  /** An event name left over from a block without data names the next frame. */
  lemma NameIsKept(name: string)
    ensures Parse([Name(name), Blank, Content("x"), Blank]) == [Frame(name, "x")]
    ensures StandardParse([Name(name), Blank, Content("x"), Blank]) == [Frame("", "x")]
  {
    var s := [Name(name), Blank, Content("x"), Blank];
    assert s[..3][..2] == s[..2] && s[..2][..1] == s[..1] && s[..1][..0] == [];
    assert Run(START, s[..1]) == State(name, "", []);
    assert Run(START, s[..2]) == State(name, "", []);
    assert Run(START, s[..3]) == State(name, "x", []);
    assert StandardRun(START, s[..1]) == State(name, "", []);
    assert StandardRun(START, s[..2]) == State("", "", []);
    assert StandardRun(START, s[..3]) == State("", "x\n", []);
    assert "x\n"[..1] == "x";
  }

  // ---- round trip

  /** A frame as a server writes it. */
  datatype Message = Message(name: Option<string>, texts: seq<string>)

  predicate OneLine(s: string) {
    '\n' !in s && (s == "" || s[|s| - 1] != '\r')
  }

  /** What a message may hold: data, and a trimmed name, each on one line. */
  predicate WellFormed(m: Message) {
    && m.texts != []
    && (m.name.Some? ==> Trimmed(m.name.value) && OneLine(m.name.value))
    && forall t :: t in m.texts ==> OneLine(t)
  }

  predicate BeginsWithData(m: Message) {
    m.texts != [] && m.texts[0] != ""
  }

  function DataLines(texts: seq<string>): seq<string> {
    Map((t: string) => "data: " + t, texts)
  }

  function NameLine(name: Option<string>): seq<string> {
    if name.None? then [] else ["event: " + name.value]
  }

  function Encode(m: Message): seq<string> {
    NameLine(m.name) + DataLines(m.texts) + [""]
  }

  function EncodeAll(ms: seq<Message>): seq<string> {
    if ms == [] then [] else Encode(ms[0]) + EncodeAll(ms[1..])
  }

  function Meant(m: Message): Frame {
    Frame(m.name.GetOr(""), Join(m.texts, '\n'))
  }

  /** The lines on the wire, each ended by a line feed. */
  function Wire(lines: seq<string>): string {
    if lines == [] then "" else lines[0] + "\n" + Wire(lines[1..])
  }

  function WithoutReturn(s: string): string {
    if s != "" && s[|s| - 1] == '\r' then s[..|s| - 1] else s
  }

  /** The scanner: lines end at a line feed, before which a carriage return is dropped; a
      last line need not end. */
  function ScanLines(text: string): seq<string>
    decreases |text|
  {
    if text == "" then []
    else
      var i := IndexOfChar(text, '\n');
      [WithoutReturn(text[..i])] + if i == |text| then [] else ScanLines(text[i + 1..])
  }

  lemma {:induction false} ScanWire(lines: seq<string>)
    requires forall l :: l in lines ==> OneLine(l)
    ensures ScanLines(Wire(lines)) == lines
  {
    if lines != [] {
      var tail := Wire(lines[1..]);
      assert OneLine(lines[0]);
      IndexAfterHead(lines[0], '\n', tail);
      var text := Wire(lines);
      assert text == lines[0] + ['\n'] + tail;
      assert text[..|lines[0]|] == lines[0] && text[|lines[0]| + 1..] == tail;
      ScanWire(lines[1..]);
    }
  }

  lemma {:induction false} EncodedOnOneLine(ms: seq<Message>)
    requires forall m :: m in ms ==> WellFormed(m)
    ensures forall l :: l in EncodeAll(ms) ==> OneLine(l)
  {
    if ms != [] {
      EncodedOnOneLine(ms[1..]);
      assert WellFormed(ms[0]);
      forall t | t in ms[0].texts ensures OneLine("data: " + t) {
        assert t != "" ==> ("data: " + t)[|"data: " + t| - 1] == t[|t| - 1];
      }
      if ms[0].name.Some? {
        var n := ms[0].name.value;
        assert n != "" ==> ("event: " + n)[|"event: " + n| - 1] == n[|n| - 1];
      }
    }
  }

  /** The fields of a message, as the loop and the standard both read them. */
  function FieldsOf(m: Message): seq<Field> {
    (if m.name.None? then [] else [Name(m.name.value)]) + Map((t: string) => Content(t), m.texts)
  }

  lemma EncodeReads(m: Message)
    requires WellFormed(m)
    ensures ReadLines(Encode(m)) == FieldsOf(m) + [Blank]
  {
    forall t: string ensures ReadLine("data: " + t) == Content(t) {
      var line := "data: " + t;
      assert line[..5] == "data:" && line[5..] == " " + t && (" " + t)[1..] == t;
      assert line[0] == 'd';
    }
    if m.name.Some? {
      var line := "event: " + m.name.value;
      assert line[..6] == "event:" && line[6..] == " " + m.name.value;
      TrimSpaceIff(m.name.value);
      assert (" " + m.name.value)[1..] == m.name.value;
    }
  }

  lemma {:induction false} ContentBlock(head: seq<Field>, texts: seq<string>)
    requires head == [] || (|head| == 1 && head[0].Name?)
    ensures
      var block := head + Map((t: string) => Content(t), texts);
      BlockTexts(block) == texts && forall before :: BlockName(block, before) == BlockName(head, before)
  {
    var block := head + Map((t: string) => Content(t), texts);
    if texts == [] {
      assert block == head;
      assert head != [] ==> head[..0] == [];
    } else {
      ContentBlock(head, texts[..|texts| - 1]);
      assert block[..|block| - 1] == head + Map((t: string) => Content(t), texts[..|texts| - 1]);
    }
  }

  lemma BlockEndAt(block: seq<Field>, rest: seq<Field>)
    requires Blank !in block
    ensures BlockEnd(block + [Blank] + rest) == |block|
  {
    var s := block + [Blank] + rest;
    assert s[|block|] == Blank;
    assert forall j :: 0 <= j < |block| ==> s[j] == block[j] && block[j] in block;
  }

  /** The first block of an encoded stream. */
  lemma FirstBlock(m: Message, lines: seq<string>)
    requires WellFormed(m)
    ensures
      var fields := ReadLines(Encode(m) + lines);
      var i := BlockEnd(fields);
      && i < |fields| && fields == FieldsOf(m) + [Blank] + ReadLines(lines)
      && fields[..i] == FieldsOf(m) && fields[i + 1..] == ReadLines(lines)
      && BlockTexts(FieldsOf(m)) == m.texts && BlockName(FieldsOf(m), "") == m.name.GetOr("")
  {
    EncodeReads(m);
    var fields := ReadLines(Encode(m) + lines);
    assert fields == ReadLines(Encode(m)) + ReadLines(lines);
    BlockEndAt(FieldsOf(m), ReadLines(lines));
    var head := if m.name.None? then [] else [Name(m.name.value)];
    ContentBlock(head, m.texts);
    assert head != [] ==> head[..0] == [];
  }

  lemma FirstMeans(m: Message, lines: seq<string>)
    requires WellFormed(m)
    ensures StandardSpoken(ReadLines(Encode(m) + lines)) == [Meant(m)] + StandardSpoken(ReadLines(lines))
  {
    FirstBlock(m, lines);
    var fields := ReadLines(Encode(m) + lines);
    var i := BlockEnd(fields);
    assert BlockTexts(fields[..i]) == m.texts;
    assert StandardSpoken(fields) ==
      [Frame(BlockName(fields[..i], ""), Join(m.texts, '\n'))] + StandardSpoken(fields[i + 1..]);
  }

  lemma {:induction false} EncodedMeans(ms: seq<Message>)
    requires forall m :: m in ms ==> WellFormed(m)
    ensures StandardSpoken(ReadLines(EncodeAll(ms))) == Map(Meant, ms)
  {
    if ms != [] {
      assert WellFormed(ms[0]);
      FirstMeans(ms[0], EncodeAll(ms[1..]));
      EncodedMeans(ms[1..]);
      MapHead(ms);
    }
  }

  lemma MapHead(ms: seq<Message>)
    requires ms != []
    ensures Map(Meant, ms) == [Meant(ms[0])] + Map(Meant, ms[1..])
  {
  }

  lemma {:induction false} EncodedConforms(ms: seq<Message>)
    requires forall m :: m in ms ==> WellFormed(m)
    ensures Conforms(ReadLines(EncodeAll(ms)), "") <==> forall m :: m in ms ==> BeginsWithData(m)
  {
    if ms != [] {
      FirstBlock(ms[0], EncodeAll(ms[1..]));
      assert WellFormed(ms[0]);
      EncodedConforms(ms[1..]);
      assert ms == [ms[0]] + ms[1..];
    }
  }

  /** Messages put on the wire come out as they were meant, in order, if and only if each
      has a non-empty first data line. */
  lemma RoundTripIff(ms: seq<Message>)
    requires forall m :: m in ms ==> WellFormed(m)
    ensures Parse(ReadLines(ScanLines(Wire(EncodeAll(ms))))) == Map(Meant, ms)
      <==> forall m :: m in ms ==> BeginsWithData(m)
  {
    EncodedOnOneLine(ms);
    ScanWire(EncodeAll(ms));
    var fields := ReadLines(EncodeAll(ms));
    ParseIsSpoken(fields);
    EncodedMeans(ms);
    EncodedConforms(ms);
    SpokenConformsIff(fields, "");
  }

  lemma MessageSettles(m: Message)
    requires WellFormed(m) && BeginsWithData(m)
    ensures Settled(FieldsOf(m) + [Blank])
  {
    FirstBlock(m, []);
    RunBlock("", FieldsOf(m));
    RunSnoc(START, FieldsOf(m), Blank);
    assert WithoutLeadingEmpty(m.texts) == m.texts;
    assert Join(m.texts, '\n') != "";
  }

  /** A stream of such messages can be cut after any of them. */
  lemma {:induction false} MessagesSettle(ms: seq<Message>)
    requires forall m :: m in ms ==> WellFormed(m) && BeginsWithData(m)
    ensures Settled(ReadLines(EncodeAll(ms)))
  {
    if ms != [] {
      var m := ms[0];
      var rest := ReadLines(EncodeAll(ms[1..]));
      MessagesSettle(ms[1..]);
      MessageSettles(m);
      FirstBlock(m, EncodeAll(ms[1..]));
      var s := Run(START, FieldsOf(m) + [Blank]);
      RunAppends(START, FieldsOf(m) + [Blank], rest);
      RunOut(s, rest);
      assert s.(out := []) == START;
    }
  }
}
