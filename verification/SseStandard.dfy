/**
 The loop and the event-stream standard on whole streams of raw lines: exactly on which they
 agree, and an input for each way in which they do not.
 */
module SseStandard {
  import opened Wrappers
  import opened Text
  import opened Sse
  import opened SseTheorems

  function StandardLines(lines: seq<string>): seq<Field> {
    Map(StandardLine, lines)
  }

  /** Where the first blank line is, or |lines| if there is none. */
  function BlankAt(lines: seq<string>): (i: nat)
    ensures i <= |lines| && (i < |lines| ==> lines[i] == "")
    ensures forall j :: 0 <= j < i ==> lines[j] != ""
  {
    if lines == [] || lines[0] == "" then 0 else 1 + BlankAt(lines[1..])
  }

  /** Whether the loop has no name after these lines: the last `event:` line names nothing but
      space, or there is none and no name was left over from before. */
  predicate Nameless(block: seq<string>, leftOver: bool) {
    if block == [] then !leftOver
    else
      var line := block[|block| - 1];
      if "event:" <= line then TrimSpace(line[6..]) == "" else Nameless(block[..|block| - 1], leftOver)
  }

  /** Whether both give a block one name. It is the last line about a name that decides: an
      `event:` line must have no space around its name; a bare `event` line takes the name away
      by the standard only, so there must not be one; and without such a line there must be
      none left over. */
  predicate NamedAlike(block: seq<string>, leftOver: bool) {
    if block == [] then !leftOver
    else
      var front, line := block[..|block| - 1], block[|block| - 1];
      if "event:" <= line then Trimmed(WithoutSpace(line[6..]))
      else if line == "event" then Nameless(front, leftOver)
      else NamedAlike(front, leftOver)
  }

  /** The lines on which the loop does what the standard asks, told block by block: a block
      without data is only remembered for whether it leaves a name over; a block with data must
      have no bare `data` line, begin with a line of data that is not empty, and be named
      alike. */
  predicate LinesConform(lines: seq<string>, leftOver: bool)
    decreases |lines|
  {
    var i := BlankAt(lines);
    i < |lines| ==>
      var block := lines[..i];
      var texts := BlockTexts(StandardLines(block));
      if texts == [] then LinesConform(lines[i + 1..], !Nameless(block, leftOver))
      else "data" !in block && texts[0] != "" && NamedAlike(block, leftOver) && LinesConform(lines[i + 1..], false)
  }

  // ---- one line

  /** Both readers see a blank line in the same places, and data in the same lines - except
      that a bare `data` line is data only by the standard. */
  lemma LinePair(line: string)
    ensures ReadLine(line) == Blank <==> line == ""
    ensures StandardLine(line) == Blank <==> line == ""
    ensures line != "data" ==> (ReadLine(line).Content? <==> StandardLine(line).Content?)
    ensures line != "data" && ReadLine(line).Content? ==> ReadLine(line) == StandardLine(line)
    ensures line == "data" ==> ReadLine(line) == Ignored && StandardLine(line) == Content("")
  {
    if "event:" <= line {
      assert line == "event:" + line[6..];
      EventLine(line[6..]);
    } else if "data:" <= line {
      assert line == "data:" + line[5..];
      DataLine(line[5..]);
      assert line[4] == ':';
    } else if line != "" {
      OtherLine(line);
    }
  }

  // ---- one block

  function Total(texts: seq<string>): nat {
    if texts == [] then 0 else |texts[0]| + Total(texts[1..])
  }

  lemma {:induction false} TotalSnoc(texts: seq<string>, text: string)
    ensures Total(texts + [text]) == Total(texts) + |text|
  {
    if texts == [] {
      assert texts + [text] == [text];
      assert [text][1..] == [];
    } else {
      TotalSnoc(texts[1..], text);
      assert (texts + [text])[1..] == texts[1..] + [text];
    }
  }

  lemma {:induction false} JoinLength(texts: seq<string>)
    requires texts != []
    ensures |Join(texts, '\n')| == Total(texts) + |texts| - 1
  {
    if |texts| > 1 {
      JoinLength(texts[1..]);
    } else {
      assert texts[1..] == [];
    }
  }

  lemma {:induction false} LeadingTotals(texts: seq<string>)
    ensures Total(WithoutLeadingEmpty(texts)) == Total(texts)
    ensures |WithoutLeadingEmpty(texts)| <= |texts|
    ensures |WithoutLeadingEmpty(texts)| == |texts| <==> texts == [] || texts[0] != ""
    ensures |WithoutLeadingEmpty(texts)| == |texts| ==> WithoutLeadingEmpty(texts) == texts
  {
    if texts != [] && texts[0] == "" {
      LeadingTotals(texts[1..]);
    }
  }

  lemma TextsSnoc(block: seq<Field>, f: Field)
    ensures BlockTexts(block + [f]) == if f.Content? then BlockTexts(block) + [f.text] else BlockTexts(block)
  {
    assert (block + [f])[..|block|] == block;
    assert BlockTexts(block) + [] == BlockTexts(block);
  }

  /** A bare `data` line is one more text, and an empty one. */
  predicate DataRelated(read: seq<string>, standard: seq<string>, bare: bool) {
    && Total(read) == Total(standard)
    && |read| <= |standard|
    && (|read| == |standard| <==> !bare)
    && (!bare ==> read == standard)
  }

  lemma BothMore(read: seq<string>, standard: seq<string>, bare: bool, text: string)
    requires DataRelated(read, standard, bare)
    ensures DataRelated(read + [text], standard + [text], bare)
  {
    TotalSnoc(read, text);
    TotalSnoc(standard, text);
  }

  lemma OneMore(read: seq<string>, standard: seq<string>, bare: bool)
    requires DataRelated(read, standard, bare)
    ensures DataRelated(read, standard + [""], true)
  {
    TotalSnoc(standard, "");
  }

  lemma TextsOfMore(front: seq<string>, line: string)
    ensures BlockTexts(ReadLines(front + [line])) ==
      var f := ReadLine(line);
      if f.Content? then BlockTexts(ReadLines(front)) + [f.text] else BlockTexts(ReadLines(front))
    ensures BlockTexts(StandardLines(front + [line])) ==
      var f := StandardLine(line);
      if f.Content? then BlockTexts(StandardLines(front)) + [f.text] else BlockTexts(StandardLines(front))
  {
    MapSnoc(ReadLine, front, line);
    MapSnoc(StandardLine, front, line);
    TextsSnoc(ReadLines(front), ReadLine(line));
    TextsSnoc(StandardLines(front), StandardLine(line));
  }

  lemma TextsStep(front: seq<string>, line: string)
    requires DataRelated(BlockTexts(ReadLines(front)), BlockTexts(StandardLines(front)), "data" in front)
    ensures var block := front + [line];
      DataRelated(BlockTexts(ReadLines(block)), BlockTexts(StandardLines(block)), "data" in block)
  {
    LinePair(line);
    TextsOfMore(front, line);
    if line == "data" {
      OneMore(BlockTexts(ReadLines(front)), BlockTexts(StandardLines(front)), "data" in front);
    } else if StandardLine(line).Content? {
      var text := StandardLine(line).text;
      BothMore(BlockTexts(ReadLines(front)), BlockTexts(StandardLines(front)), "data" in front, text);
    }
  }

  lemma {:induction false} TextsOfBlock(block: seq<string>)
    ensures DataRelated(BlockTexts(ReadLines(block)), BlockTexts(StandardLines(block)), "data" in block)
  {
    if block != [] {
      var front, line := block[..|block| - 1], block[|block| - 1];
      TextsOfBlock(front);
      TextsStep(front, line);
      assert block == front + [line];
    }
  }

  /** The data of a block is the same for both exactly if no data line of it is bare and the
      first is not empty. */
  lemma DataAlikeIff(block: seq<string>)
    requires WithoutLeadingEmpty(BlockTexts(ReadLines(block))) != []
    ensures var texts := BlockTexts(StandardLines(block));
      && texts != []
      && (Join(WithoutLeadingEmpty(BlockTexts(ReadLines(block))), '\n') == Join(texts, '\n')
          <==> "data" !in block && texts[0] != "")
  {
    var read, standard := BlockTexts(ReadLines(block)), BlockTexts(StandardLines(block));
    TextsOfBlock(block);
    LeadingTotals(read);
    JoinLength(WithoutLeadingEmpty(read));
    JoinLength(standard);
  }

  /** A block the loop does not publish has no data by the standard either, or conforms not. */
  lemma SilentBlock(block: seq<string>)
    requires WithoutLeadingEmpty(BlockTexts(ReadLines(block))) == []
    ensures var texts := BlockTexts(StandardLines(block)); texts != [] ==> "data" in block || texts[0] == ""
  {
    TextsOfBlock(block);
    LeadingTotals(BlockTexts(ReadLines(block)));
  }

  lemma NameSnoc(block: seq<Field>, f: Field, before: string)
    ensures BlockName(block + [f], before) == if f.Name? then f.name else BlockName(block, before)
  {
    assert (block + [f])[..|block|] == block;
  }

  /** What a line says of the name, to either reader. */
  lemma NamePair(line: string)
    ensures if "event:" <= line then ReadLine(line) == Name(TrimSpace(line[6..])) else !ReadLine(line).Name?
    ensures if "event:" <= line then StandardLine(line) == Name(WithoutSpace(line[6..]))
            else if line == "event" then StandardLine(line) == Name("") else !StandardLine(line).Name?
  {
    if "event:" <= line {
      assert line == "event:" + line[6..];
      EventLine(line[6..]);
    } else if "data:" <= line {
      assert line == "data:" + line[5..];
      DataLine(line[5..]);
      assert line[0] == 'd';
    } else if line != "" {
      OtherLine(line);
    }
  }

  /** How one more line changes the name of a block, for either reader. */
  lemma NameOfMore(front: seq<string>, line: string, carried: string)
    ensures BlockName(ReadLines(front + [line]), carried) ==
      if "event:" <= line then TrimSpace(line[6..]) else BlockName(ReadLines(front), carried)
    ensures BlockName(StandardLines(front + [line]), "") ==
      if "event:" <= line then WithoutSpace(line[6..])
      else if line == "event" then "" else BlockName(StandardLines(front), "")
  {
    NamePair(line);
    MapSnoc(ReadLine, front, line);
    MapSnoc(StandardLine, front, line);
    NameSnoc(ReadLines(front), ReadLine(line), carried);
    NameSnoc(StandardLines(front), StandardLine(line), "");
  }

  lemma {:induction false} NamelessIff(block: seq<string>, carried: string)
    ensures BlockName(ReadLines(block), carried) == "" <==> Nameless(block, carried != "")
  {
    if block != [] {
      var front, line := block[..|block| - 1], block[|block| - 1];
      assert block == front + [line];
      NameOfMore(front, line, carried);
      NamelessIff(front, carried);
    }
  }

  lemma {:induction false} NamedAlikeIff(block: seq<string>, carried: string)
    ensures BlockName(ReadLines(block), carried) == BlockName(StandardLines(block), "")
       <==> NamedAlike(block, carried != "")
  {
    if block != [] {
      var front, line := block[..|block| - 1], block[|block| - 1];
      assert block == front + [line];
      NameOfMore(front, line, carried);
      NamelessIff(front, carried);
      NamedAlikeIff(front, carried);
      if "event:" <= line {
        TrimOneSpace(line[6..]);
      }
    }
  }

  // ---- whole streams

  lemma {:induction false} BlankIsBlockEnd(lines: seq<string>)
    ensures BlockEnd(ReadLines(lines)) == BlankAt(lines) == BlockEnd(StandardLines(lines))
  {
    var i := BlankAt(lines);
    forall j | 0 <= j < |lines|
      ensures ReadLines(lines)[j] == Blank <==> lines[j] == ""
      ensures StandardLines(lines)[j] == Blank <==> lines[j] == ""
    {
      LinePair(lines[j]);
    }
  }

  /** One block of the loop's reference, and one of the standard's, on lines. */
  lemma SpokenOfLines(lines: seq<string>, carried: string)
    requires BlankAt(lines) < |lines|
    ensures var block, rest := lines[..BlankAt(lines)], lines[BlankAt(lines) + 1..];
      var texts := WithoutLeadingEmpty(BlockTexts(ReadLines(block)));
      var name := BlockName(ReadLines(block), carried);
      Spoken(ReadLines(lines), carried) ==
        if texts == [] then Spoken(ReadLines(rest), name)
        else [Frame(name, Join(texts, '\n'))] + Spoken(ReadLines(rest), "")
  {
    BlankIsBlockEnd(lines);
    var i := BlankAt(lines);
    assert ReadLines(lines)[..i] == ReadLines(lines[..i]);
    assert ReadLines(lines)[i + 1..] == ReadLines(lines[i + 1..]);
  }

  lemma StandardOfLines(lines: seq<string>)
    requires BlankAt(lines) < |lines|
    ensures var block, rest := lines[..BlankAt(lines)], lines[BlankAt(lines) + 1..];
      var texts := BlockTexts(StandardLines(block));
      StandardSpoken(StandardLines(lines)) ==
        if texts == [] then StandardSpoken(StandardLines(rest))
        else [Frame(BlockName(StandardLines(block), ""), Join(texts, '\n'))] + StandardSpoken(StandardLines(rest))
  {
    BlankIsBlockEnd(lines);
    var i := BlankAt(lines);
    assert StandardLines(lines)[..i] == StandardLines(lines[..i]);
    assert StandardLines(lines)[i + 1..] == StandardLines(lines[i + 1..]);
    assert [] + StandardSpoken(StandardLines(lines[i + 1..])) == StandardSpoken(StandardLines(lines[i + 1..]));
  }

  lemma NothingSpoken(lines: seq<string>, carried: string)
    requires BlankAt(lines) == |lines|
    ensures Spoken(ReadLines(lines), carried) == [] && StandardSpoken(StandardLines(lines)) == []
  {
    BlankIsBlockEnd(lines);
  }

  lemma SilentToo(block: seq<string>)
    requires BlockTexts(StandardLines(block)) == []
    ensures WithoutLeadingEmpty(BlockTexts(ReadLines(block))) == []
  {
    TextsOfBlock(block);
  }

  predicate Fewer(lines: seq<string>, carried: string) {
    |Spoken(ReadLines(lines), carried)| <= |StandardSpoken(StandardLines(lines))|
  }

  lemma FewerNone(lines: seq<string>, carried: string)
    requires BlankAt(lines) == |lines|
    ensures Fewer(lines, carried)
  {
    NothingSpoken(lines, carried);
  }

  lemma FewerFirst(lines: seq<string>, carried: string)
    requires BlankAt(lines) < |lines|
    requires var block, rest := lines[..BlankAt(lines)], lines[BlankAt(lines) + 1..];
      Fewer(rest, "") && Fewer(rest, BlockName(ReadLines(block), carried))
    ensures Fewer(lines, carried)
  {
    SpokenOfLines(lines, carried);
    StandardOfLines(lines);
    var block := lines[..BlankAt(lines)];
    if BlockTexts(StandardLines(block)) == [] {
      SilentToo(block);
    }
  }

  /** The loop never publishes more than the standard has it publish. */
  lemma {:induction false} LinesSpokenIsFewer(lines: seq<string>, carried: string)
    ensures Fewer(lines, carried)
    decreases |lines|
  {
    var i := BlankAt(lines);
    if i == |lines| {
      FewerNone(lines, carried);
    } else {
      var rest, name := lines[i + 1..], BlockName(ReadLines(lines[..i]), carried);
      LinesSpokenIsFewer(rest, "");
      LinesSpokenIsFewer(rest, name);
      FewerFirst(lines, carried);
    }
  }

  lemma FramesEqualIff(x: Frame, y: Frame, a: seq<Frame>, b: seq<Frame>)
    ensures [x] + a == [y] + b <==> x == y && a == b
  {
    assert ([x] + a)[1..] == a && ([y] + b)[1..] == b;
    assert ([x] + a)[0] == x && ([y] + b)[0] == y;
  }

  /** What the loop makes of the lines, with a name left over from before, is what the
      standard makes of them. */
  predicate SpokenAlike(lines: seq<string>, carried: string) {
    Spoken(ReadLines(lines), carried) == StandardSpoken(StandardLines(lines))
  }

  lemma {:induction false} LinesSpokenIff(lines: seq<string>, carried: string)
    ensures SpokenAlike(lines, carried) <==> LinesConform(lines, carried != "")
    decreases |lines|
  {
    if BlankAt(lines) == |lines| {
      NothingSpoken(lines, carried);
    } else if WithoutLeadingEmpty(BlockTexts(ReadLines(lines[..BlankAt(lines)]))) == [] {
      SilentFirst(lines, carried);
    } else {
      SpeakingFirst(lines, carried);
    }
  }

  /** The first block gives the loop nothing to publish; the rest is as it is by the claim. */
  lemma SilentFirst(lines: seq<string>, carried: string)
    requires BlankAt(lines) < |lines|
    requires WithoutLeadingEmpty(BlockTexts(ReadLines(lines[..BlankAt(lines)]))) == []
    ensures SpokenAlike(lines, carried) <==> LinesConform(lines, carried != "")
    decreases |lines|, 0
  {
    var block, rest := lines[..BlankAt(lines)], lines[BlankAt(lines) + 1..];
    if BlockTexts(StandardLines(block)) == [] {
      LinesSpokenIff(rest, BlockName(ReadLines(block), carried));
      BothSilent(lines, carried);
      BothConform(lines, carried);
    } else {
      OneSilent(lines, carried);
    }
  }

  lemma BothSilent(lines: seq<string>, carried: string)
    requires BlankAt(lines) < |lines| && BlockTexts(StandardLines(lines[..BlankAt(lines)])) == []
    ensures var block, rest := lines[..BlankAt(lines)], lines[BlankAt(lines) + 1..];
      SpokenAlike(lines, carried) <==> SpokenAlike(rest, BlockName(ReadLines(block), carried))
  {
    SilentToo(lines[..BlankAt(lines)]);
    SpokenOfLines(lines, carried);
    StandardOfLines(lines);
  }

  lemma BothConform(lines: seq<string>, carried: string)
    requires BlankAt(lines) < |lines| && BlockTexts(StandardLines(lines[..BlankAt(lines)])) == []
    ensures var block, rest := lines[..BlankAt(lines)], lines[BlankAt(lines) + 1..];
      LinesConform(lines, carried != "") <==> LinesConform(rest, BlockName(ReadLines(block), carried) != "")
  {
    NamelessIff(lines[..BlankAt(lines)], carried);
  }

  lemma OneSilent(lines: seq<string>, carried: string)
    requires BlankAt(lines) < |lines| && BlockTexts(StandardLines(lines[..BlankAt(lines)])) != []
    requires WithoutLeadingEmpty(BlockTexts(ReadLines(lines[..BlankAt(lines)]))) == []
    ensures !SpokenAlike(lines, carried) && !LinesConform(lines, carried != "")
  {
    OneFewer(lines, carried);
    SilentBlock(lines[..BlankAt(lines)]);
  }

  lemma OneFewer(lines: seq<string>, carried: string)
    requires BlankAt(lines) < |lines| && BlockTexts(StandardLines(lines[..BlankAt(lines)])) != []
    requires WithoutLeadingEmpty(BlockTexts(ReadLines(lines[..BlankAt(lines)]))) == []
    ensures |Spoken(ReadLines(lines), carried)| < |StandardSpoken(StandardLines(lines))|
  {
    var block, rest := lines[..BlankAt(lines)], lines[BlankAt(lines) + 1..];
    SpokenOfLines(lines, carried);
    StandardOfLines(lines);
    LinesSpokenIsFewer(rest, BlockName(ReadLines(block), carried));
  }

  lemma SpeakingFirst(lines: seq<string>, carried: string)
    requires BlankAt(lines) < |lines|
    requires WithoutLeadingEmpty(BlockTexts(ReadLines(lines[..BlankAt(lines)]))) != []
    ensures SpokenAlike(lines, carried) <==> LinesConform(lines, carried != "")
    decreases |lines|, 0
  {
    DataAlikeIff(lines[..BlankAt(lines)]);
    SpeakingAlike(lines, carried);
    SpeakingConform(lines, carried != "");
    LinesSpokenIff(lines[BlankAt(lines) + 1..], "");
  }

  /** What a block that the loop publishes asks of both sides. */
  predicate BlockAlike(block: seq<string>, leftOver: bool) {
    var texts := BlockTexts(StandardLines(block));
    "data" !in block && texts != [] && texts[0] != "" && NamedAlike(block, leftOver)
  }

  /** The frame the loop, and the standard, makes of a block. */
  function LoopFrame(block: seq<string>, carried: string): Frame {
    Frame(BlockName(ReadLines(block), carried), Join(WithoutLeadingEmpty(BlockTexts(ReadLines(block))), '\n'))
  }

  function StandardFrame(block: seq<string>): Frame {
    Frame(BlockName(StandardLines(block), ""), Join(BlockTexts(StandardLines(block)), '\n'))
  }

  lemma LoopSpeaks(lines: seq<string>, carried: string)
    requires BlankAt(lines) < |lines|
    requires WithoutLeadingEmpty(BlockTexts(ReadLines(lines[..BlankAt(lines)]))) != []
    ensures Spoken(ReadLines(lines), carried) ==
      [LoopFrame(lines[..BlankAt(lines)], carried)] + Spoken(ReadLines(lines[BlankAt(lines) + 1..]), "")
  {
    SpokenOfLines(lines, carried);
  }

  lemma StandardSpeaks(lines: seq<string>)
    requires BlankAt(lines) < |lines| && BlockTexts(StandardLines(lines[..BlankAt(lines)])) != []
    ensures StandardSpoken(StandardLines(lines)) ==
      [StandardFrame(lines[..BlankAt(lines)])] + StandardSpoken(StandardLines(lines[BlankAt(lines) + 1..]))
  {
    StandardOfLines(lines);
  }

  lemma SpeakingAlike(lines: seq<string>, carried: string)
    requires BlankAt(lines) < |lines|
    requires WithoutLeadingEmpty(BlockTexts(ReadLines(lines[..BlankAt(lines)]))) != []
    ensures var block, rest := lines[..BlankAt(lines)], lines[BlankAt(lines) + 1..];
      SpokenAlike(lines, carried) <==> BlockAlike(block, carried != "") && SpokenAlike(rest, "")
  {
    var block, rest := lines[..BlankAt(lines)], lines[BlankAt(lines) + 1..];
    DataAlikeIff(block);
    LoopSpeaks(lines, carried);
    StandardSpeaks(lines);
    FramesEqualIff(LoopFrame(block, carried), StandardFrame(block),
                   Spoken(ReadLines(rest), ""), StandardSpoken(StandardLines(rest)));
    FramesAlikeIff(block, carried);
  }

  lemma SpeakingConform(lines: seq<string>, leftOver: bool)
    requires BlankAt(lines) < |lines| && BlockTexts(StandardLines(lines[..BlankAt(lines)])) != []
    ensures var block, rest := lines[..BlankAt(lines)], lines[BlankAt(lines) + 1..];
      LinesConform(lines, leftOver) <==> BlockAlike(block, leftOver) && LinesConform(rest, false)
  {
  }

  lemma FramesAlikeIff(block: seq<string>, carried: string)
    requires WithoutLeadingEmpty(BlockTexts(ReadLines(block))) != []
    ensures LoopFrame(block, carried) == StandardFrame(block) <==> BlockAlike(block, carried != "")
  {
    DataAlikeIff(block);
    NamedAlikeIff(block, carried);
  }

  /** On raw lines, each read and framed in its own way, the loop and the standard make the
      same frames exactly if the lines conform. */
  lemma LinesConformIff(lines: seq<string>)
    ensures Parse(ReadLines(lines)) == StandardParse(StandardLines(lines)) <==> LinesConform(lines, false)
  {
    ParseIsSpoken(ReadLines(lines));
    StandardIsSpoken(StandardLines(lines));
    LinesSpokenIff(lines, "");
  }

  // ---- an input for each difference

  lemma RunOne(f: Field)
    ensures Run(START, [f]) == Feed(START, f) && StandardRun(START, [f]) == StandardFeed(START, f)
  {
    assert [f][..0] == [];
  }

  lemma RunTwo(f: Field, g: Field)
    ensures Run(START, [f, g]) == Feed(Feed(START, f), g)
    ensures StandardRun(START, [f, g]) == StandardFeed(StandardFeed(START, f), g)
  {
    RunOne(f);
    RunSnoc(START, [f], g);
    StandardRunSnoc([f], g);
    assert [f] + [g] == [f, g];
  }

  lemma RunThree(f: Field, g: Field, h: Field)
    ensures Run(START, [f, g, h]) == Feed(Feed(Feed(START, f), g), h)
    ensures StandardRun(START, [f, g, h]) == StandardFeed(StandardFeed(StandardFeed(START, f), g), h)
  {
    RunTwo(f, g);
    RunSnoc(START, [f, g], h);
    StandardRunSnoc([f, g], h);
    assert [f, g] + [h] == [f, g, h];
  }

  lemma RunFour(f: Field, g: Field, h: Field, k: Field)
    ensures Run(START, [f, g, h, k]) == Feed(Feed(Feed(Feed(START, f), g), h), k)
    ensures StandardRun(START, [f, g, h, k]) ==
      StandardFeed(StandardFeed(StandardFeed(StandardFeed(START, f), g), h), k)
  {
    RunThree(f, g, h);
    RunSnoc(START, [f, g, h], k);
    StandardRunSnoc([f, g, h], k);
    assert [f, g, h] + [k] == [f, g, h, k];
  }

  lemma NamedX(name: string)
    ensures Parse([Name(name), Content("x"), Blank]) == [Frame(name, "x")]
    ensures StandardParse([Name(name), Content("x"), Blank]) == [Frame(name, "x")]
  {
    RunThree(Name(name), Content("x"), Blank);
    assert ("" + "x" + "\n")[..1] == "x";
  }

  lemma ReadThree(a: string, b: string, c: string)
    ensures ReadLines([a, b, c]) == [ReadLine(a), ReadLine(b), ReadLine(c)]
    ensures StandardLines([a, b, c]) == [StandardLine(a), StandardLine(b), StandardLine(c)]
  {
  }

  lemma ReadFour(a: string, b: string, c: string, d: string)
    ensures ReadLines([a, b, c, d]) == [ReadLine(a), ReadLine(b), ReadLine(c), ReadLine(d)]
    ensures StandardLines([a, b, c, d]) == [StandardLine(a), StandardLine(b), StandardLine(c), StandardLine(d)]
  {
  }

  lemma DataX()
    ensures ReadLine("data: x") == StandardLine("data: x") == Content("x")
  {
    assert "data: x" == "data:" + " x" && " x"[1..] == "x";
    DataLine(" x");
  }

  lemma EventA()
    ensures ReadLine("event: a") == StandardLine("event: a") == Name("a")
  {
    assert "event: a" == "event:" + " a" && " a"[1..] == "a";
    EventLine(" a");
    TrimOneSpace(" a");
  }

  lemma EventSpaceA()
    ensures ReadLine("event:  a") == Name("a") && StandardLine("event:  a") == Name(" a")
  {
    assert "event:  a" == "event:" + "  a";
    EventLine("  a");
    TrimTwo();
  }

  lemma TrimTwo()
    ensures TrimSpace("  a") == "a" && WithoutSpace("  a") == " a"
  {
    assert "  a"[1..] == " a" && " a"[1..] == "a";
    TrimOneSpace("  a");
    TrimOneSpace(" a");
  }

  /** A bare `event` line: by the standard it takes the name away, to the loop it is nothing. */
  lemma BareEventDiffers()
    ensures Parse(ReadLines(["event: a", "event", "data: x", ""])) == [Frame("a", "x")]
    ensures StandardParse(StandardLines(["event: a", "event", "data: x", ""])) == [Frame("", "x")]
  {
    ReadFour("event: a", "event", "data: x", "");
    EventA();
    OtherLine("event");
    DataX();
    RunFour(Name("a"), Ignored, Content("x"), Blank);
    RunFour(Name("a"), Name(""), Content("x"), Blank);
    assert ("" + "x" + "\n")[..1] == "x";
  }

  /** Space around a name: the standard takes one away, the loop all of it. */
  lemma SpacedNameDiffers()
    ensures Parse(ReadLines(["event:  a", "data: x", ""])) == [Frame("a", "x")]
    ensures StandardParse(StandardLines(["event:  a", "data: x", ""])) == [Frame(" a", "x")]
  {
    ReadThree("event:  a", "data: x", "");
    EventSpaceA();
    DataX();
    NamedX("a");
    NamedX(" a");
  }

  /** A bare `data` line: by the standard an event without data, to the loop nothing. */
  lemma BareDataDiffers()
    ensures Parse(ReadLines(["data", ""])) == [] && StandardParse(StandardLines(["data", ""])) == [Frame("", "")]
  {
    LinePair("data");
    assert ReadLines(["data", ""]) == [Ignored, Blank] && StandardLines(["data", ""]) == [Content(""), Blank];
    RunTwo(Ignored, Blank);
    RunTwo(Content(""), Blank);
  }

  /** An empty first data line: the loop loses the line feed the standard keeps. */
  lemma EmptyFirstLineDiffers(text: string)
    requires text != ""
    ensures Parse([Content(""), Content(text), Blank]) == [Frame("", text)]
    ensures StandardParse([Content(""), Content(text), Blank]) == [Frame("", "\n" + text)]
  {
    RunThree(Content(""), Content(text), Blank);
    assert ("" + "" + "\n" + text + "\n")[..|text| + 1] == "\n" + text;
  }

  /** A message that does not come back from the wire as it was meant. */
  lemma RoundTripFails(text: string)
    requires text != "" && OneLine(text)
    ensures var m := Message(None, ["", text]);
      WellFormed(m) && Parse(ReadLines(ScanLines(Wire(EncodeAll([m]))))) != [Meant(m)]
  {
    var m := Message(None, ["", text]);
    assert m in [m] && !BeginsWithData(m);
    assert Map(Meant, [m]) == [Meant(m)];
    RoundTripIff([m]);
  }
}
