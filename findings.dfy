/** Four places where the code, as written, does not do what it evidently
    means to do. Each is modelled here as written, with a lemma that shows
    the difference; the rest of the model uses the intended behaviour
    (Blocks.TagInParents, the four-argument handlers of Sentences.Process,
    the loop of Sentences.SentenceParser.StoreSentences that ends with the
    document, and Sentences.Token). */
module Findings {
  import opened Wrappers
  import opened Text
  import opened Blocks
  import opened Sentences
  import opened BlockTheory

  /** `Block.tag_in_parents` as written: a matching block returns the name
      `block`, which is bound nowhere, so the call raises NameError; the
      search up the parents and the None at the root are as intended. */
  function TagInParentsAsWritten(blocks: seq<Block>, i: nat, tag: string): (r: Result<Option<nat>, Error>)
    requires Linked(blocks) && i < |blocks|
    ensures r.Failure? ==> r.error == NameError("block")
    ensures r.Success? ==> r.value.None?
    decreases i
  {
    if blocks[i].name == tag then Failure(NameError("block"))
    else
      match blocks[i].parent
      case None => Success(None)
      case Some(p) => TagInParentsAsWritten(blocks, p, tag)
  }

  /** As written, the search raises exactly when the intended one finds a
      block (and otherwise returns None like it). */
  lemma {:induction false} TagInParentsAsWrittenRaises(blocks: seq<Block>, i: nat, tag: string)
    requires Linked(blocks) && i < |blocks|
    ensures TagInParentsAsWritten(blocks, i, tag).Failure? <==> TagInParents(blocks, i, tag).Some?
    decreases i
  {
    if blocks[i].name != tag {
      match blocks[i].parent
      case None =>
      case Some(p) => TagInParentsAsWrittenRaises(blocks, p, tag);
    }
  }

  /** A word directly inside a sentence: as written its handler raises
      NameError, while the intended search finds the sentence. */
  lemma WordInSentenceRaises(sattrs: Attrs, wattrs: Attrs, data: string)
    ensures var blocks := [Root, Block(Some(0), "s", "", sattrs), Block(Some(1), "w", data, wattrs)];
            && Linked(blocks)
            && TagInParentsAsWritten(blocks, 2, "s") == Failure(NameError("block"))
            && TagInParents(blocks, 2, "s") == Some(1)
  {
  }

  /** The reason of the TypeError raised when `store_sentences` passes five
      positional arguments (`bp` first) to a four-parameter dispatcher. */
  const ExtraArgument: string := "takes 4 positional arguments but 5 were given"

  /** `self.parse_block(bp, block, sentence, self.sentences, id_set)` as
      written: a chosen dispatcher rejects the call; no dispatcher at all is
      the TypeError of calling None, as before. */
  function ProcessAsWritten(h: Option<Handler>): (r: Result<Acc, Error>)
    ensures r.Failure? && r.error.TypeError?
  {
    match h
    case None => Failure(TypeError("'NoneType' object is not callable"))
    case Some(_) => Failure(TypeError(ExtraArgument))
  }

  /** One pass of the `for` loop of `store_sentences` as written, over the
      first generator: the lines are parsed as in Sentences.Store, and the
      first completed block raises the handler call's TypeError. Nothing is
      ever stored. */
  function ForPassAsWritten(document: string, dataTag: string, h: Option<Handler>,
                            t: Tree, acc: Acc, lines: seq<Line>): (r: Stored)
    requires ValidTree(t)
    ensures r.acc == acc
    decreases |lines|
  {
    if lines == [] then Stored(acc, None)
    else
      var step := Replay(dataTag, t, lines[0].events);
      if lines[0].error.Some? then
        Stored(acc, Some(SentenceParserError(
          StoreErrorMessage(document, ParseErrorMessage(document, lines[0].error.value)))))
      else if step.completed != [] then
        Stored(acc, Some(ProcessAsWritten(h).error))
      else ForPassAsWritten(document, dataTag, h, step.tree, acc, lines[1..])
  }

  /** The first pass ends without an error exactly when the block parser
      yields no block and raises nothing; once a block is yielded it raises
      the handler call's TypeError, and otherwise the re-raised parse
      error. */
  lemma {:induction false} ForPassAsWrittenOutcome(document: string, dataTag: string, h: Option<Handler>,
                                                   t: Tree, acc: Acc, lines: seq<Line>)
    requires ValidTree(t)
    ensures var d := Stream(document, dataTag, t, [], lines);
            var r := ForPassAsWritten(document, dataTag, h, t, acc, lines);
            && (r.error.None? <==> d.yielded == [] && d.error.None?)
            && (d.yielded != [] ==> r.error == Some(ProcessAsWritten(h).error))
            && (d.yielded == [] && d.error.Some? ==> r.error == Some(SentenceParserError(StoreErrorMessage(document, d.error.value))))
    decreases |lines|
  {
    if lines != [] {
      var step := Replay(dataTag, t, lines[0].events);
      assert [] + step.completed == step.completed;
      if lines[0].error.None? && step.completed == [] {
        ForPassAsWrittenOutcome(document, dataTag, h, step.tree, acc, lines[1..]);
      }
    }
  }

  /** `store_sentences` as written, both bugs included: the `while blocks:`
      loop unrolled `fuel` times around passes as written. After the first
      pass the document is exhausted, so every later pass is empty. None
      means the loop had not ended after `fuel` passes. */
  function StoreAsWritten(fuel: nat, document: string, dataTag: string, h: Option<Handler>,
                          t: Tree, acc: Acc, lines: seq<Line>): (r: Option<Stored>)
    requires ValidTree(t)
    ensures r.Some? ==> r.value.acc == acc && r.value.error.Some?
    decreases fuel
  {
    if fuel == 0 then None
    else
      var pass := ForPassAsWritten(document, dataTag, h, t, acc, lines);
      if pass.error.Some? then Some(pass)
      else StoreAsWritten(fuel - 1, document, dataTag, h, t, acc, [])
  }

  /** With the document exhausted, the loop as written never ends. */
  lemma {:induction false} ExhaustedNeverEnds(fuel: nat, document: string, dataTag: string, h: Option<Handler>,
                                              t: Tree, acc: Acc)
    requires ValidTree(t)
    ensures StoreAsWritten(fuel, document, dataTag, h, t, acc, []).None?
    decreases fuel
  {
    if fuel > 0 {
      ExhaustedNeverEnds(fuel - 1, document, dataTag, h, t, acc);
    }
  }

  /** As written, when the block parser yields a block, the call raises
      TypeError; when it yields none and rejects a
      line, the call raises that line's SentenceParserError; and when it
      yields none and rejects nothing, the call never returns. */
  lemma StoreAsWrittenStoresNothing(fuel: nat, document: string, dataTag: string, h: Option<Handler>,
                                    t: Tree, acc: Acc, lines: seq<Line>)
    requires ValidTree(t)
    ensures var d := Stream(document, dataTag, t, [], lines);
            var r := StoreAsWritten(fuel, document, dataTag, h, t, acc, lines);
            && (d.yielded == [] && d.error.None? ==> r.None?)
            && (fuel > 0 && d.yielded != [] ==> r == Some(Stored(acc, Some(ProcessAsWritten(h).error))))
            && (fuel > 0 && d.yielded == [] && d.error.Some? ==>
                  r == Some(Stored(acc, Some(SentenceParserError(StoreErrorMessage(document, d.error.value))))))
  {
    ForPassAsWrittenOutcome(document, dataTag, h, t, acc, lines);
    if fuel > 0 {
      ExhaustedNeverEnds(fuel - 1, document, dataTag, h, t, acc);
    }
  }

  /** One sentence on one line: the intended handlers store it, the
      handler call as written raises TypeError and stores nothing. */
  lemma ExtraArgumentLosesSentence(fuel: nat, document: string, s: Settings, sattrs: Attrs, text: string,
                                   events: seq<Event>, m: map<string, (string, Attrs)>)
    requires fuel > 0 && events == [Start("s", sattrs), Chars(text), End("s")]
    requires Get(sattrs, "id").Some?
    ensures var lines := [Line(events, None)];
            var h := Some(Handler(Raw, false));
            var sid := Get(sattrs, "id").value;
            && Store(document, "s", h, s, InitialTree, Acc([], m), lines, {sid})
               == Stored(Acc([], m[sid := (Strip(text), sattrs)]), None)
            && StoreAsWritten(fuel, document, "s", h, InitialTree, Acc([], m), lines)
               == Some(Stored(Acc([], m), Some(TypeError(ExtraArgument))))
  {
    var lines := [Line(events, None)];
    var sid := Get(sattrs, "id").value;
    var step := OneSentence(InitialTree, sattrs, text, events);
    var blocks := [Root, Block(Some(0), "s", text, sattrs)];
    assert step.tree.blocks == InitialTree.blocks + [Block(Some(0), "s", text, sattrs)] == blocks;
    var h := Some(Handler(Raw, false));
    var done := Acc([], m[sid := (Strip(text), sattrs)]);
    assert Process(h, s, blocks, 1, Acc([], m), {sid})
           == Success(FinishSentence(Raw, blocks[1], sid, Acc([], m)));
    assert FinishSentence(Raw, blocks[1], sid, Acc([], m)) == done by {
      assert [] + [Strip(text)] == [Strip(text)];
    }
    assert [1][1..] == [];
    assert FoldBatch(h, s, blocks, [1], Acc([], m), {sid}) == Stored(done, None);
    assert lines[0].events == events && lines[1..] == [];
    assert Store(document, "s", h, s, InitialTree, Acc([], m), lines, {sid})
           == Store(document, "s", h, s, step.tree, done, [], {sid});
  }

  /** The events of `<s ...>text</s>` from any tree: one block holding
      `text` under the current one, completed; the current block is back. */
  lemma OneSentence(t: Tree, sattrs: Attrs, text: string, events: seq<Event>) returns (step: Step)
    requires ValidTree(t) && events == [Start("s", sattrs), Chars(text), End("s")]
    ensures step == Replay("s", t, events)
    ensures step == Step(Tree(t.blocks + [Block(Some(t.current), "s", text, sattrs)], t.current), [|t.blocks|])
  {
    var pre := t.blocks;
    var s0 := Block(Some(t.current), "s", "", sattrs);
    var e1 := [Start("s", sattrs)];
    ReplaySnoc("s", t, [], Start("s", sattrs));
    assert [] + [Start("s", sattrs)] == e1;
    assert pre + [s0] == pre + [s0] + [];
    assert Replay("s", t, e1) == Step(Tree(pre + [s0] + [], |pre|), []);
    var e2 := e1 + [Chars(text)];
    ReplaySnoc("s", t, e1, Chars(text));
    HandleCharsAt("s", pre, s0, [], text);
    assert "" + text == text;
    var s1 := s0.(data := text);
    assert Replay("s", t, e2) == Step(Tree(pre + [s1] + [], |pre|), []);
    ReplaySnoc("s", t, e2, End("s"));
    assert (pre + [s1] + [])[|pre|] == s1 && pre + [s1] + [] == pre + [s1];
    assert e2 + [End("s")] == events;
    step := Replay("s", t, events);
  }

  /** The `while blocks:` loop of `store_sentences` as written, unrolled
      `fuel` times. `blocks` is a generator object, which is always true,
      so the loop only ends by raising: the first pass of the `for` loop
      reads the whole document, and every later generator finds the
      document exhausted and yields nothing. None means the loop had not
      ended after `fuel` passes. */
  function WhileBlocksAsWritten(fuel: nat, document: string, dataTag: string, h: Option<Handler>, s: Settings,
                                t: Tree, acc: Acc, lines: seq<Line>, idSet: set<string>): (r: Option<Stored>)
    requires ValidTree(t)
    ensures r.Some? ==> r.value.error.Some?
    decreases fuel
  {
    if fuel == 0 then None
    else
      var pass := Store(document, dataTag, h, s, t, acc, lines, idSet);
      if pass.error.Some? then Some(pass)
      else WhileBlocksAsWritten(fuel - 1, document, dataTag, h, s, t, pass.acc, [], idSet)
  }

  /** As written the loop ends only by raising: when the intended loop
      (Sentences.Store) ends without an error, the loop as written has not
      ended after any number of passes, so `close_document` is never
      reached; when it raises, the loop raises the same after one pass. */
  lemma {:induction false} WhileBlocksNeverEnds(fuel: nat, document: string, dataTag: string, h: Option<Handler>, s: Settings,
                                                t: Tree, acc: Acc, lines: seq<Line>, idSet: set<string>)
    requires ValidTree(t)
    ensures var pass := Store(document, dataTag, h, s, t, acc, lines, idSet);
            && (pass.error.None? ==> WhileBlocksAsWritten(fuel, document, dataTag, h, s, t, acc, lines, idSet).None?)
            && (pass.error.Some? && fuel > 0 ==> WhileBlocksAsWritten(fuel, document, dataTag, h, s, t, acc, lines, idSet) == Some(pass))
    decreases fuel
  {
    var pass := Store(document, dataTag, h, s, t, acc, lines, idSet);
    if fuel > 0 && pass.error.None? {
      assert Store(document, dataTag, h, s, t, pass.acc, [], idSet) == Stored(pass.acc, None);
      WhileBlocksNeverEnds(fuel - 1, document, dataTag, h, s, t, pass.acc, [], idSet);
    }
  }

  /** `parse_w_parsed` as written: `data += get_annotations(block)` puts
      the annotations right behind the word, with no delimiter between the
      word and the first of them. */
  function ParsedWordAsWritten(s: Settings, b: Block): (r: string)
    ensures |r| == |Strip(b.data)| + |Annotations(b.attributes, s.annoAttrs, s.delimiter)|
    ensures r[..|Strip(b.data)|] == Strip(b.data)
  {
    Strip(b.data) + Annotations(b.attributes, s.annoAttrs, s.delimiter)
  }

  /** A word with one attribute `pos="v"` and `anno_attrs=['pos']`: as
      written the token is the word glued to `v` (`SourceNN` for the word
      `Source` tagged `NN`), where Sentences.Token puts the delimiter
      between them (`Source|NN`). */
  lemma ParsedWordGlued(parent: Option<nat>, data: string, v: string)
    ensures var b := Block(parent, "w", data, [("pos", v)]);
            var s := Settings(["pos"], "|");
            && ParsedWordAsWritten(s, b) == Strip(data) + v
            && Token(Handler(Parsed, false), s, b) == Strip(data) + "|" + v
  {
    var b := Block(parent, "w", data, [("pos", v)]);
    var s := Settings(["pos"], "|");
    assert Get(b.attributes, "pos") == Some(v);
    assert Listed(b.attributes, ["pos"]) == [v] by {
      assert ["pos"][1..] == [];
    }
    assert AnnotationValues(b.attributes, s.annoAttrs) == [v];
    assert Annotations(b.attributes, s.annoAttrs, s.delimiter) == v;
    assert Prefixed("|", [v]) == "|" + v by {
      assert [v][1..] == [];
    }
  }

  /** In general the token as written and the intended one differ exactly
      by the one delimiter in front of the annotations, when there are
      any. */
  lemma ParsedWordDelimiter(s: Settings, b: Block)
    requires b.name == "w"
    ensures var values := AnnotationValues(b.attributes, s.annoAttrs);
            var word := Strip(b.data);
            && (values == [] ==> ParsedWordAsWritten(s, b) == Token(Handler(Parsed, false), s, b) == word)
            && (values != [] ==> Token(Handler(Parsed, false), s, b)
                                 == word + s.delimiter + Annotations(b.attributes, s.annoAttrs, s.delimiter)
                                 && ParsedWordAsWritten(s, b) == word + Annotations(b.attributes, s.annoAttrs, s.delimiter))
  {
    var values := AnnotationValues(b.attributes, s.annoAttrs);
    if values == [] {
      assert Annotations(b.attributes, s.annoAttrs, s.delimiter) == "";
      assert Strip(b.data) + "" == Strip(b.data);
    }
  }
}
