/** Two documents of the sentence parser's tests, followed line by line
    through `store_sentences`: the word-level `s1` of the XML book in xml
    mode, and the three one-line sentences of the raw book in raw mode.
    Each line's leading and trailing whitespace is the character data
    `ind` and `nl`, which the parser drops outside a data-tag block. */
module SentenceExamples {
  import opened Wrappers
  import opened Text
  import opened Blocks
  import opened Sentences
  import opened BlockTheory

  /** Extending the arena does not change the nearest `tag` above a block
      already in it. */
  lemma {:induction false} TagInParentsExtend(blocks: seq<Block>, more: seq<Block>, i: nat, tag: string)
    requires Linked(blocks) && Linked(blocks + more) && i < |blocks|
    ensures TagInParents(blocks + more, i, tag) == TagInParents(blocks, i, tag)
    decreases i
  {
    assert (blocks + more)[i] == blocks[i];
    if blocks[i].name != tag && blocks[i].parent.Some? {
      TagInParentsExtend(blocks, more, blocks[i].parent.value, tag);
    }
  }

  /** A line the engine accepts, whose completed blocks the handler folds
      without error into `next`, leaves the rest of the document to run
      from the tree the line built and from `next`. */
  lemma StoreLine(document: string, dataTag: string, h: Option<Handler>, s: Settings, t: Tree, acc: Acc,
                  lines: seq<Line>, idSet: set<string>, step: Step, next: Acc)
    requires ValidTree(t) && lines != [] && lines[0].error.None?
    requires step == Replay(dataTag, t, lines[0].events)
    requires FoldBatch(h, s, step.tree.blocks, step.completed, acc, idSet) == Stored(next, None)
    ensures ValidTree(step.tree)
    ensures Store(document, dataTag, h, s, t, acc, lines, idSet)
            == Store(document, dataTag, h, s, step.tree, next, lines[1..], idSet)
  {
  }

  /** A batch of one block that the handler takes without error. */
  lemma FoldOne(h: Option<Handler>, s: Settings, blocks: seq<Block>, i: nat, acc: Acc, idSet: set<string>, next: Acc)
    requires Linked(blocks) && i < |blocks|
    requires Process(h, s, blocks, i, acc, idSet) == Success(next)
    ensures InArena(blocks, [i]) && FoldBatch(h, s, blocks, [i], acc, idSet) == Stored(next, None)
  {
    assert [i][1..] == [];
  }

  /** A line that only opens element `name` (not the data tag) under the
      current block. */
  lemma OpenLine(dataTag: string, t: Tree, ind: string, name: string, attrs: Attrs, nl: string, events: seq<Event>)
    requires ValidTree(t) && t.blocks[t.current].name != dataTag && name != dataTag
    requires events == [Chars(ind), Start(name, attrs), Chars(nl)]
    ensures Replay(dataTag, t, events)
            == Step(Tree(t.blocks + [Block(Some(t.current), name, "", attrs)], |t.blocks|), [])
  {
    var e1 := [Chars(ind)];
    assert e1 == [] + [Chars(ind)];
    SnocIgnored(dataTag, t, [], Step(t, []), ind);
    SnocStart(dataTag, t, e1, Step(t, []), name, attrs);
    var t2 := Tree(t.blocks + [Block(Some(t.current), name, "", attrs)], |t.blocks|);
    assert e1 + [Start(name, attrs)] + [Chars(nl)] == events;
    SnocIgnored(dataTag, t, e1 + [Start(name, attrs)], Step(t2, []), nl);
  }

  /** A line that only closes the current block, which has parent `p`;
      neither is a data-tag block. */
  lemma CloseLine(dataTag: string, t: Tree, ind: string, name: string, nl: string, p: nat, events: seq<Event>)
    requires ValidTree(t) && t.blocks[t.current].name != dataTag
    requires t.blocks[t.current].parent == Some(p) && t.blocks[p].name != dataTag
    requires events == [Chars(ind), End(name), Chars(nl)]
    ensures Replay(dataTag, t, events) == Step(Tree(t.blocks, p), [t.current])
  {
    var e1 := [Chars(ind)];
    assert e1 == [] + [Chars(ind)];
    SnocIgnored(dataTag, t, [], Step(t, []), ind);
    SnocEnd(dataTag, t, e1, Step(t, []), name, p);
    assert [] + [t.current] == [t.current];
    assert e1 + [End(name)] + [Chars(nl)] == events;
    SnocIgnored(dataTag, t, e1 + [End(name)], Step(Tree(t.blocks, p), [t.current]), nl);
  }

  /** A line holding one whole data-tag element `<name ...>d</name>` under
      the current block. */
  lemma ElementLine(dataTag: string, t: Tree, ind: string, name: string, attrs: Attrs, d: string, nl: string,
                    events: seq<Event>)
    requires ValidTree(t) && dataTag != "" && name == dataTag && t.blocks[t.current].name != dataTag
    requires events == [Chars(ind), Start(name, attrs), Chars(d), End(name), Chars(nl)]
    ensures Replay(dataTag, t, events)
            == Step(Tree(t.blocks + [Block(Some(t.current), name, d, attrs)], t.current), [|t.blocks|])
  {
    var n := |t.blocks|;
    var e1 := [Chars(ind)];
    assert e1 == [] + [Chars(ind)];
    SnocIgnored(dataTag, t, [], Step(t, []), ind);
    var e2 := e1 + [Start(name, attrs)];
    SnocStart(dataTag, t, e1, Step(t, []), name, attrs);
    var ready := t.blocks + [Block(Some(t.current), name, "", attrs)];
    var e3 := e2 + [Chars(d)];
    SnocData(dataTag, t, e2, Step(Tree(ready, n), []), d);
    var filled := t.blocks + [Block(Some(t.current), name, d, attrs)];
    assert ready[n].data + d == d;
    assert ready[n := ready[n].(data := ready[n].data + d)] == filled;
    var e4 := e3 + [End(name)];
    SnocEnd(dataTag, t, e3, Step(Tree(filled, n), []), name, t.current);
    assert [] + [n] == [n];
    assert filled[t.current] == t.blocks[t.current];
    assert e4 + [Chars(nl)] == events;
    SnocIgnored(dataTag, t, e4, Step(Tree(filled, t.current), [n]), nl);
  }

  /** xml mode: a line opening element `name` (not `w`) changes nothing
      the handler keeps, and a new `s` becomes the nearest sentence. */
  lemma XmlOpen(document: string, preserve: bool, s: Settings, t: Tree, ind: string, name: string, attrs: Attrs,
                nl: string, lines: seq<Line>, rest: seq<Line>, acc: Acc, idSet: set<string>) returns (t2: Tree)
    requires ValidTree(t) && t.blocks[t.current].name != "w" && name != "w"
    requires lines == [Line([Chars(ind), Start(name, attrs), Chars(nl)], None)] + rest
    ensures t2 == Tree(t.blocks + [Block(Some(t.current), name, "", attrs)], |t.blocks|) && ValidTree(t2)
    ensures TagInParents(t2.blocks, t2.current, "s")
            == if name == "s" then Some(|t.blocks|) else TagInParents(t.blocks, t.current, "s")
    ensures Store(document, "w", Some(Handler(Xml, preserve)), s, t, acc, lines, idSet)
            == Store(document, "w", Some(Handler(Xml, preserve)), s, t2, acc, rest, idSet)
  {
    assert lines[1..] == rest;
    OpenLine("w", t, ind, name, attrs, nl, lines[0].events);
    t2 := Tree(t.blocks + [Block(Some(t.current), name, "", attrs)], |t.blocks|);
    StoreLine(document, "w", Some(Handler(Xml, preserve)), s, t, acc, lines, idSet, Step(t2, []), acc);
    if name != "s" {
      TagInParentsExtend(t.blocks, [Block(Some(t.current), name, "", attrs)], t.current, "s");
    }
  }

  /** xml mode: a line closing a block that is neither `s`, `w` nor
      `time` returns to its parent `p` and changes nothing the handler
      keeps. */
  lemma XmlClose(document: string, preserve: bool, s: Settings, t: Tree, ind: string, name: string, nl: string,
                 p: nat, lines: seq<Line>, rest: seq<Line>, acc: Acc, idSet: set<string>) returns (t2: Tree)
    requires ValidTree(t) && t.blocks[t.current].name !in {"s", "w", "time"}
    requires t.blocks[t.current].parent == Some(p) && t.blocks[p].name != "w"
    requires lines == [Line([Chars(ind), End(name), Chars(nl)], None)] + rest
    ensures t2 == Tree(t.blocks, p) && ValidTree(t2)
    ensures TagInParents(t.blocks, p, "s") == TagInParents(t.blocks, t.current, "s")
    ensures Store(document, "w", Some(Handler(Xml, preserve)), s, t, acc, lines, idSet)
            == Store(document, "w", Some(Handler(Xml, preserve)), s, t2, acc, rest, idSet)
  {
    assert lines[1..] == rest;
    CloseLine("w", t, ind, name, nl, p, lines[0].events);
    t2 := Tree(t.blocks, p);
    FoldOne(Some(Handler(Xml, preserve)), s, t.blocks, t.current, acc, idSet, acc);
    StoreLine(document, "w", Some(Handler(Xml, preserve)), s, t, acc, lines, idSet, Step(t2, [t.current]), acc);
  }

  /** xml mode: a line holding one word inside sentence `j`, whose id is
      asked for, appends the word's stripped text to the buffer. */
  lemma XmlWord(document: string, preserve: bool, s: Settings, t: Tree, ind: string, attrs: Attrs, d: string,
                nl: string, j: nat, sid: string, lines: seq<Line>, rest: seq<Line>, acc: Acc, idSet: set<string>) returns (t2: Tree)
    requires ValidTree(t) && t.blocks[t.current].name != "w"
    requires j < |t.blocks| && TagInParents(t.blocks, t.current, "s") == Some(j)
    requires Get(t.blocks[j].attributes, "id") == Some(sid) && sid in idSet
    requires lines == [Line([Chars(ind), Start("w", attrs), Chars(d), End("w"), Chars(nl)], None)] + rest
    ensures t2 == Tree(t.blocks + [Block(Some(t.current), "w", d, attrs)], t.current) && ValidTree(t2)
    ensures TagInParents(t2.blocks, t2.current, "s") == Some(j)
    ensures Store(document, "w", Some(Handler(Xml, preserve)), s, t, acc, lines, idSet)
            == Store(document, "w", Some(Handler(Xml, preserve)), s, t2,
                     acc.(sentence := acc.sentence + [Strip(d)]), rest, idSet)
  {
    var h := Handler(Xml, preserve);
    var w := Block(Some(t.current), "w", d, attrs);
    var n := |t.blocks|;
    assert lines[1..] == rest;
    ElementLine("w", t, ind, "w", attrs, d, nl, lines[0].events);
    t2 := Tree(t.blocks + [w], t.current);
    TagInParentsExtend(t.blocks, [w], t.current, "s");
    assert TagInParents(t2.blocks, n, "s") == Some(j);
    assert t2.blocks[j] == t.blocks[j];
    var next := acc.(sentence := acc.sentence + [Token(h, s, w)]);
    assert Inline(h, s, t2.blocks, n, acc, idSet) == Success(next);
    FoldOne(Some(h), s, t2.blocks, n, acc, idSet, next);
    StoreLine(document, "w", Some(h), s, t, acc, lines, idSet, Step(t2, [n]), next);
  }

  /** xml mode: the line closing sentence `s` (current, with an id that is
      asked for) stores the buffer joined by spaces under that id. */
  lemma XmlSentenceClose(document: string, preserve: bool, s: Settings, t: Tree, ind: string, nl: string,
                         p: nat, sid: string, text: string, lines: seq<Line>, rest: seq<Line>, acc: Acc,
                         idSet: set<string>)
    requires ValidTree(t) && t.blocks[t.current].name == "s" && text == Join(" ", acc.sentence)
    requires Get(t.blocks[t.current].attributes, "id") == Some(sid) && sid in idSet
    requires t.blocks[t.current].parent == Some(p) && t.blocks[p].name != "w"
    requires lines == [Line([Chars(ind), End("s"), Chars(nl)], None)] + rest
    ensures ValidTree(Tree(t.blocks, p))
    ensures Store(document, "w", Some(Handler(Xml, preserve)), s, t, acc, lines, idSet)
            == Store(document, "w", Some(Handler(Xml, preserve)), s, Tree(t.blocks, p),
                     Acc([], acc.sentences[sid := (text, t.blocks[t.current].attributes)]),
                     rest, idSet)
  {
    var h := Handler(Xml, preserve);
    assert lines[1..] == rest;
    CloseLine("w", t, ind, "s", nl, p, lines[0].events);
    assert acc.sentence + [] == acc.sentence;
    var next := FinishSentence(Xml, t.blocks[t.current], sid, acc);
    FoldOne(Some(h), s, t.blocks, t.current, acc, idSet, next);
    StoreLine(document, "w", Some(h), s, t, acc, lines, idSet, Step(Tree(t.blocks, p), [t.current]), next);
  }

  /** The opening of a sentence laid out like `s1` of the XML book: the
      sentence tag, a chunk holding one word, the chunk's end tag and a
      second word, one element per line. */
  function OpeningLines(ind: string, nl: string, sa: Attrs, ca: Attrs, wa1: Attrs, d1: string,
                        wa2: Attrs, d2: string): seq<Line>
  {
    [ Line([Chars(ind), Start("s", sa), Chars(nl)], None)
    , Line([Chars(ind), Start("chunk", ca), Chars(nl)], None)
    , Line([Chars(ind), Start("w", wa1), Chars(d1), End("w"), Chars(nl)], None)
    , Line([Chars(ind), End("chunk"), Chars(nl)], None)
    , Line([Chars(ind), Start("w", wa2), Chars(d2), End("w"), Chars(nl)], None)
    ]
  }

  /** The rest of such a sentence: a chunk holding two words, the chunk's
      end tag and the sentence's end tag. */
  function ClosingLines(ind: string, nl: string, ca: Attrs, wa3: Attrs, d3: string, wa4: Attrs, d4: string): seq<Line>
  {
    [ Line([Chars(ind), Start("chunk", ca), Chars(nl)], None)
    , Line([Chars(ind), Start("w", wa3), Chars(d3), End("w"), Chars(nl)], None)
    , Line([Chars(ind), Start("w", wa4), Chars(d4), End("w"), Chars(nl)], None)
    , Line([Chars(ind), End("chunk"), Chars(nl)], None)
    , Line([Chars(ind), End("s"), Chars(nl)], None)
    ]
  }

  /** xml mode: a line opening sentence `s` and a line opening a chunk
      inside it. */
  lemma XmlOpenSentence(document: string, preserve: bool, s: Settings, t: Tree, ind: string, nl: string,
                        sa: Attrs, ca: Attrs, lines: seq<Line>, rest: seq<Line>, acc: Acc, idSet: set<string>)
      returns (t2: Tree)
    requires ValidTree(t) && t.blocks[t.current].name != "w"
    requires lines == [Line([Chars(ind), Start("s", sa), Chars(nl)], None),
                       Line([Chars(ind), Start("chunk", ca), Chars(nl)], None)] + rest
    ensures t2 == Tree(t.blocks + [Block(Some(t.current), "s", "", sa), Block(Some(|t.blocks|), "chunk", "", ca)],
                       |t.blocks| + 1)
    ensures ValidTree(t2) && TagInParents(t2.blocks, t2.current, "s") == Some(|t.blocks|)
    ensures Store(document, "w", Some(Handler(Xml, preserve)), s, t, acc, lines, idSet)
            == Store(document, "w", Some(Handler(Xml, preserve)), s, t2, acc, rest, idSet)
  {
    var r1 := [Line([Chars(ind), Start("chunk", ca), Chars(nl)], None)] + rest;
    assert lines == [Line([Chars(ind), Start("s", sa), Chars(nl)], None)] + r1;
    var t1 := XmlOpen(document, preserve, s, t, ind, "s", sa, nl, lines, r1, acc, idSet);
    t2 := XmlOpen(document, preserve, s, t1, ind, "chunk", ca, nl, r1, rest, acc, idSet);
  }

  /** xml mode: a line holding a word of sentence `j` and a line closing
      the chunk (child of `p`) the word is in. */
  lemma XmlWordThenClose(document: string, preserve: bool, s: Settings, t: Tree, ind: string, nl: string,
                         wa: Attrs, d: string, p: nat, j: nat, sid: string,
                         lines: seq<Line>, rest: seq<Line>, acc: Acc, idSet: set<string>)
      returns (t2: Tree)
    requires ValidTree(t) && t.blocks[t.current].name == "chunk"
    requires t.blocks[t.current].parent == Some(p) && t.blocks[p].name != "w"
    requires j < |t.blocks| && TagInParents(t.blocks, t.current, "s") == Some(j)
    requires Get(t.blocks[j].attributes, "id") == Some(sid) && sid in idSet
    requires lines == [Line([Chars(ind), Start("w", wa), Chars(d), End("w"), Chars(nl)], None),
                       Line([Chars(ind), End("chunk"), Chars(nl)], None)] + rest
    ensures t2 == Tree(t.blocks + [Block(Some(t.current), "w", d, wa)], p) && ValidTree(t2)
    ensures TagInParents(t2.blocks, p, "s") == Some(j)
    ensures Store(document, "w", Some(Handler(Xml, preserve)), s, t, acc, lines, idSet)
            == Store(document, "w", Some(Handler(Xml, preserve)), s, t2,
                     acc.(sentence := acc.sentence + [Strip(d)]), rest, idSet)
  {
    var r1 := [Line([Chars(ind), End("chunk"), Chars(nl)], None)] + rest;
    assert lines == [Line([Chars(ind), Start("w", wa), Chars(d), End("w"), Chars(nl)], None)] + r1;
    var t1 := XmlWord(document, preserve, s, t, ind, wa, d, nl, j, sid, lines, r1, acc, idSet);
    assert t1.blocks[t1.current] == t.blocks[t.current] && t1.blocks[p] == t.blocks[p];
    t2 := XmlClose(document, preserve, s, t1, ind, "chunk", nl, p, r1, rest,
                   acc.(sentence := acc.sentence + [Strip(d)]), idSet);
  }

  /** xml mode: a line opening a chunk inside sentence `j` and a line
      holding a word of that chunk. */
  lemma XmlOpenThenWord(document: string, preserve: bool, s: Settings, t: Tree, ind: string, nl: string,
                        ca: Attrs, wa: Attrs, d: string, j: nat, sid: string,
                        lines: seq<Line>, rest: seq<Line>, acc: Acc, idSet: set<string>)
      returns (t2: Tree)
    requires ValidTree(t) && t.blocks[t.current].name != "w"
    requires j < |t.blocks| && TagInParents(t.blocks, t.current, "s") == Some(j)
    requires Get(t.blocks[j].attributes, "id") == Some(sid) && sid in idSet
    requires lines == [Line([Chars(ind), Start("chunk", ca), Chars(nl)], None),
                       Line([Chars(ind), Start("w", wa), Chars(d), End("w"), Chars(nl)], None)] + rest
    ensures t2 == Tree(t.blocks + [Block(Some(t.current), "chunk", "", ca), Block(Some(|t.blocks|), "w", d, wa)],
                       |t.blocks|)
    ensures ValidTree(t2) && TagInParents(t2.blocks, t2.current, "s") == Some(j)
    ensures Store(document, "w", Some(Handler(Xml, preserve)), s, t, acc, lines, idSet)
            == Store(document, "w", Some(Handler(Xml, preserve)), s, t2,
                     acc.(sentence := acc.sentence + [Strip(d)]), rest, idSet)
  {
    var r1 := [Line([Chars(ind), Start("w", wa), Chars(d), End("w"), Chars(nl)], None)] + rest;
    assert lines == [Line([Chars(ind), Start("chunk", ca), Chars(nl)], None)] + r1;
    var t1 := XmlOpen(document, preserve, s, t, ind, "chunk", ca, nl, lines, r1, acc, idSet);
    assert t1.blocks[j] == t.blocks[j];
    t2 := XmlWord(document, preserve, s, t1, ind, wa, d, nl, j, sid, r1, rest, acc, idSet);
  }

  /** xml mode: a word closing its chunk, then another word of sentence
      `j` directly inside the sentence (the current block's parent `p`). */
  lemma XmlWordCloseWord(document: string, preserve: bool, s: Settings, t: Tree, ind: string, nl: string,
                         wa1: Attrs, d1: string, wa2: Attrs, d2: string, p: nat, sid: string,
                         lines: seq<Line>, rest: seq<Line>, acc: Acc, idSet: set<string>)
      returns (t2: Tree)
    requires ValidTree(t) && t.blocks[t.current].name == "chunk"
    requires t.blocks[t.current].parent == Some(p) && t.blocks[p].name == "s"
    requires Get(t.blocks[p].attributes, "id") == Some(sid) && sid in idSet
    requires TagInParents(t.blocks, t.current, "s") == Some(p)
    requires lines == [Line([Chars(ind), Start("w", wa1), Chars(d1), End("w"), Chars(nl)], None),
                       Line([Chars(ind), End("chunk"), Chars(nl)], None),
                       Line([Chars(ind), Start("w", wa2), Chars(d2), End("w"), Chars(nl)], None)] + rest
    ensures t2 == Tree(t.blocks + [Block(Some(t.current), "w", d1, wa1), Block(Some(p), "w", d2, wa2)], p)
    ensures ValidTree(t2)
    ensures Store(document, "w", Some(Handler(Xml, preserve)), s, t, acc, lines, idSet)
            == Store(document, "w", Some(Handler(Xml, preserve)), s, t2,
                     acc.(sentence := acc.sentence + [Strip(d1)] + [Strip(d2)]), rest, idSet)
  {
    var r2 := [Line([Chars(ind), Start("w", wa2), Chars(d2), End("w"), Chars(nl)], None)] + rest;
    assert lines == [Line([Chars(ind), Start("w", wa1), Chars(d1), End("w"), Chars(nl)], None),
                     Line([Chars(ind), End("chunk"), Chars(nl)], None)] + r2;
    var t1 := XmlWordThenClose(document, preserve, s, t, ind, nl, wa1, d1, p, p, sid, lines, r2, acc, idSet);
    var a1 := acc.(sentence := acc.sentence + [Strip(d1)]);
    assert t1.blocks[p] == t.blocks[p];
    t2 := XmlWord(document, preserve, s, t1, ind, wa2, d2, nl, p, sid, r2, rest, a1, idSet);
  }

  /** xml mode: the end tag of a chunk inside sentence `p` (under `q`),
      then the sentence's end tag: the sentence is stored. */
  lemma XmlCloseSentence(document: string, preserve: bool, s: Settings, t: Tree, ind: string, nl: string,
                         p: nat, q: nat, sid: string, text: string,
                         lines: seq<Line>, rest: seq<Line>, acc: Acc, idSet: set<string>)
    requires ValidTree(t) && t.blocks[t.current].name == "chunk" && text == Join(" ", acc.sentence)
    requires t.blocks[t.current].parent == Some(p) && t.blocks[p].name == "s"
    requires t.blocks[p].parent == Some(q) && t.blocks[q].name != "w"
    requires Get(t.blocks[p].attributes, "id") == Some(sid) && sid in idSet
    requires lines == [Line([Chars(ind), End("chunk"), Chars(nl)], None),
                       Line([Chars(ind), End("s"), Chars(nl)], None)] + rest
    ensures ValidTree(Tree(t.blocks, q))
    ensures Store(document, "w", Some(Handler(Xml, preserve)), s, t, acc, lines, idSet)
            == Store(document, "w", Some(Handler(Xml, preserve)), s, Tree(t.blocks, q),
                     Acc([], acc.sentences[sid := (text, t.blocks[p].attributes)]), rest, idSet)
  {
    var r1 := [Line([Chars(ind), End("s"), Chars(nl)], None)] + rest;
    assert lines == [Line([Chars(ind), End("chunk"), Chars(nl)], None)] + r1;
    var t1 := XmlClose(document, preserve, s, t, ind, "chunk", nl, p, lines, r1, acc, idSet);
    XmlSentenceClose(document, preserve, s, t1, ind, nl, q, sid, text, r1, rest, acc, idSet);
  }

  /** xml mode: the last word of a chunk inside sentence `p` (under
      `q`), the chunk's end tag and the sentence's end tag: the sentence is
      stored with the word. */
  lemma XmlWordCloseSentence(document: string, preserve: bool, s: Settings, t: Tree, ind: string, nl: string,
                             wa: Attrs, d: string, p: nat, q: nat, sid: string, text: string,
                             lines: seq<Line>, rest: seq<Line>, acc: Acc, idSet: set<string>)
      returns (t2: Tree)
    requires ValidTree(t) && t.blocks[t.current].name == "chunk" && text == Join(" ", acc.sentence + [Strip(d)])
    requires t.blocks[t.current].parent == Some(p) && t.blocks[p].name == "s"
    requires t.blocks[p].parent == Some(q) && t.blocks[q].name != "w"
    requires Get(t.blocks[p].attributes, "id") == Some(sid) && sid in idSet
    requires TagInParents(t.blocks, t.current, "s") == Some(p)
    requires lines == [Line([Chars(ind), Start("w", wa), Chars(d), End("w"), Chars(nl)], None),
                       Line([Chars(ind), End("chunk"), Chars(nl)], None),
                       Line([Chars(ind), End("s"), Chars(nl)], None)] + rest
    ensures t2 == Tree(t.blocks + [Block(Some(t.current), "w", d, wa)], q) && ValidTree(t2)
    ensures Store(document, "w", Some(Handler(Xml, preserve)), s, t, acc, lines, idSet)
            == Store(document, "w", Some(Handler(Xml, preserve)), s, t2,
                     Acc([], acc.sentences[sid := (text, t.blocks[p].attributes)]), rest, idSet)
  {
    var r1 := [Line([Chars(ind), End("chunk"), Chars(nl)], None), Line([Chars(ind), End("s"), Chars(nl)], None)] + rest;
    assert lines == [Line([Chars(ind), Start("w", wa), Chars(d), End("w"), Chars(nl)], None)] + r1;
    var t1 := XmlWord(document, preserve, s, t, ind, wa, d, nl, p, sid, lines, r1, acc, idSet);
    assert t1.blocks[p] == t.blocks[p] && t1.blocks[q] == t.blocks[q] && t1.blocks[t1.current] == t.blocks[t.current];
    XmlCloseSentence(document, preserve, s, t1, ind, nl, p, q, sid, text, r1, rest,
                     acc.(sentence := acc.sentence + [Strip(d)]), idSet);
    t2 := Tree(t1.blocks, q);
  }

  /** xml mode: the opening lines of a sentence whose id is asked for open
      it under the current block and buffer its first two words. */
  lemma XmlOpening(document: string, preserve: bool, s: Settings, t: Tree, ind: string, nl: string,
                   sa: Attrs, sid: string, ca: Attrs, wa1: Attrs, d1: string, wa2: Attrs, d2: string,
                   lines: seq<Line>, rest: seq<Line>, m: map<string, (string, Attrs)>, idSet: set<string>)
      returns (u: Tree)
    requires ValidTree(t) && t.blocks[t.current].name != "w"
    requires Get(sa, "id") == Some(sid) && sid in idSet && Strip(d1) == d1 && Strip(d2) == d2
    requires lines == OpeningLines(ind, nl, sa, ca, wa1, d1, wa2, d2) + rest
    ensures ValidTree(u) && u.current == |t.blocks| && |u.blocks| == |t.blocks| + 4 && u.blocks[..|t.blocks|] == t.blocks
    ensures u.blocks[u.current] == Block(Some(t.current), "s", "", sa)
    ensures Store(document, "w", Some(Handler(Xml, preserve)), s, t, Acc([], m), lines, idSet)
            == Store(document, "w", Some(Handler(Xml, preserve)), s, u, Acc([d1, d2], m), rest, idSet)
  {
    var b := OpeningLines(ind, nl, sa, ca, wa1, d1, wa2, d2);
    var n := |t.blocks|;
    var r2 := [b[2], b[3], b[4]] + rest;
    assert lines == [b[0], b[1]] + r2;
    var t2 := XmlOpenSentence(document, preserve, s, t, ind, nl, sa, ca, lines, r2, Acc([], m), idSet);
    assert t2.blocks[n] == Block(Some(t.current), "s", "", sa);
    u := XmlWordCloseWord(document, preserve, s, t2, ind, nl, wa1, d1, wa2, d2, n, sid, r2, rest, Acc([], m), idSet);
    assert [] + [Strip(d1)] + [Strip(d2)] == [d1, d2];
    assert u.blocks[n] == t2.blocks[n];
    assert u.blocks[..n] == t.blocks;
  }

  /** xml mode: from the open sentence block of such a sentence (under
      `p`), the closing lines buffer two more words and store the buffer
      joined by spaces. */
  lemma XmlClosing(document: string, preserve: bool, s: Settings, u: Tree, ind: string, nl: string, p: nat,
                   sa: Attrs, sid: string, ca: Attrs, wa3: Attrs, d3: string, wa4: Attrs, d4: string,
                   buf: seq<string>, text: string, lines: seq<Line>, rest: seq<Line>,
                   m: map<string, (string, Attrs)>, idSet: set<string>)
      returns (v: Tree)
    requires ValidTree(u) && p < |u.blocks| && u.blocks[p].name != "w" && text == Join(" ", buf + [d3, d4])
    requires u.blocks[u.current] == Block(Some(p), "s", "", sa)
    requires Get(sa, "id") == Some(sid) && sid in idSet && Strip(d3) == d3 && Strip(d4) == d4
    requires lines == ClosingLines(ind, nl, ca, wa3, d3, wa4, d4) + rest
    ensures ValidTree(v) && v.current == p && |v.blocks| == |u.blocks| + 3 && v.blocks[..|u.blocks|] == u.blocks
    ensures Store(document, "w", Some(Handler(Xml, preserve)), s, u, Acc(buf, m), lines, idSet)
            == Store(document, "w", Some(Handler(Xml, preserve)), s, v,
                     Acc([], m[sid := (text, sa)]), rest, idSet)
  {
    var b := ClosingLines(ind, nl, ca, wa3, d3, wa4, d4);
    var c := u.current;
    var r2 := [b[2], b[3], b[4]] + rest;
    assert lines == [b[0], b[1]] + r2;
    assert TagInParents(u.blocks, c, "s") == Some(c);
    var t2 := XmlOpenThenWord(document, preserve, s, u, ind, nl, ca, wa3, d3, c, sid, lines, r2, Acc(buf, m), idSet);
    assert t2.blocks[c] == u.blocks[c] && t2.blocks[p] == u.blocks[p] && t2.blocks[t2.current].parent == Some(c);
    assert buf + [d3] + [Strip(d4)] == buf + [d3, d4];
    v := XmlWordCloseSentence(document, preserve, s, t2, ind, nl, wa4, d4, c, p, sid, text, r2, rest,
                              Acc(buf + [d3], m), idSet);
    assert v.blocks[..|u.blocks|] == u.blocks;
  }

  /** xml mode: a whole sentence laid out like `s1` of the XML book, whose
      id is asked for, is stored as its four stripped words joined by
      single spaces, with its attributes; the parser is back at the block
      it started from, which has gained the sentence's seven blocks. */
  lemma XmlSentence(document: string, preserve: bool, s: Settings, t: Tree, ind: string, nl: string,
                    sa: Attrs, sid: string, ca1: Attrs, wa1: Attrs, d1: string, wa2: Attrs, d2: string,
                    ca3: Attrs, wa3: Attrs, d3: string, wa4: Attrs, d4: string,
                    lines: seq<Line>, rest: seq<Line>, m: map<string, (string, Attrs)>, idSet: set<string>)
      returns (t2: Tree)
    requires ValidTree(t) && t.blocks[t.current].name != "w"
    requires Get(sa, "id") == Some(sid) && sid in idSet
    requires Strip(d1) == d1 && Strip(d2) == d2 && Strip(d3) == d3 && Strip(d4) == d4
    requires lines == OpeningLines(ind, nl, sa, ca1, wa1, d1, wa2, d2) + ClosingLines(ind, nl, ca3, wa3, d3, wa4, d4) + rest
    ensures ValidTree(t2) && t2.current == t.current && |t2.blocks| == |t.blocks| + 7
    ensures t2.blocks[..|t.blocks|] == t.blocks
    ensures Store(document, "w", Some(Handler(Xml, preserve)), s, t, Acc([], m), lines, idSet)
            == Store(document, "w", Some(Handler(Xml, preserve)), s, t2,
                     Acc([], m[sid := (Join(" ", [d1, d2, d3, d4]), sa)]), rest, idSet)
  {
    var n := |t.blocks|;
    var closing := ClosingLines(ind, nl, ca3, wa3, d3, wa4, d4);
    assert lines == OpeningLines(ind, nl, sa, ca1, wa1, d1, wa2, d2) + (closing + rest);
    var u := XmlOpening(document, preserve, s, t, ind, nl, sa, sid, ca1, wa1, d1, wa2, d2,
                        lines, closing + rest, m, idSet);
    assert u.blocks[t.current] == t.blocks[t.current];
    assert [d1, d2] + [d3, d4] == [d1, d2, d3, d4];
    t2 := XmlClosing(document, preserve, s, u, ind, nl, t.current, sa, sid, ca3, wa3, d3, wa4, d4, [d1, d2],
                     Join(" ", [d1, d2, d3, d4]), closing + rest, rest, m, idSet);
    assert t2.blocks[..n] == t2.blocks[..|u.blocks|][..n];
  }

  /** The attributes of the chunks and words of `s1`, in document order. */
  const Chunk1: Attrs := [("type", "NP"), ("id", "c1-1")]
  const Word1: Attrs := [("hun", "NN"), ("tree", "NN"), ("lem", "source"), ("pos", "NN"), ("id", "w1.1")]
  const Word2: Attrs := [("hun", ":"), ("tree", ":"), ("lem", ":"), ("pos", ":"), ("id", "w1.2")]
  const Chunk3: Attrs := [("type", "NP"), ("id", "c1-3")]
  const Word3: Attrs := [("hun", "NNP"), ("tree", "NP"), ("lem", "Project"), ("pos", "NNP"), ("id", "w1.3")]
  const Word4: Attrs := [("hun", "NNP"), ("tree", "NP"), ("pos", "NNP"), ("id", "w1.4")]

  /** Sentence `s1` of the XML book, one element per line. */
  function BooksSentence(ind: string, nl: string): seq<Line>
  {
    OpeningLines(ind, nl, [("id", "s1")], Chunk1, Word1, "Source", Word2, ":")
    + ClosingLines(ind, nl, Chunk3, Word3, "Project", Word4, "GutenbergTranslation")
  }

  /** The words of `s1` joined by single spaces. */
  lemma JoinWords()
    ensures Join(" ", ["Source", ":", "Project", "GutenbergTranslation"]) == "Source : Project GutenbergTranslation"
  {
    var words := ["Source", ":", "Project", "GutenbergTranslation"];
    JoinMiddle();
    assert words[1..] == [":", "Project", "GutenbergTranslation"];
    assert Join(" ", words) == "Source" + " " + ": Project GutenbergTranslation";
  }

  lemma JoinMiddle()
    ensures Join(" ", [":", "Project", "GutenbergTranslation"]) == ": Project GutenbergTranslation"
  {
    var w1 := [":", "Project", "GutenbergTranslation"];
    JoinLast();
    assert w1[1..] == ["Project", "GutenbergTranslation"];
    assert Join(" ", w1) == ":" + " " + "Project GutenbergTranslation";
  }

  lemma JoinLast()
    ensures Join(" ", ["Project", "GutenbergTranslation"]) == "Project GutenbergTranslation"
  {
    var w2 := ["Project", "GutenbergTranslation"];
    assert w2[1..] == ["GutenbergTranslation"];
    assert Join(" ", w2) == "Project" + " " + "GutenbergTranslation";
  }

  /** In xml mode, with `s1` asked for, the sentence is stored as its words
      joined by single spaces, `Source : Project GutenbergTranslation`,
      with its attributes; the parser is back at the block it started
      from, which has gained the sentence's seven blocks. */
  lemma XmlBooksSentence(document: string, preserve: bool, s: Settings, t: Tree, ind: string, nl: string,
                         lines: seq<Line>, rest: seq<Line>, m: map<string, (string, Attrs)>, idSet: set<string>)
      returns (t2: Tree)
    requires ValidTree(t) && t.blocks[t.current].name != "w" && "s1" in idSet
    requires lines == BooksSentence(ind, nl) + rest
    ensures ValidTree(t2) && t2.current == t.current && |t2.blocks| == |t.blocks| + 7
    ensures t2.blocks[..|t.blocks|] == t.blocks
    ensures Store(document, "w", Some(Handler(Xml, preserve)), s, t, Acc([], m), lines, idSet)
            == Store(document, "w", Some(Handler(Xml, preserve)), s, t2,
                     Acc([], m["s1" := ("Source : Project GutenbergTranslation", [("id", "s1")])]), rest, idSet)
  {
    StripUnchanged("Source");
    StripUnchanged(":");
    StripUnchanged("Project");
    StripUnchanged("GutenbergTranslation");
    JoinWords();
    t2 := XmlSentence(document, preserve, s, t, ind, nl, [("id", "s1")], "s1", Chunk1, Word1, "Source", Word2, ":",
                      Chunk3, Word3, "Project", Word4, "GutenbergTranslation", lines, rest, m, idSet);
  }

  /** raw mode: a line holding one whole sentence `<s ...>text</s>` under
      the current block stores the sentence's stripped text when its id is
      asked for, and otherwise changes nothing the handler keeps. */
  lemma RawSentenceLine(document: string, preserve: bool, s: Settings, t: Tree, ind: string, sa: Attrs, sid: string,
                        text: string, nl: string, lines: seq<Line>, rest: seq<Line>, acc: Acc, idSet: set<string>)
      returns (t2: Tree)
    requires ValidTree(t) && t.blocks[t.current].name != "s" && Get(sa, "id") == Some(sid)
    requires lines == [Line([Chars(ind), Start("s", sa), Chars(text), End("s"), Chars(nl)], None)] + rest
    ensures t2 == Tree(t.blocks + [Block(Some(t.current), "s", text, sa)], t.current) && ValidTree(t2)
    ensures Store(document, "s", Some(Handler(Raw, preserve)), s, t, acc, lines, idSet)
            == Store(document, "s", Some(Handler(Raw, preserve)), s, t2,
                     if sid in idSet then Acc([], acc.sentences[sid := (Join(" ", acc.sentence + [Strip(text)]), sa)])
                     else acc,
                     rest, idSet)
  {
    var h := Handler(Raw, preserve);
    var b := Block(Some(t.current), "s", text, sa);
    var n := |t.blocks|;
    assert lines[1..] == rest;
    ElementLine("s", t, ind, "s", sa, text, nl, lines[0].events);
    t2 := Tree(t.blocks + [b], t.current);
    var next := if sid in idSet then FinishSentence(Raw, b, sid, acc) else acc;
    FoldOne(Some(h), s, t2.blocks, n, acc, idSet, next);
    StoreLine(document, "s", Some(h), s, t, acc, lines, idSet, Step(t2, [n]), next);
  }

  /** raw mode: a document that ends inside a sentence. The engine is never
      told that the input is over, so the open `s` raises nothing and is
      never completed: the dictionary is left as it was, even when its id
      is asked for. */
  lemma UnclosedSentenceDropped(document: string, preserve: bool, s: Settings, t: Tree, ind: string, sa: Attrs,
                                text: string, acc: Acc, idSet: set<string>)
    requires ValidTree(t) && t.blocks[t.current].name != "s"
    ensures Store(document, "s", Some(Handler(Raw, preserve)), s, t, acc,
                  [Line([Chars(ind), Start("s", sa), Chars(text)], None)], idSet)
            == Stored(acc, None)
  {
    var n := |t.blocks|;
    var e1 := [Chars(ind)];
    assert e1 == [] + [Chars(ind)];
    SnocIgnored("s", t, [], Step(t, []), ind);
    var e2 := e1 + [Start("s", sa)];
    SnocStart("s", t, e1, Step(t, []), "s", sa);
    var ready := t.blocks + [Block(Some(t.current), "s", "", sa)];
    SnocData("s", t, e2, Step(Tree(ready, n), []), text);
    assert e2 + [Chars(text)] == [Chars(ind), Start("s", sa), Chars(text)];
    var lines := [Line(e2 + [Chars(text)], None)];
    var step := Replay("s", t, lines[0].events);
    assert step.completed == [];
    assert FoldBatch(Some(Handler(Raw, preserve)), s, step.tree.blocks, [], acc, idSet) == Stored(acc, None);
  }

  /** raw mode: a sentence whose id is asked for, then one whose id is
      not: only the first is stored, as its text. */
  lemma RawStoredThenSkipped(document: string, preserve: bool, s: Settings, t: Tree, ind: string, nl: string,
                             sa: Attrs, sid: string, x: string, sa2: Attrs, sid2: string, x2: string,
                             lines: seq<Line>, rest: seq<Line>, m: map<string, (string, Attrs)>, idSet: set<string>)
      returns (t2: Tree)
    requires ValidTree(t) && t.blocks[t.current].name != "s" && Strip(x) == x
    requires Get(sa, "id") == Some(sid) && sid in idSet && Get(sa2, "id") == Some(sid2) && sid2 !in idSet
    requires lines == [Line([Chars(ind), Start("s", sa), Chars(x), End("s"), Chars(nl)], None),
                       Line([Chars(ind), Start("s", sa2), Chars(x2), End("s"), Chars(nl)], None)] + rest
    ensures t2 == Tree(t.blocks + [Block(Some(t.current), "s", x, sa), Block(Some(t.current), "s", x2, sa2)], t.current)
    ensures ValidTree(t2)
    ensures Store(document, "s", Some(Handler(Raw, preserve)), s, t, Acc([], m), lines, idSet)
            == Store(document, "s", Some(Handler(Raw, preserve)), s, t2, Acc([], m[sid := (x, sa)]), rest, idSet)
  {
    var r1 := [Line([Chars(ind), Start("s", sa2), Chars(x2), End("s"), Chars(nl)], None)] + rest;
    assert lines == [Line([Chars(ind), Start("s", sa), Chars(x), End("s"), Chars(nl)], None)] + r1;
    assert [] + [Strip(x)] == [x];
    var t1 := RawSentenceLine(document, preserve, s, t, ind, sa, sid, x, nl, lines, r1, Acc([], m), idSet);
    assert t1.blocks[t1.current] == t.blocks[t.current];
    t2 := RawSentenceLine(document, preserve, s, t1, ind, sa2, sid2, x2, nl, r1, rest, Acc([], m[sid := (x, sa)]), idSet);
  }

  /** Three one-line sentences. */
  function RawLines(ind: string, nl: string, sa1: Attrs, x1: string, sa2: Attrs, x2: string,
                    sa3: Attrs, x3: string): seq<Line>
  {
    [ Line([Chars(ind), Start("s", sa1), Chars(x1), End("s"), Chars(nl)], None)
    , Line([Chars(ind), Start("s", sa2), Chars(x2), End("s"), Chars(nl)], None)
    , Line([Chars(ind), Start("s", sa3), Chars(x3), End("s"), Chars(nl)], None)
    ]
  }

  /** raw mode: of three one-line sentences only the middle one's id is
      asked for, and only it is stored. */
  lemma RawMiddleSentence(document: string, preserve: bool, s: Settings, t: Tree, ind: string, nl: string,
                          sa1: Attrs, sid1: string, x1: string, sa2: Attrs, sid2: string, x2: string,
                          sa3: Attrs, sid3: string, x3: string,
                          lines: seq<Line>, rest: seq<Line>, m: map<string, (string, Attrs)>, idSet: set<string>)
      returns (t2: Tree)
    requires ValidTree(t) && t.blocks[t.current].name != "s" && Strip(x2) == x2
    requires Get(sa1, "id") == Some(sid1) && sid1 !in idSet
    requires Get(sa2, "id") == Some(sid2) && sid2 in idSet
    requires Get(sa3, "id") == Some(sid3) && sid3 !in idSet
    requires lines == RawLines(ind, nl, sa1, x1, sa2, x2, sa3, x3) + rest
    ensures ValidTree(t2) && t2.current == t.current && |t2.blocks| == |t.blocks| + 3
    ensures t2.blocks[..|t.blocks|] == t.blocks
    ensures Store(document, "s", Some(Handler(Raw, preserve)), s, t, Acc([], m), lines, idSet)
            == Store(document, "s", Some(Handler(Raw, preserve)), s, t2, Acc([], m[sid2 := (x2, sa2)]), rest, idSet)
  {
    var n := |t.blocks|;
    var b := RawLines(ind, nl, sa1, x1, sa2, x2, sa3, x3);
    var r1 := [b[1], b[2]] + rest;
    assert lines == [b[0]] + r1;
    var t1 := RawSentenceLine(document, preserve, s, t, ind, sa1, sid1, x1, nl, lines, r1, Acc([], m), idSet);
    assert t1.blocks[t1.current] == t.blocks[t.current];
    t2 := RawStoredThenSkipped(document, preserve, s, t1, ind, nl, sa2, sid2, x2, sa3, sid3, x3, r1, rest, m, idSet);
    assert t2.blocks[..n] == t.blocks;
  }

  /** The three sentences of the raw book, one per line. */
  function RawBook(ind: string, nl: string): seq<Line>
  {
    RawLines(ind, nl, [("id", "s1")], "Source: Project GutenbergTranslation: Isabel F. HapgoodAudiobook available here",
             [("id", "s2")], "Hunchback of Notre-Dame", [("id", "s3")], "Victor Hugo")
  }

  /** In raw mode, with `s2` and `0` asked for, only `s2` is stored, as
      its text with its attributes; the id `0`, which no sentence has,
      gains no entry. */
  lemma RawBookSentences(document: string, preserve: bool, s: Settings, t: Tree, ind: string, nl: string,
                         lines: seq<Line>, rest: seq<Line>, m: map<string, (string, Attrs)>)
      returns (t2: Tree)
    requires ValidTree(t) && t.blocks[t.current].name != "s"
    requires lines == RawBook(ind, nl) + rest
    ensures ValidTree(t2) && t2.current == t.current && |t2.blocks| == |t.blocks| + 3
    ensures t2.blocks[..|t.blocks|] == t.blocks
    ensures Store(document, "s", Some(Handler(Raw, preserve)), s, t, Acc([], m), lines, {"s2", "0"})
            == Store(document, "s", Some(Handler(Raw, preserve)), s, t2,
                     Acc([], m["s2" := ("Hunchback of Notre-Dame", [("id", "s2")])]), rest, {"s2", "0"})
  {
    StripUnchanged("Hunchback of Notre-Dame");
    t2 := RawMiddleSentence(document, preserve, s, t, ind, nl,
                            [("id", "s1")], "s1", "Source: Project GutenbergTranslation: Isabel F. HapgoodAudiobook available here",
                            [("id", "s2")], "s2", "Hunchback of Notre-Dame", [("id", "s3")], "s3", "Victor Hugo",
                            lines, rest, m, {"s2", "0"});
  }
}
