/** The streaming block builder of `opustools/parse/block_parser.py`.

    The XML engine (expat) is a foreign event source. Each input line is
    modelled by the events the engine reports for it, in order, and by the
    error it raises after them, if any. The blocks live in an arena: block
    `k` is the `k`-th block created, the synthetic root is block 0, and a
    parent is the index of an earlier block. */
module Blocks {
  import opened Wrappers
  import opened Text

  /** Attributes in the engine's (document) order; a dictionary has unique
      keys, see UniqueKeys. */
  type Attrs = seq<(string, string)>

  predicate UniqueKeys(a: Attrs)
  {
    forall i, j :: 0 <= i < j < |a| ==> a[i].0 != a[j].0
  }

  /** `attrs.keys()` in order. */
  function Keys(a: Attrs): (r: seq<string>)
    ensures |r| == |a| && forall i :: 0 <= i < |a| ==> r[i] == a[i].0
  {
    if a == [] then [] else [a[0].0] + Keys(a[1..])
  }

  /** `attrs.get(k)`: the value of the first pair with key `k`. */
  function Get(a: Attrs, k: string): (r: Option<string>)
    ensures r.None? <==> k !in Keys(a)
    ensures r.Some? ==> (k, r.value) in a
  {
    if a == [] then None
    else if a[0].0 == k then Some(a[0].1)
    else Get(a[1..], k)
  }

  /** One `Block`: its parent (None only for the root), tag name,
      accumulated character data and attributes. */
  datatype Block = Block(parent: Option<nat>, name: string, data: string, attributes: Attrs)

  /** `Block(name='root')`. The source leaves its attributes None; the
      root is never rendered nor matched, so the model gives it none. */
  const Root: Block := Block(None, "root", "", [])

  /** What the XML engine reports: a start tag with its attributes, an end
      tag, or a run of character data. */
  datatype Event = Start(name: string, attrs: Attrs) | End(name: string) | Chars(text: string)

  /** One input line: the events the engine reported while parsing it, and
      the engine's error message if it rejected the line after them. */
  datatype Line = Line(events: seq<Event>, error: Option<string>)

  /** The block tree: the arena and the index of `current_block`. */
  datatype Tree = Tree(blocks: seq<Block>, current: nat)

  /** Block 0 is the parentless root; every other block's parent is an
      earlier block. */
  predicate Linked(blocks: seq<Block>)
  {
    && |blocks| > 0
    && blocks[0].parent.None?
    && forall i :: 0 < i < |blocks| ==> blocks[i].parent.Some? && blocks[i].parent.value < i
  }

  predicate ValidTree(t: Tree)
  {
    Linked(t.blocks) && t.current < |t.blocks|
  }

  /** The tree of a freshly constructed BlockParser. */
  const InitialTree: Tree := Tree([Root], 0)

  /** The chain from the root down to block `i`: the root first, `i` last,
      every block of it no later than `i`. */
  function Path(blocks: seq<Block>, i: nat): (r: seq<nat>)
    requires Linked(blocks) && i < |blocks|
    ensures |r| > 0 && r[0] == 0 && r[|r| - 1] == i
    ensures forall j :: j in r ==> j <= i
    decreases i
  {
    match blocks[i].parent
    case None => [i]
    case Some(p) => Path(blocks, p) + [i]
  }

  /** `Block.get_raw_tag`'s attribute strings `k="v"`, in mapping order. */
  function AttrStrings(a: Attrs): (r: seq<string>)
    ensures |r| == |a|
    ensures forall k :: 0 <= k < |a| ==> r[k] == a[k].0 + "=\"" + a[k].1 + "\""
  {
    if a == [] then [] else [a[0].0 + "=\"" + a[0].1 + "\""] + AttrStrings(a[1..])
  }

  /** `Block.get_raw_tag`: `<name k="v" ... />` when the block has no
      data, `<name k="v" ...>data</name>` otherwise. Nothing is escaped.
      TagSyntax.RawTagRoundTrip states what this rendering preserves. */
  function RawTag(b: Block): (r: string)
    ensures |r| > |b.name| && r[..|b.name| + 1] == "<" + b.name
  {
    var content := Join(" ", [b.name] + AttrStrings(b.attributes));
    JoinCons(" ", [b.name] + AttrStrings(b.attributes));
    assert ([b.name] + AttrStrings(b.attributes))[0] == b.name;
    if b.data == "" then "<" + content + " />"
    else "<" + content + ">" + b.data + "</" + b.name + ">"
  }

  /** `Block.tag_in_parents`: the nearest block named `tag` on the chain
      from block `i` up to the root, `i` itself included (the largest index
      of the chain Path gives, since parents precede children), or None when
      no block of the chain has that name. */
  function TagInParents(blocks: seq<Block>, i: nat, tag: string): (r: Option<nat>)
    requires Linked(blocks) && i < |blocks|
    ensures r.Some? ==> r.value in Path(blocks, i) && blocks[r.value].name == tag
    ensures r.Some? ==> forall j :: j in Path(blocks, i) && blocks[j].name == tag ==> j <= r.value
    ensures r.None? <==> forall j :: j in Path(blocks, i) ==> blocks[j].name != tag
    decreases i
  {
    if blocks[i].name == tag then Some(i)
    else
      match blocks[i].parent
      case None => None
      case Some(p) => TagInParents(blocks, p, tag)
  }

  /** The effect of one event on the tree, and the blocks it completes
      (the handlers `start_element`, `end_element` and `char_data`). */
  datatype Step = Step(tree: Tree, completed: seq<nat>)

  /** One event. A start tag adds a block under the current one and makes
      it current. An end tag completes the current block and returns to its
      parent, whatever the tag's name. Character data is appended to the
      current block only when a data tag is set and the block has that
      name. The engine never reports an end tag with no open element (it
      rejects the line); for that case the model keeps the root current. */
  function Handle(dataTag: string, t: Tree, e: Event): (r: Step)
    requires ValidTree(t)
    ensures ValidTree(r.tree)
  {
    match e
    case Start(name, attrs) =>
      Step(Tree(t.blocks + [Block(Some(t.current), name, "", attrs)], |t.blocks|), [])
    case End(_) =>
      var next := match t.blocks[t.current].parent case Some(p) => p case None => t.current;
      Step(Tree(t.blocks, next), [t.current])
    case Chars(text) =>
      var b := t.blocks[t.current];
      if dataTag != "" && b.name == dataTag then
        Step(Tree(t.blocks[t.current := b.(data := b.data + text)], t.current), [])
      else Step(t, [])
  }

  /** Every index of `batch` names a block of the arena. */
  predicate InArena(blocks: seq<Block>, batch: seq<nat>)
  {
    forall k :: 0 <= k < |batch| ==> batch[k] < |blocks|
  }

  /** The number of end tags among `events`. */
  function Ends(events: seq<Event>): nat
  {
    if events == [] then 0
    else Ends(events[..|events| - 1]) + (if events[|events| - 1].End? then 1 else 0)
  }

  /** The events in order; `completed` lists the blocks completed, in the
      order of their end tags: exactly one per end tag, each one a block of
      the final arena. */
  function Replay(dataTag: string, t: Tree, events: seq<Event>): (r: Step)
    requires ValidTree(t)
    ensures ValidTree(r.tree) && |r.tree.blocks| >= |t.blocks|
    ensures |r.completed| == Ends(events)
    ensures InArena(r.tree.blocks, r.completed)
    decreases |events|
  {
    if events == [] then Step(t, [])
    else
      var before := Replay(dataTag, t, events[..|events| - 1]);
      var last := Handle(dataTag, before.tree, events[|events| - 1]);
      Step(last.tree, before.completed + last.completed)
  }

  /** The text of `BlockParserError` for document `document`. */
  function ParseErrorMessage(document: string, error: string): (r: string)
    ensures |r| >= 10 + |document| + |error| && r[10..10 + |document|] == document
    ensures r[|r| - |error|..] == error
  {
    "Document '" + document + "' could not be parsed: " + error
  }

  /** What `get_complete_blocks` does with the lines: the blocks it
      yields, the error it raises (None when the lines ran out), and the
      tree and the pending list `completeBlocks` it leaves behind. */
  datatype Drained = Drained(yielded: seq<nat>, error: Option<string>, tree: Tree, pending: seq<nat>)

  /** `get_complete_blocks` over `lines`, from tree `t` with `pending`
      blocks not yet yielded: each line is parsed; a rejected line raises
      and yields nothing more; otherwise the blocks completed so far are
      yielded and the pending list is emptied. */
  function Stream(document: string, dataTag: string, t: Tree, pending: seq<nat>, lines: seq<Line>): (r: Drained)
    requires ValidTree(t)
    ensures ValidTree(r.tree)
    decreases |lines|
  {
    if lines == [] then Drained([], None, t, pending)
    else
      var step := Replay(dataTag, t, lines[0].events);
      var done := pending + step.completed;
      if lines[0].error.Some? then
        Drained([], Some(ParseErrorMessage(document, lines[0].error.value)), step.tree, done)
      else
        var rest := Stream(document, dataTag, step.tree, [], lines[1..]);
        Drained(done + rest.yielded, rest.error, rest.tree, rest.pending)
  }

  /** `BlockParser`: the document's name (for error messages), the data
      tag ("" stands for a falsy one), the arena behind `current_block` and
      the pending list `completeBlocks` (indices into the arena). */
  class BlockParser {
    const document: string
    const dataTag: string
    var blocks: seq<Block>
    var current: nat
    var completeBlocks: seq<nat>

    function Snapshot(): Tree
      reads this
    {
      Tree(blocks, current)
    }

    ghost predicate Valid()
      reads this
    {
      ValidTree(Snapshot()) && InArena(blocks, completeBlocks)
    }

    /** A parser whose current block is the root and nothing is pending. */
    constructor (document: string, dataTag: string)
      ensures Valid()
      ensures this.document == document && this.dataTag == dataTag
      ensures Snapshot() == InitialTree && completeBlocks == []
    {
      this.document := document;
      this.dataTag := dataTag;
      blocks := [Root];
      current := 0;
      completeBlocks := [];
    }

    /** `start_element`: a fresh block, child of the current one, with the
      given name and attributes and no data, becomes current; no other block
      changes. */
    method StartElement(name: string, attrs: Attrs)
      requires Valid()
      modifies this
      ensures Valid()
      ensures blocks == old(blocks) + [Block(Some(old(current)), name, "", attrs)]
      ensures current == |old(blocks)| && completeBlocks == old(completeBlocks)
      ensures Step(Snapshot(), []) == Handle(dataTag, old(Snapshot()), Start(name, attrs))
    {
      blocks := blocks + [Block(Some(current), name, "", attrs)];
      current := |blocks| - 1;
    }

    /** `end_element`: the current block is appended to the pending list and
      its parent becomes current; the tag name is not consulted. */
    method EndElement(name: string)
      requires Valid()
      modifies this
      ensures Valid()
      ensures completeBlocks == old(completeBlocks) + [old(current)] && blocks == old(blocks)
      ensures current == match old(blocks[current].parent) case Some(p) => p case None => old(current)
      ensures Step(Snapshot(), completeBlocks[|old(completeBlocks)|..]) == Handle(dataTag, old(Snapshot()), End(name))
    {
      completeBlocks := completeBlocks + [current];
      match blocks[current].parent
      case Some(p) => current := p;
      case None =>
    }

    /** `char_data`: the text is appended to the current block's data when
      that block is named after the data tag; nothing else changes. */
    method CharData(text: string)
      requires Valid()
      modifies this
      ensures Valid()
      ensures current == old(current) && completeBlocks == old(completeBlocks)
      ensures blocks == if old(blocks[current].name) == dataTag
                        then old(blocks[current := blocks[current].(data := blocks[current].data + text)])
                        else old(blocks)
    {
      if blocks[current].name == dataTag {
        blocks := blocks[current := blocks[current].(data := blocks[current].data + text)];
      }
    }

    /** `parse_line`: the engine reports the line's events to the handlers
      (character data only when a data tag is set, as the handler is
      installed only then) and, when it rejects the line, the error is
      raised as `BlockParserError` naming the document. */
    method ParseLine(line: Line) returns (err: Option<string>)
      requires Valid()
      modifies this
      ensures Valid()
      ensures Snapshot() == Replay(dataTag, old(Snapshot()), line.events).tree
      ensures completeBlocks == old(completeBlocks) + Replay(dataTag, old(Snapshot()), line.events).completed
      ensures err == if line.error.Some? then Some(ParseErrorMessage(document, line.error.value)) else None
    {
      var events := line.events;
      var i := 0;
      while i < |events|
        invariant 0 <= i <= |events| && Valid()
        invariant Snapshot() == Replay(dataTag, old(Snapshot()), events[..i]).tree
        invariant completeBlocks == old(completeBlocks) + Replay(dataTag, old(Snapshot()), events[..i]).completed
      {
        assert events[..i + 1][..i] == events[..i];
        match events[i] {
          case Start(name, attrs) => StartElement(name, attrs);
          case End(name) => EndElement(name);
          case Chars(text) =>
            if dataTag != "" {
              CharData(text);
            }
        }
        i := i + 1;
      }
      assert events[..i] == events;
      err := if line.error.Some? then Some(ParseErrorMessage(document, line.error.value)) else None;
    }

    /** One round of `get_complete_blocks`: parse one line, then hand over
      and clear the pending list. A rejected line raises before anything is
      handed over. */
    method NextBatch(line: Line) returns (r: Result<seq<nat>, string>)
      requires Valid()
      modifies this
      ensures Valid()
      ensures var step := Replay(dataTag, old(Snapshot()), line.events);
              && Snapshot() == step.tree
              && (line.error.Some? ==> r == Failure(ParseErrorMessage(document, line.error.value))
                                       && completeBlocks == old(completeBlocks) + step.completed)
              && (line.error.None? ==> r == Success(old(completeBlocks) + step.completed)
                                       && completeBlocks == [])
    {
      var err := ParseLine(line);
      if err.Some? {
        return Failure(err.value);
      }
      r := Success(completeBlocks);
      completeBlocks := [];
    }

    /** `get_complete_blocks` driven to the end of the lines or to the first
      rejected line: the blocks yielded and the error raised are those
      Stream gives. */
    method GetCompleteBlocks(lines: seq<Line>) returns (yielded: seq<nat>, err: Option<string>)
      requires Valid()
      modifies this
      ensures Valid()
      ensures var d := Stream(document, dataTag, old(Snapshot()), old(completeBlocks), lines);
              yielded == d.yielded && err == d.error && Snapshot() == d.tree && completeBlocks == d.pending
    {
      ghost var total := Stream(document, dataTag, Snapshot(), completeBlocks, lines);
      yielded, err := [], None;
      var i := 0;
      while i < |lines|
        invariant 0 <= i <= |lines| && Valid()
        invariant i > 0 ==> completeBlocks == []
        invariant var d := Stream(document, dataTag, Snapshot(), completeBlocks, lines[i..]);
                  Drained(yielded + d.yielded, d.error, d.tree, d.pending) == total
      {
        ghost var d := Stream(document, dataTag, Snapshot(), completeBlocks, lines[i..]);
        ghost var step := Replay(dataTag, Snapshot(), lines[i].events);
        ghost var done := completeBlocks + step.completed;
        assert lines[i..][0] == lines[i] && lines[i..][1..] == lines[i + 1..];
        var batch := NextBatch(lines[i]);
        if batch.Failure? {
          assert d == Drained([], Some(batch.error), Snapshot(), completeBlocks);
          assert yielded + [] == yielded;
          err := Some(batch.error);
          return;
        }
        ghost var rest := Stream(document, dataTag, Snapshot(), [], lines[i + 1..]);
        assert batch.value == done && d == Drained(done + rest.yielded, rest.error, rest.tree, rest.pending);
        assert yielded + (done + rest.yielded) == (yielded + done) + rest.yielded;
        yielded := yielded + batch.value;
        i := i + 1;
      }
      assert lines[i..] == [];
      assert yielded + [] == yielded;
    }
  }
}
