/** The sentence reconstructor of `opustools/parse/sentence_parser.py`:
    the blocks a BlockParser completes are folded, in completion order, into
    a token buffer and a dictionary from sentence id to the sentence's text
    and attributes. */
module Sentences {
  import opened Wrappers
  import opened Text
  import opened Blocks

  /** What the reconstructor can raise: a missing dictionary key, a call on
      something that cannot take it, a name that is not bound, and the
      re-raised parse error of the block parser. */
  datatype Error =
    | KeyError(key: string)
    | TypeError(reason: string)
    | NameError(name: string)
    | SentenceParserError(message: string)

  /** The three preprocessing types `parse_type` knows. */
  datatype Mode = Xml | Raw | Parsed

  function ModeName(m: Mode): string
  {
    match m
    case Xml => "xml"
    case Raw => "raw"
    case Parsed => "parsed"
  }

  /** One of the six handlers `parse_type` can return: the preprocessing
      type and whether inline `time` tags are preserved. */
  datatype Handler = Handler(mode: Mode, preserve: bool)

  /** `parse_type`: a handler for each known preprocessing type, chosen
      with the truthiness of `preserve`, and None (Python's fall-through)
      for any other type. */
  function ParseType(preprocess: string, preserve: bool): (r: Option<Handler>)
    ensures r.Some? <==> preprocess in {"xml", "raw", "parsed"}
    ensures r.Some? ==> ModeName(r.value.mode) == preprocess && r.value.preserve == preserve
  {
    if preprocess == "xml" then Some(Handler(Xml, preserve))
    else if preprocess == "raw" then Some(Handler(Raw, preserve))
    else if preprocess == "parsed" then Some(Handler(Parsed, preserve))
    else None
  }

  /** `SentenceParser.data_tag`: raw documents keep the text of `s`
      elements, the others the text of `w` elements. */
  function DataTagFor(preprocess: string): (r: string)
    ensures r == "s" <==> preprocess == "raw"
    ensures r == "s" || r == "w"
  {
    if preprocess == "raw" then "s" else "w"
  }

  /** The values of the attributes named by `names`, in that order, for
      each name the block has; names it lacks are skipped. */
  function Listed(attrs: Attrs, names: seq<string>): (r: seq<string>)
    ensures |r| <= |names|
    ensures forall v :: v in r ==> exists k :: k in names && Get(attrs, k) == Some(v)
  {
    if names == [] then []
    else
      var rest := Listed(attrs, names[1..]);
      assert forall k :: k in names[1..] ==> k in names;
      match Get(attrs, names[0])
      case Some(v) => assert names[0] in names; [v] + rest
      case None => rest
  }

  /** Listing names every one of which is present gives, at each position,
      the value of the name at that position. */
  lemma {:induction false} ListedAllPresent(a: Attrs, names: seq<string>)
    requires forall k :: k in names ==> k in Keys(a)
    ensures |Listed(a, names)| == |names|
    ensures forall j :: 0 <= j < |names| ==> Some(Listed(a, names)[j]) == Get(a, names[j])
  {
    if names != [] {
      assert names[0] in names;
      ListedAllPresent(a, names[1..]);
      assert forall j :: 1 <= j < |names| ==> names[1..][j - 1] == names[j];
    }
  }

  /** The attribute values `get_annotations` renders: every value in
      sorted-key order when `all_attrs` is requested, otherwise the listed
      attributes the block has, in the order they are listed. */
  function AnnotationValues(attrs: Attrs, annoAttrs: seq<string>): (r: seq<string>)
    ensures "all_attrs" in annoAttrs ==>
              && |r| == |attrs|
              && forall j :: 0 <= j < |r| ==> Some(r[j]) == Get(attrs, Sort(Keys(attrs))[j])
    ensures "all_attrs" !in annoAttrs ==> |r| <= |annoAttrs|
  {
    if "all_attrs" in annoAttrs then
      var keys := Sort(Keys(attrs));
      assert (forall k :: k in keys ==> k in Keys(attrs)) && |keys| == |attrs| by {
        forall k | k in keys
          ensures k in Keys(attrs)
        {
          assert k in multiset(keys);
        }
      }
      ListedAllPresent(attrs, keys);
      Listed(attrs, keys)
    else Listed(attrs, annoAttrs)
  }

  /** `SentenceParser.get_annotations`: those values joined by the
      delimiter, with no leading delimiter. */
  function Annotations(attrs: Attrs, annoAttrs: seq<string>, delimiter: string): (r: string)
    ensures var values := AnnotationValues(attrs, annoAttrs);
            && (values == [] ==> r == "")
            && (values != [] ==> r == values[0] + Prefixed(delimiter, values[1..]))
  {
    var values := AnnotationValues(attrs, annoAttrs);
    assert values != [] ==> Join(delimiter, values) == values[0] + Prefixed(delimiter, values[1..]) by {
      if values != [] {
        JoinCons(delimiter, values);
      }
    }
    Join(delimiter, values)
  }

  /** The settings of one SentenceParser that the handlers read. */
  datatype Settings = Settings(annoAttrs: seq<string>, delimiter: string)

  /** The handlers' state: the token buffer `sentence` and the dictionary
      `sentences` from sentence id to (text, attributes). */
  datatype Acc = Acc(sentence: seq<string>, sentences: map<string, (string, Attrs)>)

  /** `parse_s` and `parse_s_raw`: the buffer (in raw mode first extended
      with the block's stripped text) is joined by single spaces and stored
      under the sentence id with the block's attributes; the buffer starts
      over empty. */
  function FinishSentence(mode: Mode, b: Block, sid: string, acc: Acc): (r: Acc)
    ensures r.sentence == []
    ensures r.sentences.Keys == acc.sentences.Keys + {sid}
    ensures forall k :: k in acc.sentences && k != sid ==> r.sentences[k] == acc.sentences[k]
    ensures r.sentences[sid].1 == b.attributes
    ensures r.sentences[sid].0 == Join(" ", acc.sentence + (if mode == Raw then [Strip(b.data)] else []))
  {
    var words := acc.sentence + (if mode == Raw then [Strip(b.data)] else []);
    Acc([], acc.sentences[sid := (Join(" ", words), b.attributes)])
  }

  /** The token an inline block adds to the buffer: `parse_time` renders a
      `time` block with `get_raw_tag`; `parse_w` takes a word's stripped
      text and `parse_w_parsed` puts the word's annotations behind it, each
      after one delimiter (see Findings.ParsedWordAsWritten). */
  function Token(h: Handler, s: Settings, b: Block): (r: string)
    ensures b.name == "time" ==> r == RawTag(b)
    ensures b.name == "w" && h.mode != Parsed ==> r == Strip(b.data)
    ensures b.name == "w" && h.mode == Parsed ==>
              r == Strip(b.data) + (if AnnotationValues(b.attributes, s.annoAttrs) == [] then ""
                                    else s.delimiter + Annotations(b.attributes, s.annoAttrs, s.delimiter))
  {
    if b.name == "time" then RawTag(b)
    else if h.mode == Parsed then
      var values := AnnotationValues(b.attributes, s.annoAttrs);
      PrefixedJoin(s.delimiter, values);
      Strip(b.data) + Prefixed(s.delimiter, values)
    else Strip(b.data)
  }

  /** `parse_w`, `parse_w_parsed` and `parse_time`: the block's token is
      appended when its nearest `s` (itself or an ancestor) exists and has
      an id in `idSet`; that `s` lacking an id raises KeyError; otherwise
      nothing changes. The dictionary never changes. */
  function Inline(h: Handler, s: Settings, blocks: seq<Block>, i: nat, acc: Acc, idSet: set<string>): (r: Result<Acc, Error>)
    requires Linked(blocks) && i < |blocks|
    ensures var p := TagInParents(blocks, i, "s");
            && (r.Failure? <==> p.Some? && "id" !in Keys(blocks[p.value].attributes))
            && (r.Failure? ==> r.error == KeyError("id"))
            && (r.Success? ==> r.value.sentences == acc.sentences)
            && (p.Some? && Get(blocks[p.value].attributes, "id").Some?
                && Get(blocks[p.value].attributes, "id").value in idSet
                ==> r == Success(acc.(sentence := acc.sentence + [Token(h, s, blocks[i])])))
            && (p.None? || (Get(blocks[p.value].attributes, "id").Some?
                            && Get(blocks[p.value].attributes, "id").value !in idSet)
                ==> r == Success(acc))
  {
    match TagInParents(blocks, i, "s")
    case None => Success(acc)
    case Some(p) =>
      match Get(blocks[p].attributes, "id")
      case None => Failure(KeyError("id"))
      case Some(pid) =>
        if pid in idSet then Success(acc.(sentence := acc.sentence + [Token(h, s, blocks[i])]))
        else Success(acc)
  }

  /** One of the six dispatchers `xml`, `raw`, `parsed`, `xml_preserve`,
      `raw_preserve` and `parsed_preserve`, applied to completed block `i`:
      an `s` block with an id in `idSet` finishes its sentence (an `s`
      without an id raises KeyError), a `w` block is an inline token except
      in raw mode, a `time` block one only when preserving, and every other
      block leaves the state as it was. */
  function Dispatch(h: Handler, s: Settings, blocks: seq<Block>, i: nat, acc: Acc, idSet: set<string>): (r: Result<Acc, Error>)
    requires Linked(blocks) && i < |blocks|
    ensures r.Failure? ==> r.error == KeyError("id")
    ensures blocks[i].name !in {"s", "w", "time"} ==> r == Success(acc)
    ensures blocks[i].name == "w" && h.mode == Raw ==> r == Success(acc)
    ensures blocks[i].name == "time" && !h.preserve ==> r == Success(acc)
    ensures (blocks[i].name == "w" && h.mode != Raw) || (blocks[i].name == "time" && h.preserve)
            ==> r == Inline(h, s, blocks, i, acc, idSet)
    ensures r.Success? ==> acc.sentences.Keys <= r.value.sentences.Keys
    ensures blocks[i].name == "s" ==>
              && (r.Failure? <==> "id" !in Keys(blocks[i].attributes))
              && (r.Failure? ==> r.error == KeyError("id"))
              && (Get(blocks[i].attributes, "id").Some? && Get(blocks[i].attributes, "id").value !in idSet
                  ==> r == Success(acc))
              && (Get(blocks[i].attributes, "id").Some? && Get(blocks[i].attributes, "id").value in idSet
                  ==> r == Success(FinishSentence(h.mode, blocks[i], Get(blocks[i].attributes, "id").value, acc)))
  {
    var b := blocks[i];
    if b.name == "s" then
      match Get(b.attributes, "id")
      case None => Failure(KeyError("id"))
      case Some(sid) => Success(if sid in idSet then FinishSentence(h.mode, b, sid, acc) else acc)
    else if (b.name == "w" && h.mode != Raw) || (b.name == "time" && h.preserve) then
      Inline(h, s, blocks, i, acc, idSet)
    else Success(acc)
  }

  /** `self.parse_block(...)`: the handler `parse_type` chose, or the
      TypeError of calling None when it chose none. */
  function Process(h: Option<Handler>, s: Settings, blocks: seq<Block>, i: nat, acc: Acc, idSet: set<string>): (r: Result<Acc, Error>)
    requires Linked(blocks) && i < |blocks|
    ensures h.None? ==> r == Failure(TypeError("'NoneType' object is not callable"))
    ensures h.Some? ==> r == Dispatch(h.value, s, blocks, i, acc, idSet)
  {
    match h
    case None => Failure(TypeError("'NoneType' object is not callable"))
    case Some(handler) => Dispatch(handler, s, blocks, i, acc, idSet)
  }

  /** The state after some blocks, and the error that stopped them if any
      (the state is then the one the failing block found). */
  datatype Stored = Stored(acc: Acc, error: Option<Error>)

  /** The handler applied to each block of one batch in turn, up to the
      first error. */
  function FoldBatch(h: Option<Handler>, s: Settings, blocks: seq<Block>, batch: seq<nat>, acc: Acc, idSet: set<string>): (r: Stored)
    requires Linked(blocks) && InArena(blocks, batch)
    ensures acc.sentences.Keys <= r.acc.sentences.Keys
    decreases |batch|
  {
    if batch == [] then Stored(acc, None)
    else
      match Process(h, s, blocks, batch[0], acc, idSet)
      case Failure(e) => Stored(acc, Some(e))
      case Success(next) => FoldBatch(h, s, blocks, batch[1..], next, idSet)
  }

  /** The text of the `SentenceParserError` that wraps a block parser's
      message. */
  function StoreErrorMessage(document: string, message: string): (r: string)
    ensures |r| >= 36 + |document| + |message| && r[34..34 + |document|] == document
    ensures r[|r| - |message|..] == message
  {
    "Error while parsing sentence file " + document + ": " + message
  }

  /** `store_sentences` over `lines`, from tree `t`: each line is parsed
      and its completed blocks are handed to the handler while the tree is
      as that line left it. A rejected line raises its parse error wrapped
      twice; a handler's error is raised as it is. Either way the dictionary
      keeps what earlier blocks stored. */
  function Store(document: string, dataTag: string, h: Option<Handler>, s: Settings,
                 t: Tree, acc: Acc, lines: seq<Line>, idSet: set<string>): (r: Stored)
    requires ValidTree(t)
    ensures acc.sentences.Keys <= r.acc.sentences.Keys
    decreases |lines|
  {
    if lines == [] then Stored(acc, None)
    else
      var step := Replay(dataTag, t, lines[0].events);
      if lines[0].error.Some? then
        Stored(acc, Some(SentenceParserError(
          StoreErrorMessage(document, ParseErrorMessage(document, lines[0].error.value)))))
      else
        var f := FoldBatch(h, s, step.tree.blocks, step.completed, acc, idSet);
        if f.error.Some? then f
        else Store(document, dataTag, h, s, step.tree, f.acc, lines[1..], idSet)
  }

  /** `SentenceParser`: the document's name, the annotation settings, the
      handler `parse_type` chose, the data tag, and the dictionary the
      handlers fill. */
  class SentenceParser {
    const document: string
    const settings: Settings
    const parseBlock: Option<Handler>
    const dataTag: string
    var sentences: map<string, (string, Attrs)>

    /** `SentenceParser(document, preprocessing, anno_attrs, delimiter,
        preserve)`: an empty dictionary, the handler for the preprocessing
        type and its data tag. */
    constructor (document: string, preprocessing: string := "", annoAttrs: seq<string> := ["all_attrs"],
                 delimiter: string := "|", preserve: bool := false)
      ensures this.document == document && settings == Settings(annoAttrs, delimiter)
      ensures parseBlock == ParseType(preprocessing, preserve) && dataTag == DataTagFor(preprocessing)
      ensures sentences == map[]
    {
      this.document := document;
      settings := Settings(annoAttrs, delimiter);
      parseBlock := ParseType(preprocessing, preserve);
      dataTag := DataTagFor(preprocessing);
      sentences := map[];
    }

    /** `store_sentences(id_set)`: a fresh BlockParser over the lines, each
        batch it hands over folded through the handler with a buffer that
        starts empty; the dictionary and the error are those Store gives. */
    method StoreSentences(lines: seq<Line>, idSet: set<string>) returns (err: Option<Error>)
      modifies this
      ensures var r := Store(document, dataTag, parseBlock, settings, InitialTree, Acc([], old(sentences)), lines, idSet);
              sentences == r.acc.sentences && err == r.error
    {
      var bp := new BlockParser(document, dataTag);
      ghost var total := Store(document, dataTag, parseBlock, settings, InitialTree, Acc([], sentences), lines, idSet);
      var sentence: seq<string> := [];
      var i := 0;
      while i < |lines|
        invariant 0 <= i <= |lines| && fresh(bp) && bp.Valid() && bp.completeBlocks == []
        invariant bp.document == document && bp.dataTag == dataTag
        invariant Store(document, dataTag, parseBlock, settings, bp.Snapshot(), Acc(sentence, sentences), lines[i..], idSet) == total
      {
        ghost var t0 := bp.Snapshot();
        ghost var step := Replay(dataTag, t0, lines[i].events);
        assert lines[i..][1..] == lines[i + 1..] && lines[i..][0] == lines[i];
        var batch := bp.NextBatch(lines[i]);
        if batch.Failure? {
          err := Some(SentenceParserError(StoreErrorMessage(document, batch.error)));
          return;
        }
        assert batch.value == step.completed && bp.Snapshot() == step.tree;
        sentence, err := HandleBatch(bp.blocks, batch.value, sentence, idSet);
        if err.Some? {
          return;
        }
        i := i + 1;
      }
      err := None;
    }

    /** The `for block in blocks` loop of `store_sentences`: the handler
        applied to each block of one batch, the buffer and the dictionary
        carried from block to block, up to the first error. */
    method HandleBatch(blocks: seq<Block>, batch: seq<nat>, sentence: seq<string>, idSet: set<string>)
      returns (next: seq<string>, err: Option<Error>)
      requires Linked(blocks) && InArena(blocks, batch)
      modifies this
      ensures var f := FoldBatch(parseBlock, settings, blocks, batch, Acc(sentence, old(sentences)), idSet);
              next == f.acc.sentence && sentences == f.acc.sentences && err == f.error
    {
      ghost var total := FoldBatch(parseBlock, settings, blocks, batch, Acc(sentence, sentences), idSet);
      next := sentence;
      var j := 0;
      while j < |batch|
        invariant 0 <= j <= |batch|
        invariant FoldBatch(parseBlock, settings, blocks, batch[j..], Acc(next, sentences), idSet) == total
      {
        assert batch[j..][1..] == batch[j + 1..];
        var res := Process(parseBlock, settings, blocks, batch[j], Acc(next, sentences), idSet);
        if res.Failure? {
          return next, Some(res.error);
        }
        next, sentences := res.value.sentence, res.value.sentences;
        j := j + 1;
      }
      err := None;
    }

    /** `get_sentence`: the stored pair, or an empty text with no
        attributes for an id never stored. */
    function GetSentence(sid: string): (r: (string, Attrs))
      reads this
      ensures sid in sentences ==> r == sentences[sid]
      ensures sid !in sentences ==> r == ("", [])
    {
      if sid in sentences then sentences[sid] else ("", [])
    }

    /** `read_sentence`: nothing for no ids or a first id of "", otherwise
        the texts and the attributes of the ids' sentences, transposed into
        two parallel sequences. */
    function ReadSentence(ids: seq<string>): (r: (seq<string>, seq<Attrs>))
      reads this
      ensures |ids| == 0 || ids[0] == "" ==> r == ([], [])
      ensures |ids| > 0 && ids[0] != "" ==>
                |r.0| == |ids| && |r.1| == |ids|
                && forall k :: 0 <= k < |ids| ==> (r.0[k], r.1[k]) == GetSentence(ids[k])
    {
      if |ids| == 0 || ids[0] == "" then ([], [])
      else (seq(|ids|, k requires 0 <= k < |ids| reads this => GetSentence(ids[k]).0),
            seq(|ids|, k requires 0 <= k < |ids| reads this => GetSentence(ids[k]).1))
    }
  }
}
