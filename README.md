# OpusTools block and sentence parsers, modelled in Dafny

This project models the core of OpusTools' sentence reader. It has two
parts:

- `opustools/parse/block_parser.py` is a streaming XML block builder. It
  reads an XML document line by line. The XML engine (expat) reports start
  tags, end tags and character data. For each start tag the builder adds a
  block under the current one. For each end tag it completes the current
  block, and it hands the completed blocks over line by line. Only the
  blocks named after a data tag collect character data.
- `opustools/parse/sentence_parser.py` is the sentence reconstructor. It
  folds the completed blocks through a handler. `parse_type` chooses the
  handler from the preprocessing type (`xml`, `raw` or `parsed`) and from
  whether inline `time` tags are preserved. Words (or a raw sentence's
  text) collect in a buffer. When an `s` element whose id was asked for
  ends, the buffer is joined with spaces and stored in a dictionary from
  sentence id to text and attributes.

Files:

| file | module | contents |
|---|---|---|
| `wrappers.dfy` | `Wrappers` | `Option` and `Result` |
| `text.dfy` | `Text` | `str.strip()`, `sep.join()`, `sorted()` on strings |
| `block_parser.dfy` | `Blocks` | blocks in an arena, the pure event semantics (`Handle`, `Replay`, `Stream`) and the `BlockParser` class whose methods are proved against them |
| `block_theory.dfy` | `BlockTheory` | the arena checked against a plain stack of open elements; independence from the line split; error behaviour |
| `tag_syntax.dfy` | `TagSyntax` | a reader for `get_raw_tag`'s output: what the rendering preserves and where it is ambiguous |
| `sentence_parser.dfy` | `Sentences` | the handlers, the reference fold `Store`, and the `SentenceParser` class whose loops are proved against it |
| `sentence_theory.dfy` | `SentenceTheory` | properties of annotations, of the dictionary and of errors; raw mode with preserved tags |
| `sentence_examples.dfy` | `SentenceExamples` | two documents of the test suite followed line by line through `store_sentences` |
| `findings.dfy` | `Findings` | the code as written where it differs from what it evidently means |

How the model represents the system:

- The blocks live in an arena, a `seq<Block>`. A parent is the index of an
  earlier block. The synthetic root is block 0.
- An input line is the list of events the engine reports for it, plus the
  engine's error message if it then rejects the line.
- `Handle`, `Replay` and `Stream` give the meaning of one event, one line
  and a sequence of lines. The `BlockParser` methods (`StartElement`,
  `EndElement`, `CharData`, `ParseLine`, `NextBatch`, `GetCompleteBlocks`)
  update the class fields in place and are proved to match them.
- `Sentences.Store` gives the meaning of `store_sentences`.
  `SentenceParser.StoreSentences` drives a real `BlockParser` over the
  lines, reassigns the `sentences` field block by block, and is proved to
  give what `Store` gives.

## Model

| member | source | states |
|---|---|---|
| Blocks.Keys | opustools_pkg/opustools/parse/sentence_parser.py:157 | the keys of an attribute mapping, one per pair, in insertion order |
| Blocks.Get | opustools_pkg/opustools/parse/sentence_parser.py:17 | a lookup is None exactly when the key is absent; a found value belongs to a pair with that key |
| Blocks.Path | opustools_pkg/opustools/parse/block_parser.py:34-39 | the parent chain from a block to the root runs from the root (index 0) down to the block; every member is at most the block's index |
| Blocks.AttrStrings | opustools_pkg/opustools/parse/block_parser.py:24-25 | one `k="v"` string per attribute, in mapping order |
| Blocks.RawTag | opustools_pkg/opustools/parse/block_parser.py:23-32 | the rendering starts with `<` and the block's name |
| TagSyntax.RawTagRoundTrip | opustools_pkg/opustools/parse/block_parser.py:23-32 | reading a rendering back gives the block's name, attributes in order and data, when the name has no space or `>`, no key has `=` or starts with `/`, no value has `"` and the data has no `<`; empty data renders as a self-closing tag |
| TagSyntax.RawTagInjective | opustools_pkg/opustools/parse/block_parser.py:23-32 | under those conditions, two blocks with the same rendering agree on name, attributes and data |
| TagSyntax.RawTagAmbiguous | opustools_pkg/opustools/parse/block_parser.py:24-26 | without them it is ambiguous: since nothing is escaped, a value holding `x" k2="y` renders exactly like two attributes |
| TagSyntax.ParseAttrsRoundTrip | opustools_pkg/opustools/parse/block_parser.py:24-26 | every readable attribute behind one space reads back as that attribute list, in order |
| TagSyntax.RawTagShape | opustools_pkg/opustools/parse/block_parser.py:26-32 | the rendering is `<`, the name, each attribute string behind one space, then ` />` or `>data</name>` |
| Blocks.TagInParents | opustools_pkg/opustools/parse/block_parser.py:34-39 | the result lies on the block's chain to the root, the block itself included, and has the tag; no block of the chain nearer the block has it; None exactly when no block of the chain has it |
| Blocks.Handle | opustools_pkg/opustools/parse/block_parser.py:65-78 | one engine event keeps the arena well-linked, with the current block inside it |
| Blocks.Replay | opustools_pkg/opustools/parse/block_parser.py:87-89 | a line's events keep the arena well-linked and never shrink it; exactly one completed block per end tag, each in the arena |
| Blocks.ParseErrorMessage | opustools_pkg/opustools/parse/block_parser.py:91-93 | the `BlockParserError` text holds the document name at a fixed offset and ends with the engine's message |
| Blocks.Stream | opustools_pkg/opustools/parse/block_parser.py:102-111 | `get_complete_blocks` over the lines always leaves a well-linked tree |
| Blocks.BlockParser.constructor | opustools_pkg/opustools/parse/block_parser.py:60-63 | a new parser holds the document and data tag, only the root block (current), and nothing pending |
| Blocks.BlockParser.StartElement | opustools_pkg/opustools/parse/block_parser.py:65-68 | a fresh block with the tag's name and attributes and no data is appended as a child of the current block and becomes current; nothing pending changes; this is `Handle` of a start event |
| Blocks.BlockParser.EndElement | opustools_pkg/opustools/parse/block_parser.py:70-73 | the current block is appended to the pending list and its parent becomes current, whatever the tag's name; this is `Handle` of an end event |
| Blocks.BlockParser.CharData | opustools_pkg/opustools/parse/block_parser.py:75-78 | the text is appended to the current block's data exactly when that block is named after the data tag; no other block, and nothing pending, changes |
| Blocks.BlockParser.ParseLine | opustools_pkg/opustools/parse/block_parser.py:84-93 | parsing a line leaves the tree `Replay` gives, and appends its completed blocks to the pending list; character data is handled only when a data tag is set; a rejected line yields the `BlockParserError` message |
| Blocks.BlockParser.NextBatch | opustools_pkg/opustools/parse/block_parser.py:107-111 | one line: a rejected line raises before anything is handed over; otherwise the pending blocks plus the line's completed blocks are handed over and the pending list is emptied |
| Blocks.BlockParser.GetCompleteBlocks | opustools_pkg/opustools/parse/block_parser.py:102-111 | the blocks yielded, the error raised, the final tree and the pending list are exactly those `Stream` gives |
| BlockTheory.OpenAfter | opustools_pkg/opustools/parse/block_parser.py:65-73 | the reference stack of open elements only holds ordinals of start tags seen |
| BlockTheory.ReplayShape | opustools_pkg/opustools/parse/block_parser.py:65-78 | from a fresh parser, the arena has the root plus one block per start tag, with that tag's name and attributes; the chain to the current block is the root plus the open elements in start order; the completed blocks are the reference's, in end-tag order |
| BlockTheory.OpenDepth | opustools_pkg/opustools/parse/block_parser.py:65-73 | in a nested stream the open elements number the start tags minus the end tags |
| BlockTheory.BalancedReturnsToRoot | opustools_pkg/opustools/parse/block_parser.py:70-73 | after as many end tags as start tags (never more), the root is current again |
| BlockTheory.RootNeverCompleted | opustools_pkg/opustools/parse/block_parser.py:70-73 | in a nested stream the root is never completed |
| BlockTheory.NoDataTagNoData | opustools_pkg/opustools/parse/block_parser.py:84-85 | without a data tag no character-data handler is installed, so no block ever gets data |
| BlockTheory.ReplayAppend | opustools_pkg/opustools/parse/block_parser.py:87-89 | replaying two event lists one after the other is replaying their concatenation; the completed blocks concatenate |
| BlockTheory.StreamChunkInvariant | opustools_pkg/opustools/parse/block_parser.py:102-111 | with no rejected line, the yielded blocks plus those still pending are the pending ones plus every block the events complete, in order; the tree is the replay of all events; nothing stays pending once a line was read |
| BlockTheory.StreamStopsAtError | opustools_pkg/opustools/parse/block_parser.py:87-111 | a rejected line stops the generator: the blocks yielded are exactly those the earlier lines completed, and the error names the document and carries the engine's message |
| BlockTheory.WholeDocument | opustools_pkg/opustools/parse/block_parser.py:102-111 | a fresh parser over a well-formed document yields one block per end tag, in end-tag order, never the root |
| BlockTheory.SplitInvariant | opustools_pkg/opustools/parse/block_parser.py:102-111 | two line splits of one event stream yield the same blocks |
| Text.Strip | opustools_pkg/opustools/parse/sentence_parser.py:25 | `str.strip()`: a contiguous slice of the input, with only whitespace cut on either side, that neither starts nor ends with whitespace |
| Text.StripIdempotent | opustools_pkg/opustools/parse/sentence_parser.py:34 | stripping twice is stripping once |
| Text.Join | opustools_pkg/opustools/parse/sentence_parser.py:18 | `sep.join(parts)`: as long as the parts together plus one separator between each two neighbours; it begins with the first part, with no separator in front |
| Text.JoinSnoc | opustools_pkg/opustools/parse/sentence_parser.py:18 | joining a buffer built by appends: the last part comes behind one separator |
| Text.JoinCons | opustools_pkg/opustools/parse/sentence_parser.py:157 | a join is the first part followed by each later part behind a separator |
| Text.Sort | opustools_pkg/opustools/parse/sentence_parser.py:157 | `sorted()` on strings: the result is sorted in code-point order and is a permutation of the input |
| Text.InsertSorted | opustools_pkg/opustools/parse/sentence_parser.py:157 | inserting into a sorted list keeps it sorted |
| Text.SortedUnique | opustools_pkg/opustools/parse/sentence_parser.py:157 | two sorted permutations of one multiset are equal |
| Text.SortPermutationInvariant | opustools_pkg/opustools/parse/sentence_parser.py:157 | sorting two permutations of one list gives the same list |
| Sentences.ParseType | opustools_pkg/opustools/parse/sentence_parser.py:97-110 | a handler exactly for `xml`, `raw` and `parsed`, for that type and with the given preserve flag; None for any other type |
| Sentences.DataTagFor | opustools_pkg/opustools/parse/sentence_parser.py:136 | the data tag is `s` exactly for `raw`, and `w` otherwise |
| Sentences.Listed | opustools_pkg/opustools/parse/sentence_parser.py:159 | at most one value per listed name, each the value of a listed attribute the block has; `SentenceTheory.ListedAppend` and `SentenceTheory.ListedSingle` fix which values and their order |
| Sentences.ListedAllPresent | opustools_pkg/opustools/parse/sentence_parser.py:159 | when every listed name is present, there is one value per name, and the value at each position is that of the name at that position |
| Sentences.AnnotationValues | opustools_pkg/opustools/parse/sentence_parser.py:155-159 | with `all_attrs`, one value per attribute, the value at each position being that of the key at that position in sorted key order; otherwise at most one value per listed name |
| Sentences.Annotations | opustools_pkg/opustools/parse/sentence_parser.py:155-159 | `get_annotations`: no values give `""`; otherwise the first value, then each later value behind one delimiter, with no delimiter in front |
| Sentences.FinishSentence | opustools_pkg/opustools/parse/sentence_parser.py:16-29 | the buffer empties; the id is added and no other entry changes; the entry holds the block's attributes and the buffer, extended in raw mode with the block's stripped data, joined by single spaces |
| Sentences.Token | opustools_pkg/opustools/parse/sentence_parser.py:31-50 | a `time` block's token is its `get_raw_tag()` rendering; a word's token is its stripped text; in parsed mode the annotations follow behind one delimiter when there are any |
| Sentences.Inline | opustools_pkg/opustools/parse/sentence_parser.py:31-50 | the block's token is appended exactly when its nearest `s` exists and has an id in the set; that `s` lacking an id raises `KeyError('id')`; otherwise the state is unchanged; the dictionary never changes |
| Sentences.Dispatch | opustools_pkg/opustools/parse/sentence_parser.py:53-95 | an `s` raises `KeyError('id')` exactly when it has no id, finishes its sentence when its id is asked for, and changes nothing otherwise; a `w` outside raw mode and a `time` under preserve are handled by `Inline`; in raw mode a `w` changes nothing; without preserve a `time` changes nothing; any other block changes nothing; no key is ever removed |
| Sentences.Process | opustools_pkg/opustools/parse/sentence_parser.py:131 | with no handler, the call raises the TypeError of calling None; otherwise it is the chosen dispatcher |
| Sentences.StoreErrorMessage | opustools_pkg/opustools/parse/sentence_parser.py:151-153 | the `SentenceParserError` text holds the document name at a fixed offset and ends with the block parser's message |
| Sentences.FoldBatch | opustools_pkg/opustools/parse/sentence_parser.py:146-148 | the handler over one batch of completed blocks never removes a key from the dictionary |
| Sentences.Store | opustools_pkg/opustools/parse/sentence_parser.py:138-153 | `store_sentences` over the lines never removes a key from the dictionary, whatever error stops it |
| Sentences.SentenceParser.constructor | opustools_pkg/opustools/parse/sentence_parser.py:115-136 | the source's default arguments; an empty dictionary, the handler `parse_type` chooses, the data tag for the preprocessing type, and the annotation settings |
| Sentences.SentenceParser.StoreSentences | opustools_pkg/opustools/parse/sentence_parser.py:138-153 | running a fresh block parser over the lines and folding each batch through the handler leaves the dictionary and raises the error that `Store` gives |
| Sentences.SentenceParser.HandleBatch | opustools_pkg/opustools/parse/sentence_parser.py:146-148 | the handler is applied to each block of a batch in turn, the buffer and dictionary carried along, stopping at the first error: the result is `FoldBatch`'s |
| Sentences.SentenceParser.GetSentence | opustools_pkg/opustools/parse/sentence_parser.py:162-164 | the stored pair for a stored id, otherwise an empty text with no attributes |
| Sentences.SentenceParser.ReadSentence | opustools_pkg/opustools/parse/sentence_parser.py:167-172 | nothing for no ids or a first id of `""`; otherwise two parallel sequences with the text and attributes of each id's sentence, in order |
| SentenceTheory.GetUnique | opustools_pkg/opustools/parse/sentence_parser.py:17 | in a mapping with unique keys, a pair's key looks up its value |
| SentenceTheory.GetPermutation | opustools_pkg/opustools/parse/sentence_parser.py:157-159 | two insertion orders of one mapping agree on every lookup |
| SentenceTheory.KeysPermutation | opustools_pkg/opustools/parse/sentence_parser.py:157 | two insertion orders of one mapping have the same keys, counted with multiplicity |
| SentenceTheory.ListedCongruent | opustools_pkg/opustools/parse/sentence_parser.py:159 | listing attributes only depends on the lookups of the listed names |
| SentenceTheory.AnnotationsOrderIndependent | opustools_pkg/opustools/parse/sentence_parser.py:155-159 | `get_annotations` gives the same string for any insertion order of the attributes, with `all_attrs` and without |
| SentenceTheory.ListedAppend | opustools_pkg/opustools/parse/sentence_parser.py:159 | listing two runs of names one after the other gives the values of the first run followed by those of the second: the values keep the names' order |
| SentenceTheory.ListedSingle | opustools_pkg/opustools/parse/sentence_parser.py:159 | one listed name gives its value when the block has that attribute, and nothing when it lacks it |
| SentenceTheory.ListedNonePresent | opustools_pkg/opustools/parse/sentence_parser.py:159 | when no listed name is present, there are no values |
| SentenceTheory.AnnotationsNonePresent | opustools_pkg/opustools/parse/sentence_parser.py:158-159 | without `all_attrs`, asking only for attributes the block lacks gives the empty string |
| SentenceTheory.ProcessStoredFrom | opustools_pkg/opustools/parse/sentence_parser.py:53-95 | one block changes at most the entry of an id in the set, and that entry's attributes carry the id |
| SentenceTheory.FoldStoredFrom | opustools_pkg/opustools/parse/sentence_parser.py:146-148 | the same holds for one batch |
| SentenceTheory.StoreStoredFrom | opustools_pkg/opustools/parse/sentence_parser.py:138-153 | the same holds for the whole document, whatever error stops it |
| SentenceTheory.StoreOnlySelected | opustools_pkg/opustools/parse/sentence_parser.py:138-153 | from a fresh parser the dictionary holds only ids of the set, each with attributes whose `id` is that key; an id no selected `s` gives (such as one absent from the document) gets no entry |
| SentenceTheory.FoldKeys | opustools_pkg/opustools/parse/sentence_parser.py:146-148 | a batch the handler takes without error adds exactly the ids of its selected `s` blocks to the keys |
| SentenceTheory.StoreKeys | opustools_pkg/opustools/parse/sentence_parser.py:138-153 | a document read without error ends with exactly the keys it started with plus the ids in the set carried by the `s` blocks it completes: from a fresh parser, the set's ids carried by `s` elements whose end tag the document reaches, and nothing else |
| SentenceTheory.SelectedBeforeErrorStored | opustools_pkg/opustools/parse/sentence_parser.py:138-153 | every selected `s` completed on the lines before a line `k`, where nothing raised, is a key after the whole run, even if a later line raises |
| SentenceTheory.FoldErrors | opustools_pkg/opustools/parse/sentence_parser.py:53-95 | a handler raises only `KeyError('id')` or a TypeError, never `SentenceParserError` |
| SentenceTheory.StoreParseErrorFromRejectedLine | opustools_pkg/opustools/parse/sentence_parser.py:151-153 | `SentenceParserError` is raised only for the first line the engine rejected, and its message wraps that line's block parser message |
| SentenceTheory.StoreRaisesFirstRejectedLine | opustools_pkg/opustools/parse/sentence_parser.py:144-153 | when earlier lines raise nothing, the first rejected line is re-raised as `SentenceParserError` naming the document and wrapping the block parser's message, and the dictionary keeps what the earlier lines stored |
| SentenceTheory.NoHandlerStoresNothing | opustools_pkg/opustools/parse/sentence_parser.py:97-110 | with an unknown preprocessing type nothing is ever stored, and the only errors are a TypeError or a parse error |
| SentenceTheory.ReplayRawOpen | opustools_pkg/opustools/parse/block_parser.py:65-78 | with data tag `s`, `<s>` then text gives a fresh current `s` block holding the text |
| SentenceTheory.ReplayRawTime | opustools_pkg/opustools/parse/block_parser.py:65-78 | a `<time/>` inside that `s` is a child block with no data that is completed at once, and the `s` block is current again |
| SentenceTheory.ReplayRawSentence | opustools_pkg/opustools/parse/block_parser.py:65-78 | for `<s>a<time/>b</s>` the `s` block holds `a + b`, and the time block is completed before the `s` block |
| SentenceTheory.RawTimeToken | opustools_pkg/opustools/parse/sentence_parser.py:46-50 | in raw mode with preserve, a completed `time` block whose parent is a selected `s` adds its rendering to the buffer |
| SentenceTheory.RawSentenceFinish | opustools_pkg/opustools/parse/sentence_parser.py:23-29 | in raw mode a selected `s` stores the buffer followed by its own stripped data, joined by a space |
| SentenceTheory.RawPreserveFold | opustools_pkg/opustools/parse/sentence_parser.py:81-86 | that batch stores the time tag's rendering in front of the sentence's stripped data |
| SentenceTheory.RawPreserveTimeFirst | opustools_pkg/opustools/parse/sentence_parser.py:81-86 | raw mode with preserve: for `<s>a<time/>b</s>` the stored text is the time tag's rendering, a space, then the stripped `a + b`, even though the tag stood inside the text |
| SentenceExamples.ElementLine | opustools_pkg/opustools/parse/block_parser.py:65-78 | a line holding one whole data-tag element adds one block with the element's text under the current block and completes it |
| SentenceExamples.XmlWord | opustools_pkg/opustools/parse/sentence_parser.py:31-36 | xml mode: a line holding a word of a selected sentence appends the word's stripped text to the buffer |
| SentenceExamples.XmlSentenceClose | opustools_pkg/opustools/parse/sentence_parser.py:16-21 | xml mode: the line closing a selected sentence stores the buffer, joined by spaces, under its id together with its attributes, and empties the buffer |
| SentenceExamples.XmlSentence | opustools_pkg/opustools/parse/sentence_parser.py:53-58 | xml mode: a whole sentence laid out like the test's `s1` stores its four stripped words joined by single spaces, with its attributes; the parser returns to the block it started from |
| SentenceExamples.XmlBooksSentence | opustools_pkg/tests/test_sentence_parser.py:39-48 | xml mode, asking for `s1`: the test's `s1` is stored as `Source : Project GutenbergTranslation` with its attributes (the expectation at lines 115-116) |
| SentenceExamples.RawSentenceLine | opustools_pkg/opustools/parse/sentence_parser.py:60-63 | raw mode: a one-line sentence is stored as its stripped text when its id is asked for, and changes nothing otherwise |
| SentenceExamples.RawMiddleSentence | opustools_pkg/opustools/parse/sentence_parser.py:60-63 | raw mode: of three one-line sentences, only the one whose id is asked for is stored |
| SentenceExamples.RawBookSentences | opustools_pkg/tests/test_sentence_parser.py:63-65 | raw mode, asking for `s2` and `0`: only `s2` is stored, as `Hunchback of Notre-Dame` with attributes `{'id': 's2'}`, and `0` gets no entry (the expectations at lines 147-149 and 166-167) |
| SentenceExamples.UnclosedSentenceDropped | opustools_pkg/opustools/parse/block_parser.py:87-110 | in raw mode a document whose last line opens an `s` and its text but never closes it raises nothing and stores nothing, even when the id is asked for: the engine is never told the input is over |
| Findings.TagInParentsAsWritten | opustools_pkg/opustools/parse/block_parser.py:34-39 | as written, the search either raises `NameError('block')` or returns None: it never returns a block |
| Findings.TagInParentsAsWrittenRaises | opustools_pkg/opustools/parse/block_parser.py:36-37 | as written, the search raises exactly when the intended one finds a block |
| Findings.WordInSentenceRaises | opustools_pkg/opustools/parse/block_parser.py:36-37 | a word directly inside a sentence: as written its search raises, while the intended one finds the sentence |
| Findings.ProcessAsWritten | opustools_pkg/opustools/parse/sentence_parser.py:147-148 | as written, every handler call raises a TypeError |
| Findings.ForPassAsWritten | opustools_pkg/opustools/parse/sentence_parser.py:145-148 | the first pass of the `for` loop as written never stores anything |
| Findings.ForPassAsWrittenOutcome | opustools_pkg/opustools/parse/sentence_parser.py:145-153 | that pass ends without error exactly when the block parser yields nothing and raises nothing; a yielded block raises the call's TypeError; otherwise the rejected line's `SentenceParserError` |
| Findings.StoreAsWritten | opustools_pkg/opustools/parse/sentence_parser.py:138-153 | `store_sentences` as written, with the `while blocks:` loop: whenever it ends it has stored nothing and raised an error |
| Findings.StoreAsWrittenStoresNothing | opustools_pkg/opustools/parse/sentence_parser.py:138-153 | as written: a yielded block raises TypeError; no yielded block and a rejected line raises `SentenceParserError`; no yielded block and no rejected line never returns, for any number of loop passes |
| Findings.ExtraArgumentLosesSentence | opustools_pkg/opustools/parse/sentence_parser.py:147-148 | for a one-line raw sentence the intended handlers store it, while the code as written raises TypeError on the first loop pass and stores nothing |
| Findings.WhileBlocksAsWritten | opustools_pkg/opustools/parse/sentence_parser.py:144-150 | the `while blocks:` loop around the intended handlers ends, if it ends, only by raising |
| Findings.WhileBlocksNeverEnds | opustools_pkg/opustools/parse/sentence_parser.py:144-150 | as written, the loop ends only by raising: when the intended fold ends without error, the loop has not ended after any number of passes |
| Findings.ParsedWordAsWritten | opustools_pkg/opustools/parse/sentence_parser.py:41-43 | as written, a parsed word's token is its stripped text immediately followed by the annotations |
| Findings.ParsedWordGlued | opustools_pkg/opustools/parse/sentence_parser.py:41-43 | for `pos="v"` with `anno_attrs=['pos']`, the token as written is the word glued to `v`, while the intended token has `\|` between them |
| Findings.ParsedWordDelimiter | opustools_pkg/opustools/parse/sentence_parser.py:41-43 | in general, the two tokens differ exactly by one delimiter in front of non-empty annotations |

## Left out

- The XML engine (expat) is foreign code. Each line is given as the events the engine reports for it and the error it raises after them. Entity decoding, the XML declaration and encodings are not modelled.
- An end tag with no open element never reaches the handlers, because the engine rejects it. For it, `Handle` keeps the root current, where Python would set the current block to None.
- The root block's attributes are None in the source. Here they are the empty list: the root is never rendered or matched.
- Blocks.RawTag: does not escape anything, which matches the source. Its one-line contract only fixes the start, and `TagSyntax.RawTagRoundTrip` carries the real property.
- `close_document` and `file_open` are not modelled: they are file I/O. For the same reason, the document is its name plus its lines.
- `Block.__str__` and `BlockParserError`/`SentenceParserError` as classes are not modelled; only their messages are.
- Iterator laziness is not modelled. `get_complete_blocks` is a generator in Python. Here it is driven to the end or to its error, and `Stream` gives the same blocks in the same order.
- `SentenceParser.done` is set and never read, so it is not modelled.
- Text.Strip: the whitespace set is the ASCII set of `str.isspace()`, because the model has no Unicode character database.
- Sentences.SentenceParser.ReadSentence: returns two sequences where Python returns a tuple of two tuples, from a `zip`.
- Sentences.ParseType: a preprocessing value of None is an unrecognised string here. `preserve` is a boolean, standing for Python truthiness.
- Sentences.SentenceParser.constructor: the defaults are those of the source, except that `preprocessing=None` becomes `""` and `preserve=None` becomes `false`.
- The test suite describes another revision of the code: a leading delimiter in annotations, and `sp.sentences(id_set)` returning pairs. Those expectations are not encoded. The examples follow `store_sentences` as it is in this revision, with the findings below corrected.
- The engine is never told that the input has ended, as in the source. An element still open when the lines run out raises nothing and is never completed. An `s` left open is therefore silently dropped.
- SentenceExamples: the examples start from a tree whose current block encloses the sentence. The whitespace between elements is abstract character data (`ind`, `nl`), which is dropped outside a data-tag block.

## Findings

| source | as written | input that shows it | evidently intended | confidence | as-written member | corrected member |
|---|---|---|---|---|---|---|
| opustools_pkg/opustools/parse/block_parser.py:36-37 | a matching block returns the unbound name `block` | any `w` inside an `s`: the lookup of `'s'` raises NameError | return the matching block itself | high (not executed) | Findings.TagInParentsAsWrittenRaises | Blocks.TagInParents |
| opustools_pkg/opustools/parse/sentence_parser.py:147-148 | the handler is called with five arguments (`bp` first), but every dispatcher takes four | any document with a completed block: the call raises TypeError and nothing is stored | call the dispatcher with `(block, sentence, self.sentences, id_set)` | high (not executed) | Findings.ExtraArgumentLosesSentence | Sentences.SentenceParser.StoreSentences |
| opustools_pkg/opustools/parse/sentence_parser.py:144-149 | `while blocks:` tests a generator object, which is always true | any well-formed document: after the last line every new generator is empty and the loop never ends | stop once the document is exhausted | high (not executed) | Findings.WhileBlocksNeverEnds | Sentences.SentenceParser.StoreSentences |
| opustools_pkg/opustools/parse/sentence_parser.py:41-43 | `data += get_annotations(block)` glues the first annotation to the word | word `Source` with `pos="NN"`, `anno_attrs=['pos']`: the token is `SourceNN` | one delimiter between the word and its annotations: `Source\|NN` | medium (not executed) | Findings.ParsedWordGlued | Sentences.Token |
