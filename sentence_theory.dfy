/** What the sentence reconstructor guarantees: annotations depend on the
    attribute mapping and not on its order, the dictionary only ever gains
    selected ids whose entries carry that id, the block parser's errors are
    the only ones re-raised as SentenceParserError, and in raw mode with
    preserved tags a sentence's time tags come before its own text. */
module SentenceTheory {
  import opened Wrappers
  import opened Text
  import opened Blocks
  import opened Sentences
  import opened BlockTheory

  /** A dictionary key names exactly one pair. */
  lemma {:induction false} GetUnique(a: Attrs, k: string, v: string)
    requires UniqueKeys(a) && (k, v) in a
    ensures Get(a, k) == Some(v)
  {
    if a[0] != (k, v) {
      var j :| 0 <= j < |a| && a[j] == (k, v);
      assert a[0].0 != k;
      assert UniqueKeys(a[1..]) && a[1..][j - 1] == (k, v);
      GetUnique(a[1..], k, v);
    }
  }

  /** A key the first order maps, the second maps to the same value. */
  lemma GetPermutationSome(a1: Attrs, a2: Attrs, k: string)
    requires UniqueKeys(a2) && multiset(a1) == multiset(a2) && Get(a1, k).Some?
    ensures Get(a2, k) == Get(a1, k)
  {
    var v := Get(a1, k).value;
    assert (k, v) in multiset(a2);
    GetUnique(a2, k, v);
  }

  /** Two orders of one mapping agree on every lookup. */
  lemma GetPermutation(a1: Attrs, a2: Attrs, k: string)
    requires UniqueKeys(a1) && UniqueKeys(a2) && multiset(a1) == multiset(a2)
    ensures Get(a1, k) == Get(a2, k)
  {
    if Get(a1, k).Some? {
      GetPermutationSome(a1, a2, k);
    } else if Get(a2, k).Some? {
      GetPermutationSome(a2, a1, k);
    }
  }

  lemma KeysAppend(a: Attrs, b: Attrs)
    ensures Keys(a + b) == Keys(a) + Keys(b)
  {
  }

  /** Two orders of one mapping have the same keys, counted with
      multiplicity. */
  lemma {:induction false} KeysPermutation(a1: Attrs, a2: Attrs)
    requires multiset(a1) == multiset(a2)
    ensures multiset(Keys(a1)) == multiset(Keys(a2))
    decreases |a1|
  {
    if a1 == [] {
      assert |a2| == |multiset(a2)| == 0;
    } else {
      var x := a1[0];
      assert x in multiset(a2);
      var j :| 0 <= j < |a2| && a2[j] == x;
      var rest := a2[..j] + a2[j + 1..];
      assert a2 == a2[..j] + [x] + a2[j + 1..];
      assert a1 == [x] + a1[1..];
      assert multiset(a2) == multiset(a2[..j]) + multiset{x} + multiset(a2[j + 1..]);
      assert multiset(rest) == multiset(a2[..j]) + multiset(a2[j + 1..]);
      assert multiset(a1) == multiset{x} + multiset(a1[1..]);
      assert multiset(a1[1..]) == multiset(a1) - multiset{x};
      assert multiset(rest) == multiset(a2) - multiset{x};
      KeysPermutation(a1[1..], rest);
      KeysAppend(a2[..j] + [x], a2[j + 1..]);
      KeysAppend(a2[..j], [x]);
      KeysAppend(a2[..j], a2[j + 1..]);
      assert Keys(a1) == [x.0] + Keys(a1[1..]);
    }
  }

  /** Listing attributes only looks them up. */
  lemma {:induction false} ListedCongruent(a1: Attrs, a2: Attrs, names: seq<string>)
    requires forall k :: k in names ==> Get(a1, k) == Get(a2, k)
    ensures Listed(a1, names) == Listed(a2, names)
  {
    if names != [] {
      assert names[0] in names;
      ListedCongruent(a1, a2, names[1..]);
    }
  }

  /** `get_annotations` does not depend on the order in which the
      attributes were inserted, in either branch. */
  lemma AnnotationsOrderIndependent(a1: Attrs, a2: Attrs, annoAttrs: seq<string>, delimiter: string)
    requires UniqueKeys(a1) && UniqueKeys(a2) && multiset(a1) == multiset(a2)
    ensures Annotations(a1, annoAttrs, delimiter) == Annotations(a2, annoAttrs, delimiter)
  {
    forall k {
      GetPermutation(a1, a2, k);
    }
    if "all_attrs" in annoAttrs {
      KeysPermutation(a1, a2);
      SortPermutationInvariant(Keys(a1), Keys(a2));
    }
    ListedCongruent(a1, a2, if "all_attrs" in annoAttrs then Sort(Keys(a1)) else annoAttrs);
  }

  /** Listing a concatenation of names lists each part in turn: the
      values keep the order of the names. */
  lemma {:induction false} ListedAppend(a: Attrs, n1: seq<string>, n2: seq<string>)
    ensures Listed(a, n1 + n2) == Listed(a, n1) + Listed(a, n2)
    decreases |n1|
  {
    if n1 != [] {
      assert (n1 + n2)[0] == n1[0] && (n1 + n2)[1..] == n1[1..] + n2;
      ListedAppend(a, n1[1..], n2);
    } else {
      assert n1 + n2 == n2;
    }
  }

  /** One name contributes its value when the block has it, and nothing
      otherwise. */
  lemma ListedSingle(a: Attrs, n: string)
    ensures Listed(a, [n]) == if n in Keys(a) then [Get(a, n).value] else []
  {
    assert [n][1..] == [];
  }

  /** Listing names none of which is present gives nothing. */
  lemma {:induction false} ListedNonePresent(a: Attrs, names: seq<string>)
    requires forall k :: k in names ==> k !in Keys(a)
    ensures Listed(a, names) == []
  {
    if names != [] {
      assert names[0] in names;
      ListedNonePresent(a, names[1..]);
    }
  }

  /** Without `all_attrs`, requesting only attributes the block lacks gives
      the empty string. */
  lemma AnnotationsNonePresent(attrs: Attrs, annoAttrs: seq<string>, delimiter: string)
    requires "all_attrs" !in annoAttrs
    requires forall a :: a in annoAttrs ==> a !in Keys(attrs)
    ensures Annotations(attrs, annoAttrs, delimiter) == ""
  {
    ListedNonePresent(attrs, annoAttrs);
  }

  /** Every entry of `m` is either an entry of `m0` left as it was, or the
      entry of a selected id whose attributes give that id. */
  ghost predicate StoredFrom(m0: map<string, (string, Attrs)>, m: map<string, (string, Attrs)>, idSet: set<string>)
  {
    forall k :: k in m ==> (k in m0 && m[k] == m0[k]) || (k in idSet && Get(m[k].1, "id") == Some(k))
  }

  lemma StoredFromTransitive(m0: map<string, (string, Attrs)>, m1: map<string, (string, Attrs)>,
                             m2: map<string, (string, Attrs)>, idSet: set<string>)
    requires StoredFrom(m0, m1, idSet) && StoredFrom(m1, m2, idSet)
    ensures StoredFrom(m0, m2, idSet)
  {
  }

  /** One block stores at most the sentence of a selected id, under the
      id its attributes give. */
  lemma ProcessStoredFrom(h: Option<Handler>, s: Settings, blocks: seq<Block>, i: nat, acc: Acc, idSet: set<string>)
    requires Linked(blocks) && i < |blocks|
    requires Process(h, s, blocks, i, acc, idSet).Success?
    ensures StoredFrom(acc.sentences, Process(h, s, blocks, i, acc, idSet).value.sentences, idSet)
  {
    var b := blocks[i];
    if b.name == "s" {
      var sid := Get(b.attributes, "id").value;
      if sid in idSet {
        var r := FinishSentence(h.value.mode, b, sid, acc);
        assert r.sentences[sid].1 == b.attributes;
      }
    } else if (b.name == "w" && h.value.mode != Raw) || (b.name == "time" && h.value.preserve) {
      assert Process(h, s, blocks, i, acc, idSet) == Inline(h.value, s, blocks, i, acc, idSet);
    }
  }

  /** The same over one batch. */
  lemma {:induction false} FoldStoredFrom(h: Option<Handler>, s: Settings, blocks: seq<Block>, batch: seq<nat>, acc: Acc, idSet: set<string>)
    requires Linked(blocks) && InArena(blocks, batch)
    ensures StoredFrom(acc.sentences, FoldBatch(h, s, blocks, batch, acc, idSet).acc.sentences, idSet)
    decreases |batch|
  {
    if batch != [] {
      var r := Process(h, s, blocks, batch[0], acc, idSet);
      if r.Success? {
        ProcessStoredFrom(h, s, blocks, batch[0], acc, idSet);
        FoldStoredFrom(h, s, blocks, batch[1..], r.value, idSet);
        StoredFromTransitive(acc.sentences, r.value.sentences,
                             FoldBatch(h, s, blocks, batch[1..], r.value, idSet).acc.sentences, idSet);
      }
    }
  }

  /** The same over the document, whatever error stops it. */
  lemma {:induction false} StoreStoredFrom(document: string, dataTag: string, h: Option<Handler>, s: Settings,
                                           t: Tree, acc: Acc, lines: seq<Line>, idSet: set<string>)
    requires ValidTree(t)
    ensures StoredFrom(acc.sentences, Store(document, dataTag, h, s, t, acc, lines, idSet).acc.sentences, idSet)
    decreases |lines|
  {
    if lines != [] && lines[0].error.None? {
      var step := Replay(dataTag, t, lines[0].events);
      var f := FoldBatch(h, s, step.tree.blocks, step.completed, acc, idSet);
      FoldStoredFrom(h, s, step.tree.blocks, step.completed, acc, idSet);
      if f.error.None? {
        StoreStoredFrom(document, dataTag, h, s, step.tree, f.acc, lines[1..], idSet);
        StoredFromTransitive(acc.sentences, f.acc.sentences,
                             Store(document, dataTag, h, s, step.tree, f.acc, lines[1..], idSet).acc.sentences, idSet);
      }
    }
  }

  /** From a fresh parser, the dictionary holds only ids of `idSet`, each
      with attributes whose `id` is that key: an id the document never
      gives a selected `s` (such as one absent from it) gets no entry. */
  lemma StoreOnlySelected(document: string, dataTag: string, h: Option<Handler>, s: Settings,
                          lines: seq<Line>, idSet: set<string>)
    ensures var m := Store(document, dataTag, h, s, InitialTree, Acc([], map[]), lines, idSet).acc.sentences;
            forall k :: k in m ==> k in idSet && Get(m[k].1, "id") == Some(k)
  {
    StoreStoredFrom(document, dataTag, h, s, InitialTree, Acc([], map[]), lines, idSet);
  }

  /** The id a completed block selects: that of an `s` block whose id is
      in `idSet`. */
  function SelectedId(b: Block, idSet: set<string>): (r: set<string>)
    ensures r <= idSet
  {
    match Get(b.attributes, "id")
    case Some(sid) => if b.name == "s" && sid in idSet then {sid} else {}
    case None => {}
  }

  /** The ids the blocks of one batch select. */
  function BatchIds(blocks: seq<Block>, batch: seq<nat>, idSet: set<string>): (r: set<string>)
    requires InArena(blocks, batch)
    ensures r <= idSet
    decreases |batch|
  {
    if batch == [] then {}
    else SelectedId(blocks[batch[0]], idSet) + BatchIds(blocks, batch[1..], idSet)
  }

  /** The ids selected by the `s` blocks the block parser completes, line by
      line, up to the first line the engine rejects. */
  function SelectedIds(dataTag: string, t: Tree, lines: seq<Line>, idSet: set<string>): (r: set<string>)
    requires ValidTree(t)
    ensures r <= idSet
    decreases |lines|
  {
    if lines == [] || lines[0].error.Some? then {}
    else
      var step := Replay(dataTag, t, lines[0].events);
      BatchIds(step.tree.blocks, step.completed, idSet) + SelectedIds(dataTag, step.tree, lines[1..], idSet)
  }

  /** A batch the handler takes without error adds exactly the ids its
      blocks select to the dictionary's keys. */
  lemma {:induction false} FoldKeys(h: Option<Handler>, s: Settings, blocks: seq<Block>, batch: seq<nat>, acc: Acc, idSet: set<string>)
    requires Linked(blocks) && InArena(blocks, batch)
    requires FoldBatch(h, s, blocks, batch, acc, idSet).error.None?
    ensures FoldBatch(h, s, blocks, batch, acc, idSet).acc.sentences.Keys
            == acc.sentences.Keys + BatchIds(blocks, batch, idSet)
    decreases |batch|
  {
    if batch != [] {
      var b := blocks[batch[0]];
      var r := Process(h, s, blocks, batch[0], acc, idSet);
      assert r.Success?;
      assert r.value.sentences.Keys == acc.sentences.Keys + SelectedId(b, idSet) by {
        if b.name == "s" {
          var sid := Get(b.attributes, "id").value;
          if sid in idSet {
            assert r.value == FinishSentence(h.value.mode, b, sid, acc);
          }
        } else if (b.name == "w" && h.value.mode != Raw) || (b.name == "time" && h.value.preserve) {
          assert r == Inline(h.value, s, blocks, batch[0], acc, idSet);
        }
      }
      FoldKeys(h, s, blocks, batch[1..], r.value, idSet);
    }
  }

  /** Every selected `s` block completed on the lines before line `k`, where
      neither the engine nor a handler raised, is in the dictionary after
      the whole document, whatever happens after line `k`. */
  lemma {:induction false} SelectedBeforeErrorStored(document: string, dataTag: string, h: Option<Handler>, s: Settings,
                                                     t: Tree, acc: Acc, lines: seq<Line>, idSet: set<string>, k: nat)
    requires ValidTree(t) && k <= |lines|
    requires Store(document, dataTag, h, s, t, acc, lines[..k], idSet).error.None?
    ensures acc.sentences.Keys + SelectedIds(dataTag, t, lines[..k], idSet)
            <= Store(document, dataTag, h, s, t, acc, lines, idSet).acc.sentences.Keys
    decreases k
  {
    if k > 0 {
      assert lines[..k][0] == lines[0] && lines[..k][1..] == lines[1..][..k - 1];
      var step := Replay(dataTag, t, lines[0].events);
      var f := FoldBatch(h, s, step.tree.blocks, step.completed, acc, idSet);
      FoldKeys(h, s, step.tree.blocks, step.completed, acc, idSet);
      SelectedBeforeErrorStored(document, dataTag, h, s, step.tree, f.acc, lines[1..], idSet, k - 1);
    }
  }

  /** A document the engine and the handler take without error leaves in
      the dictionary exactly the keys it had and the ids its completed `s`
      blocks select: from a fresh parser, every id of `idSet` carried by an
      `s` element whose end tag the document reaches, and nothing else. An
      `s` left open when the lines run out is never completed, so its id
      is not stored (see `SentenceExamples.UnclosedSentenceDropped`). */
  lemma {:induction false} StoreKeys(document: string, dataTag: string, h: Option<Handler>, s: Settings,
                                     t: Tree, acc: Acc, lines: seq<Line>, idSet: set<string>)
    requires ValidTree(t)
    requires Store(document, dataTag, h, s, t, acc, lines, idSet).error.None?
    ensures Store(document, dataTag, h, s, t, acc, lines, idSet).acc.sentences.Keys
            == acc.sentences.Keys + SelectedIds(dataTag, t, lines, idSet)
    decreases |lines|
  {
    if lines != [] {
      var step := Replay(dataTag, t, lines[0].events);
      var f := FoldBatch(h, s, step.tree.blocks, step.completed, acc, idSet);
      FoldKeys(h, s, step.tree.blocks, step.completed, acc, idSet);
      StoreKeys(document, dataTag, h, s, step.tree, f.acc, lines[1..], idSet);
    }
  }

  /** The first line the engine rejects, after earlier lines whose blocks
      the handler took without error, is re-raised as SentenceParserError
      carrying the document name and the block parser's message; the
      dictionary keeps what those earlier lines stored. */
  lemma {:induction false} StoreRaisesFirstRejectedLine(document: string, dataTag: string, h: Option<Handler>, s: Settings,
                                                        t: Tree, acc: Acc, lines: seq<Line>, idSet: set<string>, k: nat)
    requires ValidTree(t) && k < |lines| && lines[k].error.Some?
    requires forall j :: 0 <= j < k ==> lines[j].error.None?
    requires Store(document, dataTag, h, s, t, acc, lines[..k], idSet).error.None?
    ensures Store(document, dataTag, h, s, t, acc, lines, idSet)
            == Stored(Store(document, dataTag, h, s, t, acc, lines[..k], idSet).acc,
                      Some(SentenceParserError(StoreErrorMessage(document, ParseErrorMessage(document, lines[k].error.value)))))
    decreases k
  {
    if k > 0 {
      assert lines[..k][0] == lines[0] && lines[..k][1..] == lines[1..][..k - 1];
      assert lines[0].error.None?;
      assert forall j :: 0 <= j < k - 1 ==> lines[1..][j] == lines[j + 1];
      var step := Replay(dataTag, t, lines[0].events);
      var f := FoldBatch(h, s, step.tree.blocks, step.completed, acc, idSet);
      StoreRaisesFirstRejectedLine(document, dataTag, h, s, step.tree, f.acc, lines[1..], idSet, k - 1);
    }
  }

  /** A handler never raises SentenceParserError. */
  lemma {:induction false} FoldErrors(h: Option<Handler>, s: Settings, blocks: seq<Block>, batch: seq<nat>, acc: Acc, idSet: set<string>)
    requires Linked(blocks) && InArena(blocks, batch)
    ensures var e := FoldBatch(h, s, blocks, batch, acc, idSet).error;
            e.Some? ==> e.value == KeyError("id") || e.value.TypeError?
    decreases |batch|
  {
    if batch != [] {
      var r := Process(h, s, blocks, batch[0], acc, idSet);
      if r.Success? {
        FoldErrors(h, s, blocks, batch[1..], r.value, idSet);
      }
    }
  }

  /** `store_sentences` raises SentenceParserError only for a line the
      engine rejected, carrying the document name and the engine's message
      inside the block parser's message. */
  lemma {:induction false} StoreParseErrorFromRejectedLine(document: string, dataTag: string, h: Option<Handler>, s: Settings,
                                                           t: Tree, acc: Acc, lines: seq<Line>, idSet: set<string>)
    requires ValidTree(t)
    ensures var e := Store(document, dataTag, h, s, t, acc, lines, idSet).error;
            e.Some? && e.value.SentenceParserError? ==>
              exists k :: 0 <= k < |lines| && lines[k].error.Some?
                          && (forall j :: 0 <= j < k ==> lines[j].error.None?)
                          && e.value.message == StoreErrorMessage(document, ParseErrorMessage(document, lines[k].error.value))
    decreases |lines|
  {
    if lines != [] && lines[0].error.None? {
      var step := Replay(dataTag, t, lines[0].events);
      var f := FoldBatch(h, s, step.tree.blocks, step.completed, acc, idSet);
      FoldErrors(h, s, step.tree.blocks, step.completed, acc, idSet);
      if f.error.None? {
        StoreParseErrorFromRejectedLine(document, dataTag, h, s, step.tree, f.acc, lines[1..], idSet);
        var e := Store(document, dataTag, h, s, step.tree, f.acc, lines[1..], idSet).error;
        if e.Some? && e.value.SentenceParserError? {
          var k :| 0 <= k < |lines[1..]| && lines[1..][k].error.Some?
                   && (forall j :: 0 <= j < k ==> lines[1..][j].error.None?)
                   && e.value.message == StoreErrorMessage(document, ParseErrorMessage(document, lines[1..][k].error.value));
          assert lines[k + 1] == lines[1..][k];
          assert forall j :: 1 <= j < k + 1 ==> lines[j] == lines[1..][j - 1];
        }
      }
    }
  }

  /** With no handler (an unknown preprocessing type) nothing is ever
      stored: the first completed block raises TypeError. */
  lemma {:induction false} NoHandlerStoresNothing(document: string, dataTag: string, s: Settings,
                                                  t: Tree, acc: Acc, lines: seq<Line>, idSet: set<string>)
    requires ValidTree(t)
    ensures var r := Store(document, dataTag, None, s, t, acc, lines, idSet);
            r.acc.sentences == acc.sentences
            && (r.error.Some? ==> r.error.value.TypeError? || r.error.value.SentenceParserError?)
    decreases |lines|
  {
    if lines != [] && lines[0].error.None? {
      var step := Replay(dataTag, t, lines[0].events);
      var f := FoldBatch(None, s, step.tree.blocks, step.completed, acc, idSet);
      if f.error.None? {
        assert step.completed == [] && f.acc == acc;
        NoHandlerStoresNothing(document, dataTag, s, step.tree, acc, lines[1..], idSet);
      }
    }
  }

  /** `<s id=sid>a` from any tree: a fresh current `s` block holding `a`. */
  lemma ReplayRawOpen(t: Tree, sattrs: Attrs, a: string, events: seq<Event>)
    requires ValidTree(t) && events == [Start("s", sattrs), Chars(a)]
    ensures Replay("s", t, events)
            == Step(Tree(t.blocks + [Block(Some(t.current), "s", a, sattrs)] + [], |t.blocks|), [])
  {
    var pre := t.blocks;
    var s0 := Block(Some(t.current), "s", "", sattrs);
    var e1 := [Start("s", sattrs)];
    ReplaySnoc("s", t, [], Start("s", sattrs));
    assert [] + [Start("s", sattrs)] == e1;
    assert pre + [s0] == pre + [s0] + [];
    assert Replay("s", t, e1) == Step(Tree(pre + [s0] + [], |pre|), []);
    ReplaySnoc("s", t, e1, Chars(a));
    HandleCharsAt("s", pre, s0, [], a);
    assert "" + a == a;
    assert e1 + [Chars(a)] == events;
  }

  /** Then `<time .../>`: a child `time` block with no data, completed, and
      the `s` block current again. */
  lemma ReplayRawTime(t: Tree, sattrs: Attrs, a: string, tattrs: Attrs, prefix: seq<Event>, events: seq<Event>)
    requires ValidTree(t) && prefix == [Start("s", sattrs), Chars(a)]
    requires events == prefix + [Start("time", tattrs), End("time")]
    ensures var n := |t.blocks|;
            Replay("s", t, events)
            == Step(Tree(t.blocks + [Block(Some(t.current), "s", a, sattrs)] + [Block(Some(n), "time", "", tattrs)], n), [n + 1])
  {
    var pre := t.blocks;
    var n := |pre|;
    var sa := Block(Some(t.current), "s", a, sattrs);
    var time := Block(Some(n), "time", "", tattrs);
    ReplayRawOpen(t, sattrs, a, prefix);
    var e3 := prefix + [Start("time", tattrs)];
    ReplaySnoc("s", t, prefix, Start("time", tattrs));
    assert (pre + [sa] + []) + [time] == pre + [sa] + [time];
    assert Replay("s", t, e3) == Step(Tree(pre + [sa] + [time], n + 1), []);
    ReplaySnoc("s", t, e3, End("time"));
    assert (pre + [sa] + [time])[n + 1] == time;
    assert e3 + [End("time")] == events;
  }

  /** The events of `<s id=sid>a<time .../>b</s>` from any tree: the `s`
      block gets all of `a + b` as data, the `time` block none, the time
      block completes before the `s`, and the current block is back where
      it was. */
  lemma ReplayRawSentence(t: Tree, sattrs: Attrs, a: string, tattrs: Attrs, b: string, events: seq<Event>)
    requires ValidTree(t)
    requires events == [Start("s", sattrs), Chars(a), Start("time", tattrs), End("time"), Chars(b), End("s")]
    ensures var n := |t.blocks|;
            Replay("s", t, events)
            == Step(Tree(t.blocks + [Block(Some(t.current), "s", a + b, sattrs), Block(Some(n), "time", "", tattrs)],
                         t.current),
                    [n + 1, n])
  {
    var pre := t.blocks;
    var n := |pre|;
    var sa := Block(Some(t.current), "s", a, sattrs);
    var sab := sa.(data := a + b);
    var time := Block(Some(n), "time", "", tattrs);
    var e2 := [Start("s", sattrs), Chars(a)];
    var e4 := e2 + [Start("time", tattrs), End("time")];
    ReplayRawTime(t, sattrs, a, tattrs, e2, e4);
    ReplaySnoc("s", t, e4, Chars(b));
    HandleCharsAt("s", pre, sa, [time], b);
    var e5 := e4 + [Chars(b)];
    assert Replay("s", t, e5) == Step(Tree(pre + [sab] + [time], n), [n + 1]);
    ReplaySnoc("s", t, e5, End("s"));
    assert (pre + [sab] + [time])[n] == sab;
    assert pre + [sab] + [time] == pre + [sab, time];
    assert e5 + [End("s")] == events;
  }

  /** In raw mode with preserved tags a completed `time` block whose
      parent is a selected `s` adds its rendering to the buffer. */
  lemma RawTimeToken(s: Settings, blocks: seq<Block>, time: Block, sentence: seq<string>,
                     m: map<string, (string, Attrs)>, idSet: set<string>)
    requires Linked(blocks) && |blocks| >= 2 && blocks[|blocks| - 1] == time
    requires blocks[|blocks| - 2].name == "s" && time.name == "time" && time.parent == Some(|blocks| - 2)
    requires Get(blocks[|blocks| - 2].attributes, "id").Some? && Get(blocks[|blocks| - 2].attributes, "id").value in idSet
    ensures Process(Some(Handler(Raw, true)), s, blocks, |blocks| - 1, Acc(sentence, m), idSet)
            == Success(Acc(sentence + [RawTag(time)], m))
  {
    assert TagInParents(blocks, |blocks| - 1, "s") == Some(|blocks| - 2);
    assert Token(Handler(Raw, true), s, time) == RawTag(time);
  }

  /** In raw mode a selected `s` block stores the buffer followed by its
      own stripped data, joined by spaces. */
  lemma RawSentenceFinish(s: Settings, blocks: seq<Block>, i: nat, token: string,
                          m: map<string, (string, Attrs)>, idSet: set<string>)
    requires Linked(blocks) && i < |blocks| && blocks[i].name == "s"
    requires Get(blocks[i].attributes, "id").Some? && Get(blocks[i].attributes, "id").value in idSet
    ensures var b := blocks[i];
            Process(Some(Handler(Raw, true)), s, blocks, i, Acc([token], m), idSet)
            == Success(Acc([], m[Get(b.attributes, "id").value := (token + " " + Strip(b.data), b.attributes)]))
  {
    var words := [token, Strip(blocks[i].data)];
    assert [token] + [Strip(blocks[i].data)] == words;
    assert words[1..] == [Strip(blocks[i].data)];
    assert Join(" ", words) == token + " " + Strip(blocks[i].data);
  }

  /** The handler side of raw mode with preserved tags: a batch that
      completes a `time` child and then its selected `s` parent stores the
      time tag's rendering in front of the sentence's stripped data. */
  lemma RawPreserveFold(s: Settings, blocks: seq<Block>, sBlock: Block, time: Block,
                        m: map<string, (string, Attrs)>, idSet: set<string>)
    requires Linked(blocks) && |blocks| >= 2
    requires blocks[|blocks| - 2] == sBlock && blocks[|blocks| - 1] == time
    requires sBlock.name == "s" && time.name == "time" && time.parent == Some(|blocks| - 2)
    requires Get(sBlock.attributes, "id").Some? && Get(sBlock.attributes, "id").value in idSet
    ensures FoldBatch(Some(Handler(Raw, true)), s, blocks, [|blocks| - 1, |blocks| - 2], Acc([], m), idSet)
            == Stored(Acc([], m[Get(sBlock.attributes, "id").value := (RawTag(time) + " " + Strip(sBlock.data), sBlock.attributes)]), None)
  {
    var n := |blocks| - 2;
    var h := Some(Handler(Raw, true));
    var sid := Get(sBlock.attributes, "id").value;
    var acc1 := Acc([RawTag(time)], m);
    var acc2 := Acc([], m[sid := (RawTag(time) + " " + Strip(sBlock.data), sBlock.attributes)]);
    RawTimeToken(s, blocks, time, [], m, idSet);
    assert [] + [RawTag(time)] == [RawTag(time)];
    RawSentenceFinish(s, blocks, n, RawTag(time), m, idSet);
    assert [n + 1, n][1..] == [n] && [n][1..] == [];
    assert FoldBatch(h, s, blocks, [n], acc1, idSet) == FoldBatch(h, s, blocks, [], acc2, idSet);
    assert FoldBatch(h, s, blocks, [n + 1, n], Acc([], m), idSet) == FoldBatch(h, s, blocks, [n], acc1, idSet);
  }

  /** Raw mode with preserved tags: for `<s id=sid>a<time .../>b</s>` the
      time tag completes first, so its rendering comes before the
      sentence's stripped text, which is all the character data directly
      inside the `s`; the time tag has no data and renders as `<time ... />`. */
  lemma RawPreserveTimeFirst(s: Settings, t: Tree, sattrs: Attrs, a: string, tattrs: Attrs, b: string,
                             events: seq<Event>, m: map<string, (string, Attrs)>, idSet: set<string>)
    requires ValidTree(t)
    requires events == [Start("s", sattrs), Chars(a), Start("time", tattrs), End("time"), Chars(b), End("s")]
    requires Get(sattrs, "id").Some? && Get(sattrs, "id").value in idSet
    ensures var step := Replay("s", t, events);
            var time := Block(Some(|t.blocks|), "time", "", tattrs);
            FoldBatch(Some(Handler(Raw, true)), s, step.tree.blocks, step.completed, Acc([], m), idSet)
            == Stored(Acc([], m[Get(sattrs, "id").value := (RawTag(time) + " " + Strip(a + b), sattrs)]), None)
  {
    ReplayRawSentence(t, sattrs, a, tattrs, b, events);
    var step := Replay("s", t, events);
    var n := |t.blocks|;
    var sBlock := Block(Some(t.current), "s", a + b, sattrs);
    var time := Block(Some(n), "time", "", tattrs);
    var blocks := t.blocks + [sBlock, time];
    assert step.tree.blocks == blocks && step.completed == [n + 1, n];
    RawPreserveFold(s, blocks, sBlock, time, m, idSet);
  }
}
