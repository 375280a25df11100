/** What the block builder guarantees over a whole event stream, proved
    against a reference definition that replays the events on a plain stack
    of element ordinals (the `k`-th start tag opens element `k`), with no
    arena and no parent links. */
module BlockTheory {
  import opened Wrappers
  import opened Blocks

  /** The name and attributes of every start tag, in order. */
  function Started(events: seq<Event>): seq<(string, Attrs)>
  {
    if events == [] then []
    else
      var e := events[|events| - 1];
      Started(events[..|events| - 1]) + (if e.Start? then [(e.name, e.attrs)] else [])
  }

  /** The reference stack: the ordinals of the elements started and not
      yet ended, in start order. An end tag with nothing open leaves it
      empty. */
  function OpenAfter(events: seq<Event>): (r: seq<nat>)
    ensures forall x :: x in r ==> 1 <= x <= |Started(events)|
  {
    if events == [] then []
    else
      var prefix := events[..|events| - 1];
      var before := OpenAfter(prefix);
      assert |Started(prefix)| <= |Started(events)|;
      match events[|events| - 1]
      case Start(_, _) => before + [|Started(prefix)| + 1]
      case End(_) =>
        if before == [] then []
        else
          var r := before[..|before| - 1];
          assert forall x :: x in r ==> 1 <= x <= |Started(events)| by {
            forall x | x in r ensures 1 <= x <= |Started(events)| {
              var i :| 0 <= i < |r| && r[i] == x;
              assert before[i] == x && before[i] in before;
            }
          }
          r
      case Chars(_) => before
  }

  /** The reference order of completion: the ordinal on top of the stack at
      each end tag (0, the root, for an end tag with nothing open). */
  function ClosedBy(events: seq<Event>): seq<nat>
  {
    if events == [] then []
    else
      var prefix := events[..|events| - 1];
      ClosedBy(prefix)
      + match events[|events| - 1]
        case End(_) => var open := OpenAfter(prefix); [if open == [] then 0 else open[|open| - 1]]
        case _ => []
  }

  /** What expat guarantees: no end tag arrives while no element is open. */
  predicate Nested(events: seq<Event>)
  {
    events == []
    || (var prefix := events[..|events| - 1];
        Nested(prefix) && (events[|events| - 1].End? ==> OpenAfter(prefix) != []))
  }

  /** Two arenas that agree on the parents of their common prefix agree on
      its chains. */
  lemma {:induction false} PathFrame(b1: seq<Block>, b2: seq<Block>, i: nat)
    requires Linked(b1) && Linked(b2) && i < |b1| <= |b2|
    requires forall j :: 0 <= j < |b1| ==> b2[j].parent == b1[j].parent
    ensures Path(b2, i) == Path(b1, i)
    decreases i
  {
    match b1[i].parent {
      case None =>
      case Some(p) => PathFrame(b1, b2, p);
    }
  }

  /** The shape of the arena after `events` from a fresh parser: one block
      per start tag, carrying that tag's name and attributes; the root still
      named "root"; the chain from the root to `current_block` is the root
      followed by the open elements in start order; and the blocks completed
      are the reference's, in order. */
  ghost predicate Shaped(r: Step, events: seq<Event>)
  {
    && ValidTree(r.tree)
    && |r.tree.blocks| == |Started(events)| + 1
    && r.tree.blocks[0].name == "root"
    && (forall k :: 1 <= k < |r.tree.blocks| ==>
          r.tree.blocks[k].name == Started(events)[k - 1].0
          && r.tree.blocks[k].attributes == Started(events)[k - 1].1)
    && Path(r.tree.blocks, r.tree.current) == [0] + OpenAfter(events)
    && r.completed == ClosedBy(events)
  }

  lemma ShapeStart(dataTag: string, r: Step, events: seq<Event>, name: string, attrs: Attrs)
    requires Shaped(r, events)
    ensures var h := Handle(dataTag, r.tree, Start(name, attrs));
            Shaped(Step(h.tree, r.completed + h.completed), events + [Start(name, attrs)])
  {
    var all := events + [Start(name, attrs)];
    assert all[..|all| - 1] == events;
    var t := r.tree;
    var h := Handle(dataTag, t, Start(name, attrs));
    var n := |t.blocks|;
    assert Started(all) == Started(events) + [(name, attrs)];
    assert OpenAfter(all) == OpenAfter(events) + [n];
    assert ClosedBy(all) == ClosedBy(events);
    PathFrame(t.blocks, h.tree.blocks, t.current);
    assert Path(h.tree.blocks, n) == Path(h.tree.blocks, t.current) + [n];
  }

  lemma ShapeEnd(dataTag: string, r: Step, events: seq<Event>, name: string)
    requires Shaped(r, events)
    ensures var h := Handle(dataTag, r.tree, End(name));
            Shaped(Step(h.tree, r.completed + h.completed), events + [End(name)])
  {
    var all := events + [End(name)];
    assert all[..|all| - 1] == events;
    var t := r.tree;
    var open := OpenAfter(events);
    var path := Path(t.blocks, t.current);
    assert Started(all) == Started(events);
    if open == [] {
      assert path == [0] && t.current == path[|path| - 1] == 0;
      assert OpenAfter(all) == [];
    } else {
      assert path == [0] + open;
      assert path[|path| - 1] == open[|open| - 1];
      assert OpenAfter(all) == open[..|open| - 1];
      match t.blocks[t.current].parent {
        case None =>
          assert false;
        case Some(p) =>
          assert path == Path(t.blocks, p) + [t.current];
          assert Path(t.blocks, p) == path[..|path| - 1];
          assert path[..|path| - 1] == [0] + open[..|open| - 1];
      }
    }
  }

  lemma ShapeChars(dataTag: string, r: Step, events: seq<Event>, text: string)
    requires Shaped(r, events)
    ensures var h := Handle(dataTag, r.tree, Chars(text));
            Shaped(Step(h.tree, r.completed + h.completed), events + [Chars(text)])
  {
    var all := events + [Chars(text)];
    assert all[..|all| - 1] == events;
    var t := r.tree;
    var h := Handle(dataTag, t, Chars(text));
    assert Started(all) == Started(events);
    assert OpenAfter(all) == OpenAfter(events);
    assert ClosedBy(all) == ClosedBy(events);
    PathFrame(t.blocks, h.tree.blocks, t.current);
  }

  /** Every stream from a fresh parser leaves the arena Shaped. */
  lemma {:induction false} ReplayShape(dataTag: string, events: seq<Event>)
    ensures Shaped(Replay(dataTag, InitialTree, events), events)
    decreases |events|
  {
    if events != [] {
      var prefix := events[..|events| - 1];
      var e := events[|events| - 1];
      assert events == prefix + [e];
      ReplayShape(dataTag, prefix);
      var before := Replay(dataTag, InitialTree, prefix);
      match e {
        case Start(name, attrs) => ShapeStart(dataTag, before, prefix, name, attrs);
        case End(name) => ShapeEnd(dataTag, before, prefix, name);
        case Chars(text) => ShapeChars(dataTag, before, prefix, text);
      }
    }
  }

  /** The number of open elements is the number of start tags minus the
      number of end tags. */
  lemma {:induction false} OpenDepth(events: seq<Event>)
    requires Nested(events)
    ensures |OpenAfter(events)| + Ends(events) == |Started(events)|
    decreases |events|
  {
    if events != [] {
      OpenDepth(events[..|events| - 1]);
    }
  }

  /** After a balanced stream (as many end tags as start tags, never more)
      the root is current again. */
  lemma BalancedReturnsToRoot(dataTag: string, events: seq<Event>)
    requires Nested(events) && Ends(events) == |Started(events)|
    ensures Replay(dataTag, InitialTree, events).tree.current == 0
  {
    OpenDepth(events);
    ReplayShape(dataTag, events);
    var t := Replay(dataTag, InitialTree, events).tree;
    assert Path(t.blocks, t.current) == [0];
  }

  /** The root is completed only by an end tag with nothing open, which the
      engine never reports. */
  lemma {:induction false} RootNeverCompleted(events: seq<Event>)
    requires Nested(events)
    ensures 0 !in ClosedBy(events)
    decreases |events|
  {
    if events != [] {
      var prefix := events[..|events| - 1];
      RootNeverCompleted(prefix);
      var open := OpenAfter(prefix);
      if events[|events| - 1].End? {
        assert open[|open| - 1] in open;
        assert ClosedBy(events) == ClosedBy(prefix) + [open[|open| - 1]];
      } else {
        assert ClosedBy(events) == ClosedBy(prefix);
      }
    }
  }

  /** Without a data tag no character data handler is installed, so every
      block's data stays empty. */
  lemma {:induction false} NoDataTagNoData(t: Tree, events: seq<Event>)
    requires ValidTree(t) && forall k :: 0 <= k < |t.blocks| ==> t.blocks[k].data == ""
    ensures forall k :: 0 <= k < |Replay("", t, events).tree.blocks| ==> Replay("", t, events).tree.blocks[k].data == ""
    decreases |events|
  {
    if events != [] {
      var prefix := events[..|events| - 1];
      var e := events[|events| - 1];
      NoDataTagNoData(t, prefix);
      var before := Replay("", t, prefix).tree;
      assert forall k :: 0 <= k < |before.blocks| ==> before.blocks[k].data == "";
      var after := Handle("", before, e).tree;
      assert Replay("", t, events).tree == after;
      match e {
        case Start(name, attrs) =>
          assert after.blocks == before.blocks + [Block(Some(before.current), name, "", attrs)];
          forall k | 0 <= k < |after.blocks| ensures after.blocks[k].data == "" {
            if k < |before.blocks| {
              assert after.blocks[k] == before.blocks[k];
            }
          }
        case End(_) =>
          assert after.blocks == before.blocks;
        case Chars(_) =>
          assert after == before;
      }
    }
  }

  /** Replaying two streams one after the other is replaying their
      concatenation. */
  lemma {:induction false} ReplayAppend(dataTag: string, t: Tree, a: seq<Event>, b: seq<Event>)
    requires ValidTree(t)
    ensures var first := Replay(dataTag, t, a);
            var second := Replay(dataTag, first.tree, b);
            Replay(dataTag, t, a + b) == Step(second.tree, first.completed + second.completed)
    decreases |b|
  {
    if b == [] {
      assert a + b == a;
    } else {
      var b' := b[..|b| - 1];
      assert (a + b)[..|a + b| - 1] == a + b';
      assert (a + b)[|a + b| - 1] == b[|b| - 1];
      ReplayAppend(dataTag, t, a, b');
    }
  }

  /** Replaying one more event is handling it after the others. */
  lemma ReplaySnoc(dataTag: string, t: Tree, events: seq<Event>, e: Event)
    requires ValidTree(t)
    ensures var before := Replay(dataTag, t, events);
            var last := Handle(dataTag, before.tree, e);
            Replay(dataTag, t, events + [e]) == Step(last.tree, before.completed + last.completed)
  {
    assert (events + [e])[..|events + [e]| - 1] == events;
  }

  /** Replaying a start tag after `events` adds its block under the block
      then current and makes it current. */
  lemma SnocStart(dataTag: string, t: Tree, events: seq<Event>, before: Step, name: string, attrs: Attrs)
    requires ValidTree(t) && Replay(dataTag, t, events) == before
    ensures Replay(dataTag, t, events + [Start(name, attrs)])
            == Step(Tree(before.tree.blocks + [Block(Some(before.tree.current), name, "", attrs)], |before.tree.blocks|),
                    before.completed)
  {
    ReplaySnoc(dataTag, t, events, Start(name, attrs));
    assert before.completed + [] == before.completed;
  }

  /** Replaying an end tag after `events` completes the block then
      current and makes its parent `p` current. */
  lemma SnocEnd(dataTag: string, t: Tree, events: seq<Event>, before: Step, name: string, p: nat)
    requires ValidTree(t) && Replay(dataTag, t, events) == before
    requires before.tree.blocks[before.tree.current].parent == Some(p)
    ensures Replay(dataTag, t, events + [End(name)])
            == Step(Tree(before.tree.blocks, p), before.completed + [before.tree.current])
  {
    ReplaySnoc(dataTag, t, events, End(name));
  }

  /** Character data after `events` is dropped when the block then current
      is not named after the data tag. */
  lemma SnocIgnored(dataTag: string, t: Tree, events: seq<Event>, before: Step, text: string)
    requires ValidTree(t) && Replay(dataTag, t, events) == before
    requires before.tree.blocks[before.tree.current].name != dataTag
    ensures Replay(dataTag, t, events + [Chars(text)]) == before
  {
    ReplaySnoc(dataTag, t, events, Chars(text));
    assert before.completed + [] == before.completed;
  }

  /** Character data after `events` extends the block then current when
      it is named after a (non-empty) data tag. */
  lemma SnocData(dataTag: string, t: Tree, events: seq<Event>, before: Step, text: string)
    requires ValidTree(t) && Replay(dataTag, t, events) == before
    requires dataTag != "" && before.tree.blocks[before.tree.current].name == dataTag
    ensures var c := before.tree.current;
            var b := before.tree.blocks[c];
            Replay(dataTag, t, events + [Chars(text)])
            == Step(Tree(before.tree.blocks[c := b.(data := b.data + text)], c), before.completed)
  {
    ReplaySnoc(dataTag, t, events, Chars(text));
    assert before.completed + [] == before.completed;
  }

  /** Character data for a current data-tag block `x` extends that block's
      data and touches no other block. */
  lemma HandleCharsAt(dataTag: string, pre: seq<Block>, x: Block, post: seq<Block>, text: string)
    requires ValidTree(Tree(pre + [x] + post, |pre|)) && dataTag != "" && x.name == dataTag
    ensures Handle(dataTag, Tree(pre + [x] + post, |pre|), Chars(text))
            == Step(Tree(pre + [x.(data := x.data + text)] + post, |pre|), [])
  {
    assert (pre + [x] + post)[|pre|] == x;
    assert (pre + [x] + post)[|pre| := x.(data := x.data + text)] == pre + [x.(data := x.data + text)] + post;
  }

  /** One round of Stream on a line the engine accepted. */
  lemma StreamAccepted(document: string, dataTag: string, t: Tree, pending: seq<nat>, lines: seq<Line>)
    requires ValidTree(t) && lines != [] && lines[0].error.None?
    ensures var step := Replay(dataTag, t, lines[0].events);
            var rest := Stream(document, dataTag, step.tree, [], lines[1..]);
            Stream(document, dataTag, t, pending, lines)
              == Drained(pending + step.completed + rest.yielded, rest.error, rest.tree, rest.pending)
  {
  }

  /** The events of all lines, in order. */
  function Flatten(lines: seq<Line>): seq<Event>
  {
    if lines == [] then [] else lines[0].events + Flatten(lines[1..])
  }

  predicate NoErrors(lines: seq<Line>)
  {
    forall k :: 0 <= k < |lines| ==> lines[k].error.None?
  }

  /** When no line is rejected, the blocks yielded followed by those still
      pending are the pending ones followed by every block the events
      complete, in end-tag order, and nothing is left pending once a line
      was read: the yielded sequence does not depend on how the events are
      split into lines. */
  lemma {:induction false} StreamChunkInvariant(document: string, dataTag: string, t: Tree, pending: seq<nat>, lines: seq<Line>)
    requires ValidTree(t) && NoErrors(lines)
    ensures Stream(document, dataTag, t, pending, lines).error == None
    ensures Stream(document, dataTag, t, pending, lines).tree == Replay(dataTag, t, Flatten(lines)).tree
    ensures Stream(document, dataTag, t, pending, lines).yielded + Stream(document, dataTag, t, pending, lines).pending
            == pending + Replay(dataTag, t, Flatten(lines)).completed
    ensures lines != [] ==> Stream(document, dataTag, t, pending, lines).pending == []
    decreases |lines|
  {
    if lines != [] {
      var head := lines[0].events;
      var tail := lines[1..];
      assert lines[0].error.None?;
      assert NoErrors(tail) by {
        forall k | 0 <= k < |tail| ensures tail[k].error.None? {
          assert tail[k] == lines[k + 1];
        }
      }
      var step := Replay(dataTag, t, head);
      StreamAccepted(document, dataTag, t, pending, lines);
      StreamChunkInvariant(document, dataTag, step.tree, [], tail);
      var rest := Stream(document, dataTag, step.tree, [], tail);
      var later := Replay(dataTag, step.tree, Flatten(tail));
      assert Flatten(lines) == head + Flatten(tail);
      ReplayAppend(dataTag, t, head, Flatten(tail));
      var d := Stream(document, dataTag, t, pending, lines);
      assert d.yielded == pending + step.completed + rest.yielded;
      assert d.yielded + d.pending == pending + step.completed + (rest.yielded + rest.pending);
    }
  }

  /** The lines before line `k`, after the first one, are the lines of the
      tail before its line `k - 1`. */
  lemma PrefixTail(lines: seq<Line>, k: nat)
    requires 0 < k <= |lines| && NoErrors(lines[..k])
    ensures lines[0].error.None? && lines[1..][..k - 1] == lines[..k][1..]
    ensures NoErrors(lines[1..][..k - 1])
    ensures Flatten(lines[..k]) == lines[0].events + Flatten(lines[1..][..k - 1])
  {
    assert lines[..k][0] == lines[0];
    var done := lines[1..][..k - 1];
    forall m | 0 <= m < |done| ensures done[m].error.None? {
      assert done[m] == lines[..k][m + 1];
    }
  }

  /** A rejected line stops the stream: the blocks yielded are exactly those
      completed by the lines before it (not those its own events completed),
      and the error names the document and carries the engine's message. */
  lemma {:induction false} StreamStopsAtError(document: string, dataTag: string, t: Tree, lines: seq<Line>, k: nat)
    requires ValidTree(t) && k < |lines| && NoErrors(lines[..k]) && lines[k].error.Some?
    ensures Stream(document, dataTag, t, [], lines).yielded == Replay(dataTag, t, Flatten(lines[..k])).completed
    ensures Stream(document, dataTag, t, [], lines).error == Some(ParseErrorMessage(document, lines[k].error.value))
    decreases k
  {
    if k == 0 {
      assert Flatten(lines[..k]) == [];
    } else {
      PrefixTail(lines, k);
      var tail := lines[1..];
      var done := tail[..k - 1];
      assert tail[k - 1] == lines[k];
      var step := Replay(dataTag, t, lines[0].events);
      StreamAccepted(document, dataTag, t, [], lines);
      StreamStopsAtError(document, dataTag, step.tree, tail, k - 1);
      var rest := Stream(document, dataTag, step.tree, [], tail);
      var later := Replay(dataTag, step.tree, Flatten(done));
      assert rest.yielded == later.completed;
      ReplayAppend(dataTag, t, lines[0].events, Flatten(done));
      assert Replay(dataTag, t, Flatten(lines[..k])).completed == step.completed + later.completed;
      assert Stream(document, dataTag, t, [], lines).yielded == [] + step.completed + rest.yielded;
      assert [] + step.completed == step.completed;
      assert Stream(document, dataTag, t, [], lines).error == rest.error;
    }
  }

  /** A fresh parser driven over a well-formed document yields one block per
      end tag, in end-tag order, never the root, whatever the line split. */
  lemma WholeDocument(document: string, dataTag: string, lines: seq<Line>)
    requires NoErrors(lines) && Nested(Flatten(lines))
    ensures var d := Stream(document, dataTag, InitialTree, [], lines);
            && d.error == None
            && d.yielded + d.pending == ClosedBy(Flatten(lines))
            && |d.yielded + d.pending| == Ends(Flatten(lines))
            && 0 !in d.yielded
  {
    StreamChunkInvariant(document, dataTag, InitialTree, [], lines);
    ReplayShape(dataTag, Flatten(lines));
    RootNeverCompleted(Flatten(lines));
    var d := Stream(document, dataTag, InitialTree, [], lines);
    assert forall x :: x in d.yielded ==> x in d.yielded + d.pending;
  }

  /** Two line splittings of one event stream yield the same blocks. */
  lemma SplitInvariant(document: string, dataTag: string, lines1: seq<Line>, lines2: seq<Line>)
    requires NoErrors(lines1) && NoErrors(lines2) && lines1 != [] && lines2 != []
    requires Flatten(lines1) == Flatten(lines2)
    ensures Stream(document, dataTag, InitialTree, [], lines1).yielded
         == Stream(document, dataTag, InitialTree, [], lines2).yielded
  {
    StreamChunkInvariant(document, dataTag, InitialTree, [], lines1);
    StreamChunkInvariant(document, dataTag, InitialTree, [], lines2);
    var d1 := Stream(document, dataTag, InitialTree, [], lines1);
    var d2 := Stream(document, dataTag, InitialTree, [], lines2);
    assert d1.yielded == d1.yielded + d1.pending;
    assert d2.yielded == d2.yielded + d2.pending;
  }
}
