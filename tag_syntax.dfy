/** What `Block.get_raw_tag` preserves. A small reader for the rendering
    recovers the block's name, attributes (in order) and data whenever the
    name has no space or `>`, no key holds `=` or starts with `/`, no value
    holds `"` and the data holds no `<`; since nothing is escaped, a value
    with a quote in it can make two different blocks render alike. */
module TagSyntax {
  import opened Wrappers
  import opened Text
  import opened Blocks

  /** The longest prefix of `s` with no character of `stop`, and the rest. */
  function SpanUntil(s: string, stop: set<char>): (r: (string, string))
    ensures r.0 + r.1 == s
    ensures forall k :: 0 <= k < |r.0| ==> r.0[k] !in stop
    ensures r.1 == [] || r.1[0] in stop
  {
    if s == [] || s[0] in stop then ([], s)
    else
      var rest := SpanUntil(s[1..], stop);
      assert s == [s[0]] + s[1..];
      ([s[0]] + rest.0, rest.1)
  }

  /** Text free of `stop` followed by a stop character (or nothing) is
      split exactly there. */
  lemma {:induction false} SpanUntilPrefix(p: string, rest: string, stop: set<char>)
    requires forall k :: 0 <= k < |p| ==> p[k] !in stop
    requires rest == [] || rest[0] in stop
    ensures SpanUntil(p + rest, stop) == (p, rest)
  {
    if p != [] {
      assert (p + rest)[0] == p[0];
      assert (p + rest)[1..] == p[1..] + rest;
      SpanUntilPrefix(p[1..], rest, stop);
      assert [p[0]] + p[1..] == p;
    } else {
      assert p + rest == rest;
    }
  }

  /** Reads ` k="v"` pairs until the text no longer starts with a space
      followed by something other than `/`; returns the pairs and what
      follows them. */
  function ParseAttrs(s: string): (r: Option<(Attrs, string)>)
    decreases |s|
  {
    if |s| >= 2 && s[0] == ' ' && s[1] != '/' then
      var key := SpanUntil(s[1..], {'='});
      var rest := key.1;
      if |rest| < 2 || rest[1] != '"' then None
      else
        var value := SpanUntil(rest[2..], {'"'});
        var rest2 := value.1;
        if rest2 == [] then None
        else
          match ParseAttrs(rest2[1..])
          case None => None
          case Some(more) => Some(([(key.0, value.0)] + more.0, more.1))
    else Some(([], s))
  }

  /** Reads `<name k="v" ... />` as a block with no data and
      `<name k="v" ...>data</name>` as one with non-empty data. */
  function ParseTag(s: string): (r: Option<(string, Attrs, string)>)
  {
    if s == [] || s[0] != '<' then None
    else
      var name := SpanUntil(s[1..], {' ', '>'});
      match ParseAttrs(name.1)
      case None => None
      case Some(parsed) => ParseEnding(name.0, parsed.0, parsed.1)
  }

  /** What follows the attributes of tag `name`: ` />`, or `>`, non-empty
      data and the closing tag. */
  function ParseEnding(name: string, attrs: Attrs, tail: string): (r: Option<(string, Attrs, string)>)
  {
    if tail == " />" then Some((name, attrs, ""))
    else if tail != [] && tail[0] == '>' then
      var data := SpanUntil(tail[1..], {'<'});
      if data.1 == "</" + name + ">" && data.0 != "" then Some((name, attrs, data.0)) else None
    else None
  }

  /** The conditions under which the rendering can be read back. */
  predicate Readable(b: Block)
  {
    && (forall k :: 0 <= k < |b.name| ==> b.name[k] != ' ' && b.name[k] != '>')
    && (forall i :: 0 <= i < |b.attributes| ==> ReadablePair(b.attributes[i]))
    && (forall k :: 0 <= k < |b.data| ==> b.data[k] != '<')
  }

  predicate ReadablePair(kv: (string, string))
  {
    && (forall k :: 0 <= k < |kv.0| ==> kv.0[k] != '=')
    && (kv.0 == [] || kv.0[0] != '/')
    && (forall k :: 0 <= k < |kv.1| ==> kv.1[k] != '"')
  }

  /** The end of a rendering: ` />`, or the data and the closing tag. */
  function Ending(b: Block): string
  {
    if b.data == "" then " />" else ">" + b.data + "</" + b.name + ">"
  }

  /** The rendering is `<`, the name, every attribute string behind one
      space, and the ending. */
  lemma RawTagShape(b: Block)
    ensures RawTag(b) == "<" + b.name + Prefixed(" ", AttrStrings(b.attributes)) + Ending(b)
  {
    var parts := [b.name] + AttrStrings(b.attributes);
    JoinCons(" ", parts);
    assert parts[0] == b.name && parts[1..] == AttrStrings(b.attributes);
  }

  /** Every attribute behind a space, followed by an ending that starts
      with ` /` or `>`, reads back as those attributes and that ending. */
  lemma {:induction false} ParseAttrsRoundTrip(attrs: Attrs, end: string)
    requires forall i :: 0 <= i < |attrs| ==> ReadablePair(attrs[i])
    requires (|end| >= 2 && end[0] == ' ' && end[1] == '/') || (end != [] && end[0] == '>')
    ensures ParseAttrs(Prefixed(" ", AttrStrings(attrs)) + end) == Some((attrs, end))
  {
    var strs := AttrStrings(attrs);
    if attrs == [] {
      assert Prefixed(" ", strs) + end == end;
    } else {
      var k := attrs[0].0;
      var v := attrs[0].1;
      assert ReadablePair(attrs[0]);
      var later := Prefixed(" ", AttrStrings(attrs[1..])) + end;
      assert strs[0] == k + "=\"" + v + "\"";
      assert strs[1..] == AttrStrings(attrs[1..]);
      var s := Prefixed(" ", strs) + end;
      assert s == " " + (k + ("=\"" + (v + ("\"" + later))));
      assert s[0] == ' ';
      assert s[1] != '/' by {
        if k != [] {
          assert s[1] == k[0];
        } else {
          assert s[1] == '=';
        }
      }
      assert s[1..] == k + ("=\"" + (v + ("\"" + later)));
      SpanUntilPrefix(k, "=\"" + (v + ("\"" + later)), {'='});
      var rest := "=\"" + (v + ("\"" + later));
      assert rest[1] == '"' && rest[2..] == v + ("\"" + later);
      SpanUntilPrefix(v, "\"" + later, {'"'});
      assert ("\"" + later)[1..] == later;
      forall i | 0 <= i < |attrs[1..]| ensures ReadablePair(attrs[1..][i]) {
        assert attrs[1..][i] == attrs[i + 1];
      }
      ParseAttrsRoundTrip(attrs[1..], end);
      assert [(k, v)] + attrs[1..] == attrs;
    }
  }

  /** The name of a tag is read up to the first space or `>`. */
  lemma ReadName(name: string, rest: string, s: string)
    requires forall k :: 0 <= k < |name| ==> name[k] != ' ' && name[k] != '>'
    requires rest == [] || rest[0] in {' ', '>'}
    requires s == "<" + name + rest
    ensures s != [] && s[0] == '<' && SpanUntil(s[1..], {' ', '>'}) == (name, rest)
  {
    assert s[1..] == name + rest;
    SpanUntilPrefix(name, rest, {' ', '>'});
  }

  /** The ending decides: ` />` gives no data, `>data</name>` gives the
      data. */
  lemma ReadEnding(name: string, attrs: Attrs, data: string, end: string)
    requires forall k :: 0 <= k < |data| ==> data[k] != '<'
    requires (data == "" && end == " />") || (data != "" && end == ">" + data + "</" + name + ">")
    ensures end != [] && end[0] in {' ', '>'}
    ensures ParseEnding(name, attrs, end) == Some((name, attrs, data))
  {
    if data != "" {
      assert end[0] == '>' && end[1..] == data + ("</" + name + ">");
      SpanUntilPrefix(data, "</" + name + ">", {'<'});
      assert end != " />" by {
        assert end[0] != " />"[0];
      }
    }
  }

  /** A tag whose name and attributes read as `name` and `attrs` reads
      as its ending decides. */
  lemma ReadTag(s: string, name: string, rest: string, attrs: Attrs, end: string)
    requires s != [] && s[0] == '<' && SpanUntil(s[1..], {' ', '>'}) == (name, rest)
    requires ParseAttrs(rest) == Some((attrs, end))
    ensures ParseTag(s) == ParseEnding(name, attrs, end)
  {
  }

  /** Attribute strings behind spaces, then an ending that starts with a
      space or `>`, start with a space or `>`. */
  lemma PrefixedStart(parts: seq<string>, end: string)
    requires end != [] && end[0] in {' ', '>'}
    ensures (Prefixed(" ", parts) + end)[0] in {' ', '>'}
  {
    if parts != [] {
      assert Prefixed(" ", parts) == " " + (parts[0] + Prefixed(" ", parts[1..]));
    } else {
      assert Prefixed(" ", parts) + end == end;
    }
  }

  /** Concatenation regrouped, as the rendering and the reader split it. */
  lemma Regroup(a: string, b: string, c: string, d: string)
    ensures a + b + c + d == a + b + (c + d)
  {
  }

  /** Reading a readable block's rendering gives back its name, its
      attributes in mapping order and its data. */
  lemma RawTagRoundTrip(b: Block)
    requires Readable(b)
    ensures ParseTag(RawTag(b)) == Some((b.name, b.attributes, b.data))
  {
    var s := RawTag(b);
    var p := Prefixed(" ", AttrStrings(b.attributes));
    var end := Ending(b);
    RawTagShape(b);
    ReadEnding(b.name, b.attributes, b.data, end);
    PrefixedStart(AttrStrings(b.attributes), end);
    Regroup("<", b.name, p, end);
    ReadName(b.name, p + end, s);
    ParseAttrsRoundTrip(b.attributes, end);
    ReadTag(s, b.name, p + end, b.attributes, end);
  }

  /** Two readable blocks with one rendering have the same name,
      attributes and data. */
  lemma RawTagInjective(b1: Block, b2: Block)
    requires Readable(b1) && Readable(b2) && RawTag(b1) == RawTag(b2)
    ensures b1.name == b2.name && b1.attributes == b2.attributes && b1.data == b2.data
  {
    RawTagRoundTrip(b1);
    RawTagRoundTrip(b2);
  }

  /** Without the conditions the rendering is ambiguous: a value holding
      `x" k2="y` renders exactly like two attributes `k="x"` and
      `k2="y"`. */
  lemma RawTagAmbiguous(parent: Option<nat>, name: string, k: string, x: string, k2: string, y: string)
    ensures var one := Block(parent, name, "", [(k, x + "\" " + k2 + "=\"" + y)]);
            var two := Block(parent, name, "", [(k, x), (k2, y)]);
            one != two && RawTag(one) == RawTag(two)
  {
    var one := Block(parent, name, "", [(k, x + "\" " + k2 + "=\"" + y)]);
    var two := Block(parent, name, "", [(k, x), (k2, y)]);
    RawTagShape(one);
    RawTagShape(two);
    var a1 := AttrStrings(one.attributes);
    var a2 := AttrStrings(two.attributes);
    assert a1 == [k + "=\"" + (x + "\" " + k2 + "=\"" + y) + "\""];
    assert a2 == [k + "=\"" + x + "\"", k2 + "=\"" + y + "\""];
    assert Prefixed(" ", a1) == " " + a1[0] by {
      assert a1[1..] == [];
    }
    assert Prefixed(" ", a2) == " " + a2[0] + (" " + a2[1]) by {
      assert a2[1..] == [a2[1]];
      assert a2[1..][1..] == [];
    }
    assert " " + a1[0] == " " + a2[0] + (" " + a2[1]);
    assert |one.attributes| != |two.attributes|;
  }
}
