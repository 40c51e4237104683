/** `FlattenArrayOfMessages`: joins a possibly nested array of messages into
    one string, exactly as the PHP loop does it. The accumulator starts as
    `null`; a leaf is appended behind the separator only when the accumulator
    is truthy, and a nested array's own flattening is appended with no
    separator at all. */
module MessageFlattener {
  import opened Wrappers

  /** A message array entry: a scalar message or a nested array. */
  datatype Node = Leaf(text: string) | Group(children: seq<Node>)

  /** PHP truthiness of the accumulator: `null`, `""` and `"0"` are falsy. */
  predicate Truthy(acc: Option<string>)
  {
    acc.Some? && acc.value != "" && acc.value != "0"
  }

  /** PHP string conversion of the accumulator: `null` becomes `""`. */
  function AsString(acc: Option<string>): string
  {
    acc.GetOr("")
  }

  /** The result for a message array, or `None` (PHP `null`) when the array
      is absent or empty. */
  function FlattenArrayOfMessages(messages: Option<seq<Node>>, separator: string := " | "): (r: Option<string>)
    ensures r.None? <==> messages.None? || |messages.value| == 0
  {
    if messages.None? then None else FlattenNodes(messages.value, separator)
  }

  /** The accumulator after the loop has visited every entry of `items`. */
  function FlattenNodes(items: seq<Node>, separator: string): (r: Option<string>)
    ensures r.None? <==> |items| == 0
    decreases items
  {
    if |items| == 0 then None
    else Append(FlattenNodes(items[..|items| - 1], separator), items[|items| - 1], separator)
  }

  /** One loop iteration: `$msg .= ...` always leaves a string behind. */
  function Append(acc: Option<string>, item: Node, separator: string): (r: Option<string>)
    ensures r.Some?
    decreases item
  {
    match item
    case Leaf(v) => Some(AsString(acc) + (if Truthy(acc) then separator + v else v))
    case Group(children) => Some(AsString(acc) + AsString(FlattenNodes(children, separator)))
  }

  /** The deprecated `GetErrorMessages`: it flattens but has no `return`
      statement, so the caller always receives `null`. */
  function GetErrorMessages(messages: Option<seq<Node>>, separator: string := " | "): (r: Option<string>)
    ensures r.None?
  {
    var _ := FlattenArrayOfMessages(messages, separator);
    None
  }

  // ---------------------------------------------------------------------
  // Reference definitions

  /** Every leaf message of a node, left to right. */
  function NodeLeaves(n: Node): seq<string>
    decreases n
  {
    match n
    case Leaf(v) => [v]
    case Group(children) => Leaves(children)
  }

  /** Every leaf message of a sequence of nodes, left to right. */
  function Leaves(items: seq<Node>): seq<string>
    decreases items
  {
    if |items| == 0 then [] else NodeLeaves(items[0]) + Leaves(items[1..])
  }

  /** Plain concatenation of messages. */
  function Concat(ss: seq<string>): string
  {
    if |ss| == 0 then "" else ss[0] + Concat(ss[1..])
  }

  /** Messages joined with `separator` between neighbours and nowhere else. */
  function Join(ss: seq<string>, separator: string): string
  {
    if |ss| == 0 then ""
    else if |ss| == 1 then ss[0]
    else Join(ss[..|ss| - 1], separator) + separator + ss[|ss| - 1]
  }

  /** A flat array of messages. */
  function LeafNodes(ss: seq<string>): (items: seq<Node>)
    ensures |items| == |ss|
  {
    seq(|ss|, i requires 0 <= i < |ss| => Leaf(ss[i]))
  }

  // ---------------------------------------------------------------------
  // Lemmas

  lemma {:induction false} LeavesAppend(items: seq<Node>, n: Node)
    ensures Leaves(items + [n]) == Leaves(items) + NodeLeaves(n)
    decreases |items|
  {
    if |items| == 0 {
      assert items + [n] == [n];
      assert [n][1..] == [];
    } else {
      assert (items + [n])[0] == items[0];
      assert (items + [n])[1..] == items[1..] + [n];
      LeavesAppend(items[1..], n);
    }
  }

  lemma {:induction false} ConcatAppend(a: seq<string>, b: seq<string>)
    ensures Concat(a + b) == Concat(a) + Concat(b)
    decreases |a|
  {
    if |a| == 0 {
      assert a + b == b;
    } else {
      assert (a + b)[0] == a[0];
      assert (a + b)[1..] == a[1..] + b;
      ConcatAppend(a[1..], b);
    }
  }

  /** With an empty separator nesting and falsy accumulators make no
      difference: the result is every leaf message concatenated in order. */
  lemma {:induction false} FlattenWithoutSeparator(items: seq<Node>)
    ensures AsString(FlattenNodes(items, "")) == Concat(Leaves(items))
    decreases items
  {
    if |items| > 0 {
      var init := items[..|items| - 1];
      var last := items[|items| - 1];
      assert items == init + [last];
      FlattenWithoutSeparator(init);
      LeavesAppend(init, last);
      ConcatAppend(Leaves(init), NodeLeaves(last));
      match last
      case Leaf(v) =>
        assert Concat([v]) == v + Concat([]);
      case Group(children) =>
        FlattenWithoutSeparator(children);
    }
  }

  /** A joined sequence starts with its first message. */
  lemma {:induction false} JoinStartsWithFirst(ss: seq<string>, separator: string)
    requires 1 <= |ss|
    ensures ss[0] <= Join(ss, separator)
    decreases |ss|
  {
    if |ss| > 1 {
      JoinStartsWithFirst(ss[..|ss| - 1], separator);
    }
  }

  /** On a flat array whose first message is truthy, the result is the
      messages joined by the separator. */
  lemma {:induction false} FlattenFlat(ss: seq<string>, separator: string)
    requires 1 <= |ss| && Truthy(Some(ss[0]))
    ensures FlattenNodes(LeafNodes(ss), separator) == Some(Join(ss, separator))
    decreases |ss|
  {
    var items := LeafNodes(ss);
    if |ss| > 1 {
      var init := ss[..|ss| - 1];
      assert items[..|items| - 1] == LeafNodes(init);
      FlattenFlat(init, separator);
      JoinStartsWithFirst(init, separator);
      assert Truthy(Some(Join(init, separator)));
      var acc := FlattenNodes(items[..|items| - 1], separator);
      var last := ss[|ss| - 1];
      assert items[|items| - 1] == Leaf(last);
      assert FlattenNodes(items, separator) == Append(acc, Leaf(last), separator);
      assert Join(init, separator) + (separator + last) == Join(init, separator) + separator + last;
    } else {
      assert items[..0] == [];
      assert items[0] == Leaf(ss[0]);
      assert FlattenNodes(items[..0], separator) == None;
      assert "" + ss[0] == ss[0];
    }
  }

  /** A nested array's result is glued on without a separator: the flattening
      of `items` followed by a group is the two flattenings concatenated. */
  lemma GroupAddsNoSeparator(items: seq<Node>, children: seq<Node>, separator: string)
    ensures FlattenNodes(items + [Group(children)], separator)
      == Some(AsString(FlattenNodes(items, separator)) + AsString(FlattenNodes(children, separator)))
  {
  }
}

/** The flattening the documentation of `FlattenArrayOfMessages` describes:
    every message separated by the separator, whatever the nesting and
    whatever the text of the first message. */
module IntendedFlattener {
  import opened Wrappers
  import opened MessageFlattener

  /** Like the loop of `FlattenArrayOfMessages`, but the separator is decided
      by whether a message was already emitted, and a nested array's
      messages are separated from their neighbours too. */
  function FlattenIntended(messages: Option<seq<Node>>, separator: string := " | "): (r: Option<string>)
    ensures r.None? <==> messages.None? || |Leaves(messages.value)| == 0
    ensures r.Some? ==> r.value == Join(Leaves(messages.value), separator)
  {
    if messages.None? then None
    else
      FixedNodesJoin(messages.value, separator);
      FixedNodes(messages.value, separator)
  }

  /** The accumulator after visiting `items`; `None` while nothing was emitted. */
  function FixedNodes(items: seq<Node>, separator: string): Option<string>
    decreases items
  {
    if |items| == 0 then None
    else FixedAppend(FixedNodes(items[..|items| - 1], separator), items[|items| - 1], separator)
  }

  function FixedAppend(acc: Option<string>, item: Node, separator: string): Option<string>
    decreases item
  {
    match item
    case Leaf(v) => Some(if acc.Some? then acc.value + separator + v else v)
    case Group(children) =>
      var inner := FixedNodes(children, separator);
      if inner.None? then acc
      else if acc.None? then inner
      else Some(acc.value + separator + inner.value)
  }

  /** Joining two non-empty runs of messages puts one separator between them. */
  lemma {:induction false} JoinAppend(a: seq<string>, b: seq<string>, separator: string)
    requires 1 <= |a| && 1 <= |b|
    ensures Join(a + b, separator) == Join(a, separator) + separator + Join(b, separator)
    decreases |b|
  {
    var ab := a + b;
    if |b| == 1 {
      assert ab[..|ab| - 1] == a;
    } else {
      var b' := b[..|b| - 1];
      assert ab[..|ab| - 1] == a + b';
      JoinAppend(a, b', separator);
    }
  }

  /** The corrected fold computes the joined leaves. */
  lemma {:induction false} FixedNodesJoin(items: seq<Node>, separator: string)
    ensures FixedNodes(items, separator)
      == if |Leaves(items)| == 0 then None else Some(Join(Leaves(items), separator))
    decreases items
  {
    if |items| > 0 {
      var init := items[..|items| - 1];
      var last := items[|items| - 1];
      assert items == init + [last];
      FixedNodesJoin(init, separator);
      LeavesAppend(init, last);
      match last
      case Leaf(v) =>
        if |Leaves(init)| > 0 {
          JoinAppend(Leaves(init), [v], separator);
        } else {
          assert Leaves(items) == [v];
        }
      case Group(children) =>
        FixedNodesJoin(children, separator);
        if |Leaves(init)| > 0 && |Leaves(children)| > 0 {
          JoinAppend(Leaves(init), Leaves(children), separator);
        } else if |Leaves(init)| == 0 {
          assert Leaves(items) == Leaves(children);
        } else {
          assert Leaves(items) == Leaves(init);
        }
    }
  }

  /** The loop as written, on `["a", ["b","c"]]` with `","`. */
  lemma NestedExampleAsWritten()
    ensures FlattenArrayOfMessages(Some([Leaf("a"), Group([Leaf("b"), Leaf("c")])]), ",") == Some("ab,c")
  {
    var bc := [Leaf("b"), Leaf("c")];
    assert LeafNodes(["a"]) == [Leaf("a")];
    assert LeafNodes(["b", "c"]) == bc;
    FlattenFlat(["a"], ",");
    FlattenFlat(["b", "c"], ",");
    assert ["b", "c"][..1] == ["b"];
    assert Join(["b", "c"], ",") == "b,c";
    assert [Leaf("a")] + [Group(bc)] == [Leaf("a"), Group(bc)];
    GroupAddsNoSeparator([Leaf("a")], bc, ",");
    assert "a" + "b,c" == "ab,c";
  }

  /** The documented behaviour, on `["a", ["b","c"]]` with `","`. */
  lemma NestedExampleIntended()
    ensures FlattenIntended(Some([Leaf("a"), Group([Leaf("b"), Leaf("c")])]), ",") == Some("a,b,c")
  {
    var bc := [Leaf("b"), Leaf("c")];
    var items := [Leaf("a"), Group(bc)];
    assert Leaves(bc) == ["b", "c"] by {
      assert bc[1..] == [Leaf("c")];
      assert [Leaf("c")][1..] == [];
    }
    assert Leaves(items) == ["a", "b", "c"] by {
      assert items[1..] == [Group(bc)];
      assert [Group(bc)][1..] == [];
      assert Leaves([Group(bc)]) == ["b", "c"] + Leaves([]);
      assert Leaves(items) == ["a"] + Leaves([Group(bc)]);
    }
    assert Join(["a", "b", "c"], ",") == "a,b,c" by {
      assert ["a", "b", "c"][..2] == ["a", "b"];
      assert ["a", "b"][..1] == ["a"];
    }
  }

  /** As written, a nested array is glued on without a separator, where the
      documented behaviour separates it. */
  lemma NestedArrayLosesSeparator()
    ensures FlattenArrayOfMessages(Some([Leaf("a"), Group([Leaf("b"), Leaf("c")])]), ",") == Some("ab,c")
    ensures FlattenIntended(Some([Leaf("a"), Group([Leaf("b"), Leaf("c")])]), ",") == Some("a,b,c")
  {
    NestedExampleAsWritten();
    NestedExampleIntended();
  }

  /** As written, a first message `"0"` is falsy in PHP, so the next message
      follows it without a separator. */
  lemma ZeroMessageLosesSeparator()
    ensures FlattenArrayOfMessages(Some([Leaf("0"), Leaf("b")])) == Some("0b")
    ensures FlattenIntended(Some([Leaf("0"), Leaf("b")])) == Some("0 | b")
  {
    var items := [Leaf("0"), Leaf("b")];
    assert items[..1] == [Leaf("0")];
    assert [Leaf("0")][..0] == [];
    assert FlattenNodes([Leaf("0")][..0], " | ") == None;
    assert "" + "0" == "0";
    assert FlattenNodes([Leaf("0")], " | ") == Some("0");
    assert !Truthy(Some("0"));
    assert FlattenNodes(items, " | ") == Append(Some("0"), Leaf("b"), " | ");
    assert "0" + "b" == "0b";

    assert items[1..] == [Leaf("b")];
    assert [Leaf("b")][1..] == [];
    assert Leaves(items) == ["0", "b"];
    assert ["0", "b"][..1] == ["0"];
    assert Join(["0", "b"], " | ") == "0 | b";
  }
}
