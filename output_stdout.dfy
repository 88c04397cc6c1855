/**
 * The indented text renderer of lib/gitem/output/stdout.py.
 *
 * A document is an ordered mapping whose values are nested mappings, lists
 * of strings, or scalars. Each entry becomes lines at the current depth; a
 * nested mapping is preceded by a blank line and rendered two columns
 * deeper, except that the very first nested mapping the renderer ever meets
 * at the top level, as the first entry of a document, gets no blank line.
 * That exception is the one piece of state the renderer carries.
 *
 * `Render` is the specification of the lines produced; the class `Stdout`
 * is the renderer itself, appending to its output buffer in a loop.
 */
module OutputStdout {
  import opened Values

  /** The columns a nested level is indented by. */
  const DepthIncrement: nat := 2

  /** An ordered mapping: its entries in insertion order. */
  datatype Mapping = Mapping(entries: seq<(Scalar, Value)>)

  /** A value in a document: a nested mapping, a list of strings, or a scalar. */
  datatype Value = Dict(mapping: Mapping) | List(items: seq<string>) | Leaf(scalar: Scalar)

  /** The lines produced, and the renderer's flag afterwards. */
  datatype Rendered = Rendered(lines: seq<string>, firstRecurse: bool)

  /** The line that opens a nested mapping or a list. */
  function Heading(key: Scalar, depth: nat): (r: string)
  {
    Spaces(depth) + (Text(key) + ":")
  }

  /** The line of a scalar entry: "key: value", or "key:" when the value is the empty string. */
  function ScalarLine(key: Scalar, value: Scalar, depth: nat): (r: string)
  {
    Spaces(depth) + (if value == Str("") then Text(key) + ":" else Text(key) + ": " + Text(value))
  }

  /** A list entry's elements, one line each. */
  function ListLines(items: seq<string>, depth: nat): (r: seq<string>)
    ensures |r| == |items|
    ensures forall j :: 0 <= j < |items| ==> r[j] == Spaces(depth) + items[j]
  {
    seq(|items|, j requires 0 <= j < |items| => Spaces(depth) + items[j])
  }

  /** The one case without a blank line before a nested mapping. */
  predicate LeadsOutput(depth: nat, index: nat, firstRecurse: bool)
  {
    depth == 0 && index == 0 && firstRecurse
  }

  /** The rendering of the first `n` entries of `m` at `depth`, starting with the flag `firstRecurse`. */
  function Render(m: Mapping, depth: nat, n: nat, firstRecurse: bool): (r: Rendered)
    requires n <= |m.entries|
    decreases m, n
  {
    if n == 0 then Rendered([], firstRecurse)
    else
      var prev := Render(m, depth, n - 1, firstRecurse);
      var e := Entry(m.entries[n - 1].0, m.entries[n - 1].1, depth, n - 1, prev.firstRecurse);
      Rendered(prev.lines + e.lines, e.firstRecurse)
  }

  /** The rendering of the entry at position `index` of a mapping at `depth`. */
  function Entry(key: Scalar, value: Value, depth: nat, index: nat, firstRecurse: bool): (r: Rendered)
    decreases value
  {
    match value
    case Dict(c) =>
      var lead := LeadsOutput(depth, index, firstRecurse);
      var inner := Render(c, depth + DepthIncrement, |c.entries|, firstRecurse && !lead);
      Rendered((if lead then [] else [""]) + [Heading(key, depth)] + inner.lines, inner.firstRecurse)
    case List(items) =>
      Rendered([Heading(key, depth)] + ListLines(items, depth + DepthIncrement), firstRecurse)
    case Leaf(v) =>
      Rendered([ScalarLine(key, v, depth)], firstRecurse)
  }

  /** The rendering of a whole mapping. */
  function RenderAll(m: Mapping, depth: nat, firstRecurse: bool): Rendered
  {
    Render(m, depth, |m.entries|, firstRecurse)
  }

  /**
   * The flag is cleared exactly by a nested mapping as the first entry of a
   * top-level mapping; once cleared it stays cleared.
   */
  lemma {:induction false} FlagAfter(m: Mapping, depth: nat, n: nat, firstRecurse: bool)
    requires n <= |m.entries|
    ensures Render(m, depth, n, firstRecurse).firstRecurse ==
      (firstRecurse && !(depth == 0 && n > 0 && m.entries[0].1.Dict?))
    decreases m, n
  {
    if n > 0 {
      FlagAfter(m, depth, n - 1, firstRecurse);
      EntryFlag(m.entries[n - 1].0, m.entries[n - 1].1, depth, n - 1, Render(m, depth, n - 1, firstRecurse).firstRecurse);
    }
  }

  lemma {:induction false} EntryFlag(key: Scalar, value: Value, depth: nat, index: nat, firstRecurse: bool)
    ensures Entry(key, value, depth, index, firstRecurse).firstRecurse ==
      (firstRecurse && !(depth == 0 && index == 0 && value.Dict?))
    decreases value
  {
    match value {
      case Dict(c) =>
        var lead := LeadsOutput(depth, index, firstRecurse);
        FlagAfter(c, depth + DepthIncrement, |c.entries|, firstRecurse && !lead);
      case List(_) =>
      case Leaf(_) =>
    }
  }

  /** Below the top level the flag makes no difference to the lines. */
  lemma {:induction false} FlagIrrelevantBelowTop(m: Mapping, depth: nat, n: nat, f1: bool, f2: bool)
    requires n <= |m.entries| && depth > 0
    ensures Render(m, depth, n, f1).lines == Render(m, depth, n, f2).lines
    decreases m, n
  {
    if n > 0 {
      FlagIrrelevantBelowTop(m, depth, n - 1, f1, f2);
      EntryFlagIrrelevant(m.entries[n - 1].0, m.entries[n - 1].1, depth, n - 1,
                          Render(m, depth, n - 1, f1).firstRecurse, Render(m, depth, n - 1, f2).firstRecurse);
    }
  }

  /** Only the first entry of a top-level mapping depends on the flag. */
  lemma {:induction false} EntryFlagIrrelevant(key: Scalar, value: Value, depth: nat, index: nat, f1: bool, f2: bool)
    requires depth > 0 || index > 0
    ensures Entry(key, value, depth, index, f1).lines == Entry(key, value, depth, index, f2).lines
    decreases value
  {
    match value {
      case Dict(c) =>
        FlagIrrelevantBelowTop(c, depth + DepthIncrement, |c.entries|, f1, f2);
      case List(_) =>
      case Leaf(_) =>
    }
  }

  /**
   * The flag's whole effect: with it cleared, a top-level mapping whose first
   * entry is a nested mapping gets one more line, a leading blank one.
   */
  lemma {:induction false} FlagSuppressesLeadingBlank(m: Mapping, n: nat)
    requires n <= |m.entries|
    ensures Render(m, 0, n, false).lines ==
      (if n > 0 && m.entries[0].1.Dict? then [""] else []) + Render(m, 0, n, true).lines
    decreases n
  {
    if n == 1 {
      FirstBlank(m);
    } else if n > 1 {
      FlagSuppressesLeadingBlank(m, n - 1);
      LaterBlank(m, n);
    }
  }

  lemma FirstBlank(m: Mapping)
    requires 1 <= |m.entries|
    ensures Render(m, 0, 1, false).lines ==
      (if m.entries[0].1.Dict? then [""] else []) + Render(m, 0, 1, true).lines
  {
    FirstEntryBlank(m.entries[0].0, m.entries[0].1);
    assert Render(m, 0, 0, false).lines == [] && Render(m, 0, 0, true).lines == [];
  }

  lemma LaterBlank(m: Mapping, n: nat)
    requires 1 < n <= |m.entries|
    requires Render(m, 0, n - 1, false).lines ==
      (if m.entries[0].1.Dict? then [""] else []) + Render(m, 0, n - 1, true).lines
    ensures Render(m, 0, n, false).lines ==
      (if m.entries[0].1.Dict? then [""] else []) + Render(m, 0, n, true).lines
  {
      var pf := Render(m, 0, n - 1, false);
      var pt := Render(m, 0, n - 1, true);
      var blank: seq<string> := if m.entries[0].1.Dict? then [""] else [];
      EntryFlagIrrelevant(m.entries[n - 1].0, m.entries[n - 1].1, 0, n - 1, pf.firstRecurse, pt.firstRecurse);
      var e := Entry(m.entries[n - 1].0, m.entries[n - 1].1, 0, n - 1, pt.firstRecurse).lines;
      assert Render(m, 0, n, false).lines == pf.lines + e;
      assert Render(m, 0, n, true).lines == pt.lines + e;
      AppendAssociative(blank, pt.lines, e);
  }

  lemma AppendAssociative(a: seq<string>, b: seq<string>, c: seq<string>)
    ensures (a + b) + c == a + (b + c)
  {
  }

  /** The first entry of a top-level mapping: a nested mapping there gets a blank line before it only with the flag cleared. */
  lemma FirstEntryBlank(key: Scalar, value: Value)
    ensures Entry(key, value, 0, 0, false).lines ==
      (if value.Dict? then [""] else []) + Entry(key, value, 0, 0, true).lines
  {
    if value.Dict? {
      var inner := Render(value.mapping, DepthIncrement, |value.mapping.entries|, false).lines;
      assert Entry(key, value, 0, 0, false).lines == [""] + [Heading(key, 0)] + inner;
      assert Entry(key, value, 0, 0, true).lines == [Heading(key, 0)] + inner;
    }
  }

  /** Every line is blank or starts with `depth` spaces. */
  predicate IndentedBy(lines: seq<string>, depth: nat)
  {
    forall k :: 0 <= k < |lines| ==> lines[k] == "" || Spaces(depth) <= lines[k]
  }

  lemma SpacesPrefix(a: nat, b: nat, s: string)
    requires a <= b && Spaces(b) <= s
    ensures Spaces(a) <= s
  {
    assert Spaces(a) == Spaces(b)[..a];
  }

  lemma IndentedDeeper(lines: seq<string>, a: nat, b: nat)
    requires a <= b && IndentedBy(lines, b)
    ensures IndentedBy(lines, a)
  {
    forall k | 0 <= k < |lines| && lines[k] != ""
      ensures Spaces(a) <= lines[k]
    {
      SpacesPrefix(a, b, lines[k]);
    }
  }

  /** Nothing is printed left of the depth it is rendered at. */
  lemma {:induction false} RenderIndented(m: Mapping, depth: nat, n: nat, firstRecurse: bool)
    requires n <= |m.entries|
    ensures IndentedBy(Render(m, depth, n, firstRecurse).lines, depth)
    decreases m, n
  {
    if n > 0 {
      RenderIndented(m, depth, n - 1, firstRecurse);
      var prev := Render(m, depth, n - 1, firstRecurse);
      EntryIndented(m.entries[n - 1].0, m.entries[n - 1].1, depth, n - 1, prev.firstRecurse);
    }
  }

  lemma {:induction false} EntryIndented(key: Scalar, value: Value, depth: nat, index: nat, firstRecurse: bool)
    ensures IndentedBy(Entry(key, value, depth, index, firstRecurse).lines, depth)
    decreases value
  {
    assert Heading(key, depth) == Spaces(depth) + (Text(key) + ":");
    match value {
      case Dict(c) =>
        var lead := LeadsOutput(depth, index, firstRecurse);
        var inner := Render(c, depth + DepthIncrement, |c.entries|, firstRecurse && !lead);
        RenderIndented(c, depth + DepthIncrement, |c.entries|, firstRecurse && !lead);
        IndentedDeeper(inner.lines, depth, depth + DepthIncrement);
      case List(items) =>
        var tail := ListLines(items, depth + DepthIncrement);
        forall k | 0 <= k < |tail|
          ensures Spaces(depth + DepthIncrement) <= tail[k]
        {
        }
        IndentedDeeper(tail, depth, depth + DepthIncrement);
      case Leaf(v) =>
        var text := if v == Str("") then Text(key) + ":" else Text(key) + ": " + Text(v);
        assert ScalarLine(key, v, depth) == Spaces(depth) + text;
    }
  }

  /** The renderer: the flag of the first top-level nested mapping, and the lines printed so far. */
  class Stdout {
    var firstRecurse: bool
    var file: seq<string>

    constructor ()
      ensures firstRecurse && file == []
    {
      firstRecurse := true;
      file := [];
    }

    /** Prints the entries of `data` at `depth`, in order, depth first. */
    method OutputHelper(data: Mapping, depth: nat)
      modifies this
      ensures file == old(file) + RenderAll(data, depth, old(firstRecurse)).lines
      ensures firstRecurse == RenderAll(data, depth, old(firstRecurse)).firstRecurse
      decreases data, 2
    {
      ghost var file0 := file;
      ghost var flag0 := firstRecurse;
      var i := 0;
      while i < |data.entries|
        invariant i <= |data.entries|
        invariant file == file0 + Render(data, depth, i, flag0).lines
        invariant firstRecurse == Render(data, depth, i, flag0).firstRecurse
      {
        ghost var prev := Render(data, depth, i, flag0);
        OutputEntry(data.entries[i].0, data.entries[i].1, depth, i);
        ghost var e := Entry(data.entries[i].0, data.entries[i].1, depth, i, prev.firstRecurse);
        assert Render(data, depth, i + 1, flag0) == Rendered(prev.lines + e.lines, e.firstRecurse);
        AppendAssociative(file0, prev.lines, e.lines);
        i := i + 1;
      }
    }

    /** Prints the entry at position `index` of a mapping at `depth`: one pass of the loop above. */
    method OutputEntry(key: Scalar, value: Value, depth: nat, index: nat)
      modifies this
      ensures file == old(file) + Entry(key, value, depth, index, old(firstRecurse)).lines
      ensures firstRecurse == Entry(key, value, depth, index, old(firstRecurse)).firstRecurse
      decreases value, 1
    {
      match value {
        case Dict(c) => OutputDict(key, c, depth, index);
        case List(items) => OutputList(key, items, depth);
        case Leaf(v) => OutputScalar(key, v, depth);
      }
    }

    /** A nested mapping: a blank line unless it leads the output, its key, then its entries two columns deeper. */
    method OutputDict(key: Scalar, c: Mapping, depth: nat, index: nat)
      modifies this
      ensures file == old(file) + Entry(key, Dict(c), depth, index, old(firstRecurse)).lines
      ensures firstRecurse == Entry(key, Dict(c), depth, index, old(firstRecurse)).firstRecurse
      decreases c, 3
    {
      ghost var lead := LeadsOutput(depth, index, firstRecurse);
      ghost var inner := RenderAll(c, depth + DepthIncrement, firstRecurse && !lead);
      ghost var opening: seq<string> := (if lead then [] else [""]) + [Heading(key, depth)];
      assert Entry(key, Dict(c), depth, index, firstRecurse) == Rendered(opening + inner.lines, inner.firstRecurse);
      if depth == 0 && index == 0 && firstRecurse {
        firstRecurse := false;
      } else {
        file := file + [""];
      }
      var output := Text(key) + ":";
      AppendAssociative(old(file), if lead then [] else [""], [Heading(key, depth)]);
      file := file + [Spaces(depth) + output];
      OutputHelper(c, depth + DepthIncrement);
      AppendAssociative(old(file), opening, inner.lines);
    }

    /** A list: its key, then one line per element two columns deeper. */
    method OutputList(key: Scalar, items: seq<string>, depth: nat)
      modifies this
      ensures file == old(file) + [Heading(key, depth)] + ListLines(items, depth + DepthIncrement)
      ensures firstRecurse == old(firstRecurse)
    {
      ghost var tail := ListLines(items, depth + DepthIncrement);
      var output := Text(key) + ":";
      file := file + [Spaces(depth) + output];
      ghost var before := file;
      var j := 0;
      while j < |items|
        invariant j <= |items|
        invariant file == before + tail[..j]
        invariant firstRecurse == old(firstRecurse)
      {
        file := file + [Spaces(depth + DepthIncrement) + items[j]];
        j := j + 1;
      }
      assert tail[..j] == tail;
    }

    /** A scalar: one line, "key: value", or "key:" for the empty string. */
    method OutputScalar(key: Scalar, value: Scalar, depth: nat)
      modifies this
      ensures file == old(file) + [ScalarLine(key, value, depth)]
      ensures firstRecurse == old(firstRecurse)
    {
      var output;
      if value == Str("") {
        output := Text(key) + ":";
      } else {
        output := Text(key) + ": " + Text(value);
      }
      file := file + [Spaces(depth) + output];
    }

    /** Prints a whole document from the top level. */
    method Output(data: Mapping)
      modifies this
      ensures file == old(file) + RenderAll(data, 0, old(firstRecurse)).lines
      ensures firstRecurse == RenderAll(data, 0, old(firstRecurse)).firstRecurse
    {
      OutputHelper(data, 0);
    }
  }

  // The documents of tests/test_output/test_stdout.py and the lines they print.

  lemma SmallIndents()
    ensures Spaces(0) == "" && Spaces(2) == "  " && Spaces(4) == "    "
  {
  }

  lemma BasicOutput()
    ensures RenderAll(Mapping([(Str("key"), Leaf(Str("value")))]), 0, true).lines == ["key: value"]
  {
    var m := Mapping([(Str("key"), Leaf(Str("value")))]);
    assert ScalarLine(Str("key"), Str("value"), 0) == "key: value";
    assert Entry(Str("key"), Leaf(Str("value")), 0, 0, true).lines == ["key: value"];
    assert Render(m, 0, 1, true).lines == Render(m, 0, 0, true).lines + ["key: value"];
  }

  lemma ListOutput()
    ensures RenderAll(Mapping([(Str("key1"), Dict(Mapping([(Str("key2"), List(["value1", "value2"]))])))]), 0, true).lines
            == ["key1:", "  key2:", "    value1", "    value2"]
  {
    SmallIndents();
    assert Heading(Str("key1"), 0) == "key1:";
    assert Heading(Str("key2"), 2) == "  key2:";
    var items := ListLines(["value1", "value2"], 4);
    assert items[0] == "    value1" && items[1] == "    value2";
    assert items == ["    value1", "    value2"];
  }

  lemma RecurseOutput()
    ensures RenderAll(Mapping([(Str("key1"), Leaf(Str("value1"))),
                               (Str("key2"), Dict(Mapping([(Str("key3"), Leaf(Str("value2")))])))]), 0, true).lines
            == ["key1: value1", "", "key2:", "  key3: value2"]
  {
    SmallIndents();
    assert ScalarLine(Str("key1"), Str("value1"), 0) == "key1: value1";
    assert Heading(Str("key2"), 0) == "key2:";
    assert ScalarLine(Str("key3"), Str("value2"), 2) == "  key3: value2";
  }

  lemma NewlineOutput()
    ensures RenderAll(Mapping([(Str("key1"), Leaf(Str("value1"))),
                               (Str("key2"), Dict(Mapping([(Str("key3"), Leaf(Str("value2")))]))),
                               (Str("key4"), Dict(Mapping([(Str("key5"), Leaf(Str("value3")))])))]), 0, true).lines
            == ["key1: value1", "", "key2:", "  key3: value2", "", "key4:", "  key5: value3"]
  {
    SmallIndents();
    assert ScalarLine(Str("key1"), Str("value1"), 0) == "key1: value1";
    assert Heading(Str("key2"), 0) == "key2:";
    assert ScalarLine(Str("key3"), Str("value2"), 2) == "  key3: value2";
    assert Heading(Str("key4"), 0) == "key4:";
    assert ScalarLine(Str("key5"), Str("value3"), 2) == "  key5: value3";
    var m := Mapping([(Str("key1"), Leaf(Str("value1"))),
                      (Str("key2"), Dict(Mapping([(Str("key3"), Leaf(Str("value2")))]))),
                      (Str("key4"), Dict(Mapping([(Str("key5"), Leaf(Str("value3")))])))]);
    assert Render(m, 0, 1, true) == Rendered(["key1: value1"], true);
    assert Render(m, 0, 2, true) == Rendered(["key1: value1", "", "key2:", "  key3: value2"], true);
    var inner := Mapping([(Str("key5"), Leaf(Str("value3")))]);
    assert Render(inner, 2, 1, true).lines == Render(inner, 2, 0, true).lines + ["  key5: value3"];
    assert Entry(Str("key4"), Dict(inner), 0, 2, true).lines == ["", "key4:", "  key5: value3"];
  }
}
