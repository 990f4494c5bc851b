/**
 * What the rendered bean class looks like, stated about Render (which
 * Bean.Emit is proved to write): the layout of the class body, the
 * `_fields` registry, the constructor, the slots and the properties, and
 * the names the sanitizer gives the fields.
 */
module BeanProperties {
  import opened Wrappers
  import opened Text
  import opened Sanitizer
  import opened Fields
  import opened Poet
  import opened Sequences
  import opened Bean

  // ---- Layout ----

  /** Every line of `ls` is blank or sits at a depth from `lo` to `hi`. */
  predicate Within(ls: seq<Line>, lo: nat, hi: nat)
  {
    forall k :: 0 <= k < |ls| ==> ls[k] == Blank || lo <= ls[k].indent <= hi
  }

  /** Every line of `ls` is blank or sits one to three levels below depth `d`. */
  predicate InBody(ls: seq<Line>, d: nat)
  {
    Within(ls, d + 1, d + 3)
  }

  lemma WithinAppend(a: seq<Line>, b: seq<Line>, lo: nat, hi: nat)
    requires Within(a, lo, hi) && Within(b, lo, hi)
    ensures Within(a + b, lo, hi)
  {
    forall k | 0 <= k < |a + b|
      ensures (a + b)[k] == Blank || lo <= (a + b)[k].indent <= hi
    {
      if k >= |a| {
        assert (a + b)[k] == b[k - |a|];
      }
    }
  }

  lemma InBodyAppend(a: seq<Line>, b: seq<Line>, d: nat)
    requires InBody(a, d) && InBody(b, d)
    ensures InBody(a + b, d)
  {
    WithinAppend(a, b, d + 1, d + 3);
  }

  /** The properties sit one or two levels below the class statement. */
  lemma {:induction false} PropertyBlocksInBody(fs: seq<PythonField>, d: nat)
    ensures Within(PropertyBlocks(fs, d + 1), d + 1, d + 2)
    ensures InBody(PropertyBlocks(fs, d + 1), d)
    decreases |fs|
  {
    if fs != [] {
      PropertyBlocksInBody(fs[..|fs| - 1], d);
      WithinAppend(PropertyBlocks(fs[..|fs| - 1], d + 1), PropertyBlock(fs[|fs| - 1], d + 1), d + 1, d + 2);
    }
  }

  lemma DocsInBody(docs: Option<string>, d: nat)
    ensures InBody(DocLines(docs, d + 1) + [Blank], d)
  {
  }

  lemma RegistryInBody(fs: seq<PythonField>, d: nat)
    ensures InBody(RegistryBlock(fs, d + 1), d)
  {
    var r := RegistryBlock(fs, d + 1);
    var entries := RegistryEntries(fs, d + 3);
    forall k | 0 <= k < |r|
      ensures r[k] == Blank || d < r[k].indent <= d + 3
    {
      if 3 <= k < 3 + |fs| {
        assert r[k] == entries[k - 3];
      }
    }
  }

  /** The constructor sits one or two levels below the class statement. */
  lemma CtorInBody(fs: seq<PythonField>, d: nat)
    ensures Within(CtorBlock(fs, d + 1), d + 1, d + 2)
    ensures InBody(CtorBlock(fs, d + 1), d)
  {
    if fs != [] {
      var c := CtorBlock(fs, d + 1);
      var body := Assignments(fs, d + 2);
      forall k | 0 <= k < |c|
        ensures c[k] == Blank || d + 1 <= c[k].indent <= d + 2
      {
        if k > 0 {
          assert c[k] == body[k - 1];
        }
      }
    }
  }

  /** Everything Render writes after the class statement. */
  function ClassBody(b: BeanSnippet, d: nat): seq<Line>
  {
    DocLines(b.docs, d + 1) + [Blank]
    + RegistryBlock(b.fields, d + 1)
    + SlotsBlock(b.fields, d + 1)
    + CtorBlock(b.fields, d + 1)
    + PropertyBlocks(b.fields, d + 1)
    + [Blank, Blank]
  }

  lemma RenderIsHeaderAndBody(b: BeanSnippet, d: nat)
    ensures Render(b, d) == [Line(d, ClassHeader(b.className))] + ClassBody(b, d)
  {
    var header := [Line(d, ClassHeader(b.className))];
    var docs := DocLines(b.docs, d + 1) + [Blank];
    var registry := RegistryBlock(b.fields, d + 1);
    var slots := SlotsBlock(b.fields, d + 1);
    var ctor := CtorBlock(b.fields, d + 1);
    var properties := PropertyBlocks(b.fields, d + 1);
    AppendAssoc(header, DocLines(b.docs, d + 1), [Blank]);
    AppendAssoc(header, docs, registry);
    AppendAssoc(header, docs + registry, slots);
    AppendAssoc(header, docs + registry + slots, ctor);
    AppendAssoc(header, docs + registry + slots + ctor, properties);
    AppendAssoc(header, docs + registry + slots + ctor + properties, [Blank, Blank]);
  }

  /** The docstring, the registry and the slots, in a row, stay inside the class body. */
  lemma UpperBodyInBody(b: BeanSnippet, d: nat)
    ensures InBody(DocLines(b.docs, d + 1) + [Blank] + RegistryBlock(b.fields, d + 1) + SlotsBlock(b.fields, d + 1), d)
  {
    var docs := DocLines(b.docs, d + 1) + [Blank];
    var registry := RegistryBlock(b.fields, d + 1);
    DocsInBody(b.docs, d);
    RegistryInBody(b.fields, d);
    InBodyAppend(docs, registry, d);
    InBodyAppend(docs + registry, SlotsBlock(b.fields, d + 1), d);
  }

  lemma ClassBodyInBody(b: BeanSnippet, d: nat)
    ensures InBody(ClassBody(b, d), d)
  {
    var upper := DocLines(b.docs, d + 1) + [Blank] + RegistryBlock(b.fields, d + 1) + SlotsBlock(b.fields, d + 1);
    var ctor := CtorBlock(b.fields, d + 1);
    var properties := PropertyBlocks(b.fields, d + 1);
    UpperBodyInBody(b, d);
    CtorInBody(b.fields, d);
    PropertyBlocksInBody(b.fields, d);
    InBodyAppend(upper, ctor, d);
    InBodyAppend(upper + ctor, properties, d);
    InBodyAppend(upper + ctor + properties, [Blank, Blank], d);
  }

  /**
   * The class statement opens the output at the writer's depth; every
   * other line is blank or indented one to three levels deeper (class
   * body, method body, dictionary entries), and the class ends with two
   * blank lines.
   */
  lemma RenderIndentation(b: BeanSnippet, d: nat)
    ensures |Render(b, d)| >= 2
    ensures Render(b, d)[0] == Line(d, ClassHeader(b.className))
    ensures forall k :: 1 <= k < |Render(b, d)| ==>
              Render(b, d)[k] == Blank || d < Render(b, d)[k].indent <= d + 3
    ensures Render(b, d)[|Render(b, d)| - 2] == Blank && Render(b, d)[|Render(b, d)| - 1] == Blank
  {
    RenderIsHeaderAndBody(b, d);
    ClassBodyInBody(b, d);
    var body := ClassBody(b, d);
    forall k | 1 <= k < |Render(b, d)|
      ensures Render(b, d)[k] == Blank || d < Render(b, d)[k].indent <= d + 3
    {
      IndexPastHead(Line(d, ClassHeader(b.className)), body, k);
    }
  }

  // ---- Docstrings ----

  /**
   * A docstring is written as the opening quotes, the trimmed text and
   * the closing quotes, at the depth given; no text means no lines. The
   * written text neither starts nor ends with whitespace, and is empty
   * only when the documentation was all whitespace.
   */
  lemma DocLinesShape(docs: Option<string>, d: nat)
    ensures docs.None? ==> DocLines(docs, d) == []
    ensures docs.Some? ==>
              |DocLines(docs, d)| == 3
              && DocLines(docs, d)[0] == DocLines(docs, d)[2] == Line(d, "\"\"\"")
              && DocLines(docs, d)[1] == Line(d, Trim(docs.value))
              && Trim(DocLines(docs, d)[1].text) == DocLines(docs, d)[1].text
              && (DocLines(docs, d)[1].text == [] <==> forall k :: 0 <= k < |docs.value| ==> IsTrimmable(docs.value[k]))
  {
    if docs.Some? {
      TrimSpec(docs.value);
      TrimIdempotent(docs.value);
    }
  }

  // ---- The _fields registry ----

  /**
   * The registry holds, between `return {` and `}`, one entry per field in
   * declared order, each keyed by the field's Python name and naming its
   * JSON identifier; every entry but the last ends with a comma, the last
   * with the closing parenthesis.
   */
  lemma RegistryEntriesShape(fs: seq<PythonField>, d: nat)
    ensures |RegistryBlock(fs, d)| == |fs| + 4
    ensures RegistryBlock(fs, d)[2] == Line(d + 1, "return {")
    ensures RegistryBlock(fs, d)[|fs| + 3] == Line(d + 1, "}")
    ensures forall i :: 0 <= i < |fs| ==>
              var e := RegistryBlock(fs, d)[i + 3];
              e.indent == d + 2
              && StartsWith(e.text, "'" + ParamName(fs[i]) + "': ConjureFieldDefinition('" + fs[i].jsonIdentifier + "', ")
              && EndsWith(e.text, fs[i].pythonType + ")" + (if i == |fs| - 1 then "" else ","))
              && |e.text| > 0
              && (e.text[|e.text| - 1] == ',' <==> i < |fs| - 1)
              && (e.text[|e.text| - 1] == ')' <==> i == |fs| - 1)
  {
    var entries := RegistryEntries(fs, d + 2);
    forall i | 0 <= i < |fs|
      ensures var e := RegistryBlock(fs, d)[i + 3];
              e.indent == d + 2
              && StartsWith(e.text, "'" + ParamName(fs[i]) + "': ConjureFieldDefinition('" + fs[i].jsonIdentifier + "', ")
              && EndsWith(e.text, fs[i].pythonType + ")" + (if i == |fs| - 1 then "" else ","))
              && |e.text| > 0
              && (e.text[|e.text| - 1] == ',' <==> i < |fs| - 1)
              && (e.text[|e.text| - 1] == ')' <==> i == |fs| - 1)
    {
      assert RegistryBlock(fs, d)[i + 3] == entries[i];
      var key := "'" + ParamName(fs[i]) + "': ConjureFieldDefinition('" + fs[i].jsonIdentifier + "', ";
      var call := key + fs[i].pythonType + ")";
      var t := RegistryEntry(fs[i], i == |fs| - 1);
      var suffix := fs[i].pythonType + ")" + (if i == |fs| - 1 then "" else ",");
      assert t == call + (if i == |fs| - 1 then "" else ",");
      assert t == key + suffix;
      assert t[..|key|] == key;
      assert t[|t| - |suffix|..] == suffix;
    }
  }

  /** A bean with no fields still has the registry method, returning an empty dictionary. */
  lemma EmptyRegistry(d: nat)
    ensures RegistryBlock([], d) == [
              Line(d, "@builtins.classmethod"),
              Line(d, "def _fields(cls) -> Dict[str, ConjureFieldDefinition]:"),
              Line(d + 1, "return {"),
              Line(d + 1, "}")]
  {
    assert RegistryEntries([], d + 2) == [];
  }

  // ---- The constructor ----

  /**
   * The constructor is written exactly when there are fields: its
   * `def __init__(self, ...)` line, then, one level deeper and in
   * declared order, one assignment per field storing the parameter into
   * the field's backing slot.
   */
  lemma CtorShape(fs: seq<PythonField>, d: nat)
    ensures CtorBlock(fs, d) == [] <==> fs == []
    ensures fs != [] ==>
              |CtorBlock(fs, d)| == |fs| + 1
              && CtorBlock(fs, d)[0] == Line(d, InitLine(fs))
              && StartsWith(InitLine(fs), InitHead)
    ensures forall i :: 0 <= i < |fs| ==>
              CtorBlock(fs, d)[i + 1] == Line(d + 1, "self._" + Backing(fs[i]) + " = " + ParamName(fs[i]))
  {
    if fs != [] {
      var rest := Join(Params(SortByComparator(fs)), ", ") + ") -> None:";
      AppendAssoc(InitHead, Join(Params(SortByComparator(fs)), ", "), ") -> None:");
      PrefixOfAppend(InitHead, rest);
      forall i | 0 <= i < |fs|
        ensures CtorBlock(fs, d)[i + 1] == Line(d + 1, "self._" + Backing(fs[i]) + " = " + ParamName(fs[i]))
      {
        assert CtorBlock(fs, d)[i + 1] == Assignments(fs, d + 1)[i];
      }
    }
  }

  /**
   * The constructor's parameters: one per field, the fields ordered by
   * the comparator (required before optional, declared order kept within
   * each group), so that every parameter with a `= None` default follows
   * every parameter without one, as Python requires.
   */
  lemma ParamsDefaultsLast(fs: seq<PythonField>)
    ensures |Params(SortByComparator(fs))| == |fs|
    ensures multiset(SortByComparator(fs)) == multiset(fs)
    ensures forall k :: 0 <= k < |fs| ==>
              var f := SortByComparator(fs)[k];
              Params(SortByComparator(fs))[k]
                == ParamName(f) + ": " + f.myPyType + (if f.isOptional then " = None" else "")
    ensures forall i, j :: 0 <= i < j < |fs| && SortByComparator(fs)[i].isOptional ==>
              SortByComparator(fs)[j].isOptional
  {
    SortByComparatorIsStableSort(fs);
    assert |SortByComparator(fs)| == |fs| by {
      assert |multiset(SortByComparator(fs))| == |multiset(fs)|;
    }
  }

  /**
   * The parameters the constructor line lists, in order, are exactly the
   * comma-separated parameters of the comparator-sorted fields.
   */
  lemma InitLineListsParams(fs: seq<PythonField>, i: nat)
    requires i < |SortByComparator(fs)|
    ensures var ps := Params(SortByComparator(fs));
            var at := |InitHead| + JoinOffset(ps, ", ", i);
            at + |ps[i]| <= |InitLine(fs)|
            && InitLine(fs)[at..at + |ps[i]|] == ps[i]
  {
    var ps := Params(SortByComparator(fs));
    ItemInJoin(InitHead, ps, ", ", ") -> None:", i);
  }

  /**
   * Position `|Prologue| + |fs| + 7` of the output, the line after the
   * slots block, starts a constructor exactly when the bean has fields;
   * otherwise it is a blank line.
   */
  lemma InitLineIffFields(b: BeanSnippet, d: nat)
    ensures var p := |Prologue(b, d)| + |b.fields| + 7;
            p < |Render(b, d)|
            && (StartsWith(Render(b, d)[p].text, InitHead) <==> b.fields != [])
            && (b.fields != [] ==> Render(b, d)[p] == Line(d + 1, InitLine(b.fields)))
            && (b.fields == [] ==> Render(b, d)[p] == Blank)
  {
    var fs := b.fields;
    var head := Prologue(b, d) + RegistryBlock(fs, d + 1) + SlotsBlock(fs, d + 1);
    var tail := CtorBlock(fs, d + 1) + PropertyBlocks(fs, d + 1) + [Blank, Blank];
    RegistryEntriesShape(fs, d + 1);
    CtorShape(fs, d + 1);
    AppendAssoc(head, CtorBlock(fs, d + 1), PropertyBlocks(fs, d + 1));
    AppendAssoc(head, CtorBlock(fs, d + 1) + PropertyBlocks(fs, d + 1), [Blank, Blank]);
    assert Render(b, d) == head + tail;
    var p := |Prologue(b, d)| + |fs| + 7;
    assert |head| == p;
    assert Render(b, d)[p] == tail[0];
    if fs == [] {
      assert tail == [Blank, Blank];
      assert !StartsWith("", InitHead);
    } else {
      assert tail[0] == Line(d + 1, InitLine(fs));
    }
  }

  // ---- Slots and properties ----

  /** A bean with no fields declares an empty `__slots__` list. */
  lemma EmptySlots()
    ensures SlotsLine([]) == "__slots__: List[str] = []"
  {
    assert SlotItems([]) == [];
  }

  /** The `__slots__` line names the backing slot of every field, in declared order. */
  lemma SlotsLineNamesSlot(fs: seq<PythonField>, i: nat)
    requires i < |fs|
    ensures var at := |SlotsPrefix| + JoinOffset(SlotItems(fs), ", ", i);
            var item := "'_" + Backing(fs[i]) + "'";
            at + |item| <= |SlotsLine(fs)|
            && SlotsLine(fs)[at..at + |item|] == item
  {
    ItemInJoin(SlotsPrefix, SlotItems(fs), ", ", "]", i);
  }

  /** The properties of a prefix of the fields come first among the properties of all of them. */
  lemma {:induction false} PropertyBlocksPrefix(fs: seq<PythonField>, n: nat, d: nat)
    requires n <= |fs|
    ensures |PropertyBlocks(fs[..n], d)| <= |PropertyBlocks(fs, d)|
    ensures PropertyBlocks(fs, d)[..|PropertyBlocks(fs[..n], d)|] == PropertyBlocks(fs[..n], d)
    decreases |fs| - n
  {
    if n == |fs| {
      assert fs[..n] == fs;
    } else {
      PropertyBlocksPrefix(fs, n + 1, d);
      PropertyBlocksSnoc(fs, n, d);
      var a := PropertyBlocks(fs[..n], d);
      var c := PropertyBlocks(fs[..n + 1], d);
      assert c[..|a|] == a;
      assert PropertyBlocks(fs, d)[..|a|] == c[..|a|];
    }
  }

  /**
   * One property: a blank line, `@builtins.property`, `def <name>(self) -> <type>:`,
   * the field's docstring one level deeper, and a getter returning the
   * field's backing slot.
   */
  lemma PropertyBlockShape(f: PythonField, d: nat)
    ensures var block := PropertyBlock(f, d);
            |block| >= 4
            && block[0] == Blank
            && block[1] == Line(d, "@builtins.property")
            && block[2] == Line(d, "def " + ParamName(f) + "(self) -> " + f.myPyType + ":")
            && block[3..|block| - 1] == DocLines(f.docs, d + 1)
            && block[|block| - 1] == Line(d + 1, "return self._" + Backing(f))
  {
    var head := [Blank, Line(d, PropertyDecorator), Line(d, PropertyDef(f))];
    var docs := DocLines(f.docs, d + 1);
    var block := PropertyBlock(f, d);
    assert block == head + docs + [Line(d + 1, Getter(f))];
    assert block[3..|block| - 1] == docs;
  }

  /** Field `i`'s property is written right after the properties of the fields before it. */
  lemma PropertyOfField(fs: seq<PythonField>, d: nat, i: nat)
    requires i < |fs|
    ensures |PropertyBlocks(fs[..i], d)| + |PropertyBlock(fs[i], d)| <= |PropertyBlocks(fs, d)|
    ensures PropertyBlocks(fs, d)[|PropertyBlocks(fs[..i], d)|..|PropertyBlocks(fs[..i], d)| + |PropertyBlock(fs[i], d)|]
            == PropertyBlock(fs[i], d)
  {
    var whole, before, block := PropertyBlocks(fs, d), PropertyBlocks(fs[..i], d), PropertyBlock(fs[i], d);
    PropertyBlocksPrefix(fs, i + 1, d);
    PropertyBlocksSnoc(fs, i, d);
    assert whole[..|before + block|] == before + block;
    BlockInPrefix(whole, before, block);
  }

  // ---- Names ----

  /**
   * No backing slot is `_fields`: the slot of a field named `fields` is
   * `_fields_`, so it cannot shadow the registry class method.
   */
  lemma NoSlotShadowsRegistry(f: PythonField)
    ensures Backing(f) != "fields"
    ensures f.attributeName == "fields" ==> Backing(f) == "fields_"
  {
    SanitizeSpec(f.attributeName, ProtectedFields);
    var r := Backing(f);
    if r != f.attributeName {
      assert r == f.attributeName + "_";
      assert r[|r| - 1] == '_';
    }
  }

  /** Python names are never keywords, and the backing slot is the Python name except for `fields`. */
  lemma NamesAreSafe(f: PythonField)
    ensures ParamName(f) !in Keywords && Backing(f) !in Keywords
    ensures f.attributeName != "fields" ==> Backing(f) == ParamName(f)
  {
    SanitizeSpec(f.attributeName, {});
    SanitizeSpec(f.attributeName, ProtectedFields);
  }

  /**
   * Distinct attribute names that do not end in `_` get distinct backing
   * slots and distinct Python names, so the slots, the registry keys and
   * the constructor parameters are free of duplicates.
   */
  lemma DistinctNames(fs: seq<PythonField>)
    requires forall i, j :: 0 <= i < j < |fs| ==> fs[i].attributeName != fs[j].attributeName
    requires forall i :: 0 <= i < |fs| ==> fs[i].attributeName == [] || fs[i].attributeName[|fs[i].attributeName| - 1] != '_'
    ensures forall i, j :: 0 <= i < j < |fs| ==> Backing(fs[i]) != Backing(fs[j]) && ParamName(fs[i]) != ParamName(fs[j])
  {
    forall i, j | 0 <= i < j < |fs|
      ensures Backing(fs[i]) != Backing(fs[j]) && ParamName(fs[i]) != ParamName(fs[j])
    {
      SanitizeInjective(fs[i].attributeName, fs[j].attributeName, ProtectedFields);
      SanitizeInjective(fs[i].attributeName, fs[j].attributeName, {});
    }
  }

  /**
   * Without the trailing-underscore condition, names can collide: fields
   * named `fields` and `fields_` share the backing slot `_fields_`.
   */
  lemma BackingNamesCanCollide(f: PythonField, g: PythonField)
    requires f.attributeName == "fields" && g.attributeName == "fields_"
    ensures Backing(f) == Backing(g) == "fields_"
  {
    assert "fields_" !in Keywords by {
      if "fields_" in Keywords {
        KeywordsEndInLetters("fields_");
      }
    }
  }
}
