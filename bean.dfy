/**
 * The bean (record) class renderer, BeanSnippet.emit: the bean value, the
 * lines it renders as (a function of the bean and the starting depth),
 * the depths the writer passes through, and the imperative renderer that
 * drives a PythonPoetWriter step by step.
 */
module Bean {
  import opened Wrappers
  import opened Text
  import opened Sanitizer
  import opened Fields
  import opened Poet
  import opened Sequences

  /** Names a backing slot must avoid: the `_fields` registry accessor's own name. */
  const ProtectedFields: set<string> := {"fields"}

  /**
   * A bean declaration. `sortKey` is the value set for idForSorting
   * through the builder, if any.
   */
  datatype BeanSnippet = BeanSnippet(
    className: string,
    definitionName: string,
    definitionPackage: string,
    docs: Option<string>,
    fields: seq<PythonField>,
    sortKey: Option<string>)

  /** idForSorting: the class name unless the builder set another key. */
  function IdForSorting(b: BeanSnippet): string
  {
    match b.sortKey
    case Some(key) => key
    case None => b.className
  }

  // ---- Names derived from a field ----

  /** The Python name of a field: registry key, parameter and property name. */
  function ParamName(f: PythonField): string
  {
    Sanitize(f.attributeName, {})
  }

  /** The backing slot of a field, without its leading `_`. */
  function Backing(f: PythonField): string
  {
    Sanitize(f.attributeName, ProtectedFields)
  }

  // ---- Line texts ----

  const DocQuote := "\"\"\""
  const FieldsDecorator := "@builtins.classmethod"
  const FieldsSignature := "def _fields(cls) -> Dict[str, ConjureFieldDefinition]:"
  const RegistryOpen := "return {"
  const RegistryClose := "}"
  const PropertyDecorator := "@builtins.property"
  const InitHead := "def __init__(self, "

  function ClassHeader(className: string): string
  {
    "class " + className + "(ConjureBeanType):"
  }

  function RegistryEntry(f: PythonField, last: bool): string
  {
    "'" + ParamName(f) + "': ConjureFieldDefinition('" + f.jsonIdentifier + "', " + f.pythonType + ")"
    + (if last then "" else ",")
  }

  function SlotItem(f: PythonField): string
  {
    "'_" + Backing(f) + "'"
  }

  function SlotItems(fs: seq<PythonField>): seq<string>
  {
    seq(|fs|, i requires 0 <= i < |fs| => SlotItem(fs[i]))
  }

  const SlotsPrefix := "__slots__: List[str] = ["

  function SlotsLine(fs: seq<PythonField>): string
  {
    SlotsPrefix + Join(SlotItems(fs), ", ") + "]"
  }

  function Param(f: PythonField): string
  {
    ParamName(f) + ": " + f.myPyType + (if f.isOptional then " = None" else "")
  }

  function Params(fs: seq<PythonField>): seq<string>
  {
    seq(|fs|, i requires 0 <= i < |fs| => Param(fs[i]))
  }

  function InitLine(fs: seq<PythonField>): string
  {
    InitHead + Join(Params(SortByComparator(fs)), ", ") + ") -> None:"
  }

  function Assignment(f: PythonField): string
  {
    "self._" + Backing(f) + " = " + ParamName(f)
  }

  function PropertyDef(f: PythonField): string
  {
    "def " + ParamName(f) + "(self) -> " + f.myPyType + ":"
  }

  function Getter(f: PythonField): string
  {
    "return self._" + Backing(f)
  }

  // ---- Blocks of lines ----

  /** A docstring: absent, or opening quotes, the trimmed text, closing quotes. */
  function DocLines(docs: Option<string>, d: nat): seq<Line>
  {
    match docs
    case None => []
    case Some(text) => [Line(d, DocQuote), Line(d, Trim(text)), Line(d, DocQuote)]
  }

  /** The class line, the class docstring and the blank line after them. */
  function Prologue(b: BeanSnippet, d: nat): seq<Line>
  {
    [Line(d, ClassHeader(b.className))] + DocLines(b.docs, d + 1) + [Blank]
  }

  /**
   * The registry entries, one per field in declared order; every entry
   * but the last ends with a comma.
   */
  function RegistryEntries(fs: seq<PythonField>, d: nat): seq<Line>
  {
    seq(|fs|, i requires 0 <= i < |fs| => Line(d, RegistryEntry(fs[i], i == |fs| - 1)))
  }

  /** The `_fields` class method; `d` is the class body's depth. */
  function RegistryBlock(fs: seq<PythonField>, d: nat): seq<Line>
  {
    [Line(d, FieldsDecorator), Line(d, FieldsSignature), Line(d + 1, RegistryOpen)]
    + RegistryEntries(fs, d + 2)
    + [Line(d + 1, RegistryClose)]
  }

  /** The `__slots__` declaration between two blank lines. */
  function SlotsBlock(fs: seq<PythonField>, d: nat): seq<Line>
  {
    [Blank, Line(d, SlotsLine(fs)), Blank]
  }

  /** One slot assignment per field, in declared order. */
  function Assignments(fs: seq<PythonField>, d: nat): seq<Line>
  {
    seq(|fs|, i requires 0 <= i < |fs| => Line(d, Assignment(fs[i])))
  }

  /**
   * The constructor: nothing when there are no fields, otherwise the
   * `def __init__` line and, one level deeper, one assignment per field.
   */
  function CtorBlock(fs: seq<PythonField>, d: nat): seq<Line>
  {
    if fs == [] then [] else [Line(d, InitLine(fs))] + Assignments(fs, d + 1)
  }

  /** One read-only property. */
  function PropertyBlock(f: PythonField, d: nat): seq<Line>
  {
    [Blank, Line(d, PropertyDecorator), Line(d, PropertyDef(f))]
    + DocLines(f.docs, d + 1)
    + [Line(d + 1, Getter(f))]
  }

  /** The properties of `fs`, in declared order. */
  function PropertyBlocks(fs: seq<PythonField>, d: nat): seq<Line>
  {
    if fs == [] then []
    else PropertyBlocks(fs[..|fs| - 1], d) + PropertyBlock(fs[|fs| - 1], d)
  }

  lemma PropertyTraceSnoc(n: nat, d: nat)
    ensures PropertyTrace(n + 1, d) == PropertyTrace(n, d) + [d + 1, d]
  {
  }

  lemma PropertyBlocksSnoc(fs: seq<PythonField>, i: nat, d: nat)
    requires i < |fs|
    ensures PropertyBlocks(fs[..i + 1], d) == PropertyBlocks(fs[..i], d) + PropertyBlock(fs[i], d)
  {
    assert fs[..i + 1][..i] == fs[..i];
  }

  /** Everything emit writes for `b` when the writer starts at depth `d`. */
  function Render(b: BeanSnippet, d: nat): seq<Line>
  {
    Prologue(b, d)
    + RegistryBlock(b.fields, d + 1)
    + SlotsBlock(b.fields, d + 1)
    + CtorBlock(b.fields, d + 1)
    + PropertyBlocks(b.fields, d + 1)
    + [Blank, Blank]
  }

  // ---- Depths ----

  /** The depths the property loop moves through for `n` fields: one level in and back, per field. */
  function PropertyTrace(n: nat, d: nat): seq<nat>
  {
    seq(2 * n, k requires 0 <= k < 2 * n => if k % 2 == 0 then d + 1 else d)
  }

  /** The depths the registry moves through from depth `d`: into the dictionary, into its entries, and back out. */
  function RegistryTrace(d: nat): seq<nat>
  {
    [d + 1, d + 2, d + 1, d]
  }

  /** The depths the constructor moves through from depth `d`: none without fields, else into the body and back. */
  function CtorTrace(fields: seq<PythonField>, d: nat): seq<nat>
  {
    if fields == [] then [] else [d + 1, d]
  }

  /** Every depth emit moves the writer to, in order, starting from depth `d`. */
  function DepthTrace(b: BeanSnippet, d: nat): seq<nat>
  {
    [d + 1]
    + RegistryTrace(d + 1)
    + CtorTrace(b.fields, d + 1)
    + PropertyTrace(|b.fields|, d + 1)
    + [d]
  }

  lemma {:induction false} PropertyTraceBounds(n: nat, d: nat)
    ensures |PropertyTrace(n, d)| == 2 * n
    ensures forall k :: 0 <= k < 2 * n ==> PropertyTrace(n, d)[k] in {d, d + 1}
  {
    if n > 0 {
      PropertyTraceBounds(n - 1, d);
    }
  }

  /**
   * The writer never goes back to the starting depth before the very
   * last step, never goes more than three levels deeper, and ends where
   * it started.
   */
  lemma DepthTraceBalanced(b: BeanSnippet, d: nat)
    ensures |DepthTrace(b, d)| > 0
    ensures DepthTrace(b, d)[|DepthTrace(b, d)| - 1] == d
    ensures forall k :: 0 <= k < |DepthTrace(b, d)| - 1 ==> d < DepthTrace(b, d)[k] <= d + 3
  {
  }

  // ---- The renderer ----

  /**
   * Lines 73-89 of emit: the `_fields` class method, its entries written
   * by the indexed loop over the fields.
   */
  method EmitRegistry(fields: seq<PythonField>, w: PythonPoetWriter)
    modifies w
    ensures w.lines == old(w.lines) + RegistryBlock(fields, old(w.depth))
    ensures w.depth == old(w.depth)
    ensures w.depths == old(w.depths) + RegistryTrace(old(w.depth))
  {
    ghost var d := w.depth;
    ghost var lines0 := w.lines;
    w.WriteIndentedLine(FieldsDecorator);
    w.WriteIndentedLine(FieldsSignature);
    w.IncreaseIndent();
    w.WriteIndentedLine(RegistryOpen);
    w.IncreaseIndent();
    ghost var opening := [Line(d, FieldsDecorator), Line(d, FieldsSignature), Line(d + 1, RegistryOpen)];
    AppendThree(lines0, Line(d, FieldsDecorator), Line(d, FieldsSignature), Line(d + 1, RegistryOpen));
    ghost var lines1 := w.lines;
    ghost var depths1 := w.depths;
    ghost var entries := RegistryEntries(fields, d + 2);
    for i := 0 to |fields|
      invariant w.depth == d + 2 && w.depths == depths1
      invariant w.lines == lines1 + entries[..i]
    {
      AppendNext(lines1, entries, i);
      w.WriteIndentedLine(RegistryEntry(fields[i], i == |fields| - 1));
    }
    TakeAll(entries);
    w.DecreaseIndent();
    w.WriteIndentedLine(RegistryClose);
    w.DecreaseIndent();
    AppendAssoc(lines0, opening, entries);
    AppendAssoc(lines0, opening + entries, [Line(d + 1, RegistryClose)]);
  }

  /** Lines 121-124 of emit: one slot assignment per field, in declared order. */
  method EmitAssignments(fields: seq<PythonField>, w: PythonPoetWriter)
    modifies w
    ensures w.lines == old(w.lines) + Assignments(fields, old(w.depth))
    ensures w.depth == old(w.depth) && w.depths == old(w.depths)
  {
    ghost var lines0 := w.lines;
    ghost var body := Assignments(fields, w.depth);
    for i := 0 to |fields|
      invariant w.depth == old(w.depth) && w.depths == old(w.depths)
      invariant w.lines == lines0 + body[..i]
    {
      AppendNext(lines0, body, i);
      w.WriteIndentedLine(Assignment(fields[i]));
    }
    TakeAll(body);
  }

  /**
   * Lines 103-126 of emit: the constructor, written only when there are
   * fields.
   */
  method EmitConstructor(fields: seq<PythonField>, w: PythonPoetWriter)
    modifies w
    ensures w.lines == old(w.lines) + CtorBlock(fields, old(w.depth))
    ensures w.depth == old(w.depth)
    ensures w.depths == old(w.depths) + CtorTrace(fields, old(w.depth))
  {
    ghost var d := w.depth;
    ghost var lines0, depths0 := w.lines, w.depths;
    if fields != [] {
      w.WriteIndentedLine(InitLine(fields));
      w.IncreaseIndent();
      EmitAssignments(fields, w);
      w.DecreaseIndent();
      assert w.depth == d;
      AppendAssoc(lines0, [Line(d, InitLine(fields))], Assignments(fields, d + 1));
      AppendTwo(depths0, d + 1, d);
    }
  }

  /** Lines 62-70 of emit: the class statement, its docstring and a blank line; the body is one level in. */
  method EmitPrologue(b: BeanSnippet, w: PythonPoetWriter)
    modifies w
    ensures w.lines == old(w.lines) + Prologue(b, old(w.depth))
    ensures w.depth == old(w.depth) + 1
    ensures w.depths == old(w.depths) + [old(w.depth) + 1]
  {
    ghost var d, lines0 := w.depth, w.lines;
    ghost var header := [Line(d, ClassHeader(b.className))];
    w.WriteIndentedLine(ClassHeader(b.className));
    w.IncreaseIndent();
    EmitDocs(b.docs, w);
    w.WriteLine();
    AppendAssoc(lines0, header, DocLines(b.docs, d + 1));
    AppendAssoc(lines0, header + DocLines(b.docs, d + 1), [Blank]);
  }

  /** Lines 91-100 of emit: the `__slots__` line between two blank lines. */
  method EmitSlots(fields: seq<PythonField>, w: PythonPoetWriter)
    modifies w
    ensures w.lines == old(w.lines) + SlotsBlock(fields, old(w.depth))
    ensures w.depth == old(w.depth) && w.depths == old(w.depths)
  {
    ghost var lines0 := w.lines;
    w.WriteLine();
    w.WriteIndentedLine(SlotsLine(fields));
    w.WriteLine();
    AppendThree(lines0, Blank, Line(w.depth, SlotsLine(fields)), Blank);
  }

  /** Lines 64-68 and 137-141 of emit: a docstring, if there is one. */
  method EmitDocs(docs: Option<string>, w: PythonPoetWriter)
    modifies w
    ensures w.lines == old(w.lines) + DocLines(docs, old(w.depth))
    ensures w.depth == old(w.depth) && w.depths == old(w.depths)
  {
    ghost var lines0 := w.lines;
    if docs.Some? {
      w.WriteIndentedLine(DocQuote);
      w.WriteIndentedLine(Trim(docs.value));
      w.WriteIndentedLine(DocQuote);
      AppendThree(lines0, Line(w.depth, DocQuote), Line(w.depth, Trim(docs.value)), Line(w.depth, DocQuote));
    }
  }

  /** Lines 130-144 of emit: the property of one field. */
  method EmitProperty(f: PythonField, w: PythonPoetWriter)
    modifies w
    ensures w.lines == old(w.lines) + PropertyBlock(f, old(w.depth))
    ensures w.depth == old(w.depth)
    ensures w.depths == old(w.depths) + [old(w.depth) + 1, old(w.depth)]
  {
    ghost var d := w.depth;
    ghost var lines0 := w.lines;
    w.WriteLine();
    w.WriteIndentedLine(PropertyDecorator);
    w.WriteIndentedLine(PropertyDef(f));
    ghost var head := [Blank, Line(d, PropertyDecorator), Line(d, PropertyDef(f))];
    AppendThree(lines0, Blank, Line(d, PropertyDecorator), Line(d, PropertyDef(f)));
    w.IncreaseIndent();
    EmitDocs(f.docs, w);
    w.WriteIndentedLine(Getter(f));
    w.DecreaseIndent();
    AppendAssoc(lines0, head, DocLines(f.docs, d + 1));
    AppendAssoc(lines0, head + DocLines(f.docs, d + 1), [Line(d + 1, Getter(f))]);
  }

  /** Lines 129-145 of emit: one property per field, in declared order. */
  method EmitProperties(fields: seq<PythonField>, w: PythonPoetWriter)
    modifies w
    ensures w.lines == old(w.lines) + PropertyBlocks(fields, old(w.depth))
    ensures w.depth == old(w.depth)
    ensures w.depths == old(w.depths) + PropertyTrace(|fields|, old(w.depth))
  {
    ghost var d := w.depth;
    ghost var lines0, depths0 := w.lines, w.depths;
    for i := 0 to |fields|
      invariant w.depth == d
      invariant w.depths == depths0 + PropertyTrace(i, d)
      invariant w.lines == lines0 + PropertyBlocks(fields[..i], d)
    {
      ghost var before, block := PropertyBlocks(fields[..i], d), PropertyBlock(fields[i], d);
      EmitProperty(fields[i], w);
      PropertyBlocksSnoc(fields, i, d);
      PropertyTraceSnoc(i, d);
      AppendAssoc(lines0, before, block);
      AppendAssoc(depths0, PropertyTrace(i, d), [d + 1, d]);
    }
    TakeAll(fields);
  }

  /**
   * BeanSnippet.emit: writes the class for `b` into `w`, one line at a
   * time, and leaves the depth where it found it, never having gone
   * below it.
   */
  method Emit(b: BeanSnippet, w: PythonPoetWriter)
    modifies w
    ensures w.lines == old(w.lines) + Render(b, old(w.depth))
    ensures w.depth == old(w.depth)
    ensures w.depths == old(w.depths) + DepthTrace(b, old(w.depth))
    ensures forall k :: |old(w.depths)| <= k < |w.depths| ==> old(w.depth) <= w.depths[k]
  {
    ghost var d := w.depth;
    ghost var lines0, depths0 := w.lines, w.depths;
    EmitPrologue(b, w);
    EmitRegistry(b.fields, w);
    EmitSlots(b.fields, w);
    EmitConstructor(b.fields, w);
    EmitProperties(b.fields, w);
    w.DecreaseIndent();
    assert w.depth == d;
    w.WriteLine();
    w.WriteLine();
    RenderInOrder(lines0, b, d);
    DepthTraceInOrder(depths0, b, d);
    DepthTraceBalanced(b, d);
  }

  /** Render's blocks, appended one after the other as emit writes them. */
  lemma RenderInOrder(lines0: seq<Line>, b: BeanSnippet, d: nat)
    ensures lines0 + Prologue(b, d)
            + RegistryBlock(b.fields, d + 1)
            + SlotsBlock(b.fields, d + 1)
            + CtorBlock(b.fields, d + 1)
            + PropertyBlocks(b.fields, d + 1)
            + [Blank] + [Blank]
            == lines0 + Render(b, d)
  {
    var prologue, registry := Prologue(b, d), RegistryBlock(b.fields, d + 1);
    var slots, ctor := SlotsBlock(b.fields, d + 1), CtorBlock(b.fields, d + 1);
    var properties := PropertyBlocks(b.fields, d + 1);
    AppendAssoc(lines0, prologue, registry);
    AppendAssoc(lines0, prologue + registry, slots);
    AppendAssoc(lines0, prologue + registry + slots, ctor);
    AppendAssoc(lines0, prologue + registry + slots + ctor, properties);
    AppendTwo(lines0 + (prologue + registry + slots + ctor + properties), Blank, Blank);
    AppendAssoc(lines0, prologue + registry + slots + ctor + properties, [Blank, Blank]);
  }

  /** DepthTrace's pieces, appended one after the other as emit moves the writer. */
  lemma DepthTraceInOrder(depths0: seq<nat>, b: BeanSnippet, d: nat)
    ensures depths0 + [d + 1] + RegistryTrace(d + 1)
            + CtorTrace(b.fields, d + 1)
            + PropertyTrace(|b.fields|, d + 1)
            + [d]
            == depths0 + DepthTrace(b, d)
  {
    var t2 := RegistryTrace(d + 1);
    var t3 := CtorTrace(b.fields, d + 1);
    var t4 := PropertyTrace(|b.fields|, d + 1);
    AppendAssoc(depths0, [d + 1], t2);
    AppendAssoc(depths0, [d + 1] + t2, t3);
    AppendAssoc(depths0, [d + 1] + t2 + t3, t4);
    AppendAssoc(depths0, [d + 1] + t2 + t3 + t4, [d]);
  }
}
