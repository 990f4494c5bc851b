# Bean declaration renderer of conjure-python, in Dafny

This project models `BeanSnippet.emit` from conjure-python. That is the code that turns one Conjure object definition (a "bean") into a Python class deriving from `ConjureBeanType`. The rendered class has:

- the class statement and an optional docstring;
- the `_fields` class method, whose registry maps each field's Python name to a `ConjureFieldDefinition`;
- a `__slots__` declaration naming one backing slot per field;
- a constructor with one parameter per field, written only when there are fields, with required parameters before optional ones that default to `None`;
- one read-only property per field;
- two blank lines closing the class.

The model has three layers:

- **The writer.** `Poet.PythonPoetWriter` is a class with the writer's state: the lines written so far, each with the indent depth it was written at, and the current depth. A ghost history of the depths it moved through is kept beside them.
- **The renderer.** `Bean.Emit` and its helper methods drive the writer call by call, in the same order as the Java code. Each helper is proved to append exactly its part of the specification function `Bean.Render`, and to leave the depth where the code leaves it. `EmitPrologue` ends one level in, for the class body. Every other helper ends at the depth it started at.
- **The properties.** Lemmas about `Render` state what the rendered class looks like. Lemmas about the helpers state the behaviour of `String.trim`, of joining with `", "`, of the identifier sanitizer and of the field comparator.

Source paths below are relative to the repository root. Every cited line is in `BeanSnippet.java`, written in full as `conjure-python-core/src/main/java/com/palantir/conjure/python/poet/BeanSnippet.java`.

## Model

| member | source | states |
|---|---|---|
| Bean.Emit | conjure-python-core/src/main/java/com/palantir/conjure/python/poet/BeanSnippet.java:61-150 | appends exactly `Render(b, d)` after the lines already written, where d is the starting depth; moves the depth exactly through `DepthTrace(b, d)`; ends at the starting depth and never goes below it |
| Bean.EmitPrologue | conjure-python-core/src/main/java/com/palantir/conjure/python/poet/BeanSnippet.java:62-70 | appends the class statement at the current depth, then the docstring and a blank line one level deeper; the depth ends one level in |
| Bean.EmitSlots | conjure-python-core/src/main/java/com/palantir/conjure/python/poet/BeanSnippet.java:91-100 | appends the `__slots__` line between two blank lines; the depth is unchanged |
| Bean.EmitDocs | conjure-python-core/src/main/java/com/palantir/conjure/python/poet/BeanSnippet.java:64-68 | appends nothing when there is no documentation; otherwise appends the opening quotes, the trimmed text and the closing quotes at the current depth; the depth is unchanged |
| Bean.EmitRegistry | conjure-python-core/src/main/java/com/palantir/conjure/python/poet/BeanSnippet.java:73-89 | appends the `_fields` method with its indexed entry loop, i.e. `RegistryBlock`; goes two levels in and back out again |
| Bean.EmitConstructor | conjure-python-core/src/main/java/com/palantir/conjure/python/poet/BeanSnippet.java:102-126 | appends nothing and leaves the depth untouched when there are no fields; otherwise appends the `__init__` line and one assignment per field at one level deeper, then comes back |
| Bean.EmitAssignments | conjure-python-core/src/main/java/com/palantir/conjure/python/poet/BeanSnippet.java:121-124 | appends one `self._<backing> = <name>` line per field, in declared order, at the current depth; the depth is unchanged |
| Bean.EmitProperty | conjure-python-core/src/main/java/com/palantir/conjure/python/poet/BeanSnippet.java:130-144 | appends a blank line, the decorator, the `def` line, the field's docstring and the getter one level deeper, then comes back |
| Bean.EmitProperties | conjure-python-core/src/main/java/com/palantir/conjure/python/poet/BeanSnippet.java:129-145 | appends the properties of all fields in declared order; each field goes one level in and back |
| Bean.RenderInOrder | conjure-python-core/src/main/java/com/palantir/conjure/python/poet/BeanSnippet.java:61-150 | the blocks, appended one after the other in the order emit writes them, make up `Render` |
| Bean.DepthTraceInOrder | conjure-python-core/src/main/java/com/palantir/conjure/python/poet/BeanSnippet.java:61-150 | the depth changes, taken in the order emit makes them, make up `DepthTrace` |
| Bean.DepthTraceBalanced | conjure-python-core/src/main/java/com/palantir/conjure/python/poet/BeanSnippet.java:63-148 | the indent changes are balanced: the last one returns to the starting depth, and every earlier one is one to three levels deeper |
| Bean.PropertyBlocksSnoc | conjure-python-core/src/main/java/com/palantir/conjure/python/poet/BeanSnippet.java:129-145 | the properties of the first i+1 fields are those of the first i fields followed by the property of field i |
| Bean.PropertyTraceSnoc | conjure-python-core/src/main/java/com/palantir/conjure/python/poet/BeanSnippet.java:136-144 | each further property adds one step in and one step back to the depth history |
| BeanProperties.RenderIndentation | conjure-python-core/src/main/java/com/palantir/conjure/python/poet/BeanSnippet.java:61-150 | the class statement is the first line, at the writer's depth; every other line is blank or one to three levels deeper; the last two lines are blank |
| BeanProperties.RenderIsHeaderAndBody | conjure-python-core/src/main/java/com/palantir/conjure/python/poet/BeanSnippet.java:62-150 | the rendered class is the class statement followed by its body |
| BeanProperties.ClassBodyInBody | conjure-python-core/src/main/java/com/palantir/conjure/python/poet/BeanSnippet.java:63-148 | every line of the class body is blank or indented one to three levels below the class statement |
| BeanProperties.InBodyAppend | conjure-python-core/src/main/java/com/palantir/conjure/python/poet/BeanSnippet.java:63-148 | two runs of lines within the class body make one run within it |
| BeanProperties.DocsInBody | conjure-python-core/src/main/java/com/palantir/conjure/python/poet/BeanSnippet.java:64-70 | the class docstring and the blank line after it sit inside the class body |
| BeanProperties.UpperBodyInBody | conjure-python-core/src/main/java/com/palantir/conjure/python/poet/BeanSnippet.java:64-100 | the docstring, the `_fields` method and the slots, in a row, sit inside the class body |
| BeanProperties.RegistryInBody | conjure-python-core/src/main/java/com/palantir/conjure/python/poet/BeanSnippet.java:73-89 | the `_fields` method sits one to three levels inside the class |
| BeanProperties.CtorInBody | conjure-python-core/src/main/java/com/palantir/conjure/python/poet/BeanSnippet.java:103-126 | every line of the constructor is blank or sits one or two levels inside the class, hence within the class body |
| BeanProperties.PropertyBlocksInBody | conjure-python-core/src/main/java/com/palantir/conjure/python/poet/BeanSnippet.java:129-145 | every line of the properties is blank or sits one or two levels inside the class, hence within the class body |
| BeanProperties.DocLinesShape | conjure-python-core/src/main/java/com/palantir/conjure/python/poet/BeanSnippet.java:64-68 | no documentation means no lines; otherwise there are exactly three lines: quotes, the trimmed documentation text at the same depth, and quotes; that text is unchanged by trimming again, and is empty exactly when the documentation is all whitespace |
| BeanProperties.RegistryEntriesShape | conjure-python-core/src/main/java/com/palantir/conjure/python/poet/BeanSnippet.java:73-89 | the registry has one entry per field, in declared order, two levels in, between `return {` and `}`; entry i is keyed by field i's Python name, names its JSON identifier and ends with its Python type and `)`, followed by a comma exactly when it is not the last entry; so its last character is `,` if and only if it is not the last entry, and `)` if and only if it is |
| BeanProperties.EmptyRegistry | conjure-python-core/src/main/java/com/palantir/conjure/python/poet/BeanSnippet.java:73-89 | a bean without fields still gets the `_fields` method, returning an empty dictionary |
| BeanProperties.CtorShape | conjure-python-core/src/main/java/com/palantir/conjure/python/poet/BeanSnippet.java:102-126 | the constructor is absent if and only if there are no fields; otherwise its first line starts `def __init__(self, `, and line i+1 assigns field i's parameter to its backing slot, in declared order |
| BeanProperties.ParamsDefaultsLast | conjure-python-core/src/main/java/com/palantir/conjure/python/poet/BeanSnippet.java:104-119 | the parameters are a rearrangement of the fields; each is `name: type`, with ` = None` added exactly for optional fields; no optional parameter comes before a required one |
| BeanProperties.InitLineListsParams | conjure-python-core/src/main/java/com/palantir/conjure/python/poet/BeanSnippet.java:104-119 | parameter i of the sorted fields appears in the `__init__` line at its place in the `", "`-joined list |
| BeanProperties.InitLineIffFields | conjure-python-core/src/main/java/com/palantir/conjure/python/poet/BeanSnippet.java:100-104 | the line after the slots block starts `def __init__(self, ` if and only if the bean has fields; without fields it is blank |
| BeanProperties.SlotsLineNamesSlot | conjure-python-core/src/main/java/com/palantir/conjure/python/poet/BeanSnippet.java:93-98 | the `__slots__` line holds `'_<backing name>'` for every field, at its place in the `", "`-joined list |
| BeanProperties.EmptySlots | conjure-python-core/src/main/java/com/palantir/conjure/python/poet/BeanSnippet.java:93-98 | a bean without fields declares the empty slot list `__slots__: List[str] = []` |
| BeanProperties.PropertyBlocksPrefix | conjure-python-core/src/main/java/com/palantir/conjure/python/poet/BeanSnippet.java:129-145 | the properties of the first n fields are a prefix of the properties of all fields |
| BeanProperties.PropertyBlockShape | conjure-python-core/src/main/java/com/palantir/conjure/python/poet/BeanSnippet.java:130-144 | one property is a blank line, `@builtins.property`, `def <name>(self) -> <type>:`, the field's docstring one level deeper, and `return self._<backing name>` one level deeper |
| BeanProperties.PropertyOfField | conjure-python-core/src/main/java/com/palantir/conjure/python/poet/BeanSnippet.java:129-145 | field i's property (see `PropertyBlockShape`) comes right after the properties of the fields before it |
| BeanProperties.NoSlotShadowsRegistry | conjure-python-core/src/main/java/com/palantir/conjure/python/poet/BeanSnippet.java:42-42 | no backing slot is `_fields`; a field named `fields` gets the slot `_fields_` |
| BeanProperties.NamesAreSafe | conjure-python-core/src/main/java/com/palantir/conjure/python/poet/BeanSnippet.java:121-124 | the Python name and the backing name are never keywords, and they coincide for every field except one named `fields` |
| BeanProperties.DistinctNames | conjure-python-core/src/main/java/com/palantir/conjure/python/poet/BeanSnippet.java:93-98 | distinct attribute names that do not end in `_` give distinct backing slots and distinct Python names |
| BeanProperties.BackingNamesCanCollide | conjure-python-core/src/main/java/com/palantir/conjure/python/poet/BeanSnippet.java:97-97 | fields named `fields` and `fields_` share the backing slot `_fields_`, so the trailing-underscore condition above is needed |
| Poet.PythonPoetWriter.WriteLine | conjure-python-core/src/main/java/com/palantir/conjure/python/poet/BeanSnippet.java:70-70 | appends one blank line; the depth is unchanged |
| Poet.PythonPoetWriter.WriteIndentedLine | conjure-python-core/src/main/java/com/palantir/conjure/python/poet/BeanSnippet.java:62-62 | appends the text at the current depth; the depth is unchanged |
| Poet.PythonPoetWriter.IncreaseIndent | conjure-python-core/src/main/java/com/palantir/conjure/python/poet/BeanSnippet.java:63-63 | the depth goes up by one and is recorded; the lines are unchanged |
| Poet.PythonPoetWriter.DecreaseIndent | conjure-python-core/src/main/java/com/palantir/conjure/python/poet/BeanSnippet.java:87-87 | the depth goes down by one and is recorded; the lines are unchanged |
| Text.TrimStart | conjure-python-core/src/main/java/com/palantir/conjure/python/poet/BeanSnippet.java:66-66 | dropping characters at the front never lengthens the text |
| Text.TrimEnd | conjure-python-core/src/main/java/com/palantir/conjure/python/poet/BeanSnippet.java:66-66 | dropping characters at the back never lengthens the text |
| Text.TrimStartSpec | conjure-python-core/src/main/java/com/palantir/conjure/python/poet/BeanSnippet.java:66-66 | the front part `trim` drops is a run of characters up to U+0020, what remains is the rest of the text, and it does not start with such a character |
| Text.TrimEndSpec | conjure-python-core/src/main/java/com/palantir/conjure/python/poet/BeanSnippet.java:66-66 | the back part `trim` drops is a run of characters up to U+0020, what remains is the start of the text, and it does not end with such a character |
| Text.TrimSlice | conjure-python-core/src/main/java/com/palantir/conjure/python/poet/BeanSnippet.java:66-66 | `trim` returns a contiguous slice of its input, and every character outside that slice is at most U+0020 |
| Text.TrimEnds | conjure-python-core/src/main/java/com/palantir/conjure/python/poet/BeanSnippet.java:66-66 | the trimmed text is empty or starts and ends with a character above U+0020 |
| Text.TrimEmpty | conjure-python-core/src/main/java/com/palantir/conjure/python/poet/BeanSnippet.java:66-66 | the trimmed text is empty if and only if every character of the input is at most U+0020 |
| Text.TrimSpec | conjure-python-core/src/main/java/com/palantir/conjure/python/poet/BeanSnippet.java:66-66 | `trim` returns the slice left after dropping characters up to U+0020 at both ends; the result starts and ends with other characters, and is empty exactly when every character is at most U+0020 |
| Text.TrimIdempotent | conjure-python-core/src/main/java/com/palantir/conjure/python/poet/BeanSnippet.java:139-139 | trimming a trimmed text changes nothing |
| Text.JoinItemAt | conjure-python-core/src/main/java/com/palantir/conjure/python/poet/BeanSnippet.java:98-98 | item i of a join sits at its offset, and the last item ends the joined text |
| Text.JoinSepAfter | conjure-python-core/src/main/java/com/palantir/conjure/python/poet/BeanSnippet.java:98-98 | every item of a join but the last is directly followed by the separator |
| Text.JoinOffsetSpec | conjure-python-core/src/main/java/com/palantir/conjure/python/poet/BeanSnippet.java:98-98 | item i sits at its offset; the separator follows every item but the last; the last item ends the text |
| Text.JoinOffsetNext | conjure-python-core/src/main/java/com/palantir/conjure/python/poet/BeanSnippet.java:106-106 | consecutive items sit one separator apart |
| Text.ItemInJoin | conjure-python-core/src/main/java/com/palantir/conjure/python/poet/BeanSnippet.java:93-98 | inside a line made of a prefix, a join and a suffix, item i sits at the prefix length plus its join offset |
| Sanitizer.SanitizeSpec | conjure-python-core/src/main/java/com/palantir/conjure/python/poet/BeanSnippet.java:82-82 | a name is changed if and only if it is a keyword or a reserved name; it is changed only by appending `_`, and the result is never a keyword |
| Sanitizer.SanitizeIdempotent | conjure-python-core/src/main/java/com/palantir/conjure/python/poet/BeanSnippet.java:112-112 | sanitizing a sanitized name (no extra reserved names) changes nothing |
| Sanitizer.SanitizeInjective | conjure-python-core/src/main/java/com/palantir/conjure/python/poet/BeanSnippet.java:123-123 | distinct names that do not end in `_` stay distinct |
| Fields.Tier | conjure-python-core/src/main/java/com/palantir/conjure/python/poet/BeanSnippet.java:108-108 | selects fields of `fs` that all have the given optionality, and no more of them than `fs` holds |
| Fields.TierAppend | conjure-python-core/src/main/java/com/palantir/conjure/python/poet/BeanSnippet.java:108-108 | selecting by optionality distributes over concatenation |
| Fields.TiersPartition | conjure-python-core/src/main/java/com/palantir/conjure/python/poet/BeanSnippet.java:108-108 | the required fields and the optional fields together are exactly the fields |
| Fields.TierOfTier | conjure-python-core/src/main/java/com/palantir/conjure/python/poet/BeanSnippet.java:108-108 | selecting twice by the same optionality changes nothing; selecting by the other optionality yields nothing |
| Fields.SortByComparatorPermutes | conjure-python-core/src/main/java/com/palantir/conjure/python/poet/BeanSnippet.java:107-108 | the sorted fields hold every field exactly as often as the declared fields do |
| Fields.SortByComparatorRequiredFirst | conjure-python-core/src/main/java/com/palantir/conjure/python/poet/BeanSnippet.java:107-108 | in the sorted fields no optional field comes before a required one |
| Fields.SortByComparatorKeepsTiers | conjure-python-core/src/main/java/com/palantir/conjure/python/poet/BeanSnippet.java:107-108 | within the required fields and within the optional fields, the sorted order is the declared order |
| Fields.SortByComparatorIsStableSort | conjure-python-core/src/main/java/com/palantir/conjure/python/poet/BeanSnippet.java:107-108 | the comparator order is a permutation of the fields; no optional field comes before a required one; within each group, declared order is kept |

## Left out

- The call to `PythonClassRenamer.renameClass` (line 152) is left out. `PythonClassRenamer` is not part of this model. `Emit` ends after the two closing blank lines, so `definitionName` and `definitionPackage`, which only that call reads, are carried but unused.
- `DEFAULT_IMPORTS` (lines 32-41) is left out. It is constant data that the file assembler reads, not something emit writes.
- The Immutables builder (lines 155-159) is modelled only by the optional sort key. `Bean.IdForSorting` models the default accessor by its definition: the builder's key if one was set, else the class name.
- `PythonIdentifierSanitizer` is not part of this model. `Sanitizer.Sanitize` stands in for it:
  - a keyword or reserved name gets a trailing `_`;
  - the keyword table is Python 3's reserved keywords.
- `PythonField.PythonFieldComparator` is not part of this model. It is modelled as a stable sort that puts required fields before optional ones. Java's `Stream.sorted` is stable, so fields that compare equal keep their declared order.
- `Documentation` is modelled as the string that `docs.get()` returns.
- The real `PythonPoetWriter` is not part of this model. `Poet.PythonPoetWriter` stands in for it and stores each line as its depth plus its text, which leaves out:
  - the indentation unit;
  - the output stream.
- Poet.PythonPoetWriter.DecreaseIndent: requires a positive depth. What the real writer does below zero is not part of this model, and emit never goes below its starting depth (see `Bean.DepthTraceBalanced`).
- Documentation that contains line breaks. Lines 66 and 139 write the trimmed text in one `writeIndentedLine` call, so a multi-line docstring is kept as one line. How the real writer indents continuation lines is not modelled.
- BeanProperties.InitLineIffFields: states the constructor line's presence at its position after the slots block, not as "some line of the output". The latter would also depend on what the documentation text contains.
- The source checks nowhere that backing names are distinct. `BeanProperties.DistinctNames` therefore needs attribute names that do not end in `_`, and `BeanProperties.BackingNamesCanCollide` shows the case it excludes.
