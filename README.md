# pyextmod_starter in Dafny

A model of `pyextmod_starter`, the generator of C boilerplate for a
CPython extension module. `generate_extmod` takes the module's name, its
docstring and a list of Python functions. For each function it writes a C
binding that:

- declares one `PyObject *` local per parameter;
- builds the keyword list and the `PyArg_ParseTupleAndKeywords` format code
  from the parameters' kinds and keyword defaults;
- prints each argument.

It then writes the methods table with each function's docstring, the
module definition struct and the module's init function.

The model follows the source's structure:

- `Signature` replaces the reflection the source performs with plain
  values. A function is a `Func`: its name, its parameters and its
  normalised docstring. A parameter is a `Param`: its name, its
  `inspect.Parameter` kind and whether its name is a key of
  `__kwdefaults__`. The `funcs` argument is a single function or a list.
- `Output.Stream` is the output file. It is a class whose `chunks` field
  records every `write`, in order; the file's text is their concatenation.
- `Templates` holds the source's template strings, with `format` applied,
  and lemmas on the C names each one declares or refers to.
- `FormatSpec` holds the specification functions of `_generate_function`:
  - the format code and the keyword list;
  - how the argument parser reads a format code back.
- `FunctionEmitter`, `Docstring`, `MethodsTable` and `Extmod` hold the
  source's four generators as methods that write to the stream. Each method's loops
  are proved against a function that states what it writes. The
  properties the source promises are lemmas about those functions.
- `Example` compares parts of the model's output with the C file the
  repository ships for `examples/make_example_ext_module.py`:
  - the format codes and keyword lists of `process` and `tabulate`;
  - the quoted items of `process`'s keyword array;
  - `tabulate`'s keyword array line and its parse call, in full;
  - `process`'s locals;
  - the docstring references and the module docstring's macro name;
  - the default file name.

  The docstring definitions, the methods table rows and the module struct
  of that file are not compared.

Python's `splitlines`, `upper` and `isidentifier` are modelled for
`'\n'`-separated ASCII text only (see "## Left out").

Variadic parameters (`*args`, `**kwargs`) are not rejected: such a
parameter gets a `NULL` local, an `O` unit and its name in the keyword list
(pyextmod_starter.py:104-117). `ParamKind` keeps all five kinds, and
`FormatSpec.KwName` treats the variadic ones like any other kind that is
not positional-only.

The emitter writes what the source writes, also where that is not valid C
(see "## Findings"). The corrected keyword array and parse call are defined
beside the as-written ones, with their intended properties proved.

## Model

| member | source | states |
|---|---|---|
| Text.Join | pyextmod_starter.py:120-121 | `sep.join(xs)`: the items in order with `sep` between neighbours, the empty text for no items |
| Text.JoinSnoc | pyextmod_starter.py:120-121 | joining one more item appends the separator and that item to the join of the others |
| Text.QuoteWrap | pyextmod_starter.py:27-28 | the result is the text between two double quotes, two characters longer, with nothing escaped |
| Text.SplitLines | pyextmod_starter.py:142 | a text has lines exactly when it is not empty, and no line holds a line feed |
| Text.JoinSplitLines | pyextmod_starter.py:142 | joining a text's lines with line feeds gives the text back, unless the text ends with a line feed |
| Text.TerminateSplitLines | pyextmod_starter.py:146-147 | each line followed by a line feed, concatenated, is the text with exactly one line feed at its end |
| Text.ManyLinesIff | pyextmod_starter.py:142-143 | a text has more than one line if and only if a line feed comes before its last character |
| Text.Upper | pyextmod_starter.py:144 | upper case keeps the length and maps each character to its capital, position by position |
| Text.UpperAppend | pyextmod_starter.py:144 | upper-casing distributes over concatenation |
| Text.IsIdentifier | pyextmod_starter.py:195 | `str.isidentifier` on ASCII text: not empty, a letter or underscore first, then letters, digits and underscores |
| Text.IdentifierAppend | pyextmod_starter.py:195 | an identifier followed by letters, digits and underscores is still an identifier |
| Text.UpperIdentifier | pyextmod_starter.py:195 | upper-casing an identifier gives an identifier |
| Signature.FuncList | pyextmod_starter.py:206-207 | a single callable becomes a one-element list, and a list is kept as it is |
| Output.Stream.Write | pyextmod_starter.py:204 | a write appends its text to what was written before, and nothing else changes |
| Templates.Header | pyextmod_starter.py:31-39 | the file header: the `PY_SSIZE_T_CLEAN` define, then the includes of `Python.h` and the standard headers |
| Templates.HeaderDefinesBeforeInclude | pyextmod_starter.py:31-33 | `PY_SSIZE_T_CLEAN` is defined on the header's second line, and `Python.h` is included on the line right after it |
| Templates.InitStart | pyextmod_starter.py:41-51 | the init function's opening, with the module name filled in |
| Templates.InitStartNames | pyextmod_starter.py:41-51 | the init function is named `PyInit_<module>` and creates the module from `&<module>module` |
| Templates.InitEnd | pyextmod_starter.py:53-56 | the init function's end |
| Templates.InitEndReturnsModule | pyextmod_starter.py:53-56 | the init function returns the module, and its text ends by closing the body |
| Templates.FuncStart | pyextmod_starter.py:58-62 | a binding's opening, with the function name filled in |
| Templates.FuncStartSignature | pyextmod_starter.py:58-62 | a binding is declared with the `(self, args, kwargs)` signature under the function's name |
| Templates.FuncEnd | pyextmod_starter.py:64-68 | a binding's end |
| Templates.FuncEndReturnsNone | pyextmod_starter.py:64-68 | a binding returns `None`, and its text ends by closing the body |
| Templates.MethodsTableStart | pyextmod_starter.py:70-72 | the methods table's opening, with the module name filled in |
| Templates.TableStartName | pyextmod_starter.py:70-72 | the methods table is declared as `<module>_methods` |
| Templates.MethodsTableEntry | pyextmod_starter.py:74-77 | one row of the methods table, with the function name and docstring reference filled in |
| Templates.EntryNames | pyextmod_starter.py:74-77 | a row holds the function's name in quotes, the pointer to its binding, `METH_VARARGS \| METH_KEYWORDS` and the docstring reference |
| Templates.MethodsTableEnd | pyextmod_starter.py:79-82 | the sentinel row and the table's close |
| Templates.SentinelRowLast | pyextmod_starter.py:79-82 | the table's last chunk starts with the sentinel row and ends by closing the array |
| Templates.ModuleDefinitionStruct | pyextmod_starter.py:84-92 | the module definition struct, with the module name and docstring reference filled in |
| Templates.StructNames | pyextmod_starter.py:84-92 | the struct is declared as `<module>module` and gives the module's name in quotes, its docstring reference and the table `<module>_methods` |
| FormatSpec.FirstKwDefault | pyextmod_starter.py:103-110 | the index found holds a keyword default, no earlier parameter does, and there is none exactly when no parameter has one |
| FormatSpec.FirstKwDefaultSnoc | pyextmod_starter.py:108-110 | once a keyword default has been seen the first one stays put; a new parameter becomes the first only if none came before it |
| FormatSpec.FormatUnitsSnoc | pyextmod_starter.py:105-117 | one loop step adds `O` to the format units, after the marker `\|$` exactly when this parameter is the first with a keyword default |
| FormatSpec.UnitCount | pyextmod_starter.py:117 | the format units hold exactly one `O` per parameter |
| FormatSpec.MarkerCount | pyextmod_starter.py:108-110 | `\|` and `$` each appear once if some parameter has a keyword default, and not at all otherwise |
| FormatSpec.SlotsWithoutDefault | pyextmod_starter.py:101-119 | without keyword defaults the parser reads one required, positional slot per parameter |
| FormatSpec.SlotsWithDefault | pyextmod_starter.py:101-119 | with the first keyword default at `k`, the `k` slots before it are required and positional, and it and all later ones are optional and keyword-only |
| FormatSpec.SlotsOfFormatCode | pyextmod_starter.py:101-119 | one slot per parameter, optional and keyword-only exactly when that parameter or an earlier one has a keyword default |
| FormatSpec.DefaultedParamsAreOptional | pyextmod_starter.py:105-110 | every parameter whose local starts as `Py_None` may be left out by the caller |
| FormatSpec.KwListEntries | pyextmod_starter.py:113-116 | one keyword entry per parameter, in order; it is empty exactly for positional-only parameters and otherwise the parameter's name |
| FormatSpec.KeywordAccepted | pyextmod_starter.py:113-116 | a non-empty name is in the keyword list if and only if some parameter with that name is not positional-only |
| FormatSpec.KwListSnoc | pyextmod_starter.py:113-116 | one loop step appends exactly that parameter's entry to the keyword list |
| FunctionEmitter.WriteLocal | pyextmod_starter.py:105-117 | writes the parameter's local (`Py_None` or `NULL`); the flag becomes set and is never cleared; `\|$` is added only when the flag was clear and this parameter has a keyword default; then `O` |
| FunctionEmitter.WriteLocals | pyextmod_starter.py:101-117 | the parameter loop writes one local per parameter in order and yields the format units and the keyword list of the specification |
| FunctionEmitter.LocalsMatchReferences | pyextmod_starter.py:104-121 | one local per parameter and one `&` reference per parameter; at each position the reference names that very local, which starts as `Py_None` exactly when the parameter has a keyword default |
| FunctionEmitter.WriteParseCall | pyextmod_starter.py:120-125 | writes the keyword array as the source does (the quoted entries joined by `, `, then `, NULL}`) and the two-line parse call with the quoted format code, `kwlist,` and the references |
| FunctionEmitter.KwArrayFirstItem | pyextmod_starter.py:120-122 | right after `{`, the corrected keyword array holds the first quoted keyword, or `NULL` when there are no parameters; its first item is never empty |
| FunctionEmitter.KwArrayAgreesWithSource | pyextmod_starter.py:120-122 | with at least one parameter the corrected keyword array is exactly the line the source writes |
| FunctionEmitter.KwArrayAsWrittenEmptyItem | pyextmod_starter.py:120-122 | as written, a function without parameters gets `{, NULL}`, whose first item is empty |
| FunctionEmitter.ParseCallNoEmptyArgument | pyextmod_starter.py:124-125 | in the corrected parse call, after the keyword-list argument comes either the closing parentheses, when there are no parameters, or a comma, a line break, the indent and the first parameter's reference `&<name>` |
| FunctionEmitter.ParseCallAsWrittenDanglingComma | pyextmod_starter.py:124-125 | as written, a function without parameters gets a comma after the keyword list followed only by blanks and the closing parentheses |
| FunctionEmitter.WriteParseFailure | pyextmod_starter.py:126-129 | the failure branch returns `NULL`, then a blank line and the demo comment |
| FunctionEmitter.WriteArgumentEcho | pyextmod_starter.py:130-133 | for each parameter in order, the lines printing its name and its value |
| FunctionEmitter.PrintChunksLayout | pyextmod_starter.py:130-133 | the demo body has three lines per parameter; lines `3 * i` to `3 * i + 2` print parameter `i`'s name and its value |
| FunctionEmitter.GenerateFunction | pyextmod_starter.py:95-135 | writes the function's opening, its locals, the keyword array, the parse call, the failure branch, the demo body and its end, in that order |
| Docstring.DocRefCases | pyextmod_starter.py:138-151 | no docstring gives `NULL` and writes nothing; a docstring of at most one line (the empty one included) is returned quoted and writes nothing; any other gives `<OWNER>_DOCSTRING` and writes its `#define` line, one segment per line and the closing literal |
| Docstring.WriteSegments | pyextmod_starter.py:146-147 | the loop writes one segment per line, in order |
| Docstring.DocstringLiteral | pyextmod_starter.py:138-151 | returns the docstring's reference and writes exactly its definition, if any |
| Docstring.SegmentLinesOfSegments | pyextmod_starter.py:146-147 | the segments read back as the lines they were written from |
| Docstring.DefinitionRoundTrip | pyextmod_starter.py:143-149 | the definition defines the returned macro and reads back as the docstring's lines; the literal's value is the docstring followed by one line feed |
| MethodsTable.WriteDocstrings | pyextmod_starter.py:155-157 | the first loop writes every function's docstring definition in order and collects each one's reference |
| MethodsTable.WriteEntries | pyextmod_starter.py:160-162 | the second loop writes one row per function, in order, each with that function's own reference |
| MethodsTable.GenerateMethodsTable | pyextmod_starter.py:154-163 | writes the definitions, the table's opening, the rows and the sentinel, in that order |
| MethodsTable.TableLayout | pyextmod_starter.py:154-163 | all definitions come before the table's opening line, followed by one row per function, and the sentinel is last |
| MethodsTable.TableRow | pyextmod_starter.py:160-162 | the row at position `i` after the opening line names function `i` and its own docstring reference |
| MethodsTable.SentinelOnce | pyextmod_starter.py:163 | the sentinel row is the last chunk and occurs exactly once |
| MethodsTable.MacrosDefinedBeforeUse | pyextmod_starter.py:155-162 | every macro a row refers to has its `#define` line among the definitions written before the table |
| Extmod.GenerateModuleDefinitionStruct | pyextmod_starter.py:166-169 | writes the module docstring's definition, if any, then the struct that names its reference |
| Extmod.ModuleDocMacro | pyextmod_starter.py:167 | a multi-line module docstring is referred to as `<MODULE NAME IN UPPER CASE>_MODULE_DOCSTRING` |
| Extmod.WriteFunctions | pyextmod_starter.py:209-210 | each function's code, in input order |
| Extmod.DefaultFilename | pyextmod_starter.py:199-200 | the C file is named `<module>module.c` when no name is given |
| Extmod.ModuleCNames | pyextmod_starter.py:195-197 | once the module name is an identifier, so are the C names made from it: `<module>module`, `<module>_methods`, `PyInit_<module>` and the module docstring's macro |
| Extmod.GenerateExtmod | pyextmod_starter.py:195-218 | a name that is not an identifier is an error and no file is made; otherwise the file is the given name or `<name>module.c`, holding the header, the functions in order, the methods table, the module struct, and the init function's start and end |
| Extmod.SingleFunction | pyextmod_starter.py:206-210 | a single callable gives exactly that function's code |
| Extmod.FunctionSpan | pyextmod_starter.py:209-212 | function `i`'s code ends where function `i + 1`'s begins, and all of it lies within the file, before the table |
| Extmod.FilePositions | pyextmod_starter.py:212-218 | the methods table's opening follows the functions' code and the docstring definitions; the module struct is the third chunk from the end, and the init function's start the second |
| Extmod.DeclaredBeforeUse | pyextmod_starter.py:212-218 | the table `<module>_methods` is declared before the module struct that names it, and the struct `<module>module` comes right before the init function that creates the module from it |
| Example.ExampleFormatCodes | examples/examplemodule.c:19-50 | the format codes of `process` and `tabulate` are `OOO\|$OO:process` and `O:tabulate` |
| Example.ExampleKeywordLists | examples/examplemodule.c:18-49 | the keyword lists are `"", "y", "z", "alpha", "beta"` and `"x"` |
| Example.ProcessKwArray | examples/examplemodule.c:18 | the quoted items of `process`'s keyword array are `""`, `"y"`, `"z"`, `"alpha"` and `"beta"` |
| Example.TabulateParseCall | examples/examplemodule.c:49-51 | `tabulate`'s keyword array is `{"x", NULL}`, and its parse call passes `"O:tabulate"`, `kwlist` and `&x` |
| Example.ProcessLocals | examples/examplemodule.c:13-17 | `process` declares `x`, `y` and `z` as `NULL`, and `alpha` and `beta` as `Py_None` |
| Example.ProcessDocRef | examples/examplemodule.c:64-72 | the three-line docstring of `process` is referred to as `PROCESS_DOCSTRING` |
| Example.TabulateDocRef | examples/examplemodule.c:74 | the one-line docstring of `tabulate` is inlined in quotes |
| Example.ExampleModuleDocLines | examples/make_example_ext_module.py:20-24 | the example's normalised module docstring has more than one line |
| Example.ExampleModuleNames | examples/examplemodule.c:78-87 | the example's module docstring is referred to as `EXAMPLE_MODULE_DOCSTRING`, and the default file name is `examplemodule.c` |

## Left out

- File I/O. The `open` calls and `with` blocks are not modelled; the C file is the stream's chunks, returned with its name.
- The setup script, and with it the `setup_filename` parameter (pyextmod_starter.py:220-229). It is plain templating written to a second file and does not interact with the C file.
- Reflection. `inspect.signature`, `__name__`, `__kwdefaults__`, `__doc__` and `callable` are replaced by the `Func`, `Param` and `FuncsArg` values.
- `textwrap.dedent` and `str.strip`. A docstring is given already normalised.
- Text.SplitLines: splits on `'\n'` only. Python's `splitlines` also splits on `'\r'`, `'\x0b'`, `'\x0c'` and other separators.
- Text.Upper: maps ASCII letters only. Python's `str.upper` is Unicode-aware.
- Text.IsIdentifier: accepts ASCII identifiers only. Python's `str.isidentifier` also accepts Unicode letters.
- The text of the template constants is modelled as written. No property of the C they contain, such as whether it compiles, is stated.
- Escaping. The source escapes nothing in names or docstrings, and neither does the model.
- Example.ProcessKwArray: states the quoted items of the array, not the whole joined line.
- Extmod.FunctionSpan: states where each function's code lies by its length, not its contents chunk by chunk; the contents follow from `Extmod.GenerateExtmod` and `Extmod.ExtmodChunks`.

## Findings

| source | as written | input that shows it | evidently intended | confidence | as-written member | corrected member |
|---|---|---|---|---|---|---|
| pyextmod_starter.py:120-122 | the keyword array is the joined entries followed by `, NULL` | `def f(): pass` gives `static char *kwlist[] = {, NULL};`, which is not valid C | `{NULL}` when there are no parameters | high (not executed) | FunctionEmitter.KwArrayAsWrittenEmptyItem | FunctionEmitter.KwArrayFirstItem |
| pyextmod_starter.py:124-125 | the parse call always puts a comma after `kwlist` and the references on a second line | `def f(): pass` gives `kwlist,` followed by blanks and `)) {`, an empty argument that is not valid C | no comma and no reference line when there are no parameters | high (not executed) | FunctionEmitter.ParseCallAsWrittenDanglingComma | FunctionEmitter.ParseCallNoEmptyArgument |
