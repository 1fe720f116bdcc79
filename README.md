# fancyprint, modelled in Dafny

fancyprint is a small console-formatting library. It has three parts:

- **The chunk context** (`FancyPrintContext`). It groups related messages into a "chunk" with coloured markers: a start line, continuation lines and an end marker. Single-line messages get their own header. A message type can be filtered out.
- **The table printer** (`FancyTable`). It prints a centred header with a rule of `=`, aligned and truncated rows (optionally prefixed by a running index), and a footer rule of `-`. Output goes to the builtin `print` or to a context's `print`.
- **The change tracker** (`FancyChangeTracker`). It keeps a bounded history of a variable and prints one table row per update: the value and the chosen statistics of the history.

The model keeps the library's behaviour as the Python code has it, including the code's error paths.

## Model structure

- **Modules.** There is one module per source file: `Misc` (misc.py), `Utils` (utils.py), `FancyPrint` (fancyprint.py), and `FancyTables` plus `ChangeTracker` (fancytables.py). Two support modules sit beside them. `PyStr` holds the Python string builtins the code relies on: `ljust`, `rjust`, `center`, `join`, `strip`, slicing and `str` of an int. `Wrappers` holds `Option`, `Result`, the exceptions and `Status`.
- **Standard output** is a `Stdout` object. Its `log` holds one entry per `print` call.
- **Settings and filter.** The process-wide `settings` dictionary and `MESSAGE_FILTER` are an `Env` value passed to every call that reads them.
- **The global context.** `GLOBAL_CONTEXT`, used by `print_enum` and `Fancyfier.write`, is an explicit `FancyPrintContext` argument.
- **Exceptions.** A raised exception is a `Status.Raised(e)` or a `Result.Failure(e)` value. No precondition excludes an input that makes the code raise.
- **Steps.** Each state-changing operation has a pure step function. The step function gives the new fields, what the operation adds to the log, and whether it returned or raised. The class methods (`FancyPrintContext`, `Fancyfier`, `FancyTable`, `FancyChangeTracker`) are imperative Dafny proved against these step functions. Lemmas then state what the library promises about the step functions.

Where the code's behaviour is surprising, the model follows the code:

- **A closed context can still have a type.** The context is closed but typed when it was constructed with a filtered type. It is also closed but typed after `new_chunk` with VOID: the type is stored before the colour lookup raises KeyError (fancyprint.py:28-29).
- **`print` on a closed context with a type raises AttributeError.** It does not print a single line, because the class `MessageType` is passed to `print_single` instead of the type (fancyprint.py:45).
- **`print_enum` with a filtered type opens nothing.** On a closed context, `new_chunk` with a filtered type returns at once (fancyprint.py:21-22). Without `max_key_len`, an empty dictionary then raises ValueError from `max`. Otherwise the first item's `print` raises NoChunk (fancyprint.py:41-43). An empty dictionary with `max_key_len` set returns normally, and unless `keep_open` its `end_chunk` clears a stored type (fancyprint.py:129).
- **The end marker is never filtered.** `end_chunk` prints with the builtin `print`, so the filter is not consulted. Auto-closing inside `print_single` therefore prints the old chunk's end marker even when the new line is filtered.
- **A list of column sizes is not checked against the names.** It is paired with them by `zip`, so surplus names or sizes are dropped silently (fancytables.py:21). ValueError is raised only for a `colsizes` that is neither iterable, an int nor `None`. A size of 0 means 1 (`colsizes or 1`).
- **Column names need not be distinct.** `colidxs` keeps the last position of a repeated name (fancytables.py:31), and every cell of that name takes that position's width and alignment.
- **A bad alignment mode is caught only when a row is printed.** It raises ValueError from `stralign`, and an alignment list that is too short raises IndexError at that point. The constructor checks neither.
- **An unknown statistic name raises AssertionError** (fancytables.py:84).
- **Repeated statistic names.** `fn_dir` is a dict, so a repeated statistic is computed once. The table still gets a column for every name given. A tracker row then holds fewer values than the table has columns, and `zip` leaves the surplus columns out of that row (`ChangeTracker.RowFitsColumnsIffDistinct`).
- **Statistics of fewer than two samples are NaN.** `delta` and `absdelta` return NaN in that case, modelled as `None` and printed as `nan`.

## Model

| member | source | states |
|---|---|---|
| Misc.Label | fancyprint/misc.py:8-14 | every label fits the five-character field, and only VOID's is empty |
| Misc.ColorOf | fancyprint/fancyprint.py:137-143 | every type but VOID has a colour, and each colour starts with the escape character; looking up VOID fails |
| PyStr.Repeat | fancyprint/fancytables.py:51 | `n * c` has length `max(n, 0)` and holds only `c` |
| PyStr.LJust | fancyprint/utils.py:6-7 | `ljust` keeps the string as a prefix and pads with spaces to `max(len, n)` |
| PyStr.RJust | fancyprint/utils.py:8-9 | `rjust` keeps the string as a suffix, with spaces before it, to `max(len, n)` |
| PyStr.Center | fancyprint/utils.py:10-11 | `center` returns the string unchanged when it is at least `n` long; otherwise the string sits at CPython's left margin with only spaces around it, in total length `n` |
| PyStr.CenterBalanced | fancyprint/utils.py:10-11 | the two margins of `center` differ by at most one; the left one is larger exactly when the margin and the width are both odd |
| PyStr.Join | fancyprint/fancytables.py:33 | joining a single part gives that part |
| PyStr.JoinLength | fancyprint/fancytables.py:33-34 | a joined string is as long as its parts plus one separator between each pair (the table width) |
| PyStr.JoinLengthsAgree | fancyprint/fancytables.py:33 | parts of pairwise equal lengths join to strings of equal length |
| PyStr.Concat | fancyprint/fancyprint.py:73 | `"".join` is as long as all its parts together |
| PyStr.JoinEmptyIsConcat | fancyprint/fancyprint.py:73 | joining with the empty separator is concatenation |
| PyStr.ConcatAppend | fancyprint/fancyprint.py:73 | concatenation distributes over appending lists |
| PyStr.SliceTo | fancyprint/fancytables.py:65 | `s[:n]` is a prefix of `s`, of length `min(n, len)`, or `len + n` (at least 0) for negative `n` |
| PyStr.SliceToOpt | fancyprint/fancyprint.py:127 | `s[:None]` is `s`, otherwise `s[:n]` |
| PyStr.TrimStartSpec | fancyprint/fancytables.py:32 | `lstrip` removes leading whitespace only, and all of it |
| PyStr.TrimEndSpec | fancyprint/fancytables.py:32 | `rstrip` removes trailing whitespace only, and all of it |
| PyStr.Strip | fancyprint/fancytables.py:32 | `strip` gives a slice of the input with only whitespace cut on either side and no whitespace left at either end |
| PyStr.NatToString | fancyprint/fancytables.py:64-65 | `str` of the index is a run of decimal digits with no leading zero that reads back as the index |
| Utils.StrAlign | fancyprint/utils.py:4-13 | `stralign` succeeds exactly for the modes l, r and c, as `ljust`, `rjust` or `center`, with length `max(len, n)`; any other mode raises ValueError |
| Utils.StrAlignKeepsText | fancyprint/utils.py:4-13 | an aligned string holds the original text unchanged at its alignment offset, with only spaces around it |
| Utils.Delta | fancyprint/utils.py:20-24 | `delta` is NaN for fewer than two samples, otherwise the last sample minus the one before |
| Utils.AbsDelta | fancyprint/utils.py:26-30 | `absdelta` is NaN for fewer than two samples, otherwise the non-negative size of the last step |
| Utils.AbsDeltaIsAbsOfDelta | fancyprint/utils.py:21-30 | `absdelta` is defined exactly where `delta` is, and is its absolute value there |
| Utils.DeltasUseLastTwo | fancyprint/utils.py:21-30 | both statistics depend only on the last two samples |
| Utils.QuantityNamed | fancyprint/fancytables.py:79 | a name denotes a statistic exactly when the statistic's attribute name is that name |
| Utils.QuantityNamesRoundTrip | fancyprint/fancytables.py:79 | names and statistics correspond one to one |
| FancyPrint.Stdout.Print | fancyprint/fancyprint.py:35-36 | the builtin `print` appends its argument to the log |
| FancyPrint.Colorize | fancyprint/fancyprint.py:92-95 | under `nocolor` the message is returned as it is, otherwise wrapped in the colour and the reset sequence |
| FancyPrint.Emitted | fancyprint/fancyprint.py:87-90 | `_fprint` writes its line exactly when the type is not filtered |
| FancyPrint.FPrint | fancyprint/fancyprint.py:87-90 | the log grows by the line, or by nothing when the type is filtered |
| FancyPrint.StartHeader | fancyprint/fancyprint.py:29 | a chunk's header is the start glyph and the label padded to five, in the type's colour unless `nocolor` |
| FancyPrint.SingleHeader | fancyprint/fancyprint.py:60 | a single line's header is `[` and the label padded to five, in the type's colour unless `nocolor` |
| FancyPrint.EndLines | fancyprint/fancyprint.py:35-36 | `end_chunk` prints the end glyph, in the chunk's colour unless `nocolor`, then a blank line |
| FancyPrint.EffectiveType | fancyprint/fancyprint.py:53 | `msgtype or self.msgtype`: the line's own type when given, else the chunk's |
| FancyPrint.EndChunkStep | fancyprint/fancyprint.py:33-38 | `end_chunk` always leaves the context closed with no type, and prints the end marker and a blank line only when a chunk was open |
| FancyPrint.NewChunkStep | fancyprint/fancyprint.py:20-31 | a filtered type changes nothing; an open chunk without auto-close raises and changes nothing; otherwise the old chunk's closing comes first, the type is stored, and the chunk opens with its header line exactly when the type has a colour (KeyError otherwise) |
| FancyPrint.ContinuationLine | fancyprint/fancyprint.py:47-52 | a continuation line can be built exactly when the type override is absent or has a colour |
| FancyPrint.PrintStep | fancyprint/fancyprint.py:40-53 | `print` never changes the context and prints at most one line; closed, it raises NoChunk without a type and AttributeError with one; open, it raises only KeyError, for an override without a colour, and the line is dropped exactly when the effective type is filtered |
| FancyPrint.PrintSingleStep | fancyprint/fancyprint.py:55-61 | without auto-close an open chunk raises and changes nothing; otherwise the context ends closed, the old chunk's closing is printed unfiltered, and the single line follows unless it is filtered (KeyError for VOID) |
| FancyPrint.InitStep | fancyprint/fancyprint.py:8-12 | no type leaves the context closed; a filtered type leaves it closed and typed; otherwise the type is stored and the chunk's header printed, or KeyError raised for a type without a colour |
| FancyPrint.DefaultSettingsAutoclose | fancyprint/fancyprint.py:131-135 | under the default settings neither `new_chunk` nor `print_single` raises ChunkAlreadyOpen |
| FancyPrint.EndChunkIdempotent | fancyprint/fancyprint.py:33-38 | a second `end_chunk` prints nothing and changes nothing |
| FancyPrint.AutocloseOrder | fancyprint/fancyprint.py:23-31 | with auto-close, the old chunk's end marker and blank line come before the new chunk's header, and the new chunk is open under its type |
| FancyPrint.ContinuationFilteredByEffectiveType | fancyprint/fancyprint.py:48-53 | inside a chunk a line is printed exactly when the override type, or else the chunk's type, is not filtered |
| FancyPrint.NoColorEndChunk | fancyprint/fancyprint.py:33-38 | under `nocolor` the end marker and blank line hold no escape character |
| FancyPrint.NoColorNewChunk | fancyprint/fancyprint.py:20-31 | under `nocolor` `new_chunk` writes no escape character unless the message holds one |
| FancyPrint.NoColorPrint | fancyprint/fancyprint.py:40-53 | under `nocolor` `print` writes no escape character unless the message holds one |
| FancyPrint.NoColorPrintSingle | fancyprint/fancyprint.py:55-61 | under `nocolor` `print_single` writes no escape character unless the message holds one |
| FancyPrint.FancyPrintContext.constructor | fancyprint/fancyprint.py:146 | the global context starts closed with no type |
| FancyPrint.FancyPrintContext.Create | fancyprint/fancyprint.py:8-12 | construction stores the type, then opens a chunk when a type is given, as `InitStep` says |
| FancyPrint.FancyPrintContext.NewChunk | fancyprint/fancyprint.py:20-31 | fields, status and output are those of `NewChunkStep` |
| FancyPrint.FancyPrintContext.EndChunk | fancyprint/fancyprint.py:33-38 | fields and output are those of `EndChunkStep` |
| FancyPrint.FancyPrintContext.Exit | fancyprint/fancyprint.py:17-18 | leaving a `with` block closes the context |
| FancyPrint.FancyPrintContext.Print | fancyprint/fancyprint.py:40-53 | status and output are those of `PrintStep` |
| FancyPrint.FancyPrintContext.PrintSingle | fancyprint/fancyprint.py:55-61 | fields, status and output are those of `PrintSingleStep` |
| FancyPrint.Fancyfier.constructor | fancyprint/fancyprint.py:65-68 | the buffer starts empty with nothing forwarded |
| FancyPrint.Fancyfier.Pending | fancyprint/fancyprint.py:73 | the pending text is as long as the unforwarded pieces together |
| FancyPrint.Fancyfier.Write | fancyprint/fancyprint.py:70-77 | a newline forwards the pending text through `print`, and marks it forwarded unless `print` raised; any other text is buffered and nothing is printed |
| FancyPrint.PendingAfterWrites | fancyprint/fancyprint.py:70-77 | pieces written after the last forwarded line are forwarded together, in order |
| FancyPrint.ContinuationLines | fancyprint/fancyprint.py:126-127 | on an open chunk, every line prints unless the chunk's type is filtered, in which case none does |
| FancyPrint.ContinuationLinesEach | fancyprint/fancyprint.py:126-127 | on an unfiltered open chunk, entry `i` is the continuation line of line `i` |
| FancyPrint.MaxKeyLength | fancyprint/fancyprint.py:124 | the result is the length of the longest key |
| FancyPrint.KeyWidth | fancyprint/fancyprint.py:124 | the key width is `max_key_len` when it is non-zero, otherwise exactly the longest key (`MaxKeyLength`); it raises ValueError exactly for an empty dict with no `max_key_len` |
| FancyPrint.KeyField | fancyprint/fancyprint.py:127 | the key field is a prefix of the padded key, all of it without `max_key_len`, and exactly `max_key_len` long when that is between 0 and the padded length |
| FancyPrint.EnumLine | fancyprint/fancyprint.py:127 | an enumeration line is the bullet and a space, the key field, ` = `, and the value cut to `max_val_len`, in that order |
| FancyPrint.EnumLines | fancyprint/fancyprint.py:126-127 | one line per item |
| FancyPrint.EnumKeysAligned | fancyprint/fancyprint.py:124-127 | all key fields have one width: `max_key_len` when it is positive, else the longest key; all are empty when it is 0 |
| FancyPrint.PrintLinesStep | fancyprint/fancyprint.py:126-127 | printing lines leaves the context as it is; closed, the first line raises NoChunk; open, every line is a continuation |
| FancyPrint.EnumOpenStep | fancyprint/fancyprint.py:118-122 | an open chunk is used as it is; a closed context without a type raises NoChunk; a closed context with a type is exactly `new_chunk` with that type and message |
| FancyPrint.EnumBodyStep | fancyprint/fancyprint.py:123-129 | with no key width nothing is printed and ValueError is raised; on an open chunk the items' lines follow in order as continuation lines, then the closing unless `keep_open`, which also decides whether the chunk stays open; on a closed context nothing is printed and the first item raises NoChunk |
| FancyPrint.PrintEnumStep | fancyprint/fancyprint.py:112-129 | without a chunk or a type it raises NoChunk; a type without a colour raises KeyError after storing it; a filtered type prints nothing: ValueError without a key width, NoChunk at the first item, or a normal return for no items, which closes the context unless `keep_open`; otherwise the output is the new chunk's header (when `print_enum` opened it), the continuation line of each item's enumeration line in dictionary order, and the closing unless `keep_open`; with no key width ValueError follows the header |
| FancyPrint.EnumPrinted | fancyprint/fancyprint.py:126-127 | one continuation line per item, built from that item's enumeration line, in the dictionary's order |
| FancyPrint.EnumLinesPrinted | fancyprint/fancyprint.py:126-127 | on an unfiltered open chunk, printing the enumeration lines one by one leaves exactly `EnumPrinted` in the log |
| FancyPrint.PrintEnumLinesInOrder | fancyprint/fancyprint.py:118-129 | into an unfiltered chunk, `print_enum` prints the opening header (if it opened the chunk), then the continuation line of each item's enumeration line in the dictionary's order, then the end marker and blank line unless `keep_open` |
| FancyPrint.PrintLines | fancyprint/fancyprint.py:126-127 | the loop's status and output are those of `PrintLinesStep` |
| FancyPrint.PrintNextLine | fancyprint/fancyprint.py:127 | one pass of the loop extends the output by the next continuation line |
| FancyPrint.EnumOpen | fancyprint/fancyprint.py:118-122 | fields, status and output are those of `EnumOpenStep` |
| FancyPrint.EnumBody | fancyprint/fancyprint.py:123-129 | fields, status and output are those of `EnumBodyStep` |
| FancyPrint.PrintEnum | fancyprint/fancyprint.py:112-129 | fields, status and output are those of `PrintEnumStep` |
| FancyTables.ColumnWidth | fancyprint/fancytables.py:22-23 | a column's width is `max(len(name), size or 1)`: at least the name's length and at least the size (`None` and 0 mean 1), and equal to one of them |
| FancyTables.UserSizes | fancyprint/fancytables.py:20-25 | one size applies to every column, widened to its name; a list is zipped with the names, so the shorter decides the count; any other value raises ValueError |
| FancyTables.UserAligns | fancyprint/fancytables.py:18 | one mode is repeated per column; a list is used as it is |
| FancyTables.Separator | fancyprint/fancytables.py:32 | the separator is the stripped `sep` with one space on each side |
| FancyTables.HeaderCells | fancyprint/fancytables.py:33 | each header cell is the name centred in exactly its column's width |
| FancyTables.MakeLayout | fancyprint/fancytables.py:17-34 | the constructor fails exactly for an unsupported `colsizes`; otherwise the header is the centred names joined by the separator; with `idx`, a right-aligned column "idx" of width 3 comes first and the user's columns follow unchanged |
| FancyTables.HeaderLines | fancyprint/fancytables.py:53-55 | the header is followed by a rule of `=` exactly as wide |
| FancyTables.FooterLines | fancyprint/fancytables.py:50-51 | the footer is a rule of `-` as wide as the header |
| FancyTables.LastIndexOf | fancyprint/fancytables.py:31 | `colidxs` maps a name to its last position |
| FancyTables.LastIndexOfDistinct | fancyprint/fancytables.py:31 | with distinct names each name maps to its own position |
| FancyTables.RenderCell | fancyprint/fancytables.py:65 | a cell renders exactly when its column has a width, an alignment and a valid mode, and is then exactly the column's width; otherwise IndexError for a missing width or alignment, ValueError for a bad mode |
| FancyTables.CellShowsValue | fancyprint/fancytables.py:65 | a value that fits is shown whole at its alignment offset with spaces around it; a longer one is cut to the width |
| FancyTables.FirstFailure | fancyprint/fancytables.py:65 | there is no failing cell from `j` on exactly when every such cell renders |
| FancyTables.FirstFailureIsFirst | fancyprint/fancytables.py:65 | the exception returned is that of the leftmost failing cell from `j` on, as the comprehension evaluates left to right: every cell before it renders |
| FancyTables.RenderCellsSpec | fancyprint/fancytables.py:65 | a row renders exactly when every cell that `zip` reaches does, giving one cell per such column, each as wide as its column |
| FancyTables.RenderRow | fancyprint/fancytables.py:65 | a row renders exactly when its cells do, raising the leftmost failing cell's error otherwise (through `FirstFailureIsFirst`), and is then its cells joined by the separator |
| FancyTables.RenderCellsSucceed | fancyprint/fancytables.py:65 | with a width per column and valid alignments every row renders |
| FancyTables.RowWidthIsTableWidth | fancyprint/fancytables.py:33-34 | with distinct names, one width per column, valid alignments and one value per column, a row is exactly as wide as the header |
| FancyTables.Emit | fancyprint/fancytables.py:37 | the builtin `print` prints every line; a context prints them as continuations, or, when closed, raises NoChunk at the first line and prints nothing |
| FancyTables.EnterStep | fancyprint/fancytables.py:39-43 | `__enter__` prints the pending header, exactly as `print_fn` prints its two lines whatever the printer, and clears the flag unless printing raised; nothing else changes |
| FancyTables.ExitStep | fancyprint/fancytables.py:45-48 | `__exit__` prints the pending footer, exactly as `print_fn` prints it whatever the printer, and clears the flag unless printing raised; nothing else changes |
| FancyTables.RowValues | fancyprint/fancytables.py:63-64 | with `idx` the current index is the first value |
| FancyTables.RowBodyStep | fancyprint/fancytables.py:62-66 | at most one line is printed, and the index advances by one exactly when the row was printed |
| FancyTables.RowBodyOutcome | fancyprint/fancytables.py:62-66 | a row that cannot render raises its error and prints nothing; a rendered row goes to the builtin `print` as it is |
| FancyTables.PrintRowStep | fancyprint/fancytables.py:57-66 | `print_row` leaves the footer flag alone, never makes the header pending again, and advances the index by one exactly when it returns |
| FancyTables.PrintRowOutcome | fancyprint/fancytables.py:57-66 | a renderable row prints the pending header and then the row: as they are with the builtin `print`, as continuation lines through an open context, and nothing but NoChunk through a closed one; an unrenderable row prints the pending header, marks it done and then raises its cell's error |
| FancyTables.PrintRowsStep | fancyprint/fancytables.py:73-74 | after `n` rows printed without error the index has advanced by `n` and the header is no longer pending |
| FancyTables.ShortestLength | fancyprint/fancytables.py:70 | `zip` stops at the length of the shortest iterable, and `zip()` of nothing is empty |
| FancyTables.ArgRows | fancyprint/fancytables.py:69-72 | with all arguments iterable, row `k` holds the `k`-th element of each, for as many rows as the shortest; otherwise the arguments form one row |
| FancyTables.OpStep | fancyprint/fancytables.py:39-66 | no table call makes the header or the footer pending again, and only a printed row advances the index; `print_header` and `print_footer` print whenever called and change no field |
| FancyTables.HeaderAndFooterAtMostOnce | fancyprint/fancytables.py:39-61 | over any sequence of `__enter__`, `__exit__`, `print_header`, `print_footer` and `print_row` calls, whatever the printer's state at each call, the pending header and the pending footer are each printed at most once and only if pending, and the index counts the printed rows |
| FancyTables.RowsStopAtFailure | fancyprint/fancytables.py:73-74 | once a row raises, no later row is printed |
| FancyTables.FancyTable.constructor | fancyprint/fancytables.py:30-37 | the flags come from the arguments and the index starts at 0 |
| FancyTables.FancyTable.New | fancyprint/fancytables.py:8-37 | construction raises exactly when the layout does, otherwise gives a table with that layout and printer |
| FancyTables.FancyTable.EmitLines | fancyprint/fancytables.py:37 | status and output are those of `Emit` |
| FancyTables.FancyTable.PrintHeader | fancyprint/fancytables.py:53-55 | status and output are those of emitting the header lines |
| FancyTables.FancyTable.PrintFooter | fancyprint/fancytables.py:50-51 | status and output are those of emitting the footer line |
| FancyTables.FancyTable.Enter | fancyprint/fancytables.py:39-43 | fields, status and output are those of `EnterStep` |
| FancyTables.FancyTable.Exit | fancyprint/fancytables.py:45-48 | fields, status and output are those of `ExitStep` |
| FancyTables.FancyTable.RowBody | fancyprint/fancytables.py:62-66 | fields, status and output are those of `RowBodyStep` |
| FancyTables.FancyTable.PrintRendered | fancyprint/fancytables.py:65-66 | a rendered row is emitted, and the index advances when that returned |
| FancyTables.FancyTable.PrintRow | fancyprint/fancytables.py:57-66 | fields, status and output are those of `PrintRowStep` |
| FancyTables.FancyTable.Print | fancyprint/fancytables.py:68-74 | `print` is `print_row` over `ArgRows(args)` in order, stopping at the first that raises |
| FancyTables.FancyTable.PrintRows | fancyprint/fancytables.py:73-74 | fields, status and output are those of `PrintRowsStep` over all rows |
| FancyTables.FancyTable.PrintNextRow | fancyprint/fancytables.py:73-74 | one pass of the loop adds one row's effect |
| ChangeTracker.ParseQuantities | fancyprint/fancytables.py:82-84 | the names are accepted exactly when each one names a statistic, which is then the statistic it names; otherwise AssertionError |
| ChangeTracker.Dedup | fancyprint/fancytables.py:88 | the dict's keys are distinct, are exactly the statistics given, and are no more of them |
| ChangeTracker.DedupKeepsFirstOrder | fancyprint/fancytables.py:88 | the dict's keys keep the order in which each statistic was first given |
| ChangeTracker.FirstIndex | fancyprint/fancytables.py:88 | the position of an element's first occurrence |
| ChangeTracker.FirstIndexInPrefix | fancyprint/fancytables.py:88 | an element of all but the last of a list first occurs at the same place in the list and in that prefix |
| ChangeTracker.DedupDistinct | fancyprint/fancytables.py:88 | without repeats the dict keeps every statistic in order |
| ChangeTracker.DedupShortensRepeats | fancyprint/fancytables.py:88 | with a repeat the dict has fewer keys than the names given |
| ChangeTracker.DistinctNamesDistinctQuantities | fancyprint/fancytables.py:84 | distinct names name distinct statistics |
| ChangeTracker.Window | fancyprint/fancytables.py:86 | the history is the whole list without `maxlen`, and otherwise at most `maxlen` long, never longer than what was appended |
| ChangeTracker.WindowSpec | fancyprint/fancytables.py:86 | the history is every value for a list, or the newest `maxlen` for a `deque` |
| ChangeTracker.WindowIdempotent | fancyprint/fancytables.py:86 | a bounded history stays within its bound |
| ChangeTracker.AppendToWindow | fancyprint/fancytables.py:92 | appending to a bounded history gives the window of the whole history |
| ChangeTracker.Observed | fancyprint/fancytables.py:92 | after appending values one at a time, a bounded history holds at most `maxlen` of them |
| ChangeTracker.ObservedIsWindow | fancyprint/fancytables.py:91-92 | after any number of updates the history is the newest `max_history` of all the values seen |
| ChangeTracker.DeltaAfterUpdate | fancyprint/fancytables.py:92-93 | with room for two values `delta` after an update is the step from the previous value; a history of at most one value never has one |
| ChangeTracker.ShowNumber | fancyprint/fancytables.py:93-94 | a NaN statistic shows as `nan`, any other through `str` |
| ChangeTracker.QuantityCell | fancyprint/fancytables.py:93 | the `delta` and `absdelta` cells show those statistics of the current history; the others come from their own functions |
| ChangeTracker.TrackerRow | fancyprint/fancytables.py:93-94 | the row is the value, then one cell per statistic in dict order |
| ChangeTracker.DeltaCellShowsStep | fancyprint/fancytables.py:91-94 | the `delta` cell of an update's row shows the step from the previous value |
| ChangeTracker.RowFitsColumnsIffDistinct | fancyprint/fancytables.py:88-94 | the row has one value per column exactly when no statistic name repeats, and never more |
| ChangeTracker.DefaultOptionsRowsRender | fancyprint/fancytables.py:8-16 | with `FancyTable`'s default arguments the table is built without an index column and every row renders |
| ChangeTracker.FancyChangeTracker.constructor | fancyprint/fancytables.py:85-89 | the tracker starts with an empty history |
| ChangeTracker.FancyChangeTracker.New | fancyprint/fancytables.py:81-89 | AssertionError for an unknown name, then ValueError for a negative `max_history`, then the table's own error; otherwise an empty history, the deduplicated statistics and a table over the variable and all the names |
| ChangeTracker.FancyChangeTracker.Observe | fancyprint/fancytables.py:92 | the history becomes the window of the old history plus the value |
| ChangeTracker.FancyChangeTracker.Update | fancyprint/fancytables.py:91-94 | the history is updated even when printing raises, and the table prints the row of the value and its statistics, as `PrintRowStep` says |

## Left out

- **Flushing.** `autoflush` only decides when the stream is flushed, so the log does not model it.
- **The `fancyfy` decorator and `redirect_stdout`.** A `Fancyfier` writes to the context directly, and the context prints to the real standard output.
- **The `info`, `ok`, `error`, `debug` and `warning` wrappers.** Each is one call of `print_single` on the global context, which `FancyPrintContext.PrintSingle` models.
- **The `MessageFilter` type checks (TypeError).** `add`, `discard` and `__setitem__` raise TypeError for every argument, real message types included: the types are plain strings, so `isinstance(x, MessageType)` is never true (misc.py:8-14, 30, 36, 42). In the source the filter can be filled only through the constructor or inherited `set` methods such as `update`. The model's filter is a `set<MessageType>` given as it stands, and these three methods are not modelled.
- **Arbitrary message types.** Message types are a closed datatype. A caller passing some other string as a type, which the Python code would accept up to the colour lookup, is not modelled.
- **The other statistics.** `reldelta`, `absreldelta`, `mean`, `std` and `var` need floating-point division and numpy. Their cells come from the tracker's `other` parameter, which cannot fail. In the source, `reldelta` and `absreldelta` divide by the previous sample, so for plain Python numbers a previous sample of 0 raises ZeroDivisionError. `update` then raises after the append and before `print_row` (fancytables.py:92-94). `FancyChangeTracker.Update` therefore always reaches the row.
- **`sgnnum`.** The core does not use it.
- **`str` of a float** comes from the tracker's `show` parameter. Other cell values are taken as already converted with `str`. Only `str` of the index is modelled.
- **Floating-point arithmetic.** Samples are reals, so rounding, infinities and NaN inputs are not modelled.
- **Duck typing in `FancyTable.print`.** It is modelled by `Arg.elements`. A string argument is iterable in Python, so its caller gives its characters as the elements.
- **Keyword arguments to `FancyTable.print`.** They are passed on to `print_row`, which takes none, so Python raises TypeError. This is not modelled.
- **The `quantities` argument.** It is a string or a list of strings (`Quantities`). Other types are not modelled.
- **Thread safety and `setup.py`.** These are outside the library's behaviour.
- **The `message=None` default of `FancyPrintContext`.** Messages are strings, so a caller that opens a context with only a type passes the string "None", which is what Python prints there.
- **FancyTables.RowBodyStep:** its contract states the index and the line count. The rendered content is stated by `RowBodyOutcome`.
