# jprelude CSV format and text writer, in Dafny

This project models two pieces of the jprelude Java toolkit and proves properties of them.

The first piece is the CSV format configuration `CsvFormat` and its `Builder` (module `CsvFormats`, file `csv_format.dfy`). The builder collects seven settings:

- the delimiter;
- the record separator;
- the auto-trim flag;
- an optional escape character;
- an optional quote character;
- the quote mode;
- an ordered column list.

It starts from fixed defaults or from a prototype format. `build()` copies the settings into a `CsvFormat`. That format derives an export engine configuration and an import engine configuration. Its row encoder (`asMapper`) turns a row into a line. `map` turns a row sequence into lines, with a header line first when columns are declared.

The second piece is `TextWriter` (module `TextWriters`, file `text_writer.dfy`). It covers:

- the line-writing loop of `writeLines` and `writeFullText`;
- charset defaulting;
- the open options of `forFile`;
- the close-guarded stream wrapper of `forOutputStream`.

Two small modules support both pieces:

- `JavaLang` (`java_lang.dfy`) holds Java's null, exceptions, object values and `Objects.toString`. It also holds `String.trim` and the "drop the nulls" filter, each with its lemmas.
- `LineSeparators` (`line_separators.dfy`) holds the separator enumeration.

## How the model is built

- The CSV engine (Apache Commons CSV) is external. Its `format(fields)` is the parameter `format: Formatter`, an arbitrary total function of the engine configuration and the fields. Every property about `asMapper` and `map` therefore holds for any engine.
- `LineSeparator` is not part of this model. A separator is a record of its kind, its `value()` and its `toString()` text. The three constants carry assumed strings. No property depends on them except the builder defaults.
- A Java null is `None` of `Option`, or a `null` reference for objects. An exception is `Err`/`Fail` of `Result`/`Outcome`, carrying `NullPointer` or `UncheckedIO(message)`.
- `Builder.columns` is a reference to a `ColumnList` object, which stands for the Java `ArrayList`. `CsvFormat.columns` is a constant reference to the format's own list. `Builder.FromPrototype` stores the prototype's list object itself, as `CsvFormat.java:255` does. A later `columns(...)` call on that builder therefore rewrites the prototype's list. This changes the prototype's header line, because `CsvFormat.Map` reads the list when it is called. It does not change the prototype's import configuration, which was fixed when the prototype was built. `ReplaceColumnsOfPrototype` states all of this.
- When `appendRecordSeparator` is true, the header line that `map` emits ends with the separator twice (`HeaderEndsWithSeparatorTwice`).
- Appended separators use the separator's `toString()` text. The engine configuration uses its `value()`.
- The format is not immutable: a builder made from a prototype shares the prototype's column list (`CsvFormat.java:255`). Neither the code nor this model checks that the delimiter, quote and escape characters differ, and neither checks row arity.
- `writeLines` takes the `PrintStream` that `write()` hands to its delegate (`OpenPrintStream` opens it with the defaulted charset). The model records text at the character level. The guarded wrapper records bytes at the byte level. The encoding between the two levels is not modelled.

## Model

| member | source | states |
|---|---|---|
| `JavaLang.ToStringOr` | jprelude-core/src/main/java/org/jprelude/core/io/TextWriter.java:50 | `Objects.toString(o, nullDefault)`: the default for null, a string itself for a string, and the object's text for any other object |
| `JavaLang.Trim` | jprelude-csv/src/main/java/org/jprelude/csv/base/CsvFormat.java:195 | `String.trim`: the result is never longer than the input and neither starts nor ends with a character <= U+0020 |
| `JavaLang.NonNull` | jprelude-csv/src/main/java/org/jprelude/csv/base/CsvFormat.java:311-317 | the non-null elements of a list, in their order; never longer than the list |
| `JavaLang.TrimIsTrimmedMiddle` | jprelude-csv/src/main/java/org/jprelude/csv/base/CsvFormat.java:195 | the trimmed form of a field is a contiguous middle part of its string; everything removed at either end is a character <= U+0020; the result neither starts nor ends with one |
| `JavaLang.TrimIdempotent` | jprelude-csv/src/main/java/org/jprelude/csv/base/CsvFormat.java:195 | trimming an already trimmed field changes nothing |
| `JavaLang.NonNullAppend` | jprelude-csv/src/main/java/org/jprelude/csv/base/CsvFormat.java:311-317 | dropping nulls distributes over concatenation, so the kept elements stay in their original order |
| `JavaLang.NonNullMembership` | jprelude-csv/src/main/java/org/jprelude/csv/base/CsvFormat.java:312-316 | an element is kept iff it occurs non-null in the input |
| `JavaLang.NonNullLength` | jprelude-csv/src/main/java/org/jprelude/csv/base/CsvFormat.java:312-316 | filtering never lengthens the list, and it shortens the list iff the input holds a null |
| `JavaLang.NonNullOfPresent` | jprelude-csv/src/main/java/org/jprelude/csv/base/CsvFormat.java:312-316 | a list without nulls is kept entirely, in order |
| `CsvFormats.Names` | jprelude-csv/src/main/java/org/jprelude/csv/base/CsvFormat.java:148-149 | the column names, one per column, in declaration order |
| `CsvFormats.NameRow` | jprelude-csv/src/main/java/org/jprelude/csv/base/CsvFormat.java:217-218 | the row of the column names, as strings, one per column in declaration order |
| `CsvFormats.NamedColumns` | jprelude-csv/src/main/java/org/jprelude/csv/base/CsvFormat.java:295-299 | one column per name, in order, so the names of the result are exactly the given names |
| `CsvFormats.EngineQuoteModeOf` | jprelude-csv/src/main/java/org/jprelude/csv/base/CsvFormat.java:118-135 | ALL maps to ALL, NONE to NONE, NON_NUMERIC to NON_NUMERIC and MINIMAL (the default branch) to MINIMAL, each in both directions, so no two modes share an engine mode |
| `CsvFormats.ExportConfig` | jprelude-csv/src/main/java/org/jprelude/csv/base/CsvFormat.java:137-143 | the export configuration has the delimiter, the separator's `value()`, auto-trim as "ignore surrounding spaces", the escape and quote characters and the mapped quote mode, and no header |
| `CsvFormats.ImportConfig` | jprelude-csv/src/main/java/org/jprelude/csv/base/CsvFormat.java:145-153 | with no columns the import configuration is the export configuration; with columns its header is the column names in declaration order and it skips the header record; in both cases it otherwise equals the export configuration |
| `CsvFormats.HeaderNames` | jprelude-csv/src/main/java/org/jprelude/csv/base/CsvFormat.java:148-149 | the array filled index by index holds exactly the column names, in declaration order |
| `CsvFormats.TrimField` | jprelude-csv/src/main/java/org/jprelude/csv/base/CsvFormat.java:195 | a null field stays null; any other field becomes the trimmed string of its `toString()`, which trimming again leaves unchanged |
| `CsvFormats.TrimFields` | jprelude-csv/src/main/java/org/jprelude/csv/base/CsvFormat.java:194-196 | auto-trim keeps the row length; each null field stays null and every other field becomes its trimmed string form |
| `CsvFormats.TrimFieldsIdempotent` | jprelude-csv/src/main/java/org/jprelude/csv/base/CsvFormat.java:194-196 | auto-trimming an auto-trimmed row changes nothing |
| `CsvFormats.ColumnList.Empty` | jprelude-csv/src/main/java/org/jprelude/csv/base/CsvFormat.java:244 | a new list is empty |
| `CsvFormats.ColumnList.Copy` | jprelude-csv/src/main/java/org/jprelude/csv/base/CsvFormat.java:110 | `new ArrayList<>(other)`: a new list with the other list's columns in order |
| `CsvFormats.ColumnList.Clear` | jprelude-csv/src/main/java/org/jprelude/csv/base/CsvFormat.java:293 | the list is empty afterwards |
| `CsvFormats.ColumnList.Add` | jprelude-csv/src/main/java/org/jprelude/csv/base/CsvFormat.java:297 | the column is appended after the existing ones |
| `CsvFormats.CsvFormat.constructor` | jprelude-csv/src/main/java/org/jprelude/csv/base/CsvFormat.java:109-155 | the format holds a fresh copy of the builder's columns and the builder's other settings; the export configuration is derived from the settings; the import configuration is derived from the export configuration and the column names |
| `CsvFormats.CsvFormat.GetColumns` | jprelude-csv/src/main/java/org/jprelude/csv/base/CsvFormat.java:169-171 | returns a fresh list with the current columns |
| `CsvFormats.CsvFormat.EncodedFields` | jprelude-csv/src/main/java/org/jprelude/csv/base/CsvFormat.java:192-196 | the fields the engine formats: as many as the row has, each the trimmed field under auto-trim and the field itself otherwise |
| `CsvFormats.CsvFormat.AsMapper` | jprelude-csv/src/main/java/org/jprelude/csv/base/CsvFormat.java:190-206 | a row's line is the engine's formatting of its encoded fields under the export configuration, followed by the separator's `toString()` exactly when it is appended |
| `CsvFormats.CsvFormat.AsMapperWithoutSeparator` | jprelude-csv/src/main/java/org/jprelude/csv/base/CsvFormat.java:186-188 | `asMapper()` is `asMapper(false)` |
| `CsvFormats.CsvFormat.EncodeRows` | jprelude-csv/src/main/java/org/jprelude/csv/base/CsvFormat.java:213 | one line per row, in row order, each the mapper applied to that row |
| `CsvFormats.CsvFormat.HeaderCount` | jprelude-csv/src/main/java/org/jprelude/csv/base/CsvFormat.java:215 | at most one header line, and exactly one iff the current column list is non-empty |
| `CsvFormats.CsvFormat.Header` | jprelude-csv/src/main/java/org/jprelude/csv/base/CsvFormat.java:215-220 | the header line is the current column names formatted by the engine, followed by the separator twice when separators are appended and once otherwise |
| `CsvFormats.CsvFormat.Map` | jprelude-csv/src/main/java/org/jprelude/csv/base/CsvFormat.java:212-224 | the output has one line per row plus one if columns exist; line `HeaderCount() + i` is row `i` encoded; with columns, line 0 is the column names encoded followed by the separator |
| `CsvFormats.CsvFormat.MapWithoutSeparator` | jprelude-csv/src/main/java/org/jprelude/csv/base/CsvFormat.java:208-210 | `map(rows)` is `map(rows, false)` |
| `CsvFormats.AsMapperAppendsSeparator` | jprelude-csv/src/main/java/org/jprelude/csv/base/CsvFormat.java:200-202 | with `appendRecordSeparator` the line is the line without it followed by the separator's text |
| `CsvFormats.AsMapperPassesFieldsThrough` | jprelude-csv/src/main/java/org/jprelude/csv/base/CsvFormat.java:190-198 | without auto-trim the engine formats the row exactly as given, with the export configuration |
| `CsvFormats.AsMapperTrimmedRow` | jprelude-csv/src/main/java/org/jprelude/csv/base/CsvFormat.java:194-198 | with auto-trim, a row and its trimmed form encode to the same line |
| `CsvFormats.AsMapperIgnoresSurroundingSpace` | jprelude-csv/src/main/java/org/jprelude/csv/base/CsvFormat.java:194-198 | with auto-trim, rows whose fields agree up to surrounding whitespace encode to the same line |
| `CsvFormats.HeaderEndsWithSeparatorTwice` | jprelude-csv/src/main/java/org/jprelude/csv/base/CsvFormat.java:215-220 | with separators appended, the header line is the formatted names followed by the separator twice |
| `CsvFormats.MapWithoutColumns` | jprelude-csv/src/main/java/org/jprelude/csv/base/CsvFormat.java:213-215 | without columns no header is prepended: the output is the encoded rows alone |
| `CsvFormats.EncodeRowsAppend` | jprelude-csv/src/main/java/org/jprelude/csv/base/CsvFormat.java:213 | mapping concatenated row sequences gives the concatenation of their lines |
| `CsvFormats.Builder.constructor` | jprelude-csv/src/main/java/org/jprelude/csv/base/CsvFormat.java:243-251 | defaults: delimiter `,`, separator LF, no auto-trim, no escape, quote `"`, quote mode MINIMAL, a fresh empty column list |
| `CsvFormats.Builder.FromPrototype` | jprelude-csv/src/main/java/org/jprelude/csv/base/CsvFormat.java:253-263 | with a prototype, all seven settings equal the prototype's and the column list is the prototype's own list object; without one, every field keeps Java's default value |
| `CsvFormats.Builder.SetDelimiter` | jprelude-csv/src/main/java/org/jprelude/csv/base/CsvFormat.java:265-268 | sets the delimiter and nothing else |
| `CsvFormats.Builder.SetRecordSeparator` | jprelude-csv/src/main/java/org/jprelude/csv/base/CsvFormat.java:270-273 | sets the record separator, null included, and nothing else |
| `CsvFormats.Builder.SetEscape` | jprelude-csv/src/main/java/org/jprelude/csv/base/CsvFormat.java:275-278 | sets the escape character, null included, and nothing else |
| `CsvFormats.Builder.SetQuote` | jprelude-csv/src/main/java/org/jprelude/csv/base/CsvFormat.java:280-283 | sets the quote character, null included, and nothing else |
| `CsvFormats.Builder.SetQuoteMode` | jprelude-csv/src/main/java/org/jprelude/csv/base/CsvFormat.java:285-290 | a null mode throws and changes nothing; otherwise the mode is set and nothing else |
| `CsvFormats.Builder.SetAutoTrim` | jprelude-csv/src/main/java/org/jprelude/csv/base/CsvFormat.java:322-325 | sets the auto-trim flag and nothing else |
| `CsvFormats.Builder.ColumnsByName` | jprelude-csv/src/main/java/org/jprelude/csv/base/CsvFormat.java:292-302 | the list object now holds exactly one column per given name in the given order, or nothing for a null array; a null list object throws |
| `CsvFormats.Builder.ColumnsByArray` | jprelude-csv/src/main/java/org/jprelude/csv/base/CsvFormat.java:304-306 | a null array throws before the list is cleared; otherwise it behaves as `columns(List)` |
| `CsvFormats.Builder.ColumnsByList` | jprelude-csv/src/main/java/org/jprelude/csv/base/CsvFormat.java:308-320 | the list object now holds exactly the non-null given columns in their order, or nothing for a null list, and no earlier column survives; a null list object throws |
| `CsvFormats.Builder.Build` | jprelude-csv/src/main/java/org/jprelude/csv/base/CsvFormat.java:327-329 | throws NullPointerException iff the column list, the record separator or the quote mode is null; otherwise returns a new format with the builder's settings, a copy of its columns and the derived configurations |
| `CsvFormats.BuildDefaults` | jprelude-csv/src/main/java/org/jprelude/csv/base/CsvFormat.java:243-251 | a format built from a fresh builder has the default settings and no columns, so its import and export configurations coincide |
| `CsvFormats.ReplaceColumnsOfPrototype` | jprelude-csv/src/main/java/org/jprelude/csv/base/CsvFormat.java:253-302 | `columns(...)` on a builder made from a prototype replaces the prototype's own columns and changes its header count; the derived format shares the export configuration and gets an import configuration with the new names |
| `TextWriters.EffectiveCharset` | jprelude-core/src/main/java/org/jprelude/core/io/TextWriter.java:80-84 | a null charset becomes UTF-8; any other charset is kept |
| `TextWriters.EffectiveCharsetIdempotent` | jprelude-core/src/main/java/org/jprelude/core/io/TextWriter.java:118-120 | defaulting a charset that was already defaulted changes nothing |
| `TextWriters.SeparatorValue` | jprelude-core/src/main/java/org/jprelude/core/io/TextWriter.java:44-47 | a null separator or NONE gives the empty string; any other separator gives its `value()` |
| `TextWriters.Rendered` | jprelude-core/src/main/java/org/jprelude/core/io/TextWriter.java:49-51 | the text the `writeLines` loop prints: empty for no lines; otherwise at least as long as the last line's text and the separator (its exact shape is stated by the lemmas below) |
| `TextWriters.RenderedAppend` | jprelude-core/src/main/java/org/jprelude/core/io/TextWriter.java:49-51 | printing two runs of lines one after the other prints the concatenation of their texts |
| `TextWriters.RenderedSingle` | jprelude-core/src/main/java/org/jprelude/core/io/TextWriter.java:49-51 | one line prints as its string form (null as "") and then the separator |
| `TextWriters.RenderedAt` | jprelude-core/src/main/java/org/jprelude/core/io/TextWriter.java:49-51 | every line's string form is immediately followed by the separator, between the text of the lines before it and the text of the lines after it |
| `TextWriters.FileOpenOptions` | jprelude-core/src/main/java/org/jprelude/core/io/TextWriter.java:156-159 | WRITE, then CREATE, then exactly the caller's non-null options in their original order |
| `TextWriters.OutputSink.constructor` | jprelude-core/src/main/java/org/jprelude/core/io/TextWriter.java:173-175 | the caller's stream starts with no bytes, no flushes and open |
| `TextWriters.OutputSink.Write` | jprelude-core/src/main/java/org/jprelude/core/io/TextWriter.java:185 | the byte is appended to the bytes received so far |
| `TextWriters.OutputSink.Flush` | jprelude-core/src/main/java/org/jprelude/core/io/TextWriter.java:195 | one more flush is counted |
| `TextWriters.OutputSink.Close` | jprelude-core/src/main/java/org/jprelude/core/io/TextWriter.java:199-202 | closing the caller's stream marks it closed; the guard's own close never calls it |
| `TextWriters.PrintStream.constructor` | jprelude-core/src/main/java/org/jprelude/core/io/TextWriter.java:88-91 | a new print stream has the given charset and has printed nothing |
| `TextWriters.PrintStream.Print` | jprelude-core/src/main/java/org/jprelude/core/io/TextWriter.java:50-51 | the string is appended to the text printed so far |
| `TextWriters.GuardedOutputStream.constructor` | jprelude-core/src/main/java/org/jprelude/core/io/TextWriter.java:179-180 | a new wrapper is open and wraps the given stream |
| `TextWriters.GuardedOutputStream.Write` | jprelude-core/src/main/java/org/jprelude/core/io/TextWriter.java:182-190 | while open the byte is forwarded; once closed the write throws "Output stream is already closed" and nothing is forwarded |
| `TextWriters.GuardedOutputStream.Flush` | jprelude-core/src/main/java/org/jprelude/core/io/TextWriter.java:192-197 | while open the flush is forwarded; once closed it does nothing |
| `TextWriters.GuardedOutputStream.Close` | jprelude-core/src/main/java/org/jprelude/core/io/TextWriter.java:199-202 | sets the closed flag and touches nothing else, in particular not the wrapped stream |
| `TextWriters.CloseThenWrite` | jprelude-core/src/main/java/org/jprelude/core/io/TextWriter.java:179-203 | after close, flush and write leave the wrapped stream's bytes, flush count and open state unchanged, and the write fails |
| `TextWriters.TextWriter.Create` | jprelude-core/src/main/java/org/jprelude/core/io/TextWriter.java:111-138 | the writer keeps the supplier and URI and reports the defaulted charset |
| `TextWriters.TextWriter.CreateDefault` | jprelude-core/src/main/java/org/jprelude/core/io/TextWriter.java:103-109 | UTF-8 and no URI |
| `TextWriters.TextWriter.ForFile` | jprelude-core/src/main/java/org/jprelude/core/io/TextWriter.java:149-165 | a null path throws; otherwise the writer opens the path with the `forFile` option list, reports the defaulted charset, and has the path's URI |
| `TextWriters.TextWriter.ForFileDefault` | jprelude-core/src/main/java/org/jprelude/core/io/TextWriter.java:140-147 | `forFile` with a null charset, which becomes UTF-8 |
| `TextWriters.TextWriter.ForOutputStream` | jprelude-core/src/main/java/org/jprelude/core/io/TextWriter.java:173-206 | a null stream throws; otherwise the writer's supplier wraps the stream in a guard, with the defaulted charset and no URI |
| `TextWriters.TextWriter.ForOutputStreamDefault` | jprelude-core/src/main/java/org/jprelude/core/io/TextWriter.java:167-171 | `forOutputStream` with a null charset, which becomes UTF-8 |
| `TextWriters.TextWriter.NewGuardedStream` | jprelude-core/src/main/java/org/jprelude/core/io/TextWriter.java:179-180 | each stream opened for a `forOutputStream` writer is a fresh, open guard around the same wrapped stream |
| `TextWriters.TextWriter.OpenPrintStream` | jprelude-core/src/main/java/org/jprelude/core/io/TextWriter.java:80-91 | the print stream uses the writer's charset, or UTF-8 when that is null, and starts empty |
| `TextWriters.TextWriter.WriteLines` | jprelude-core/src/main/java/org/jprelude/core/io/TextWriter.java:37-63 | null lines throw before anything is printed; otherwise the result is the number of lines, and the stream receives, in order, each line's string form (null as "") followed by the separator value, and nothing else |
| `TextWriters.TextWriter.WriteLinesLf` | jprelude-core/src/main/java/org/jprelude/core/io/TextWriter.java:31-35 | `writeLines(lines)` is `writeLines(lines, LF)`, and null lines throw |
| `TextWriters.TextWriter.WriteFullText` | jprelude-core/src/main/java/org/jprelude/core/io/TextWriter.java:65-67 | the stream receives exactly the string form of the text (null as "") and no separator |

## Left out

- The CSV engine: quoting, escaping, field splitting and parsing. `format` is an uninterpreted parameter. The engine's default settings that the codec does not set are not represented in `EngineConfig`.
- `CsvFormats.Builder.Build`: the engine's own validation of its configuration is not modelled, so `Build` succeeds whenever the three settings are non-null. Apache Commons CSV may refuse some of these configurations with IllegalArgumentException: a delimiter equal to the quote or escape character, quote mode NONE without an escape character, and, in some versions, duplicate column names in the import header.
- The decoder, `forInputFrom` and `forOutputTo`, and resolving fields by column name. They appear only in the usage comment of `CsvFormat.java` and are not implemented there.
- `LineSeparator` and `CsvColumn` are not part of this model. A separator carries assumed `value()` and `toString()` strings. A column is only its name. So what `new CsvColumn(null)` does for a null name inside a `String...` array is not modelled: names are non-null strings.
- Laziness of `Seq`. Row and line sequences are finite `seq` values. `map` on a null row sequence is not modelled.
- Passing the builder's own list object to `columns(List)`: the builder never hands out that list, so the argument is a value.
- Getters other than `getColumns`. They return the `const` fields of `CsvFormat` directly.
- `OutputStream`, `PrintStream` and file plumbing. This covers `Files.newOutputStream`, `newOutputStream()` for suppliers other than the guard, buffering, charset encoding of characters to bytes, the `checkError()` failure paths, and try-with-resources closing.
- A null stream supplier passed to `create`. The supplier is a value of `StreamSupplier`, so it is never null.
- `TextWriters.TextWriter.WriteLines`: the `long` counter is an unbounded `nat`. Its overflow after 2^63 - 1 lines is not modelled.
- `CsvMapper`, `CheckedConsumer`, `TriPredicate` and `TriConsumer`: glue without domain logic.
