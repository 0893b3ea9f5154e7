/**
 * CsvFormat and its Builder: the CSV settings, the two derived engine
 * configurations (one for export, one for import) and the row encoder.
 *
 * The CSV engine itself (Apache Commons CSV) is not modelled: its
 * `format(fields)` is a parameter `format: Formatter`, an arbitrary
 * function of the engine configuration and the fields, so every property
 * below holds for any engine.
 */
module CsvFormats {
  import opened JavaLang
  import LineSeparators

  type LineSeparator = LineSeparators.LineSeparator

  /** A column of the schema; only its name is used. */
  datatype CsvColumn = CsvColumn(name: string)

  /** The codec's own quote mode. */
  datatype CsvQuoteMode = ALL | NONE | MINIMAL | NON_NUMERIC

  /** The engine's quote mode. */
  datatype EngineQuoteMode = QuoteAll | QuoteNone | QuoteMinimal | QuoteNonNumeric

  /**
   * The settings of an engine configuration that the codec sets; the
   * engine's other settings keep their defaults and are not modelled.
   */
  datatype EngineConfig = EngineConfig(
    delimiter: char,
    recordSeparator: string,
    ignoreSurroundingSpaces: bool,
    escape: Option<char>,
    quote: Option<char>,
    quoteMode: EngineQuoteMode,
    header: Option<seq<string>>,
    skipHeaderRecord: bool)

  /** The engine's `format(fields)` under a given configuration. */
  type Formatter = (EngineConfig, seq<Value>) -> string

  /** The column names in declaration order. */
  function Names(columns: seq<CsvColumn>): (names: seq<string>)
    ensures |names| == |columns|
    ensures forall i :: 0 <= i < |columns| ==> names[i] == columns[i].name
  {
    seq(|columns|, i requires 0 <= i < |columns| => columns[i].name)
  }

  /** The column names as the row that encodes the header line. */
  function NameRow(columns: seq<CsvColumn>): (row: seq<Value>)
    ensures |row| == |columns|
    ensures forall i :: 0 <= i < |columns| ==> row[i] == Str(columns[i].name)
  {
    seq(|columns|, i requires 0 <= i < |columns| => Str(columns[i].name))
  }

  /** One column per name, in the given order. */
  function NamedColumns(names: seq<string>): (columns: seq<CsvColumn>)
    ensures Names(columns) == names
  {
    seq(|names|, i requires 0 <= i < |names| => CsvColumn(names[i]))
  }

  /** The switch that maps the codec's quote mode onto the engine's. */
  function EngineQuoteModeOf(mode: CsvQuoteMode): (r: EngineQuoteMode)
    ensures r == QuoteAll <==> mode == ALL
    ensures r == QuoteNone <==> mode == NONE
    ensures r == QuoteNonNumeric <==> mode == NON_NUMERIC
    ensures r == QuoteMinimal <==> mode == MINIMAL
  {
    match mode
    case ALL => QuoteAll
    case NONE => QuoteNone
    case NON_NUMERIC => QuoteNonNumeric
    case _ => QuoteMinimal
  }

  /**
   * The engine's default configuration with the codec's settings applied:
   * the separator's value(), auto-trim as "ignore surrounding spaces", the
   * mapped quote mode, and no header.
   */
  function ExportConfig(delimiter: char, recordSeparator: LineSeparator, autoTrim: bool,
                        escape: Option<char>, quote: Option<char>, mode: CsvQuoteMode): (c: EngineConfig)
    ensures c.delimiter == delimiter && c.recordSeparator == recordSeparator.value
    ensures c.ignoreSurroundingSpaces == autoTrim
    ensures c.escape == escape && c.quote == quote
    ensures c.quoteMode == EngineQuoteModeOf(mode)
    ensures c.header == None && !c.skipHeaderRecord
  {
    EngineConfig(delimiter, recordSeparator.value, autoTrim, escape, quote,
                 EngineQuoteModeOf(mode), None, false)
  }

  /**
   * The import configuration. Without columns it is the export one. With
   * columns it is the export one except that its header is the column
   * names in declaration order and it skips the header record.
   */
  function ImportConfig(exported: EngineConfig, names: seq<string>): (c: EngineConfig)
    ensures |names| == 0 ==> c == exported
    ensures |names| > 0 ==> c.header == Some(names) && c.skipHeaderRecord
    ensures c.(header := exported.header, skipHeaderRecord := exported.skipHeaderRecord) == exported
  {
    if |names| == 0 then exported
    else exported.(header := Some(names), skipHeaderRecord := true)
  }

  /**
   * Fills an array with the column names index by index, as the CsvFormat
   * constructor does before it derives the import configuration.
   */
  method HeaderNames(columns: seq<CsvColumn>) returns (names: array<string>)
    ensures names.Length == |columns|
    ensures names[..] == Names(columns)
  {
    names := new string[|columns|];
    var i := 0;
    while i < |columns|
      invariant 0 <= i <= |columns|
      invariant forall k :: 0 <= k < i ==> names[k] == columns[k].name
    {
      names[i] := columns[i].name;
      i := i + 1;
    }
  }

  /**
   * Auto-trim of one field: null stays null, anything else becomes its
   * trimmed string form, which trimming again leaves unchanged.
   */
  function TrimField(v: Value): (r: Value)
    ensures r.Null? <==> v.Null?
    ensures !v.Null? ==> r == Str(Trim(ToStringOr(v, ""))) && Trim(r.s) == r.s
  {
    if v.Null? then Null
    else
      TrimIdempotent(ToStringOr(v, ""));
      Str(Trim(ToStringOr(v, "")))
  }

  /** Auto-trim of a row, field by field. */
  function TrimFields(row: seq<Value>): (fields: seq<Value>)
    ensures |fields| == |row|
    ensures forall i :: 0 <= i < |row| ==> fields[i] == TrimField(row[i])
  {
    if row == [] then [] else [TrimField(row[0])] + TrimFields(row[1..])
  }

  /** Auto-trimming an auto-trimmed row changes nothing. */
  lemma TrimFieldsIdempotent(row: seq<Value>)
    ensures TrimFields(TrimFields(row)) == TrimFields(row)
  {
  }

  /**
   * java.util.ArrayList<CsvColumn>: a list object that a builder and the
   * format it was prototyped from may share.
   */
  class ColumnList {
    var items: seq<CsvColumn>

    constructor Empty()
      ensures items == []
    {
      items := [];
    }

    /** new ArrayList<>(other). */
    constructor Copy(other: ColumnList)
      ensures items == other.items
    {
      items := other.items;
    }

    method Clear()
      modifies this
      ensures items == []
    {
      items := [];
    }

    method Add(column: CsvColumn)
      modifies this
      ensures items == old(items) + [column]
    {
      items := items + [column];
    }
  }

  class CsvFormat {
    /** The format's own copy of the builder's list. It is not immutable: see Builder.FromPrototype. */
    const columns: ColumnList
    const delimiter: char
    const recordSeparator: LineSeparator
    const autoTrim: bool
    const escapeCharacter: Option<char>
    const quoteCharacter: Option<char>
    const quoteMode: CsvQuoteMode
    /** The export configuration, derived from the settings above. */
    const exportConfig: EngineConfig :=
      ExportConfig(delimiter, recordSeparator, autoTrim, escapeCharacter, quoteCharacter, quoteMode)
    /** The import configuration, derived from the column names when the format was built. */
    const importConfig: EngineConfig

    /** The private constructor that Builder.Build calls once it has ruled out the null settings. */
    constructor (b: Builder)
      requires b.columns != null && b.recordSeparator.Some? && b.quoteMode.Some?
      ensures fresh(columns) && columns.items == b.columns.items
      ensures delimiter == b.delimiter && recordSeparator == b.recordSeparator.value
      ensures autoTrim == b.autoTrim && escapeCharacter == b.escapeCharacter
      ensures quoteCharacter == b.quoteCharacter && quoteMode == b.quoteMode.value
      ensures importConfig == ImportConfig(exportConfig, Names(columns.items))
    {
      var copy := new ColumnList.Copy(b.columns);
      var imported := ExportConfig(b.delimiter, b.recordSeparator.value, b.autoTrim,
                                   b.escapeCharacter, b.quoteCharacter, b.quoteMode.value);
      if |copy.items| != 0 {
        var names := HeaderNames(copy.items);
        imported := imported.(header := Some(names[..]), skipHeaderRecord := true);
      }
      columns := copy;
      delimiter := b.delimiter;
      recordSeparator := b.recordSeparator.value;
      autoTrim := b.autoTrim;
      escapeCharacter := b.escapeCharacter;
      quoteCharacter := b.quoteCharacter;
      quoteMode := b.quoteMode.value;
      importConfig := imported;
    }

    /** getColumns(): a fresh copy of the current column list. */
    method GetColumns() returns (r: ColumnList)
      ensures fresh(r) && r.items == columns.items
    {
      r := new ColumnList.Copy(columns);
    }

    /** The fields handed to the engine: auto-trimmed when auto-trim is on, unchanged otherwise. */
    function EncodedFields(row: seq<Value>): (fields: seq<Value>)
      ensures |fields| == |row|
      ensures forall i :: 0 <= i < |row| ==> fields[i] == (if autoTrim then TrimField(row[i]) else row[i])
    {
      if autoTrim then TrimFields(row) else row
    }

    /**
     * asMapper(appendRecordSeparator) applied to one row: the engine's
     * formatting of the encoded fields under the export configuration,
     * followed by the separator's toString() when it is appended.
     */
    function AsMapper(format: Formatter, appendRecordSeparator: bool, row: seq<Value>): (line: string)
      ensures !appendRecordSeparator ==> line == format(exportConfig, EncodedFields(row))
      ensures appendRecordSeparator ==> line == format(exportConfig, EncodedFields(row)) + recordSeparator.text
    {
      var line := format(exportConfig, EncodedFields(row));
      if appendRecordSeparator then line + recordSeparator.text else line
    }

    /** asMapper(): the mapper without a record separator. */
    function AsMapperWithoutSeparator(format: Formatter, row: seq<Value>): (line: string)
      ensures line == AsMapper(format, false, row)
    {
      AsMapper(format, false, row)
    }

    /** Every row mapped by asMapper(appendRecordSeparator), in row order. */
    function EncodeRows(format: Formatter, appendRecordSeparator: bool, rows: seq<seq<Value>>): (lines: seq<string>)
      ensures |lines| == |rows|
      ensures forall i :: 0 <= i < |rows| ==> lines[i] == AsMapper(format, appendRecordSeparator, rows[i])
    {
      if rows == [] then []
      else [AsMapper(format, appendRecordSeparator, rows[0])] + EncodeRows(format, appendRecordSeparator, rows[1..])
    }

    /** The number of header lines map prepends: one iff columns are declared now. */
    function HeaderCount(): (n: nat)
      reads columns
      ensures n == 1 <==> |columns.items| > 0
      ensures n <= 1
    {
      if |columns.items| == 0 then 0 else 1
    }

    /**
     * The header line: the current column names encoded as a row by the
     * mapper, then the separator once more, so the separator ends it twice
     * when the mapper appends one too.
     */
    function Header(format: Formatter, appendRecordSeparator: bool): (line: string)
      reads columns
      ensures var names := format(exportConfig, EncodedFields(NameRow(columns.items)));
              line == names + (if appendRecordSeparator then recordSeparator.text + recordSeparator.text
                               else recordSeparator.text)
    {
      AsMapper(format, appendRecordSeparator, NameRow(columns.items)) + recordSeparator.text
    }

    /**
     * map(rows, appendRecordSeparator): one line per row in row order, after
     * exactly one header line when columns are declared.
     */
    function Map(format: Formatter, rows: seq<seq<Value>>, appendRecordSeparator: bool): (lines: seq<string>)
      reads columns
      ensures |lines| == |rows| + HeaderCount()
      ensures forall i :: 0 <= i < |rows| ==>
                lines[HeaderCount() + i] == AsMapper(format, appendRecordSeparator, rows[i])
      ensures |columns.items| > 0 ==> lines[0] == Header(format, appendRecordSeparator)
    {
      var body := EncodeRows(format, appendRecordSeparator, rows);
      if |columns.items| == 0 then body else [Header(format, appendRecordSeparator)] + body
    }

    /** map(rows): map without record separators. */
    function MapWithoutSeparator(format: Formatter, rows: seq<seq<Value>>): (lines: seq<string>)
      reads columns
      ensures lines == Map(format, rows, false)
    {
      Map(format, rows, false)
    }
  }

  /** Appending the record separator only appends toString() of the separator. */
  lemma AsMapperAppendsSeparator(fmt: CsvFormat, format: Formatter, row: seq<Value>)
    ensures fmt.AsMapper(format, true, row) == fmt.AsMapper(format, false, row) + fmt.recordSeparator.text
  {
  }

  /** Without auto-trim the engine sees the row exactly as given. */
  lemma AsMapperPassesFieldsThrough(fmt: CsvFormat, format: Formatter, row: seq<Value>)
    requires !fmt.autoTrim
    ensures fmt.AsMapper(format, false, row) == format(fmt.exportConfig, row)
  {
  }

  /**
   * With auto-trim, the engine sees for each field null or its trimmed
   * string form, so a row that is already trimmed encodes to the same line.
   */
  lemma AsMapperTrimmedRow(fmt: CsvFormat, format: Formatter, b: bool, row: seq<Value>)
    requires fmt.autoTrim
    ensures fmt.AsMapper(format, b, TrimFields(row)) == fmt.AsMapper(format, b, row)
  {
    TrimFieldsIdempotent(row);
  }

  /**
   * With auto-trim, rows whose fields agree up to surrounding whitespace
   * (and nullness) encode to the same line.
   */
  lemma AsMapperIgnoresSurroundingSpace(fmt: CsvFormat, format: Formatter, b: bool,
                                        row1: seq<Value>, row2: seq<Value>)
    requires fmt.autoTrim
    requires |row1| == |row2|
    requires forall i :: 0 <= i < |row1| ==> TrimField(row1[i]) == TrimField(row2[i])
    ensures fmt.AsMapper(format, b, row1) == fmt.AsMapper(format, b, row2)
  {
    assert TrimFields(row1) == TrimFields(row2);
  }

  /**
   * When separators are appended, the header line ends with the separator
   * twice: once from the mapper and once from map itself.
   */
  lemma HeaderEndsWithSeparatorTwice(fmt: CsvFormat, format: Formatter, rows: seq<seq<Value>>)
    requires |fmt.columns.items| > 0
    ensures fmt.Map(format, rows, true)[0]
         == format(fmt.exportConfig, fmt.EncodedFields(NameRow(fmt.columns.items)))
            + fmt.recordSeparator.text + fmt.recordSeparator.text
  {
  }

  /** Without columns, map is exactly the rows mapped one by one. */
  lemma MapWithoutColumns(fmt: CsvFormat, format: Formatter, rows: seq<seq<Value>>, b: bool)
    requires |fmt.columns.items| == 0
    ensures fmt.Map(format, rows, b) == fmt.EncodeRows(format, b, rows)
  {
  }

  /** Mapping concatenated row sequences concatenates their lines. */
  lemma EncodeRowsAppend(fmt: CsvFormat, format: Formatter, b: bool,
                          rows1: seq<seq<Value>>, rows2: seq<seq<Value>>)
    ensures fmt.EncodeRows(format, b, rows1 + rows2)
         == fmt.EncodeRows(format, b, rows1) + fmt.EncodeRows(format, b, rows2)
  {
  }

  class Builder {
    /** A reference to a list, shared with the prototype when built from one; null after a null prototype. */
    var columns: ColumnList?
    var delimiter: char
    var recordSeparator: Option<LineSeparator>
    var autoTrim: bool
    var escapeCharacter: Option<char>
    var quoteCharacter: Option<char>
    var quoteMode: Option<CsvQuoteMode>

    /** CsvFormat.builder(): the defaults. */
    constructor ()
      ensures fresh(columns) && columns.items == []
      ensures delimiter == ',' && recordSeparator == Some(LineSeparators.Lf)
      ensures !autoTrim && escapeCharacter == None && quoteCharacter == Some('"')
      ensures quoteMode == Some(MINIMAL)
    {
      columns := new ColumnList.Empty();
      delimiter := ',';
      recordSeparator := Some(LineSeparators.Lf);
      autoTrim := false;
      escapeCharacter := None;
      quoteCharacter := Some('"');
      quoteMode := Some(MINIMAL);
    }

    /**
     * CsvFormat.builder(prototype): every setting of the prototype, and the
     * prototype's own column list object, not a copy of it. A null prototype
     * leaves every field at Java's default value.
     */
    constructor FromPrototype(prototype: CsvFormat?)
      ensures prototype != null ==>
                && columns == prototype.columns
                && delimiter == prototype.delimiter
                && recordSeparator == Some(prototype.recordSeparator)
                && autoTrim == prototype.autoTrim
                && escapeCharacter == prototype.escapeCharacter
                && quoteCharacter == prototype.quoteCharacter
                && quoteMode == Some(prototype.quoteMode)
      ensures prototype == null ==>
                && columns == null && delimiter == '\0' && recordSeparator == None
                && !autoTrim && escapeCharacter == None && quoteCharacter == None
                && quoteMode == None
    {
      if prototype != null {
        columns := prototype.columns;
        delimiter := prototype.delimiter;
        recordSeparator := Some(prototype.recordSeparator);
        autoTrim := prototype.autoTrim;
        escapeCharacter := prototype.escapeCharacter;
        quoteCharacter := prototype.quoteCharacter;
        quoteMode := Some(prototype.quoteMode);
      } else {
        columns := null;
        delimiter := '\0';
        recordSeparator := None;
        autoTrim := false;
        escapeCharacter := None;
        quoteCharacter := None;
        quoteMode := None;
      }
    }

    method SetDelimiter(d: char)
      modifies this`delimiter
      ensures delimiter == d
    {
      delimiter := d;
    }

    method SetRecordSeparator(separator: Option<LineSeparator>)
      modifies this`recordSeparator
      ensures recordSeparator == separator
    {
      recordSeparator := separator;
    }

    method SetEscape(escape: Option<char>)
      modifies this`escapeCharacter
      ensures escapeCharacter == escape
    {
      escapeCharacter := escape;
    }

    method SetQuote(quote: Option<char>)
      modifies this`quoteCharacter
      ensures quoteCharacter == quote
    {
      quoteCharacter := quote;
    }

    /** quoteMode(mode) rejects null before it changes anything. */
    method SetQuoteMode(mode: Option<CsvQuoteMode>) returns (r: Outcome)
      modifies this`quoteMode
      ensures mode.None? ==> r == Fail(NullPointer) && quoteMode == old(quoteMode)
      ensures mode.Some? ==> r == Pass && quoteMode == mode
    {
      if mode.None? {
        return Fail(NullPointer);
      }
      quoteMode := mode;
      r := Pass;
    }

    method SetAutoTrim(trim: bool)
      modifies this`autoTrim
      ensures autoTrim == trim
    {
      autoTrim := trim;
    }

    /**
     * columns(String...): clears the list object and adds one column per
     * name, in order; a null array leaves it empty. The list may be the
     * prototype's, which then changes too.
     */
    method ColumnsByName(names: Option<seq<string>>) returns (r: Outcome)
      modifies columns
      ensures old(columns) == null ==> r == Fail(NullPointer)
      ensures columns != null ==> r == Pass && columns.items == NamedColumns(names.GetOr([]))
    {
      if columns == null {
        return Fail(NullPointer);
      }
      columns.Clear();
      if names.Some? {
        var ns := names.value;
        var i := 0;
        while i < |ns|
          invariant 0 <= i <= |ns|
          invariant columns.items == NamedColumns(ns[..i])
        {
          columns.Add(CsvColumn(ns[i]));
          i := i + 1;
        }
        assert ns[..i] == ns;
      }
      r := Pass;
    }

    /**
     * columns(List): clears the list object and adds the non-null given
     * columns in their order; a null list leaves it empty.
     */
    method ColumnsByList(given: Option<seq<Option<CsvColumn>>>) returns (r: Outcome)
      modifies columns
      ensures old(columns) == null ==> r == Fail(NullPointer)
      ensures columns != null ==> r == Pass && columns.items == NonNull(given.GetOr([]))
    {
      if columns == null {
        return Fail(NullPointer);
      }
      columns.Clear();
      if given.Some? {
        var cs := given.value;
        var i := 0;
        while i < |cs|
          invariant 0 <= i <= |cs|
          invariant columns.items == NonNull(cs[..i])
        {
          assert cs[..i + 1] == cs[..i] + [cs[i]];
          NonNullAppend(cs[..i], [cs[i]]);
          if cs[i].Some? {
            columns.Add(cs[i].value);
          }
          i := i + 1;
        }
        assert cs[..i] == cs;
      }
      r := Pass;
    }

    /**
     * columns(CsvColumn...): the array is wrapped as a list, which throws
     * on a null array before the list object is touched.
     */
    method ColumnsByArray(given: Option<seq<Option<CsvColumn>>>) returns (r: Outcome)
      modifies columns
      ensures given.None? ==> r == Fail(NullPointer) && (columns != null ==> columns.items == old(columns.items))
      ensures given.Some? && old(columns) == null ==> r == Fail(NullPointer)
      ensures given.Some? && columns != null ==> r == Pass && columns.items == NonNull(given.value)
    {
      if given.None? {
        return Fail(NullPointer);
      }
      r := ColumnsByList(given);
    }

    /**
     * build(): a new format from the current settings. Copying a null column
     * list, switching on a null quote mode or asking a null record separator
     * for its value throws.
     */
    method Build() returns (r: Result<CsvFormat>)
      ensures r.Err? <==> columns == null || recordSeparator.None? || quoteMode.None?
      ensures r.Err? ==> r.failure == NullPointer
      ensures r.Ok? ==>
                && fresh(r.value) && fresh(r.value.columns)
                && r.value.columns.items == columns.items
                && r.value.delimiter == delimiter
                && r.value.recordSeparator == recordSeparator.value
                && r.value.autoTrim == autoTrim
                && r.value.escapeCharacter == escapeCharacter
                && r.value.quoteCharacter == quoteCharacter
                && r.value.quoteMode == quoteMode.value
                && r.value.exportConfig == ExportConfig(delimiter, recordSeparator.value, autoTrim,
                                                        escapeCharacter, quoteCharacter, quoteMode.value)
                && r.value.importConfig == ImportConfig(r.value.exportConfig, Names(columns.items))
    {
      if columns == null || recordSeparator.None? || quoteMode.None? {
        return Err(NullPointer);
      }
      var fmt := new CsvFormat(this);
      r := Ok(fmt);
    }
  }

  /**
   * A format built from a fresh builder: comma, the LF separator, no
   * auto-trim, no escape, double quote, minimal quoting, no columns, and
   * therefore one engine configuration for both directions.
   */
  method BuildDefaults() returns (fmt: CsvFormat)
    ensures fmt.delimiter == ',' && fmt.recordSeparator == LineSeparators.Lf
    ensures !fmt.autoTrim && fmt.escapeCharacter == None && fmt.quoteCharacter == Some('"')
    ensures fmt.quoteMode == MINIMAL && fmt.columns.items == []
    ensures fmt.exportConfig.quoteMode == QuoteMinimal && fmt.exportConfig.header == None
    ensures fmt.importConfig == fmt.exportConfig
  {
    var b := new Builder();
    var r := b.Build();
    fmt := r.value;
  }

  /**
   * A builder made from a prototype shares the prototype's column list, so
   * replacing its columns replaces the prototype's too: the prototype's
   * header line changes while its import configuration, derived when it was
   * built, keeps the old names.
   */
  method ReplaceColumnsOfPrototype(prototype: CsvFormat, names: seq<string>) returns (derived: Result<CsvFormat>)
    modifies prototype.columns
    ensures prototype.columns.items == NamedColumns(names)
    ensures prototype.HeaderCount() == (if |names| == 0 then 0 else 1)
    ensures derived.Ok? && derived.value.columns.items == NamedColumns(names)
    ensures derived.value.exportConfig == prototype.exportConfig
    ensures derived.value.importConfig == ImportConfig(prototype.exportConfig, names)
  {
    var b := new Builder.FromPrototype(prototype);
    var _ := b.ColumnsByName(Some(names));
    derived := b.Build();
  }
}
