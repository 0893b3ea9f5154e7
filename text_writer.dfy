/**
 * TextWriter: writing lines of text through a PrintStream that it opens on a
 * stream supplier, and the close-guarded stream wrapper of forOutputStream.
 *
 * Two levels are kept apart. At the character level a PrintStream records
 * the text printed to it; at the byte level an OutputSink records the bytes
 * the guarded wrapper forwards to it. The charset encoding between the two
 * is not modelled.
 */
module TextWriters {
  import opened JavaLang
  import LineSeparators

  type LineSeparator = LineSeparators.LineSeparator

  datatype Charset = UTF_8 | NamedCharset(name: string)

  /** java.nio.file.StandardOpenOption and LinkOption. */
  datatype OpenOption =
    | READ | WRITE | APPEND | TRUNCATE_EXISTING | CREATE | CREATE_NEW
    | DELETE_ON_CLOSE | SPARSE | SYNC | DSYNC | NOFOLLOW_LINKS

  /** A URI; only one built from a file path is modelled. */
  datatype Uri = PathUri(path: string)

  /** What newOutputStream() opens: the closure create() was given. */
  datatype StreamSupplier =
    | OpenFile(path: string, options: seq<OpenOption>)   // Files.newOutputStream(path, options)
    | Guard(stream: OutputSink)                          // a new close-guarded wrapper of stream
    | Custom                                             // any caller-supplied supplier

  /** A null charset means UTF-8. */
  function EffectiveCharset(charset: Option<Charset>): (r: Charset)
    ensures charset.Some? ==> r == charset.value
    ensures charset.None? ==> r == UTF_8
  {
    charset.GetOr(UTF_8)
  }

  /** Defaulting is idempotent: a defaulted charset is never defaulted again. */
  lemma EffectiveCharsetIdempotent(charset: Option<Charset>)
    ensures EffectiveCharset(Some(EffectiveCharset(charset))) == EffectiveCharset(charset)
  {
  }

  /** The string printed after each line: nothing for null or NONE, value() otherwise. */
  function SeparatorValue(separator: Option<LineSeparator>): (r: string)
    ensures separator.None? || separator.value.kind == LineSeparators.NONE ==> r == ""
    ensures separator.Some? && separator.value.kind != LineSeparators.NONE ==> r == separator.value.value
  {
    if separator.None? || separator.value.kind == LineSeparators.NONE then ""
    else separator.value.value
  }

  /**
   * The text the loop of writeLines prints for the given lines: each line's
   * string form, null as "", then the separator, in order, so the text is
   * at least as long as the last line and a separator.
   */
  function Rendered(lines: seq<Value>, separator: string): (text: string)
    ensures lines == [] ==> text == ""
    ensures lines != [] ==> |text| >= |separator| + |ToStringOr(lines[|lines| - 1], "")|
  {
    if lines == [] then ""
    else Rendered(lines[..|lines| - 1], separator) + ToStringOr(lines[|lines| - 1], "") + separator
  }

  /** Printing two runs of lines one after the other prints their concatenation. */
  lemma {:induction false} RenderedAppend(a: seq<Value>, b: seq<Value>, separator: string)
    ensures Rendered(a + b, separator) == Rendered(a, separator) + Rendered(b, separator)
  {
    if b == [] {
      assert a + b == a;
    } else {
      var init := b[..|b| - 1];
      assert (a + b)[..|a + b| - 1] == a + init;
      assert (a + b)[|a + b| - 1] == b[|b| - 1];
      RenderedAppend(a, init, separator);
    }
  }

  /** A single line is printed as its string form, null as "", then the separator. */
  lemma RenderedSingle(line: Value, separator: string)
    ensures Rendered([line], separator) == ToStringOr(line, "") + separator
  {
  }

  /**
   * Each line's string form is immediately followed by the separator and
   * nothing else is printed: the text splits at every line boundary.
   */
  lemma RenderedAt(lines: seq<Value>, separator: string, i: nat)
    requires i < |lines|
    ensures Rendered(lines, separator)
         == Rendered(lines[..i], separator) + ToStringOr(lines[i], "") + separator
            + Rendered(lines[i + 1..], separator)
  {
    assert lines == lines[..i] + [lines[i]] + lines[i + 1..];
    RenderedAppend(lines[..i] + [lines[i]], lines[i + 1..], separator);
    RenderedAppend(lines[..i], [lines[i]], separator);
    RenderedSingle(lines[i], separator);
  }

  /** The open options of forFile: WRITE, CREATE, then the non-null given options in order. */
  function FileOpenOptions(options: seq<Option<OpenOption>>): (r: seq<OpenOption>)
    ensures |r| >= 2 && r[0] == WRITE && r[1] == CREATE
    ensures forall o :: o in r[2..] <==> Some(o) in options
    ensures r[2..] == NonNull(options)
  {
    var given := NonNull(options);
    forall o ensures o in given <==> Some(o) in options {
      NonNullMembership(options, o);
    }
    [WRITE, CREATE] + given
  }

  /** The caller's OutputStream: the bytes it received, its flushes and whether it was closed. */
  class OutputSink {
    var written: seq<int>
    var flushes: nat
    var closed: bool

    constructor ()
      ensures written == [] && flushes == 0 && !closed
    {
      written, flushes, closed := [], 0, false;
    }

    method Write(b: int)
      modifies this`written
      ensures written == old(written) + [b]
    {
      written := written + [b];
    }

    method Flush()
      modifies this`flushes
      ensures flushes == old(flushes) + 1
    {
      flushes := flushes + 1;
    }

    method Close()
      modifies this`closed
      ensures closed
    {
      closed := true;
    }
  }

  /**
   * The OutputStream that forOutputStream's supplier returns: it forwards
   * to the wrapped stream until it is closed, and closing it only marks it
   * closed, leaving the wrapped stream open.
   */
  class GuardedOutputStream {
    var isClosed: bool
    const target: OutputSink

    constructor (target: OutputSink)
      ensures this.target == target && !isClosed
    {
      this.target := target;
      isClosed := false;
    }

    /** While open the byte is forwarded; once closed the write throws and nothing is forwarded. */
    method Write(b: int) returns (r: Outcome)
      modifies target`written
      ensures !isClosed ==> r == Pass && target.written == old(target.written) + [b]
      ensures isClosed ==> r == Fail(UncheckedIO("Output stream is already closed"))
                           && target.written == old(target.written)
    {
      if !isClosed {
        target.Write(b);
        r := Pass;
      } else {
        r := Fail(UncheckedIO("Output stream is already closed"));
      }
    }

    /** While open the flush is forwarded; once closed it does nothing. */
    method Flush()
      modifies target`flushes
      ensures !isClosed ==> target.flushes == old(target.flushes) + 1
      ensures isClosed ==> target.flushes == old(target.flushes)
    {
      if !isClosed {
        target.Flush();
      }
    }

    /** Marks the wrapper closed; the wrapped stream is not touched. */
    method Close()
      modifies this`isClosed
      ensures isClosed
    {
      isClosed := true;
    }
  }

  /** The PrintStream that write() opens: the text printed to it, before encoding. */
  class PrintStream {
    const charset: Charset
    var text: string

    constructor (charset: Charset)
      ensures this.charset == charset && text == []
    {
      this.charset := charset;
      text := [];
    }

    method Print(s: string)
      modifies this`text
      ensures text == old(text) + s
    {
      text := text + s;
    }
  }

  class TextWriter {
    /** What getCharset() returns. */
    const charset: Option<Charset>
    /** What getUri() returns. */
    const uri: Option<Uri>
    /** What newOutputStream() opens. */
    const supplier: StreamSupplier

    /** create(supplier, charset, uri): a null charset becomes UTF-8. */
    constructor Create(supplier: StreamSupplier, charset: Option<Charset>, uri: Option<Uri>)
      ensures this.supplier == supplier && this.uri == uri
      ensures this.charset == Some(EffectiveCharset(charset))
    {
      this.supplier := supplier;
      this.uri := uri;
      this.charset := Some(EffectiveCharset(charset));
    }

    /** create(supplier): UTF-8 and no URI. */
    constructor CreateDefault(supplier: StreamSupplier)
      ensures this.supplier == supplier && uri == None && charset == Some(UTF_8)
    {
      this.supplier := supplier;
      this.uri := None;
      this.charset := Some(UTF_8);
    }

    /**
     * forFile(path, charset, options): a writer on the file, opened with
     * WRITE, CREATE and the non-null given options, whose URI is the path's.
     */
    static method ForFile(path: Option<string>, charset: Option<Charset>, options: seq<Option<OpenOption>>)
      returns (r: Result<TextWriter>)
      ensures path.None? ==> r == Err(NullPointer)
      ensures path.Some? ==> r.Ok? && fresh(r.value)
                             && r.value.supplier == OpenFile(path.value, FileOpenOptions(options))
                             && r.value.charset == Some(EffectiveCharset(charset))
                             && r.value.uri == Some(PathUri(path.value))
    {
      if path.None? {
        return Err(NullPointer);
      }
      var fileOptions := FileOpenOptions(options);
      var w := new TextWriter.Create(OpenFile(path.value, fileOptions),
                                     Some(EffectiveCharset(charset)), Some(PathUri(path.value)));
      r := Ok(w);
    }

    /** forFile(path, options): forFile with a null charset. */
    static method ForFileDefault(path: Option<string>, options: seq<Option<OpenOption>>)
      returns (r: Result<TextWriter>)
      ensures path.None? ==> r == Err(NullPointer)
      ensures path.Some? ==> r.Ok? && fresh(r.value)
                             && r.value.supplier == OpenFile(path.value, FileOpenOptions(options))
                             && r.value.charset == Some(UTF_8)
                             && r.value.uri == Some(PathUri(path.value))
    {
      if path.None? {
        return Err(NullPointer);
      }
      r := ForFile(path, None, options);
    }

    /** forOutputStream(stream, charset): every opened stream is a fresh guard around stream. */
    static method ForOutputStream(stream: OutputSink?, charset: Option<Charset>)
      returns (r: Result<TextWriter>)
      ensures stream == null ==> r == Err(NullPointer)
      ensures stream != null ==> r.Ok? && fresh(r.value)
                                 && r.value.supplier == Guard(stream)
                                 && r.value.charset == Some(EffectiveCharset(charset))
                                 && r.value.uri == None
    {
      if stream == null {
        return Err(NullPointer);
      }
      var w := new TextWriter.Create(Guard(stream), charset, None);
      r := Ok(w);
    }

    /** forOutputStream(stream): forOutputStream with a null charset. */
    static method ForOutputStreamDefault(stream: OutputSink?) returns (r: Result<TextWriter>)
      ensures stream == null ==> r == Err(NullPointer)
      ensures stream != null ==> r.Ok? && fresh(r.value)
                                 && r.value.supplier == Guard(stream)
                                 && r.value.charset == Some(UTF_8)
                                 && r.value.uri == None
    {
      if stream == null {
        return Err(NullPointer);
      }
      r := ForOutputStream(stream, None);
    }

    /**
     * newOutputStream() of a forOutputStream writer: a fresh, open guard
     * around the wrapped stream. Other suppliers are not modelled.
     */
    method NewGuardedStream() returns (s: GuardedOutputStream)
      requires supplier.Guard?
      ensures fresh(s) && s.target == supplier.stream && !s.isClosed
    {
      s := new GuardedOutputStream(supplier.stream);
    }

    /** The PrintStream that write() opens, in getCharset() or, when that is null, UTF-8. */
    method OpenPrintStream() returns (out: PrintStream)
      ensures fresh(out) && out.charset == EffectiveCharset(charset) && out.text == []
    {
      out := new PrintStream(EffectiveCharset(charset));
    }

    /**
     * writeLines(lines, separator) printing to the PrintStream `out` that
     * write() hands it, which OpenPrintStream opens for a given writer; the
     * writer's own settings play no part in it: each line's string form, then the separator, and
     * one count per line after it is printed. Null lines are rejected
     * before anything is printed.
     */
    static method WriteLines(out: PrintStream, lines: Option<seq<Value>>, separator: Option<LineSeparator>)
      returns (r: Result<nat>)
      modifies out`text
      ensures lines.None? ==> r == Err(NullPointer) && out.text == old(out.text)
      ensures lines.Some? ==> r == Ok(|lines.value|)
                              && out.text == old(out.text) + Rendered(lines.value, SeparatorValue(separator))
    {
      if lines.None? {
        return Err(NullPointer);
      }
      var ls := lines.value;
      var separatorValue := SeparatorValue(separator);
      var counter := 0;
      while counter < |ls|
        invariant 0 <= counter <= |ls|
        invariant out.text == old(out.text) + Rendered(ls[..counter], separatorValue)
      {
        out.Print(ToStringOr(ls[counter], ""));
        out.Print(separatorValue);
        assert ls[..counter + 1][..counter] == ls[..counter];
        counter := counter + 1;
      }
      assert ls[..counter] == ls;
      r := Ok(counter);
    }

    /** writeLines(lines): writeLines with the LF separator, to the stream OpenPrintStream opens. */
    static method WriteLinesLf(out: PrintStream, lines: Option<seq<Value>>) returns (r: Result<nat>)
      modifies out`text
      ensures lines.None? ==> r == Err(NullPointer) && out.text == old(out.text)
      ensures lines.Some? ==> r == Ok(|lines.value|)
                              && out.text == old(out.text) + Rendered(lines.value, LineSeparators.Lf.value)
    {
      if lines.None? {
        return Err(NullPointer);
      }
      r := WriteLines(out, lines, Some(LineSeparators.Lf));
    }

    /**
     * writeFullText(text): the string form of text, null as "", and no
     * separator, to the stream OpenPrintStream opens.
     */
    static method WriteFullText(out: PrintStream, text: Value)
      modifies out`text
      ensures out.text == old(out.text) + ToStringOr(text, "")
    {
      var _ := WriteLines(out, Some([Str(ToStringOr(text, ""))]), Some(LineSeparators.NoSeparator));
      RenderedSingle(Str(ToStringOr(text, "")), "");
    }
  }

  /**
   * A guard that was closed stays closed: a later write fails and forwards
   * nothing, a later flush does nothing, and the wrapped stream stays open.
   */
  method CloseThenWrite(s: GuardedOutputStream, b: int) returns (r: Outcome)
    modifies s`isClosed, s.target`written, s.target`flushes
    ensures s.isClosed
    ensures r == Fail(UncheckedIO("Output stream is already closed"))
    ensures s.target.written == old(s.target.written) && s.target.flushes == old(s.target.flushes)
    ensures s.target.closed == old(s.target.closed)
  {
    s.Close();
    s.Flush();
    r := s.Write(b);
  }
}
