/**
 * The few pieces of the Java runtime that the CSV format and the text writer
 * rely on: nullable references, the exceptions they raise, object values with
 * their string form, String.trim and "drop the nulls" filtering.
 */
module JavaLang {

  /** A nullable reference: None stands for Java's null. */
  datatype Option<+T> = None | Some(value: T) {
    function GetOr(default: T): T {
      match this
      case Some(v) => v
      case None => default
    }
  }

  /** The exceptions the modelled code raises. */
  datatype Failure =
    | NullPointer                      // Objects.requireNonNull or a dereference of null
    | UncheckedIO(message: string)     // UncheckedIOException wrapping an IOException

  /** The outcome of a call that returns a value or throws. */
  datatype Result<+T> = Ok(value: T) | Err(failure: Failure)

  /** The outcome of a void call that may throw. */
  datatype Outcome = Pass | Fail(failure: Failure)

  /**
   * A java.lang.Object as a row field or a line: null, a String, or any other
   * object, of which only its toString() text matters here.
   */
  datatype Value = Null | Str(s: string) | Obj(text: string)

  /** Objects.toString(o, nullDefault): the default for null, the object's own text otherwise. */
  function ToStringOr(v: Value, nullDefault: string): (s: string)
    ensures v.Null? ==> s == nullDefault
    ensures v.Str? ==> s == v.s
    ensures v.Obj? ==> s == v.text
  {
    match v
    case Null => nullDefault
    case Str(s) => s
    case Obj(t) => t
  }

  // ---------------------------------------------------------------------
  // String.trim: removes every leading and trailing character <= U+0020.
  // ---------------------------------------------------------------------

  predicate IsTrimmable(c: char) {
    c <= ' '
  }

  ghost predicate AllTrimmable(s: string) {
    forall k :: 0 <= k < |s| ==> IsTrimmable(s[k])
  }

  function TrimStart(s: string): (r: string)
    ensures |r| <= |s|
  {
    if |s| > 0 && IsTrimmable(s[0]) then TrimStart(s[1..]) else s
  }

  function TrimEnd(s: string): (r: string)
    ensures |r| <= |s|
  {
    if |s| > 0 && IsTrimmable(s[|s| - 1]) then TrimEnd(s[..|s| - 1]) else s
  }

  /** String.trim: never longer than its input, and neither starts nor ends with a trimmable character. */
  function Trim(s: string): (r: string)
    ensures |r| <= |s|
    ensures r == [] || (!IsTrimmable(r[0]) && !IsTrimmable(r[|r| - 1]))
  {
    TrimStartIsSuffix(s);
    TrimEndIsPrefix(TrimStart(s));
    TrimEnd(TrimStart(s))
  }

  /** The number of characters String.trim drops at the front. */
  function TrimOffset(s: string): nat {
    |s| - |TrimStart(s)|
  }

  lemma {:induction false} TrimStartIsSuffix(s: string)
    ensures TrimStart(s) == s[|s| - |TrimStart(s)|..]
    ensures AllTrimmable(s[..|s| - |TrimStart(s)|])
    ensures TrimStart(s) == [] || !IsTrimmable(TrimStart(s)[0])
  {
    if |s| > 0 && IsTrimmable(s[0]) {
      TrimStartIsSuffix(s[1..]);
      var n := |s| - |TrimStart(s)|;
      assert s[1..][|s| - 1 - |TrimStart(s)|..] == s[n..];
      forall k | 0 <= k < n ensures IsTrimmable(s[..n][k]) {
        if k > 0 {
          assert s[..n][k] == s[1..][..n - 1][k - 1];
        }
      }
    }
  }

  lemma {:induction false} TrimEndIsPrefix(s: string)
    ensures TrimEnd(s) == s[..|TrimEnd(s)|]
    ensures AllTrimmable(s[|TrimEnd(s)|..])
    ensures TrimEnd(s) == [] || !IsTrimmable(TrimEnd(s)[|TrimEnd(s)| - 1])
  {
    if |s| > 0 && IsTrimmable(s[|s| - 1]) {
      var p := s[..|s| - 1];
      TrimEndIsPrefix(p);
      var n := |TrimEnd(s)|;
      assert p[..n] == s[..n];
      forall k | n <= k < |s| ensures IsTrimmable(s[k]) {
        if k < |s| - 1 {
          assert s[k] == p[n..][k - n];
        }
      }
    }
  }

  /**
   * What String.trim promises: the result is the contiguous middle of the
   * input, everything cut off at either end is trimmable, and the result
   * neither starts nor ends with a trimmable character.
   */
  lemma TrimIsTrimmedMiddle(s: string)
    ensures TrimOffset(s) + |Trim(s)| <= |s|
    ensures Trim(s) == s[TrimOffset(s)..TrimOffset(s) + |Trim(s)|]
    ensures AllTrimmable(s[..TrimOffset(s)])
    ensures AllTrimmable(s[TrimOffset(s) + |Trim(s)|..])
    ensures Trim(s) == [] || (!IsTrimmable(Trim(s)[0]) && !IsTrimmable(Trim(s)[|Trim(s)| - 1]))
  {
    var u := TrimStart(s);
    var i := TrimOffset(s);
    var t := TrimEnd(u);
    assert t == Trim(s);
    TrimStartIsSuffix(s);
    assert u == s[i..];
    TrimEndIsPrefix(u);
    assert t == u[..|t|];
    assert t == s[i..i + |t|];
    assert u[|t|..] == s[i + |t|..];
  }

  /** Trimming twice is trimming once. */
  lemma TrimIdempotent(s: string)
    ensures Trim(Trim(s)) == Trim(s)
  {
  }

  // ---------------------------------------------------------------------
  // Dropping the nulls of a list while keeping the order of the rest.
  // ---------------------------------------------------------------------

  /** The present elements of xs, in their order. */
  function NonNull<T>(xs: seq<Option<T>>): (r: seq<T>)
    ensures |r| <= |xs|
  {
    if xs == [] then []
    else (if xs[0].Some? then [xs[0].value] else []) + NonNull(xs[1..])
  }

  /** Filtering distributes over concatenation, so relative order is kept. */
  lemma {:induction false} NonNullAppend<T>(a: seq<Option<T>>, b: seq<Option<T>>)
    ensures NonNull(a + b) == NonNull(a) + NonNull(b)
  {
    if a != [] {
      assert (a + b)[1..] == a[1..] + b;
      NonNullAppend(a[1..], b);
    } else {
      assert a + b == b;
    }
  }

  /** Exactly the present elements survive. */
  lemma {:induction false} NonNullMembership<T>(xs: seq<Option<T>>, x: T)
    ensures x in NonNull(xs) <==> Some(x) in xs
  {
    if xs != [] {
      NonNullMembership(xs[1..], x);
      assert xs == [xs[0]] + xs[1..];
    }
  }

  /** A list without nulls passes through unchanged. */
  lemma {:induction false} NonNullOfPresent<T>(xs: seq<T>)
    ensures NonNull(seq(|xs|, i requires 0 <= i < |xs| => Some(xs[i]))) == xs
  {
    var wrapped := seq(|xs|, i requires 0 <= i < |xs| => Some(xs[i]));
    if xs != [] {
      assert wrapped[1..] == seq(|xs| - 1, i requires 0 <= i < |xs| - 1 => Some(xs[1..][i]));
      NonNullOfPresent(xs[1..]);
    }
  }

  /** The filtered list is never longer, and shorter iff some element was null. */
  lemma {:induction false} NonNullLength<T>(xs: seq<Option<T>>)
    ensures |NonNull(xs)| <= |xs|
    ensures |NonNull(xs)| == |xs| <==> None !in xs
  {
    if xs != [] {
      NonNullLength(xs[1..]);
      assert xs == [xs[0]] + xs[1..];
    }
  }
}
