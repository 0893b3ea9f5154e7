/**
 * The line-separator enumeration that both the CSV format and the text
 * writer use. Its source is not part of this model, so a separator carries
 * the two strings the modelled code asks of it: value(), which the text
 * writer and the CSV engine configuration use, and toString(), which string
 * concatenation uses. Every property in this project holds whatever these
 * strings are; only the defaults name one of the three constants below.
 */
module LineSeparators {

  datatype SeparatorKind = LF | CRLF | NONE

  datatype LineSeparator = LineSeparator(kind: SeparatorKind, value: string, text: string)

  /** LineSeparator.LF; its strings are assumed to be a line feed. */
  const Lf := LineSeparator(LF, "\n", "\n")

  /** LineSeparator.CRLF; its strings are assumed to be carriage return, line feed. */
  const CrLf := LineSeparator(CRLF, "\r\n", "\r\n")

  /** LineSeparator.NONE; its strings are assumed to be empty. */
  const NoSeparator := LineSeparator(NONE, "", "")
}
