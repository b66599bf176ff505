/**
 * Reading the text of a classified error back: given the category, the
 * status it reports (for the two range categories) and the message the
 * error body carried can be recovered, so the text an operator sees loses
 * neither.
 */
module ErrorText {
  import opened Wrappers
  import opened Decimal
  import opened DeepL

  /** What an error text tells its reader: the status, when it reports one, and the returned message. */
  datatype Report = Report(status: Option<int>, returned: string)

  /** The report an error text of category `c` carries, or None when the text is not of that shape. */
  function ReadStatusText(c: Category, text: string): Option<Report> {
    ReadAfterTemplate(Template(c), ReportsStatus(c), text)
  }

  /** Reads a text that opens with the template `t`; `withStatus` says whether a status follows the template. */
  function ReadAfterTemplate(t: string, withStatus: bool, text: string): Option<Report> {
    if !IsPrefix(t, text) then None
    else if withStatus then ReadStatusAndMessage(text[|t|..])
    else Some(Report(None, text[|t|..]))
  }

  /** Reads "<status>, Returned message: <message>", the part after the template of a category that reports the status. */
  function ReadStatusAndMessage(rest: string): Option<Report> {
    var k := NumericPrefixLength(rest);
    var tail := rest[k..];
    match ParseInt(rest[..k])
    case None => None
    case Some(s) =>
      if IsPrefix(StatusCodeTail, tail) then Some(Report(Some(s), tail[|StatusCodeTail|..])) else None
  }

  /** What StatusText writes after the template of a status-reporting category reads back as the status and the message. */
  lemma {:induction false} ReadsStatusAndMessage(status: int, m: string)
    ensures ReadStatusAndMessage(IntToDecimal(status) + StatusCodeTail + m) == Some(Report(Some(status), m))
  {
    var d := IntToDecimal(status);
    var rest := d + StatusCodeTail + m;
    assert rest == d + (StatusCodeTail + m);
    assert (StatusCodeTail + m)[0] == ',';
    NumericPrefixOf(d, StatusCodeTail + m);
    assert rest[..|d|] == d;
    ParseIntToDecimal(status);
    assert rest[|d|..] == StatusCodeTail + m;
  }

  /** A template followed by a status and a message reads back as both, whatever the template. */
  lemma ReportedTextReadsBack(t: string, status: int, m: string)
    ensures ReadAfterTemplate(t, true, t + IntToDecimal(status) + StatusCodeTail + m) == Some(Report(Some(status), m))
  {
    var after := IntToDecimal(status) + StatusCodeTail + m;
    assert t + IntToDecimal(status) + StatusCodeTail + m == t + after;
    assert (t + after)[|t|..] == after;
    ReadsStatusAndMessage(status, m);
  }

  /** A template followed by a message reads back as the message, whatever the template. */
  lemma PlainTextReadsBack(t: string, m: string)
    ensures ReadAfterTemplate(t, false, t + m) == Some(Report(None, m))
  {
    assert (t + m)[|t|..] == m;
  }

  /** Reading back the text StatusText produces gives the status (where reported) and the message it was given. */
  lemma StatusTextReadsBack(status: int, m: string)
    requires status != StatusOK
    ensures ReadStatusText(CategoryOf(status), StatusText(status, m))
         == Some(Report(if ReportsStatus(CategoryOf(status)) then Some(status) else None, m))
  {
    var c := CategoryOf(status);
    if ReportsStatus(c) {
      ReportedTextReadsBack(Template(c), status, m);
    } else {
      PlainTextReadsBack(Template(c), m);
    }
  }
}
