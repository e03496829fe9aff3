/** The order-history message for a payment: the status's message text followed by the
    payment id, status and status detail. */
module Message {
  import opened PhpValues

  const IdLabel: string := "<br/> Payment id: "
  const StatusLabel: string := "<br/> Status: "
  const StatusDetailLabel: string := "<br/> Status Detail: "

  /** The three line formats, each a caption followed by one `%s`. */
  const IdFormat: string := IdLabel + "%s"
  const StatusFormat: string := StatusLabel + "%s"
  const StatusDetailFormat: string := StatusDetailLabel + "%s"

  /** The format has no `%s` conversion. */
  predicate NoConversion(format: string)
  {
    forall i :: 0 <= i < |format| - 1 ==> !(format[i] == '%' && format[i + 1] == 's')
  }

  /** `sprintf(format, arg)` for a format with one `%s` conversion: the first `%s` is
      replaced by the argument. */
  function Sprintf(format: string, arg: string): string
  {
    if |format| < 2 then format
    else if format[0] == '%' && format[1] == 's' then arg + format[2..]
    else [format[0]] + Sprintf(format[1..], arg)
  }

  /** A format without a `%s` conversion is printed as it is. */
  lemma {:induction false} SprintfWithoutConversion(format: string, arg: string)
    requires NoConversion(format)
    ensures Sprintf(format, arg) == format
  {
    if |format| >= 2 {
      assert !(format[0] == '%' && format[1] == 's');
      forall i | 0 <= i < |format[1..]| - 1
        ensures !(format[1..][i] == '%' && format[1..][i + 1] == 's')
      {
        assert format[1..][i] == format[i + 1] && format[1..][i + 1] == format[i + 2];
      }
      SprintfWithoutConversion(format[1..], arg);
      assert [format[0]] + format[1..] == format;
    }
  }

  /** Formatting text that has no `%` before its `%s` puts the argument in place of the `%s`. */
  lemma {:induction false} SprintfAfterLiteral(prefix: string, arg: string, suffix: string)
    requires '%' !in prefix
    ensures Sprintf(prefix + "%s" + suffix, arg) == prefix + arg + suffix
  {
    var f := prefix + "%s" + suffix;
    assert |f| >= 2;
    if prefix == [] {
      assert f[0] == '%' && f[1] == 's' && f[2..] == suffix;
      assert Sprintf(f, arg) == arg + suffix;
    } else {
      assert f[0] == prefix[0] && f[0] != '%';
      assert f[1..] == prefix[1..] + "%s" + suffix;
      assert Sprintf(f, arg) == [prefix[0]] + Sprintf(prefix[1..] + "%s" + suffix, arg);
      SprintfAfterLiteral(prefix[1..], arg, suffix);
      assert prefix == [prefix[0]] + prefix[1..];
    }
  }

  /** Formatting one line: the caption followed by the argument. */
  lemma FormatLine(caption: string, arg: string)
    requires '%' !in caption
    ensures Sprintf(caption + "%s", arg) == caption + arg
  {
    SprintfAfterLiteral(caption, arg, []);
    assert caption + "%s" + [] == caption + "%s";
    assert caption + arg + [] == caption + arg;
  }

  /** Three formatted lines after a head: each caption followed by its argument. */
  lemma ThreeLines(head: string, c1: string, a1: string, c2: string, a2: string, c3: string, a3: string)
    requires '%' !in c1 && '%' !in c2 && '%' !in c3
    ensures head + Sprintf(c1 + "%s", a1) + Sprintf(c2 + "%s", a2) + Sprintf(c3 + "%s", a3)
      == head + c1 + a1 + c2 + a2 + c3 + a3
  {
    FormatLine(c1, a1);
    FormatLine(c2, a2);
    FormatLine(c3, a3);
  }

  /** `getMessage`: the message text for `status` (looked up by `messages`), then one line
      each for the payment id, status and status detail, in that order, each caption
      followed by the payment's value as a string. */
  function GetMessage(messages: string -> string, status: string, payment: map<string, PhpValue>): (r: string)
    ensures r == messages(status)
      + IdLabel + ToPhpString(At(payment, "id"))
      + StatusLabel + ToPhpString(At(payment, "status"))
      + StatusDetailLabel + ToPhpString(At(payment, "status_detail"))
  {
    var id := ToPhpString(At(payment, "id"));
    var paymentStatus := ToPhpString(At(payment, "status"));
    var detail := ToPhpString(At(payment, "status_detail"));
    ThreeLines(messages(status), IdLabel, id, StatusLabel, paymentStatus, StatusDetailLabel, detail);
    messages(status) + Sprintf(IdFormat, id) + Sprintf(StatusFormat, paymentStatus) + Sprintf(StatusDetailFormat, detail)
  }

  /** Magento's phrase rendering with one argument: every `%1` placeholder is replaced by
      the argument, and any other `%` sequence is kept as it is. */
  function RenderPhrase(text: string, arg: string): string
  {
    if |text| < 2 then text
    else if text[0] == '%' && text[1] == '1' then arg + RenderPhrase(text[2..], arg)
    else [text[0]] + RenderPhrase(text[1..], arg)
  }

  /** Text without a `1` has no placeholder, so rendering leaves it unchanged. */
  lemma {:induction false} RenderWithoutPlaceholder(text: string, arg: string)
    requires '1' !in text
    ensures RenderPhrase(text, arg) == text
  {
    if |text| >= 2 {
      assert '1' !in text[1..];
      RenderWithoutPlaceholder(text[1..], arg);
      assert [text[0]] + text[1..] == text;
    }
  }

  /** `getMessage` as its phrases render in Magento: each line's `%s` is not a placeholder
      there, so the argument is dropped. */
  function GetMessageAsWritten(messages: string -> string, status: string, payment: map<string, PhpValue>): string
  {
    messages(status)
      + RenderPhrase(IdFormat, ToPhpString(At(payment, "id")))
      + RenderPhrase(StatusFormat, ToPhpString(At(payment, "status")))
      + RenderPhrase(StatusDetailFormat, ToPhpString(At(payment, "status_detail")))
  }

  /** As rendered by Magento, the message carries the literal `%s` markers and none of the
      payment's id, status or status detail: it is the same for every payment. */
  lemma AsWrittenOmitsPaymentValues(messages: string -> string, status: string, payment: map<string, PhpValue>)
    ensures GetMessageAsWritten(messages, status, payment) ==
      messages(status) + IdFormat + StatusFormat + StatusDetailFormat
  {
    RenderWithoutPlaceholder(IdFormat, ToPhpString(At(payment, "id")));
    RenderWithoutPlaceholder(StatusFormat, ToPhpString(At(payment, "status")));
    RenderWithoutPlaceholder(StatusDetailFormat, ToPhpString(At(payment, "status_detail")));
  }
}
