/** The reply text for a read receipt (`_format_html_receipt_data_for_telegram`). */
module ReceiptFormat {
  import opened Wrappers
  import opened Receipts

  predicate IsUpper(c: char) { 'A' <= c <= 'Z' }
  predicate IsLower(c: char) { 'a' <= c <= 'z' }
  /** Python's "cased" characters, restricted to ASCII letters. */
  predicate IsCased(c: char) { IsUpper(c) || IsLower(c) }

  function ToUpper(c: char): char { if IsLower(c) then (c as int - 32) as char else c }
  function ToLower(c: char): char { if IsUpper(c) then (c as int + 32) as char else c }

  /** `s.replace(from, to)` for single characters. */
  function ReplaceChar(s: string, from: char, to: char): (r: string)
    ensures |r| == |s|
    ensures forall i :: 0 <= i < |s| ==> r[i] == if s[i] == from then to else s[i]
  {
    if s == [] then [] else [if s[0] == from then to else s[0]] + ReplaceChar(s[1..], from, to)
  }

  /** One character of `str.title()`: a cased character is upper-cased after an uncased
      one and lower-cased after a cased one; every other character is kept. */
  function TitleChar(c: char, afterCased: bool): char {
    if !IsCased(c) then c else if afterCased then ToLower(c) else ToUpper(c)
  }

  /** `str.title()` on the rest of a string whose previous character was (not) cased. */
  function TitleFrom(s: string, afterCased: bool): (r: string)
    ensures |r| == |s|
    ensures forall i :: 0 <= i < |s| ==>
              r[i] == TitleChar(s[i], if i == 0 then afterCased else IsCased(s[i - 1]))
  {
    if s == [] then [] else [TitleChar(s[0], afterCased)] + TitleFrom(s[1..], IsCased(s[0]))
  }

  function Title(s: string): (r: string) {
    TitleFrom(s, false)
  }

  /** `payment_method.replace("_", " ").title()`. */
  function PaymentMethodDisplay(pm: string): (r: string)
    ensures |r| == |pm|
    ensures '_' !in r
    ensures forall i :: 0 <= i < |pm| ==> (r[i] == ' ' <==> pm[i] == '_' || pm[i] == ' ')
  {
    var spaced := ReplaceChar(pm, '_', ' ');
    var r := Title(spaced);
    forall i | 0 <= i < |r| ensures r[i] != '_' && (r[i] == ' ' <==> pm[i] == '_' || pm[i] == ' ') {
      assert r[i] == TitleChar(spaced[i], if i == 0 then false else IsCased(spaced[i - 1]));
    }
    r
  }

  /** What the display shows at position `i` of an identifier: a space for an underscore,
      an upper-case letter at the start of a word, the letter itself otherwise. */
  function DisplayedAt(pm: string, i: nat): char
    requires i < |pm|
  {
    if pm[i] == '_' then ' '
    else if i == 0 || pm[i - 1] == '_' then ToUpper(pm[i])
    else pm[i]
  }

  /** For a payment-method spelling, each shown character: an underscore becomes a space,
      the first letter of each word is capitalised and the others are kept. */
  lemma DisplayAt(pm: string, i: nat)
    requires IsIdentifier(pm) && i < |pm|
    ensures PaymentMethodDisplay(pm)[i] == DisplayedAt(pm, i)
  {
    var spaced := ReplaceChar(pm, '_', ' ');
    assert PaymentMethodDisplay(pm)[i] == TitleChar(spaced[i], if i == 0 then false else IsCased(spaced[i - 1]));
  }

  /** The reverse normalisation: spaces back to underscores, letters to lower case. */
  function UndoDisplay(d: string): (r: string)
    ensures |r| == |d|
    ensures forall i :: 0 <= i < |d| ==> r[i] == if d[i] == ' ' then '_' else ToLower(d[i])
  {
    if d == [] then [] else [if d[0] == ' ' then '_' else ToLower(d[0])] + UndoDisplay(d[1..])
  }

  /** Spellings of payment methods: lower-case letters and underscores. */
  predicate IsIdentifier(s: string) {
    forall i :: 0 <= i < |s| ==> IsLower(s[i]) || s[i] == '_'
  }

  /** The display round trip: the shown text determines the payment method up to the
      underscore/space and case normalisation, so no two methods look alike. */
  lemma DisplayRoundTrip(pm: string)
    requires IsIdentifier(pm)
    ensures UndoDisplay(PaymentMethodDisplay(pm)) == pm
  {
    var spaced := ReplaceChar(pm, '_', ' ');
    var d := PaymentMethodDisplay(pm);
    assert d == TitleFrom(spaced, false);
    forall i | 0 <= i < |pm| ensures UndoDisplay(d)[i] == pm[i] {
      assert d[i] == TitleChar(spaced[i], if i == 0 then false else IsCased(spaced[i - 1]));
    }
  }

  /** The five methods the `Literal` type admits are lower-case identifiers. */
  lemma PaymentMethodsAreIdentifiers()
    ensures forall m | m in PaymentMethods :: IsIdentifier(m)
  {
    assert IsIdentifier("credit_card");
    assert IsIdentifier("debit_card");
    assert IsIdentifier("transfer");
    assert IsIdentifier("yape");
    assert IsIdentifier("plin");
  }

  /** The round trip for every receipt that passed validation: its payment method can be
      read back from the reply. */
  lemma ValidPaymentMethodRoundTrip(r: ReceiptInfo)
    requires ValidReceiptInfo(r)
    ensures UndoDisplay(PaymentMethodDisplay(r.paymentMethod)) == r.paymentMethod
  {
    PaymentMethodsAreIdentifiers();
    DisplayRoundTrip(r.paymentMethod);
  }

  lemma DisplayInjective(a: string, b: string)
    requires IsIdentifier(a) && IsIdentifier(b)
    requires PaymentMethodDisplay(a) == PaymentMethodDisplay(b)
    ensures a == b
  {
    DisplayRoundTrip(a);
    DisplayRoundTrip(b);
  }

  // The five methods as the reply shows them.

  lemma DisplayCreditCard()
    ensures PaymentMethodDisplay("credit_card") == "Credit Card"
  {
    DisplayExample("credit_card", "Credit Card");
  }

  lemma DisplayDebitCard()
    ensures PaymentMethodDisplay("debit_card") == "Debit Card"
  {
    DisplayExample("debit_card", "Debit Card");
  }

  lemma DisplayTransfer()
    ensures PaymentMethodDisplay("transfer") == "Transfer"
  {
    DisplayExample("transfer", "Transfer");
  }

  lemma DisplayYape()
    ensures PaymentMethodDisplay("yape") == "Yape"
  {
  }

  lemma DisplayPlin()
    ensures PaymentMethodDisplay("plin") == "Plin"
  {
  }

  lemma DisplayExample(pm: string, shown: string)
    requires IsIdentifier(pm) && |shown| == |pm|
    requires forall i :: 0 <= i < |pm| ==> shown[i] == DisplayedAt(pm, i)
    ensures PaymentMethodDisplay(pm) == shown
  {
    var d := PaymentMethodDisplay(pm);
    forall i | 0 <= i < |pm| ensures d[i] == shown[i] {
      DisplayAt(pm, i);
    }
    assert d == shown;
  }

  /** Python's rendering of an `Optional[str]` inside an f-string. */
  function ShowOptional(o: Option<string>): string {
    if o.Some? then o.value else "None"
  }

  /** The library formatting the template delegates to: `strftime("%B %d, %Y at %I:%M %p")`
      for the date and `:.2f` for amounts. */
  datatype Renderers = Renderers(date: Timestamp -> string, money: Decimal -> string)

  const PaymentMethodLabel := "<b>Payment Method:</b> "

  /** Where the three parts of a concatenation lie in it. */
  lemma ThreeParts(a: string, b: string, c: string)
    ensures var s := a + b + c;
            && s[..|a|] == a
            && s[|a|..|a| + |b|] == b
            && s[|a| + |b|..] == c
  {
    var s := a + b + c;
    assert s == a + (b + c);
    assert s[|a|..] == b + c;
  }

  const DetailsHeading := "\n<b>Receipt Details:</b>\n"
  const NoteLabel := "<b>Note:</b> "

  /** The reply's HTML, one labelled line per field (emoji and indentation omitted): it
      opens with the heading, shows the payment method's display right after the tip's
      line, and closes with the note. */
  function FormatHtml(r: ReceiptInfo, render: Renderers): (html: string)
    ensures |DetailsHeading| <= |html| && html[..|DetailsHeading|] == DetailsHeading
    ensures var last := NoteLabel + r.note + "\n";
            |last| <= |html| && html[|html| - |last|..] == last
    ensures var shown := "<b>Tip:</b> " + render.money(r.tip) + "\n"
                         + PaymentMethodLabel + PaymentMethodDisplay(r.paymentMethod) + "\n";
            var last := NoteLabel + r.note + "\n";
            |shown| + |last| <= |html| &&
            html[|html| - |last| - |shown|..|html| - |last|] == shown
  {
    var fields := "<b>Issued At:</b> " + render.date(r.issuedAt) + "\n"
      + "<b>Vendor Name:</b> " + ShowOptional(r.vendorName) + "\n"
      + "<b>Vendor RUC:</b> " + ShowOptional(r.vendorRuc) + "\n"
      + "<b>Currency:</b> " + r.currency + "\n"
      + "<b>Total Amount:</b> " + render.money(r.totalAmount) + "\n";
    var shown := "<b>Tip:</b> " + render.money(r.tip) + "\n"
      + PaymentMethodLabel + PaymentMethodDisplay(r.paymentMethod) + "\n";
    var last := NoteLabel + r.note + "\n";
    ThreeParts(DetailsHeading + fields, shown, last);
    DetailsHeading + fields + shown + last
  }
}
