/** String forms of records: a ticket prints as "Request #: <id> - <title>",
    with the id written in decimal as Python's f-string does for an int. */
module Display {

  predicate IsDigit(c: char)
  {
    '0' <= c <= '9'
  }

  predicate AllDigits(s: string)
  {
    forall i :: 0 <= i < |s| ==> IsDigit(s[i])
  }

  function DigitChar(d: nat): (c: char)
    requires d < 10
    ensures IsDigit(c) && c as int - '0' as int == d
  {
    ['0', '1', '2', '3', '4', '5', '6', '7', '8', '9'][d]
  }

  function DigitValue(c: char): (d: nat)
    requires IsDigit(c)
    ensures d < 10 && DigitChar(d) == c
  {
    c as int - '0' as int
  }

  /** Decimal notation of a natural number, without leading zeros. */
  function Decimal(n: nat): (s: string)
    ensures 0 < |s| && AllDigits(s)
    ensures |s| > 1 ==> s[0] != '0'
    decreases n
  {
    if n < 10 then [DigitChar(n)] else Decimal(n / 10) + [DigitChar(n % 10)]
  }

  /** Value of a string of decimal digits. */
  function ParseDecimal(s: string): nat
    requires AllDigits(s)
    decreases |s|
  {
    if s == [] then 0 else ParseDecimal(s[..|s| - 1]) * 10 + DigitValue(s[|s| - 1])
  }

  /** Reading the decimal notation back gives the number. */
  lemma {:induction false} DecimalRoundTrip(n: nat)
    ensures ParseDecimal(Decimal(n)) == n
    decreases n
  {
    var s := Decimal(n);
    if n >= 10 {
      DecimalRoundTrip(n / 10);
      assert s[..|s| - 1] == Decimal(n / 10);
    }
  }

  /** Different numbers have different decimal notations. */
  lemma DecimalInjective(m: nat, n: nat)
    requires Decimal(m) == Decimal(n)
    ensures m == n
  {
    DecimalRoundTrip(m);
    DecimalRoundTrip(n);
  }

  const TICKET_PREFIX: string := "Request #: "
  const TICKET_SEPARATOR: string := " - "

  /** The printable form of a ticket. */
  function TicketLabel(id: nat, title: string): (text: string)
    ensures |text| == |TICKET_PREFIX| + |Decimal(id)| + |TICKET_SEPARATOR| + |title|
    ensures text[..|TICKET_PREFIX|] == TICKET_PREFIX
    ensures text[|text| - |title|..] == title
  {
    TICKET_PREFIX + Decimal(id) + TICKET_SEPARATOR + title
  }

  /** A ticket label determines both the ticket's id and its title, even
      when the title itself contains the separator. */
  lemma TicketLabelInjective(id1: nat, title1: string, id2: nat, title2: string)
    requires TicketLabel(id1, title1) == TicketLabel(id2, title2)
    ensures id1 == id2 && title1 == title2
  {
    var l1, l2 := TicketLabel(id1, title1), TicketLabel(id2, title2);
    var d1, d2 := Decimal(id1), Decimal(id2);
    var p := |TICKET_PREFIX|;
    assert forall i :: 0 <= i < |d1| ==> l1[p + i] == d1[i];
    assert forall i :: 0 <= i < |d2| ==> l2[p + i] == d2[i];
    assert l1[p + |d1|] == ' ' && l2[p + |d2|] == ' ';
    // a digit never equals the space that opens the separator
    assert |d1| == |d2|;
    assert d1 == l1[p..p + |d1|] == l2[p..p + |d2|] == d2;
    DecimalInjective(id1, id2);
  }
}
