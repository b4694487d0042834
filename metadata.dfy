/** Dispute metadata: the blank test of the idempotency guard and the
    reconciliation marker written back to the gateway. */
module DisputeMetadata {
  import opened DisputeTypes

  const RECEIPT_ID_KEY := "payment_receipt_id"
  const RECEIPT_REF_KEY := "payment_receipt_ref"
  const ACCOUNT_KEY := "account"

  /** Unicode White_Space, the class `blank?` matches on a string. */
  predicate IsSpace(c: char)
  {
    ('\t' <= c <= '\r') || c == ' ' || c == '\U{85}' || c == '\U{A0}' || c == '\U{1680}'
    || ('\U{2000}' <= c <= '\U{200A}') || c == '\U{2028}' || c == '\U{2029}'
    || c == '\U{202F}' || c == '\U{205F}' || c == '\U{3000}'
  }

  /** `blank?` on a string: white space only, the empty string included. */
  predicate Blank(v: string)
  {
    forall i :: 0 <= i < |v| ==> IsSpace(v[i])
  }

  predicate IsDigit(c: char)
  {
    '0' <= c <= '9'
  }

  predicate AllDigits(s: string)
  {
    forall i :: 0 <= i < |s| ==> IsDigit(s[i])
  }

  function Digit(k: nat): (c: char)
    requires k < 10
    ensures IsDigit(c) && c as int - '0' as int == k
  {
    ('0' as int + k) as char
  }

  /** The decimal text the gateway stores for an integer id. */
  function DecimalString(n: nat): (r: string)
    ensures |r| > 0 && AllDigits(r)
    decreases n
  {
    if n < 10 then [Digit(n)] else DecimalString(n / 10) + [Digit(n % 10)]
  }

  /** Reads decimal text back as a number. */
  function ParseDecimal(s: string): (n: nat)
    requires AllDigits(s)
  {
    if s == [] then 0
    else ParseDecimal(s[..|s| - 1]) * 10 + (s[|s| - 1] as int - '0' as int)
  }

  lemma {:induction false} DecimalRoundTrip(n: nat)
    ensures ParseDecimal(DecimalString(n)) == n
    decreases n
  {
    if n >= 10 {
      var t := DecimalString(n / 10);
      assert DecimalString(n) == t + [Digit(n % 10)];
      assert (t + [Digit(n % 10)])[..|t|] == t;
      DecimalRoundTrip(n / 10);
    }
  }

  /** A nonempty digit string is never blank. */
  lemma DigitsNotBlank(s: string)
    requires |s| > 0 && AllDigits(s)
    ensures !Blank(s)
  {
    assert IsDigit(s[0]) && !IsSpace(s[0]);
  }

  /** The metadata update_dispute writes: receipt id, receipt number and account id, nothing else. */
  function Marker(receipt: Receipt): (m: Metadata)
    ensures m.Keys == {RECEIPT_ID_KEY, RECEIPT_REF_KEY, ACCOUNT_KEY}
    ensures Reconciled(m)
    ensures AllDigits(m[RECEIPT_ID_KEY]) && ParseDecimal(m[RECEIPT_ID_KEY]) == receipt.id
    ensures m[RECEIPT_REF_KEY] == receipt.receiptNumber
    ensures AllDigits(m[ACCOUNT_KEY]) && ParseDecimal(m[ACCOUNT_KEY]) == receipt.accountId
  {
    DecimalRoundTrip(receipt.id);
    DecimalRoundTrip(receipt.accountId);
    DigitsNotBlank(DecimalString(receipt.id));
    map[RECEIPT_ID_KEY := DecimalString(receipt.id),
        RECEIPT_REF_KEY := receipt.receiptNumber,
        ACCOUNT_KEY := DecimalString(receipt.accountId)]
  }

  /** The idempotency guard: the metadata carries a `payment_receipt_id` that is not
      `blank?` (a missing key reads as `nil`, which is blank). */
  predicate Reconciled(m: Metadata)
    ensures Reconciled(m) ==> RECEIPT_ID_KEY in m && |m[RECEIPT_ID_KEY]| > 0
  {
    RECEIPT_ID_KEY in m && !Blank(m[RECEIPT_ID_KEY])
  }

  /** What `blank?` makes of the guard: no key, an empty value or white space leave a
      dispute unmarked; any other character marks it. */
  lemma GuardExamples()
    ensures !Reconciled(map[])
    ensures !Reconciled(map[RECEIPT_REF_KEY := "R-1", ACCOUNT_KEY := "5"])
    ensures !Reconciled(map[RECEIPT_ID_KEY := ""])
    ensures !Reconciled(map[RECEIPT_ID_KEY := " \t\n\U{A0}"])
    ensures Reconciled(map[RECEIPT_ID_KEY := "0"])
    ensures Reconciled(map[RECEIPT_ID_KEY := " x "])
  {
    assert !IsSpace("0"[0]);
    assert !IsSpace(" x "[1]);
  }
}
