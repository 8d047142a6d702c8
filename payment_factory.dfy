/**
 * The payment factory of `01_factory/solution.js`: `getPaymentProcessor`
 * looks a payment type up in a table of two processors and falls back to
 * the unsupported processor, and `paymentOrder` runs the chosen processor
 * on the amount. Each processor's console line is returned.
 */
module PaymentFactory {
  import Strings

  /** The three processor functions. */
  datatype Processor = PayPal | Stripe | Unsupported

  /** `processors[type] || processPaymentUnsupported`. */
  function GetPaymentProcessor(paymentType: string): (p: Processor)
    ensures p == PayPal <==> paymentType == "paypall"
    ensures p == Stripe <==> paymentType == "stripe"
    ensures p == Unsupported <==> paymentType != "paypall" && paymentType != "stripe"
  {
    if paymentType == "paypall" then PayPal
    else if paymentType == "stripe" then Stripe
    else Unsupported
  }

  /** What follows the amount in a processor's line. */
  function Channel(p: Processor): string {
    match p
    case PayPal => " through paypall"
    case Stripe => " through stripe"
    case Unsupported => " Unsupported"
  }

  /** The line a processor logs for an amount. */
  function ProcessLine(p: Processor, amount: int): (line: string)
    ensures Strings.StartsWith(line, "processing $" + Strings.IntToString(amount))
    ensures |line| >= |Channel(p)| && line[|line| - |Channel(p)|..] == Channel(p)
  {
    var head := "processing $" + Strings.IntToString(amount);
    var line := head + Channel(p);
    assert line[..|head|] == head;
    line
  }

  /** Different processors log different lines for the same amount. */
  lemma ProcessorsDistinct(p: Processor, q: Processor, amount: int)
    requires p != q
    ensures ProcessLine(p, amount) != ProcessLine(q, amount)
  {
  }

  /** `paymentOrder(paymentType, amount)`: the selected processor runs once on `amount`. */
  method PaymentOrder(paymentType: string, amount: int) returns (lines: seq<string>)
    ensures lines == [ProcessLine(GetPaymentProcessor(paymentType), amount)]
  {
    var processor := GetPaymentProcessor(paymentType);
    lines := [ProcessLine(processor, amount)];
  }

  /** The three orders of the script: PayPal, Stripe, and the unsupported `"jazzCash"`. */
  method Script() returns (lines: seq<string>)
    ensures lines == [ProcessLine(PayPal, 450), ProcessLine(Stripe, 300), ProcessLine(Unsupported, 100)]
  {
    var a := PaymentOrder("paypall", 450);
    var b := PaymentOrder("stripe", 300);
    var c := PaymentOrder("jazzCash", 100);
    lines := a + b + c;
  }
}
