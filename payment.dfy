/** The payment dialog (src/components/PaymentModal.tsx): the step machine
    `processing → success → receipt` driven by timers, the cancel action,
    the print-and-finish sequence, and the receipt's fields and arithmetic. */
module Payment {
  import opened Types
  import opened Text
  import opened Pricing
  import CartModel

  datatype Step = Processing | Success | Receipt

  /** The callbacks the dialog calls on the page. */
  datatype Callback = OnClose | OnSuccess | OnLogout

  /** The actions the dialog offers on screen. */
  datatype Action = CancelPayment | PrintAndFinish

  /** Cancel is on the processing screen only; print-and-finish on the
      receipt screen only; the success screen offers nothing. */
  function StepActions(step: Step): set<Action> {
    match step
    case Processing => {CancelPayment}
    case Success => {}
    case Receipt => {PrintAndFinish}
  }

  // ----- identifiers -----

  /** `TXN${Date.now().toString().slice(-8)}`. */
  function TransactionId(now: nat): (r: string)
    ensures 3 < |r| <= 11 && r[..3] == "TXN" && AllDigits(r[3..])
  {
    "TXN" + LastN(Digits(now), 8)
  }

  /** The digits of a transaction id are the clock reading modulo 10^8, and a
      clock reading of eight digits or more gives an id of 11 characters. */
  lemma TransactionIdEncodesClock(now: nat)
    ensures ParseDigits(TransactionId(now)[3..]) == now % 100000000
    ensures now >= 10000000 ==> |TransactionId(now)| == 11
  {
    var id := TransactionId(now);
    assert id[3..] == LastN(Digits(now), 8);
    LastDigitsValue(now, 8);
    ClockPowers();
    if now >= 10000000 {
      DigitsLengthAtLeast(now, 7);
    }
  }

  lemma ClockPowers()
    ensures Pow10(7) == 10000000 && Pow10(8) == 100000000
  {
    assert Pow10(1) == 10;
    assert Pow10(2) == 100;
    assert Pow10(3) == 1000;
    assert Pow10(4) == 10000;
    assert Pow10(5) == 100000;
    assert Pow10(6) == 1000000;
  }

  /** `RCP${Math.random().toString(36).substring(2, 8).toUpperCase()}`, given
      the base-36 rendering of the random draw. */
  function ReceiptNo(random36: string): (r: string)
    ensures 3 <= |r| <= 9 && r[..3] == "RCP" && HasNoLowerAscii(r[3..])
    ensures |random36| >= 8 ==> r == "RCP" + Upper(random36[2..8])
  {
    "RCP" + Upper(Substring(random36, 2, 8))
  }

  // ----- receipt -----

  /** `remainingQuota = userQuota - total`. */
  function RemainingQuota(userQuota: int, total: real): (r: real)
    ensures r <= userQuota as real <==> total >= 0.0
  {
    userQuota as real - total
  }

  /** The method's name on screen (`paymentInfo[...].name`). */
  function MethodName(m: PaymentMethod): string {
    if m == Zigama then "Zigama Pay" else "Mobile Money"
  }

  /** The method's label on the printed receipt. */
  function MethodLabel(m: PaymentMethod): string {
    if m == Zigama then "ZIGAMA PAY" else "MOBILE MONEY"
  }

  /** The printed label is the screen name in capitals. */
  lemma MethodLabelIsUpperName(m: PaymentMethod)
    ensures MethodLabel(m) == Upper(MethodName(m))
  {
    var u := Upper(MethodName(m));
    if m == Zigama {
      assert u[0] == 'Z' && u[1] == 'I' && u[2] == 'G' && u[3] == 'A' && u[4] == 'M';
      assert u[5] == 'A' && u[6] == ' ' && u[7] == 'P' && u[8] == 'A' && u[9] == 'Y';
    } else {
      assert u[0] == 'M' && u[1] == 'O' && u[2] == 'B' && u[3] == 'I' && u[4] == 'L' && u[5] == 'E';
      assert u[6] == ' ' && u[7] == 'M' && u[8] == 'O' && u[9] == 'N' && u[10] == 'E' && u[11] == 'Y';
    }
  }

  /** An item row: name, discount tag, quantity and discounted price × quantity. */
  datatype ReceiptLine = ReceiptLine(name: string, discountTag: Option<int>, quantity: int, amount: real)

  function ReceiptLineOf(line: CartItem): ReceiptLine {
    ReceiptLine(
      line.item.name,
      if line.item.discount != 0 then Some(line.item.discount) else None,
      line.quantity,
      TotalUnitPrice(line.item) * line.quantity as real)
  }

  function ReceiptLines(cart: seq<CartItem>): seq<ReceiptLine> {
    seq(|cart|, i requires 0 <= i < |cart| => ReceiptLineOf(cart[i]))
  }

  function SumAmounts(lines: seq<ReceiptLine>): real {
    if lines == [] then 0.0 else lines[0].amount + SumAmounts(lines[1..])
  }

  /** The item rows add up to the cart total. */
  lemma {:induction false} ReceiptLinesSumToCartTotal(cart: seq<CartItem>)
    ensures SumAmounts(ReceiptLines(cart)) == CartModel.CartTotal(cart)
  {
    if cart != [] {
      assert ReceiptLines(cart)[1..] == ReceiptLines(cart[1..]);
      ReceiptLinesSumToCartTotal(cart[1..]);
    }
  }

  /** The document handed to the printer (date and time left out). */
  datatype PrintedReceipt = PrintedReceipt(
    customer: string,
    receiptNo: string,
    transactionId: string,
    lines: seq<ReceiptLine>,
    subtotal: real,
    tax: real,
    total: real,
    methodLabel: string,
    remainingQuota: real)

  function PrintedReceiptOf(cart: seq<CartItem>, total: real, paymentMethod: PaymentMethod, userName: string,
                            userQuota: int, now: nat, random36: string): PrintedReceipt
  {
    PrintedReceipt(userName, ReceiptNo(random36), TransactionId(now), ReceiptLines(cart),
                   total, 0.0, total, MethodLabel(paymentMethod), RemainingQuota(userQuota, total))
  }

  /** The receipt on screen. */
  datatype ReceiptScreen = ReceiptScreen(
    customer: string,
    receiptNo: string,
    transactionId: string,
    lines: seq<ReceiptLine>,
    totalPaid: real,
    methodName: string,
    previousQuota: real,
    amountUsed: real,
    remainingQuota: real)

  function ReceiptScreenOf(cart: seq<CartItem>, total: real, paymentMethod: PaymentMethod, userName: string,
                           userQuota: int, now: nat, random36: string): ReceiptScreen
  {
    ReceiptScreen(userName, ReceiptNo(random36), TransactionId(now), ReceiptLines(cart), total,
                  MethodName(paymentMethod), userQuota as real, total, RemainingQuota(userQuota, total))
  }

  /** Given the amount the page charges (its cart total), the rows of either
      receipt add up to the total they print; the two receipts show the same
      customer, numbers, rows, total and remainder, the printed method label
      is the on-screen name in capitals, the printed receipt has no tax and a
      subtotal equal to its total, and on both the remainder is the quota
      less the total. */
  lemma ReceiptsConsistent(cart: seq<CartItem>, paymentMethod: PaymentMethod, userName: string,
                           userQuota: int, now: nat, random36: string)
    ensures var total := CartModel.CartTotal(cart);
            var p := PrintedReceiptOf(cart, total, paymentMethod, userName, userQuota, now, random36);
            var s := ReceiptScreenOf(cart, total, paymentMethod, userName, userQuota, now, random36);
            SumAmounts(p.lines) == p.total && SumAmounts(s.lines) == s.totalPaid &&
            p.total == s.totalPaid && p.remainingQuota == s.remainingQuota &&
            p.customer == s.customer == userName && p.receiptNo == s.receiptNo &&
            p.transactionId == s.transactionId && p.lines == s.lines &&
            p.methodLabel == Upper(s.methodName) &&
            p.tax == 0.0 && p.subtotal == p.total &&
            s.previousQuota == userQuota as real && s.amountUsed == s.totalPaid &&
            p.remainingQuota == userQuota as real - p.total
  {
    ReceiptLinesSumToCartTotal(cart);
    MethodLabelIsUpperName(paymentMethod);
  }

  // ----- the dialog -----

  class PaymentModal {
    const total: real
    const paymentMethod: PaymentMethod
    const cart: seq<CartItem>
    const userName: string
    const userQuota: int

    var step: Step
    /** The pending processing timer (set on mount). */
    var processingTimer: bool
    /** The pending success timer (set when the step becomes success). */
    var successTimer: bool
    /** Print timers waiting to finish the purchase (each print schedules one). */
    var printTimers: nat
    var mounted: bool

    ghost predicate Valid() reads this {
      (mounted ==> (processingTimer <==> step == Processing) && (successTimer <==> step == Success)) &&
      (!mounted ==> !processingTimer && !successTimer) &&
      (printTimers > 0 ==> step == Receipt)
    }

    /** The actions on screen. */
    function Actions(): set<Action>
      reads this
    {
      if mounted then StepActions(step) else {}
    }

    /** Mounting the dialog: the step starts at processing with its timer running. */
    constructor (total: real, paymentMethod: PaymentMethod, cart: seq<CartItem>, userName: string, userQuota: int)
      ensures Valid() && mounted
      ensures step == Processing && processingTimer && !successTimer && printTimers == 0
      ensures this.total == total && this.paymentMethod == paymentMethod && this.cart == cart
      ensures this.userName == userName && this.userQuota == userQuota
    {
      this.total, this.paymentMethod, this.cart := total, paymentMethod, cart;
      this.userName, this.userQuota := userName, userQuota;
      step := Processing;
      processingTimer, successTimer, printTimers, mounted := true, false, 0, true;
    }

    /** The processing timer fires: the payment always succeeds. */
    method ProcessingTimerElapsed()
      requires Valid()
      modifies this`step, this`processingTimer, this`successTimer
      ensures Valid()
      ensures old(processingTimer) ==> step == Success && !processingTimer && successTimer
      ensures !old(processingTimer) ==> step == old(step) && successTimer == old(successTimer) && !processingTimer
    {
      if processingTimer {
        step, processingTimer, successTimer := Success, false, true;
      }
    }

    /** The success timer fires: the receipt is shown; no callback runs, so
        the cart is still there. */
    method SuccessTimerElapsed()
      requires Valid()
      modifies this`step, this`successTimer
      ensures Valid()
      ensures old(successTimer) ==> step == Receipt && !successTimer
      ensures !old(successTimer) ==> step == old(step) && !successTimer
    {
      if successTimer {
        step, successTimer := Receipt, false;
      }
    }

    /** The cancel button: calls `onClose` while processing; elsewhere there is
        no such button. */
    method Cancel() returns (calls: seq<Callback>)
      ensures calls == if CancelPayment in Actions() then [OnClose] else []
    {
      if mounted && step == Processing { calls := [OnClose]; } else { calls := []; }
    }

    /** The page drops the dialog: the effect cleanups clear its two step
        timers. Print timers are not cleared and still fire. */
    method Unmount()
      requires Valid()
      modifies this`mounted, this`processingTimer, this`successTimer
      ensures Valid() && !mounted && !processingTimer && !successTimer
    {
      mounted, processingTimer, successTimer := false, false, false;
    }

    /** "Print Receipt & Finish". When the receipt window cannot be opened the
        user is alerted and nothing else happens; otherwise the receipt is
        written and a timer is set that will finish the purchase. */
    method Print(popupOpened: bool, now: nat, random36: string) returns (alerted: bool, doc: Option<PrintedReceipt>)
      requires Valid()
      modifies this`printTimers
      ensures Valid()
      ensures PrintAndFinish !in Actions() ==> !alerted && doc.None? && printTimers == old(printTimers)
      ensures PrintAndFinish in Actions() && !popupOpened ==> alerted && doc.None? && printTimers == old(printTimers)
      ensures PrintAndFinish in Actions() && popupOpened ==>
                !alerted && printTimers == old(printTimers) + 1 &&
                doc == Some(PrintedReceiptOf(cart, total, paymentMethod, userName, userQuota, now, random36))
    {
      if !(mounted && step == Receipt) {
        alerted, doc := false, None;
      } else if !popupOpened {
        alerted, doc := true, None;
      } else {
        alerted := false;
        doc := Some(PrintedReceiptOf(cart, total, paymentMethod, userName, userQuota, now, random36));
        printTimers := printTimers + 1;
      }
    }

    /** A print timer fires: clear the cart, then log out. */
    method PrintTimerElapsed() returns (calls: seq<Callback>)
      requires Valid()
      modifies this`printTimers
      ensures Valid()
      ensures old(printTimers) > 0 ==> calls == [OnSuccess, OnLogout] && printTimers == old(printTimers) - 1
      ensures old(printTimers) == 0 ==> calls == [] && printTimers == 0
    {
      if printTimers > 0 {
        printTimers := printTimers - 1;
        calls := [OnSuccess, OnLogout];
      } else {
        calls := [];
      }
    }
  }
}
