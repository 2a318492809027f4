/** The conversation steps of the drive-thru agent: the tools each step enables, the
    steps it lists as valid next steps, and the step each tool switches to. */
module Steps {
  import opened Base

  datatype Step = Greeting | TakingOrder | ConfirmingOrder | PaymentProcessing | OrderComplete

  datatype Tool =
    | AddItem | RemoveItem | ModifyQuantity | ReviewOrder | FinalizeOrder
    | UpgradeToCombo | CancelOrder | ProcessPayment | CompleteOrder | NewOrder

  /** set_functions of each step. */
  function Enabled(s: Step): set<Tool> {
    match s
    case Greeting => {AddItem}
    case TakingOrder => {AddItem, RemoveItem, ModifyQuantity, ReviewOrder, FinalizeOrder, UpgradeToCombo, CancelOrder}
    case ConfirmingOrder => {ProcessPayment, AddItem, RemoveItem, CancelOrder}
    case PaymentProcessing => {CompleteOrder}
    case OrderComplete => {NewOrder}
  }

  /** set_valid_steps of each step. */
  function ValidNext(s: Step): set<Step> {
    match s
    case Greeting => {TakingOrder}
    case TakingOrder => {ConfirmingOrder}
    case ConfirmingOrder => {PaymentProcessing, TakingOrder}
    case PaymentProcessing => {OrderComplete}
    case OrderComplete => {Greeting}
  }

  /** The step a tool that succeeds asks for, if any. cancel_order picks its step from
      the step recorded in the global data: taking_order stays, anything else goes
      back to greeting. */
  function Target(t: Tool, recorded: Step): (r: Option<Step>)
    ensures r.None? <==> t in {RemoveItem, ModifyQuantity, ReviewOrder, UpgradeToCombo}
    ensures t == CancelOrder ==> r == Some(if recorded == TakingOrder then TakingOrder else Greeting)
  {
    match t
    case AddItem => Some(TakingOrder)
    case FinalizeOrder => Some(ConfirmingOrder)
    case ProcessPayment => Some(PaymentProcessing)
    case CompleteOrder => Some(OrderComplete)
    case NewOrder => Some(Greeting)
    case CancelOrder => Some(if recorded == TakingOrder then TakingOrder else Greeting)
    case _ => None
  }

  /** The tools whose step does not depend on the recorded step ask for a fixed one. */
  lemma FixedTargets(recorded: Step)
    ensures Target(AddItem, recorded) == Some(TakingOrder)
    ensures Target(FinalizeOrder, recorded) == Some(ConfirmingOrder)
    ensures Target(ProcessPayment, recorded) == Some(PaymentProcessing)
    ensures Target(CompleteOrder, recorded) == Some(OrderComplete)
    ensures Target(NewOrder, recorded) == Some(Greeting)
  {
  }

  /** The step after a tool enabled in `s` succeeds, with `s` as the recorded step. */
  function After(s: Step, t: Tool): Step {
    match Target(t, s)
    case Some(next) => next
    case None => s
  }

  /** The step change a tool makes from `s` stays in `s` or is one of the valid next
      steps of `s`. */
  predicate Allowed(s: Step, t: Tool) {
    After(s, t) == s || After(s, t) in ValidNext(s)
  }

  /** Every tool a step enables moves only to that step or one of its valid next steps,
      with one exception: cancel_order from confirming_order returns to greeting, which
      confirming_order does not list. */
  lemma EnabledToolsAllowed(s: Step, t: Tool)
    requires t in Enabled(s)
    ensures Allowed(s, t) <==> !(s == ConfirmingOrder && t == CancelOrder)
  {
  }

  /** With the default recorded step, greeting, cancel_order from taking_order goes back
      to the greeting, which taking_order does not list as a next step. */
  lemma CancelWithDefaultRecorded()
    ensures CancelOrder in Enabled(TakingOrder)
    ensures Target(CancelOrder, Greeting) == Some(Greeting) && Greeting !in ValidNext(TakingOrder)
  {
  }

  /** The steps a sequence of successful tool calls goes through, or None as soon as one
      of them is not enabled in the step it is called in. */
  function Run(s: Step, ts: seq<Tool>): Option<Step>
    decreases |ts|
  {
    if ts == [] then Some(s)
    else if ts[0] in Enabled(s) then Run(After(s, ts[0]), ts[1..])
    else None
  }

  /** A visit: adding an item, finalizing, paying, completing and starting a new order
      bring the conversation back to the greeting. */
  lemma OrderCycle()
    ensures Run(Greeting, [AddItem, FinalizeOrder, ProcessPayment, CompleteOrder, NewOrder]) == Some(Greeting)
  {
    var ts := [AddItem, FinalizeOrder, ProcessPayment, CompleteOrder, NewOrder];
    assert ts[1..] == [FinalizeOrder, ProcessPayment, CompleteOrder, NewOrder];
    assert ts[1..][1..] == [ProcessPayment, CompleteOrder, NewOrder];
    assert ts[1..][1..][1..] == [CompleteOrder, NewOrder];
    assert ts[1..][1..][1..][1..] == [NewOrder];
  }

  /** The only tool call that enters payment_processing is process_payment while
      confirming the order. */
  lemma PaymentNeedsConfirming(s: Step, t: Tool)
    requires t in Enabled(s) && After(s, t) == PaymentProcessing && s != PaymentProcessing
    ensures s == ConfirmingOrder && t == ProcessPayment
  {
  }

  /** A run that enters payment_processing calls process_payment. */
  lemma {:induction false} PaymentNeedsProcessPayment(s: Step, ts: seq<Tool>)
    requires s != PaymentProcessing && Run(s, ts) == Some(PaymentProcessing)
    ensures ProcessPayment in ts
    decreases |ts|
  {
    var next := After(s, ts[0]);
    if next == PaymentProcessing {
      assert ts[0] == ProcessPayment;
    } else {
      PaymentNeedsProcessPayment(next, ts[1..]);
      assert ts == [ts[0]] + ts[1..];
    }
  }

  /** A run from the greeting, taking the order or a completed order reaches payment
      only through finalize_order. */
  lemma {:induction false} PaymentNeedsFinalize(s: Step, ts: seq<Tool>)
    requires s in {Greeting, TakingOrder, OrderComplete}
    requires Run(s, ts) == Some(PaymentProcessing)
    ensures FinalizeOrder in ts
    decreases |ts|
  {
    var next := After(s, ts[0]);
    if next == ConfirmingOrder {
      assert ts[0] == FinalizeOrder;
    } else {
      PaymentNeedsFinalize(next, ts[1..]);
      assert ts == [ts[0]] + ts[1..];
    }
  }
}
