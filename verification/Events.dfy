/** The events of internal/events/events.go that some component publishes. */
module Events {
  datatype Action = ChargeAction | DebitAction | OtherAction(text: string)

  datatype Event =
    | PaymentCreated(paymentId: string, userId: string, amount: int, service: string, at: int)
    | PaymentInitialized(paymentId: string, userId: string, amount: int, service: string, at: int)
    | PaymentPending(paymentId: string, userId: string, at: int)
    | PaymentRejected(paymentId: string, userId: string, reason: string, at: int)
    | PaymentSucceeded(paymentId: string, userId: string, gatewayId: string, at: int)
    | PaymentFailed(paymentId: string, userId: string, reason: string, at: int)
    | PaymentChargeRequested(paymentId: string, userId: string, amount: int, service: string, attempt: int, at: int)
    | PaymentChargeSucceeded(paymentId: string, userId: string, gatewayId: string, at: int)
    | PaymentChargeFailed(paymentId: string, userId: string, reason: string, retryable: bool, errorCode: string,
                          at: int)
    | RecoveryRequested(paymentId: string, userId: string, action: Action, reason: string, errorCode: string,
                        attempts: int, at: int)
    | WalletCredited(userId: string, amount: int, at: int)
    | WalletDebitRequested(paymentId: string, userId: string, amount: int, attempt: int, at: int)
    | WalletDebitRejected(paymentId: string, userId: string, reason: string, at: int)
    | WalletDebited(paymentId: string, userId: string, amount: int, at: int)
    | WalletRefundRequested(paymentId: string, userId: string, amount: int, at: int)
    | WalletRefunded(paymentId: string, userId: string, amount: int, at: int)

  /** Event names; `Unknown` stands for any name no component publishes. */
  datatype Name =
    | NamePaymentCreated | NamePaymentInitialized | NamePaymentPending | NamePaymentRejected
    | NamePaymentSucceeded | NamePaymentFailed | NameChargeRequested | NameChargeSucceeded | NameChargeFailed
    | NameRecoveryRequested | NameWalletCredited | NameWalletDebitRequested | NameWalletDebitRejected
    | NameWalletDebited | NameWalletRefundRequested | NameWalletRefunded | Unknown(text: string)

  function NameOf(e: Event): Name {
    match e
    case PaymentCreated(_, _, _, _, _) => NamePaymentCreated
    case PaymentInitialized(_, _, _, _, _) => NamePaymentInitialized
    case PaymentPending(_, _, _) => NamePaymentPending
    case PaymentRejected(_, _, _, _) => NamePaymentRejected
    case PaymentSucceeded(_, _, _, _) => NamePaymentSucceeded
    case PaymentFailed(_, _, _, _) => NamePaymentFailed
    case PaymentChargeRequested(_, _, _, _, _, _) => NameChargeRequested
    case PaymentChargeSucceeded(_, _, _, _) => NameChargeSucceeded
    case PaymentChargeFailed(_, _, _, _, _, _) => NameChargeFailed
    case RecoveryRequested(_, _, _, _, _, _, _) => NameRecoveryRequested
    case WalletCredited(_, _, _) => NameWalletCredited
    case WalletDebitRequested(_, _, _, _, _) => NameWalletDebitRequested
    case WalletDebitRejected(_, _, _, _) => NameWalletDebitRejected
    case WalletDebited(_, _, _, _) => NameWalletDebited
    case WalletRefundRequested(_, _, _, _) => NameWalletRefundRequested
    case WalletRefunded(_, _, _, _) => NameWalletRefunded
  }

  /** Text of an event name, used as partition key when the event carries none. */
  function NameText(n: Name): string {
    match n
    case NamePaymentCreated => "payment.created"
    case NamePaymentInitialized => "payment.initialized"
    case NamePaymentPending => "payment.pending"
    case NamePaymentRejected => "payment.rejected"
    case NamePaymentSucceeded => "payment.completed"
    case NamePaymentFailed => "payment.failed"
    case NameChargeRequested => "payment.charge_requested"
    case NameChargeSucceeded => "payment.charge_succeeded"
    case NameChargeFailed => "payment.charge_failed"
    case NameRecoveryRequested => "recovery.requested"
    case NameWalletCredited => "wallet.credited"
    case NameWalletDebitRequested => "wallet.debit_requested"
    case NameWalletDebitRejected => "wallet.debit_rejected"
    case NameWalletDebited => "wallet.debited"
    case NameWalletRefundRequested => "wallet.refund_requested"
    case NameWalletRefunded => "wallet.refunded"
    case Unknown(text) => text
  }

  function PartitionKey(e: Event): string {
    if e.WalletCredited? then e.userId else e.paymentId
  }

  /** The key the bus shards by: the event's own key, or its name when that key is empty. */
  function BusKey(e: Event): string {
    if PartitionKey(e) != "" then PartitionKey(e) else NameText(NameOf(e))
  }

  lemma NamesDiffer(m: Name, n: Name)
    requires !m.Unknown? && !n.Unknown? && NameText(m) == NameText(n)
    ensures m == n
  {
    assert NameText(m)[0] == NameText(n)[0];
    assert NameText(m)[8] == NameText(n)[8];
    if |NameText(m)| == 24 {
      assert NameText(m)[15] == NameText(n)[15];
    }
  }

  /**
   Events of one payment share a bus key, and so do credits of one user; events of two payments, or credits
   of two users, do not; a credit shares one with a payment of its user's name only. Events of payments that
   carry no id share one exactly when they have the same name.
   */
  lemma KeysTellSubjectsApart(e: Event, f: Event)
    ensures !e.WalletCredited? && !f.WalletCredited? && e.paymentId != "" && f.paymentId != "" ==>
              (BusKey(e) == BusKey(f) <==> e.paymentId == f.paymentId)
    ensures e.WalletCredited? && f.WalletCredited? && e.userId != "" && f.userId != "" ==>
              (BusKey(e) == BusKey(f) <==> e.userId == f.userId)
    ensures e.WalletCredited? && !f.WalletCredited? && e.userId != "" && f.paymentId != "" ==>
              (BusKey(e) == BusKey(f) <==> e.userId == f.paymentId)
    ensures !e.WalletCredited? && !f.WalletCredited? && e.paymentId == "" && f.paymentId == "" ==>
              (BusKey(e) == BusKey(f) <==> NameOf(e) == NameOf(f))
  {
    if BusKey(e) == BusKey(f) && PartitionKey(e) == "" && PartitionKey(f) == "" {
      NamesDiffer(NameOf(e), NameOf(f));
    }
  }

  /** True of the events that belong to payment `id`. */
  predicate Of(e: Event, id: string) {
    !e.WalletCredited? && e.paymentId == id
  }
}
