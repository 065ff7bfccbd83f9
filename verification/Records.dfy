/** The financial records the reconciliation reads. Amounts are integers in minor units, times are
    integers on one clock, ids are opaque numbers, and raw_data holds text fields. */
module Records {
  import opened Prelude
  import opened Text

  type Raw = map<string, string>

  datatype Payment = Payment(
    id: nat, provider: string, providerPaymentId: string, orderId: Option<string>, merchant: Option<string>,
    amount: int, currency: string, status: string, createdAt: int, expectedRefund: bool, raw: Raw)

  datatype Settlement = Settlement(
    id: nat, provider: string, settlementRef: string, providerPaymentId: string, paymentId: Option<nat>,
    merchant: Option<string>, gross: int, fee: int, tax: int, net: int, adjustment: int,
    status: string, settledAt: int, utr: Option<string>, raw: Raw)

  datatype Refund = Refund(
    id: nat, provider: string, providerRefundId: string, providerPaymentId: string, paymentId: Option<nat>,
    merchant: Option<string>, amount: int, status: string)

  datatype Bank = Bank(
    id: nat, provider: Option<string>, merchant: Option<string>, reference: Option<string>,
    amount: int, currency: string, timestamp: int, meta: Raw)

  datatype Rules = Rules(windowDays: nat, toleranceMinutes: nat, amountTolerance: nat)

  const MINUTE := 60 * SECOND
  const DAY := 1_440 * MINUTE

  function Get(raw: Raw, key: string): Option<string> { if key in raw then Some(raw[key]) else None }

  function GetOr(raw: Raw, key: string, otherwise: string): string { if key in raw then raw[key] else otherwise }

  // The non-blank normalized forms of a list of optional references.
  function References(values: seq<Option<string>>): set<string> {
    set v <- values | Normalize(v).Some? :: Normalize(v).value
  }

  function PaymentRefs(p: Payment): set<string> {
    References([p.orderId, Get(p.raw, "order_id"), Get(p.raw, "merchant_order_reference"),
                Get(p.raw, "provider_reference")])
  }

  function SettlementRefs(s: Settlement): set<string> {
    References([Get(s.raw, "order_id"), Get(s.raw, "merchant_order_reference"),
                Get(s.raw, "provider_reference"), Get(s.raw, "settlement_reference")])
  }

  function PaymentBankRefs(p: Payment): set<string> {
    References([Get(p.raw, "utr"), Get(p.raw, "bank_reference"), Get(p.raw, "settlement_reference")])
  }

  function SettlementBankRefs(s: Settlement): set<string> {
    References([s.utr, Get(s.raw, "utr"), Get(s.raw, "bank_reference"), Get(s.raw, "settlement_reference")])
  }

  // Settlements carry their currency in raw_data; INR when it is missing.
  function SettlementCurrency(s: Settlement): string { Upper(GetOr(s.raw, "currency", "INR")) }
}
