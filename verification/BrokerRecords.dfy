/** What the broker's order-status query returns. */
module BrokerRecords {
  import opened Wrappers
  import opened LedgerTables

  datatype BrokerStatus = NotRecognised | Unfilled | PartlyFilled | FullyFilled | CancelConfirmed | RejectConfirmed

  /** A parsed row of the daily order inquiry; counts are clamped at zero by the parser. */
  datatype Record = Record(
    number: string, symbol: string, side: Option<Side>, ordered: nat, filled: nat, remaining: nat,
    orderPrice: Option<real>, average: Option<real>, status: BrokerStatus, branch: Option<string>)

  /** `{order.order_number: order for order in orders if order.order_number}`, looked up. */
  function FindRecord(records: seq<Record>, number: string): (r: Option<Record>)
    ensures r.Some? ==> r.value in records && r.value.number == number != ""
    ensures r.None? && number != "" ==> forall rec :: rec in records ==> rec.number != number
  {
    if records == [] || number == "" then None
    else if records[|records| - 1].number == number then Some(records[|records| - 1])
    else
      assert records == records[..|records| - 1] + [records[|records| - 1]];
      FindRecord(records[..|records| - 1], number)
  }

  function RecordOf(o: Order, records: seq<Record>): Option<Record> {
    if o.brokerId.None? then None else FindRecord(records, o.brokerId.value)
  }

  predicate SameOrder(o: Order, rec: Record) {
    o.symbol == rec.symbol && rec.side == Some(o.side)
  }

  function LocalStatus(s: BrokerStatus): Option<Status> {
    match s
    case Unfilled => Some(Acknowledged)
    case PartlyFilled => Some(PartiallyFilled)
    case FullyFilled => Some(Filled)
    case CancelConfirmed => Some(Cancelled)
    case RejectConfirmed => Some(Rejected)
    case NotRecognised => None
  }
}
