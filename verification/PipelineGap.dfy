/**
 A run in which Kafka shows a later row of an order before an earlier one on the other topic: after a second payment
 the ticket record of a batch gets through and the refund record does not.
 */
module PipelineGap {
  import opened States
  import opened Saga
  import opened SagaInv
  import opened Pipeline
  import opened PipelineInv
  import opened PipelinePrefix

  const ONE := Config((id: OrderId) => 0)
  const SEAT := Seat(1, "A")
  const BOUGHT := Order(1, 1, Held, 5, "k", "h", 9, [SEAT])
  const PLACED := DB(map[1 := BOUGHT], map[], map[], [], [OrderHeld(1)])
  const APPLIED := Payment(1, 5, true, Applied)
  const PAID := DB(map[1 := BOUGHT.(status := Paid)], map["a" := APPLIED], map[], [Ticket(1, SEAT, false)],
                   [OrderHeld(1), OrderPaid(1)])
  const SECOND := RefundRequested(1, "b", 5, DoublePayment)
  const PAID_TWICE := PAID.(payments := map["a" := APPLIED, "b" := Payment(1, 5, true, RefundRequired)],
                            refunds := map["b" := Refund(1, 5, DoublePayment, Pending)],
                            outbox := [OrderHeld(1), OrderPaid(1), SECOND])
  const ISSUED := PAID_TWICE.(orders := map[1 := BOUGHT.(status := Ticketed)], tickets := [Ticket(1, SEAT, true)],
                              outbox := [OrderHeld(1), OrderPaid(1), SECOND, TicketIssued(1)])

  lemma PlaceExample()
    ensures Apply(EMPTY, DoPlace(1, BOUGHT)) == PLACED
  {
    assert GoodSeats(1, [SEAT]);
    assert CanPlace(EMPTY, 1, BOUGHT);
  }

  lemma PayExample()
    ensures Apply(PLACED, DoPay(Webhook("a", 1, 5, true), 0, HoldFailed)) == PAID
  {
    assert SeatsUnsold(PLACED, [SEAT]);
    assert NewTickets(1, [SEAT]) == [Ticket(1, SEAT, false)];
    assert Pay(PLACED, Webhook("a", 1, 5, true), 0, HoldFailed).db == SellSeats(PLACED, Webhook("a", 1, 5, true));
  }

  lemma PayTwiceExample()
    ensures Apply(PAID, DoPay(Webhook("b", 1, 5, true), 0, HoldFailed)) == PAID_TWICE
  {
    assert "a"[0] != "b"[0];
    assert "b" !in PAID.payments;
  }

  lemma IssueExample()
    ensures Issue(PAID_TWICE, 1) == ISSUED
  {
    assert PAID_TWICE.tickets[0].order == 1;
    assert IssuedTickets(PAID_TWICE.tickets, 1) == [Ticket(1, SEAT, true)];
  }

  const ORDERS := Part(OrdersTopic, 0)
  const TICKETS := Part(TicketsTopic, 0)

  /** Rows 1 to n, the first k of them published. */
  function RowsTo(n: nat, k: nat): (r: seq<Row>)
    ensures |r| == n && forall i :: 0 <= i < n ==> r[i] == Row(i + 1, i < k, false)
  {
    seq(n, i requires 0 <= i < n => Row(i + 1, i < k, false))
  }

  function Shot(db: DB, rows: seq<Row>, relay: Relay, log: map<Part, seq<nat>>, members: map<nat, Member>): Pipe {
    Pipe(db, rows, relay, log, map[], members, map[])
  }

  const READER := Member(TicketGroup, [Slot(ORDERS, 1)], map[], 0, false)

  lemma Parts()
    ensures PartOf(ONE, OrderHeld(1)) == PartOf(ONE, OrderPaid(1)) == PartOf(ONE, SECOND) == ORDERS
    ensures PartOf(ONE, TicketIssued(1)) == TICKETS
  {
  }

  lemma FirstRows()
    ensures Do(ONE, START, Transact(DoPlace(1, BOUGHT), [1])) == Shot(PLACED, RowsTo(1, 0), Idle, map[], map[])
    ensures Do(ONE, Shot(PLACED, RowsTo(1, 0), Idle, map[], map[]),
               Transact(DoPay(Webhook("a", 1, 5, true), 0, HoldFailed), [2]))
         == Shot(PAID, RowsTo(2, 0), Idle, map[], map[])
  {
    hide Apply;
    PlaceExample();
    PayExample();
    assert [] + NewRows([1]) == RowsTo(1, 0);
    assert RowsTo(1, 0) + NewRows([2]) == RowsTo(2, 0);
  }

  const LOGGED: map<Part, seq<nat>> := map[ORDERS := [0, 1]]
  const NOBODY: map<nat, Member> := map[]

  lemma LockFirst()
    ensures Do(ONE, Shot(PAID, RowsTo(2, 0), Idle, map[], NOBODY), LockBatch([0, 1]))
         == Shot(PAID, RowsTo(2, 0), Sending([0, 1], {}), map[], NOBODY)
  {
    assert [0, 1][0] == 0 && [0, 1][1] == 1;
    assert OldestBatch(Shot(PAID, RowsTo(2, 0), Idle, map[], NOBODY), [0, 1]);
  }

  lemma SendFirst()
    ensures Do(ONE, Shot(PAID, RowsTo(2, 0), Sending([0, 1], {}), map[], NOBODY), SendRecord(0))
         == Shot(PAID, RowsTo(2, 0), Sending([0, 1], {0}), map[ORDERS := [0]], NOBODY)
  {
    var s := Shot(PAID, RowsTo(2, 0), Sending([0, 1], {}), map[], NOBODY);
    Parts();
    assert CanSend(ONE, s, 0) && LogOf(s, ORDERS) + [0] == [0];
    assert Send(ONE, s, 0).relay.sent == {0} && Send(ONE, s, 0).log == map[ORDERS := [0]];
  }

  lemma SendNext()
    ensures Do(ONE, Shot(PAID, RowsTo(2, 0), Sending([0, 1], {0}), map[ORDERS := [0]], NOBODY), SendRecord(1))
         == Shot(PAID, RowsTo(2, 0), Sending([0, 1], {0, 1}), LOGGED, NOBODY)
  {
    var s := Shot(PAID, RowsTo(2, 0), Sending([0, 1], {0}), map[ORDERS := [0]], NOBODY);
    Parts();
    assert CanSend(ONE, s, 1) && LogOf(s, ORDERS) + [1] == [0, 1];
    assert Send(ONE, s, 1).relay.sent == {0, 1} && Send(ONE, s, 1).log == LOGGED;
  }

  lemma MarkFirst()
    ensures Do(ONE, Shot(PAID, RowsTo(2, 0), Sending([0, 1], {0, 1}), LOGGED, NOBODY), MarkPublished)
         == Shot(PAID, RowsTo(2, 2), Idle, LOGGED, NOBODY)
  {
    assert MarkRows(RowsTo(2, 0), [0, 1]) == RowsTo(2, 2);
  }

  /** A second payment asks for a refund. */
  lemma SecondPayment()
    ensures Do(ONE, Shot(PAID, RowsTo(2, 2), Idle, LOGGED, NOBODY),
               Transact(DoPay(Webhook("b", 1, 5, true), 0, HoldFailed), [3]))
         == Shot(PAID_TWICE, RowsTo(3, 2), Idle, LOGGED, NOBODY)
  {
    hide Apply;
    PayTwiceExample();
    assert RowsTo(2, 2) + NewRows([3]) == RowsTo(3, 2);
  }

  lemma PollPaid()
    ensures Do(ONE, Shot(PAID_TWICE, RowsTo(3, 2), Idle, LOGGED, NOBODY), Poll(0, TicketGroup, [Slot(ORDERS, 1)], map[]))
         == Shot(PAID_TWICE, RowsTo(3, 2), Idle, LOGGED, map[0 := READER])
  {
    var s := Shot(PAID_TWICE, RowsTo(3, 2), Idle, LOGGED, NOBODY);
    assert GoodPoll(s, TicketGroup, [Slot(ORDERS, 1)], map[]);
  }

  /** A consumer issues the tickets. */
  lemma HandlePaid()
    ensures Do(ONE, Shot(PAID_TWICE, RowsTo(3, 2), Idle, LOGGED, map[0 := READER]), Handle(0, [4]))
         == Shot(ISSUED, RowsTo(4, 2), Idle, LOGGED, map[0 := Next(READER)])
  {
    hide Issue;
    var s := Shot(PAID_TWICE, RowsTo(3, 2), Idle, LOGGED, map[0 := READER]);
    IssueExample();
    assert Current(s, READER) == Some(OrderPaid(1));
    assert Effect(s, READER) == ISSUED;
    assert RowsTo(3, 2) + NewRows([4]) == RowsTo(4, 2);
  }

  lemma LockSecond()
    ensures Do(ONE, Shot(ISSUED, RowsTo(4, 2), Idle, LOGGED, map[0 := Next(READER)]), LockBatch([2, 3]))
         == Shot(ISSUED, RowsTo(4, 2), Sending([2, 3], {}), LOGGED, map[0 := Next(READER)])
  {
    assert [2, 3][0] == 2 && [2, 3][1] == 3;
    assert OldestBatch(Shot(ISSUED, RowsTo(4, 2), Idle, LOGGED, map[0 := Next(READER)]), [2, 3]);
  }

  /** Of the second batch the ticket record gets through, while the refund record is still out. */
  lemma SendTicket()
    ensures Do(ONE, Shot(ISSUED, RowsTo(4, 2), Sending([2, 3], {}), LOGGED, map[0 := Next(READER)]), SendRecord(1))
         == Shot(ISSUED, RowsTo(4, 2), Sending([2, 3], {1}), LOGGED[TICKETS := [3]], map[0 := Next(READER)])
  {
    var s := Shot(ISSUED, RowsTo(4, 2), Sending([2, 3], {}), LOGGED, map[0 := Next(READER)]);
    Parts();
    assert CanSend(ONE, s, 1) && LogOf(s, TICKETS) + [3] == [3];
    assert Send(ONE, s, 1).relay.sent == {1};
  }

  lemma Extend(steps: seq<Pipeline.Step>, s: Pipe, step: Pipeline.Step) returns (more: seq<Pipeline.Step>)
    requires Pipeline.Run(ONE, steps) == s
    ensures Pipeline.Run(ONE, more) == Do(ONE, s, step)
  {
    more := steps + [step];
    assert more[..|steps|] == steps;
  }

  lemma OvertakenState() returns (steps: seq<Pipeline.Step>)
    ensures Pipeline.Run(ONE, steps)
         == Shot(ISSUED, RowsTo(4, 2), Sending([2, 3], {1}), LOGGED[TICKETS := [3]], map[0 := Next(READER)])
  {
    hide Do, Pipeline.Run;
    FirstRows();
    LockFirst();
    SendFirst();
    SendNext();
    MarkFirst();
    SecondPayment();
    PollPaid();
    HandlePaid();
    LockSecond();
    SendTicket();
    steps := StartEmpty();
    steps := Extend(steps, START, Transact(DoPlace(1, BOUGHT), [1]));
    steps := Extend(steps, Pipeline.Run(ONE, steps), Transact(DoPay(Webhook("a", 1, 5, true), 0, HoldFailed), [2]));
    steps := Extend(steps, Pipeline.Run(ONE, steps), LockBatch([0, 1]));
    steps := Extend(steps, Pipeline.Run(ONE, steps), SendRecord(0));
    steps := Extend(steps, Pipeline.Run(ONE, steps), SendRecord(1));
    steps := Extend(steps, Pipeline.Run(ONE, steps), MarkPublished);
    steps := Extend(steps, Pipeline.Run(ONE, steps), Transact(DoPay(Webhook("b", 1, 5, true), 0, HoldFailed), [3]));
    steps := Extend(steps, Pipeline.Run(ONE, steps), Poll(0, TicketGroup, [Slot(ORDERS, 1)], map[]));
    steps := Extend(steps, Pipeline.Run(ONE, steps), Handle(0, [4]));
    steps := Extend(steps, Pipeline.Run(ONE, steps), LockBatch([2, 3]));
    steps := Extend(steps, Pipeline.Run(ONE, steps), SendRecord(1));
  }

  lemma StartEmpty() returns (steps: seq<Pipeline.Step>)
    ensures Pipeline.Run(ONE, steps) == START
  {
    steps := [];
  }

  /** Kafka can show an order's ticket.issued while an earlier order.refund_requested of it is missing. */
  lemma TopicsCanOvertake()
    ensures exists steps :: var s := Pipeline.Run(ONE, steps); Earlier(s, 2, 3) && Sent(ONE, s, 3) && !Sent(ONE, s, 2)
  {
    hide Pipeline.Run;
    var steps := OvertakenState();
    Parts();
    var s := Pipeline.Run(ONE, steps);
    assert LogOf(s, TICKETS)[0] == 3;
    assert Earlier(s, 2, 3) && Sent(ONE, s, 3) && !Sent(ONE, s, 2);
  }
}
