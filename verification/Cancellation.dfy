/** Cancelling one appointment: read it, refund through Stripe under an
    idempotency key made from the appointment's update stamp, then update it if
    its status still allows. Any number of cancels may interleave, crash at any
    point and be retried as new ones.

    The refund amount and outcome are computed by a policy that depends on the
    time of the read; here each read may come up with any of them. */
module Cancellation {
  import opened Wrappers

  datatype Status =
    | ReservedUnpaid
    | Confirmed
    | Completed
    | NoShow
    | CancelledNoRefund
    | CancelledPartialRefund
    | CancelledFullRefund

  datatype Reference = PaymentIntent(id: nat) | Charge(id: nat)

  /** What the handler reads of the appointment. */
  datatype Appt = Appt(
    status: Status,
    updatedAt: int,
    paidByStripe: bool,
    reference: Option<Reference>,
    hasSession: bool,
    refundIds: seq<nat>)

  predicate IsCancelled(s: Status) {
    s in {CancelledNoRefund, CancelledPartialRefund, CancelledFullRefund}
  }

  type CancelledStatus = s: Status | IsCancelled(s) witness CancelledNoRefund

  datatype Outcome = Outcome(refundAmount: int, status: CancelledStatus)

  /** The payment's amount and application fee, as Stripe reports them. */
  datatype Fees = Fees(payment: int, fee: int)

  /** A refund Stripe holds, and whether its creator knew the fees. */
  datatype Refund = Refund(id: nat, amount: int, feesKnown: bool)

  datatype Error = InvalidAmount | NothingAfterFee | NoReference | KeyReused

  /** One cancel between two of its awaits. */
  datatype Cancel =
    | Refunding(seen: Appt, key: int, outcome: Outcome, reference: Option<Reference>)
    | Charging(seen: Appt, key: int, outcome: Outcome, amount: int, feesKnown: bool)
    | Updating(seen: Appt, status: CancelledStatus, refundId: Option<nat>)

  datatype State = State(
    now: int,
    appt: Appt,
    fees: Fees,
    refunds: map<int, Refund>,
    cancels: map<nat, Cancel>,
    updates: nat)

  datatype Action =
    | Tick(elapsed: nat)
    | Read(cancel: nat, outcome: Outcome)
    | FindReference(cancel: nat, found: Option<Reference>)
    | LookUpFees(cancel: nat, succeeds: bool)
    | CreateRefund(cancel: nat, answerArrives: bool)
    | Update(cancel: nat)
    | Crash(cancel: nat)

  /** The fees put a cap on the amount: known, and both positive. */
  predicate Capped(fees: Option<Fees>) {
    fees.Some? && fees.value.payment > 0 && fees.value.fee > 0
  }

  /** The amount asked of Stripe: the largest that is neither more than requested
      nor, under a cap, more than the payment less its fee leaves. */
  function SafeAmount(requested: int, fees: Option<Fees>): (r: int)
    ensures r <= requested
    ensures Capped(fees) && r > 0 ==> r <= fees.value.payment - fees.value.fee
    ensures !Capped(fees) ==> r == requested
    ensures Capped(fees) && requested <= fees.value.payment - fees.value.fee ==> r == requested
    ensures Capped(fees) && fees.value.payment <= fees.value.fee && requested > 0 ==> r == 0
  {
    if fees.Some? && fees.value.payment > 0 && fees.value.fee > 0 then
      var cap := if fees.value.payment > fees.value.fee then fees.value.payment - fees.value.fee else 0;
      if requested < cap then requested else cap
    else requested
  }

  /** An amount that is neither more than requested nor more than a cap leaves. */
  predicate Allowed(x: int, requested: int, fees: Option<Fees>) {
    x <= requested && (Capped(fees) ==> x <= 0 || x <= fees.value.payment - fees.value.fee)
  }

  lemma SafeAmountIsTheLargestAllowed(requested: int, fees: Option<Fees>, x: int)
    ensures Allowed(SafeAmount(requested, fees), requested, fees)
    ensures Allowed(x, requested, fees) && x > 0 ==> x <= SafeAmount(requested, fees)
    ensures SafeAmount(requested, fees) <= 0 ==> forall y :: 0 < y ==> !Allowed(y, requested, fees)
  {
  }

  /** Stripe's side of an idempotent creation: a known key yields the refund made
      under it, or an error when the request differs. */
  function Submit(refunds: map<int, Refund>, key: int, amount: int, feesKnown: bool)
    : (map<int, Refund>, Result<nat, Error>)
  {
    if key in refunds then
      (refunds, if refunds[key].amount == amount then Success(refunds[key].id) else Failure(KeyReused))
    else
      (refunds[key := Refund(|refunds|, amount, feesKnown)], Success(|refunds|))
  }

  /** What a cancel does right after it has read the appointment. */
  function Decide(seen: Appt, outcome: Outcome): Option<Cancel> {
    if IsCancelled(seen.status) then None
    else if seen.status == ReservedUnpaid then Some(Updating(seen, CancelledNoRefund, None))
    else if outcome.refundAmount > 0 && seen.paidByStripe then
      Some(Refunding(seen, seen.updatedAt, outcome, seen.reference))
    else Some(Updating(seen, FinalStatus(outcome), None))
  }

  function FinalStatus(outcome: Outcome): CancelledStatus {
    if outcome.refundAmount > 0 then outcome.status else CancelledNoRefund
  }

  function Next(s: State, a: Action): State {
    match a
    case Tick(elapsed) => s.(now := s.now + elapsed)
    case Read(p, outcome) =>
      var decision := Decide(s.appt, outcome);
      s.(cancels := if decision.Some? then s.cancels[p := decision.value] else s.cancels - {p})
    case FindReference(p, found) =>
      if p !in s.cancels || !s.cancels[p].Refunding? || s.cancels[p].reference.Some? then s
      else if !s.cancels[p].seen.hasSession || found.None? then s.(cancels := s.cancels - {p})
      else s.(appt := s.appt.(reference := found, updatedAt := s.now),
              cancels := s.cancels[p := s.cancels[p].(reference := found)])
    case LookUpFees(p, succeeds) =>
      if p !in s.cancels || !s.cancels[p].Refunding? || s.cancels[p].reference.None? then s
      else
        var c := s.cancels[p];
        var amount := SafeAmount(c.outcome.refundAmount, if succeeds then Some(s.fees) else None);
        s.(cancels := if amount <= 0 then s.cancels - {p}
                      else s.cancels[p := Charging(c.seen, c.key, c.outcome, amount, succeeds)])
    case CreateRefund(p, answerArrives) =>
      if p !in s.cancels || !s.cancels[p].Charging? then s
      else
        var c := s.cancels[p];
        var (refunds, answer) := Submit(s.refunds, c.key, c.amount, c.feesKnown);
        s.(refunds := refunds,
           cancels := if answer.Success? && answerArrives
                      then s.cancels[p := Updating(c.seen, FinalStatus(c.outcome), Some(answer.value))]
                      else s.cancels - {p})
    case Update(p) =>
      if p !in s.cancels || !s.cancels[p].Updating? then s
      else
        var c := s.cancels[p];
        var rest := s.cancels - {p};
        if s.appt.status !in {Confirmed, ReservedUnpaid} then s.(cancels := rest)
        else
          var refundIds := if c.refundId.Some? then c.seen.refundIds + [c.refundId.value] else s.appt.refundIds;
          s.(appt := s.appt.(status := c.status, updatedAt := s.now, refundIds := refundIds),
             cancels := rest, updates := s.updates + 1)
    case Crash(p) => s.(cancels := s.cancels - {p})
  }

  function Init(appt: Appt, fees: Fees, now: int): State {
    State(now, appt, fees, map[], map[], 0)
  }

  function Exec(s: State, actions: seq<Action>): State
    decreases |actions|
  {
    if actions == [] then s else Exec(Next(s, actions[0]), actions[1..])
  }

  // ---------------------------------------------------------- the invariant

  /** No cancel will have to look the payment reference up and record it. */
  predicate ReferenceSettled(a: Appt) {
    a.reference.Some? || !a.hasSession || !a.paidByStripe || a.status == ReservedUnpaid || IsCancelled(a.status)
  }

  ghost predicate WithinCap(fees: Fees, amount: int, feesKnown: bool) {
    amount > 0 && (feesKnown && fees.payment > 0 && fees.fee > 0 ==> amount <= fees.payment - fees.fee)
  }

  ghost predicate CancelInv(first: Appt, s: State, c: Cancel) {
    && c.seen == first && !IsCancelled(first.status)
    && (c.Refunding? ==> c.key == first.updatedAt && c.reference == first.reference
                         && first.paidByStripe && first.status != ReservedUnpaid)
    && (c.Charging? ==> c.key == first.updatedAt && WithinCap(s.fees, c.amount, c.feesKnown))
    && (c.Updating? && c.refundId.Some? ==> TheRefund(first, s, c.refundId.value))
  }

  /** The refund made under the one key has this id. */
  ghost predicate TheRefund(first: Appt, s: State, id: nat) {
    first.updatedAt in s.refunds && s.refunds[first.updatedAt].id == id
  }

  /** The appointment as the one update left it: cancelled, and listing besides
      its earlier refunds none or the one refund. */
  ghost predicate Cancelled(first: Appt, s: State) {
    && IsCancelled(s.appt.status)
    && s.appt == first.(status := s.appt.status, updatedAt := s.appt.updatedAt, refundIds := s.appt.refundIds)
    && (s.appt.refundIds == first.refundIds
        || (first.updatedAt in s.refunds && s.appt.refundIds == first.refundIds + [s.refunds[first.updatedAt].id]))
  }

  ghost predicate Inv(first: Appt, s: State) {
    && s.updates <= 1
    && (s.updates == 0 ==> s.appt == first)
    && (s.updates == 1 ==> Cancelled(first, s))
    && s.refunds.Keys <= {first.updatedAt}
    && (forall k :: k in s.refunds ==> WithinCap(s.fees, s.refunds[k].amount, s.refunds[k].feesKnown))
    && (forall p :: p in s.cancels ==> CancelInv(first, s, s.cancels[p]))
  }

  /** Removing a cancel, or moving it on, while all else stays. */
  lemma CancelsKeepInv(first: Appt, s: State, cancels: map<nat, Cancel>)
    requires Inv(first, s) && forall p :: p in cancels ==> CancelInv(first, s, cancels[p])
    ensures Inv(first, s.(cancels := cancels))
  {
  }

  lemma ReadKeepsInv(first: Appt, s: State, p: nat, outcome: Outcome)
    requires ReferenceSettled(first) && Inv(first, s)
    ensures Inv(first, Next(s, Read(p, outcome)))
  {
    CancelsKeepInv(first, s, Next(s, Read(p, outcome)).cancels);
  }

  lemma LookUpFeesKeepsInv(first: Appt, s: State, p: nat, succeeds: bool)
    requires Inv(first, s)
    ensures Inv(first, Next(s, LookUpFees(p, succeeds)))
  {
  }

  lemma FindReferenceKeepsInv(first: Appt, s: State, p: nat, found: Option<Reference>)
    requires ReferenceSettled(first) && Inv(first, s)
    ensures Inv(first, Next(s, FindReference(p, found)))
  {
  }

  /** Stripe's store after a submission under the one key: what was there is
      still there, and what the answer names is. */
  lemma SubmitKeepsInv(first: Appt, s: State, amount: int, feesKnown: bool)
    requires Inv(first, s) && WithinCap(s.fees, amount, feesKnown)
    ensures var (refunds, answer) := Submit(s.refunds, first.updatedAt, amount, feesKnown);
            && Inv(first, s.(refunds := refunds))
            && (answer.Success? ==> TheRefund(first, s.(refunds := refunds), answer.value))
  {
  }

  lemma CreateRefundKeepsInv(first: Appt, s: State, p: nat, answerArrives: bool)
    requires Inv(first, s)
    ensures Inv(first, Next(s, CreateRefund(p, answerArrives)))
  {
    if p in s.cancels && s.cancels[p].Charging? {
      var c := s.cancels[p];
      assert CancelInv(first, s, c);
      SubmitKeepsInv(first, s, c.amount, c.feesKnown);
      var (refunds, answer) := Submit(s.refunds, c.key, c.amount, c.feesKnown);
      CancelsKeepInv(first, s.(refunds := refunds), Next(s, CreateRefund(p, answerArrives)).cancels);
    }
  }

  lemma UpdateKeepsInv(first: Appt, s: State, p: nat)
    requires Inv(first, s)
    ensures Inv(first, Next(s, Update(p)))
  {
  }

  lemma StepKeepsInv(first: Appt, s: State, a: Action)
    requires ReferenceSettled(first) && Inv(first, s)
    ensures Inv(first, Next(s, a)) && Next(s, a).fees == s.fees
  {
    match a
    case Tick(elapsed) =>
      var after := Next(s, a);
      forall p | p in after.cancels ensures CancelInv(first, after, after.cancels[p]) {
        assert CancelInv(first, s, s.cancels[p]);
      }
    case Read(p, outcome) => ReadKeepsInv(first, s, p, outcome);
    case FindReference(p, found) => FindReferenceKeepsInv(first, s, p, found);
    case LookUpFees(p, succeeds) => LookUpFeesKeepsInv(first, s, p, succeeds);
    case CreateRefund(p, answerArrives) => CreateRefundKeepsInv(first, s, p, answerArrives);
    case Update(p) => UpdateKeepsInv(first, s, p);
    case Crash(p) => CancelsKeepInv(first, s, s.cancels - {p});
  }

  lemma {:induction false} ExecKeepsInv(first: Appt, s: State, actions: seq<Action>)
    requires ReferenceSettled(first) && Inv(first, s)
    ensures Inv(first, Exec(s, actions)) && Exec(s, actions).fees == s.fees
    decreases |actions|
  {
    if actions != [] {
      StepKeepsInv(first, s, actions[0]);
      ExecKeepsInv(first, Next(s, actions[0]), actions[1..]);
    }
  }

  /** However many cancels run, crash and are retried: one key is ever used and
      at most one refund exists, within the fee cap when the fees were looked up;
      at most one conditional update succeeds, and it cancels the appointment and
      records that refund or none. */
  lemma AtMostOneRefundAndOneUpdate(first: Appt, fees: Fees, now: int, actions: seq<Action>)
    requires ReferenceSettled(first)
    ensures var s := Exec(Init(first, fees, now), actions);
            && s.refunds.Keys <= {first.updatedAt} && |s.refunds| <= 1
            && s.updates <= 1
            && (s.updates == 0 ==> s.appt == first)
            && (s.updates == 1 ==> Cancelled(first, s))
            && (forall k :: k in s.refunds ==>
                  && s.refunds[k].amount > 0
                  && (s.refunds[k].feesKnown && fees.payment > 0 && fees.fee > 0 ==>
                        s.refunds[k].amount <= fees.payment - fees.fee))
  {
    var s := Exec(Init(first, fees, now), actions);
    ExecKeepsInv(first, Init(first, fees, now), actions);
    AtMostOneKey(s.refunds, first.updatedAt);
  }

  lemma AtMostOneKey(m: map<int, Refund>, k: int)
    requires m.Keys <= {k}
    ensures |m| <= 1
  {
    if k in m {
      assert m.Keys == {k};
    } else {
      assert m.Keys == {};
    }
    assert |m| == |m.Keys|;
  }

  lemma {:induction false} NothingAfterTheUpdate(first: Appt, s: State, actions: seq<Action>)
    requires ReferenceSettled(first) && Inv(first, s) && s.updates == 1
    ensures Exec(s, actions).appt == s.appt && Exec(s, actions).updates == 1
    decreases |actions|
  {
    if actions != [] {
      var a := actions[0];
      StepKeepsInv(first, s, a);
      if !a.Tick? && a.cancel in s.cancels {
        assert CancelInv(first, s, s.cancels[a.cancel]);
      }
      NothingAfterTheUpdate(first, Next(s, a), actions[1..]);
    }
  }

  /** Once one update has succeeded, no later step of any cancel touches the
      appointment, and a cancel that starts then ends at its first read. */
  lemma LaterCancelsChangeNothing(first: Appt, fees: Fees, now: int, done: seq<Action>, more: seq<Action>,
                                  outcome: Outcome)
    requires ReferenceSettled(first)
    requires Exec(Init(first, fees, now), done).updates > 0
    ensures var s := Exec(Init(first, fees, now), done);
            Exec(s, more).appt == s.appt && Decide(Exec(s, more).appt, outcome).None?
  {
    ExecKeepsInv(first, Init(first, fees, now), done);
    NothingAfterTheUpdate(first, Exec(Init(first, fees, now), done), more);
  }

  // ------------------------------------- the exact condition for one refund

  /** Recording a reference moves the update stamp, so a second cancel refunds
      under a second key. */
  lemma UnsettledReferenceRefundsTwice(first: Appt, fees: Fees, now: int) returns (actions: seq<Action>)
    requires !ReferenceSettled(first) && first.updatedAt <= now
    ensures |Exec(Init(first, fees, now), actions).refunds| == 2
  {
    var outcome := Outcome(1, CancelledFullRefund);
    var opening := [Tick(1), Read(0, outcome), FindReference(0, Some(PaymentIntent(0))), Read(1, outcome)];
    var refunds := [LookUpFees(0, false), LookUpFees(1, false), CreateRefund(0, true), CreateRefund(1, true)];
    var s0 := Init(first, fees, now);
    var s4 := Next(Next(Next(Next(s0, opening[0]), opening[1]), opening[2]), opening[3]);
    FourSteps(s0, opening);
    assert s4.cancels[0].key == first.updatedAt && s4.cancels[1].key == now + 1;
    TwoKeysTwoRefunds(s4, refunds);
    ExecInParts(s0, opening, refunds);
    actions := opening + refunds;
  }

  lemma TwoKeysTwoRefunds(s: State, actions: seq<Action>)
    requires s.refunds == map[] && 0 in s.cancels && 1 in s.cancels
    requires forall p :: p in {0, 1} ==>
               s.cancels[p].Refunding? && s.cancels[p].reference.Some? && s.cancels[p].outcome.refundAmount == 1
    requires s.cancels[0].key != s.cancels[1].key
    requires actions == [LookUpFees(0, false), LookUpFees(1, false), CreateRefund(0, true), CreateRefund(1, true)]
    ensures |Exec(s, actions).refunds| == 2
  {
    var s2 := Next(Next(s, actions[0]), actions[1]);
    assert s2.cancels[0].key == s.cancels[0].key && s2.cancels[1].key == s.cancels[1].key;
    var s3 := Next(s2, actions[2]);
    var s4 := Next(s3, actions[3]);
    assert s4.refunds == map[s.cancels[0].key := Refund(0, 1, false), s.cancels[1].key := Refund(1, 1, false)];
    FourSteps(s, actions);
  }

  lemma FourSteps(s: State, a: seq<Action>)
    requires |a| == 4
    ensures Exec(s, a) == Next(Next(Next(Next(s, a[0]), a[1]), a[2]), a[3])
  {
    var s1 := Next(s, a[0]);
    var s2 := Next(s1, a[1]);
    var s3 := Next(s2, a[2]);
    assert a[1..][1..] == a[2..] && a[2..][1..] == a[3..] && a[3..][1..] == [];
    assert Exec(s, a) == Exec(s1, a[1..]) == Exec(s2, a[2..]) == Exec(s3, a[3..]);
    assert Exec(s3, a[3..]) == Exec(Next(s3, a[3]), []);
  }

  lemma {:induction false} ExecInParts(s: State, a: seq<Action>, b: seq<Action>)
    ensures Exec(s, a + b) == Exec(Exec(s, a), b)
    decreases |a|
  {
    if a == [] {
      assert a + b == b;
    } else {
      ExecInParts(Next(s, a[0]), a[1..], b);
      assert (a + b)[1..] == a[1..] + b;
    }
  }

  /** At most one refund in every run, exactly when no cancel will have to look
      the reference up. */
  lemma OneRefundExactlyWhenSettled(first: Appt, fees: Fees, now: int)
    requires first.updatedAt <= now
    ensures (forall actions :: |Exec(Init(first, fees, now), actions).refunds| <= 1) <==> ReferenceSettled(first)
  {
    if ReferenceSettled(first) {
      forall actions ensures |Exec(Init(first, fees, now), actions).refunds| <= 1 {
        AtMostOneRefundAndOneUpdate(first, fees, now, actions);
      }
    } else {
      var actions := UnsettledReferenceRefundsTwice(first, fees, now);
    }
  }

  // ------------------------------------------------- one cancel, and its retry

  /** What a cancel asks of Stripe, if its fee lookup succeeds or not. */
  function Asked(fees: Fees, outcome: Outcome, succeeds: bool): int {
    SafeAmount(outcome.refundAmount, if succeeds then Some(fees) else None)
  }

  /** Paid, with its reference recorded, and neither unpaid nor cancelled. */
  predicate Chargeable(a: Appt) {
    a.status != ReservedUnpaid && !IsCancelled(a.status) && a.paidByStripe && a.reference.Some?
  }

  predicate Refundable(a: Appt) {
    a.status == Confirmed && Chargeable(a)
  }

  /** A cancel on its own refunds what its outcome says, or as much of it as the fee
      leaves when the fees are known and positive, and records the refund. */
  lemma UndisturbedCancelRefunds(first: Appt, fees: Fees, now: int, outcome: Outcome, succeeds: bool)
    requires Refundable(first) && outcome.refundAmount > 0
    requires succeeds && fees.fee > 0 ==> fees.payment <= 0 || fees.payment > fees.fee
    ensures var s := Exec(Init(first, fees, now),
                          [Read(0, outcome), LookUpFees(0, succeeds), CreateRefund(0, true), Update(0)]);
            && first.updatedAt in s.refunds
            && s.refunds == map[first.updatedAt := Refund(0, s.refunds[first.updatedAt].amount, succeeds)]
            && s.refunds[first.updatedAt].amount ==
                 (if succeeds && fees.payment > 0 && fees.fee > 0 && outcome.refundAmount > fees.payment - fees.fee
                  then fees.payment - fees.fee else outcome.refundAmount)
            && s.appt == first.(status := outcome.status, updatedAt := now, refundIds := first.refundIds + [0])
  {
    FourSteps(Init(first, fees, now), [Read(0, outcome), LookUpFees(0, succeeds), CreateRefund(0, true), Update(0)]);
  }

  /** Without a refund to make a cancel on its own only updates: an unpaid hold to no
      refund, a confirmed one to the outcome's status if that refunds outside Stripe
      and otherwise to no refund; a completed or missed visit stays. */
  lemma UndisturbedCancelUpdates(first: Appt, fees: Fees, now: int, outcome: Outcome)
    requires !IsCancelled(first.status)
    requires first.status == ReservedUnpaid || outcome.refundAmount <= 0 || !first.paidByStripe
    ensures var s := Exec(Init(first, fees, now), [Read(0, outcome), Tick(0), Tick(0), Update(0)]);
            && s.refunds == map[]
            && s.appt ==
                 if first.status == ReservedUnpaid then first.(status := CancelledNoRefund, updatedAt := now)
                 else if first.status == Confirmed then
                   first.(status := if outcome.refundAmount > 0 then outcome.status else CancelledNoRefund,
                          updatedAt := now)
                 else first
  {
    FourSteps(Init(first, fees, now), [Read(0, outcome), Tick(0), Tick(0), Update(0)]);
  }

  /** The first two steps of a cancel of a refundable appointment. */
  lemma CancelReachesStripe(s: State, p: nat, outcome: Outcome, succeeds: bool)
    requires Chargeable(s.appt) && outcome.refundAmount > 0 && Asked(s.fees, outcome, succeeds) > 0
    ensures var charging := Charging(s.appt, s.appt.updatedAt, outcome, Asked(s.fees, outcome, succeeds), succeeds);
            Next(Next(s, Read(p, outcome)), LookUpFees(p, succeeds)) == s.(cancels := s.cancels[p := charging])
  {
  }

  lemma LostAnswerLeavesTheRefund(first: Appt, fees: Fees, now: int, outcome: Outcome, succeeds: bool)
    requires Refundable(first) && outcome.refundAmount > 0 && Asked(fees, outcome, succeeds) > 0
    ensures var losing := [Read(0, outcome), LookUpFees(0, succeeds), CreateRefund(0, false), Crash(0)];
            var refunds := map[first.updatedAt := Refund(0, Asked(fees, outcome, succeeds), succeeds)];
            Exec(Init(first, fees, now), losing) == Init(first, fees, now).(refunds := refunds)
  {
    var losing := [Read(0, outcome), LookUpFees(0, succeeds), CreateRefund(0, false), Crash(0)];
    CancelReachesStripe(Init(first, fees, now), 0, outcome, succeeds);
    FourSteps(Init(first, fees, now), losing);
  }

  lemma ChargingAgainFindsTheRefund(s: State, p: nat)
    requires p in s.cancels && s.cancels[p].Charging? && s.cancels[p].key in s.refunds
    requires s.appt.status == Confirmed && s.cancels[p].outcome.refundAmount > 0
    ensures var c, made := s.cancels[p], s.refunds[s.cancels[p].key];
            var end := Next(Next(s, CreateRefund(p, true)), Update(p));
            && end.refunds == s.refunds
            && end.appt == if c.amount == made.amount
                           then s.appt.(status := c.outcome.status, updatedAt := s.now,
                                        refundIds := c.seen.refundIds + [made.id])
                           else s.appt
  {
  }

  /** What a retry leaves of a refundable appointment whose refund exists. */
  function AfterRetry(s: State, retry: Outcome, again: bool): Appt
    requires s.appt.updatedAt in s.refunds
  {
    var made := s.refunds[s.appt.updatedAt];
    if retry.refundAmount <= 0 then s.appt.(status := CancelledNoRefund, updatedAt := s.now)
    else if Asked(s.fees, retry, again) == made.amount then
      s.appt.(status := retry.status, updatedAt := s.now, refundIds := s.appt.refundIds + [made.id])
    else s.appt
  }

  function RetryActions(retry: Outcome, again: bool): seq<Action> {
    [Read(1, retry), LookUpFees(1, again), CreateRefund(1, true), Update(1)]
  }

  lemma RetryOfNothing(s: State, retry: Outcome, again: bool)
    requires Refundable(s.appt) && s.appt.updatedAt in s.refunds && retry.refundAmount <= 0
    ensures var end := Exec(s, RetryActions(retry, again));
            end.refunds == s.refunds && end.appt == AfterRetry(s, retry, again) && end.updates == s.updates + 1
  {
    var read := Next(s, Read(1, retry));
    assert read.cancels[1] == Updating(s.appt, CancelledNoRefund, None);
    FourSteps(s, RetryActions(retry, again));
  }

  lemma FeeTakesAll(s: State, p: nat, outcome: Outcome, succeeds: bool)
    requires Refundable(s.appt) && outcome.refundAmount > 0 && Asked(s.fees, outcome, succeeds) <= 0
    ensures Next(Next(s, Read(p, outcome)), LookUpFees(p, succeeds)) == s.(cancels := s.cancels - {p})
  {
  }

  lemma EndedCancelDoesNothing(s: State, p: nat)
    requires p !in s.cancels
    ensures Next(Next(s, CreateRefund(p, true)), Update(p)) == s
  {
  }

  lemma RetryWithinTheFee(s: State, retry: Outcome, again: bool)
    requires Refundable(s.appt) && s.appt.updatedAt in s.refunds && s.refunds[s.appt.updatedAt].amount > 0
    requires retry.refundAmount > 0 && Asked(s.fees, retry, again) <= 0
    ensures var end := Exec(s, RetryActions(retry, again));
            end.refunds == s.refunds && end.appt == AfterRetry(s, retry, again)
  {
    FeeTakesAll(s, 1, retry, again);
    EndedCancelDoesNothing(Next(Next(s, Read(1, retry)), LookUpFees(1, again)), 1);
    FourSteps(s, RetryActions(retry, again));
  }

  lemma RetryFindsTheRefund(s: State, retry: Outcome, again: bool)
    requires Refundable(s.appt) && s.appt.updatedAt in s.refunds
    requires retry.refundAmount > 0 && Asked(s.fees, retry, again) > 0
    ensures var end := Exec(s, RetryActions(retry, again));
            end.refunds == s.refunds && end.appt == AfterRetry(s, retry, again)
  {
    CancelReachesStripe(s, 1, retry, again);
    ChargingAgainFindsTheRefund(Next(Next(s, Read(1, retry)), LookUpFees(1, again)), 1);
    FourSteps(s, RetryActions(retry, again));
  }

  /** A refund was made and its answer lost, or the cancel died waiting for it.
      No retry makes another. A retry that finds nothing to refund any more
      cancels the appointment without recording the refund; one that asks for the
      same amount cancels it and records the refund; any other is turned down and
      leaves it as it was. */
  lemma RetryAfterALostAnswer(first: Appt, fees: Fees, now: int, outcome: Outcome, succeeds: bool,
                              retry: Outcome, again: bool)
    requires Refundable(first)
    requires outcome.refundAmount > 0 && Asked(fees, outcome, succeeds) > 0
    ensures var amount := Asked(fees, outcome, succeeds);
            var lost := Exec(Init(first, fees, now),
                             [Read(0, outcome), LookUpFees(0, succeeds), CreateRefund(0, false), Crash(0)]);
            var s := Exec(lost, [Read(1, retry), LookUpFees(1, again), CreateRefund(1, true), Update(1)]);
            && s.refunds == map[first.updatedAt := Refund(0, amount, succeeds)]
            && s.appt == if retry.refundAmount <= 0 then first.(status := CancelledNoRefund, updatedAt := now)
                         else if Asked(fees, retry, again) == amount
                         then first.(status := retry.status, updatedAt := now, refundIds := first.refundIds + [0])
                         else first
  {
    LostAnswerLeavesTheRefund(first, fees, now, outcome, succeeds);
    var refunds := map[first.updatedAt := Refund(0, Asked(fees, outcome, succeeds), succeeds)];
    var lost := Init(first, fees, now).(refunds := refunds);
    if retry.refundAmount <= 0 {
      RetryOfNothing(lost, retry, again);
    } else if Asked(fees, retry, again) <= 0 {
      RetryWithinTheFee(lost, retry, again);
    } else {
      RetryFindsTheRefund(lost, retry, again);
    }
  }

  // ------------------------------------------- when the refund is on the record

  /** Every read's outcome is one the policy can produce. */
  ghost predicate OutcomesFrom(actions: seq<Action>, policy: iset<Outcome>) {
    forall a :: a in actions && a.Read? ==> a.outcome in policy
  }

  /** If the appointment was updated and a refund exists, the update recorded it. */
  ghost predicate Recorded(first: Appt, s: State) {
    s.updates == 1 && s.refunds != map[] ==>
      first.updatedAt in s.refunds && s.appt.refundIds == first.refundIds + [s.refunds[first.updatedAt].id]
  }

  /** Every cancel at its update carries the refund, and so did the one update. */
  ghost predicate AllRefund(first: Appt, s: State) {
    && Inv(first, s)
    && (forall p :: p in s.cancels && s.cancels[p].Updating? ==> s.cancels[p].refundId.Some?)
    && (s.updates == 1 ==>
          first.updatedAt in s.refunds && s.appt.refundIds == first.refundIds + [s.refunds[first.updatedAt].id])
  }

  /** No cancel is on its way to Stripe, and no refund exists. */
  ghost predicate NoneRefund(first: Appt, s: State) {
    && Inv(first, s)
    && (forall p :: p in s.cancels ==> s.cancels[p].Updating?)
    && s.refunds == map[]
  }

  lemma StepKeepsNoneRefund(first: Appt, s: State, a: Action)
    requires Chargeable(first) && NoneRefund(first, s) && (a.Read? ==> a.outcome.refundAmount <= 0)
    ensures NoneRefund(first, Next(s, a))
  {
    StepKeepsInv(first, s, a);
  }

  lemma UpdateKeepsAllRefund(first: Appt, s: State, p: nat)
    requires Refundable(first) && AllRefund(first, s)
    ensures AllRefund(first, Next(s, Update(p)))
  {
  }

  lemma CreateRefundKeepsAllRefund(first: Appt, s: State, p: nat, answerArrives: bool)
    requires Refundable(first) && AllRefund(first, s)
    ensures AllRefund(first, Next(s, CreateRefund(p, answerArrives)))
  {
    CreateRefundKeepsInv(first, s, p, answerArrives);
    if p in s.cancels && s.cancels[p].Charging? {
      assert CancelInv(first, s, s.cancels[p]);
    }
  }

  lemma StepKeepsAllRefund(first: Appt, s: State, a: Action)
    requires Refundable(first) && AllRefund(first, s) && (a.Read? ==> a.outcome.refundAmount > 0)
    ensures AllRefund(first, Next(s, a))
  {
    match a
    case Update(p) => UpdateKeepsAllRefund(first, s, p);
    case CreateRefund(p, answerArrives) => CreateRefundKeepsAllRefund(first, s, p, answerArrives);
    case _ => StepKeepsInv(first, s, a);
  }

  lemma {:induction false} ExecKeepsNoneRefund(first: Appt, s: State, actions: seq<Action>)
    requires Chargeable(first) && NoneRefund(first, s)
    requires forall a :: a in actions && a.Read? ==> a.outcome.refundAmount <= 0
    ensures NoneRefund(first, Exec(s, actions))
    decreases |actions|
  {
    if actions != [] {
      assert actions[0] in actions;
      StepKeepsNoneRefund(first, s, actions[0]);
      ExecKeepsNoneRefund(first, Next(s, actions[0]), actions[1..]);
    }
  }

  lemma {:induction false} ExecKeepsAllRefund(first: Appt, s: State, actions: seq<Action>)
    requires Refundable(first) && AllRefund(first, s)
    requires forall a :: a in actions && a.Read? ==> a.outcome.refundAmount > 0
    ensures AllRefund(first, Exec(s, actions))
    decreases |actions|
  {
    if actions != [] {
      assert actions[0] in actions;
      StepKeepsAllRefund(first, s, actions[0]);
      ExecKeepsAllRefund(first, Next(s, actions[0]), actions[1..]);
    }
  }

  lemma MixedOutcomesLoseTheRefund(first: Appt, fees: Fees, now: int, some: Outcome, none: Outcome)
    returns (actions: seq<Action>)
    requires Refundable(first) && some.refundAmount > 0 && none.refundAmount <= 0
    ensures OutcomesFrom(actions, iset{some, none}) && !Recorded(first, Exec(Init(first, fees, now), actions))
  {
    var losing := [Read(0, some), LookUpFees(0, false), CreateRefund(0, false), Crash(0)];
    actions := losing + RetryActions(none, false);
    ExecInParts(Init(first, fees, now), losing, RetryActions(none, false));
    LostAnswerLeavesTheRefund(first, fees, now, some, false);
    RetryOfNothing(Exec(Init(first, fees, now), losing), none, false);
  }

  /** In every run whose outcomes the policy allows, an update that finds a refund
      made records it, exactly when the policy does not both refund something at
      one time and nothing at another. */
  lemma RefundIsRecordedExactlyWhen(first: Appt, fees: Fees, now: int, policy: iset<Outcome>)
    requires Refundable(first)
    ensures (forall actions :: OutcomesFrom(actions, policy) ==> Recorded(first, Exec(Init(first, fees, now), actions)))
       <==> (forall o :: o in policy ==> o.refundAmount > 0) || (forall o :: o in policy ==> o.refundAmount <= 0)
  {
    if some, none :| some in policy && none in policy && some.refundAmount > 0 && none.refundAmount <= 0 {
      var actions := MixedOutcomesLoseTheRefund(first, fees, now, some, none);
    } else {
      forall actions | OutcomesFrom(actions, policy)
        ensures Recorded(first, Exec(Init(first, fees, now), actions))
      {
        if forall o :: o in policy ==> o.refundAmount > 0 {
          ExecKeepsAllRefund(first, Init(first, fees, now), actions);
        } else {
          ExecKeepsNoneRefund(first, Init(first, fees, now), actions);
        }
      }
    }
  }

  // --------------------------------------------------- completed and missed visits

  lemma {:induction false} OverStaysOver(first: Appt, s: State, actions: seq<Action>)
    requires ReferenceSettled(first) && (first.status == Completed || first.status == NoShow)
    requires Inv(first, s) && s.updates == 0
    ensures Exec(s, actions).updates == 0 && Exec(s, actions).appt == first
    decreases |actions|
  {
    if actions != [] {
      StepKeepsInv(first, s, actions[0]);
      if !actions[0].Tick? && actions[0].cancel in s.cancels {
        assert CancelInv(first, s, s.cancels[actions[0].cancel]);
      }
      OverStaysOver(first, Next(s, actions[0]), actions[1..]);
    }
  }

  /** A cancel of a completed or missed visit refunds like any other and then never
      updates it: in no run is a refund recorded, and one is made in some run
      exactly when the policy can refund something. */
  lemma OverIsRefundedUnrecorded(first: Appt, fees: Fees, now: int, policy: iset<Outcome>)
    requires first.status == Completed || first.status == NoShow
    requires first.paidByStripe && first.reference.Some?
    ensures forall actions :: Exec(Init(first, fees, now), actions).appt == first
    ensures (exists actions :: OutcomesFrom(actions, policy) && Exec(Init(first, fees, now), actions).refunds != map[])
       <==> exists o :: o in policy && o.refundAmount > 0
  {
    var s0 := Init(first, fees, now);
    forall actions ensures Exec(s0, actions).appt == first {
      OverStaysOver(first, s0, actions);
    }
    if o :| o in policy && o.refundAmount > 0 {
      var actions := [Read(0, o), LookUpFees(0, false), CreateRefund(0, true), Update(0)];
      CancelReachesStripe(s0, 0, o, false);
      FourSteps(s0, actions);
      assert first.updatedAt in Exec(s0, actions).refunds;
    } else {
      forall actions | OutcomesFrom(actions, policy) ensures Exec(s0, actions).refunds == map[] {
        ExecKeepsNoneRefund(first, s0, actions);
      }
    }
  }

  // ------------------------------------------------------- the Stripe client

  /** Stripe's store of refunds, as the refund helper drives it. */
  class StripeAccount {
    var refunds: map<int, Refund>

    method CreateRefund(key: int, amount: int, feesKnown: bool) returns (r: Result<nat, Error>)
      modifies this
      ensures (refunds, r) == Submit(old(refunds), key, amount, feesKnown)
    {
      if key in refunds {
        return if refunds[key].amount == amount then Success(refunds[key].id) else Failure(KeyReused);
      }
      r := Success(|refunds|);
      refunds := refunds[key := Refund(|refunds|, amount, feesKnown)];
    }

    /** `lookup` is what retrieving the payment reported, if it succeeded. */
    method RefundPayment(reference: Option<Reference>, amount: int, key: int, lookup: Option<Fees>)
      returns (r: Result<nat, Error>)
      modifies this
      ensures amount <= 0 ==> r == Failure(InvalidAmount) && refunds == old(refunds)
      ensures reference.None? ==> r.Failure? && refunds == old(refunds)
      ensures forall k :: k in old(refunds) ==> k in refunds && refunds[k] == old(refunds[k])
      ensures forall k :: k in refunds && k !in old(refunds) ==>
                k == key && 0 < refunds[k].amount <= amount
                && (lookup.Some? && lookup.value.payment > 0 && lookup.value.fee > 0 ==>
                      refunds[k].amount <= lookup.value.payment - lookup.value.fee)
      ensures r.Success? ==> key in refunds && refunds[key].id == r.value
      ensures amount > 0 && reference.Some? && key !in old(refunds)
              && (Capped(lookup) ==> amount <= lookup.value.payment - lookup.value.fee) ==>
                r.Success? && refunds[key].amount == amount
      ensures amount > 0 && reference.Some? && SafeAmount(amount, lookup) > 0 ==>
                (refunds, r) == Submit(old(refunds), key, SafeAmount(amount, lookup), lookup.Some?)
    {
      if amount <= 0 {
        return Failure(InvalidAmount);
      }
      var safeAmount := amount;
      if reference.Some? && lookup.Some? && lookup.value.payment > 0 && lookup.value.fee > 0 {
        var cap := lookup.value.payment - lookup.value.fee;
        if cap < 0 {
          cap := 0;
        }
        if cap < safeAmount {
          safeAmount := cap;
        }
      }
      if safeAmount <= 0 {
        return Failure(NothingAfterFee);
      }
      if reference.None? {
        return Failure(NoReference);
      }
      r := CreateRefund(key, safeAmount, lookup.Some?);
    }
  }
}
