/** The gift-card document and its ledger methods.

    Money is integer pence and time is integer milliseconds, so rounding to two
    decimals is the identity. A method that consults the clock several times
    receives every reading it takes, in order, because the clock moves between
    them. */
module GiftCards {
  import opened Wrappers

  type Id = nat

  datatype Status = Pending | Sent | Redeemed | Expired | Cancelled

  datatype Hold = Hold(appointment: Id, amount: int, expiresAt: int)

  datatype Card = Card(
    amount: nat,
    redeemed: int,
    reserved: int,
    holds: seq<Hold>,
    status: Status,
    expiryDate: int,
    redeemedBy: Option<Id>,
    appointment: Option<Id>,
    sentDate: Option<int>,
    redeemedDate: Option<int>)

  /** One ledger method together with its arguments. */
  datatype Op =
    | MarkAsSent
    | Redeem(amount: int, client: Id, appointment: Id)
    | Reserve(appointment: Id, amount: int, holdMinutes: int)
    | Release(appointment: Id)
    | Consume(appointment: Id, amount: int, client: Id)

  datatype Error =
    | NotValid
    | InsufficientBalance(remaining: int)
    | InvalidAmount
    | NoReservation
    | AmountMismatch

  /** The clock as one method run sees it: the reading of the cleanup, of the
      validity test, of the balance, and of the final date stamp. */
  datatype Reads = Reads(cleanup: int, valid: int, balance: int, stamp: int) {
    ghost predicate Ordered() { cleanup <= valid <= balance <= stamp }
  }

  // ---------------------------------------------------------------- holds

  function Live(holds: seq<Hold>, at: int): (r: seq<Hold>)
    ensures forall h :: h in r <==> h in holds && h.expiresAt > at
  {
    if holds == [] then []
    else if holds[0].expiresAt > at then [holds[0]] + Live(holds[1..], at)
    else Live(holds[1..], at)
  }

  function Sum(holds: seq<Hold>): int {
    if holds == [] then 0 else holds[0].amount + Sum(holds[1..])
  }

  /** What the holds still block at one instant. */
  function Held(holds: seq<Hold>, at: int): int {
    if holds == [] then 0
    else (if holds[0].expiresAt <= at then 0 else holds[0].amount) + Held(holds[1..], at)
  }

  function Find(holds: seq<Hold>, appointment: Id): (r: Option<Hold>)
    ensures r.Some? ==> r.value in holds && r.value.appointment == appointment
    ensures r.None? ==> forall h :: h in holds ==> h.appointment != appointment
  {
    if holds == [] then None
    else if holds[0].appointment == appointment then Some(holds[0])
    else Find(holds[1..], appointment)
  }

  function Without(holds: seq<Hold>, appointment: Id): (r: seq<Hold>)
    ensures forall h :: h in r <==> h in holds && h.appointment != appointment
  {
    if holds == [] then []
    else if holds[0].appointment == appointment then Without(holds[1..], appointment)
    else [holds[0]] + Without(holds[1..], appointment)
  }

  /** The list with the appointment's hold rewritten where it stands, or pushed
      at the end when there is none. */
  function Put(holds: seq<Hold>, hold: Hold): seq<Hold> {
    if holds == [] then [hold]
    else if holds[0].appointment == hold.appointment then [hold] + holds[1..]
    else [holds[0]] + Put(holds[1..], hold)
  }

  // -------------------------------------------------- the ledger operations

  function RemainingBalance(c: Card, at: int): (r: int)
    ensures r >= 0 && r >= c.amount - c.redeemed - Held(c.holds, at)
    ensures r == 0 || r == c.amount - c.redeemed - Held(c.holds, at)
  {
    var remaining := c.amount - c.redeemed - Held(c.holds, at);
    if remaining < 0 then 0 else remaining
  }

  predicate IsValid(c: Card, at: int) {
    c.status == Sent && c.expiryDate > at && c.redeemed < c.amount
  }

  function Cleaned(c: Card, at: int): Card {
    var live := Live(c.holds, at);
    c.(holds := live, reserved := Sum(live))
  }

  function Spend(c: Card, amount: int, client: Id, appointment: Id, at: int): Card {
    var spent := c.(redeemed := c.redeemed + amount, redeemedBy := Some(client), appointment := Some(appointment));
    if spent.redeemed >= c.amount then spent.(status := Redeemed, redeemedDate := Some(at)) else spent
  }

  /** Why the method throws, if it does; `c` is the card as it was loaded. */
  function Refusal(c: Card, op: Op, t: Reads): Option<Error> {
    var cleaned := Cleaned(c, t.cleanup);
    match op
    case MarkAsSent => None
    case Redeem(amount, _, _) =>
      var remaining := RemainingBalance(cleaned, t.balance);
      if !IsValid(cleaned, t.valid) then Some(NotValid)
      else if amount > remaining then Some(InsufficientBalance(remaining)) else None
    case Reserve(_, amount, _) =>
      var remaining := RemainingBalance(cleaned, t.balance);
      if amount <= 0 then Some(InvalidAmount)
      else if amount > remaining then Some(InsufficientBalance(remaining)) else None
    case Release(_) => None
    case Consume(appointment, amount, _) =>
      var found := Find(cleaned.holds, appointment);
      if amount <= 0 then Some(InvalidAmount)
      else if found.None? then Some(NoReservation)
      else if found.value.amount != amount then Some(AmountMismatch) else None
  }

  /** The reservation a successful reserve leaves behind. */
  function HoldOf(op: Op, t: Reads): Hold
    requires op.Reserve?
  {
    Hold(op.appointment, op.amount, t.stamp + op.holdMinutes * 60 * 1000)
  }

  /** The card a successful run saves. */
  function Effect(c: Card, op: Op, t: Reads): Card {
    var cleaned := Cleaned(c, t.cleanup);
    match op
    case MarkAsSent => c.(status := Sent, sentDate := Some(t.stamp))
    case Redeem(amount, client, appointment) => Spend(cleaned, amount, client, appointment, t.stamp)
    case Reserve(_, _, _) =>
      var holds := Put(cleaned.holds, HoldOf(op, t));
      cleaned.(holds := holds, reserved := Sum(holds))
    case Release(appointment) =>
      var holds := Without(cleaned.holds, appointment);
      cleaned.(holds := holds, reserved := Sum(holds))
    case Consume(appointment, amount, client) =>
      var holds := Without(cleaned.holds, appointment);
      Spend(cleaned.(holds := holds, reserved := Sum(holds)), amount, client, appointment, t.stamp)
  }

  // ------------------------------------------------------------ soundness

  ghost predicate Distinct(holds: seq<Hold>) {
    forall i, j :: 0 <= i < j < |holds| ==> holds[i].appointment != holds[j].appointment
  }

  ghost predicate Positive(holds: seq<Hold>) {
    forall h :: h in holds ==> h.amount > 0
  }

  ghost predicate WellFormed(c: Card) {
    && Distinct(c.holds)
    && Positive(c.holds)
    && c.reserved == Sum(c.holds)
    && (c.status == Redeemed ==> c.redeemed == c.amount)
  }

  ghost predicate NeverOverspent(c: Card, at: int) {
    c.redeemed + Held(c.holds, at) <= c.amount
  }

  lemma {:induction false} HeldShrinks(holds: seq<Hold>, at: int, later: int)
    requires Positive(holds) && at <= later
    ensures 0 <= Held(holds, later) <= Held(holds, at)
  {
    if holds != [] {
      assert holds[0] in holds;
      assert Positive(holds[1..]);
      HeldShrinks(holds[1..], at, later);
    }
  }

  /** Dropping holds that have lapsed does not change what is held from then on. */
  lemma {:induction false} CleanupKeepsHeld(holds: seq<Hold>, at: int, later: int)
    requires at <= later
    ensures Held(Live(holds, at), later) == Held(holds, later)
  {
    if holds != [] {
      CleanupKeepsHeld(holds[1..], at, later);
      var rest := Live(holds[1..], at);
      assert ([holds[0]] + rest)[1..] == rest;
    }
  }

  lemma {:induction false} LiveIsDistinct(holds: seq<Hold>, at: int)
    requires Distinct(holds)
    ensures Distinct(Live(holds, at))
  {
    if holds != [] {
      LiveIsDistinct(holds[1..], at);
      DistinctFromTail(holds);
    }
  }

  lemma DistinctFromTail(holds: seq<Hold>)
    requires Distinct(holds) && holds != []
    ensures Distinct(holds[1..])
    ensures forall h :: h in holds[1..] ==> h.appointment != holds[0].appointment
  {
  }

  /** Removing an appointment's hold frees exactly what that hold was blocking. */
  lemma {:induction false} WithoutFrees(holds: seq<Hold>, appointment: Id, at: int)
    requires Distinct(holds)
    ensures Distinct(Without(holds, appointment))
    ensures var found := Find(holds, appointment);
            Held(holds, at) == Held(Without(holds, appointment), at) +
                               (if found.Some? && found.value.expiresAt > at then found.value.amount else 0)
  {
    if holds != [] {
      DistinctFromTail(holds);
      WithoutFrees(holds[1..], appointment, at);
      var rest := Without(holds[1..], appointment);
      assert ([holds[0]] + rest)[1..] == rest;
      if holds[0].appointment == appointment {
        AbsentIsKept(holds[1..], appointment);
      }
    }
  }

  lemma {:induction false} AbsentIsKept(holds: seq<Hold>, appointment: Id)
    requires forall h :: h in holds ==> h.appointment != appointment
    ensures Without(holds, appointment) == holds
  {
    if holds != [] {
      assert holds[0] in holds;
      AbsentIsKept(holds[1..], appointment);
    }
  }

  lemma {:induction false} PutMembers(holds: seq<Hold>, hold: Hold)
    ensures hold in Put(holds, hold)
    ensures forall h :: h in Put(holds, hold) ==> h == hold || h in holds
  {
    if holds != [] {
      PutMembers(holds[1..], hold);
    }
  }

  lemma {:induction false} PutIsDistinct(holds: seq<Hold>, hold: Hold)
    requires Distinct(holds)
    ensures Distinct(Put(holds, hold))
  {
    if holds != [] {
      DistinctFromTail(holds);
      PutIsDistinct(holds[1..], hold);
      PutMembers(holds[1..], hold);
    }
  }

  /** Rewriting or pushing a hold adds at most the new amount. */
  lemma {:induction false} PutAdds(holds: seq<Hold>, hold: Hold, at: int)
    requires Positive(holds) && hold.amount > 0
    ensures Held(Put(holds, hold), at) <= Held(holds, at) + hold.amount
  {
    if holds != [] {
      assert holds[0] in holds && holds[0].amount > 0;
      assert Positive(holds[1..]);
      PutAdds(holds[1..], hold, at);
      var rest := Put(holds[1..], hold);
      assert ([holds[0]] + rest)[1..] == rest;
      assert ([hold] + holds[1..])[1..] == holds[1..];
    }
  }

  lemma CleanedIsSound(c: Card, at: int)
    requires WellFormed(c) && NeverOverspent(c, at)
    ensures WellFormed(Cleaned(c, at)) && NeverOverspent(Cleaned(c, at), at)
  {
    LiveIsDistinct(c.holds, at);
    CleanupKeepsHeld(c.holds, at, at);
  }

  lemma SpendIsSound(c: Card, amount: int, client: Id, appointment: Id, at: int, earlier: int)
    requires WellFormed(c) && earlier <= at
    requires c.status != Redeemed
    requires c.redeemed + amount + Held(c.holds, earlier) <= c.amount
    ensures var spent := Spend(c, amount, client, appointment, at);
            WellFormed(spent) && NeverOverspent(spent, at)
  {
    HeldShrinks(c.holds, earlier, at);
  }

  /** What a successful run may rely on, and what it must leave. */
  ghost predicate Runs(c: Card, op: Op, t: Reads) {
    t.Ordered() && WellFormed(c) && NeverOverspent(c, t.cleanup) && Refusal(c, op, t).None?
  }

  ghost predicate Sound(c: Card, at: int) {
    WellFormed(c) && NeverOverspent(c, at)
  }

  lemma MarkAsSentIsSound(c: Card, t: Reads)
    requires Runs(c, MarkAsSent, t)
    ensures Sound(Effect(c, MarkAsSent, t), t.stamp)
  {
    HeldShrinks(c.holds, t.cleanup, t.stamp);
  }

  lemma RedeemIsSound(c: Card, op: Op, t: Reads)
    requires op.Redeem? && Runs(c, op, t)
    ensures Sound(Effect(c, op, t), t.stamp)
  {
    var cleaned := Cleaned(c, t.cleanup);
    CleanedIsSound(c, t.cleanup);
    HeldShrinks(cleaned.holds, t.cleanup, t.balance);
    SpendIsSound(cleaned, op.amount, op.client, op.appointment, t.stamp, t.balance);
  }

  lemma PutIsSound(c: Card, hold: Hold, earlier: int, at: int)
    requires Sound(c, earlier) && earlier <= at
    requires 0 < hold.amount <= RemainingBalance(c, earlier)
    ensures var holds := Put(c.holds, hold);
            Sound(c.(holds := holds, reserved := Sum(holds)), at)
  {
    HeldShrinks(c.holds, earlier, at);
    PutAdds(c.holds, hold, at);
    PutIsDistinct(c.holds, hold);
    PutMembers(c.holds, hold);
  }

  lemma ReserveIsSound(c: Card, op: Op, t: Reads)
    requires op.Reserve? && Runs(c, op, t)
    ensures Sound(Effect(c, op, t), t.stamp)
  {
    var cleaned := Cleaned(c, t.cleanup);
    CleanedIsSound(c, t.cleanup);
    HeldShrinks(cleaned.holds, t.cleanup, t.balance);
    PutIsSound(cleaned, HoldOf(op, t), t.balance, t.stamp);
  }

  lemma ReleaseIsSound(c: Card, op: Op, t: Reads)
    requires op.Release? && Runs(c, op, t)
    ensures Sound(Effect(c, op, t), t.stamp)
  {
    var cleaned := Cleaned(c, t.cleanup);
    CleanedIsSound(c, t.cleanup);
    HeldShrinks(cleaned.holds, t.cleanup, t.stamp);
    WithoutFrees(cleaned.holds, op.appointment, t.stamp);
    var found := Find(cleaned.holds, op.appointment);
    assert found.Some? ==> found.value in cleaned.holds;
  }

  lemma ConsumeIsSound(c: Card, op: Op, t: Reads)
    requires op.Consume? && Runs(c, op, t)
    ensures Sound(Effect(c, op, t), t.stamp)
  {
    var cleaned := Cleaned(c, t.cleanup);
    CleanedIsSound(c, t.cleanup);
    WithoutFrees(cleaned.holds, op.appointment, t.cleanup);
    var holds := Without(cleaned.holds, op.appointment);
    HeldShrinks(holds, t.cleanup, t.stamp);
    SpendIsSound(cleaned.(holds := holds, reserved := Sum(holds)), op.amount, op.client, op.appointment, t.stamp,
                 t.cleanup);
  }

  /** One successful run of any ledger method keeps the card sound, however far
      the clock moves between the method's own reads. */
  lemma EffectIsSound(c: Card, op: Op, t: Reads)
    requires Runs(c, op, t)
    ensures Sound(Effect(c, op, t), t.stamp)
  {
    match op
    case MarkAsSent => MarkAsSentIsSound(c, t);
    case Redeem(_, _, _) => RedeemIsSound(c, op, t);
    case Reserve(_, _, _) => ReserveIsSound(c, op, t);
    case Release(_) => ReleaseIsSound(c, op, t);
    case Consume(_, _, _) => ConsumeIsSound(c, op, t);
  }

  /** A fully redeemed card refuses every further reserve, consume and
      redeem, whatever its status has become since. */
  lemma ExhaustedRefuses(c: Card, op: Op, t: Reads)
    requires t.Ordered() && WellFormed(c) && NeverOverspent(c, t.cleanup)
    requires c.redeemed == c.amount
    ensures Held(c.holds, t.cleanup) == 0 && Live(c.holds, t.cleanup) == []
    ensures op.Redeem? || op.Reserve? || op.Consume? ==> Refusal(c, op, t).Some?
  {
    HeldShrinks(c.holds, t.cleanup, t.cleanup);
    CleanupKeepsHeld(c.holds, t.cleanup, t.cleanup);
    var live := Live(c.holds, t.cleanup);
    if live != [] {
      assert live[0] in live;
      assert live[0].amount > 0;
      HeldShrinks(live[1..], t.cleanup, t.cleanup);
      assert false;
    }
  }

  // ------------------------------------------- when a method is accepted, in fields

  /** What is held is the sum of the live holds, which is what a cleanup stores. */
  lemma {:induction false} HeldIsTheLiveSum(holds: seq<Hold>, at: int)
    ensures Sum(Live(holds, at)) == Held(holds, at)
  {
    if holds != [] {
      HeldIsTheLiveSum(holds[1..], at);
      var rest := Live(holds[1..], at);
      assert ([holds[0]] + rest)[1..] == rest;
    }
  }

  lemma BalanceInFields(c: Card, t: Reads)
    requires t.Ordered() && Sound(c, t.cleanup)
    ensures RemainingBalance(Cleaned(c, t.cleanup), t.balance) == c.amount - c.redeemed - Held(c.holds, t.balance)
  {
    CleanupKeepsHeld(c.holds, t.cleanup, t.balance);
    HeldShrinks(c.holds, t.cleanup, t.balance);
  }

  /** A redeem is accepted exactly on a sent, unexpired, unspent card whose
      spending and live holds leave the amount; otherwise the card is not valid, or
      the error names what is left. */
  lemma RedeemIsAcceptedExactlyWhen(c: Card, amount: int, client: Id, appointment: Id, t: Reads)
    requires t.Ordered() && Sound(c, t.cleanup)
    ensures var refusal := Refusal(c, Redeem(amount, client, appointment), t);
            var usable := c.status == Sent && t.valid < c.expiryDate && c.redeemed < c.amount;
            var left := c.amount - c.redeemed - Held(c.holds, t.balance);
            && (refusal.None? <==> usable && c.redeemed + amount + Held(c.holds, t.balance) <= c.amount)
            && (refusal == Some(NotValid) <==> !usable)
            && (refusal.Some? && usable ==> refusal == Some(InsufficientBalance(left)))
  {
    BalanceInFields(c, t);
  }

  /** A reserve is accepted exactly for a positive amount that is left, whatever the
      status; its hold then lasts the minutes asked for, and is the appointment's
      only one. */
  lemma ReserveIsAcceptedExactlyWhen(c: Card, appointment: Id, amount: int, holdMinutes: int, t: Reads)
    requires t.Ordered() && Sound(c, t.cleanup)
    ensures var op := Reserve(appointment, amount, holdMinutes);
            var after := Effect(c, op, t);
            && (Refusal(c, op, t).None? <==>
                  0 < amount && c.redeemed + amount + Held(c.holds, t.balance) <= c.amount)
            && (Refusal(c, op, t) == Some(InvalidAmount) <==> amount <= 0)
            && (exists h :: h in after.holds && h.appointment == appointment)
            && (forall h :: h in after.holds && h.appointment == appointment ==>
                  h.amount == amount && h.expiresAt - t.stamp == 60000 * holdMinutes)
            && (forall h: Hold :: h.appointment != appointment ==>
                  (h in after.holds <==> h in c.holds && h.expiresAt > t.cleanup))
            && after == c.(holds := after.holds, reserved := after.reserved)
  {
    var op := Reserve(appointment, amount, holdMinutes);
    var live := Live(c.holds, t.cleanup);
    BalanceInFields(c, t);
    PutMembers(live, HoldOf(op, t));
    LiveIsDistinct(c.holds, t.cleanup);
    forall h | h in Put(live, HoldOf(op, t)) && h.appointment == appointment ensures h == HoldOf(op, t) {
      PutIsTheOnlyOne(live, HoldOf(op, t), h);
    }
    forall h | h in live && h.appointment != appointment ensures h in Put(live, HoldOf(op, t)) {
      PutKeepsOthers(live, HoldOf(op, t), h);
    }
  }

  lemma {:induction false} PutKeepsOthers(holds: seq<Hold>, hold: Hold, h: Hold)
    requires h in holds && h.appointment != hold.appointment
    ensures h in Put(holds, hold)
  {
    if h != holds[0] {
      PutKeepsOthers(holds[1..], hold, h);
    }
  }

  /** A consume is accepted exactly for the amount of a live hold of the
      appointment; without such a hold there is nothing to consume. */
  lemma ConsumeIsAcceptedExactlyWhen(c: Card, appointment: Id, amount: int, client: Id, t: Reads)
    requires WellFormed(c)
    ensures var refusal := Refusal(c, Consume(appointment, amount, client), t);
            && (refusal.None? <==>
                  exists h :: h in c.holds && h.appointment == appointment && h.amount == amount
                              && t.cleanup < h.expiresAt)
            && (refusal == Some(InvalidAmount) <==> amount <= 0)
            && (refusal == Some(NoReservation) <==>
                  0 < amount && forall h :: h in c.holds && h.appointment == appointment ==> h.expiresAt <= t.cleanup)
  {
  }

  /** Accepted spending shows in the amount redeemed and in whom and what it was
      for, and the card becomes redeemed exactly when nothing is left. */
  lemma SpendingShows(c: Card, op: Op, t: Reads)
    requires (op.Redeem? || op.Consume?) && Runs(c, op, t)
    ensures var after := Effect(c, op, t);
            && after.redeemed == c.redeemed + op.amount
            && after.redeemedBy == Some(op.client) && after.appointment == Some(op.appointment)
            && (after.status == Redeemed <==> after.redeemed == after.amount)
            && (after.status == Redeemed ==> after.redeemedDate == Some(t.stamp))
            && (after.status != Redeemed ==> after.status == c.status && after.redeemedDate == c.redeemedDate)
            && (forall h :: h in after.holds <==>
                  h in c.holds && t.cleanup < h.expiresAt && (op.Redeem? || h.appointment != op.appointment))
            && after.amount == c.amount && after.expiryDate == c.expiryDate && after.sentDate == c.sentDate
  {
    EffectIsSound(c, op, t);
    HeldShrinks(Effect(c, op, t).holds, t.stamp, t.stamp);
    if c.status == Redeemed {
      ExhaustedRefuses(c, op, t);
    }
  }

  /** Releasing drops the appointment's hold and whatever has lapsed, and marking as
      sent the status and date; nothing else changes. */
  lemma ReleasingAndSendingShow(c: Card, appointment: Id, t: Reads)
    ensures var after := Effect(c, Release(appointment), t);
            && after == c.(holds := after.holds, reserved := Sum(after.holds))
            && (forall h :: h in after.holds <==>
                  h in c.holds && t.cleanup < h.expiresAt && h.appointment != appointment)
    ensures Effect(c, MarkAsSent, t) == c.(status := Sent, sentDate := Some(t.stamp))
  {
  }

  /** The method concerns this appointment's reservation. */
  predicate Touches(op: Op, appointment: Id) {
    match op
    case Reserve(a, _, _) => a == appointment
    case Release(a) => a == appointment
    case Consume(a, _, _) => a == appointment
    case _ => false
  }

  lemma {:induction false} PutIsTheOnlyOne(holds: seq<Hold>, hold: Hold, h: Hold)
    requires Distinct(holds)
    requires h in Put(holds, hold) && h.appointment == hold.appointment
    ensures h == hold
  {
    if holds != [] {
      DistinctFromTail(holds);
      if holds[0].appointment != hold.appointment {
        PutMembers(holds[1..], hold);
        PutIsTheOnlyOne(holds[1..], hold, h);
      }
    }
  }

  /** Where a hold of the saved card came from: either this run reserved it, or
      it was there before and this run does not concern its appointment. */
  lemma HoldOrigin(c: Card, op: Op, t: Reads, hold: Hold)
    requires Distinct(c.holds) && Refusal(c, op, t).None?
    requires hold in Effect(c, op, t).holds
    ensures if op.Reserve? && op.appointment == hold.appointment then hold.amount == op.amount
            else hold in c.holds && !Touches(op, hold.appointment)
  {
    var live := Live(c.holds, t.cleanup);
    if op.Reserve? {
      LiveIsDistinct(c.holds, t.cleanup);
      PutMembers(live, HoldOf(op, t));
      if op.appointment == hold.appointment {
        PutIsTheOnlyOne(live, HoldOf(op, t), hold);
      }
    }
  }

  // ------------------------------------------------------------ round trips

  lemma {:induction false} PutIsFound(holds: seq<Hold>, hold: Hold)
    ensures Find(Put(holds, hold), hold.appointment) == Some(hold)
    ensures Without(Put(holds, hold), hold.appointment) == Without(holds, hold.appointment)
  {
    if holds != [] {
      PutIsFound(holds[1..], hold);
      var rest := Put(holds[1..], hold);
      assert ([holds[0]] + rest)[1..] == rest;
      assert ([hold] + holds[1..])[1..] == holds[1..];
    }
  }

  lemma {:induction false} LiveIsFound(holds: seq<Hold>, appointment: Id, at: int)
    requires Find(holds, appointment).Some? && Find(holds, appointment).value.expiresAt > at
    ensures Find(Live(holds, at), appointment) == Find(holds, appointment)
  {
    if holds[0].appointment != appointment {
      LiveIsFound(holds[1..], appointment, at);
    }
  }

  /** A reservation can be consumed, for exactly its amount, by any run that
      starts before it lapses. */
  lemma ReservedCanBeConsumed(c: Card, op: Op, t: Reads, amount: int, client: Id, u: Reads)
    requires op.Reserve? && Refusal(c, op, t).None?
    requires u.cleanup < HoldOf(op, t).expiresAt
    ensures var reserved, consume := Effect(c, op, t), Consume(op.appointment, amount, client);
            && (Refusal(reserved, consume, u).None? <==> amount == op.amount)
            && (amount == op.amount ==> Effect(reserved, consume, u).redeemed == c.redeemed + amount)
  {
    var holds := Put(Live(c.holds, t.cleanup), HoldOf(op, t));
    assert Effect(c, op, t).holds == holds;
    assert Find(Live(holds, u.cleanup), op.appointment) == Some(HoldOf(op, t)) by {
      PutIsFound(Live(c.holds, t.cleanup), HoldOf(op, t));
      LiveIsFound(holds, op.appointment, u.cleanup);
    }
  }

  lemma ReleasedHolds(holds: seq<Hold>, hold: Hold, at: int, later: int)
    requires at <= later
    ensures Without(Live(Put(Live(holds, at), hold), later), hold.appointment)
              == Without(Live(holds, later), hold.appointment)
  {
    var appointment := hold.appointment;
    calc {
      Without(Live(Put(Live(holds, at), hold), later), appointment);
      { LiveCommutes(Put(Live(holds, at), hold), appointment, later); }
      Live(Without(Put(Live(holds, at), hold), appointment), later);
      { PutIsFound(Live(holds, at), hold); }
      Live(Without(Live(holds, at), appointment), later);
      { LiveCommutes(holds, appointment, at); }
      Live(Live(Without(holds, appointment), at), later);
      { LiveTwice(Without(holds, appointment), at, later); }
      Live(Without(holds, appointment), later);
      { LiveCommutes(holds, appointment, later); }
      Without(Live(holds, later), appointment);
    }
  }

  /** Releasing a reservation undoes it: the card is the one that releasing
      would have left had the reservation never been made. */
  lemma ReleaseUndoesReserve(c: Card, op: Op, t: Reads, u: Reads)
    requires op.Reserve? && Refusal(c, op, t).None?
    requires t.cleanup <= u.cleanup
    ensures Effect(Effect(c, op, t), Release(op.appointment), u) == Effect(c, Release(op.appointment), u)
  {
    var holds := Put(Live(c.holds, t.cleanup), HoldOf(op, t));
    assert Effect(c, op, t).holds == holds;
    ReleasedHolds(c.holds, HoldOf(op, t), t.cleanup, u.cleanup);
  }

  lemma {:induction false} LiveCommutes(holds: seq<Hold>, appointment: Id, at: int)
    ensures Without(Live(holds, at), appointment) == Live(Without(holds, appointment), at)
  {
    if holds != [] {
      LiveCommutes(holds[1..], appointment, at);
      var live, without := Live(holds[1..], at), Without(holds[1..], appointment);
      assert ([holds[0]] + live)[1..] == live && ([holds[0]] + without)[1..] == without;
    }
  }

  lemma {:induction false} LiveTwice(holds: seq<Hold>, at: int, later: int)
    requires at <= later
    ensures Live(Live(holds, at), later) == Live(holds, later)
  {
    if holds != [] {
      LiveTwice(holds[1..], at, later);
      var live := Live(holds[1..], at);
      assert ([holds[0]] + live)[1..] == live;
    }
  }

  // ------------------------------------------------- the document in memory

  /** The document a writer has loaded: its methods update the fields in place
      and throw before or after having cleaned them. */
  class GiftCard {
    const amount: nat
    const expiryDate: int
    var redeemedAmount: int
    var reservedAmount: int
    var pendingRedemptions: seq<Hold>
    var status: Status
    var redeemedBy: Option<Id>
    var appointmentId: Option<Id>
    var sentDate: Option<int>
    var redeemedDate: Option<int>

    function View(): Card
      reads this
    {
      Card(amount, redeemedAmount, reservedAmount, pendingRedemptions, status, expiryDate,
           redeemedBy, appointmentId, sentDate, redeemedDate)
    }

    constructor (c: Card)
      ensures View() == c
    {
      amount, expiryDate := c.amount, c.expiryDate;
      redeemedAmount, reservedAmount := c.redeemed, c.reserved;
      pendingRedemptions, status := c.holds, c.status;
      redeemedBy, appointmentId := c.redeemedBy, c.appointment;
      sentDate, redeemedDate := c.sentDate, c.redeemedDate;
    }

    method CleanupExpiredReservations(now: int)
      modifies this
      ensures View() == Cleaned(old(View()), now)
    {
      pendingRedemptions := Live(pendingRedemptions, now);
      reservedAmount := Sum(pendingRedemptions);
    }

    method Save() returns (r: Result<Card, Error>)
      ensures r == Success(View())
    {
      r := Success(View());
    }

    method MarkAsSent(t: Reads) returns (r: Result<Card, Error>)
      modifies this
      ensures Refusal(old(View()), Op.MarkAsSent, t).None?
      ensures r == Success(View()) && View() == Effect(old(View()), Op.MarkAsSent, t)
    {
      status := Sent;
      sentDate := Some(t.stamp);
      r := Save();
    }

    /** The end of `redeem` and of `consumeReservation`. */
    method Charge(amount: int, client: Id, appointment: Id, now: int)
      modifies this
      ensures View() == Spend(old(View()), amount, client, appointment, now)
    {
      redeemedAmount := redeemedAmount + amount;
      redeemedBy := Some(client);
      appointmentId := Some(appointment);
      if redeemedAmount >= this.amount {
        status := Redeemed;
        redeemedDate := Some(now);
      }
    }

    method Redeem(amount: int, client: Id, appointment: Id, t: Reads) returns (r: Result<Card, Error>)
      modifies this
      ensures var op, before := Op.Redeem(amount, client, appointment), old(View());
              match Refusal(before, op, t)
              case None => r == Success(View()) && View() == Effect(before, op, t)
              case Some(e) => r == Failure(e) && View() == Cleaned(before, t.cleanup)
    {
      CleanupExpiredReservations(t.cleanup);
      if !IsValid(View(), t.valid) {
        return Failure(NotValid);
      }
      var remaining := RemainingBalance(View(), t.balance);
      if amount > remaining {
        return Failure(InsufficientBalance(remaining));
      }
      Charge(amount, client, appointment, t.stamp);
      r := Save();
    }

    /** Rewrites the appointment's hold where it stands, or pushes a new one. */
    method PutHold(hold: Hold)
      modifies `pendingRedemptions
      ensures pendingRedemptions == Put(old(pendingRedemptions), hold)
    {
      var i := 0;
      while i < |pendingRedemptions| && pendingRedemptions[i].appointment != hold.appointment
        invariant 0 <= i <= |pendingRedemptions|
        invariant pendingRedemptions == old(pendingRedemptions)
        invariant forall h :: h in pendingRedemptions[..i] ==> h.appointment != hold.appointment
      {
        i := i + 1;
      }
      PutAt(pendingRedemptions, i, hold);
      if i < |pendingRedemptions| {
        pendingRedemptions := pendingRedemptions[i := hold];
      } else {
        pendingRedemptions := pendingRedemptions + [hold];
      }
    }

    method ReserveForAppointment(appointment: Id, amount: int, t: Reads, holdMinutes: int := 30)
      returns (r: Result<Card, Error>)
      modifies this
      ensures var op, before := Op.Reserve(appointment, amount, holdMinutes), old(View());
              match Refusal(before, op, t)
              case None => r == Success(View()) && View() == Effect(before, op, t)
              case Some(e) => r == Failure(e) && View() == Cleaned(before, t.cleanup)
    {
      CleanupExpiredReservations(t.cleanup);
      if amount <= 0 {
        return Failure(InvalidAmount);
      }
      var remaining := RemainingBalance(View(), t.balance);
      if amount > remaining {
        return Failure(InsufficientBalance(remaining));
      }
      PutHold(Hold(appointment, amount, t.stamp + holdMinutes * 60 * 1000));
      reservedAmount := Sum(pendingRedemptions);
      r := Save();
    }

    method ReleaseReservation(appointment: Id, t: Reads) returns (r: Result<Card, Error>)
      modifies this
      ensures Refusal(old(View()), Op.Release(appointment), t).None?
      ensures r == Success(View()) && View() == Effect(old(View()), Op.Release(appointment), t)
    {
      CleanupExpiredReservations(t.cleanup);
      pendingRedemptions := Without(pendingRedemptions, appointment);
      reservedAmount := Sum(pendingRedemptions);
      r := Save();
    }

    method ConsumeReservation(appointment: Id, amount: int, client: Id, t: Reads) returns (r: Result<Card, Error>)
      modifies this
      ensures var op, before := Op.Consume(appointment, amount, client), old(View());
              match Refusal(before, op, t)
              case None => r == Success(View()) && View() == Effect(before, op, t)
              case Some(e) => r == Failure(e) && View() == Cleaned(before, t.cleanup)
    {
      CleanupExpiredReservations(t.cleanup);
      if amount <= 0 {
        return Failure(InvalidAmount);
      }
      var reservation := Find(pendingRedemptions, appointment);
      if reservation.None? {
        return Failure(NoReservation);
      }
      if reservation.value.amount != amount {
        return Failure(AmountMismatch);
      }
      pendingRedemptions := Without(pendingRedemptions, appointment);
      reservedAmount := Sum(pendingRedemptions);
      Charge(amount, client, appointment, t.stamp);
      r := Save();
    }
  }

  /** `Put`, seen as the index the search loop stops at. */
  lemma {:induction false} PutAt(holds: seq<Hold>, i: nat, hold: Hold)
    requires i <= |holds|
    requires forall h :: h in holds[..i] ==> h.appointment != hold.appointment
    requires i < |holds| ==> holds[i].appointment == hold.appointment
    ensures Put(holds, hold) == if i < |holds| then holds[i := hold] else holds + [hold]
  {
    if i == 0 {
      if holds != [] {
        assert [hold] + holds[1..] == holds[0 := hold];
      }
    } else {
      assert holds[0] in holds[..i];
      assert holds[1..][..i - 1] == holds[..i][1..];
      PutAt(holds[1..], i - 1, hold);
      if i < |holds| {
        assert [holds[0]] + holds[1..][i - 1 := hold] == holds[i := hold];
      } else {
        assert [holds[0]] + (holds[1..] + [hold]) == holds + [hold];
      }
    }
  }
}
