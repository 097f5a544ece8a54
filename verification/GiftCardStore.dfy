/** Any number of writers over one stored gift card under optimistic
    concurrency: a writer loads a snapshot, its method reads the clock four
    times, and the save is accepted only if nobody saved in between. */
module GiftCardStore {
  import opened Wrappers
  import opened GiftCards

  datatype Writer = Writer(snapshot: Card, version: nat, loadedAt: int, op: Op, seen: seq<int>)

  /** An accepted save: the method that ran and the clock readings it took. */
  datatype Commit = Commit(op: Op, at: Reads)

  datatype State = State(now: int, stored: Card, version: nat, writers: map<nat, Writer>, log: seq<Commit>)

  datatype Action =
    | Tick(elapsed: nat)
    | Load(writer: nat, op: Op)
    | ReadClock(writer: nat)
    | Save(writer: nat)

  /** One step of the system; an action that is not enabled changes nothing. */
  function Next(s: State, a: Action): State {
    match a
    case Tick(elapsed) => s.(now := s.now + elapsed)
    case Load(w, op) => s.(writers := s.writers[w := Writer(s.stored, s.version, s.now, op, [])])
    case ReadClock(w) =>
      if w !in s.writers || |s.writers[w].seen| >= 4 then s
      else s.(writers := s.writers[w := s.writers[w].(seen := s.writers[w].seen + [s.now])])
    case Save(w) =>
      if w !in s.writers || |s.writers[w].seen| != 4 then s
      else
        var writer := s.writers[w];
        var t := ReadsOf(writer.seen);
        var rest := s.writers - {w};
        if Refusal(writer.snapshot, writer.op, t).Some? || writer.version != s.version then
          s.(writers := rest)
        else
          s.(stored := Effect(writer.snapshot, writer.op, t), version := s.version + 1,
             writers := rest, log := s.log + [Commit(writer.op, t)])
  }

  function ReadsOf(seen: seq<int>): Reads
    requires |seen| == 4
  {
    Reads(seen[0], seen[1], seen[2], seen[3])
  }

  function Init(card: Card, now: int): State {
    State(now, card, 0, map[], [])
  }

  function Exec(s: State, actions: seq<Action>): State
    decreases |actions|
  {
    if actions == [] then s else Exec(Next(s, actions[0]), actions[1..])
  }

  /** A newly purchased card: nothing spent, nothing held. */
  ghost predicate IsNew(c: Card) {
    c.redeemed == 0 && c.reserved == 0 && c.holds == [] && c.status == Pending
  }

  // ------------------------------------------------------------- serial run

  /** The card after the logged methods, run one after another by one writer. */
  function Replay(card: Card, log: seq<Commit>): Card {
    if log == [] then card
    else Effect(Replay(card, log[..|log| - 1]), log[|log| - 1].op, log[|log| - 1].at)
  }

  function LastRead(start: int, log: seq<Commit>): int {
    if log == [] then start else log[|log| - 1].at.stamp
  }

  /** The log is a legal one-writer history: every method succeeds on the card
      its predecessors left, and reads a clock that never runs backwards. */
  ghost predicate IsSerialRun(card: Card, start: int, log: seq<Commit>) {
    log == [] ||
    (var before, last := log[..|log| - 1], log[|log| - 1];
     && IsSerialRun(card, start, before)
     && LastRead(start, before) <= last.at.cleanup
     && last.at.Ordered()
     && Refusal(Replay(card, before), last.op, last.at).None?)
  }

  lemma Extend(card: Card, start: int, log: seq<Commit>, next: Commit)
    requires IsSerialRun(card, start, log)
    requires LastRead(start, log) <= next.at.cleanup && next.at.Ordered()
    requires Refusal(Replay(card, log), next.op, next.at).None?
    ensures IsSerialRun(card, start, log + [next])
    ensures Replay(card, log + [next]) == Effect(Replay(card, log), next.op, next.at)
    ensures LastRead(start, log + [next]) == next.at.stamp
  {
  }

  // ---------------------------------------------------------- the invariant

  ghost predicate Sorted(loadedAt: int, seen: seq<int>, now: int) {
    && (forall i :: 0 <= i < |seen| ==> loadedAt <= seen[i] <= now)
    && (forall i, j :: 0 <= i < j < |seen| ==> seen[i] <= seen[j])
  }

  ghost predicate Inv(card: Card, start: int, s: State) {
    && IsSerialRun(card, start, s.log)
    && s.stored == Replay(card, s.log)
    && LastRead(start, s.log) <= s.now
    && (forall w :: w in s.writers ==> WriterInv(start, s, s.writers[w]))
  }

  ghost predicate WriterInv(start: int, s: State, w: Writer) {
    && Sorted(w.loadedAt, w.seen, s.now)
    && w.loadedAt <= s.now
    && w.version <= s.version
    && (w.version == s.version ==> w.snapshot == s.stored && LastRead(start, s.log) <= w.loadedAt)
  }

  lemma StepKeepsInv(card: Card, start: int, s: State, a: Action)
    requires Inv(card, start, s)
    ensures Inv(card, start, Next(s, a))
  {
    if a.Save? && a.writer in s.writers && |s.writers[a.writer].seen| == 4 {
      var writer := s.writers[a.writer];
      assert WriterInv(start, s, writer);
      var t := ReadsOf(writer.seen);
      if Refusal(writer.snapshot, writer.op, t).None? && writer.version == s.version {
        Extend(card, start, s.log, Commit(writer.op, t));
      }
    }
  }

  lemma {:induction false} ExecKeepsInv(card: Card, start: int, s: State, actions: seq<Action>)
    requires Inv(card, start, s)
    ensures Inv(card, start, Exec(s, actions))
    decreases |actions|
  {
    if actions != [] {
      StepKeepsInv(card, start, s, actions[0]);
      ExecKeepsInv(card, start, Next(s, actions[0]), actions[1..]);
    }
  }

  /** Every interleaving is equivalent to the serial run of its accepted saves,
      in the order they were accepted, on a clock that only moves forward. */
  lemma Serializable(card: Card, start: int, actions: seq<Action>)
    ensures var s := Exec(Init(card, start), actions);
            && s.stored == Replay(card, s.log)
            && IsSerialRun(card, start, s.log)
            && LastRead(start, s.log) <= s.now
  {
    ExecKeepsInv(card, start, Init(card, start), actions);
  }

  /** A writer letting some time pass and then reading the clock. */
  function WaitAndRead(s: State, w: nat, elapsed: nat): State {
    Next(Next(s, Tick(elapsed)), ReadClock(w))
  }

  lemma AllFourReads(s: State, w: nat, op: Op, a: nat, b: nat, c: nat, d: nat)
    ensures var half := WaitAndRead(WaitAndRead(Next(s, Load(w, op)), w, a), w, b);
            var read := WaitAndRead(WaitAndRead(half, w, c), w, d);
            var seen := [s.now + a, s.now + a + b, s.now + a + b + c, s.now + a + b + c + d];
            && w in read.writers && read.writers[w] == Writer(s.stored, s.version, s.now, op, seen)
            && read.stored == s.stored && read.version == s.version && read.log == s.log
  {
    var half := WaitAndRead(WaitAndRead(Next(s, Load(w, op)), w, a), w, b);
    assert half.writers[w].seen == [s.now + a, s.now + a + b];
  }

  /** A writer that nobody disturbs has its method's effect saved, unless the
      method refuses. */
  lemma {:induction false} UndisturbedWriterCommits(s: State, w: nat, op: Op, a: nat, b: nat, c: nat, d: nat)
    ensures var t := Reads(s.now + a, s.now + a + b, s.now + a + b + c, s.now + a + b + c + d);
            var half := WaitAndRead(WaitAndRead(Next(s, Load(w, op)), w, a), w, b);
            var end := Next(WaitAndRead(WaitAndRead(half, w, c), w, d), Save(w));
            if Refusal(s.stored, op, t).None?
            then end.stored == Effect(s.stored, op, t) && end.log == s.log + [Commit(op, t)]
            else end.stored == s.stored && end.log == s.log
  {
    AllFourReads(s, w, op, a, b, c, d);
    var half := WaitAndRead(WaitAndRead(Next(s, Load(w, op)), w, a), w, b);
    var t := Reads(s.now + a, s.now + a + b, s.now + a + b + c, s.now + a + b + c + d);
    SaveOfTheLatest(WaitAndRead(WaitAndRead(half, w, c), w, d), w, s.stored, op, t);
  }

  lemma SaveOfTheLatest(s: State, w: nat, card: Card, op: Op, t: Reads)
    requires w in s.writers && |s.writers[w].seen| == 4 && s.writers[w].version == s.version
    requires s.writers[w].snapshot == card && s.writers[w].op == op && ReadsOf(s.writers[w].seen) == t
    ensures var end := Next(s, Save(w));
            if Refusal(card, op, t).None?
            then end.stored == Effect(card, op, t) && end.log == s.log + [Commit(op, t)]
            else end.stored == s.stored && end.log == s.log
  {
  }

  // ----------------------------------------------------------- never overspent

  lemma {:induction false} SerialRunIsSound(card: Card, start: int, log: seq<Commit>)
    requires IsNew(card) && IsSerialRun(card, start, log)
    ensures WellFormed(Replay(card, log))
    ensures NeverOverspent(Replay(card, log), LastRead(start, log))
  {
    if log != [] {
      var before, last := log[..|log| - 1], log[|log| - 1];
      SerialRunIsSound(card, start, before);
      var c := Replay(card, before);
      HeldShrinks(c.holds, LastRead(start, before), last.at.cleanup);
      EffectIsSound(c, last.op, last.at);
    }
  }

  /** In every interleaving, at every moment: what is spent plus what is held is
      covered by the card, the pending holds are well formed and exactly summed,
      and a card marked redeemed is spent to the last penny with no live hold. */
  lemma NeverOverspentInAnyInterleaving(card: Card, start: int, actions: seq<Action>)
    requires IsNew(card)
    ensures var s := Exec(Init(card, start), actions);
            && s.stored.redeemed + Held(s.stored.holds, s.now) <= s.stored.amount == card.amount
            && Distinct(s.stored.holds) && Positive(s.stored.holds)
            && s.stored.reserved == Sum(s.stored.holds)
            && (s.stored.status == Redeemed ==>
                  s.stored.redeemed == s.stored.amount && Live(s.stored.holds, s.now) == [])
  {
    var s := Exec(Init(card, start), actions);
    Serializable(card, start, actions);
    SerialRunIsSound(card, start, s.log);
    HeldShrinks(s.stored.holds, LastRead(start, s.log), s.now);
    AmountNeverChanges(card, s.log);
    if s.stored.redeemed == s.stored.amount {
      ExhaustedRefuses(s.stored, MarkAsSent, Reads(s.now, s.now, s.now, s.now));
    }
  }

  lemma {:induction false} AmountNeverChanges(card: Card, log: seq<Commit>)
    ensures Replay(card, log).amount == card.amount
  {
    if log != [] {
      AmountNeverChanges(card, log[..|log| - 1]);
    }
  }

  predicate Spends(op: Op) {
    op.Redeem? || op.Reserve? || op.Consume?
  }

  ghost predicate SpentInFull(card: Card, start: int, s: State) {
    Inv(card, start, s) && s.stored.redeemed == s.stored.amount
  }

  /** One step keeps the card spent in full, and logs nothing or a method that
      spends nothing. */
  lemma StepKeepsSpentInFull(card: Card, start: int, s: State, a: Action)
    requires IsNew(card) && SpentInFull(card, start, s)
    ensures SpentInFull(card, start, Next(s, a))
    ensures var log := Next(s, a).log;
            log == s.log || (|log| == |s.log| + 1 && log[..|s.log|] == s.log && !Spends(log[|s.log|].op))
  {
    StepKeepsInv(card, start, s, a);
    if a.Save? && a.writer in s.writers && |s.writers[a.writer].seen| == 4 {
      var writer := s.writers[a.writer];
      assert WriterInv(start, s, writer);
      if writer.version == s.version {
        var t := ReadsOf(writer.seen);
        SerialRunIsSound(card, start, s.log);
        HeldShrinks(s.stored.holds, LastRead(start, s.log), t.cleanup);
        ExhaustedRefuses(s.stored, writer.op, t);
      }
    }
  }

  lemma {:induction false} ExecKeepsSpentInFull(card: Card, start: int, s: State, actions: seq<Action>)
    requires IsNew(card) && SpentInFull(card, start, s)
    ensures var e := Exec(s, actions);
            && SpentInFull(card, start, e)
            && |s.log| <= |e.log| && e.log[..|s.log|] == s.log
            && (forall k :: |s.log| <= k < |e.log| ==> !Spends(e.log[k].op))
    decreases |actions|
  {
    if actions != [] {
      var next := Next(s, actions[0]);
      StepKeepsSpentInFull(card, start, s, actions[0]);
      var end := Exec(next, actions[1..]);
      ExecKeepsSpentInFull(card, start, next, actions[1..]);
      LogsJoin(s.log, next.log, end.log);
      assert Exec(s, actions) == end;
    }
  }

  lemma LogsJoin(first: seq<Commit>, second: seq<Commit>, third: seq<Commit>)
    requires |first| <= |second| <= |third| && second[..|first|] == first && third[..|second|] == second
    ensures third[..|first|] == first
    ensures forall k :: 0 <= k < |second| ==> third[k] == second[k]
  {
  }

  /** Once the stored card is redeemed, or spent in full, it stays spent in full in
      every continuation, whatever the writers, and no redeem, reserve or consume
      is accepted any more. */
  lemma NothingLeftToSpend(card: Card, start: int, done: seq<Action>, more: seq<Action>)
    requires IsNew(card)
    requires var s := Exec(Init(card, start), done);
             s.stored.status == Redeemed || s.stored.redeemed == s.stored.amount
    ensures var s := Exec(Init(card, start), done);
            var e := Exec(s, more);
            && e.stored.redeemed == e.stored.amount
            && |s.log| <= |e.log| && e.log[..|s.log|] == s.log
            && (forall k :: |s.log| <= k < |e.log| ==> !Spends(e.log[k].op))
  {
    ExecKeepsInv(card, start, Init(card, start), done);
    NeverOverspentInAnyInterleaving(card, start, done);
    ExecKeepsSpentInFull(card, start, Exec(Init(card, start), done), more);
  }

  // ------------------------------------------------------- the simple ledger

  function Spent(log: seq<Commit>): int {
    if log == [] then 0
    else Spent(log[..|log| - 1]) +
         match log[|log| - 1].op
         case Redeem(amount, _, _) => amount
         case Consume(_, amount, _) => amount
         case _ => 0
  }

  /** Entry i reserved `amount` for the appointment, and up to entry n nothing
      has re-reserved, released or consumed it. */
  ghost predicate OpenReserve(log: seq<Commit>, i: int, n: int, appointment: Id, amount: int) {
    && 0 <= i < n <= |log|
    && log[i].op.Reserve? && log[i].op.appointment == appointment && log[i].op.amount == amount
    && (forall k :: i < k < n ==> !Touches(log[k].op, appointment))
  }

  lemma {:induction false} HoldIsBacked(card: Card, start: int, log: seq<Commit>, hold: Hold) returns (i: nat)
    requires IsNew(card) && IsSerialRun(card, start, log)
    requires hold in Replay(card, log).holds
    ensures OpenReserve(log, i, |log|, hold.appointment, hold.amount)
  {
    var n := |log| - 1;
    var before, last := log[..n], log[n];
    SerialRunIsSound(card, start, before);
    HoldOrigin(Replay(card, before), last.op, last.at, hold);
    if last.op.Reserve? && last.op.appointment == hold.appointment {
      i := n;
    } else {
      i := HoldIsBacked(card, start, before, hold);
      StaysOpen(log, i, hold.appointment, hold.amount);
    }
  }

  lemma StaysOpen(log: seq<Commit>, i: nat, appointment: Id, amount: int)
    requires log != [] && OpenReserve(log[..|log| - 1], i, |log| - 1, appointment, amount)
    requires !Touches(log[|log| - 1].op, appointment)
    ensures OpenReserve(log, i, |log|, appointment, amount)
  {
  }

  lemma {:induction false} LedgerTotal(card: Card, start: int, log: seq<Commit>)
    requires IsNew(card) && IsSerialRun(card, start, log)
    ensures Replay(card, log).redeemed == Spent(log)
  {
    if log != [] {
      LedgerTotal(card, start, log[..|log| - 1]);
    }
  }

  lemma {:induction false} PrefixIsSerial(card: Card, start: int, log: seq<Commit>, n: nat)
    requires IsSerialRun(card, start, log) && n <= |log|
    ensures IsSerialRun(card, start, log[..n])
  {
    if n < |log| {
      assert log[..|log| - 1][..n] == log[..n];
      PrefixIsSerial(card, start, log[..|log| - 1], n);
    } else {
      assert log[..n] == log;
    }
  }

  lemma ConsumeIsBacked(card: Card, start: int, log: seq<Commit>, j: nat) returns (i: nat)
    requires IsNew(card) && IsSerialRun(card, start, log)
    requires j < |log| && log[j].op.Consume?
    ensures OpenReserve(log, i, j, log[j].op.appointment, log[j].op.amount)
  {
    PrefixIsSerial(card, start, log, j + 1);
    assert log[..j + 1][..j] == log[..j];
    var cleaned := Cleaned(Replay(card, log[..j]), log[j].at.cleanup);
    var found := Find(cleaned.holds, log[j].op.appointment);
    i := HoldIsBacked(card, start, log[..j], found.value);
    assert forall k :: 0 <= k < j ==> log[..j][k] == log[k];
  }

  /** The committed history of every interleaving is a simple ledger: the amount
      redeemed is the sum of the committed redeems and consumes; each consume
      closes the last reserve of its own appointment, for that reserve's amount;
      and two consumes never close the same reserve. */
  lemma CommittedHistoryIsALedger(card: Card, start: int, actions: seq<Action>)
    requires IsNew(card)
    ensures var s := Exec(Init(card, start), actions);
            && s.stored.redeemed == Spent(s.log)
            && (forall j :: 0 <= j < |s.log| && s.log[j].op.Consume? ==>
                  exists i :: OpenReserve(s.log, i, j, s.log[j].op.appointment, s.log[j].op.amount))
            && (forall i, j, k :: 0 <= j < k < |s.log| && s.log[j].op.Consume? && s.log[k].op.Consume? ==>
                  !(&& OpenReserve(s.log, i, j, s.log[j].op.appointment, s.log[j].op.amount)
                    && OpenReserve(s.log, i, k, s.log[k].op.appointment, s.log[k].op.amount)))
  {
    var s := Exec(Init(card, start), actions);
    Serializable(card, start, actions);
    LedgerTotal(card, start, s.log);
    forall j | 0 <= j < |s.log| && s.log[j].op.Consume?
      ensures exists i :: OpenReserve(s.log, i, j, s.log[j].op.appointment, s.log[j].op.amount)
    {
      var i := ConsumeIsBacked(card, start, s.log, j);
    }
  }
}
