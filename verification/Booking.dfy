/** The appointment book: booking with three-minute unpaid holds, cancelling,
    rescheduling, status changes, and the index that deletes lapsed holds.

    A conflict check and the write that follows it are one step. Times are
    integer milliseconds. A request may be for some tenant, its context, to which
    the query hook then confines every query; booking demands one. */
module Booking {
  import opened Wrappers

  type Id = nat

  const HOLD_MS := 3 * 60 * 1000

  datatype Status =
    | ReservedUnpaid
    | Confirmed
    | Completed
    | CancelledNoRefund
    | CancelledPartialRefund
    | CancelledFullRefund
    | NoShow

  predicate IsCancelled(s: Status) {
    s in {CancelledNoRefund, CancelledPartialRefund, CancelledFullRefund}
  }

  type CancelledStatus = s: Status | IsCancelled(s) witness CancelledNoRefund

  datatype Appt = Appt(tenant: Id, specialist: Id, start: int, end: int, status: Status, createdAt: int)

  datatype Variant = Variant(durationMin: int, bufferBeforeMin: int, bufferAfterMin: int)

  datatype Specialist = Specialist(id: Id, hasStripeAccount: bool)

  /** A booking request with its service variant and specialist; another tenant's
      specialist is not found. `settled` means paid or payable in the salon. */
  datatype Request = Request(variant: Option<Variant>, specialist: Option<Specialist>,
                             start: int, settled: bool, deposit: bool)

  /** The stored documents, the next fresh identifier, the clock, and the tenant
      that each specialist belongs to. */
  datatype Book = Book(now: int, nextId: nat, docs: map<Id, Appt>, owners: map<Id, Id>)

  datatype Answer =
    | Accepted(id: Id)
    | SlotConflict
    | BadRequest
    | NotFound
    | Done
    | AlreadyCancelled
    | Forbidden
    | Silent

  datatype Action =
    | Tick(elapsed: nat)
    | Post(tenant: Id, request: Request)
    | Cancel(context: Option<Id>, id: Id, outcome: CancelledStatus)
    | Reschedule(context: Option<Id>, id: Id, specialist: Option<Id>, start: Option<int>, end: Option<int>)
    | SetStatus(context: Option<Id>, id: Id, status: Status)
    | Purge(id: Id)

  /** Neither cancelled nor an unpaid hold older than three minutes. */
  predicate IsLive(a: Appt, now: int) {
    !IsCancelled(a.status) && (a.status != ReservedUnpaid || a.createdAt >= now - HOLD_MS)
  }

  predicate Intersects(a: Appt, start: int, end: int) {
    a.start < end && a.end > start
  }

  /** What the query hook lets a request in this context see. */
  predicate InContext(a: Appt, context: Option<Id>) {
    context.None? || a.tenant == context.value
  }

  /** The booking query finds a live appointment in the way, `self` aside. */
  predicate SlotTaken(b: Book, self: Option<Id>, context: Option<Id>, specialist: Id, start: int, end: int) {
    exists id | id in b.docs ::
      && self != Some(id)
      && b.docs[id].specialist == specialist && InContext(b.docs[id], context)
      && Intersects(b.docs[id], start, end)
      && IsLive(b.docs[id], b.now)
  }

  /** The rescheduling query: any other stored appointment, dead or alive. */
  predicate SlotOccupied(b: Book, self: Id, context: Option<Id>, specialist: Id, start: int, end: int) {
    exists id | id in b.docs ::
      && id != self
      && b.docs[id].specialist == specialist && InContext(b.docs[id], context)
      && Intersects(b.docs[id], start, end)
  }

  predicate Visible(b: Book, context: Option<Id>, id: Id) {
    id in b.docs && InContext(b.docs[id], context)
  }

  /** The specialist belongs to the tenant, so its hooked lookup finds it. */
  predicate Owns(b: Book, tenant: Id, specialist: Id) {
    specialist in b.owners && b.owners[specialist] == tenant
  }

  function EndOf(start: int, v: Variant): int {
    start + (v.durationMin + v.bufferBeforeMin + v.bufferAfterMin) * 60000
  }

  // ------------------------------------------------------------ one request

  function HandlePost(b: Book, tenant: Id, r: Request): (Book, Answer) {
    if r.variant.None? then (b, NotFound)
    else if r.specialist.None? || !Owns(b, tenant, r.specialist.value.id) then (b, BadRequest)
    else
      var specialist := r.specialist.value;
      var end := EndOf(r.start, r.variant.value);
      if SlotTaken(b, None, Some(tenant), specialist.id, r.start, end) then (b, SlotConflict)
      else if r.deposit && !specialist.hasStripeAccount then (b, BadRequest)
      else
        var status := if r.settled then Confirmed else ReservedUnpaid;
        var made := Appt(tenant, specialist.id, r.start, end, status, b.now);
        (b.(nextId := b.nextId + 1, docs := b.docs[b.nextId := made]), Accepted(b.nextId))
  }

  function HandleCancel(b: Book, context: Option<Id>, id: Id, outcome: CancelledStatus): (Book, Answer) {
    if !Visible(b, context, id) then (b, NotFound)
    else if IsCancelled(b.docs[id].status) then (b, AlreadyCancelled)
    else if b.docs[id].status !in {Confirmed, ReservedUnpaid} then (b, Done)
    else (b.(docs := b.docs[id := b.docs[id].(status := CancelStatus(b.docs[id], outcome))]), Done)
  }

  /** An unpaid hold is cancelled without consulting the policy. */
  function CancelStatus(a: Appt, outcome: CancelledStatus): CancelledStatus {
    if a.status == ReservedUnpaid then CancelledNoRefund else outcome
  }

  /** The slot a rescheduled appointment ends up with. */
  function Moved(a: Appt, specialist: Option<Id>, start: Option<int>, end: Option<int>): Appt {
    a.(specialist := if specialist.Some? then specialist.value else a.specialist,
       start := if start.Some? then start.value else a.start,
       end := if end.Some? then end.value else a.end)
  }

  /** The end the conflict check assumes: the one sent, or an hour's default. */
  function CheckedEnd(start: int, end: Option<int>): int {
    if end.Some? then end.value else start + 60 * 60000
  }

  /** The conflict check, made only when a start and a specialist are both sent. */
  predicate Blocked(b: Book, context: Option<Id>, id: Id, specialist: Option<Id>,
                    start: Option<int>, end: Option<int>)
  {
    start.Some? && specialist.Some? &&
    SlotOccupied(b, id, context, specialist.value, start.value, CheckedEnd(start.value, end))
  }

  function HandleReschedule(b: Book, context: Option<Id>, id: Id, specialist: Option<Id>,
                            start: Option<int>, end: Option<int>): (Book, Answer)
  {
    if !Visible(b, context, id) then (b, NotFound)
    else if Blocked(b, context, id, specialist, start, end) then (b, SlotConflict)
    else (b.(docs := b.docs[id := Moved(b.docs[id], specialist, start, end)]), Done)
  }

  function HandleSetStatus(b: Book, context: Option<Id>, id: Id, status: Status): (Book, Answer) {
    if status == Completed then (b, BadRequest)
    else if !Visible(b, context, id) then (b, NotFound)
    else (b.(docs := b.docs[id := b.docs[id].(status := status)]), Done)
  }

  /** The time-to-live index may delete an unpaid hold once it is strictly older
      than three minutes. */
  predicate Purgeable(b: Book, id: Id) {
    id in b.docs && b.docs[id].status == ReservedUnpaid && b.docs[id].createdAt < b.now - HOLD_MS
  }

  function Handle(b: Book, a: Action): (Book, Answer) {
    match a
    case Tick(elapsed) => (b.(now := b.now + elapsed), Silent)
    case Post(tenant, request) => HandlePost(b, tenant, request)
    case Cancel(context, id, outcome) => HandleCancel(b, context, id, outcome)
    case Reschedule(context, id, specialist, start, end) => HandleReschedule(b, context, id, specialist, start, end)
    case SetStatus(context, id, status) => HandleSetStatus(b, context, id, status)
    case Purge(id) => (if Purgeable(b, id) then b.(docs := b.docs - {id}) else b, Silent)
  }

  function Exec(b: Book, actions: seq<Action>): Book
    decreases |actions|
  {
    if actions == [] then b else Exec(Handle(b, actions[0]).0, actions[1..])
  }

  // -------------------------------------------------------- no double booking

  ghost predicate Clash(b: Book, i: Id, j: Id)
    requires i in b.docs && j in b.docs
  {
    && i != j
    && b.docs[i].specialist == b.docs[j].specialist
    && IsLive(b.docs[i], b.now) && IsLive(b.docs[j], b.now)
    && Intersects(b.docs[i], b.docs[j].start, b.docs[j].end)
  }

  /** No two live appointments of one specialist overlap, whatever their tenants. */
  ghost predicate NoDoubleBooking(b: Book) {
    forall i, j :: i in b.docs && j in b.docs ==> !Clash(b, i, j)
  }

  ghost predicate Fresh(b: Book) {
    forall id :: id in b.docs ==> id < b.nextId
  }

  /** Identifiers are fresh, and appointments are with their tenant's specialists. */
  ghost predicate InOrder(b: Book) {
    Fresh(b) && forall id :: id in b.docs ==> Owns(b, b.docs[id].tenant, b.docs[id].specialist)
  }

  /** A handler that rewrites one appointment leaves the book free of double
      bookings exactly when the new version is dead or its slot is not taken, in
      anyone's book. */
  lemma RewriteIsSafe(b: Book, id: Id, a: Appt)
    requires NoDoubleBooking(b)
    ensures var after := b.(docs := b.docs[id := a]);
            NoDoubleBooking(after) <==>
              (!IsLive(a, b.now) || !SlotTaken(b, Some(id), None, a.specialist, a.start, a.end))
  {
    var after := b.(docs := b.docs[id := a]);
    if IsLive(a, b.now) && SlotTaken(b, Some(id), None, a.specialist, a.start, a.end) {
      var other :| other in b.docs && other != id && b.docs[other].specialist == a.specialist
        && Intersects(b.docs[other], a.start, a.end) && IsLive(b.docs[other], b.now);
      assert Clash(after, other, id);
    } else {
      forall i, j | i in after.docs && j in after.docs
        ensures !Clash(after, i, j)
      {
        if i != id && j != id {
          assert !Clash(b, i, j);
        } else if i != j && IsLive(a, b.now) {
          var other := if i == id then j else i;
          assert other in b.docs && InContext(b.docs[other], None);
        }
      }
    }
  }

  /** Rescheduling, with any subset of its fields, is safe exactly when the
      appointment is not visible in the request's context, the conflict check stops
      it, the appointment is dead, or the slot it ends up in is not taken in
      anyone's book, which the check does not see when the specialist sent is
      another tenant's. */
  lemma RescheduleIsSafeExactlyWhen(b: Book, context: Option<Id>, id: Id, specialist: Option<Id>,
                                    start: Option<int>, end: Option<int>)
    requires NoDoubleBooking(b)
    ensures NoDoubleBooking(HandleReschedule(b, context, id, specialist, start, end).0) <==>
              (!Visible(b, context, id) || Blocked(b, context, id, specialist, start, end) ||
               !IsLive(b.docs[id], b.now) ||
               var m := Moved(b.docs[id], specialist, start, end);
               !SlotTaken(b, Some(id), None, m.specialist, m.start, m.end))
  {
    if Visible(b, context, id) {
      RewriteIsSafe(b, id, Moved(b.docs[id], specialist, start, end));
    }
  }

  /** A status change is safe exactly when it asks for completion (which the route
      refuses), the appointment is not visible, is live already or stays dead, or
      its slot is not taken. */
  lemma SetStatusIsSafeExactlyWhen(b: Book, context: Option<Id>, id: Id, status: Status)
    requires NoDoubleBooking(b)
    ensures NoDoubleBooking(HandleSetStatus(b, context, id, status).0) <==>
              (status == Completed || !Visible(b, context, id) ||
               IsLive(b.docs[id], b.now) || !IsLive(b.docs[id].(status := status), b.now) ||
               !SlotTaken(b, Some(id), None, b.docs[id].specialist, b.docs[id].start, b.docs[id].end))
  {
    if Visible(b, context, id) {
      var a := b.docs[id];
      RewriteIsSafe(b, id, a.(status := status));
      if IsLive(a, b.now) {
        OwnSlotIsFree(b, id);
      }
    }
  }

  lemma OwnSlotIsFree(b: Book, id: Id)
    requires NoDoubleBooking(b) && id in b.docs && IsLive(b.docs[id], b.now)
    ensures var a := b.docs[id]; !SlotTaken(b, Some(id), None, a.specialist, a.start, a.end)
  {
  }

  /** The requests the book promises to keep apart: a reschedule names all three
      slot fields, with a specialist of the appointment's own tenant, or none; and a
      status change finds its appointment live. */
  ghost predicate Disciplined(b: Book, a: Action) {
    match a
    case Reschedule(context, id, specialist, start, end) =>
      && specialist.Some? == start.Some? == end.Some?
      && (Visible(b, context, id) && specialist.Some? ==> Owns(b, b.docs[id].tenant, specialist.value))
    case SetStatus(context, id, _) => Visible(b, context, id) ==> IsLive(b.docs[id], b.now)
    case _ => true
  }

  ghost predicate DisciplinedRun(b: Book, actions: seq<Action>)
    decreases |actions|
  {
    actions == [] || (Disciplined(b, actions[0]) && DisciplinedRun(Handle(b, actions[0]).0, actions[1..]))
  }

  lemma PostKeepsSlotsApart(b: Book, tenant: Id, r: Request)
    requires NoDoubleBooking(b) && InOrder(b)
    ensures NoDoubleBooking(HandlePost(b, tenant, r).0)
  {
  }

  lemma RescheduleKeepsSlotsApart(b: Book, a: Action)
    requires a.Reschedule? && NoDoubleBooking(b) && InOrder(b) && Disciplined(b, a)
    ensures NoDoubleBooking(Handle(b, a).0)
  {
  }

  lemma StepKeepsSlotsApart(b: Book, a: Action)
    requires NoDoubleBooking(b) && InOrder(b) && Disciplined(b, a)
    ensures NoDoubleBooking(Handle(b, a).0)
  {
    match a
    case Tick(elapsed) =>
      var after := Handle(b, a).0;
      forall i, j | i in after.docs && j in after.docs ensures !Clash(after, i, j) {
        assert !Clash(b, i, j);
      }
    case Post(tenant, r) => PostKeepsSlotsApart(b, tenant, r);
    case Cancel(context, id, outcome) =>
      if Visible(b, context, id) {
        RewriteIsSafe(b, id, b.docs[id].(status := CancelStatus(b.docs[id], outcome)));
      }
    case Reschedule(_, _, _, _, _) => RescheduleKeepsSlotsApart(b, a);
    case SetStatus(context, id, status) => SetStatusIsSafeExactlyWhen(b, context, id, status);
    case Purge(id) =>
      var after := Handle(b, a).0;
      forall i, j | i in after.docs && j in after.docs ensures !Clash(after, i, j) {
        assert !Clash(b, i, j);
      }
  }

  lemma StepKeepsOrder(b: Book, a: Action)
    requires InOrder(b) && Disciplined(b, a)
    ensures InOrder(Handle(b, a).0)
  {
  }

  /** Over every disciplined run, at every moment, no two live appointments of
      one specialist overlap. */
  lemma {:induction false} NoDoubleBookingEver(b: Book, actions: seq<Action>)
    requires NoDoubleBooking(b) && InOrder(b) && DisciplinedRun(b, actions)
    ensures NoDoubleBooking(Exec(b, actions)) && InOrder(Exec(b, actions))
    decreases |actions|
  {
    if actions != [] {
      StepKeepsSlotsApart(b, actions[0]);
      StepKeepsOrder(b, actions[0]);
      NoDoubleBookingEver(Handle(b, actions[0]).0, actions[1..]);
    }
  }

  /** A reschedule with all three fields, onto another tenant's specialist: the
      conflict check sees only its own tenant's appointments. */
  lemma ForeignSpecialistCanDoubleBook() returns (b: Book)
    ensures NoDoubleBooking(b) && InOrder(b)
    ensures var (after, answer) := HandleReschedule(b, Some(1), 1, Some(7), Some(0), Some(100));
            answer == Done && !NoDoubleBooking(after)
  {
    var theirs, ours := Appt(0, 7, 0, 100, Confirmed, 0), Appt(1, 8, 0, 100, Confirmed, 0);
    b := Book(0, 2, map[0 := theirs, 1 := ours], map[7 := 0, 8 := 1]);
    RescheduleIsSafeExactlyWhen(b, Some(1), 1, Some(7), Some(0), Some(100));
    assert 0 in b.docs;
  }

  /** The second request is for the first one's specialist at a time that overlaps its. */
  predicate Overlaps(tenant: Id, r: Request, other: Id, q: Request) {
    && tenant == other
    && r.variant.Some? && r.specialist.Some? && q.variant.Some? && q.specialist.Some?
    && r.specialist.value.id == q.specialist.value.id
    && r.start < q.start + 60000 * Minutes(q.variant.value)
    && q.start < r.start + 60000 * Minutes(r.variant.value)
  }

  /** What a booking of the variant takes, buffers included. */
  function Minutes(v: Variant): int {
    v.durationMin + v.bufferBeforeMin + v.bufferAfterMin
  }

  lemma AddingAddsItsSlot(b: Book, a: Appt, context: Option<Id>, specialist: Id, start: int, end: int)
    requires Fresh(b)
    ensures SlotTaken(b.(nextId := b.nextId + 1, docs := b.docs[b.nextId := a]), None, context, specialist, start, end)
       <==> SlotTaken(b, None, context, specialist, start, end) ||
            (InContext(a, context) && a.specialist == specialist && Intersects(a, start, end) && IsLive(a, b.now))
  {
    var later := b.(nextId := b.nextId + 1, docs := b.docs[b.nextId := a]);
    assert b.nextId in later.docs && b.nextId !in b.docs;
    if SlotTaken(b, None, context, specialist, start, end) {
      var id :| id in b.docs
        && b.docs[id].specialist == specialist && InContext(b.docs[id], context)
        && Intersects(b.docs[id], start, end) && IsLive(b.docs[id], b.now);
      assert id in later.docs && later.docs[id] == b.docs[id];
    }
  }

  /** An accepted booking adds exactly its own slot to what later requests find
      taken, whoever makes them: for good when settled, and for three minutes when
      not. Any other answer is as it would have been. */
  lemma BookedSlotIsHeld(b: Book, tenant: Id, r: Request, elapsed: nat, other: Id, q: Request)
    requires Fresh(b) && HandlePost(b, tenant, r).1.Accepted?
    ensures var later, without := HandlePost(b, tenant, r).0.(now := b.now + elapsed), b.(now := b.now + elapsed);
            var answer, before := HandlePost(later, other, q).1, HandlePost(without, other, q).1;
            && (answer == SlotConflict <==>
                  before == SlotConflict || (Overlaps(tenant, r, other, q) && (r.settled || elapsed <= 180000)))
            && (answer == SlotConflict || answer == before || (answer.Accepted? && before.Accepted?))
  {
    if q.variant.Some? && q.specialist.Some? {
      var made := HandlePost(b, tenant, r).0.docs[b.nextId];
      AddingAddsItsSlot(b.(now := b.now + elapsed), made, Some(other), q.specialist.value.id, q.start,
                        EndOf(q.start, q.variant.value));
    }
  }

  // --------------------------------------------- what a request does, in fields

  /** Another appointment of the specialist and tenant that overlaps the time, and
      is neither cancelled nor an unpaid hold over three minutes old. */
  ghost predicate InTheWay(b: Book, tenant: Id, specialist: Id, start: int, end: int) {
    exists id :: id in b.docs
      && b.docs[id].tenant == tenant && b.docs[id].specialist == specialist
      && b.docs[id].start < end && start < b.docs[id].end
      && b.docs[id].status !in {CancelledNoRefund, CancelledPartialRefund, CancelledFullRefund}
      && (b.docs[id].status == ReservedUnpaid ==> b.now - b.docs[id].createdAt <= 180000)
  }

  /** When a booking is accepted, and what refuses it otherwise. */
  lemma PostIsAcceptedExactlyWhen(b: Book, tenant: Id, r: Request)
    ensures var answer := HandlePost(b, tenant, r).1;
            && (answer == NotFound <==> r.variant.None?)
            && (r.variant.Some? ==>
                  var ours := r.specialist.Some? && r.specialist.value.id in b.owners
                              && b.owners[r.specialist.value.id] == tenant;
                  var conflict := ours && InTheWay(b, tenant, r.specialist.value.id, r.start,
                                                   r.start + 60000 * Minutes(r.variant.value));
                  && (answer == SlotConflict <==> conflict)
                  && (answer == BadRequest <==>
                        !ours || (!conflict && r.deposit && !r.specialist.value.hasStripeAccount))
                  && (answer in {NotFound, SlotConflict, BadRequest} || answer == Accepted(b.nextId)))
  {
  }

  /** An accepted booking stores exactly one document, with the request's tenant,
      specialist and times; any other leaves the book as it was. */
  lemma PostStores(b: Book, tenant: Id, r: Request)
    requires Fresh(b)
    ensures var (after, answer) := HandlePost(b, tenant, r);
            if !answer.Accepted? then after == b
            else
              && answer.id !in b.docs && after.docs.Keys == b.docs.Keys + {answer.id}
              && (forall id :: id in b.docs ==> after.docs[id] == b.docs[id])
              && after.now == b.now && after.nextId == b.nextId + 1 && after.owners == b.owners
              && var made := after.docs[answer.id];
                 && made.tenant == tenant && made.specialist == r.specialist.value.id
                 && made.start == r.start && made.end - made.start == 60000 * Minutes(r.variant.value)
                 && made.createdAt == b.now
                 && made.status == if r.settled then Confirmed else ReservedUnpaid
  {
  }

  ghost predicate CanSee(b: Book, context: Option<Id>, id: Id) {
    id in b.docs && (context.None? || b.docs[id].tenant == context.value)
  }

  /** A reschedule conflicts exactly when it sends a start and a specialist and some
      other appointment it can see, in whatever status, overlaps the end sent or an
      hour; otherwise it writes the fields sent, and nothing else. */
  lemma RescheduleInFields(b: Book, context: Option<Id>, id: Id, specialist: Option<Id>,
                           start: Option<int>, end: Option<int>)
    ensures var (after, answer) := HandleReschedule(b, context, id, specialist, start, end);
            && (answer == NotFound <==> !CanSee(b, context, id))
            && (answer == SlotConflict <==>
                  && CanSee(b, context, id) && start.Some? && specialist.Some?
                  && exists other :: CanSee(b, context, other) && other != id
                       && b.docs[other].specialist == specialist.value
                       && b.docs[other].start < (if end.Some? then end.value else start.value + 3600000)
                       && start.value < b.docs[other].end)
            && (if answer != Done then after == b
                else
                  && after == b.(docs := b.docs[id := after.docs[id]])
                  && var was, moved := b.docs[id], after.docs[id];
                     && moved.specialist == (if specialist.Some? then specialist.value else was.specialist)
                     && moved.start == (if start.Some? then start.value else was.start)
                     && moved.end == (if end.Some? then end.value else was.end)
                     && moved.tenant == was.tenant && moved.status == was.status && moved.createdAt == was.createdAt)
  {
  }

  /** A status change writes the status, and a cancel its outcome (no refund for an
      unpaid hold) over a confirmed or unpaid appointment; nothing else changes. */
  lemma StatusAndCancelInFields(b: Book, context: Option<Id>, id: Id, status: Status, outcome: CancelledStatus)
    ensures HandleSetStatus(b, context, id, status).0 ==
              if status != Completed && CanSee(b, context, id)
              then b.(docs := b.docs[id := b.docs[id].(status := status)]) else b
    ensures HandleCancel(b, context, id, outcome).0 ==
              if CanSee(b, context, id) && b.docs[id].status == Confirmed
              then b.(docs := b.docs[id := b.docs[id].(status := outcome)])
              else if CanSee(b, context, id) && b.docs[id].status == ReservedUnpaid
              then b.(docs := b.docs[id := b.docs[id].(status := CancelledNoRefund)])
              else b
  {
  }

  /** The index deletes exactly unpaid holds over three minutes old. */
  lemma PurgeInFields(b: Book, id: Id)
    ensures var after := Handle(b, Purge(id)).0;
            after == if id in b.docs && b.docs[id].status == ReservedUnpaid && b.now - b.docs[id].createdAt > 180000
                     then b.(docs := b.docs - {id}) else b
  {
  }

  /** Sending only a new start skips the conflict check altogether. */
  lemma PartialRescheduleCanDoubleBook() returns (b: Book)
    ensures NoDoubleBooking(b) && InOrder(b)
    ensures var (after, answer) := HandleReschedule(b, Some(0), 1, None, Some(0), None);
            answer == Done && !NoDoubleBooking(after)
  {
    b := Book(0, 2, map[0 := Appt(0, 7, 0, 100, Confirmed, 0), 1 := Appt(0, 7, 100, 200, Confirmed, 0)], map[7 := 0]);
    RescheduleIsSafeExactlyWhen(b, Some(0), 1, None, Some(0), None);
    assert 0 in b.docs;
  }

  /** Confirming an appointment that was cancelled, after its slot was rebooked. */
  lemma RevivalCanDoubleBook() returns (b: Book)
    ensures NoDoubleBooking(b) && InOrder(b)
    ensures var (after, answer) := HandleSetStatus(b, Some(0), 1, Confirmed);
            answer == Done && !NoDoubleBooking(after)
  {
    var rebooked, dead := Appt(0, 7, 0, 100, Confirmed, 0), Appt(0, 7, 0, 100, CancelledNoRefund, 0);
    b := Book(0, 2, map[0 := rebooked, 1 := dead], map[7 := 0]);
    SetStatusIsSafeExactlyWhen(b, Some(0), 1, Confirmed);
    assert 0 in b.docs;
  }

  // ------------------------------------------- deletion is invisible to booking

  /** What the book that purges has lost is dead, and stays dead. */
  ghost predicate Purged(kept: Book, purged: Book) {
    && kept.now == purged.now && kept.nextId == purged.nextId && kept.owners == purged.owners
    && Fresh(kept)
    && (forall id :: id in purged.docs ==> id in kept.docs && kept.docs[id] == purged.docs[id])
    && (forall id :: id in kept.docs && id !in purged.docs ==> !IsLive(kept.docs[id], kept.now))
  }

  /** The answers given to booking requests, in order; `purging` says whether
      the book obeys the deletions it is sent. */
  function BookingAnswers(b: Book, actions: seq<Action>, purging: bool): seq<Answer>
    decreases |actions|
  {
    if actions == [] then []
    else if actions[0].Purge? && !purging then BookingAnswers(b, actions[1..], purging)
    else
      var (after, answer) := Handle(b, actions[0]);
      (if actions[0].Post? then [answer] else []) + BookingAnswers(after, actions[1..], purging)
  }

  /** Bookings, cancels, ticks, deletions, and status changes of appointments
      that are live when the request arrives. */
  ghost predicate BookingRun(b: Book, actions: seq<Action>)
    decreases |actions|
  {
    actions == [] ||
    (&& !actions[0].Reschedule?
     && Disciplined(b, actions[0])
     && BookingRun(if actions[0].Purge? then b else Handle(b, actions[0]).0, actions[1..]))
  }

  lemma PostKeepsPurged(kept: Book, purged: Book, tenant: Id, r: Request)
    requires Purged(kept, purged)
    ensures Purged(HandlePost(kept, tenant, r).0, HandlePost(purged, tenant, r).0)
    ensures HandlePost(kept, tenant, r).1 == HandlePost(purged, tenant, r).1
  {
  }

  lemma StepKeepsPurged(kept: Book, purged: Book, a: Action)
    requires Purged(kept, purged) && !a.Reschedule? && Disciplined(kept, a)
    ensures a.Purge? ==> Purged(kept, Handle(purged, a).0)
    ensures !a.Purge? ==> Purged(Handle(kept, a).0, Handle(purged, a).0)
    ensures a.Post? ==> Handle(kept, a).1 == Handle(purged, a).1
  {
    if a.Post? {
      PostKeepsPurged(kept, purged, a.tenant, a.request);
    }
  }

  /** A book that deletes lapsed holds at arbitrary moments and one that never
      deletes answer every sequence of booking requests alike. */
  lemma {:induction false} DeletionIsInvisibleToBooking(kept: Book, purged: Book, actions: seq<Action>)
    requires Purged(kept, purged) && BookingRun(kept, actions)
    ensures BookingAnswers(kept, actions, false) == BookingAnswers(purged, actions, true)
    decreases |actions|
  {
    if actions != [] {
      var a := actions[0];
      StepKeepsPurged(kept, purged, a);
      DeletionIsInvisibleToBooking(if a.Purge? then kept else Handle(kept, a).0, Handle(purged, a).0, actions[1..]);
    }
  }

  /** A deleted appointment that the rescheduling query would have counted. */
  predicate DeletedInTheWay(kept: Book, purged: Book, context: Option<Id>, specialist: Id, start: int, end: int) {
    exists other | other in kept.docs ::
      && other !in purged.docs
      && kept.docs[other].specialist == specialist && InContext(kept.docs[other], context)
      && Intersects(kept.docs[other], start, end)
  }

  /** Deletion leaves a reschedule's answer alone exactly when it has not deleted
      the appointment itself and, if the conflict check is made and passes, has
      deleted nothing that would have stopped it. */
  lemma ReschedulingMissesDeletionExactlyWhen(kept: Book, purged: Book, context: Option<Id>, id: Id,
                                              specialist: Option<Id>, start: Option<int>, end: Option<int>)
    requires Purged(kept, purged)
    ensures HandleReschedule(kept, context, id, specialist, start, end).1
         == HandleReschedule(purged, context, id, specialist, start, end).1
       <==> if !Visible(purged, context, id) then !Visible(kept, context, id)
            else !(&& start.Some? && specialist.Some?
                   && !Blocked(purged, context, id, specialist, start, end)
                   && DeletedInTheWay(kept, purged, context, specialist.value, start.value,
                                      CheckedEnd(start.value, end)))
  {
  }

  /** Such a deletion happens: the query counts lapsed holds. */
  lemma DeletionIsVisibleToRescheduling() returns (kept: Book, purged: Book)
    ensures Purged(kept, purged) && purged == Handle(kept, Purge(0)).0
    ensures HandleReschedule(kept, Some(0), 1, Some(7), Some(0), Some(100)).1 == SlotConflict
    ensures HandleReschedule(purged, Some(0), 1, Some(7), Some(0), Some(100)).1 == Done
  {
    var lapsed, other := Appt(0, 7, 0, 100, ReservedUnpaid, 0), Appt(0, 7, 100, 200, Confirmed, 0);
    kept := Book(HOLD_MS + 1, 2, map[0 := lapsed, 1 := other], map[7 := 0]);
    purged := Handle(kept, Purge(0)).0;
    assert 0 in kept.docs;
  }

  // ------------------------------------------------------------ the handlers

  /** The collection as the route handlers update it in place. */
  class AppointmentStore {
    var now: int
    var nextId: nat
    var docs: map<Id, Appt>
    const owners: map<Id, Id>

    function View(): Book
      reads this
    {
      Book(now, nextId, docs, owners)
    }

    constructor (b: Book)
      ensures View() == b
    {
      now, nextId, docs, owners := b.now, b.nextId, b.docs, b.owners;
    }

    method Create(a: Appt) returns (id: Id)
      modifies this`nextId, this`docs
      ensures id == old(nextId) && nextId == id + 1 && docs == old(docs)[id := a]
    {
      id := nextId;
      docs := docs[id := a];
      nextId := nextId + 1;
    }

    method PostAppointment(context: Option<Id>, r: Request) returns (answer: Answer)
      modifies this
      ensures (View(), answer) == if context.None? then (old(View()), Forbidden)
                                  else HandlePost(old(View()), context.value, r)
    {
      if context.None? {
        return Forbidden;
      }
      var tenant := context.value;
      if r.variant.None? {
        return NotFound;
      }
      if r.specialist.None? || !Owns(View(), tenant, r.specialist.value.id) {
        return BadRequest;
      }
      var specialist := r.specialist.value;
      var variant := r.variant.value;
      var end := r.start + (variant.durationMin + variant.bufferBeforeMin + variant.bufferAfterMin) * 60000;
      if SlotTaken(View(), None, Some(tenant), specialist.id, r.start, end) {
        return SlotConflict;
      }
      if r.deposit && !specialist.hasStripeAccount {
        return BadRequest;
      }
      var status := ReservedUnpaid;
      if r.settled {
        status := Confirmed;
      }
      var id := Create(Appt(tenant, specialist.id, r.start, end, status, now));
      answer := Accepted(id);
    }

    method PatchAppointment(context: Option<Id>, id: Id, specialist: Option<Id>, start: Option<int>, end: Option<int>)
      returns (answer: Answer)
      modifies this
      ensures (View(), answer) == HandleReschedule(old(View()), context, id, specialist, start, end)
    {
      if !Visible(View(), context, id) {
        return NotFound;
      }
      var appointment := docs[id];
      if start.Some? && specialist.Some? {
        var appointmentEnd := start.value + 60 * 60000;
        if end.Some? {
          appointmentEnd := end.value;
        }
        if SlotOccupied(View(), id, context, specialist.value, start.value, appointmentEnd) {
          return SlotConflict;
        }
      }
      if specialist.Some? {
        appointment := appointment.(specialist := specialist.value);
      }
      if start.Some? {
        appointment := appointment.(start := start.value);
      }
      if end.Some? {
        appointment := appointment.(end := end.value);
      }
      docs := docs[id := appointment];
      answer := Done;
    }

    /** The conditional update at the end of a cancel. */
    method CancelAppointment(context: Option<Id>, id: Id, outcome: CancelledStatus) returns (answer: Answer)
      modifies this`docs
      ensures (View(), answer) == HandleCancel(old(View()), context, id, outcome)
    {
      if !Visible(View(), context, id) {
        return NotFound;
      }
      if IsCancelled(docs[id].status) {
        return AlreadyCancelled;
      }
      if docs[id].status in {Confirmed, ReservedUnpaid} {
        var newStatus := outcome;
        if docs[id].status == ReservedUnpaid {
          newStatus := CancelledNoRefund;
        }
        docs := docs[id := docs[id].(status := newStatus)];
      }
      answer := Done;
    }

    method PatchStatus(context: Option<Id>, id: Id, status: Status) returns (answer: Answer)
      modifies this
      ensures (View(), answer) == HandleSetStatus(old(View()), context, id, status)
    {
      if status == Completed {
        return BadRequest;
      }
      if !Visible(View(), context, id) {
        return NotFound;
      }
      var appointment := docs[id].(status := status);
      docs := docs[id := appointment];
      answer := Done;
    }
  }
}
