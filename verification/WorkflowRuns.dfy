// Every run of the default machines, of any length: what a sequence of transitions of one entity can and cannot be.
module WorkflowRuns {
  import opened WorkflowTable

  /** A run of a machine: each transition is one of its steps and begins where the one before it ended. */
  ghost predicate IsRun(steps: seq<Step>, start: State, run: seq<Step>, end: State) {
    if run == [] then start == end
    else
      var last := run[|run| - 1];
      last in steps && last.to == end && IsRun(steps, start, run[..|run| - 1], last.from)
  }

  // ----- Runs in general -----

  lemma {:induction false} RunPrefix(steps: seq<Step>, start: State, run: seq<Step>, end: State, i: nat)
    requires IsRun(steps, start, run, end) && i < |run|
    ensures run[i] in steps && IsRun(steps, start, run[..i], run[i].from)
    decreases |run|
  {
    if i < |run| - 1 {
      var front := run[..|run| - 1];
      RunPrefix(steps, start, front, run[|run| - 1].from, i);
      assert front[..i] == run[..i];
    }
  }

  lemma {:induction false} RunSuffix(steps: seq<Step>, start: State, run: seq<Step>, end: State, i: nat)
    requires IsRun(steps, start, run, end) && i < |run|
    ensures IsRun(steps, run[i].to, run[i + 1..], end)
    decreases |run|
  {
    if i < |run| - 1 {
      var front := run[..|run| - 1];
      RunSuffix(steps, start, front, run[|run| - 1].from, i);
      var rest := run[i + 1..];
      assert rest[..|rest| - 1] == front[i + 1..];
      assert rest[|rest| - 1] == run[|run| - 1];
    }
  }

  /** A run that gets from outside `d` into it takes a step through the gate `g`. */
  lemma {:induction false} Gate(steps: seq<Step>, start: State, run: seq<Step>, end: State,
      d: State -> bool, g: Step -> bool) returns (i: nat)
    requires IsRun(steps, start, run, end) && !d(start) && d(end)
    requires forall s :: s in steps && !d(s.from) && d(s.to) ==> g(s)
    ensures i < |run| && g(run[i]) && !d(run[i].from) && d(run[i].to)
    decreases |run|
  {
    var last := run[|run| - 1];
    if d(last.from) {
      i := Gate(steps, start, run[..|run| - 1], last.from, d, g);
    } else {
      i := |run| - 1;
    }
  }

  /** A run that starts in a set no step leaves stays in it. */
  lemma {:induction false} Trap(steps: seq<Step>, start: State, run: seq<Step>, end: State, d: State -> bool)
    requires IsRun(steps, start, run, end) && d(start)
    requires forall s :: s in steps && d(s.from) ==> d(s.to)
    ensures d(end) && forall i :: 0 <= i < |run| ==> d(run[i].to)
    decreases |run|
  {
    if run != [] {
      var front := run[..|run| - 1];
      Trap(steps, start, front, run[|run| - 1].from, d);
      assert forall i :: 0 <= i < |front| ==> run[i] == front[i];
    }
  }

  /** How many steps of the run satisfy `p`. */
  ghost function Count(run: seq<Step>, p: Step -> bool): nat {
    if run == [] then 0 else Count(run[..|run| - 1], p) + if p(run[|run| - 1]) then 1 else 0
  }

  function Bit(b: bool): int {
    if b then 1 else 0
  }

  /** Steps into `d` and steps out of it alternate, so their difference says on which side the run ends. */
  lemma {:induction false} Balance(steps: seq<Step>, start: State, run: seq<Step>, end: State,
      d: State -> bool, enters: Step -> bool, leaves: Step -> bool)
    requires IsRun(steps, start, run, end)
    requires forall s :: s in steps ==> Bit(d(s.to)) - Bit(d(s.from)) == Bit(enters(s)) - Bit(leaves(s))
    ensures Count(run, enters) - Count(run, leaves) == Bit(d(end)) - Bit(d(start))
    decreases |run|
  {
    if run != [] {
      Balance(steps, start, run[..|run| - 1], run[|run| - 1].from, d, enters, leaves);
    }
  }

  /** A rank every step lowers bounds the length of a run. */
  lemma {:induction false} Descent(steps: seq<Step>, start: State, run: seq<Step>, end: State, rank: State -> nat)
    requires IsRun(steps, start, run, end)
    requires forall s :: s in steps ==> rank(s.to) < rank(s.from)
    ensures |run| <= rank(start) - rank(end)
    decreases |run|
  {
    if run != [] {
      Descent(steps, start, run[..|run| - 1], run[|run| - 1].from, rank);
    }
  }

  // ----- Driver and CrewAssignment: nobody goes back on duty unrested -----

  /** On duty, owing a rest, resting, or suspended. */
  predicate Engaged(s: State) {
    s.ON_DUTY? || s.REST_REQUIRED? || s.RESTING? || s.DEBRIEFING? || s.REST? || s.SUSPENDED?
  }

  predicate StartsDuty(s: Step) {
    s.action.start_duty?
  }

  predicate Releases(s: Step) {
    s.action.rest_complete? || s.action.reinstate?
  }

  predicate DutyLaw(s: Step) {
    Bit(Engaged(s.to)) - Bit(Engaged(s.from)) == Bit(StartsDuty(s)) - Bit(Releases(s))
  }

  predicate OnRota(e: Entity) {
    e.Driver? || e.CrewAssignment?
  }

  lemma RotaDutyLaw(e: Entity, s: Step)
    requires OnRota(e) && s in StepsOf(e)
    ensures DutyLaw(s)
  {
    hide StepsOf;
    StepsListed(e, s);
  }

  /** Duties started exceed releases by one while the person is engaged, and by none otherwise. */
  lemma DutyBalance(e: Entity, start: State, run: seq<Step>, end: State)
    requires OnRota(e) && !Engaged(start) && IsRun(StepsOf(e), start, run, end)
    ensures Count(run, StartsDuty) - Count(run, Releases) == Bit(Engaged(end))
  {
    hide IsRun, StepsOf, Count;
    forall s | s in StepsOf(e) ensures DutyLaw(s) {
      RotaDutyLaw(e, s);
    }
    Balance(StepsOf(e), start, run, end, Engaged, StartsDuty, Releases);
  }

  /** Between two starts of duty, at any point of any run, lies a completed rest or a reinstatement. */
  lemma RestBetweenDuties(e: Entity, start: State, run: seq<Step>, end: State, i: nat, j: nat) returns (k: nat)
    requires OnRota(e) && IsRun(StepsOf(e), start, run, end)
    requires i < j < |run| && StartsDuty(run[i]) && StartsDuty(run[j])
    ensures i < k < j && Releases(run[k])
  {
    hide IsRun, StepsOf;
    forall s | s in StepsOf(e) ensures DutyLaw(s) {
      RotaDutyLaw(e, s);
    }
    RunPrefix(StepsOf(e), start, run, end, i);
    RunPrefix(StepsOf(e), start, run, end, j);
    assert run[..j][i] == run[i];
    RunSuffix(StepsOf(e), start, run[..j], run[j].from, i);
    assert DutyLaw(run[i]) && DutyLaw(run[j]);
    var m := Gate(StepsOf(e), run[i].to, run[..j][i + 1..], run[j].from, s => !Engaged(s), Releases);
    k := i + 1 + m;
  }

  // ----- Parcel -----

  predicate InHub(s: State) {
    s.AT_HUB_INBOUND? || s.STORED_AT_HUB? || s.AT_HUB_OUTBOUND?
  }

  predicate GoingBack(s: State) {
    s.RETURN_TO_SENDER? || s.RETURNED?
  }

  predicate ArrivesAtHub(s: Step) {
    s.action.ARRIVE_AT_HUB?
  }

  predicate DepartsFromHub(s: Step) {
    s.action.DEPART_FROM_HUB?
  }

  predicate LeavesHub(s: Step) {
    DepartsFromHub(s) || ReturnsFromHub(s)
  }

  predicate ReturnsFromHub(s: Step) {
    s.action.INITIATE_RETURN? && s.from.STORED_AT_HUB?
  }

  predicate Returns(s: Step) {
    s.action.INITIATE_RETURN? || s.action.RETURN?
  }

  predicate HubLaw(s: Step) {
    Bit(InHub(s.to)) - Bit(InHub(s.from)) == Bit(ArrivesAtHub(s)) - Bit(LeavesHub(s))
  }

  predicate ReturnLaw(s: Step) {
    Bit(GoingBack(s.to)) - Bit(GoingBack(s.from)) == Bit(Returns(s))
  }

  lemma ParcelHubLaw(s: Step)
    requires s in StepsOf(Parcel)
    ensures HubLaw(s) && ReturnLaw(s)
  {
    hide StepsOf;
    StepsListed(Parcel, s);
  }

  predicate Never(s: Step) {
    false
  }

  lemma {:induction false} CountSums(run: seq<Step>)
    ensures Count(run, LeavesHub) == Count(run, DepartsFromHub) + Count(run, ReturnsFromHub)
    ensures Count(run, ReturnsFromHub) <= Count(run, Returns)
    ensures Count(run, Never) == 0
  {
    if run != [] {
      CountSums(run[..|run| - 1]);
    }
  }

  lemma HubCounts(start: State, run: seq<Step>, end: State)
    requires !InHub(start) && IsRun(StepsOf(Parcel), start, run, end)
    ensures Count(run, ArrivesAtHub) - Count(run, LeavesHub) == Bit(InHub(end))
  {
    hide IsRun, Count, StepsOf;
    forall s | s in StepsOf(Parcel) ensures HubLaw(s) {
      ParcelHubLaw(s);
    }
    Balance(StepsOf(Parcel), start, run, end, InHub, ArrivesAtHub, LeavesHub);
  }

  lemma ReturnCounts(start: State, run: seq<Step>, end: State)
    requires !GoingBack(start) && IsRun(StepsOf(Parcel), start, run, end)
    ensures Count(run, Returns) == Bit(GoingBack(end))
  {
    hide IsRun, Count, StepsOf;
    forall s | s in StepsOf(Parcel) ensures ReturnLaw(s) {
      ParcelHubLaw(s);
    }
    Balance(StepsOf(Parcel), start, run, end, GoingBack, Returns, Never);
    CountSums(run);
  }

  /**
   * A parcel has come to hubs as often as it has left them, once more while it sits in one, and at most once more
   * if a hub sent it back; a parcel goes back at most once.
   */
  lemma HubBalance(start: State, run: seq<Step>, end: State)
    requires !InHub(start) && !GoingBack(start) && IsRun(StepsOf(Parcel), start, run, end)
    ensures 0 <= Count(run, ArrivesAtHub) - Count(run, DepartsFromHub) <= 1
    ensures InHub(end) ==> Count(run, ArrivesAtHub) - Count(run, DepartsFromHub) == 1
    ensures !InHub(end) && !GoingBack(end) ==> Count(run, ArrivesAtHub) == Count(run, DepartsFromHub)
    ensures Count(run, Returns) == Bit(GoingBack(end))
  {
    hide IsRun, Count, StepsOf;
    HubCounts(start, run, end);
    ReturnCounts(start, run, end);
    CountSums(run);
  }

  predicate PastLoading(s: State) {
    !(s.CREATED? || s.AT_ORIGIN? || s.PACKED?)
  }

  predicate PastDeparture(s: State) {
    PastLoading(s) && !s.LOADED?
  }

  predicate AtDestination(s: State) {
    s.ARRIVED? || s.AVAILABLE_FOR_PICKUP? || s.DELIVERED? || s.DISPUTED?
  }

  /** Each stage of a parcel's way is entered by one kind of step, and delivery and return are final. */
  predicate WayLaw(s: Step) {
    && (!PastLoading(s.from) && PastLoading(s.to) ==> s.to.LOADED?)
    && (!PastDeparture(s.from) && PastDeparture(s.to) ==> s.from.LOADED? && s.to.IN_TRANSIT?)
    && (!AtDestination(s.from) && AtDestination(s.to) ==> s.from.IN_TRANSIT? && s.to.ARRIVED?)
    && (HandedOver(s.from) ==> HandedOver(s.to))
    && !s.from.RETURNED?
  }

  predicate HandedOver(s: State) {
    s.DELIVERED? || s.DISPUTED?
  }

  lemma ParcelWayLaw(s: Step)
    requires s in StepsOf(Parcel)
    ensures WayLaw(s)
  {
    hide StepsOf;
    StepsListed(Parcel, s);
  }

  /** A delivered parcel that started before loading was loaded, then set off, then arrived. */
  lemma DeliveredInOrder(start: State, run: seq<Step>) returns (a: nat, b: nat, c: nat)
    requires !PastLoading(start) && IsRun(StepsOf(Parcel), start, run, DELIVERED)
    ensures a < b < c < |run| && run[a].to == LOADED && run[b].to == IN_TRANSIT && run[c].to == ARRIVED
  {
    hide IsRun, StepsOf;
    var steps := StepsOf(Parcel);
    forall s | s in steps ensures WayLaw(s) {
      ParcelWayLaw(s);
    }
    c := Gate(steps, start, run, DELIVERED, AtDestination, (s: Step) => s.from.IN_TRANSIT? && s.to.ARRIVED?);
    RunPrefix(steps, start, run, DELIVERED, c);
    b := Gate(steps, start, run[..c], IN_TRANSIT, PastDeparture, (s: Step) => s.from.LOADED? && s.to.IN_TRANSIT?);
    RunPrefix(steps, start, run[..c], IN_TRANSIT, b);
    assert run[..c][..b] == run[..b];
    a := Gate(steps, start, run[..b], LOADED, PastLoading, (s: Step) => s.to.LOADED?);
  }

  /** No run delivers a parcel and also returns it. */
  lemma DeliveredOrReturned(start: State, run: seq<Step>, end: State, i: nat, j: nat)
    requires IsRun(StepsOf(Parcel), start, run, end) && i < |run| && j < |run|
    requires run[i].to == DELIVERED
    ensures run[j].to != RETURNED
  {
    hide IsRun, StepsOf;
    var steps := StepsOf(Parcel);
    forall s | s in steps ensures WayLaw(s) {
      ParcelWayLaw(s);
    }
    if i < j {
      RunSuffix(steps, start, run, end, i);
      Trap(steps, DELIVERED, run[i + 1..], end, HandedOver);
      assert run[i + 1..][j - i - 1] == run[j];
    } else if j < i && run[j].to == RETURNED {
      RunSuffix(steps, start, run, end, j);
      RunPrefix(steps, RETURNED, run[j + 1..], end, 0);
      assert false;
    }
  }

  // ----- Ticket -----

  function TicketRank(s: State): nat {
    if s.CREATED? then 8 else
    if s.PENDING_PAYMENT? then 7 else
    if s.CONFIRMED? then 6 else
    if s.CHECKED_IN? then 5 else
    if s.NO_SHOW? then 4 else
    if s.LATE_ARRIVED? then 3 else
    if s.REFUND_PENDING? then 2 else
    if s.REFUND_PROCESSING? || s.BOARDED? then 1 else 0
  }

  predicate Lowers(s: Step) {
    TicketRank(s.to) < TicketRank(s.from)
  }

  lemma TicketLowers(s: Step)
    requires s in StepsOf(Ticket)
    ensures Lowers(s)
  {
    hide StepsOf;
    StepsListed(Ticket, s);
  }

  /** Every ticket run stops within as many steps as the rank it starts from: eight from CREATED. */
  lemma TicketsStop(start: State, run: seq<Step>, end: State)
    requires IsRun(StepsOf(Ticket), start, run, end)
    ensures |run| <= TicketRank(start) - TicketRank(end)
  {
    hide IsRun, StepsOf;
    forall s | s in StepsOf(Ticket) ensures TicketRank(s.to) < TicketRank(s.from) {
      TicketLowers(s);
      hide TicketRank;
    }
    Descent(StepsOf(Ticket), start, run, end, TicketRank);
  }

  lemma RunExtends(steps: seq<Step>, start: State, run: seq<Step>, s: Step)
    requires IsRun(steps, start, run, s.from) && s in steps
    ensures IsRun(steps, start, run + [s], s.to)
  {
    assert (run + [s])[..|run|] == run;
  }

  /** The bound is reached: a ticket no one used, refunded after all. */
  lemma EightStepsHappen() returns (run: seq<Step>)
    ensures IsRun(StepsOf(Ticket), CREATED, run, REFUNDED) && |run| == 8
  {
    hide IsRun, StepsOf;
    var way := [
      TICKET_RESERVE, TICKET_PAY, TICKET_CHECK_IN, TICKET_MISS_BOARDING_FROM_CHECKED_IN, TICKET_MARK_LATE_ARRIVED,
      TICKET_REQUEST_REFUND_FROM_LATE_ARRIVED, TICKET_APPROVE, TICKET_PROCESS
    ];
    run := [];
    EmptyRun(StepsOf(Ticket), CREATED);
    for i := 0 to 8
      invariant |run| == i
      invariant IsRun(StepsOf(Ticket), CREATED, run, if i < 8 then way[i].from else REFUNDED)
    {
      TicketStepListed(way[i]);
      RunExtends(StepsOf(Ticket), CREATED, run, way[i]);
      run := run + [way[i]];
    }
  }

  lemma TicketStepListed(s: Step)
    requires s in {
      TICKET_RESERVE, TICKET_PAY, TICKET_CHECK_IN, TICKET_MISS_BOARDING_FROM_CHECKED_IN, TICKET_MARK_LATE_ARRIVED,
      TICKET_REQUEST_REFUND_FROM_LATE_ARRIVED, TICKET_APPROVE, TICKET_PROCESS
    }
    ensures s in StepsOf(Ticket)
  {
    hide TICKET_RESERVE, TICKET_PAY, TICKET_CHECK_IN, TICKET_MISS_BOARDING_FROM_CHECKED_IN, TICKET_MARK_LATE_ARRIVED,
      TICKET_REQUEST_REFUND_FROM_LATE_ARRIVED, TICKET_APPROVE, TICKET_PROCESS;
    assert TICKET_STEPS[0] == TICKET_RESERVE && TICKET_STEPS[1] == TICKET_PAY && TICKET_STEPS[3] == TICKET_CHECK_IN;
    assert TICKET_STEPS[10] == TICKET_APPROVE && TICKET_STEPS[11] == TICKET_PROCESS;
    assert TICKET_NO_SHOW_STEPS[1] == TICKET_MISS_BOARDING_FROM_CHECKED_IN;
    assert TICKET_NO_SHOW_STEPS[2] == TICKET_MARK_LATE_ARRIVED;
    assert TICKET_NO_SHOW_STEPS[13] == TICKET_REQUEST_REFUND_FROM_LATE_ARRIVED;
  }

  lemma EmptyRun(steps: seq<Step>, start: State)
    ensures IsRun(steps, start, [], start)
  {
  }

  predicate Paid(s: State) {
    !(s.CREATED? || s.PENDING_PAYMENT? || s.EXPIRED? || s.CANCELLED?)
  }

  predicate Decided(s: State) {
    s.REFUND_PROCESSING? || s.REFUNDED? || s.REFUND_FAILED?
  }

  predicate Pays(s: Step) {
    s.action.PAY? && s.from.PENDING_PAYMENT?
  }

  predicate Approves(s: Step) {
    s.action.approve? && s.from.REFUND_PENDING? && s.perm == Perm(data_refund_approve, Tenant)
  }

  predicate PaysOut(s: Step) {
    s.action.process? && s.from.REFUND_PROCESSING? && s.perm == Perm(data_refund_process, Tenant)
  }

  predicate MoneyLaw(s: Step) {
    && (!Paid(s.from) && Paid(s.to) ==> Pays(s))
    && (!Decided(s.from) && Decided(s.to) ==> Approves(s))
    && (s.to.REFUNDED? ==> PaysOut(s))
    && (s.from.BOARDED? ==> s.to.COMPLETED?)
    && !s.from.COMPLETED?
  }

  lemma TicketMoneyLaw(s: Step)
    requires s in StepsOf(Ticket)
    ensures MoneyLaw(s)
  {
    hide StepsOf;
    StepsListed(Ticket, s);
  }

  /**
   * From any start before the decision, a refunded ticket had its refund approved and then paid out, each under its
   * tenant permission; if it started unpaid, it was paid before that.
   */
  lemma RefundedInOrder(start: State, run: seq<Step>) returns (a: int, b: nat, c: nat)
    requires !Decided(start) && IsRun(StepsOf(Ticket), start, run, REFUNDED)
    ensures b < c < |run| && Approves(run[b]) && PaysOut(run[c])
    ensures !Paid(start) ==> 0 <= a < b && Pays(run[a])
  {
    hide IsRun, StepsOf;
    var steps := StepsOf(Ticket);
    forall s | s in steps ensures MoneyLaw(s) {
      TicketMoneyLaw(s);
    }
    c := Gate(steps, start, run, REFUNDED, (s: State) => s.REFUNDED?, PaysOut);
    RunPrefix(steps, start, run, REFUNDED, c);
    b := Gate(steps, start, run[..c], REFUND_PROCESSING, Decided, Approves);
    a := -1;
    if !Paid(start) {
      RunPrefix(steps, start, run[..c], REFUND_PROCESSING, b);
      assert run[..c][..b] == run[..b];
      a := Gate(steps, start, run[..b], REFUND_PENDING, Paid, Pays);
    }
  }

  /** After boarding a ticket can only be completed, and then nothing follows. */
  lemma OnlyCompletionAfterBoarding(run: seq<Step>, end: State)
    requires IsRun(StepsOf(Ticket), BOARDED, run, end)
    ensures (run == [] && end == BOARDED) || (|run| == 1 && end == COMPLETED)
  {
    hide StepsOf;
    if run != [] {
      RunPrefix(StepsOf(Ticket), BOARDED, run, end, 0);
      TicketMoneyLaw(run[0]);
      if |run| > 1 {
        RunPrefix(StepsOf(Ticket), BOARDED, run, end, 1);
        assert run[..1][0] == run[0];
        TicketMoneyLaw(run[1]);
      }
    }
  }

  // ----- Who can take the steps -----

  predicate DecidesRefunds(p: Permission) {
    p == Perm(data_refund_approve, Tenant) || p == Perm(data_refund_process, Tenant)
  }

  predicate SupportsPlatform(p: Permission) {
    p == Perm(control_platform_support_write, Global)
  }

  lemma OthersDecideNoRefund(role: Role, p: Permission)
    requires Holds(role, p) && DecidesRefunds(p)
    ensures role.TENANT_ADMIN? || role.ACCOUNTANT?
  {
  }

  lemma NoneSupportsPlatform(role: Role, p: Permission)
    requires Holds(role, p)
    ensures !SupportsPlatform(p)
  {
  }

  /** On the seeded roles, a refunded ticket was approved and paid out by an administrator or an accountant. */
  lemma OnlyFinanceRefunds(start: State, run: seq<Step>, actors: seq<Role>) returns (b: nat, c: nat)
    requires !Decided(start) && IsRun(StepsOf(Ticket), start, run, REFUNDED) && |actors| == |run|
    requires forall i :: 0 <= i < |run| ==> Holds(actors[i], run[i].perm)
    ensures b < c < |run| && Approves(run[b]) && PaysOut(run[c])
    ensures forall i :: i in {b, c} ==> actors[i] in {TENANT_ADMIN, ACCOUNTANT}
  {
    hide IsRun, StepsOf, Holds;
    var a;
    a, b, c := RefundedInOrder(start, run);
    forall i | i in {b, c} ensures actors[i] in {TENANT_ADMIN, ACCOUNTANT} {
      OthersDecideNoRefund(actors[i], run[i].perm);
    }
  }

  lemma SupportStepsAskPlatform(s: Step)
    requires s in StepsOf(SupportTicket)
    ensures SupportsPlatform(s.perm)
  {
    hide StepsOf;
    StepsListed(SupportTicket, s);
  }

  /** No seeded tenant role can move a support ticket at all. */
  lemma SupportTicketsNeedThePlatform(run: seq<Step>, end: State, actors: seq<Role>)
    requires IsRun(StepsOf(SupportTicket), OPEN, run, end) && |actors| == |run|
    requires forall i :: 0 <= i < |run| ==> Holds(actors[i], run[i].perm)
    ensures run == [] && end == OPEN
  {
    hide Holds, SupportsPlatform, StepsOf;
    if run != [] {
      var n := |run| - 1;
      SupportStepsAskPlatform(run[n]);
      NoneSupportsPlatform(actors[n], run[n].perm);
      assert false;
    }
  }
}
