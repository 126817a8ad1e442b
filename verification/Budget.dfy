/** A project budget in 64-bit micros, its reservations, and what every run of them conserves. */
module Budget {
  import opened Wrappers
  import opened Ids

  newtype int64 = x: int | -0x8000_0000_0000_0000 <= x <= 0x7fff_ffff_ffff_ffff

  const MAX_INT64: int64 := 0x7fff_ffff_ffff_ffff
  const MAX_REVISION: int64 := 0x7fff_ffff

  datatype Error =
    | InvalidBudget | LimitBelowCommitted | BudgetInsufficient | ReservationMismatch
    | InvalidReservation | ReservationClosed

  datatype Balance = Balance(
    id: Id, project: Id, limit: int64, reserved: int64, settled: int64, overrun: bool, revision: int64)
  {
    function Committed(): int {
      reserved as int + settled as int
    }

    function Available(): int {
      limit as int - Committed()
    }

    predicate Valid() {
      && id != NIL && project != NIL
      && limit >= 0 && reserved >= 0 && settled >= 0
      && 1 <= revision <= MAX_REVISION
      && Committed() <= MAX_INT64 as int
      && overrun == (Committed() > limit as int)
    }
  }

  class Budget {
    var id: Id
    var project: Id
    var limit: int64
    var reserved: int64
    var settled: int64
    var overrun: bool
    var revision: int64

    function View(): Balance
      reads this
    {
      Balance(id, project, limit, reserved, settled, overrun, revision)
    }

    constructor (b: Balance)
      ensures View() == b
    {
      id, project, limit, reserved, settled := b.id, b.project, b.limit, b.reserved, b.settled;
      overrun, revision := b.overrun, b.revision;
    }

    /** Checks without any arithmetic that could overflow. */
    method Validate() returns (ok: bool)
      ensures ok == View().Valid()
    {
      if id == NIL || project == NIL || limit < 0 || reserved < 0 || settled < 0 || revision < 1
        || revision > MAX_REVISION || reserved > MAX_INT64 - settled
      {
        return false;
      }
      var committed := reserved + settled;
      return overrun == (committed > limit);
    }

    method AvailableMicros() returns (r: Result<int64, Error>)
      ensures r.Success? <==> View().Valid()
      ensures r.Success? ==> r.value as int == View().Available()
    {
      var valid := Validate();
      if !valid {
        return Failure(InvalidBudget);
      }
      return Success(limit - reserved - settled);
    }

    /** Strictly less than a fifth of a positive limit is left. */
    method LowBalance() returns (r: Result<bool, Error>)
      ensures r.Success? <==> View().Valid()
      ensures r.Success? ==> (r.value <==> limit > 0 && 5 * View().Available() < limit as int)
    {
      var available :- AvailableMicros();
      if limit == 0 {
        return Success(false);
      }
      return Success(available <= (limit - 1) / 5);
    }

    method ChangeLimit(next: int64) returns (r: Result<int64, Error>)
      modifies this`limit, this`overrun, this`revision
      ensures old(View().Valid()) ==> View().Valid()
      ensures r.Failure? ==> View() == old(View())
      ensures r.Success? ==> old(View().Valid()) && limit == next && r.value as int == next as int - old(limit) as int
      ensures r.Success? && r.value == 0 ==> View() == old(View())
      ensures r.Success? && r.value != 0 ==>
                next as int >= View().Committed() && !overrun && revision == old(revision) + 1
      ensures r.Success? <==>
                old(View().Valid())
                && (next == old(limit)
                    || (next >= 0 && next as int >= old(View().Committed()) && old(revision) < MAX_REVISION))
      ensures r == Failure(LimitBelowCommitted) <==>
                old(View().Valid()) && next != old(limit) && (next < 0 || (next as int) < old(View().Committed()))
    {
      var valid := Validate();
      if !valid {
        return Failure(InvalidBudget);
      }
      if next == limit {
        return Success(0);
      }
      if next < 0 || next < reserved + settled {
        return Failure(LimitBelowCommitted);
      }
      if revision == MAX_REVISION {
        return Failure(InvalidBudget);
      }
      var delta := next - limit;
      limit := next;
      overrun := false;
      revision := revision + 1;
      return Success(delta);
    }

    method Reserve(amount: int64) returns (e: Option<Error>)
      modifies this`reserved, this`revision
      ensures old(View().Valid()) ==> View().Valid()
      ensures e.Some? ==> View() == old(View())
      ensures e.None? <==>
                old(View().Valid()) && amount >= 0 && !old(overrun) && old(revision) < MAX_REVISION
                && amount as int <= old(View().Available())
      ensures e.None? ==> reserved as int == old(reserved) as int + amount as int && revision == old(revision) + 1
      ensures e == Some(BudgetInsufficient) <==>
                old(View().Valid()) && amount >= 0
                && (old(overrun) || (old(revision) < MAX_REVISION && amount as int > old(View().Available())))
    {
      var valid := Validate();
      if !valid || amount < 0 {
        return Some(InvalidBudget);
      }
      if overrun {
        return Some(BudgetInsufficient);
      }
      if revision == MAX_REVISION {
        return Some(InvalidBudget);
      }
      var available := limit - reserved - settled;
      if amount > available {
        return Some(BudgetInsufficient);
      }
      reserved := reserved + amount;
      revision := revision + 1;
      return None;
    }

    method Settle(held: int64, charge: int64) returns (e: Option<Error>)
      modifies this`reserved, this`settled, this`overrun, this`revision
      ensures old(View().Valid()) ==> View().Valid()
      ensures e.Some? ==> View() == old(View())
      ensures e.None? <==>
                old(View().Valid()) && held >= 0 && charge >= 0 && held <= old(reserved) && old(revision) < MAX_REVISION
                && old(View().Committed()) - held as int + charge as int <= MAX_INT64 as int
      ensures e.None? ==>
                && reserved as int == old(reserved) as int - held as int
                && settled as int == old(settled) as int + charge as int
                && revision == old(revision) + 1
      ensures e == Some(ReservationMismatch) <==>
                old(View().Valid()) && held >= 0 && charge >= 0 && held > old(reserved)
    {
      var valid := Validate();
      if !valid || held < 0 || charge < 0 {
        return Some(InvalidBudget);
      }
      if held > reserved {
        return Some(ReservationMismatch);
      }
      if revision == MAX_REVISION || charge > MAX_INT64 - settled {
        return Some(InvalidBudget);
      }
      var nextReserved := reserved - held;
      var nextSettled := settled + charge;
      if nextReserved > MAX_INT64 - nextSettled {
        return Some(InvalidBudget);
      }
      reserved := nextReserved;
      settled := nextSettled;
      overrun := nextReserved + nextSettled > limit;
      revision := revision + 1;
      return None;
    }
  }

  // Reservations.

  /** Zero is the zero time. */
  type Time = nat

  datatype Status = Held | Settled | Released | OtherStatus

  datatype Hold = Hold(
    id: Id, project: Id, operation: Id, amount: int64, status: Status, created: Time, closed: Option<Time>)
  {
    predicate Valid() {
      && id != NIL && project != NIL && operation != NIL && amount >= 0 && created != 0
      && match status
         case Held => closed == None
         case OtherStatus => false
         case _ => closed.Some? && closed.value != 0 && created <= closed.value
    }

    function Outstanding(): int {
      if status == Held then amount as int else 0
    }
  }

  datatype Settlement = Settlement(charge: int64, released: int64, overage: int64)

  class Reservation {
    var id: Id
    var project: Id
    var operation: Id
    var amount: int64
    var status: Status
    var created: Time
    var closed: Option<Time>

    function View(): Hold
      reads this
    {
      Hold(id, project, operation, amount, status, created, closed)
    }

    constructor (h: Hold)
      ensures View() == h
    {
      id, project, operation, amount := h.id, h.project, h.operation, h.amount;
      status, created, closed := h.status, h.created, h.closed;
    }

    /**
      The customer's charge and the platform's overage are together the supplier's cost; whatever was held
      and is not charged is given back. A capped charge never exceeds what was held.
     */
    method Settle(actual: int64, cap: bool, at: Time) returns (r: Result<Settlement, Error>)
      modifies this`status, this`closed
      ensures r.Success? <==> old(View().Valid()) && old(status) == Held && actual >= 0 && at != 0 && old(created) <= at
      ensures r.Failure? ==> View() == old(View())
      ensures r.Success? ==> View().Valid() && status != Held && closed == Some(at)
      ensures r.Success? ==>
                var s := r.value;
                && s.charge >= 0 && s.released >= 0 && s.overage >= 0
                && s.charge as int + s.overage as int == actual as int
                && s.charge == (if cap && actual > amount then amount else actual)
                && (s.charge <= amount ==> s.charge as int + s.released as int == amount as int)
                && (s.charge > amount ==> s.released == 0)
                && (cap ==> s.charge <= amount) && (!cap || actual <= amount ==> s.overage == 0)
                && (status == Released <==> s.charge == 0)
      ensures r == Failure(ReservationClosed) <==> old(View().Valid()) && old(status) != Held
      ensures r.Failure? ==> r.error == ReservationClosed || r.error == InvalidReservation
    {
      if !View().Valid() {
        return Failure(InvalidReservation);
      }
      if status != Held {
        return Failure(ReservationClosed);
      }
      if actual < 0 || at == 0 || at < created {
        return Failure(InvalidReservation);
      }
      var result := Settlement(actual, 0, 0);
      if actual > amount && cap {
        result := result.(charge := amount, overage := actual - amount);
      }
      if result.charge < amount {
        result := result.(released := amount - result.charge);
      }
      status := if result.charge == 0 then Released else Settled;
      closed := Some(at);
      return Success(result);
    }
  }

  /** Settles a reservation that was read from its row. */
  method Close(hold: Hold, actual: int64, cap: bool, at: Time) returns (r: Result<(Hold, Settlement), Error>)
    requires hold.Valid()
    ensures r.Success? <==> hold.status == Held && actual >= 0 && at != 0 && hold.created <= at
    ensures hold.status != Held ==> r == Failure(ReservationClosed)
    ensures r.Failure? ==> r.error == ReservationClosed || r.error == InvalidReservation
    ensures r.Success? ==>
              var (closed, s) := r.value;
              && closed.Valid() && closed.Outstanding() == 0 && closed.status != Held
              && s.charge == (if cap && actual > hold.amount then hold.amount else actual)
              && s.charge as int + s.overage as int == actual as int
  {
    var reservation := new Reservation(hold);
    var settlement :- reservation.Settle(actual, cap, at);
    return Success((reservation.View(), settlement));
  }

  // A ledger: the budget and its reservations change together or not at all.

  function Outstanding(holds: seq<Hold>): int {
    if holds == [] then 0 else Outstanding(holds[..|holds| - 1]) + holds[|holds| - 1].Outstanding()
  }

  lemma {:induction false} OutstandingReplaced(holds: seq<Hold>, i: nat, h: Hold)
    requires i < |holds|
    ensures Outstanding(holds[i := h]) == Outstanding(holds) - holds[i].Outstanding() + h.Outstanding()
  {
    var n := |holds| - 1;
    if i < n {
      OutstandingReplaced(holds[..n], i, h);
      assert holds[i := h][..n] == holds[..n][i := h];
    } else {
      assert holds[i := h][..n] == holds[..n];
    }
  }

  lemma {:induction false} OneOfOutstanding(holds: seq<Hold>, i: nat)
    requires i < |holds| && forall j :: 0 <= j < |holds| ==> holds[j].amount >= 0
    ensures 0 <= holds[i].Outstanding() <= Outstanding(holds)
  {
    var n := |holds| - 1;
    if i < n {
      OneOfOutstanding(holds[..n], i);
    }
    OutstandingNonNegative(holds[..n]);
  }

  lemma {:induction false} OutstandingNonNegative(holds: seq<Hold>)
    requires forall j :: 0 <= j < |holds| ==> holds[j].amount >= 0
    ensures Outstanding(holds) >= 0
  {
    if holds != [] {
      OutstandingNonNegative(holds[..|holds| - 1]);
    }
  }

  class Ledger {
    const budget: Budget
    var holds: seq<Hold>
    ghost var openingLimit: int
    ghost var deltas: int
    ghost var charges: int
    ghost var costs: int
    ghost var overages: int
    ghost var withinHolds: bool

    /** What is conserved: held money, charged money, the limit's history, and the supplier's cost. */
    ghost predicate Valid()
      reads this, budget
    {
      && budget.View().Valid()
      && (forall i :: 0 <= i < |holds| ==> holds[i].Valid())
      && budget.reserved as int == Outstanding(holds)
      && budget.settled as int == charges
      && budget.limit as int == openingLimit + deltas
      && costs == charges + overages
      && (withinHolds ==> !budget.overrun)
    }

    constructor (b: Balance)
      requires b.Valid() && b.reserved == 0 && b.settled == 0
      ensures Valid() && holds == [] && fresh(budget)
      ensures openingLimit == b.limit as int && deltas == charges == costs == overages == 0 && withinHolds
    {
      budget := new Budget(b);
      holds := [];
      openingLimit, deltas, charges, costs, overages := b.limit as int, 0, 0, 0, 0;
      withinHolds := true;
    }

    method ChangeLimit(next: int64) returns (r: Result<int64, Error>)
      requires Valid()
      modifies this`deltas, budget
      ensures Valid() && budget.View().Committed() == old(budget.View().Committed())
      ensures r.Success? <==>
                next == old(budget.limit)
                || (next >= 0 && next as int >= budget.View().Committed() && old(budget.revision) < MAX_REVISION)
      ensures deltas == old(deltas) + if r.Success? then r.value as int else 0
      ensures r.Success? ==> budget.limit == next
    {
      r := budget.ChangeLimit(next);
      if r.Success? {
        deltas := deltas + r.value as int;
      }
    }

    method Reserve(h: Hold) returns (e: Option<Error>)
      requires Valid()
      modifies this`holds, budget
      ensures Valid()
      ensures e.None? <==>
                h.Valid() && h.status == Held && !old(budget.overrun) && old(budget.revision) < MAX_REVISION
                && h.amount as int <= old(budget.View().Available())
      ensures e.None? ==> holds == old(holds) + [h]
      ensures e.Some? ==> holds == old(holds) && budget.View() == old(budget.View())
    {
      if !h.Valid() || h.status != Held {
        return Some(InvalidReservation);
      }
      e := budget.Reserve(h.amount);
      if e.None? {
        assert (holds + [h])[..|holds|] == holds;
        assert Outstanding(holds + [h]) == Outstanding(holds) + h.Outstanding();
        hide Outstanding;
        holds := holds + [h];
      }
    }

    /** One settlement of one reservation. A mismatch with the budget is impossible. */
    method Settle(i: nat, actual: int64, cap: bool, at: Time) returns (r: Result<Settlement, Error>)
      requires Valid() && i < |holds|
      modifies this`holds, this`charges, this`costs, this`overages, this`withinHolds, budget
      ensures Valid()
      ensures r != Failure(ReservationMismatch)
      ensures var hold := old(holds[i]);
              var charge := if cap && actual > hold.amount then hold.amount else actual;
              r.Success? <==>
                hold.status == Held && actual >= 0 && at != 0 && hold.created <= at
                  && old(budget.revision) < MAX_REVISION
                && old(budget.View().Committed()) - hold.amount as int + charge as int <= MAX_INT64 as int
      ensures old(holds[i].status) != Held ==> r == Failure(ReservationClosed)
      ensures r.Failure? ==> holds == old(holds) && budget.View() == old(budget.View())
      ensures r.Success? ==>
        && costs == old(costs) + actual as int
        && charges == old(charges) + r.value.charge as int
        && overages == old(overages) + r.value.overage as int
        && |holds| == |old(holds)| && holds[i].status != Held
        && (forall j :: 0 <= j < |holds| && j != i ==> holds[j] == old(holds)[j])
      ensures r.Success? && cap ==> withinHolds == old(withinHolds)
    {
      var hold := holds[i];
      var settled :- Close(hold, actual, cap, at);
      var (closed, settlement) := settled;
      OneOfOutstanding(holds, i);
      hide Outstanding;
      var e := budget.Settle(hold.amount, settlement.charge);
      if e.Some? {
        return Failure(e.value);
      }
      OutstandingReplaced(holds, i, closed);
      holds := holds[i := closed];
      charges := charges + settlement.charge as int;
      costs := costs + actual as int;
      overages := overages + settlement.overage as int;
      withinHolds := withinHolds && settlement.charge <= hold.amount;
      return Success(settlement);
    }
  }
}
