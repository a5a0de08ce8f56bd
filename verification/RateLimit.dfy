/** The GitHub request limiter: a generic cell rate algorithm in its virtual-scheduling form (ITU-T
    I.371, Annex A), with a permit taken before a slot is booked and interrupted waits surrendered. */
module RateLimit {

  datatype Settings = Settings(requestsPerInterval: nat, intervalMs: real, concurrency: nat) {
    ghost predicate Valid() {
      requestsPerInterval >= 1 && intervalMs > 0.0 && concurrency >= 1
    }

    /** As many emission intervals as there are requests fill the interval. */
    function EmissionMs(): (e: real)
      requires Valid()
      ensures e > 0.0 && e * requestsPerInterval as real == intervalMs
    {
      intervalMs / requestsPerInterval as real
    }

    function ToleranceMs(): (t: real)
      requires Valid()
      ensures t == Times(requestsPerInterval - 1, EmissionMs()) && t >= 0.0 && t + EmissionMs() == intervalMs
    {
      TimesGrows(0, requestsPerInterval - 1, EmissionMs());
      Times(requestsPerInterval - 1, EmissionMs())
    }
  }

  /** How long a caller must wait, and the bucket instant its reservation booked. */
  datatype Reservation = Reservation(waitMs: real, bookedUntil: real)

  function Times(k: int, e: real): real { k as real * e }

  lemma TimesStep(k: int, e: real)
    ensures Times(k + 1, e) == Times(k, e) + e
  {}

  lemma TimesGrows(j: int, k: int, e: real)
    requires j <= k && e >= 0.0
    ensures Times(j, e) <= Times(k, e)
  {
    assert (k - j) as real * e >= 0.0;
  }

  function Max(a: real, b: real): real { if a >= b then a else b }

  function Reserved(settings: Settings, booked: real, now: real): (r: Reservation)
    requires settings.Valid()
  {
    Reservation(Max(0.0, booked - settings.ToleranceMs() - now), Max(booked, now) + settings.EmissionMs())
  }

  function Surrendered(settings: Settings, booked: real, booking: real): real
    requires settings.Valid()
  {
    if booked == booking then booked - settings.EmissionMs() else booked
  }

  /** The limiter's cell, updated in place. Both updates are single atomic modifications. */
  class GitHubRateLimit {
    const settings: Settings
    var bookedUntil: real

    constructor (settings: Settings)
      ensures this.settings == settings && bookedUntil == 0.0
    {
      this.settings := settings;
      bookedUntil := 0.0;
    }

    method Reserve(now: real) returns (reservation: Reservation)
      requires settings.Valid()
      modifies this`bookedUntil
      ensures reservation == Reserved(settings, old(bookedUntil), now)
      ensures bookedUntil == reservation.bookedUntil
    {
      var emissionMs, toleranceMs := settings.EmissionMs(), settings.ToleranceMs();
      var admittedAt := if bookedUntil >= now then bookedUntil else now;
      var booking := admittedAt + emissionMs;
      var early := bookedUntil - toleranceMs - now;
      reservation := Reservation(if early > 0.0 then early else 0.0, booking);
      bookedUntil := booking;
    }

    method Surrender(booking: real)
      requires settings.Valid()
      modifies this`bookedUntil
      ensures bookedUntil == Surrendered(settings, old(bookedUntil), booking)
    {
      if bookedUntil == booking {
        bookedUntil := bookedUntil - settings.EmissionMs();
      }
    }
  }

  /** What became of a booking: made but not slept on yet, slept on, started, finished, or interrupted
      and never given back. */
  datatype Stage = Booked | Waiting | Running(start: real) | Done(start: real) | Forfeited

  /** One booking: what the bucket and the clock read were, and what was reserved. */
  datatype Slot = Slot(before: real, now: real, reserved: Reservation, stage: Stage) {
    function Due(): real { now + reserved.waitMs }

    predicate Started() { stage.Running? || stage.Done? }
  }

  /** The limiter and every caller of it. `slots` are the bookings still in force, in booking order;
      `admitted` counts callers that hold a permit and have not booked yet. */
  datatype State = State(booked: real, clock: real, admitted: nat, slots: seq<Slot>)

  datatype Step =
    | Tick(to: real)
    | TakePermit
    | Book(now: real)
    | Sleep(i: nat)
    | Start(i: nat)
    | Finish(i: nat)
    | Interrupt(i: nat)
    | Abandon(i: nat)
    | LeaveUnbooked

  const INITIAL := State(0.0, 0.0, 0, [])

  function Tally(slots: seq<Slot>, p: Stage -> bool): nat {
    if slots == [] then 0
    else Tally(slots[..|slots| - 1], p) + if p(slots[|slots| - 1].stage) then 1 else 0
  }

  function IsHolding(stage: Stage): bool { stage.Booked? || stage.Waiting? || stage.Running? }

  function IsUnstarted(stage: Stage): bool { stage.Booked? || stage.Waiting? || stage.Forfeited? }

  function Holding(s: State): nat { s.admitted + Tally(s.slots, IsHolding) }

  /** The forfeited bookings that still lie ahead of the clock: those made after the last that came due. */
  function ForfeitsAhead(slots: seq<Slot>, clock: real): nat {
    if slots == [] || slots[|slots| - 1].Due() <= clock then 0
    else ForfeitsAhead(slots[..|slots| - 1], clock) + if slots[|slots| - 1].stage.Forfeited? then 1 else 0
  }

  function Forfeits(s: State): nat { ForfeitsAhead(s.slots, s.clock) }

  function Without(slots: seq<Slot>, i: nat): seq<Slot>
    requires i < |slots|
  {
    slots[..i] + slots[i + 1..]
  }

  /** One step of any caller or of the clock. A caller books after it holds a permit, at a clock
      reading that may be old by the time the bucket is updated; it sleeps on its booking, and starts
      once that is due, as late as it likes. Only a sleeper surrenders: a caller interrupted between its
      booking and its sleep leaves the booking behind. */
  ghost predicate Next(settings: Settings, s: State, step: Step, s': State)
    requires settings.Valid()
  {
    match step
    case Tick(to) => to >= s.clock && s' == s.(clock := to)
    case TakePermit => Holding(s) < settings.concurrency && s' == s.(admitted := s.admitted + 1)
    case LeaveUnbooked => s.admitted > 0 && s' == s.(admitted := s.admitted - 1)
    case Book(now) =>
      && s.admitted > 0 && 0.0 <= now <= s.clock
      && var r := Reserved(settings, s.booked, now);
      && s' == s.(booked := r.bookedUntil, admitted := s.admitted - 1,
                  slots := s.slots + [Slot(s.booked, now, r, if r.waitMs > 0.0 then Booked else Running(s.clock))])
    case Sleep(i) =>
      && i < |s.slots| && s.slots[i].stage.Booked?
      && s' == s.(slots := s.slots[i := s.slots[i].(stage := Waiting)])
    case Abandon(i) =>
      && i < |s.slots| && s.slots[i].stage.Booked?
      && s' == s.(slots := s.slots[i := s.slots[i].(stage := Forfeited)])
    case Start(i) =>
      && i < |s.slots| && s.slots[i].stage.Waiting? && s.slots[i].Due() <= s.clock
      && s' == s.(slots := s.slots[i := s.slots[i].(stage := Running(s.clock))])
    case Finish(i) =>
      && i < |s.slots| && s.slots[i].stage.Running?
      && s' == s.(slots := s.slots[i := s.slots[i].(stage := Done(s.slots[i].stage.start))])
    case Interrupt(i) =>
      && i < |s.slots| && s.slots[i].stage.Waiting?
      && var booking := s.slots[i].reserved.bookedUntil;
      && s' == s.(booked := Surrendered(settings, s.booked, booking),
                  slots := if s.booked == booking then Without(s.slots, i)
                           else s.slots[i := s.slots[i].(stage := Forfeited)])
  }

  ghost predicate Run(settings: Settings, states: seq<State>, steps: seq<Step>)
    requires settings.Valid()
  {
    && |states| == |steps| + 1 && states[0] == INITIAL
    && forall k {:trigger steps[k]} :: 0 <= k < |steps| ==> Next(settings, states[k], steps[k], states[k + 1])
  }

  /** The bucket as the slot before position `i` left it. */
  function BookedBefore(slots: seq<Slot>, i: nat): real
    requires i <= |slots|
  {
    if i == 0 then 0.0 else slots[i - 1].reserved.bookedUntil
  }

  ghost predicate SlotOk(settings: Settings, clock: real, slots: seq<Slot>, i: nat)
    requires settings.Valid() && i < |slots|
  {
    var slot := slots[i];
    && slot.before == BookedBefore(slots, i)
    && 0.0 <= slot.now <= clock
    && slot.reserved == Reserved(settings, slot.before, slot.now)
    && (IsUnstarted(slot.stage) ==> slot.reserved.waitMs > 0.0)
    && (slot.Started() ==> slot.Due() <= slot.stage.start <= clock)
  }

  /** The bookings in force form a chain, each made on the bucket the one before left, and the bucket
      is the last one's. No more callers hold permits than there are. */
  ghost predicate Inv(settings: Settings, s: State)
    requires settings.Valid()
  {
    && s.clock >= 0.0
    && s.booked == BookedBefore(s.slots, |s.slots|)
    && (forall i :: 0 <= i < |s.slots| ==> SlotOk(settings, s.clock, s.slots, i))
    && Holding(s) <= settings.concurrency
  }

  lemma {:induction false} TallyUpdate(slots: seq<Slot>, i: nat, stage: Stage, p: Stage -> bool)
    requires i < |slots|
    ensures Tally(slots[i := slots[i].(stage := stage)], p) ==
            Tally(slots, p) - (if p(slots[i].stage) then 1 else 0) + (if p(stage) then 1 else 0)
  {
    var last, slots' := |slots| - 1, slots[i := slots[i].(stage := stage)];
    if i < last {
      TallyUpdate(slots[..last], i, stage, p);
      assert slots'[..last] == slots[..last][i := slots[i].(stage := stage)];
    } else {
      assert slots'[..last] == slots[..last];
    }
  }

  lemma TallyAppend(slots: seq<Slot>, slot: Slot, p: Stage -> bool)
    ensures Tally(slots + [slot], p) == Tally(slots, p) + if p(slot.stage) then 1 else 0
  {
    assert (slots + [slot])[..|slots|] == slots;
  }

  /** Later bookings are later by an emission interval for every booking between. */
  lemma {:induction false} BookingsSpread(settings: Settings, s: State, i: nat, j: nat)
    requires settings.Valid() && Inv(settings, s) && i <= j < |s.slots|
    ensures s.slots[j].reserved.bookedUntil - s.slots[i].reserved.bookedUntil
            >= Times(j - i, settings.EmissionMs())
    decreases j
  {
    if i < j {
      BookingsSpread(settings, s, i, j - 1);
      TimesStep(j - 1 - i, settings.EmissionMs());
      assert SlotOk(settings, s.clock, s.slots, j);
    }
  }

  /** Only the last booking can equal the bucket. */
  lemma OnlyLastEqual(settings: Settings, s: State, i: nat)
    requires settings.Valid() && Inv(settings, s) && i < |s.slots|
    requires s.slots[i].reserved.bookedUntil == s.booked
    ensures i == |s.slots| - 1
  {
    var last := |s.slots| - 1;
    if i < last {
      BookingsSpread(settings, s, i, last);
      TimesGrows(1, last - i, settings.EmissionMs());
    }
  }

  /** Giving back a wait that was last restores the very bucket it was booked on, and drops it below
      no booking that still stands. */
  lemma SurrenderRestores(settings: Settings, s: State, i: nat)
    requires settings.Valid() && Inv(settings, s) && i < |s.slots|
    requires s.slots[i].stage.Waiting? && s.slots[i].reserved.bookedUntil == s.booked
    ensures Surrendered(settings, s.booked, s.slots[i].reserved.bookedUntil) == s.slots[i].before
    ensures forall j :: 0 <= j < |s.slots| && j != i ==> s.slots[j].reserved.bookedUntil <= s.slots[i].before
  {
    OnlyLastEqual(settings, s, i);
    assert SlotOk(settings, s.clock, s.slots, i);
    forall j | 0 <= j < |s.slots| && j != i
      ensures s.slots[j].reserved.bookedUntil <= s.slots[i].before
    {
      BookingsSpread(settings, s, j, i - 1);
      TimesGrows(0, i - 1 - j, settings.EmissionMs());
    }
  }

  lemma SlotsKept(settings: Settings, s: State, s': State)
    requires settings.Valid() && Inv(settings, s)
    requires s'.clock >= s.clock && s'.slots <= s.slots
    ensures forall i :: 0 <= i < |s'.slots| ==> SlotOk(settings, s'.clock, s'.slots, i)
  {
    forall i | 0 <= i < |s'.slots| ensures SlotOk(settings, s'.clock, s'.slots, i) {
      assert SlotOk(settings, s.clock, s.slots, i);
    }
  }

  lemma BookKeeps(settings: Settings, s: State, now: real, s': State)
    requires settings.Valid() && Inv(settings, s) && Next(settings, s, Book(now), s')
    ensures Inv(settings, s')
  {
    var slot := s'.slots[|s.slots|];
    TallyAppend(s.slots, slot, IsHolding);
    forall i | 0 <= i < |s'.slots| ensures SlotOk(settings, s'.clock, s'.slots, i) {
      if i < |s.slots| { assert SlotOk(settings, s.clock, s.slots, i); }
    }
  }

  /** Moving one slot to a stage its due time allows. */
  lemma StageKeeps(settings: Settings, s: State, i: nat, stage: Stage, s': State)
    requires settings.Valid() && Inv(settings, s) && i < |s.slots|
    requires s' == s.(slots := s.slots[i := s.slots[i].(stage := stage)])
    requires IsHolding(stage) ==> IsHolding(s.slots[i].stage)
    requires IsUnstarted(stage) ==> IsUnstarted(s.slots[i].stage)
    requires (stage.Running? || stage.Done?) ==> s.slots[i].Due() <= stage.start <= s.clock
    ensures Inv(settings, s')
  {
    TallyUpdate(s.slots, i, stage, IsHolding);
    forall k | 0 <= k < |s'.slots| ensures SlotOk(settings, s'.clock, s'.slots, k) {
      assert SlotOk(settings, s.clock, s.slots, k);
    }
  }

  lemma InterruptKeeps(settings: Settings, s: State, i: nat, s': State)
    requires settings.Valid() && Inv(settings, s) && Next(settings, s, Interrupt(i), s')
    ensures Inv(settings, s')
  {
    if s.booked == s.slots[i].reserved.bookedUntil {
      OnlyLastEqual(settings, s, i);
      SurrenderRestores(settings, s, i);
      assert s'.slots == s.slots[..i];
      SlotsKept(settings, s, s');
      assert SlotOk(settings, s.clock, s.slots, i);
    } else {
      StageKeeps(settings, s, i, Forfeited, s');
    }
  }

  lemma NextKeeps(settings: Settings, s: State, step: Step, s': State)
    requires settings.Valid() && Inv(settings, s) && Next(settings, s, step, s')
    ensures Inv(settings, s')
  {
    match step
    case Tick(_) => SlotsKept(settings, s, s');
    case TakePermit => SlotsKept(settings, s, s');
    case LeaveUnbooked => SlotsKept(settings, s, s');
    case Book(now) => BookKeeps(settings, s, now, s');
    case Sleep(i) => StageKeeps(settings, s, i, Waiting, s');
    case Abandon(i) => StageKeeps(settings, s, i, Forfeited, s');
    case Start(i) => StageKeeps(settings, s, i, Running(s.clock), s');
    case Finish(i) =>
      assert SlotOk(settings, s.clock, s.slots, i);
      StageKeeps(settings, s, i, Done(s.slots[i].stage.start), s');
    case Interrupt(i) => InterruptKeeps(settings, s, i, s');
  }

  lemma {:induction false} RunKeeps(settings: Settings, states: seq<State>, steps: seq<Step>, k: nat)
    requires settings.Valid() && Run(settings, states, steps) && k < |states|
    ensures Inv(settings, states[k])
  {
    if k > 0 {
      RunKeeps(settings, states, steps, k - 1);
      NextKeeps(settings, states[k - 1], steps[k - 1], states[k]);
    }
  }

  /** How many of the bookings `i..j` have started. */
  function StartedBetween(slots: seq<Slot>, i: nat, j: nat): (k: nat)
    requires i <= j <= |slots|
    ensures k <= j - i
  {
    if i == j then 0 else StartedBetween(slots, i, j - 1) + if slots[j - 1].Started() then 1 else 0
  }

  /** THE RATE. In every state of every run, among bookings that stand, the requests that started from
      one to another span an emission interval for each beyond the burst, short at most of how late
      the first of them started. Rollbacks in between, stale clock readings and late sleepers after
      the first cannot compress it. */
  lemma RateBound(settings: Settings, states: seq<State>, steps: seq<Step>, k: nat, i: nat, j: nat)
    requires settings.Valid() && Run(settings, states, steps) && k < |states|
    requires i <= j < |states[k].slots| && states[k].slots[i].Started() && states[k].slots[j].Started()
    ensures var slots := states[k].slots;
            slots[j].stage.start - slots[i].Due() >=
            Times(StartedBetween(slots, i, j + 1) - settings.requestsPerInterval, settings.EmissionMs())
  {
    var s, e, r := states[k], settings.EmissionMs(), settings.requestsPerInterval;
    RunKeeps(settings, states, steps, k);
    BookingsSpread(settings, s, i, j);
    assert SlotOk(settings, s.clock, s.slots, i) && SlotOk(settings, s.clock, s.slots, j);
    TimesGrows(StartedBetween(s.slots, i, j + 1) - r, j - i + 1 - r, e);
    TimesStep(r - 1, e);
    TimesStep(j - i, e);
    TimesMinus(j - i + 1, r, e);
  }

  /** Emission intervals in the settings' own terms. */
  lemma IntervalsOf(settings: Settings, k: int)
    requires settings.Valid()
    ensures Times(k, settings.EmissionMs()) * settings.requestsPerInterval as real == Times(k, settings.intervalMs)
  {}

  lemma Scaled(a: real, b: real, k: real)
    requires a <= b && k >= 0.0
    ensures a * k <= b * k
  {}

  /** The bookings `i..j` whose requests were issued. */
  ghost function Issued(slots: seq<Slot>, i: nat, j: nat): set<nat>
    requires i <= j <= |slots|
  {
    set n: nat | i <= n < j && (slots[n].stage.Running? || slots[n].stage.Done?)
  }

  lemma {:induction false} IssuedCounted(slots: seq<Slot>, i: nat, j: nat)
    requires i <= j <= |slots|
    ensures |Issued(slots, i, j)| == StartedBetween(slots, i, j)
    decreases j - i
  {
    if i < j {
      IssuedCounted(slots, i, j - 1);
      assert Issued(slots, i, j) == Issued(slots, i, j - 1) + if slots[j - 1].Started() then {j - 1} else {};
    } else {
      assert Issued(slots, i, j) == {};
    }
  }

  /** The rate of the settings: the requests started from one booking to another take an interval for every
      `requestsPerInterval` of them beyond the first so many, measured from when the first was due. */
  lemma RateOfSettings(settings: Settings, states: seq<State>, steps: seq<Step>, k: nat, i: nat, j: nat)
    requires settings.Valid() && Run(settings, states, steps) && k < |states|
    requires i <= j < |states[k].slots| && states[k].slots[i].Started() && states[k].slots[j].Started()
    ensures var slots := states[k].slots;
            (slots[j].stage.start - slots[i].Due()) * settings.requestsPerInterval as real >=
            (|Issued(slots, i, j + 1)| - settings.requestsPerInterval) as real * settings.intervalMs
  {
    IssuedCounted(states[k].slots, i, j + 1);
    var slots, r := states[k].slots, settings.requestsPerInterval;
    RateBound(settings, states, steps, k, i, j);
    IntervalsOf(settings, StartedBetween(slots, i, j + 1) - r);
    Scaled(Times(StartedBetween(slots, i, j + 1) - r, settings.EmissionMs()), slots[j].stage.start - slots[i].Due(), r as real);
  }

  lemma TimesMinus(j: int, k: int, e: real)
    ensures Times(j - k, e) == Times(j, e) - Times(k, e)
  {}

  /** The callers whose bookings still lie ahead of the clock. */
  function CallersAhead(slots: seq<Slot>, clock: real): nat {
    if slots == [] || slots[|slots| - 1].Due() <= clock then 0
    else CallersAhead(slots[..|slots| - 1], clock) + if IsHolding(slots[|slots| - 1].stage) then 1 else 0
  }

  /** What is left of the bucket beyond the tolerance is paid for by the bookings ahead of the clock. */
  lemma {:induction false} BacklogBound(settings: Settings, clock: real, slots: seq<Slot>)
    requires settings.Valid() && clock >= 0.0
    requires forall i :: 0 <= i < |slots| ==> SlotOk(settings, clock, slots, i)
    ensures BookedBefore(slots, |slots|) - settings.ToleranceMs() - clock
            <= Times(1 + CallersAhead(slots, clock) + ForfeitsAhead(slots, clock), settings.EmissionMs())
  {
    var e := settings.EmissionMs();
    if slots == [] {
      TimesGrows(0, 1, e);
    } else {
      var last, earlier := |slots| - 1, slots[..|slots| - 1];
      assert SlotOk(settings, clock, slots, last);
      if slots[last].Due() > clock {
        forall i | 0 <= i < |earlier| ensures SlotOk(settings, clock, earlier, i) {
          assert SlotOk(settings, clock, slots, i);
        }
        BacklogBound(settings, clock, earlier);
        assert BookedBefore(earlier, last) == slots[last].before;
        TimesStep(1 + CallersAhead(earlier, clock) + ForfeitsAhead(earlier, clock), e);
      }
    }
  }

  lemma {:induction false} CallersHold(slots: seq<Slot>, clock: real)
    ensures CallersAhead(slots, clock) <= Tally(slots, IsHolding)
  {
    if slots != [] { CallersHold(slots[..|slots| - 1], clock); }
  }

  /** How long the booking a step makes must wait. */
  function WaitOf(settings: Settings, s: State, now: real): real
    requires settings.Valid()
  {
    Reserved(settings, s.booked, now).waitMs
  }

  /** THE WAIT. In every run, a booking waits at most an emission interval for each permit, and one
      more for each forfeited booking still ahead of the clock, beyond how old its clock reading was:
      because the permit comes before the booking, no queue of bookings can build up ahead of it. */
  lemma WaitBound(settings: Settings, states: seq<State>, steps: seq<Step>, k: nat)
    requires settings.Valid() && Run(settings, states, steps) && k < |steps| && steps[k].Book?
    ensures WaitOf(settings, states[k], steps[k].now)
            <= Times(settings.concurrency + Forfeits(states[k]), settings.EmissionMs())
               + (states[k].clock - steps[k].now)
  {
    var s, e := states[k], settings.EmissionMs();
    RunKeeps(settings, states, steps, k);
    BacklogBound(settings, s.clock, s.slots);
    CallersHold(s.slots, s.clock);
    assert Next(settings, s, steps[k], states[k + 1]);
    TimesGrows(1 + CallersAhead(s.slots, s.clock) + Forfeits(s), settings.concurrency + Forfeits(s), e);
    TimesGrows(0, settings.concurrency + Forfeits(s), e);
  }

  /** The wait in the settings' own terms. */
  lemma WaitOfSettings(settings: Settings, states: seq<State>, steps: seq<Step>, k: nat)
    requires settings.Valid() && Run(settings, states, steps) && k < |steps| && steps[k].Book?
    ensures (WaitOf(settings, states[k], steps[k].now) - (states[k].clock - steps[k].now)) * settings.requestsPerInterval as real
            <= (settings.concurrency + Forfeits(states[k])) as real * settings.intervalMs
  {
    WaitBound(settings, states, steps, k);
    var n := settings.concurrency + Forfeits(states[k]);
    IntervalsOf(settings, n);
    Scaled(WaitOf(settings, states[k], steps[k].now) - (states[k].clock - steps[k].now), Times(n, settings.EmissionMs()),
           settings.requestsPerInterval as real);
  }

  /** The requests in flight. */
  ghost function InFlight(slots: seq<Slot>): set<nat> {
    set i: nat | i < |slots| && slots[i].stage.Running?
  }

  lemma {:induction false} InFlightCounted(slots: seq<Slot>)
    ensures |InFlight(slots)| <= Tally(slots, IsHolding)
  {
    if slots == [] {
      assert InFlight(slots) == {};
    } else {
      var last, earlier := |slots| - 1, slots[..|slots| - 1];
      InFlightCounted(earlier);
      assert InFlight(slots) == InFlight(earlier) + if slots[last].stage.Running? then {last} else {};
    }
  }

  /** At no moment of any run are there more requests in flight than permits. */
  lemma PermitsRespected(settings: Settings, states: seq<State>, steps: seq<Step>, k: nat)
    requires settings.Valid() && Run(settings, states, steps) && k < |states|
    ensures |InFlight(states[k].slots)| <= settings.concurrency
  {
    RunKeeps(settings, states, steps, k);
    InFlightCounted(states[k].slots);
  }

  /** Nobody in this run is interrupted between booking and sleeping. */
  ghost predicate SleepsThrough(steps: seq<Step>) {
    forall k {:trigger steps[k]} :: 0 <= k < |steps| ==> !steps[k].Abandon?
  }

  /** Every booking of this run waits at most an emission interval for each permit, beyond how old its
      clock reading was. */
  ghost predicate WaitsWithin(settings: Settings, states: seq<State>, steps: seq<Step>)
    requires settings.Valid() && |states| == |steps| + 1
  {
    forall k {:trigger steps[k]} :: 0 <= k < |steps| && steps[k].Book? ==>
      WaitOf(settings, states[k], steps[k].now)
      <= Times(settings.concurrency, settings.EmissionMs()) + (states[k].clock - steps[k].now)
  }

  ghost predicate PermitsSuffice(settings: Settings)
    requires settings.Valid()
  {
    forall states, steps :: Run(settings, states, steps) && SleepsThrough(steps) ==> WaitsWithin(settings, states, steps)
  }

  /** With one permit, all but the last booking have started, and none was forfeited. */
  ghost predicate OneAtATime(slots: seq<Slot>) {
    forall i :: 0 <= i < |slots| ==> !slots[i].stage.Forfeited? && (i < |slots| - 1 ==> slots[i].Started())
  }

  lemma OneAtATimeKeeps(settings: Settings, s: State, step: Step, s': State)
    requires settings.Valid() && settings.concurrency == 1 && Inv(settings, s) && OneAtATime(s.slots)
    requires Next(settings, s, step, s') && !step.Abandon?
    ensures OneAtATime(s'.slots)
  {}

  lemma {:induction false} OnePermitKeeps(settings: Settings, states: seq<State>, steps: seq<Step>, k: nat)
    requires settings.Valid() && settings.concurrency == 1 && Run(settings, states, steps) && SleepsThrough(steps)
    requires k < |states|
    ensures OneAtATime(states[k].slots)
  {
    if k > 0 {
      OnePermitKeeps(settings, states, steps, k - 1);
      RunKeeps(settings, states, steps, k - 1);
      assert !steps[k - 1].Abandon?;
      OneAtATimeKeeps(settings, states[k - 1], steps[k - 1], states[k]);
    }
  }

  lemma {:induction false} NoneForfeited(slots: seq<Slot>, clock: real)
    requires forall i :: 0 <= i < |slots| ==> !slots[i].stage.Forfeited?
    ensures ForfeitsAhead(slots, clock) == 0
  {
    if slots != [] { NoneForfeited(slots[..|slots| - 1], clock); }
  }

  lemma OnePermitSuffices(settings: Settings, states: seq<State>, steps: seq<Step>)
    requires settings.Valid() && settings.concurrency == 1 && Run(settings, states, steps) && SleepsThrough(steps)
    ensures WaitsWithin(settings, states, steps)
  {
    forall k {:trigger steps[k]} | 0 <= k < |steps| && steps[k].Book?
      ensures WaitOf(settings, states[k], steps[k].now)
              <= Times(settings.concurrency, settings.EmissionMs()) + (states[k].clock - steps[k].now)
    {
      WaitBound(settings, states, steps, k);
      OnePermitKeeps(settings, states, steps, k);
      NoneForfeited(states[k].slots, states[k].clock);
    }
  }

  /** The `i`th of the bookings all made at time zero: the burst has run, and the rest have not slept. */
  function SlotAtZero(settings: Settings, i: nat): Slot
    requires settings.Valid()
  {
    var before := Times(i, settings.EmissionMs());
    Slot(before, 0.0, Reserved(settings, before, 0.0), if i < settings.requestsPerInterval then Done(0.0) else Booked)
  }

  function Filled(settings: Settings, n: nat): (slots: seq<Slot>)
    requires settings.Valid()
    ensures |slots| == n && forall i :: 0 <= i < n ==> slots[i] == SlotAtZero(settings, i)
  {
    seq(n, i requires 0 <= i => SlotAtZero(settings, i))
  }

  function FilledState(settings: Settings, n: nat): State
    requires settings.Valid()
  {
    State(Times(n, settings.EmissionMs()), 0.0, 0, Filled(settings, n))
  }

  lemma {:induction false} TallyFrom(slots: seq<Slot>, first: nat)
    requires forall i :: 0 <= i < |slots| ==> (IsHolding(slots[i].stage) <==> i >= first)
    ensures Tally(slots, IsHolding) == if |slots| <= first then 0 else |slots| - first
  {
    if slots != [] { TallyFrom(slots[..|slots| - 1], first); }
  }

  lemma FilledHolding(settings: Settings, n: nat)
    requires settings.Valid()
    ensures Tally(Filled(settings, n), IsHolding) == if n <= settings.requestsPerInterval then 0 else n - settings.requestsPerInterval
  {
    TallyFrom(Filled(settings, n), settings.requestsPerInterval);
  }

  /** The wait of a booking made at time zero after `n` others. */
  lemma WaitAtZero(settings: Settings, n: nat)
    requires settings.Valid()
    ensures var e, r := settings.EmissionMs(), settings.requestsPerInterval;
            && Reserved(settings, Times(n, e), 0.0).bookedUntil == Times(n + 1, e)
            && Reserved(settings, Times(n, e), 0.0).waitMs == (if n < r then 0.0 else Times(n + 1 - r, e))
            && (n >= r ==> Times(n + 1 - r, e) > 0.0)
  {
    var e, r := settings.EmissionMs(), settings.requestsPerInterval;
    TimesGrows(0, n, e);
    TimesStep(n, e);
    TimesMinus(n, r - 1, e);
    if n < r { TimesGrows(n, r - 1, e); } else { TimesGrows(1, n + 1 - r, e); }
  }

  lemma RunGrows(settings: Settings, states: seq<State>, steps: seq<Step>, step: Step, next: State)
    requires settings.Valid() && Run(settings, states, steps) && Next(settings, states[|steps|], step, next)
    ensures Run(settings, states + [next], steps + [step])
    ensures SleepsThrough(steps) && !step.Abandon? ==> SleepsThrough(steps + [step])
  {
    var longer, all := states + [next], steps + [step];
    forall k {:trigger all[k]} | 0 <= k < |all| ensures Next(settings, longer[k], all[k], longer[k + 1]) {
      if k < |steps| { assert Next(settings, states[k], steps[k], states[k + 1]); }
    }
    if SleepsThrough(steps) && !step.Abandon? {
      forall k {:trigger all[k]} | 0 <= k < |all| ensures !all[k].Abandon? {
        if k < |steps| { assert all[k] == steps[k]; }
      }
    }
  }

  /** One more caller takes a permit and books. */
  lemma Joins(settings: Settings, states: seq<State>, steps: seq<Step>, s: State)
    returns (states': seq<State>, steps': seq<Step>)
    requires settings.Valid() && Run(settings, states, steps) && states[|steps|] == s && Holding(s) < settings.concurrency
    requires s.clock == 0.0 && s.admitted == 0
    ensures Run(settings, states', steps') && |steps'| == |steps| + 2 && steps'[|steps| + 1] == Book(0.0)
    ensures states'[|steps| + 1] == s.(admitted := 1)
    ensures var r := Reserved(settings, s.booked, 0.0);
            states'[|steps| + 2] == s.(booked := r.bookedUntil,
              slots := s.slots + [Slot(s.booked, 0.0, r, if r.waitMs > 0.0 then Booked else Running(0.0))])
    ensures SleepsThrough(steps) ==> SleepsThrough(steps')
  {
    var s1, r := s.(admitted := 1), Reserved(settings, s.booked, 0.0);
    var s2 := s.(booked := r.bookedUntil, slots := s.slots + [Slot(s.booked, 0.0, r, if r.waitMs > 0.0 then Booked else Running(0.0))]);
    RunGrows(settings, states, steps, TakePermit, s1);
    RunGrows(settings, states + [s1], steps + [TakePermit], Book(0.0), s2);
    states', steps' := states + [s1] + [s2], steps + [TakePermit] + [Book(0.0)];
  }

  /** As many callers as the burst and the permits together admit, one after another at time zero. */
  lemma {:induction false} Fill(settings: Settings, n: nat) returns (states: seq<State>, steps: seq<Step>)
    requires settings.Valid() && n <= settings.requestsPerInterval + settings.concurrency
    ensures Run(settings, states, steps) && SleepsThrough(steps) && states[|steps|] == FilledState(settings, n)
    decreases n
  {
    if n == 0 {
      states, steps := [INITIAL], [];
    } else {
      states, steps := Fill(settings, n - 1);
      FilledHolding(settings, n - 1);
      WaitAtZero(settings, n - 1);
      var length := |steps|;
      states, steps := Joins(settings, states, steps, FilledState(settings, n - 1));
      if n <= settings.requestsPerInterval {
        var s := states[|steps|];
        var done := s.(slots := s.slots[n - 1 := s.slots[n - 1].(stage := Done(0.0))]);
        assert done == FilledState(settings, n);
        RunGrows(settings, states, steps, Finish(n - 1), done);
        states, steps := states + [done], steps + [Finish(n - 1)];
      }
    }
  }

  /** A run whose last step books, and must wait for so many emission intervals at a fresh reading. */
  ghost predicate EndsWaiting(settings: Settings, states: seq<State>, steps: seq<Step>, intervals: nat)
    requires settings.Valid()
  {
    && Run(settings, states, steps) && steps != [] && steps[|steps| - 1] == Book(0.0) && states[|steps| - 1].clock == 0.0
    && WaitOf(settings, states[|steps| - 1], 0.0) == Times(intervals, settings.EmissionMs())
  }

  /** The bound cannot be improved, whatever the settings: with nobody interrupted, the last caller the
      permits admit waits an emission interval for each of them. */
  lemma WaitBoundAttained(settings: Settings) returns (states: seq<State>, steps: seq<Step>)
    requires settings.Valid()
    ensures EndsWaiting(settings, states, steps, settings.concurrency) && SleepsThrough(steps)
    ensures Forfeits(states[|steps| - 1]) == 0
  {
    var n := settings.requestsPerInterval + settings.concurrency - 1;
    states, steps := Fill(settings, n);
    FilledHolding(settings, n);
    WaitAtZero(settings, n);
    NoneForfeited(Filled(settings, n), 0.0);
    states, steps := Joins(settings, states, steps, FilledState(settings, n));
  }

  /** All permits are taken by bookings that wait, and the first of those was given up. */
  function FirstGivenUp(settings: Settings): State
    requires settings.Valid()
  {
    var s, i := FilledState(settings, settings.requestsPerInterval + settings.concurrency), settings.requestsPerInterval;
    s.(slots := s.slots[i := s.slots[i].(stage := Forfeited)])
  }

  lemma ForfeitedHolding(settings: Settings)
    requires settings.Valid()
    ensures Holding(FirstGivenUp(settings)) == settings.concurrency - 1
  {
    TallyFrom(FirstGivenUp(settings).slots, settings.requestsPerInterval + 1);
  }

  lemma ForfeitedAhead(settings: Settings)
    requires settings.Valid()
    ensures ForfeitsAhead(FirstGivenUp(settings).slots, 0.0) == 1
  {
    var slots, r := FirstGivenUp(settings).slots, settings.requestsPerInterval;
    forall k | r <= k < |slots| ensures slots[k].Due() > 0.0 { WaitAtZero(settings, k); }
    OneForfeited(slots, r, 0.0);
  }

  lemma {:induction false} OneForfeited(slots: seq<Slot>, i: nat, clock: real)
    requires i < |slots| && forall k :: i <= k < |slots| ==> slots[k].Due() > clock
    requires forall k :: 0 <= k < |slots| ==> (slots[k].stage.Forfeited? <==> k == i)
    ensures ForfeitsAhead(slots, clock) == 1
  {
    if i < |slots| - 1 {
      OneForfeited(slots[..|slots| - 1], i, clock);
    } else {
      NoneForfeited(slots[..|slots| - 1], clock);
    }
  }

  lemma OneMoreWaits(settings: Settings, states: seq<State>, steps: seq<Step>) returns (states': seq<State>, steps': seq<Step>)
    requires settings.Valid() && Run(settings, states, steps) && states[|steps|] == FirstGivenUp(settings)
    ensures EndsWaiting(settings, states', steps', settings.concurrency + 1)
    ensures Forfeits(states'[|steps'| - 1]) == 1
    ensures SleepsThrough(steps) ==> SleepsThrough(steps')
  {
    ForfeitedHolding(settings);
    ForfeitedAhead(settings);
    WaitAtZero(settings, settings.requestsPerInterval + settings.concurrency);
    states', steps' := Joins(settings, states, steps, FirstGivenUp(settings));
  }

  /** With two permits or more, an interruption that cannot be given back costs those behind it: once the
      permits are all waiting, interrupting the first of them lets one more in, which waits an interval
      more than there are permits. */
  lemma ForfeitsDelay(settings: Settings) returns (states: seq<State>, steps: seq<Step>)
    requires settings.Valid() && settings.concurrency >= 2
    ensures EndsWaiting(settings, states, steps, settings.concurrency + 1) && SleepsThrough(steps)
    ensures Forfeits(states[|steps| - 1]) == 1
  {
    var n, i := settings.requestsPerInterval + settings.concurrency, settings.requestsPerInterval;
    states, steps := Fill(settings, n);
    var s := FilledState(settings, n);
    var asleep := s.(slots := s.slots[i := s.slots[i].(stage := Waiting)]);
    RunGrows(settings, states, steps, Sleep(i), asleep);
    states, steps := states + [asleep], steps + [Sleep(i)];
    LaterBooked(settings, i, n);
    assert asleep.slots[i := asleep.slots[i].(stage := Forfeited)] == FirstGivenUp(settings).slots;
    RunGrows(settings, states, steps, Interrupt(i), FirstGivenUp(settings));
    states, steps := states + [FirstGivenUp(settings)], steps + [Interrupt(i)];
    states, steps := OneMoreWaits(settings, states, steps);
  }

  lemma LaterBooked(settings: Settings, i: nat, n: nat)
    requires settings.Valid() && i + 1 < n
    ensures SlotAtZero(settings, i).reserved.bookedUntil < Times(n, settings.EmissionMs())
  {
    var e := settings.EmissionMs();
    WaitAtZero(settings, i);
    TimesStep(i + 1, e);
    TimesGrows(i + 2, n, e);
  }

  /** THE CONDITION. In every run in which nobody is interrupted between booking and sleeping, every
      booking waits at most an emission interval for each permit, if and only if there is one permit. */
  lemma PermitsSufficeIffOne(settings: Settings)
    requires settings.Valid()
    ensures PermitsSuffice(settings) <==> settings.concurrency == 1
  {
    if settings.concurrency == 1 {
      forall states, steps | Run(settings, states, steps) && SleepsThrough(steps) ensures WaitsWithin(settings, states, steps) {
        OnePermitSuffices(settings, states, steps);
      }
    } else {
      var states, steps := ForfeitsDelay(settings);
      WaitsTooLong(settings, states, steps);
    }
  }

  lemma WaitsTooLong(settings: Settings, states: seq<State>, steps: seq<Step>)
    requires settings.Valid() && EndsWaiting(settings, states, steps, settings.concurrency + 1)
    ensures !WaitsWithin(settings, states, steps)
  {
    TimesStep(settings.concurrency, settings.EmissionMs());
    assert steps[|steps| - 1].Book?;
  }

  /** One interruption between a booking and its sleep breaks the bound for every number of permits, one
      included: its slot is not given back even when it was the last. */
  lemma AbandonDelays(settings: Settings) returns (states: seq<State>, steps: seq<Step>)
    requires settings.Valid()
    ensures EndsWaiting(settings, states, steps, settings.concurrency + 1) && !WaitsWithin(settings, states, steps)
    ensures Forfeits(states[|steps| - 1]) == 1
  {
    var n, i := settings.requestsPerInterval + settings.concurrency, settings.requestsPerInterval;
    states, steps := Fill(settings, n);
    RunGrows(settings, states, steps, Abandon(i), FirstGivenUp(settings));
    states, steps := states + [FirstGivenUp(settings)], steps + [Abandon(i)];
    states, steps := OneMoreWaits(settings, states, steps);
    WaitsTooLong(settings, states, steps);
  }
}
