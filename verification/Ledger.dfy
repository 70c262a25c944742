/** The spending ledger of `Broker` in scripts/a4-credential-broker.py.

    `state` is what the process holds in memory and `disk` what its journal last saved; a save may
    fail, which ends the request that tried it and leaves memory ahead of the journal. Model calls
    are serialised by `model_lock`, so at most one is in flight, but every section below runs under
    its own `lock` and other requests may run between any two of them. */
module BrokerLedger {
  import opened Prelude
  import opened Pricing

  type RunId = nat
  type CallId = nat

  datatype CallState =
    | Reserved | Sent | Uncertain // the live states
    | Refused | Abandoned | ProviderError // released
    | Settled | SettledAtReservation // charged

  /** `maxOutput` is the number of output tokens the request allows; `usage` is what a settled answer
      reported. */
  datatype Call = Call(
    run: RunId, promptBytes: nat, maxOutput: nat, state: CallState, price: Price,
    reservedTokens: nat, reservedNano: nat, settledTokens: nat, settledNano: nat,
    usage: Option<Usage>, exceeded: bool)

  /** What `pin_run` fixes for a run; `maxNano` is `budget_nano` of the pinned spending limit. */
  datatype Pins = Pins(limitsRevision: nat, maxTokens: Option<nat>, maxNano: Option<nat>, credential: Option<nat>)

  datatype Amount = Amount(reserved: int, settled: int)

  datatype Run = Run(pins: Pins, tokens: Amount, nano: Amount)

  datatype Ledger = Ledger(
    runs: map<RunId, Run>, calls: map<CallId, Call>, cancelled: set<RunId>, price: Option<Price>, providerBound: bool)

  predicate Live(c: Call) {
    c.state.Reserved? || c.state.Sent? || c.state.Uncertain?
  }

  predicate Charged(c: Call) {
    c.state.Settled? || c.state.SettledAtReservation?
  }

  /** States a call can only reach through a durable `sent` record. */
  predicate WasSent(c: Call) {
    c.state.Sent? || c.state.Uncertain? || c.state.ProviderError? || Charged(c)
  }

  /** A settled answer with cached tokens, at a price that does not absorb their rounding. */
  predicate RoundsUp(c: Call) {
    c.state.Settled? && c.usage.Some? && c.usage.value.cached > 0 && !AbsorbsRounding(c.price)
  }

  // --------------------------------------------------------- sums over the calls of one run

  datatype Column = HeldTokens | HeldNano | SpentTokens | SpentNano | OverTokens | OverNano | Rounded

  function Excess(settled: nat, reserved: nat): nat {
    if settled > reserved then settled - reserved else 0
  }

  function Cell(col: Column, run: RunId, c: Call): int {
    if c.run != run then 0 else
    match col
    case HeldTokens => if Live(c) then c.reservedTokens else 0
    case HeldNano => if Live(c) then c.reservedNano else 0
    case SpentTokens => if Charged(c) then c.settledTokens else 0
    case SpentNano => if Charged(c) then c.settledNano else 0
    case OverTokens => if c.exceeded then Excess(c.settledTokens, c.reservedTokens) else 0
    case OverNano => if c.exceeded then Excess(c.settledNano, c.reservedNano) else 0
    case Rounded => if RoundsUp(c) then 1 else 0
  }

  ghost function Sum(calls: map<CallId, Call>, col: Column, run: RunId): int {
    if calls == map[] then 0 else
    var id :| id in calls;
    Cell(col, run, calls[id]) + Sum(calls - {id}, col, run)
  }

  /** The sum does not depend on the order in which calls are added up. */
  lemma {:induction false} SumAny(calls: map<CallId, Call>, col: Column, run: RunId, id: CallId)
    requires id in calls
    ensures Sum(calls, col, run) == Cell(col, run, calls[id]) + Sum(calls - {id}, col, run)
  {
    var first :| first in calls &&
                     Sum(calls, col, run) == Cell(col, run, calls[first]) + Sum(calls - {first}, col, run);
    if first != id {
      SumAny(calls - {first}, col, run, id);
      SumAny(calls - {id}, col, run, first);
      assert calls - {first} - {id} == calls - {id} - {first};
    }
  }

  function CellOf(calls: map<CallId, Call>, id: CallId, col: Column, run: RunId): int {
    if id in calls then Cell(col, run, calls[id]) else 0
  }

  lemma SumPut(calls: map<CallId, Call>, col: Column, run: RunId, id: CallId, c: Call)
    ensures Sum(calls[id := c], col, run) == Sum(calls, col, run) - CellOf(calls, id, col, run) + Cell(col, run, c)
  {
    SumAny(calls[id := c], col, run, id);
    assert calls[id := c] - {id} == calls - {id};
    if id in calls {
      SumAny(calls, col, run, id);
    } else {
      assert calls - {id} == calls;
    }
  }

  // ------------------------------------------------------------ what every ledger satisfies

  /** The reservation is the worst case of the request at the price the call keeps. */
  predicate ReservedAsAsked(c: Call) {
    && c.reservedTokens == WorstCaseTokens(c.promptBytes, c.maxOutput)
    && c.reservedNano == WorstCaseNano(c.promptBytes, c.maxOutput, c.price)
  }

  /** The settled amounts are those of the reported usage at that price. */
  predicate SettledAsReported(c: Call) {
    && c.usage.Some? && c.usage.value.cached <= c.usage.value.prompt
    && c.settledTokens == c.usage.value.prompt + c.usage.value.completion
    && c.settledNano == SettledNano(c.usage.value, c.price)
  }

  ghost predicate CallOk(l: Ledger, c: Call) {
    && (Live(c) || Charged(c) ==> c.run in l.runs && c.reservedTokens > 0 && ReservedAsAsked(c))
    && (c.state.Settled? ==> SettledAsReported(c))
    && (c.exceeded ==> c.state.Settled?)
    && (Charged(c) ==>
          (c.exceeded <==> c.settledTokens > c.reservedTokens || c.settledNano > c.reservedNano))
  }

  /** Conservation: nothing reserved is lost, released twice or settled twice. */
  ghost predicate Conserved(l: Ledger, r: RunId)
    requires r in l.runs
  {
    && l.runs[r].tokens.reserved == Sum(l.calls, HeldTokens, r)
    && l.runs[r].nano.reserved == Sum(l.calls, HeldNano, r)
    && l.runs[r].tokens.settled == Sum(l.calls, SpentTokens, r)
    && l.runs[r].nano.settled == Sum(l.calls, SpentNano, r)
  }

  /** Budget: past the pinned limit only by what calls flagged `exceeded_reservation` overshot. */
  ghost predicate WithinBudget(l: Ledger, r: RunId)
    requires r in l.runs
  {
    var run := l.runs[r];
    && (run.pins.maxTokens.Some? ==>
          run.tokens.settled + run.tokens.reserved <= run.pins.maxTokens.value + Sum(l.calls, OverTokens, r))
    && (run.pins.maxNano.Some? ==>
          run.nano.settled + run.nano.reserved <= run.pins.maxNano.value + Sum(l.calls, OverNano, r))
  }

  ghost predicate Balanced(l: Ledger, r: RunId) {
    r in l.runs ==> Conserved(l, r) && WithinBudget(l, r)
  }

  ghost predicate Good(l: Ledger) {
    && (forall id {:trigger CallOk(l, l.calls[id])} :: id in l.calls ==> CallOk(l, l.calls[id]))
    && (forall r {:trigger Balanced(l, r)} :: Balanced(l, r))
  }

  lemma EveryRunBalanced(l: Ledger)
    requires Good(l)
    ensures forall r :: r in l.runs ==> Conserved(l, r) && WithinBudget(l, r)
  {
    forall r | r in l.runs
      ensures Conserved(l, r) && WithinBudget(l, r)
    {
      assert Balanced(l, r);
    }
  }

  lemma {:induction false} SumZero(calls: map<CallId, Call>, col: Column, r: RunId)
    requires forall id :: id in calls ==> Cell(col, r, calls[id]) == 0
    ensures Sum(calls, col, r) == 0
  {
    if calls != map[] {
      var id :| id in calls;
      SumAny(calls, col, r, id);
      SumZero(calls - {id}, col, r);
    }
  }

  /** With no flagged call in a run, its pinned limits are never passed. */
  lemma LimitHolds(l: Ledger, r: RunId)
    requires Good(l) && r in l.runs
    requires forall id :: id in l.calls && l.calls[id].run == r ==> !l.calls[id].exceeded
    ensures l.runs[r].pins.maxTokens.Some? ==>
              l.runs[r].tokens.settled + l.runs[r].tokens.reserved <= l.runs[r].pins.maxTokens.value
    ensures l.runs[r].pins.maxNano.Some? ==>
              l.runs[r].nano.settled + l.runs[r].nano.reserved <= l.runs[r].pins.maxNano.value
  {
    assert Balanced(l, r);
    SumZero(l.calls, OverTokens, r);
    SumZero(l.calls, OverNano, r);
  }

  /** How much one call record contributes to its run when it replaces what stood under its id. */
  function Delta(l: Ledger, id: CallId, c: Call, col: Column): int {
    Cell(col, c.run, c) - CellOf(l.calls, id, col, c.run)
  }

  /** Changing one call together with exactly its share of its run's totals keeps the ledger good. */
  lemma PutKeeps(l: Ledger, id: CallId, c: Call, run: Run)
    requires Good(l) && c.run in l.runs && run.pins == l.runs[c.run].pins
    requires id in l.calls ==> l.calls[id].run == c.run
    requires CallOk(l, c)
    requires run.tokens.reserved == l.runs[c.run].tokens.reserved + Delta(l, id, c, HeldTokens)
    requires run.nano.reserved == l.runs[c.run].nano.reserved + Delta(l, id, c, HeldNano)
    requires run.tokens.settled == l.runs[c.run].tokens.settled + Delta(l, id, c, SpentTokens)
    requires run.nano.settled == l.runs[c.run].nano.settled + Delta(l, id, c, SpentNano)
    requires run.pins.maxTokens.Some? ==>
               run.tokens.settled + run.tokens.reserved
                 <= run.pins.maxTokens.value + Sum(l.calls, OverTokens, c.run) + Delta(l, id, c, OverTokens)
    requires run.pins.maxNano.Some? ==>
               run.nano.settled + run.nano.reserved
                 <= run.pins.maxNano.value + Sum(l.calls, OverNano, c.run) + Delta(l, id, c, OverNano)
    ensures Good(l.(calls := l.calls[id := c], runs := l.runs[c.run := run]))
  {
    var l' := l.(calls := l.calls[id := c], runs := l.runs[c.run := run]);
    forall k | k in l'.calls
      ensures CallOk(l', l'.calls[k])
    {
      assert k != id ==> CallOk(l, l.calls[k]);
    }
    forall r
      ensures Balanced(l', r)
    {
      forall col { SumPut(l.calls, col, r, id, c); }
      assert Balanced(l, r);
    }
  }

  lemma {:induction false} OverNonNegative(calls: map<CallId, Call>, r: RunId)
    ensures Sum(calls, OverTokens, r) >= 0 && Sum(calls, OverNano, r) >= 0
  {
    if calls != map[] {
      var id :| id in calls;
      SumAny(calls, OverTokens, r, id);
      SumAny(calls, OverNano, r, id);
      OverNonNegative(calls - {id}, r);
    }
  }

  // ------------------------------------------------------------------- single ledger changes

  /** What may happen to one call record: it keeps its terms, a finished or uncertain call never
      changes again, and a call that was sent stays a call that was sent. */
  ghost predicate CallLater(c: Call, d: Call) {
    && d.run == c.run && d.promptBytes == c.promptBytes && d.maxOutput == c.maxOutput
    && d.price == c.price && d.reservedTokens == c.reservedTokens && d.reservedNano == c.reservedNano
    && (!Live(c) || c.state.Uncertain? ==> d == c)
    && (WasSent(c) ==> WasSent(d))
  }

  ghost predicate Later(a: Ledger, b: Ledger) {
    && (forall r :: r in a.runs ==> r in b.runs && b.runs[r].pins == a.runs[r].pins)
    && (forall id :: id in a.calls ==> id in b.calls && CallLater(a.calls[id], b.calls[id]))
    && a.cancelled <= b.cancelled
  }

  lemma LaterTransitive(a: Ledger, b: Ledger, c: Ledger)
    requires Later(a, b) && Later(b, c)
    ensures Later(a, c)
  {
    forall id | id in a.calls
      ensures id in c.calls && CallLater(a.calls[id], c.calls[id])
    {
      assert CallLater(a.calls[id], b.calls[id]) && CallLater(b.calls[id], c.calls[id]);
    }
  }

  lemma CallsAndRunsKept(a: Ledger, b: Ledger)
    requires Good(a) && b.calls == a.calls && b.runs == a.runs && a.cancelled <= b.cancelled
    ensures Good(b) && Later(a, b)
  {
    forall r
      ensures Balanced(b, r)
    {
      assert Balanced(a, r);
    }
    forall id | id in b.calls
      ensures CallOk(b, b.calls[id])
    {
      assert CallOk(a, a.calls[id]);
    }
  }

  /** A reservation: the new record and its share of the run's reserved totals. */
  function Reserving(l: Ledger, id: CallId, c: Call): Ledger
    requires c.run in l.runs
  {
    var run := l.runs[c.run];
    l.(calls := l.calls[id := c],
       runs := l.runs[c.run := run.(tokens := run.tokens.(reserved := run.tokens.reserved + c.reservedTokens),
                                    nano := run.nano.(reserved := run.nano.reserved + c.reservedNano))])
  }

  /** `_release`: note that a record without reserved tokens would give nothing back. */
  function Releasing(l: Ledger, id: CallId, state: CallState): Ledger
    requires id in l.calls
  {
    var c := l.calls[id];
    var runs :=
      if c.run in l.runs && c.reservedTokens > 0 then
        var run := l.runs[c.run];
        l.runs[c.run := run.(tokens := run.tokens.(reserved := run.tokens.reserved - c.reservedTokens),
                             nano := run.nano.(reserved := run.nano.reserved - c.reservedNano))]
      else l.runs;
    l.(runs := runs, calls := l.calls[id := c.(state := state, settledTokens := 0, settledNano := 0)])
  }

  /** `_settle`, with the state and the flag its caller writes next. */
  function Settling(l: Ledger, id: CallId, state: CallState, usage: Option<Usage>, tokens: nat, nano: nat): Ledger
    requires id in l.calls && l.calls[id].run in l.runs
  {
    var c := l.calls[id];
    var run := l.runs[c.run];
    l.(runs := l.runs[c.run := run.(
                        tokens := Amount(run.tokens.reserved - c.reservedTokens, run.tokens.settled + tokens),
                        nano := Amount(run.nano.reserved - c.reservedNano, run.nano.settled + nano))],
       calls := l.calls[id := c.(state := state, settledTokens := tokens, settledNano := nano, usage := usage,
                                 exceeded := tokens > c.reservedTokens || nano > c.reservedNano)])
  }

  function Relabelled(l: Ledger, id: CallId, state: CallState): Ledger
    requires id in l.calls
  {
    l.(calls := l.calls[id := l.calls[id].(state := state)])
  }

  lemma ReservingKeeps(l: Ledger, id: CallId, c: Call)
    requires Good(l) && id !in l.calls && c.run in l.runs
    requires c.state.Reserved? && c.reservedTokens > 0 && ReservedAsAsked(c) && !c.exceeded
    requires Affordable(l, c)
    ensures Good(Reserving(l, id, c)) && Later(l, Reserving(l, id, c))
  {
    OverNonNegative(l.calls, c.run);
    PutKeeps(l, id, c, Reserving(l, id, c).runs[c.run]);
  }

  lemma RecordingKeeps(l: Ledger, id: CallId, c: Call)
    requires Good(l) && id !in l.calls && c.state.Refused? && !c.exceeded
    ensures Good(l.(calls := l.calls[id := c])) && Later(l, l.(calls := l.calls[id := c]))
  {
    var l' := l.(calls := l.calls[id := c]);
    forall k | k in l'.calls
      ensures CallOk(l', l'.calls[k])
    {
      assert k != id ==> CallOk(l, l.calls[k]);
    }
    forall r
      ensures Balanced(l', r)
    {
      forall col { SumPut(l.calls, col, r, id, c); }
      assert Balanced(l, r);
    }
  }

  lemma ReleasingKeeps(l: Ledger, id: CallId, state: CallState)
    requires Good(l) && id in l.calls
    requires if state.ProviderError? then l.calls[id].state.Sent?
             else (state.Refused? || state.Abandoned?) && l.calls[id].state.Reserved?
    ensures Good(Releasing(l, id, state)) && Later(l, Releasing(l, id, state))
  {
    var c := l.calls[id];
    assert CallOk(l, c) && Balanced(l, c.run);
    PutKeeps(l, id, Releasing(l, id, state).calls[id], Releasing(l, id, state).runs[c.run]);
  }

  lemma SettlingKeeps(l: Ledger, id: CallId, state: CallState, usage: Option<Usage>, tokens: nat, nano: nat)
    requires Good(l) && id in l.calls && l.calls[id].state.Sent? && l.calls[id].run in l.runs
    requires state.Settled? || state.SettledAtReservation?
    requires if state.Settled? then SettledAsReported(Settling(l, id, state, usage, tokens, nano).calls[id])
             else tokens == l.calls[id].reservedTokens && nano == l.calls[id].reservedNano
    ensures var l' := Settling(l, id, state, usage, tokens, nano); Good(l') && Later(l, l')
  {
    var c, l' := l.calls[id], Settling(l, id, state, usage, tokens, nano);
    assert CallOk(l, c) && Balanced(l, c.run);
    PutKeeps(l, id, l'.calls[id], l'.runs[c.run]);
  }

  lemma RelabellingKeeps(l: Ledger, id: CallId, state: CallState)
    requires Good(l) && id in l.calls
    requires if state.Uncertain? then l.calls[id].state.Sent? else state.Sent? && l.calls[id].state.Reserved?
    ensures Good(Relabelled(l, id, state)) && Later(l, Relabelled(l, id, state))
  {
    var c := l.calls[id];
    assert CallOk(l, c) && Balanced(l, c.run);
    PutKeeps(l, id, c.(state := state), l.runs[c.run]);
    assert l.runs[c.run := l.runs[c.run]] == l.runs;
  }

  lemma PinningKeeps(l: Ledger, r: RunId, pins: Pins)
    requires Good(l) && r !in l.runs
    ensures var l' := l.(runs := l.runs[r := Run(pins, Amount(0, 0), Amount(0, 0))]); Good(l') && Later(l, l')
  {
    assert forall id :: id in l.calls ==> CallOk(l, l.calls[id]);
    forall col { SumZero(l.calls, col, r); }
    var l' := l.(runs := l.runs[r := Run(pins, Amount(0, 0), Amount(0, 0))]);
    forall k
      ensures Balanced(l', k)
    {
      assert Balanced(l, k);
    }
  }

  /** `recover` on one record. */
  function RecoveredCall(c: Call): Call {
    match c.state
    case Sent => c.(state := Uncertain)
    case Reserved => c.(state := Abandoned, settledTokens := 0, settledNano := 0)
    case _ => c
  }

  function RecoveringOne(l: Ledger, id: CallId): Ledger
    requires id in l.calls
  {
    match l.calls[id].state
    case Sent => Relabelled(l, id, Uncertain)
    case Reserved => Releasing(l, id, Abandoned)
    case _ => l
  }

  lemma RecoveringOneKeeps(journal: Ledger, l: Ledger, id: CallId)
    requires Good(l) && Later(journal, l) && id in l.calls
    ensures Good(RecoveringOne(l, id)) && Later(journal, RecoveringOne(l, id))
    ensures RecoveringOne(l, id).calls == l.calls[id := RecoveredCall(l.calls[id])]
  {
    if l.calls[id].state.Sent? {
      RelabellingKeeps(l, id, Uncertain);
      LaterTransitive(journal, l, RecoveringOne(l, id));
    } else if l.calls[id].state.Reserved? {
      ReleasingKeeps(l, id, Abandoned);
      LaterTransitive(journal, l, RecoveringOne(l, id));
    }
  }

  /** `provider` raised, answered an error status, or answered 200 with usable usage or without. */
  datatype Reply = Unreachable | Status(rejected: bool) | Answer(usage: Option<Usage>)

  /** Release, keep or settle by what came back. An unusable report is charged at the reservation. */
  function Concluding(l: Ledger, id: CallId, reply: Reply): Ledger
    requires id in l.calls && l.calls[id].run in l.runs
    requires reply.Answer? && reply.usage.Some? ==> reply.usage.value.cached <= reply.usage.value.prompt
  {
    var call := l.calls[id];
    match reply
    case Unreachable => Relabelled(l, id, Uncertain)
    case Status(rejected) => if rejected then Releasing(l, id, ProviderError) else Relabelled(l, id, Uncertain)
    case Answer(None) => Settling(l, id, SettledAtReservation, None, call.reservedTokens, call.reservedNano)
    case Answer(Some(u)) => Settling(l, id, Settled, Some(u), u.prompt + u.completion, SettledNano(u, call.price))
  }

  lemma ConcludingKeeps(l: Ledger, id: CallId, reply: Reply)
    requires Good(l) && id in l.calls && l.calls[id].state.Sent? && l.calls[id].run in l.runs
    requires reply.Answer? && reply.usage.Some? ==> reply.usage.value.cached <= reply.usage.value.prompt
    ensures Good(Concluding(l, id, reply)) && Later(l, Concluding(l, id, reply))
  {
    var call := l.calls[id];
    match reply {
      case Unreachable => RelabellingKeeps(l, id, Uncertain);
      case Status(rejected) =>
        ReleasingKeeps(l, id, ProviderError);
        RelabellingKeeps(l, id, Uncertain);
      case Answer(None) => SettlingKeeps(l, id, SettledAtReservation, None, call.reservedTokens, call.reservedNano);
      case Answer(Some(u)) =>
        SettlingKeeps(l, id, Settled, Some(u), u.prompt + u.completion, SettledNano(u, call.price));
    }
  }

  // -------------------------------------------------------------- limits, when answers are in bounds

  /** The provider reported no more than the token counts the reservation allowed for. */
  predicate AnsweredWithin(c: Call) {
    c.state.Settled? && c.usage.Some? ==> WithinBounds(c.usage.value, c.promptBytes, c.maxOutput)
  }

  ghost predicate AnswersWithin(l: Ledger, r: RunId) {
    forall id :: id in l.calls && l.calls[id].run == r ==> AnsweredWithin(l.calls[id])
  }

  /** Every settled call of the run was answered within bounds, at a price no dearer when cached. */
  ghost predicate Promised(l: Ledger, r: RunId) {
    && AnswersWithin(l, r)
    && forall id :: id in l.calls && l.calls[id].run == r && l.calls[id].state.Settled? ==>
           CheapCache(l.calls[id].price)
  }

  /** Nothing spent and nothing reserved passes the pinned limits, but for `slack` nano-USD. */
  predicate WithinLimits(run: Run, slack: int) {
    && (run.pins.maxTokens.Some? ==> run.tokens.settled + run.tokens.reserved <= run.pins.maxTokens.value)
    && (run.pins.maxNano.Some? ==> run.nano.settled + run.nano.reserved <= run.pins.maxNano.value + slack)
  }

  lemma {:induction false} SumAtMost(calls: map<CallId, Call>, col: Column, other: Column, r: RunId)
    requires forall id :: id in calls ==> Cell(col, r, calls[id]) <= Cell(other, r, calls[id])
    ensures Sum(calls, col, r) <= Sum(calls, other, r)
  {
    if calls != map[] {
      var id :| id in calls;
      SumAny(calls, col, r, id);
      SumAny(calls, other, r, id);
      SumAtMost(calls - {id}, col, other, r);
    }
  }

  /** An answer within bounds overshoots its reservation by at most the rounding of its cached part. */
  lemma OvershootIsRounding(l: Ledger, c: Call)
    requires CallOk(l, c) && AnsweredWithin(c) && (c.state.Settled? ==> CheapCache(c.price))
    ensures Cell(OverTokens, c.run, c) == 0 && Cell(OverNano, c.run, c) <= Cell(Rounded, c.run, c)
    ensures c.exceeded ==> RoundsUp(c)
  {
    if c.state.Settled? {
      SettlementWithinReservation(c.promptBytes, c.maxOutput, c.price, c.usage.value);
    }
  }

  /** A run whose answers were within bounds never passes its token limit, and passes its spending limit by
      at most one nano-USD for each answer that may round up; a call is flagged only where it may. */
  lemma LimitsUpToRounding(l: Ledger, r: RunId)
    requires Good(l) && r in l.runs && Promised(l, r)
    ensures WithinLimits(l.runs[r], Sum(l.calls, Rounded, r))
    ensures forall id :: id in l.calls && l.calls[id].run == r && l.calls[id].exceeded ==> RoundsUp(l.calls[id])
  {
    assert Balanced(l, r);
    forall id | id in l.calls
      ensures Cell(OverTokens, r, l.calls[id]) == 0 && Cell(OverNano, r, l.calls[id]) <= Cell(Rounded, r, l.calls[id])
      ensures l.calls[id].run == r && l.calls[id].exceeded ==> RoundsUp(l.calls[id])
    {
      if l.calls[id].run == r {
        OvershootIsRounding(l, l.calls[id]);
      }
    }
    SumZero(l.calls, OverTokens, r);
    SumAtMost(l.calls, OverNano, Rounded, r);
  }

  /** Every call of the run that was settled has this price. */
  ghost predicate PricedAt(l: Ledger, r: RunId, p: Price) {
    forall id :: id in l.calls && l.calls[id].run == r && l.calls[id].state.Settled? ==> l.calls[id].price == p
  }

  lemma AbsorbedLimitsHold(l: Ledger, r: RunId)
    requires Good(l) && r in l.runs && AnswersWithin(l, r)
    requires forall id :: id in l.calls && l.calls[id].run == r && l.calls[id].state.Settled? ==>
               AbsorbsRounding(l.calls[id].price)
    ensures WithinLimits(l.runs[r], 0)
    ensures forall id :: id in l.calls && l.calls[id].run == r ==> !l.calls[id].exceeded
  {
    LimitsUpToRounding(l, r);
    SumZero(l.calls, Rounded, r);
  }

  /** A spending limit that one request with one output token just fits; a pinned limit is never zero. */
  function FittingLimit(p: Price, promptBytes: nat): nat {
    if WorstCaseNano(promptBytes, 1, p) == 0 then 1 else WorstCaseNano(promptBytes, 1, p)
  }

  /** One run with that limit. */
  function PinnedAlone(p: Price, promptBytes: nat): Ledger {
    var pins := Pins(0, None, Some(FittingLimit(p, promptBytes)), None);
    Ledger(map[0 := Run(pins, Amount(0, 0), Amount(0, 0))], map[], {}, Some(p), true)
  }

  function CallAlone(p: Price, promptBytes: nat): Call {
    Call(0, promptBytes, 1, Reserved, p, WorstCaseTokens(promptBytes, 1), WorstCaseNano(promptBytes, 1, p),
         0, 0, None, false)
  }

  /** ... and that request, on its way. */
  function SentAlone(p: Price, promptBytes: nat): Ledger {
    Relabelled(Reserving(PinnedAlone(p, promptBytes), 0, CallAlone(p, promptBytes)), 0, Sent)
  }

  lemma AloneIsGood(p: Price, promptBytes: nat)
    ensures Good(SentAlone(p, promptBytes))
  {
    var pinned := PinnedAlone(p, promptBytes);
    var empty := pinned.(runs := map[]);
    assert Good(empty) by {
      assert forall r :: Balanced(empty, r);
    }
    PinningKeeps(empty, 0, pinned.runs[0].pins);
    assert pinned.runs == empty.runs[0 := Run(pinned.runs[0].pins, Amount(0, 0), Amount(0, 0))];
    ReservingKeeps(pinned, 0, CallAlone(p, promptBytes));
    RelabellingKeeps(Reserving(pinned, 0, CallAlone(p, promptBytes)), 0, Sent);
  }

  /** Answered within bounds at more than its limit, its run passes it. */
  lemma AnswerPassesLimit(p: Price, promptBytes: nat, u: Usage)
    requires WithinBounds(u, promptBytes, 1) && SettledNano(u, p) > FittingLimit(p, promptBytes)
    ensures var l := Concluding(SentAlone(p, promptBytes), 0, Answer(Some(u)));
      Good(l) && 0 in l.runs && AnswersWithin(l, 0) && PricedAt(l, 0, p) && !WithinLimits(l.runs[0], 0)
  {
    AloneIsGood(p, promptBytes);
    ConcludingKeeps(SentAlone(p, promptBytes), 0, Answer(Some(u)));
  }

  /** An answer of one token to a prompt below the cap: one cached token of a thousand, or, with a dear
      cache, two thousand cached tokens. */
  function CostlyUsage(p: Price): Usage {
    if CheapCache(p) then Usage(1000, 1, 1) else Usage(2000, 2000, 1)
  }

  function CostlyPrompt(p: Price): nat {
    CostlyUsage(p).prompt - MESSAGE_OVERHEAD_TOKENS - REQUEST_OVERHEAD_TOKENS
  }

  /** It costs more than a limit that its request just fits, at every price that does not absorb rounding. */
  lemma CostlyAnswer(p: Price)
    requires !AbsorbsRounding(p)
    ensures 0 < CostlyPrompt(p) <= MAX_PROMPT_BYTES && WithinBounds(CostlyUsage(p), CostlyPrompt(p), 1)
    ensures SettledNano(CostlyUsage(p), p) > FittingLimit(p, CostlyPrompt(p))
  {
    if CheapCache(p) {
      var promptBytes, u := RoundingIsTight(p);
      WholeThousands(1, RateIn(p));
    } else {
      var promptBytes, u := DearCacheOvershoots(p, 1);
    }
  }

  /** Exactly the prices at which a provider that answers within bounds can never make a run pass its
      pinned limits. */
  lemma LimitsHoldExactly(p: Price)
    ensures (forall l, r :: Good(l) && r in l.runs && AnswersWithin(l, r) && PricedAt(l, r, p) ==>
                 WithinLimits(l.runs[r], 0))
            <==> AbsorbsRounding(p)
  {
    if AbsorbsRounding(p) {
      forall l, r | Good(l) && r in l.runs && AnswersWithin(l, r) && PricedAt(l, r, p)
        ensures WithinLimits(l.runs[r], 0)
      {
        AbsorbedLimitsHold(l, r);
      }
    } else {
      CostlyAnswer(p);
      AnswerPassesLimit(p, CostlyPrompt(p), CostlyUsage(p));
    }
  }

  // -------------------------------------------------------------------------------- the broker

  const FREE := Price(0, 0, 0, 0)

  /** The operator proofs that settle a fixed reply never contact the provider. */
  datatype Stage = Holding | Durable | Contacted

  /** The one model call in flight; `controlled` calls carry a deadline and can be cancelled. */
  datatype Flight = Flight(id: CallId, controlled: bool, fixedReply: bool, stage: Stage)

  datatype Request = Request(
    id: CallId, run: RunId, limitsRevision: nat, modelAllowed: bool, promptBytes: nat, maxOutput: nat,
    controlled: bool, late: bool, fixedReply: bool)

  datatype Result = Ok | Replayed | RefusedUnrecorded | RefusedRecorded | SaveFailed

  /** Everything `_model_call` checks before it looks at the budget. */
  predicate Admissible(l: Ledger, q: Request) {
    && q.run in l.runs && q.limitsRevision == l.runs[q.run].pins.limitsRevision && q.modelAllowed
    && l.price.Some? && l.providerBound
  }

  /** The reservation a request asks for, at the current price. */
  function Reservation(l: Ledger, q: Request): (c: Call)
    requires Admissible(l, q)
    ensures c.reservedTokens > 0
  {
    Call(q.run, q.promptBytes, q.maxOutput, Reserved, l.price.value, WorstCaseTokens(q.promptBytes, q.maxOutput),
         WorstCaseNano(q.promptBytes, q.maxOutput, l.price.value), 0, 0, None, false)
  }

  /** The record of a call refused before anything was reserved. */
  function Refusal(q: Request): Call {
    Call(q.run, q.promptBytes, q.maxOutput, Refused, FREE, 0, 0, 0, 0, None, false)
  }

  predicate Affordable(l: Ledger, c: Call)
    requires c.run in l.runs
  {
    var run := l.runs[c.run];
    && (run.pins.maxTokens.Some? ==>
          run.tokens.settled + run.tokens.reserved + c.reservedTokens <= run.pins.maxTokens.value)
    && (run.pins.maxNano.Some? ==> run.nano.settled + run.nano.reserved + c.reservedNano <= run.pins.maxNano.value)
  }

  datatype Event =
    | Pin(run: RunId, pins: Pins, usable: bool, saved: bool)
    | CancelRun(run: RunId, saved: bool)
    | Reconfigure(price: Option<Price>, bound: bool, saved: bool)
    | Ask(q: Request, saved: bool)
    | GiveUp(saved: bool)
    | Send(late: bool, saved: bool)
    | Provider
    | Return(reply: Reply, saved: bool)
    | Exception
    | Crash(saved: bool)

  ghost predicate FlightOk(state: Ledger, disk: Ledger, f: Flight, contacts: seq<CallId>) {
    && f.id in state.calls
    && match f.stage
       case Holding => state.calls[f.id].state.Reserved?
       case Durable => state.calls[f.id].state.Sent? && f.id in disk.calls
         && WasSent(disk.calls[f.id]) && f.id !in contacts
       case Contacted => state.calls[f.id].state.Sent? && f.id in contacts
  }

  ghost predicate Inv(state: Ledger, disk: Ledger, flight: Option<Flight>, contacts: seq<CallId>) {
    && Good(state) && Good(disk) && Later(disk, state)
    && Distinct(contacts)
    && (forall id :: id in contacts ==> id in disk.calls && WasSent(disk.calls[id]))
    && (flight.Some? ==> FlightOk(state, disk, flight.value, contacts))
  }

  /** The loop of `recover`, in whatever order the calls are stored. */
  method Recover(journal: Ledger) returns (l: Ledger)
    requires Good(journal)
    ensures Good(l) && Later(journal, l)
    ensures l.calls == map id | id in journal.calls :: RecoveredCall(journal.calls[id])
    ensures l == journal.(runs := l.runs, calls := l.calls)
  {
    l := journal;
    var pending := l.calls.Keys;
    while pending != {}
      invariant Good(l) && Later(journal, l)
      invariant l == journal.(runs := l.runs, calls := l.calls)
      invariant pending <= l.calls.Keys == journal.calls.Keys
      invariant forall id :: id in journal.calls ==>
        l.calls[id] == if id in pending then journal.calls[id] else RecoveredCall(journal.calls[id])
      decreases pending
    {
      var id :| id in pending;
      RecoveringOneKeeps(journal, l, id);
      l := RecoveringOne(l, id);
      pending := pending - {id};
    }
  }

  class Broker {
    var state: Ledger
    var disk: Ledger
    var flight: Option<Flight>
    ghost var contacts: seq<CallId> // the provider, each time it was contacted

    ghost predicate Valid()
      reads this
    {
      Inv(state, disk, flight, contacts)
    }

    constructor ()
      ensures Valid() && contacts == [] && flight.None?
      ensures state == disk == Ledger(map[], map[], {}, None, false)
    {
      state, disk := Ledger(map[], map[], {}, None, false), Ledger(map[], map[], {}, None, false);
      flight, contacts := None, [];
    }

    /** A section's change of memory, followed by `_save`. */
    method Adopt(next: Ledger, saved: bool)
      requires Valid() && Good(next) && Later(state, next)
      requires flight.None? || next.calls == state.calls
      modifies this`state, this`disk
      ensures Valid() && Later(old(disk), disk)
      ensures state == next && disk == if saved then next else old(disk)
    {
      LaterTransitive(disk, state, next);
      state := next;
      if saved {
        disk := state;
      }
    }

    /** `pin_run`, given whether the named binding is usable now. */
    method PinRun(id: RunId, pins: Pins, bindingUsable: bool, saved: bool) returns (result: Result)
      requires Valid()
      modifies this`state, this`disk
      ensures Valid() && Later(old(disk), disk)
      ensures result.RefusedUnrecorded? || result.Replayed? ==> state == old(state) && disk == old(disk)
      ensures result.Replayed? ==> id in state.runs && state.runs[id].pins == pins
      ensures result.Ok? || result.SaveFailed? <==> id !in old(state).runs && (pins.credential.None? || bindingUsable)
      ensures result.Ok? || result.SaveFailed? ==>
        && (result.Ok? <==> saved)
        && state == old(state).(runs := old(state).runs[id := Run(pins, Amount(0, 0), Amount(0, 0))])
      ensures result.Ok? ==> disk == state
    {
      if pins.credential.Some? && !bindingUsable {
        return RefusedUnrecorded;
      }
      if id in state.runs {
        return if state.runs[id].pins == pins then Replayed else RefusedUnrecorded;
      }
      PinningKeeps(state, id, pins);
      Adopt(state.(runs := state.runs[id := Run(pins, Amount(0, 0), Amount(0, 0))]), saved);
      return if saved then Ok else SaveFailed;
    }

    /** `cancel_review` and `cancel_browser_model`: a tombstone, whether or not the run exists. */
    method Cancel(run: RunId, saved: bool)
      requires Valid()
      modifies this`state, this`disk
      ensures Valid() && Later(old(disk), disk)
      ensures state == old(state).(cancelled := old(state).cancelled + {run})
      ensures saved ==> disk == state
    {
      CallsAndRunsKept(state, state.(cancelled := state.cancelled + {run}));
      Adopt(state.(cancelled := state.cancelled + {run}), saved);
    }

    /** `price_set`, `price_clear` and `provider_bind`; a call keeps the price it was reserved at. */
    method Configure(price: Option<Price>, providerBound: bool, saved: bool)
      requires Valid()
      modifies this`state, this`disk
      ensures Valid() && Later(old(disk), disk)
      ensures state == old(state).(price := price, providerBound := providerBound)
      ensures saved ==> disk == state
    {
      CallsAndRunsKept(state, state.(price := price, providerBound := providerBound));
      Adopt(state.(price := price, providerBound := providerBound), saved);
    }

    /** `_refuse_call`: a refusal that is recorded, so that the call id is spent. */
    method RefuseCall(q: Request, saved: bool)
      requires Valid() && q.id !in state.calls && flight.None?
      modifies this`state, this`disk
      ensures Valid() && Later(old(disk), disk)
      ensures state == old(state).(calls := old(state).calls[q.id := Refusal(q)])
      ensures saved ==> disk == state
    {
      var call := Refusal(q);
      RecordingKeeps(state, q.id, call);
      Adopt(state.(calls := state.calls[q.id := call]), saved);
    }

    /** The reservation itself, durable before anything can be sent. */
    method Hold(q: Request, saved: bool)
      requires Valid() && flight.None? && q.id !in state.calls
      requires Admissible(state, q) && Affordable(state, Reservation(state, q))
      modifies this`state, this`disk, this`flight
      ensures Valid() && Later(old(disk), disk)
      ensures state == Reserving(old(state), q.id, Reservation(old(state), q))
      ensures saved ==> disk == state && flight == Some(Flight(q.id, q.controlled, q.fixedReply, Holding))
      ensures !saved ==> disk == old(disk) && flight.None?
    {
      var call := Reservation(state, q);
      ReservingKeeps(state, q.id, call);
      Adopt(Reserving(state, q.id, call), saved);
      if saved {
        flight := Some(Flight(q.id, q.controlled, q.fixedReply, Holding));
      }
    }

    /** The first section of `_model_call`: admission, or a refusal that spends the call id. */
    method Reserve(q: Request, saved: bool) returns (result: Result)
      requires Valid() && flight.None?
      modifies this`state, this`disk, this`flight
      ensures Valid() && Later(old(disk), disk)
      ensures result.Replayed? || result.RefusedUnrecorded? <==>
        q.id in old(state).calls || (q.controlled && (q.late || q.run in old(state).cancelled))
      ensures result.Replayed? || result.RefusedUnrecorded? ==> state == old(state) && disk == old(disk)
      ensures result.Replayed? ==> q.id in state.calls && state.calls[q.id].state.Settled?
      ensures result.Ok? || result.SaveFailed? <==>
        && !(result.Replayed? || result.RefusedUnrecorded?)
        && Admissible(old(state), q) && Affordable(old(state), Reservation(old(state), q))
      ensures result.Ok? || result.SaveFailed? ==> (result.Ok? <==> saved)
      ensures result.Ok? || result.SaveFailed? ==> state == Reserving(old(state), q.id, Reservation(old(state), q))
      ensures result.Ok? ==> disk == state && flight == Some(Flight(q.id, q.controlled, q.fixedReply, Holding))
      ensures !result.Ok? ==> flight.None?
      ensures result.RefusedRecorded? ==>
        state == old(state).(calls := old(state).calls[q.id := Refusal(q)])
    {
      if q.controlled && (q.late || q.run in state.cancelled) {
        return RefusedUnrecorded;
      }
      if q.id in state.calls {
        return if state.calls[q.id].state.Settled? then Replayed else RefusedUnrecorded;
      }
      if !Admissible(state, q) || !Affordable(state, Reservation(state, q)) {
        RefuseCall(q, saved);
        return RefusedRecorded;
      }
      Hold(q, saved);
      return if saved then Ok else SaveFailed;
    }

    /** The call in flight is withdrawn before it was sent: its vault read was refused, or its run
        was cancelled or its deadline passed while it waited. */
    method Withdraw(saved: bool)
      requires Valid() && flight.Some? && flight.value.stage.Holding?
      modifies this`state, this`disk, this`flight
      ensures Valid() && Later(old(disk), disk) && flight.None?
      ensures state == Releasing(old(state), old(flight).value.id, Refused)
      ensures saved ==> disk == state
    {
      var id := flight.value.id;
      ReleasingKeeps(state, id, Refused);
      flight := None;
      Adopt(Releasing(state, id, Refused), saved);
    }

    /** The send admission, serialised against cancellation: nothing leaves unless `sent` is durable. */
    method MarkSent(late: bool, saved: bool) returns (admitted: bool)
      requires Valid() && flight.Some? && flight.value.stage.Holding?
      modifies this`state, this`disk, this`flight
      ensures Valid() && Later(old(disk), disk)
      ensures var f := old(flight).value; var run := old(state).calls[f.id].run;
        if f.controlled && (late || run in old(state).cancelled) then
          !admitted && state == Releasing(old(state), f.id, Refused)
        else
          admitted == saved && state == Relabelled(old(state), f.id, Sent)
      ensures saved ==> disk == state
      ensures flight == if admitted then Some(old(flight).value.(stage := Durable)) else None
    {
      var f := flight.value;
      if f.controlled && (late || state.calls[f.id].run in state.cancelled) {
        Withdraw(saved);
        return false;
      }
      RelabellingKeeps(state, f.id, Sent);
      assert f.id !in contacts;
      flight := None;
      Adopt(Relabelled(state, f.id, Sent), saved);
      if saved {
        flight := Some(f.(stage := Durable));
      }
      return saved;
    }

    /** `provider`: the only place where anything leaves the host. */
    method Contact()
      requires Valid() && flight.Some? && flight.value.stage.Durable? && !flight.value.fixedReply
      modifies this`flight, this`contacts
      ensures Valid() && contacts == old(contacts) + [old(flight).value.id]
      ensures flight == Some(old(flight).value.(stage := Contacted))
    {
      contacts := contacts + [flight.value.id];
      flight := Some(flight.value.(stage := Contacted));
    }

    /** The last section of `_model_call`: release, keep or settle by what came back. */
    method Conclude(reply: Reply, saved: bool)
      requires Valid() && flight.Some?
      requires flight.value.stage.Contacted? || (flight.value.stage.Durable? && flight.value.fixedReply)
      requires reply.Answer? && reply.usage.Some? ==> reply.usage.value.cached <= reply.usage.value.prompt
      modifies this`state, this`disk, this`flight
      ensures Valid() && Later(old(disk), disk) && flight.None?
      ensures var id := old(flight).value.id;
        old(state).calls[id].run in old(state).runs && state == Concluding(old(state), id, reply)
      ensures saved ==> disk == state
    {
      var id := flight.value.id;
      assert CallOk(state, state.calls[id]);
      ConcludingKeeps(state, id, reply);
      flight := None;
      Adopt(Concluding(state, id, reply), saved);
    }

    /** An exception nobody catches ends the request and leaves its call as it is. */
    method Abort()
      requires Valid()
      modifies this`flight
      ensures Valid() && flight.None?
    {
      flight := None;
    }

    /** A crash and restart: memory is gone, the journal is reloaded and `recover` walks every call.
        What was sent stays reserved as uncertain; only calls that were never sent are released. */
    method Restart(saved: bool)
      requires Valid()
      modifies this`state, this`disk, this`flight
      ensures Valid() && Later(old(disk), disk) && flight.None?
      ensures state.calls == map id | id in old(disk).calls :: RecoveredCall(old(disk).calls[id])
      ensures forall id :: id in contacts ==> id in state.calls && !state.calls[id].state.Abandoned?
      ensures saved ==> disk == state
    {
      state := disk;
      flight := None;
      var l := Recover(disk);
      Adopt(l, saved);
    }

    /** Any interleaving of requests, sections, lost saves, uncaught exceptions and crashes. In memory
        and in the journal every run's totals equal the sums over its calls, and its limits hold up to
        flagged overshoot; the provider saw each call id at most once, and only under a durable record. */
    method Schedule(events: seq<Event>)
      requires Valid()
      modifies this
      ensures Valid() && Later(old(disk), disk) && old(contacts) <= contacts
      ensures forall r :: r in state.runs ==> Conserved(state, r) && WithinBudget(state, r)
      ensures forall r :: r in disk.runs ==> Conserved(disk, r) && WithinBudget(disk, r)
      ensures forall r :: r in state.runs && Promised(state, r) ==>
        WithinLimits(state.runs[r], Sum(state.calls, Rounded, r))
      ensures forall r :: r in disk.runs && Promised(disk, r) ==>
        WithinLimits(disk.runs[r], Sum(disk.calls, Rounded, r))
      ensures Distinct(contacts)
      ensures forall id :: id in contacts ==> id in disk.calls && WasSent(disk.calls[id])
    {
      for i := 0 to |events|
        invariant Valid() && Later(old(disk), disk) && old(contacts) <= contacts
      {
        ghost var before := disk;
        match events[i] {
          case Pin(run, pins, usable, saved) => var _ := PinRun(run, pins, usable, saved);
          case CancelRun(run, saved) => Cancel(run, saved);
          case Reconfigure(price, bound, saved) => Configure(price, bound, saved);
          case Ask(q, saved) => if flight.None? { var _ := Reserve(q, saved); }
          case GiveUp(saved) => if flight.Some? && flight.value.stage.Holding? { Withdraw(saved); }
          case Send(late, saved) => if flight.Some? && flight.value.stage.Holding? { var _ := MarkSent(late, saved); }
          case Provider => if flight.Some? && flight.value.stage.Durable? && !flight.value.fixedReply { Contact(); }
          case Return(reply, saved) =>
            if && flight.Some?
               && (reply.Answer? && reply.usage.Some? ==> reply.usage.value.cached <= reply.usage.value.prompt)
               && (flight.value.stage.Contacted? || (flight.value.stage.Durable? && flight.value.fixedReply)) {
              Conclude(reply, saved);
            }
          case Exception => Abort();
          case Crash(saved) => Restart(saved);
        }
        LaterTransitive(old(disk), before, disk);
      }
      EveryRunBalanced(state);
      EveryRunBalanced(disk);
      forall l, r | l in {state, disk} && r in l.runs && Promised(l, r)
        ensures WithinLimits(l.runs[r], Sum(l.calls, Rounded, r))
      {
        LimitsUpToRounding(l, r);
      }
    }
  }

  /** A fresh broker with one run pinned. */
  method PinAlone(p: Price, promptBytes: nat) returns (b: Broker)
    ensures fresh(b) && b.Valid() && b.flight.None? && b.disk == b.state == PinnedAlone(p, promptBytes)
  {
    b := new Broker();
    b.Configure(Some(p), true, true);
    var pinned := b.PinRun(0, Pins(0, None, Some(FittingLimit(p, promptBytes)), None), true, true);
  }

  method SendAlone(p: Price, promptBytes: nat) returns (b: Broker)
    ensures fresh(b) && b.Valid() && b.disk == b.state == SentAlone(p, promptBytes)
    ensures b.flight == Some(Flight(0, false, false, Contacted))
  {
    b := PinAlone(p, promptBytes);
    var q := Request(0, 0, 0, true, promptBytes, 1, false, false, false);
    assert Admissible(b.state, q) && Reservation(b.state, q) == CallAlone(p, promptBytes);
    assert Affordable(b.state, CallAlone(p, promptBytes));
    var reserved := b.Reserve(q, true);
    var admitted := b.MarkSent(false, true);
    b.Contact();
  }

  /** The broker's own sections come to that at every price that does not absorb rounding, with one
      ordinary request: a prompt below the cap, one output token, a limit above zero. */
  method SpendPastLimit(p: Price) returns (b: Broker)
    requires !AbsorbsRounding(p)
    ensures fresh(b) && b.Valid() && b.disk == b.state && 0 in b.state.runs
    ensures AnswersWithin(b.state, 0) && PricedAt(b.state, 0, p) && !WithinLimits(b.state.runs[0], 0)
    ensures b.state.runs[0].pins.maxNano.Some? && b.state.runs[0].pins.maxNano.value > 0
    ensures forall id :: id in b.state.calls ==>
      0 < b.state.calls[id].promptBytes <= MAX_PROMPT_BYTES && b.state.calls[id].maxOutput == 1
  {
    CostlyAnswer(p);
    AnswerPassesLimit(p, CostlyPrompt(p), CostlyUsage(p));
    b := SendAlone(p, CostlyPrompt(p));
    b.Conclude(Answer(Some(CostlyUsage(p))), true);
  }
}
