/**
 * One double-auction sample as the programs read it: repetitions holding
 * (buyer, seller, price) transactions, and agents with an ID, a strategy,
 * a list of unit values and a reported score.  This module holds the
 * bucketing of transaction prices per repetition and agent, role inference,
 * value normalisation and the per-agent average payoff, which every
 * program that reads samples repeats.
 */
module Market {

  const REPS: nat := 5
  const UNITS: nat := 10
  const V_MIN: int := 61
  const V_MAX: int := 260

  datatype Transaction = Transaction(buyerId: int, sellerId: int, price: int)

  /** A <repetition> element: its 1-based id and its transactions in file order. */
  datatype Repetition = Repetition(id: int, transactions: seq<Transaction>)

  /** An <agent> element of <scores>. */
  datatype Agent = Agent(id: int, strategy: string, values: seq<int>, score: real)

  datatype Sample = Sample(repetitions: seq<Repetition>, agents: seq<Agent>)

  /** Every repetition id names one of the REPS price maps; any other id makes the source dereference null. */
  predicate ValidRepetitionIds(reps: seq<Repetition>) {
    forall i :: 0 <= i < |reps| ==> 1 <= reps[i].id <= REPS
  }

  /** No agent trades with itself, which is what keeps the per-agent price lists capped. */
  predicate NoSelfTrade(reps: seq<Repetition>) {
    forall i, j :: 0 <= i < |reps| && 0 <= j < |reps[i].transactions| ==>
      reps[i].transactions[j].buyerId != reps[i].transactions[j].sellerId
  }

  /** A strategy name that can stand as one token of a profile key. */
  predicate IsToken(name: string) {
    |name| > 0 && ' ' !in name
  }

  /**
   * The samples the simulator writes: valid repetition ids, no self trades,
   * at least one agent, UNITS values per agent or more, and strategy names
   * without spaces.
   */
  predicate WellFormed(s: Sample) {
    && ValidRepetitionIds(s.repetitions)
    && NoSelfTrade(s.repetitions)
    && |s.agents| > 0
    && (forall i :: 0 <= i < |s.agents| ==> |s.agents[i].values| >= UNITS)
    && (forall i :: 0 <= i < |s.agents| ==> IsToken(s.agents[i].strategy))
  }

  predicate AllWellFormed(samples: seq<Sample>) {
    forall i :: 0 <= i < |samples| ==> WellFormed(samples[i])
  }

  /** values.getFirst() > values.getLast(): buyers' values fall, sellers' rise. */
  predicate IsBuyer(values: seq<int>)
    requires |values| > 0
  {
    values[0] > values[|values| - 1]
  }

  /** A unit value as a distance from the bottom of the value range (buyers) or from its top (sellers). */
  function NormalizedValue(isBuyer: bool, v: int): (n: int)
    ensures V_MIN <= v <= V_MAX ==> 0 <= n <= V_MAX - V_MIN
  {
    if isBuyer then v - V_MIN else V_MAX - v
  }

  /** The buyer's and the seller's reading of the same value add up to the width of the range. */
  lemma NormalizedValueMirror(v: int)
    ensures NormalizedValue(true, v) + NormalizedValue(false, v) == V_MAX - V_MIN
  {
  }

  /** The surplus of one unit traded at price: value minus price for a buyer, price minus value for a seller. */
  function UnitPayoff(isBuyer: bool, value: int, price: int): (u: int)
    ensures isBuyer ==> (u >= 0 <==> price <= value)
    ensures !isBuyer ==> (u >= 0 <==> price >= value)
    ensures u == 0 <==> price == value
  {
    if isBuyer then value - price else price - value
  }

  /** A trade gains the buyer exactly what it costs the seller holding the same value. */
  lemma UnitPayoffOpposite(value: int, price: int)
    ensures UnitPayoff(true, value, price) == -UnitPayoff(false, value, price)
  {
  }

  // ---------------------------------------------------------------------
  // Bucketing: <repetition index, <agent ID, prices in arrival order>>

  type PriceBook = seq<map<int, seq<int>>>

  function EmptyBook(): (b: PriceBook)
    ensures |b| == REPS && forall r :: 0 <= r < REPS ==> b[r] == map[]
  {
    seq(REPS, r => map[])
  }

  /** The agent's price list in one repetition's map, empty when it has none. */
  function Prices(m: map<int, seq<int>>, id: int): seq<int> {
    if id in m then m[id] else []
  }

  /**
   * One transaction of repetition index r: both parties get a list if they
   * have none, and the price is appended to the buyer's list and then to
   * the seller's, unless one of the two lists already holds UNITS prices.
   */
  function Record(book: PriceBook, r: int, t: Transaction): PriceBook
    requires 0 <= r < |book|
  {
    var m0 := book[r];
    var m1 := if t.buyerId in m0 then m0 else m0[t.buyerId := []];
    var m2 := if t.sellerId in m1 then m1 else m1[t.sellerId := []];
    if |m2[t.buyerId]| == UNITS || |m2[t.sellerId]| == UNITS then book[r := m2]
    else
      var m3 := m2[t.buyerId := m2[t.buyerId] + [t.price]];
      book[r := m3[t.sellerId := m3[t.sellerId] + [t.price]]]
  }

  /** The transactions ts, in order, recorded under repetition index r. */
  function RecordAll(book: PriceBook, r: int, ts: seq<Transaction>): (b: PriceBook)
    requires 0 <= r < |book|
    ensures |b| == |book|
    ensures forall k :: 0 <= k < |book| && k != r ==> b[k] == book[k]
  {
    if |ts| == 0 then book else Record(RecordAll(book, r, ts[..|ts| - 1]), r, ts[|ts| - 1])
  }

  /** The price book after reading the repetitions in file order; a repetition with id n fills map n - 1. */
  function Bucketed(reps: seq<Repetition>): (b: PriceBook)
    requires ValidRepetitionIds(reps)
    ensures |b| == REPS
  {
    if |reps| == 0 then EmptyBook()
    else
      var last := reps[|reps| - 1];
      RecordAll(Bucketed(reps[..|reps| - 1]), last.id - 1, last.transactions)
  }

  /**
   * A transaction reaches both parties' lists or neither: it is appended to
   * both when neither list holds UNITS prices and dropped otherwise, both
   * parties have a list afterwards, and nothing else changes.
   */
  lemma RecordBothOrNeither(book: PriceBook, r: int, t: Transaction)
    requires 0 <= r < |book|
    requires t.buyerId != t.sellerId
    ensures var b := Record(book, r, t);
      var buyer, seller := Prices(book[r], t.buyerId), Prices(book[r], t.sellerId);
      && |b| == |book|
      && b[r].Keys == book[r].Keys + {t.buyerId, t.sellerId}
      && (if |buyer| != UNITS && |seller| != UNITS
          then b[r][t.buyerId] == buyer + [t.price] && b[r][t.sellerId] == seller + [t.price]
          else b[r][t.buyerId] == buyer && b[r][t.sellerId] == seller)
      && (forall id :: id != t.buyerId && id != t.sellerId ==> Prices(b[r], id) == Prices(book[r], id))
      && (forall k :: 0 <= k < |book| && k != r ==> b[k] == book[k])
  {
  }

  /** No list in the book holds more than UNITS prices. */
  predicate Capped(book: PriceBook) {
    forall r, id :: 0 <= r < |book| && id in book[r] ==> |book[r][id]| <= UNITS
  }

  lemma RecordCapped(book: PriceBook, r: int, t: Transaction)
    requires 0 <= r < |book| && Capped(book)
    requires t.buyerId != t.sellerId
    ensures Capped(Record(book, r, t))
  {
    RecordBothOrNeither(book, r, t);
  }

  lemma {:induction false} RecordAllCapped(book: PriceBook, r: int, ts: seq<Transaction>)
    requires 0 <= r < |book| && Capped(book)
    requires forall j :: 0 <= j < |ts| ==> ts[j].buyerId != ts[j].sellerId
    ensures Capped(RecordAll(book, r, ts))
  {
    if |ts| > 0 {
      RecordAllCapped(book, r, ts[..|ts| - 1]);
      RecordCapped(RecordAll(book, r, ts[..|ts| - 1]), r, ts[|ts| - 1]);
    }
  }

  /** Without self trades, every price list of a bucketed sample holds at most UNITS prices. */
  lemma {:induction false} BucketedCapped(reps: seq<Repetition>)
    requires ValidRepetitionIds(reps) && NoSelfTrade(reps)
    ensures Capped(Bucketed(reps))
  {
    if |reps| > 0 {
      var init := reps[..|reps| - 1];
      assert ValidRepetitionIds(init) && NoSelfTrade(init);
      BucketedCapped(init);
      var last := reps[|reps| - 1];
      assert forall j :: 0 <= j < |last.transactions| ==>
        last.transactions[j].buyerId != last.transactions[j].sellerId;
      RecordAllCapped(Bucketed(init), last.id - 1, last.transactions);
    }
  }

  /**
   * The bucketing loop: per repetition, per transaction, create the
   * missing lists, skip when either list is full, append to both.
   */
  method BucketTransactions(reps: seq<Repetition>) returns (book: PriceBook)
    requires ValidRepetitionIds(reps)
    ensures book == Bucketed(reps)
  {
    book := seq(REPS, r => map[]);
    var i := 0;
    while i < |reps|
      invariant 0 <= i <= |reps|
      invariant book == Bucketed(reps[..i])
    {
      assert reps[..i + 1][..i] == reps[..i];
      var id := reps[i].id - 1;
      var ts := reps[i].transactions;
      ghost var start := book;
      var j := 0;
      while j < |ts|
        invariant 0 <= j <= |ts|
        invariant book == RecordAll(start, id, ts[..j])
      {
        assert ts[..j + 1][..j] == ts[..j];
        book := RecordTransaction(book, id, ts[j]);
        j := j + 1;
      }
      assert ts[..|ts|] == ts;
      i := i + 1;
    }
    assert reps[..|reps|] == reps;
  }

  /** The body of the bucketing loop for one transaction, step by step on the repetition's map. */
  method RecordTransaction(book: PriceBook, r: int, t: Transaction) returns (b: PriceBook)
    requires 0 <= r < |book|
    ensures b == Record(book, r, t)
  {
    var m := book[r];
    if t.buyerId !in m {
      m := m[t.buyerId := []];
    }
    if t.sellerId !in m {
      m := m[t.sellerId := []];
    }
    if |m[t.buyerId]| == UNITS || |m[t.sellerId]| == UNITS {
      return book[r := m];
    }
    m := m[t.buyerId := m[t.buyerId] + [t.price]];
    m := m[t.sellerId := m[t.sellerId] + [t.price]];
    b := book[r := m];
  }

  // ---------------------------------------------------------------------
  // Per-agent payoff

  /** Every price list of the agent is covered by its values, so values.get(p) never fails. */
  predicate PricesFit(book: PriceBook, a: Agent) {
    forall r :: 0 <= r < |book| && a.id in book[r] ==> |book[r][a.id]| <= |a.values|
  }

  /** The summed unit payoffs of the first n prices, unit p valued at values[p]. */
  function RepetitionTotal(isBuyer: bool, values: seq<int>, prices: seq<int>, n: nat): int
    requires n <= |prices| <= |values|
  {
    if n == 0 then 0
    else RepetitionTotal(isBuyer, values, prices, n - 1) + UnitPayoff(isBuyer, values[n - 1], prices[n - 1])
  }

  /** The agent's payoff in repetition r: 0 when it has no price list there. */
  function AgentTotal(book: PriceBook, a: Agent, r: nat): int
    requires r < |book| && |a.values| > 0 && PricesFit(book, a)
  {
    if a.id in book[r] then
      RepetitionTotal(IsBuyer(a.values), a.values, book[r][a.id], |book[r][a.id]|)
    else 0
  }

  function SumFirst(totals: seq<real>, n: nat): real
    requires n <= |totals|
  {
    if n == 0 then 0.0 else SumFirst(totals, n - 1) + totals[n - 1]
  }

  /** The mean of REPS per-repetition totals; repetitions without trades are zeros in the mean. */
  function MeanOverReps(totals: seq<real>): real
    requires |totals| == REPS
  {
    SumFirst(totals, REPS) / REPS as real
  }

  function AverageOverReps(book: PriceBook, a: Agent): real
    requires |book| == REPS && |a.values| > 0 && PricesFit(book, a)
  {
    MeanOverReps(seq(REPS, r requires 0 <= r < REPS => AgentTotal(book, a, r) as real))
  }

  /** Totals 10, 10, 0, 0, 0 average to 4: empty repetitions stay in the denominator. */
  lemma MeanOverRepsExample()
    ensures MeanOverReps([10.0, 10.0, 0.0, 0.0, 0.0]) == 4.0
  {
  }

  /** An agent that never traded has payoff 0. */
  lemma AverageWithoutTrades(book: PriceBook, a: Agent)
    requires |book| == REPS && |a.values| > 0
    requires forall r :: 0 <= r < REPS ==> a.id !in book[r]
    ensures AverageOverReps(book, a) == 0.0
  {
    var totals := seq(REPS, r requires 0 <= r < REPS => AgentTotal(book, a, r) as real);
    SumFirstZeros(totals, REPS);
  }

  lemma {:induction false} SumFirstZeros(totals: seq<real>, n: nat)
    requires n <= |totals| && forall k :: 0 <= k < n ==> totals[k] == 0.0
    ensures SumFirst(totals, n) == 0.0
  {
    if n > 0 {
      SumFirstZeros(totals, n - 1);
    }
  }

  /**
   * The payoff loop: per-repetition totals in an array, summed and divided
   * by REPS.
   */
  method AgentPayoff(book: PriceBook, a: Agent) returns (avg: real)
    requires |book| == REPS && |a.values| > 0 && PricesFit(book, a)
    ensures avg == AverageOverReps(book, a)
  {
    var isBuyer := a.values[0] > a.values[|a.values| - 1];
    var totals := new real[REPS](_ => 0.0);
    for r := 0 to REPS
      invariant forall k :: 0 <= k < r ==> totals[k] == AgentTotal(book, a, k) as real
      invariant forall k :: r <= k < REPS ==> totals[k] == 0.0
    {
      if a.id !in book[r] {
        continue;
      }
      var prices := book[r][a.id];
      for p := 0 to |prices|
        invariant totals[r] == RepetitionTotal(isBuyer, a.values, prices, p) as real
        invariant forall k :: 0 <= k < r ==> totals[k] == AgentTotal(book, a, k) as real
        invariant forall k :: r < k < REPS ==> totals[k] == 0.0
      {
        var price := prices[p];
        if isBuyer {
          totals[r] := totals[r] + (a.values[p] - price) as real;
        } else {
          totals[r] := totals[r] + (price - a.values[p]) as real;
        }
      }
    }
    avg := 0.0;
    for r := 0 to REPS
      invariant avg == SumFirst(totals[..], r)
    {
      avg := avg + totals[r];
    }
    assert totals[..] == seq(REPS, r requires 0 <= r < REPS => AgentTotal(book, a, r) as real);
    avg := avg / REPS as real;
  }

  /** In a well-formed sample every agent's price lists are covered by its values. */
  lemma WellFormedPricesFit(s: Sample, i: int)
    requires WellFormed(s) && 0 <= i < |s.agents|
    ensures PricesFit(Bucketed(s.repetitions), s.agents[i])
  {
    BucketedCapped(s.repetitions);
  }
}
