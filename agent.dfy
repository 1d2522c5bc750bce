/**
 * The search worker of src/agent.rs.
 *
 * A worker holds at most one request. Every input (a new request, or a
 * request to go on) makes it check one batch of at most 2^24 seeds
 * `start, start + add, ...` not above `u32::MAX`, in increasing order, and
 * answer with exactly one output: the first valid seed, the first error, or,
 * when the whole batch is invalid, progress (with `start` moved past the
 * batch) or "not found" (when the next batch would start beyond `u32::MAX`).
 * The comparator is a parameter: `SearchFrom` calls it as
 * `merchant.seed_valid(seed as i32)`.
 */
module Agent {
  import opened Wrappers
  import opened Ints
  import opened Merchant

  const PROGRESS_INCREMENT: int := 0x100_0000
  const PROGRESS_MAX: int := U32_MAX + 1

  datatype AgentStart = AgentStart(start: u32, add: u32, date: i32, merchant: TravelingMerchant)

  datatype AgentInput = Start(request: AgentStart) | Continue

  datatype AgentOutput = Error(message: string) | SeedFound(seed: i32) | SeedNotFound | Progress

  /** The comparator a worker runs on each seed. */
  type Checker = (TravelingMerchant, i32) -> Result<bool>

  /** The `k`-th seed of the batch that begins at `request.start`. */
  function BatchSeed(request: AgentStart, k: int): int
  {
    request.start + request.add * k
  }

  /** Whether the batch reaches its `k`-th seed: fewer than 2^24 seeds before it, and not beyond `u32::MAX`. */
  predicate InBatch(request: AgentStart, k: int)
  {
    0 <= k < PROGRESS_INCREMENT && BatchSeed(request, k) <= U32_MAX
  }

  /** The comparator's answer for a seed, `merchant.seed_valid(seed as i32)`; a number outside `u32` counts as invalid. */
  function CheckSeed(check: Checker, merchant: TravelingMerchant, seed: int): Result<bool>
  {
    if 0 <= seed <= U32_MAX then check(merchant, U32AsI32(seed)) else Ok(false)
  }

  /** The comparator's answer for the `k`-th seed of the batch (a seed outside the batch counts as invalid). */
  function Checked(check: Checker, request: AgentStart, k: int): Result<bool>
  {
    if InBatch(request, k) then CheckSeed(check, request.merchant, BatchSeed(request, k))
    else Ok(false)
  }

  datatype BatchOutcome = Exhausted | Hit(seed: u32) | Failed(message: string)

  /** How an answer that stops the batch ends it. */
  function Decision(answer: Result<bool>, seed: u32): BatchOutcome
  {
    match answer
    case Err(message) => Failed(message)
    case Ok(valid) => if valid then Hit(seed) else Exhausted
  }

  /** The batch from its `k`-th seed on, stopping at the first seed that is valid or fails. */
  function SearchFrom(check: Checker, request: AgentStart, k: nat): BatchOutcome
    decreases PROGRESS_INCREMENT - k
  {
    if !InBatch(request, k) then Exhausted
    else
      match Checked(check, request, k)
      case Err(message) => Failed(message)
      case Ok(valid) => if valid then Hit(BatchSeed(request, k)) else SearchFrom(check, request, k + 1)
  }

  /** How a batch's outcome is answered: the new stored request and the output. */
  function Answer(request: AgentStart, outcome: BatchOutcome): (Option<AgentStart>, Option<AgentOutput>)
  {
    match outcome
    case Hit(seed) => (None, Some(SeedFound(WrapI32(U32AsI32(seed) - request.date))))
    case Failed(message) => (None, Some(Error(message)))
    case Exhausted =>
      var next := request.start + request.add * PROGRESS_INCREMENT;
      if next <= U32_MAX then (Some(request.(start := next)), Some(Progress))
      else (None, Some(SeedNotFound))
  }

  /** The answer of one input: the new stored request and the one output, if any. */
  function Step(check: Checker, state: Option<AgentStart>, msg: AgentInput): (Option<AgentStart>, Option<AgentOutput>)
  {
    var current := if msg.Start? then Some(msg.request) else state;
    match current
    case None => (None, None)
    case Some(request) => Answer(request, SearchFrom(check, request, 0))
  }

  /** An input with a request answers the outcome of that request's batch. */
  lemma StepAnswers(check: Checker, state: Option<AgentStart>, msg: AgentInput, request: AgentStart)
    requires (if msg.Start? then Some(msg.request) else state) == Some(request)
    ensures Step(check, state, msg) == Answer(request, SearchFrom(check, request, 0))
  {
  }

  /** What the coordinator guarantees of a request: a step of at least one and below 256, so that `add * 2^24` fits in `u32`. */
  predicate RequestOk(request: AgentStart)
  {
    1 <= request.add < 256
  }

  /** Later seeds of a stride are larger. */
  lemma BatchSeedMonotone(request: AgentStart, i: int, j: int)
    requires 0 <= i <= j
    ensures BatchSeed(request, i) <= BatchSeed(request, j)
  {
    assert request.add * (j - i) >= 0;
    assert BatchSeed(request, j) == BatchSeed(request, i) + request.add * (j - i);
  }

  /** The `j`-th seed is the first from the `k`-th on whose answer stops the batch. */
  predicate FirstDecisive(check: Checker, request: AgentStart, k: int, j: int)
  {
    && k <= j && InBatch(request, j)
    && Checked(check, request, j) != Ok(false)
    && forall i :: k <= i < j ==> Checked(check, request, i) == Ok(false)
  }

  /**
   * The batch ends without a result exactly when every remaining seed of it
   * is invalid; otherwise its result is decided by the first seed that is
   * valid or fails.
   */
  lemma {:induction false} SearchOutcome(check: Checker, request: AgentStart, k: nat)
    ensures SearchFrom(check, request, k) == Exhausted
      <==> forall j :: k <= j && InBatch(request, j) ==> Checked(check, request, j) == Ok(false)
    ensures SearchFrom(check, request, k) != Exhausted ==>
      exists j :: FirstDecisive(check, request, k, j)
        && SearchFrom(check, request, k) == Decision(Checked(check, request, j), BatchSeed(request, j))
    decreases PROGRESS_INCREMENT - k
  {
    if InBatch(request, k) {
      SearchOutcome(check, request, k + 1);
      if Checked(check, request, k) == Ok(false) {
        if SearchFrom(check, request, k + 1) != Exhausted {
          var j :| FirstDecisive(check, request, k + 1, j)
            && SearchFrom(check, request, k + 1) == Decision(Checked(check, request, j), BatchSeed(request, j));
          assert FirstDecisive(check, request, k, j);
        }
      } else {
        assert FirstDecisive(check, request, k, k);
      }
    } else {
      forall j | k <= j
        ensures !InBatch(request, j)
      {
        BatchSeedMonotone(request, k, j);
      }
    }
  }

  /** The seeds of a batch lie `add` apart. */
  lemma BatchSeedNext(request: AgentStart, k: int)
    ensures BatchSeed(request, k + 1) == BatchSeed(request, k) + request.add
  {
  }

  /** One seed of the search: an invalid seed passes on to the next, any other answer decides the batch. */
  lemma SearchStep(check: Checker, request: AgentStart, k: nat)
    requires InBatch(request, k)
    ensures var answer := check(request.merchant, U32AsI32(BatchSeed(request, k)));
      SearchFrom(check, request, k)
        == if answer == Ok(false) then SearchFrom(check, request, k + 1) else Decision(answer, BatchSeed(request, k))
  {
  }

  /** The `for` loop over one batch, up to the first seed that is valid or fails. */
  method SearchBatch(check: Checker, request: AgentStart) returns (outcome: BatchOutcome)
    ensures outcome == SearchFrom(check, request, 0)
  {
    var seed := request.start;
    var count := 0;
    while count < PROGRESS_INCREMENT && seed <= U32_MAX
      invariant 0 <= count <= PROGRESS_INCREMENT
      invariant seed == BatchSeed(request, count)
      invariant SearchFrom(check, request, 0) == SearchFrom(check, request, count)
      decreases PROGRESS_INCREMENT - count
    {
      SearchStep(check, request, count);
      var answer := check(request.merchant, U32AsI32(seed));
      match answer {
        case Ok(seedValid) =>
          if seedValid {
            return Hit(seed);
          }
        case Err(error) =>
          return Failed(error);
      }
      assert SearchFrom(check, request, count) == SearchFrom(check, request, count + 1);
      BatchSeedNext(request, count);
      assert seed + request.add == BatchSeed(request, count + 1);
      seed := seed + request.add;
      count := count + 1;
    }
    return Exhausted;
  }

  /** The seeds of one batch. */
  function Batch(request: AgentStart): set<int>
  {
    set k | 0 <= k < PROGRESS_INCREMENT && InBatch(request, k) :: BatchSeed(request, k)
  }

  /** Every seed of the stride from `request.start` up to `u32::MAX`: this batch and all later ones. */
  function SeedsFrom(request: AgentStart): set<int>
  {
    set k | 0 <= k <= U32_MAX && BatchSeed(request, k) <= U32_MAX :: BatchSeed(request, k)
  }

  /** The request after a batch without result, when the next batch still starts within `u32::MAX`. */
  function Advanced(request: AgentStart): AgentStart
    requires request.start + request.add * PROGRESS_INCREMENT <= U32_MAX
  {
    request.(start := request.start + request.add * PROGRESS_INCREMENT)
  }

  /** Going `j` seeds further along a stride adds `j` steps. */
  lemma BatchSeedShift(request: AgentStart, i: int, j: int)
    ensures BatchSeed(request, i + j) == BatchSeed(request, i) + request.add * j
  {
    assert request.add * (i + j) == request.add * i + request.add * j;
  }

  /** With a positive step, the `k`-th seed is at least `k` past the start. */
  lemma BatchSeedGrowth(request: AgentStart, k: int)
    requires RequestOk(request) && 0 <= k
    ensures BatchSeed(request, k) >= request.start + k
  {
    assert request.add * k == k + (request.add - 1) * k;
  }

  /** With a positive step, later seeds of a stride are strictly larger. */
  lemma BatchSeedStrict(request: AgentStart, i: int, j: int)
    requires RequestOk(request) && 0 <= i < j
    ensures BatchSeed(request, i) < BatchSeed(request, j)
  {
    assert request.add * (j - i) >= j - i;
    assert BatchSeed(request, j) == BatchSeed(request, i) + request.add * (j - i);
  }

  /** The seeds of the stride past this batch are the stride of the next batch. */
  lemma SeedsPastBatch(request: AgentStart, x: int)
    requires RequestOk(request)
    requires x in SeedsFrom(request) && x !in Batch(request)
    ensures request.start + request.add * PROGRESS_INCREMENT <= U32_MAX
    ensures x in SeedsFrom(Advanced(request))
  {
    var k :| 0 <= k <= U32_MAX && BatchSeed(request, k) <= U32_MAX && x == BatchSeed(request, k);
    assert !InBatch(request, k);
    BatchSeedMonotone(request, PROGRESS_INCREMENT, k);
    var next := request.start + request.add * PROGRESS_INCREMENT;
    assert x == next + request.add * (k - PROGRESS_INCREMENT);
    assert x == BatchSeed(Advanced(request), k - PROGRESS_INCREMENT);
  }

  /** Every seed of the next batch's stride lies in this stride, past this batch. */
  lemma SeedsOfAdvanced(request: AgentStart, x: int)
    requires RequestOk(request)
    requires request.start + request.add * PROGRESS_INCREMENT <= U32_MAX
    requires x in SeedsFrom(Advanced(request))
    ensures x in SeedsFrom(request) && x !in Batch(request)
  {
    var later := Advanced(request);
    var j :| 0 <= j <= U32_MAX && BatchSeed(later, j) <= U32_MAX && x == BatchSeed(later, j);
    var k := PROGRESS_INCREMENT + j;
    assert x == BatchSeed(request, k) by {
      BatchSeedShift(request, PROGRESS_INCREMENT, j);
    }
    assert 0 <= k <= U32_MAX by {
      BatchSeedGrowth(request, k);
    }
    forall i | 0 <= i < PROGRESS_INCREMENT ensures BatchSeed(request, i) != x {
      BatchSeedStrict(request, i, k);
    }
  }

  /**
   * One batch and the seeds after it tile the stride: they are disjoint and
   * together make it up; when the next batch would start beyond `u32::MAX`
   * the batch is all that is left.
   */
  lemma BatchTiling(request: AgentStart)
    requires RequestOk(request)
    ensures Batch(request) <= SeedsFrom(request)
    ensures request.start + request.add * PROGRESS_INCREMENT <= U32_MAX ==>
      && SeedsFrom(request) == Batch(request) + SeedsFrom(Advanced(request))
      && Batch(request) !! SeedsFrom(Advanced(request))
    ensures request.start + request.add * PROGRESS_INCREMENT > U32_MAX ==> SeedsFrom(request) == Batch(request)
  {
    forall x | x in Batch(request) ensures x in SeedsFrom(request) {
      var k :| 0 <= k < PROGRESS_INCREMENT && InBatch(request, k) && x == BatchSeed(request, k);
    }
    forall x | x in SeedsFrom(request) && x !in Batch(request)
      ensures request.start + request.add * PROGRESS_INCREMENT <= U32_MAX && x in SeedsFrom(Advanced(request))
    {
      SeedsPastBatch(request, x);
    }
    if request.start + request.add * PROGRESS_INCREMENT <= U32_MAX {
      forall x | x in SeedsFrom(Advanced(request)) ensures x in SeedsFrom(request) && x !in Batch(request) {
        SeedsOfAdvanced(request, x);
      }
    }
  }

  /** An input answers with exactly one output when it carries or finds a request, and with none, changing nothing, otherwise. */
  lemma StepAnswersOnce(check: Checker, state: Option<AgentStart>, msg: AgentInput)
    ensures Step(check, state, msg).1.Some? <==> (msg.Start? || state.Some?)
    ensures Step(check, state, msg).1.None? ==> Step(check, state, msg).0 == state
    ensures Step(check, state, msg).0.Some? <==> Step(check, state, msg).1 == Some(Progress)
  {
  }

  /**
   * The last output of a worker given `request` and then `Continue` after
   * every `Progress`: each batch moves `start` up by `add * 2^24`, so the
   * sweep ends.
   */
  function Sweep(check: Checker, request: AgentStart): AgentOutput
    requires RequestOk(request)
    decreases U32_MAX + 1 - request.start
  {
    match Step(check, Some(request), Continue)
    case (Some(later), _) => Sweep(check, later)
    case (None, Some(output)) => output
    case (None, None) => SeedNotFound
  }

  /** Every seed of `seeds` is invalid. */
  predicate AllInvalid(check: Checker, merchant: TravelingMerchant, seeds: set<int>)
  {
    forall x :: x in seeds ==> CheckSeed(check, merchant, x) == Ok(false)
  }

  lemma AllInvalidUnion(check: Checker, merchant: TravelingMerchant, a: set<int>, b: set<int>)
    ensures AllInvalid(check, merchant, a + b) <==> AllInvalid(check, merchant, a) && AllInvalid(check, merchant, b)
  {
  }

  /** The answers the comparator gives for the seeds of a batch, by index and by value, agree. */
  lemma BatchAnswers(check: Checker, request: AgentStart)
    requires RequestOk(request)
    ensures (forall k :: 0 <= k && InBatch(request, k) ==> Checked(check, request, k) == Ok(false))
      <==> AllInvalid(check, request.merchant, Batch(request))
  {
    if forall k :: 0 <= k && InBatch(request, k) ==> Checked(check, request, k) == Ok(false) {
      forall x | x in Batch(request) ensures CheckSeed(check, request.merchant, x) == Ok(false) {
        var k :| 0 <= k < PROGRESS_INCREMENT && InBatch(request, k) && x == BatchSeed(request, k);
      }
    }
    if AllInvalid(check, request.merchant, Batch(request)) {
      forall k | 0 <= k && InBatch(request, k) ensures Checked(check, request, k) == Ok(false) {
        assert BatchSeed(request, k) in Batch(request);
      }
    }
  }

  /** A batch that finds a valid seed or fails ends the sweep, and some seed of the stride is not invalid. */
  lemma SweepDecided(check: Checker, request: AgentStart)
    requires RequestOk(request)
    requires SearchFrom(check, request, 0) != Exhausted
    ensures Sweep(check, request) != SeedNotFound
    ensures !AllInvalid(check, request.merchant, SeedsFrom(request))
  {
    SearchOutcome(check, request, 0);
    BatchTiling(request);
    var j :| FirstDecisive(check, request, 0, j)
      && SearchFrom(check, request, 0) == Decision(Checked(check, request, j), BatchSeed(request, j));
    assert BatchSeed(request, j) in Batch(request);
  }

  /** A batch of invalid seeds whose successor starts within `u32::MAX` hands the sweep on to the next batch. */
  lemma SweepContinues(check: Checker, request: AgentStart)
    requires RequestOk(request)
    requires SearchFrom(check, request, 0) == Exhausted
    requires request.start + request.add * PROGRESS_INCREMENT <= U32_MAX
    ensures RequestOk(Advanced(request)) && Advanced(request).merchant == request.merchant
    ensures Sweep(check, request) == Sweep(check, Advanced(request))
  {
    assert Step(check, Some(request), Continue) == (Some(Advanced(request)), Some(Progress));
  }

  /** The batch was all invalid, so the stride is all invalid exactly when the rest of it is. */
  lemma InvalidBatchTiles(check: Checker, request: AgentStart)
    requires RequestOk(request)
    requires SearchFrom(check, request, 0) == Exhausted
    ensures AllInvalid(check, request.merchant, Batch(request))
    ensures request.start + request.add * PROGRESS_INCREMENT <= U32_MAX ==>
      (AllInvalid(check, request.merchant, SeedsFrom(request)) <==> AllInvalid(check, request.merchant, SeedsFrom(Advanced(request))))
    ensures request.start + request.add * PROGRESS_INCREMENT > U32_MAX ==> AllInvalid(check, request.merchant, SeedsFrom(request))
  {
    SearchOutcome(check, request, 0);
    BatchAnswers(check, request);
    BatchTiling(request);
    if request.start + request.add * PROGRESS_INCREMENT <= U32_MAX {
      AllInvalidUnion(check, request.merchant, Batch(request), SeedsFrom(Advanced(request)));
    }
  }

  /** A batch of invalid seeds after which no batch starts within `u32::MAX` ends the sweep with "not found". */
  lemma SweepEnds(check: Checker, request: AgentStart)
    requires RequestOk(request)
    requires SearchFrom(check, request, 0) == Exhausted
    requires request.start + request.add * PROGRESS_INCREMENT > U32_MAX
    ensures Sweep(check, request) == SeedNotFound
  {
  }

  /**
   * A worker given a request and kept going answers "not found" exactly when
   * every seed of its stride, from `start` up to `u32::MAX`, is invalid.
   */
  lemma {:induction false} SweepMeaning(check: Checker, request: AgentStart)
    requires RequestOk(request)
    ensures Sweep(check, request) == SeedNotFound <==> AllInvalid(check, request.merchant, SeedsFrom(request))
    decreases U32_MAX + 1 - request.start
  {
    if SearchFrom(check, request, 0) != Exhausted {
      SweepDecided(check, request);
    } else {
      InvalidBatchTiles(check, request);
      if request.start + request.add * PROGRESS_INCREMENT <= U32_MAX {
        SweepContinues(check, request);
        SweepMeaning(check, Advanced(request));
      } else {
        SweepEnds(check, request);
      }
    }
  }

  class Agent {
    var start: Option<AgentStart>

    predicate Valid()
      reads this
    {
      start.Some? ==> RequestOk(start.value)
    }

    constructor ()
      ensures Valid() && start == None
    {
      start := None;
    }

    method HandleInput(check: Checker, msg: AgentInput) returns (output: Option<AgentOutput>)
      requires Valid()
      requires msg.Start? ==> RequestOk(msg.request)
      modifies this
      ensures Valid()
      ensures (start, output) == Step(check, old(start), msg)
    {
      match msg {
        case Start(request) =>
          start := Some(request);
        case Continue =>
      }

      output := None;
      match start {
        case Some(request) =>
          var outcome := SearchBatch(check, request);
          StepAnswers(check, old(start), msg, request);
          start, output := AnswerBatch(request, outcome);
        case None =>
      }
    }

    /**
     * The tail of `handle_input`: the output for a batch's outcome and the
     * request kept for the next input, computed with the source's `u32`
     * `checked_add`. `Answer` is the specification it is proved against.
     */
    static method AnswerBatch(request: AgentStart, outcome: BatchOutcome) returns (next: Option<AgentStart>, output: Option<AgentOutput>)
      requires RequestOk(request)
      ensures (next, output) == Answer(request, outcome)
      ensures next.Some? ==> RequestOk(next.value)
    {
      match outcome {
        case Hit(seed) =>
          return None, Some(SeedFound(WrapI32(U32AsI32(seed) - request.date)));
        case Failed(error) =>
          return None, Some(Error(error));
        case Exhausted =>
      }
      assert request.add * PROGRESS_INCREMENT <= U8_MAX * PROGRESS_INCREMENT;
      var increment: u32 := request.add * PROGRESS_INCREMENT;
      var following := request.start + increment;
      if following <= U32_MAX {
        next, output := Some(request.(start := following)), Some(Progress);
      } else {
        next, output := None, Some(SeedNotFound);
      }
    }
  }
}
