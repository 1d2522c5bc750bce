/**
 * The coordinator of src/app.rs.
 *
 * The page keeps the platform, the date and ten stock slots as the user
 * enters them. `Run` hands every worker the same merchant with
 * `start = index` and `add = worker count`, so the workers split the seeds
 * by residue; the coordinator then counts running workers, accumulates
 * progress and records the outcome. `UpdateOf` states each message's effect
 * on the page state; `App.Update` is the component doing it in place, with
 * the messages it sends to workers returned as a sequence.
 */
module App {
  import opened Wrappers
  import opened Ints
  import opened Merchant
  import Agent

  datatype SeedStatus = NotRun | NotFound | Found(seed: i32)

  datatype Message =
    | PlatformUpdate(platform: Option<Platform>)
    | DateUpdate(date: Option<i32>)
    | ItemUpdate(index: int, item: Option<Item>)
    | Run
    | AgentOutput(worker: u8, output: Agent.AgentOutput)

  /** A message to one worker. */
  datatype Sent = Sent(worker: int, input: Agent.AgentInput)

  /** The page state. `workerCount` is the number of workers made at start-up. */
  datatype AppState = AppState(
    platform: Option<Platform>,
    date: Option<i32>,
    stock: seq<Option<Item>>,
    workerCount: u8,
    running: u8,
    progress: int,
    seedStatus: SeedStatus)

  /** `run_enabled`: everything entered and no worker running. */
  predicate RunEnabled(s: AppState)
  {
    && s.platform.Some?
    && s.date.Some?
    && (forall i :: 0 <= i < |s.stock| ==> s.stock[i].Some?)
    && s.running == 0
  }

  /** The request worker `index` gets on `Run`. */
  function WorkerRequest(merchant: TravelingMerchant, workerCount: int, date: i32, index: int): Agent.AgentStart
    requires 0 <= index < workerCount <= U8_MAX
  {
    Agent.AgentStart(index, workerCount, date, merchant)
  }

  /** The `Start` messages `Run` sends, one per worker in index order. */
  function Starts(merchant: TravelingMerchant, workerCount: u8, date: i32): (sent: seq<Sent>)
    ensures |sent| == workerCount
  {
    seq(workerCount, i requires 0 <= i < workerCount => Sent(i, Agent.Start(WorkerRequest(merchant, workerCount, date, i))))
  }

  /** What the source's `unwrap`s, array indexing and `u8` decrements demand of a message. */
  predicate Demands(s: AppState, msg: Message)
  {
    match msg
    case ItemUpdate(index, _) => 0 <= index < |s.stock|
    case Run =>
      s.running == 0 ==>
        && s.platform.Some? && s.date.Some? && |s.stock| == STOCK_QUANTITY
        && forall i :: 0 <= i < |s.stock| ==> s.stock[i].Some?
    case AgentOutput(worker, output) =>
      (match output
       case Error(_) => true
       case SeedFound(_) => s.running >= 1
       case SeedNotFound => s.running >= 1
       case Progress => if s.seedStatus.NotRun? then worker < s.workerCount else s.running >= 1)
    case PlatformUpdate(_) => true
    case DateUpdate(_) => true
  }

  function Min(a: int, b: int): int
  {
    if a <= b then a else b
  }

  /** The merchant `Run` builds from the entered fields. */
  function EnteredMerchant(s: AppState): TravelingMerchant
    requires s.platform.Some? && |s.stock| == STOCK_QUANTITY
    requires forall i :: 0 <= i < |s.stock| ==> s.stock[i].Some?
  {
    TravelingMerchant(s.platform.value, seq(STOCK_QUANTITY, i requires 0 <= i < STOCK_QUANTITY => s.stock[i].value))
  }

  /** One message: the new page state, whether to re-render, and the messages sent to workers. */
  function UpdateOf(s: AppState, msg: Message): (AppState, bool, seq<Sent>)
    requires Demands(s, msg)
  {
    match msg
    case PlatformUpdate(platform) =>
      var t := s.(platform := platform);
      (t, RunEnabled(s) != RunEnabled(t), [])
    case DateUpdate(date) =>
      var t := s.(date := date);
      (t, RunEnabled(s) != RunEnabled(t), [])
    case ItemUpdate(index, item) =>
      var t := s.(stock := s.stock[index := item]);
      (t, RunEnabled(s) != RunEnabled(t), [])
    case Run =>
      if s.running != 0 then (s, false, [])
      else
        var merchant := EnteredMerchant(s);
        (s.(running := s.workerCount, progress := 0, seedStatus := NotRun), true, Starts(merchant, s.workerCount, s.date.value))
    case AgentOutput(worker, output) =>
      match output
      case Error(_) => (s, false, [])
      case SeedFound(seed) =>
        (s.(running := s.running - 1, progress := Agent.PROGRESS_MAX, seedStatus := Found(seed)), true, [])
      case SeedNotFound =>
        var running := s.running - 1;
        if running == 0 then
          if s.seedStatus.NotRun? then (s.(running := running, progress := Agent.PROGRESS_MAX, seedStatus := NotFound), true, [])
          else (s.(running := running), true, [])
        else (s.(running := running), false, [])
      case Progress =>
        var progress := Min(s.progress + Agent.PROGRESS_INCREMENT, Agent.PROGRESS_MAX);
        if s.seedStatus.NotRun? then (s.(progress := progress), true, [Sent(worker, Agent.Continue)])
        else (s.(progress := progress, running := s.running - 1), true, [])
  }

  // ---------------------------------------------------------------------
  // Properties of one message
  // ---------------------------------------------------------------------

  /** Progress stays within `[0, PROGRESS_MAX]` and the stock keeps its ten slots. */
  lemma UpdateKeepsBounds(s: AppState, msg: Message)
    requires Demands(s, msg) && 0 <= s.progress <= Agent.PROGRESS_MAX
    ensures 0 <= UpdateOf(s, msg).0.progress <= Agent.PROGRESS_MAX
    ensures |UpdateOf(s, msg).0.stock| == |s.stock|
    ensures UpdateOf(s, msg).0.workerCount == s.workerCount
  {
  }

  /** A field update changes only its field and asks for a re-render exactly when `run_enabled` flips. */
  lemma FieldUpdateOnlyFlips(s: AppState, msg: Message)
    requires Demands(s, msg)
    requires msg.PlatformUpdate? || msg.DateUpdate? || msg.ItemUpdate?
    ensures UpdateOf(s, msg).0.running == s.running && UpdateOf(s, msg).0.progress == s.progress
    ensures UpdateOf(s, msg).0.seedStatus == s.seedStatus && UpdateOf(s, msg).2 == []
    ensures msg.PlatformUpdate? ==> UpdateOf(s, msg).0 == s.(platform := msg.platform)
    ensures msg.DateUpdate? ==> UpdateOf(s, msg).0 == s.(date := msg.date)
    ensures msg.ItemUpdate? ==> UpdateOf(s, msg).0 == s.(stock := s.stock[msg.index := msg.item])
    ensures UpdateOf(s, msg).1 <==> RunEnabled(s) != RunEnabled(UpdateOf(s, msg).0)
  {
  }

  /** `Run` is ignored while workers run; otherwise every worker gets the entered merchant, and the run restarts. */
  lemma RunStartsEveryWorker(s: AppState)
    requires Demands(s, Run)
    ensures s.running != 0 ==> UpdateOf(s, Run) == (s, false, [])
    ensures s.running == 0 ==>
      var (t, render, sent) := UpdateOf(s, Run);
      && render && t.running == s.workerCount && t.progress == 0 && t.seedStatus == NotRun
      && |sent| == s.workerCount
      && forall i :: 0 <= i < |sent| ==>
        sent[i] == Sent(i, Agent.Start(Agent.AgentStart(i, s.workerCount, s.date.value, EnteredMerchant(s))))
  {
  }

  /** Only a worker's "not found" with the last worker running and no result yet records "not found", at full progress. */
  lemma NotFoundOnlyWhenAllDone(s: AppState, msg: Message)
    requires Demands(s, msg)
    requires !s.seedStatus.NotFound? && UpdateOf(s, msg).0.seedStatus.NotFound?
    ensures msg.AgentOutput? && msg.output.SeedNotFound?
    ensures s.running == 1 && s.seedStatus.NotRun?
    ensures UpdateOf(s, msg).0.running == 0 && UpdateOf(s, msg).0.progress == Agent.PROGRESS_MAX
  {
  }

  /** A recorded seed comes from a worker's "found" output, which also completes the progress bar. */
  lemma FoundFromWorker(s: AppState, msg: Message)
    requires Demands(s, msg)
    requires UpdateOf(s, msg).0.seedStatus.Found? && UpdateOf(s, msg).0.seedStatus != s.seedStatus
    ensures msg.AgentOutput? && msg.output == Agent.SeedFound(UpdateOf(s, msg).0.seedStatus.seed)
    ensures UpdateOf(s, msg).0.progress == Agent.PROGRESS_MAX && UpdateOf(s, msg).0.running == s.running - 1
  {
  }

  /** A worker's error output changes nothing, so its worker stays counted as running. */
  lemma ErrorChangesNothing(s: AppState, worker: u8, message: string)
    ensures UpdateOf(s, AgentOutput(worker, Agent.Error(message))) == (s, false, [])
  {
  }

  // ---------------------------------------------------------------------
  // The split of the seed space
  // ---------------------------------------------------------------------

  lemma MulAtLeast(n: int, d: int)
    requires n > 0
    ensures d >= 1 ==> n * d >= n
    ensures d <= -1 ==> n * d <= -n
  {
    if d >= 1 {
      assert n * d == n + n * (d - 1);
    } else if d <= -1 {
      assert n * d == -n + n * (d + 1);
    }
  }

  /** A seed written as `i + n * k` with `0 <= i < n` has residue `i` modulo `n`. */
  lemma StrideResidue(seed: int, i: int, n: int, k: int)
    requires 0 <= i < n && seed == i + n * k
    ensures seed % n == i
  {
    var q := seed / n;
    var r := seed % n;
    assert seed == n * q + r;
    assert n * (k - q) == r - i;
    MulAtLeast(n, k - q);
  }

  /**
   * The workers of a run split the seeds by residue: every seed in
   * `[0, 2^32)` lies in the stride of exactly one worker, the one whose index
   * is the seed's residue modulo the worker count.
   */
  lemma RunPartitionsSeeds(merchant: TravelingMerchant, workerCount: u8, date: i32, seed: int)
    requires 1 <= workerCount && 0 <= seed <= U32_MAX
    ensures seed in Agent.SeedsFrom(WorkerRequest(merchant, workerCount, date, seed % workerCount))
    ensures forall i :: 0 <= i < workerCount && seed in Agent.SeedsFrom(WorkerRequest(merchant, workerCount, date, i)) ==> i == seed % workerCount
  {
    var n := workerCount as int;
    var request := WorkerRequest(merchant, n, date, seed % n);
    var k := seed / n;
    assert seed == seed % n + n * k;
    MulAtLeast(n, k);
    assert seed == Agent.BatchSeed(request, k);
    forall i | 0 <= i < n && seed in Agent.SeedsFrom(WorkerRequest(merchant, n, date, i))
      ensures i == seed % n
    {
      var j :| 0 <= j <= U32_MAX && Agent.BatchSeed(WorkerRequest(merchant, n, date, i), j) <= U32_MAX
        && seed == Agent.BatchSeed(WorkerRequest(merchant, n, date, i), j);
      StrideResidue(seed, i, n, j);
    }
  }

  /**
   * When every worker of a run sweeps to "not found", no seed in `[0, 2^32)`
   * is accepted by the comparator.
   */
  lemma NotFoundCoversAllSeeds(check: Agent.Checker, merchant: TravelingMerchant, workerCount: u8, date: i32)
    requires 1 <= workerCount
    requires forall i :: 0 <= i < workerCount ==>
      Agent.Sweep(check, WorkerRequest(merchant, workerCount, date, i)) == Agent.SeedNotFound
    ensures forall seed :: 0 <= seed <= U32_MAX ==> check(merchant, U32AsI32(seed)) == Ok(false)
  {
    forall seed | 0 <= seed <= U32_MAX
      ensures check(merchant, U32AsI32(seed)) == Ok(false)
    {
      var i := seed % workerCount;
      var request := WorkerRequest(merchant, workerCount, date, i);
      RunPartitionsSeeds(merchant, workerCount, date, seed);
      Agent.SweepMeaning(check, request);
      assert Agent.CheckSeed(check, merchant, seed) == Ok(false);
    }
  }

  // ---------------------------------------------------------------------
  // The component
  // ---------------------------------------------------------------------

  class App {
    var platform: Option<Platform>
    var date: Option<i32>
    const stock: array<Option<Item>>
    const workerCount: u8
    var running: u8
    var progress: int
    var seedStatus: SeedStatus

    function State(): AppState
      reads this, stock
    {
      AppState(platform, date, stock[..], workerCount, running, progress, seedStatus)
    }

    predicate Valid()
      reads this
    {
      stock.Length == STOCK_QUANTITY && 0 <= progress <= Agent.PROGRESS_MAX
    }

    constructor (workerCount: u8)
      ensures Valid() && fresh(stock)
      ensures State() == AppState(None, None, seq(STOCK_QUANTITY, _ => None), workerCount, 0, 0, NotRun)
    {
      platform := None;
      date := None;
      stock := new Option<Item>[STOCK_QUANTITY](_ => None);
      this.workerCount := workerCount;
      running := 0;
      progress := 0;
      seedStatus := NotRun;
    }

    method Update(msg: Message) returns (render: bool, sent: seq<Sent>)
      requires Valid() && Demands(State(), msg)
      modifies this, stock
      ensures Valid()
      ensures (State(), render, sent) == UpdateOf(old(State()), msg)
    {
      sent := [];
      match msg {
        case PlatformUpdate(newPlatform) =>
          var lastRunEnabled := RunEnabled(State());
          platform := newPlatform;
          render := lastRunEnabled != RunEnabled(State());
        case DateUpdate(newDate) =>
          var lastRunEnabled := RunEnabled(State());
          date := newDate;
          render := lastRunEnabled != RunEnabled(State());
        case ItemUpdate(index, item) =>
          var lastRunEnabled := RunEnabled(State());
          stock[index] := item;
          render := lastRunEnabled != RunEnabled(State());
        case Run =>
          if running != 0 {
            return false, [];
          }
          ghost var before := State();
          var merchant := EnteredMerchant(State());
          var runDate := date.value;
          var add: u32 := workerCount;
          for index := 0 to workerCount
            invariant running == index
            invariant sent == Starts(merchant, workerCount, runDate)[..index]
            invariant platform == old(platform) && date == old(date) && unchanged(stock)
            invariant progress == old(progress) && seedStatus == old(seedStatus)
          {
            sent := sent + [Sent(index, Agent.Start(Agent.AgentStart(index, add, runDate, merchant)))];
            running := running + 1;
          }
          assert sent == Starts(merchant, workerCount, runDate);
          progress := 0;
          seedStatus := NotRun;
          render := true;
          assert stock[..] == before.stock;
          assert State() == before.(running := workerCount, progress := 0, seedStatus := NotRun);
        case AgentOutput(index, output) =>
          match output {
            case Error(error) =>
              render := false;
            case SeedFound(seed) =>
              running := running - 1;
              progress := Agent.PROGRESS_MAX;
              seedStatus := Found(seed);
              render := true;
            case SeedNotFound =>
              running := running - 1;
              if running == 0 {
                match seedStatus {
                  case NotRun =>
                    progress := Agent.PROGRESS_MAX;
                    seedStatus := NotFound;
                  case _ =>
                }
                render := true;
              } else {
                render := false;
              }
            case Progress =>
              progress := progress + Agent.PROGRESS_INCREMENT;
              progress := Min(progress, Agent.PROGRESS_MAX);
              match seedStatus {
                case NotRun =>
                  sent := [Sent(index, Agent.Continue)];
                case _ =>
                  running := running - 1;
              }
              render := true;
          }
      }
    }
  }
}
