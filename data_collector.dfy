/**
 * The data collector: runs `ccusage blocks -j`, turns each block of its JSON
 * output into a session, and counts consecutive failures.
 */
module DataCollector {
  import opened Wrappers
  import opened Json
  import opened Decimal
  import opened Timestamps
  import opened DataModels

  /** How the `ccusage` subprocess ended: it could not be started, it timed out, or it exited. */
  datatype CommandOutcome =
    | NotStarted
    | TimedOut
    | Exited(returnCode: int, stdout: string)

  /** A block stays active for 300 s after its end. */
  const ACTIVE_GRACE: int := 300 * SECOND

  /** `str.replace('Z', '+00:00')`: every `Z`, not only a trailing one. */
  function ReplaceZ(s: string): (r: string)
    ensures forall i | 0 <= i < |r| :: r[i] != 'Z'
    ensures (forall i | 0 <= i < |s| :: s[i] != 'Z') ==> r == s
  {
    if s == [] then []
    else (if s[0] == 'Z' then "+00:00" else [s[0]]) + ReplaceZ(s[1..])
  }

  function ParseBlockTime(v: Value, fromIso: string -> Option<int>): Option<int>
  {
    if v.JStr? then fromIso(ReplaceZ(v.s)) else None
  }

  /** `is_active`: no end, or an end less than 300 s ago. */
  predicate ActiveAt(end: Option<int>, now: int)
  {
    end.None? || now - end.value < ACTIVE_GRACE
  }

  /** A JSON number as Python sees it: `bool` is a subclass of `int`, so `0 + v` succeeds. */
  predicate IsNumber(v: Value)
  {
    v.JBool? || v.JInt? || v.JReal?
  }

  /** Python's `a + b` on two decoded JSON values succeeds: two numbers, two strings or two lists. */
  predicate Addable(a: Value, b: Value)
  {
    (IsNumber(a) && IsNumber(b)) || (a.JStr? && b.JStr?) || (a.JList? && b.JList?)
  }

  /**
   * What becomes of one block. `Skipped`: `_parse_ccusage_block` raises and
   * the loop goes on. `Poisoned`: the block is kept, but its string or list
   * token counts, or its non-numeric cost, make one of the `sum(...)` totals
   * after the loop raise.
   */
  datatype BlockOutcome = Parsed(session: SessionData) | Skipped | Poisoned

  /**
   * `_parse_ccusage_block`, followed by what the totals do with its result.
   * It raises on a missing key, a timestamp that is not a string or does not
   * parse, and token counts that `+` cannot add. The dataclass checks no
   * types, so other values are kept as they are.
   */
  function ParseBlock(block: Object, fromIso: string -> Option<int>, now: int): (r: BlockOutcome)
    ensures r.Parsed? ==>
      && r.session.totalTokens == r.session.inputTokens + r.session.outputTokens
      && r.session.isActive == ActiveAt(r.session.endTime, now)
      && ("end_time" !in block || !Truthy(block["end_time"]) ==> r.session.endTime.None?)
    ensures !r.Skipped? ==>
      && "id" in block && "start_time" in block && "input_tokens" in block && "output_tokens" in block && "cost" in block
      && Addable(block["input_tokens"], block["output_tokens"])
    ensures r.Poisoned? <==>
      && !r.Skipped?
      && (!IsNumber(block["input_tokens"]) || !IsNumber(block["output_tokens"]) || !IsNumber(block["cost"]))
    ensures r.Parsed? ==>
      && block["input_tokens"] == JInt(r.session.inputTokens) && block["output_tokens"] == JInt(r.session.outputTokens)
      && block["id"] == JStr(r.session.sessionId)
  {
    if !("start_time" in block) then Skipped
    else match ParseBlockTime(block["start_time"], fromIso)
      case None => Skipped
      case Some(start) =>
        var end :=
          if "end_time" in block && Truthy(block["end_time"])
          then (match ParseBlockTime(block["end_time"], fromIso) case None => None case Some(t) => Some(Some(t)))
          else Some(None);
        if end.None? then Skipped
        else if !("input_tokens" in block && "output_tokens" in block) then Skipped
        else if !Addable(block["input_tokens"], block["output_tokens"]) then Skipped
        else if !("id" in block && "cost" in block) then Skipped
        else if !IsNumber(block["input_tokens"]) || !IsNumber(block["cost"]) then Poisoned
        else
          var input := AsInt(block["input_tokens"]);
          var output := AsInt(block["output_tokens"]);
          var id := AsString(block["id"]);
          var cost := AsReal(block["cost"]);
          // Float or boolean counts, a boolean cost and a non-string id have no `SessionData` here.
          if input.None? || output.None? || id.None? || cost.None? then Skipped
          else Parsed(SessionData(id.value, start, end.value, input.value + output.value, input.value, output.value,
                                  cost.value, ActiveAt(end.value, now)))
  }

  /** Block `b` is an object that parses to session `s`. */
  predicate ParsesTo(b: Value, fromIso: string -> Option<int>, now: int, s: SessionData)
  {
    b.JObj? && ParseBlock(b.fields, fromIso, now) == Parsed(s)
  }

  /** Block `b` makes the collection fail: it is not an object, or it is poisoned. */
  predicate Fatal(b: Value, fromIso: string -> Option<int>, now: int)
  {
    !b.JObj? || ParseBlock(b.fields, fromIso, now).Poisoned?
  }

  /** The session a block contributes: one if it parses, none otherwise. */
  function KeptOf(b: Value, fromIso: string -> Option<int>, now: int): (r: seq<SessionData>)
    ensures |r| <= 1
    ensures forall s :: s in r <==> ParsesTo(b, fromIso, now, s)
  {
    if b.JObj? && ParseBlock(b.fields, fromIso, now).Parsed? then [ParseBlock(b.fields, fromIso, now).session] else []
  }

  /** The sessions of the blocks that parse, in block order. */
  function Kept(blocks: seq<Value>, fromIso: string -> Option<int>, now: int): (r: seq<SessionData>)
    ensures |r| <= |blocks|
    ensures forall s :: s in r <==> exists i | 0 <= i < |blocks| :: ParsesTo(blocks[i], fromIso, now, s)
  {
    if blocks == [] then []
    else
      var rest := Kept(blocks[1..], fromIso, now);
      KeptOf(blocks[0], fromIso, now) + rest
  }

  /** Blocks listed later contribute their sessions later. */
  lemma {:induction false} KeptAppend(a: seq<Value>, b: seq<Value>, fromIso: string -> Option<int>, now: int)
    ensures Kept(a + b, fromIso, now) == Kept(a, fromIso, now) + Kept(b, fromIso, now)
  {
    if a == [] {
      assert a + b == b;
    } else {
      assert (a + b)[1..] == a[1..] + b;
      KeptAppend(a[1..], b, fromIso, now);
    }
  }

  /**
   * The block loop of `collect_data` and the totals after it. A block that
   * fails to parse is skipped. A block that is not an object makes the
   * handler itself raise (it calls `block.get`), and a poisoned block makes a
   * `sum` raise; either way the whole collection fails.
   */
  function ParseBlocks(blocks: seq<Value>, fromIso: string -> Option<int>, now: int): (r: Option<seq<SessionData>>)
    ensures r.None? <==> exists i | 0 <= i < |blocks| :: Fatal(blocks[i], fromIso, now)
    ensures r.Some? ==> r.value == Kept(blocks, fromIso, now)
    ensures r.Some? ==> forall i | 0 <= i < |r.value| :: r.value[i].totalTokens == r.value[i].inputTokens + r.value[i].outputTokens
  {
    if blocks == [] then Some([])
    else
      var init := blocks[..|blocks| - 1];
      var b := blocks[|blocks| - 1];
      assert blocks == init + [b];
      match ParseBlocks(init, fromIso, now)
      case None => None
      case Some(ss) =>
        if !b.JObj? then None
        else match ParseBlock(b.fields, fromIso, now)
          case Poisoned => None
          case Skipped =>
            KeptAppend(init, [b], fromIso, now);
            Some(ss)
          case Parsed(s) =>
            KeptAppend(init, [b], fromIso, now);
            Some(ss + [s])
  }

  /** The blocks of the decoded output: an empty string or object iterates as nothing. */
  function BlocksOf(data: Object): Option<seq<Value>>
  {
    var blocks := Get(data, "blocks", JList([]));
    match blocks
    case JList(items) => Some(items)
    case JStr(s) => if s == "" then Some([]) else None
    case JObj(m) => if m == map[] then Some([]) else None
    case _ => None
  }

  function SumCost(ss: seq<SessionData>): real
  {
    if ss == [] then 0.0 else SumCost(ss[..|ss| - 1]) + ss[|ss| - 1].costUsd
  }

  /** `max([s.total_tokens for s in sessions], default=0)`. */
  function MaxTokens(ss: seq<SessionData>): (r: int)
    ensures forall i | 0 <= i < |ss| :: ss[i].totalTokens <= r
    ensures ss == [] ==> r == 0
    ensures ss != [] ==> exists i | 0 <= i < |ss| :: ss[i].totalTokens == r
  {
    if ss == [] then 0
    else if |ss| == 1 then ss[0].totalTokens
    else
      var m := MaxTokens(ss[..|ss| - 1]);
      var last := ss[|ss| - 1].totalTokens;
      if last > m then last else m
  }

  /** The outcome of one collection: the data, or the failure and how much it adds to the counter. */
  datatype Collection = Collected(data: MonitoringData) | Failed(increment: nat)

  /**
   * `collect_data`. A non-zero exit or undecodable output is counted
   * once where it is detected and once more by the catch-all handler that
   * re-wraps the `RuntimeError`; every other failure is counted once.
   * `withDay(now, d)` is `now.replace(day=d)`.
   */
  function Collect(outcome: CommandOutcome, decode: string -> Option<Value>, fromIso: string -> Option<int>,
                   withDay: (int, int) -> int, now: int): Collection
  {
    match outcome
    case NotStarted => Failed(1)
    case TimedOut => Failed(1)
    case Exited(code, stdout) =>
      if code != 0 then Failed(2)
      else match decode(stdout)
        case None => Failed(2)
        case Some(v) =>
          if !v.JObj? then Failed(1)
          else match BlocksOf(v.fields)
            case None => Failed(1)
            case Some(blocks) =>
              match ParseBlocks(blocks, fromIso, now)
              case None => Failed(1)
              case Some(ss) =>
                Collected(MonitoringData(
                  currentSessions := ss,
                  totalSessionsThisMonth := |ss|,
                  totalCostThisMonth := SumCost(ss),
                  maxTokensPerSession := MaxTokens(ss),
                  lastUpdate := now,
                  billingPeriodStart := withDay(now, 1),
                  billingPeriodEnd := withDay(now, 28),
                  daemonVersion := None,
                  activitySessions := None))
  }

  /** What a successful collection reports about its sessions. */
  lemma CollectedTotals(outcome: CommandOutcome, decode: string -> Option<Value>, fromIso: string -> Option<int>,
                        withDay: (int, int) -> int, now: int)
    requires Collect(outcome, decode, fromIso, withDay, now).Collected?
    ensures var m := Collect(outcome, decode, fromIso, withDay, now).data;
      && outcome.Exited? && outcome.returnCode == 0
      && m.totalSessionsThisMonth == |m.currentSessions|
      && (forall i | 0 <= i < |m.currentSessions| :: m.currentSessions[i].totalTokens <= m.maxTokensPerSession)
      && (m.currentSessions == [] ==> m.maxTokensPerSession == 0)
      && m.lastUpdate == now
    ensures var m := Collect(outcome, decode, fromIso, withDay, now).data;
      var blocks := BlocksOf(decode(outcome.stdout).value.fields).value;
      && (forall i | 0 <= i < |blocks| :: !Fatal(blocks[i], fromIso, now))
      && m.currentSessions == Kept(blocks, fromIso, now)
  {
  }

  /** A non-zero exit code or undecodable output counts twice; a timeout counts once. */
  lemma DoubleCountedFailures(code: int, stdout: string, decode: string -> Option<Value>, fromIso: string -> Option<int>,
                              withDay: (int, int) -> int, now: int)
    ensures code != 0 ==> Collect(Exited(code, stdout), decode, fromIso, withDay, now) == Failed(2)
    ensures code == 0 && decode(stdout).None? ==> Collect(Exited(code, stdout), decode, fromIso, withDay, now) == Failed(2)
    ensures Collect(TimedOut, decode, fromIso, withDay, now) == Failed(1)
  {
  }

  class Collector {
    const decode: string -> Option<Value>
    const fromIso: string -> Option<int>
    const withDay: (int, int) -> int
    var lastSuccessfulUpdate: Option<int>
    var consecutiveFailures: nat

    constructor(decode: string -> Option<Value>, fromIso: string -> Option<int>, withDay: (int, int) -> int)
      ensures this.decode == decode && this.fromIso == fromIso && this.withDay == withDay
      ensures lastSuccessfulUpdate == None && consecutiveFailures == 0
    {
      this.decode := decode;
      this.fromIso := fromIso;
      this.withDay := withDay;
      lastSuccessfulUpdate := None;
      consecutiveFailures := 0;
    }

    /** `collect_data`: `None` stands for the `RuntimeError` it raises. */
    method CollectData(outcome: CommandOutcome, now: int) returns (r: Option<MonitoringData>)
      modifies this
      ensures match Collect(outcome, decode, fromIso, withDay, now)
        case Collected(m) =>
          r == Some(m) && consecutiveFailures == 0 && lastSuccessfulUpdate == Some(now)
        case Failed(k) =>
          r == None && consecutiveFailures == old(consecutiveFailures) + k
          && lastSuccessfulUpdate == old(lastSuccessfulUpdate)
    {
      match Collect(outcome, decode, fromIso, withDay, now)
      case Collected(m) =>
        lastSuccessfulUpdate := Some(now);
        consecutiveFailures := 0;
        r := Some(m);
      case Failed(k) =>
        consecutiveFailures := consecutiveFailures + k;
        r := None;
    }

    /** `get_error_status`: `None` exactly when nothing has failed since the last success. */
    function ErrorStatusNow(): (r: Option<ErrorStatus>)
      reads this
      ensures r.None? <==> consecutiveFailures == 0
      ensures r.Some? ==>
        r.value.hasError && r.value.consecutiveFailures == consecutiveFailures
        && r.value.lastSuccessfulUpdate == lastSuccessfulUpdate && r.value.errorCode.None?
      ensures r.Some? ==> CheckErrorStatus(r.value) == None
    {
      if consecutiveFailures == 0 then None
      else Some(ErrorStatus(
        hasError := true,
        errorMessage := Some("Data collection failed " + NatToString(consecutiveFailures) + " consecutive times"),
        errorCode := None,
        lastSuccessfulUpdate := lastSuccessfulUpdate,
        consecutiveFailures := consecutiveFailures))
    }

    /**
     * `collect_data_with_retry`: at most `maxRetries` attempts, the
     * `attempt`-th seeing `run(attempt)`, with a back-off of `2^attempt`
     * seconds between failures. With no attempt at all it raises `None`,
     * which Python turns into a `TypeError`: `noAttempt` is then true.
     */
    method CollectDataWithRetry(maxRetries: int, run: nat -> CommandOutcome, now: int)
      returns (r: Option<MonitoringData>, waits: seq<nat>, noAttempt: bool)
      modifies this
      ensures noAttempt <==> maxRetries <= 0
      ensures noAttempt ==> r.None? && waits == [] && consecutiveFailures == old(consecutiveFailures)
      ensures |waits| < if maxRetries > 0 then maxRetries else 1
      ensures forall i | 0 <= i < |waits| :: waits[i] == Pow2(i)
      ensures forall i | 0 <= i < |waits| :: Collect(run(i), decode, fromIso, withDay, now).Failed?
      ensures r.Some? ==> Collect(run(|waits|), decode, fromIso, withDay, now) == Collected(r.value)
      ensures r.None? && !noAttempt ==>
        |waits| == maxRetries - 1 && Collect(run(|waits|), decode, fromIso, withDay, now).Failed?
    {
      waits := [];
      r := None;
      noAttempt := maxRetries <= 0;
      var attempt := 0;
      while attempt < maxRetries
        invariant 0 <= attempt && (maxRetries > 0 ==> attempt < maxRetries) && |waits| == attempt
        invariant noAttempt <==> maxRetries <= 0
        invariant noAttempt ==> attempt == 0 && r.None? && consecutiveFailures == old(consecutiveFailures)
        invariant forall i | 0 <= i < |waits| :: waits[i] == Pow2(i)
        invariant forall i | 0 <= i < |waits| :: Collect(run(i), decode, fromIso, withDay, now).Failed?
        decreases maxRetries - attempt
      {
        r := CollectData(run(attempt), now);
        if r.Some? {
          return;
        }
        if attempt == maxRetries - 1 {
          return;
        }
        waits := waits + [Pow2(attempt)];
        attempt := attempt + 1;
      }
    }
  }

  function Pow2(n: nat): (r: nat)
    ensures r >= 1
  {
    if n == 0 then 1 else 2 * Pow2(n - 1)
  }
}
