/**
 * The token budget of a live baseline trial in `g03_readiness.py`: the four-turn input bound and
 * the turn loop of `invoke`.
 */
module TokenBudget {
  import opened Prelude

  const MAX_CUMULATIVE_INPUT := 65_536
  const MAX_CUMULATIVE_OUTPUT := 8_192
  const MAX_COMPLETION := 2_048
  const FOUR_TURN_INPUT_LIMIT := 58_982
  const MESSAGE_FRAMING := 64
  const REQUEST_TEMPLATE := 256

  /** The byte sizes the bound is computed from. */
  datatype PromptSizes = PromptSizes(system: nat, packet: nat, correction: nat)

  /** The bound for the request of one turn. */
  function RequestBound(p: PromptSizes, turn: nat): nat
    requires turn >= 1
  {
    p.system + p.packet + p.correction * (turn - 1) + MAX_COMPLETION * (turn - 1)
    + MESSAGE_FRAMING * (2 + 2 * (turn - 1)) + REQUEST_TEMPLATE
  }

  /** The bound on the input of the first `turns` requests together. */
  function InputBound(p: PromptSizes, turns: nat): nat {
    if turns == 0 then 0 else InputBound(p, turns - 1) + RequestBound(p, turns)
  }

  predicate PreflightPasses(p: PromptSizes) {
    InputBound(p, 4) <= FOUR_TURN_INPUT_LIMIT
  }

  datatype Budgets = Budgets(input: nat, output: nat)

  datatype Arm = Arm(minTurns: nat, maxTurns: nat)

  /**
   * What the model service answers in one turn; a draft is identified with its digest. An answer is
   * unreadable when it fails before its usage is read, and rejected when the configuration is at fault.
   */
  datatype Reply =
    | Draft(inputTokens: nat, outputTokens: nat, draft: string)
    | Truncated(inputTokens: nat, outputTokens: nat)
    | Malformed(inputTokens: nat, outputTokens: nat)
    | Unreadable
    | Rejected
    | Unavailable

  datatype TerminalReason = MaxTurns | StableDiagnosis
  datatype Failure = BudgetExhausted | OutputTruncated | MalformedOutput
  datatype Interruption = ConfigurationError | InfrastructureError

  datatype Ending =
    | Finished(drafts: seq<string>, reason: TerminalReason, input: nat, output: nat)
    | Failed(failure: Failure, turn: nat, drafts: seq<string>, input: nat, output: nat)
    | Interrupted(interruption: Interruption, turn: nat)

  function InputOf(r: Reply): nat {
    if r.Unreadable? || r.Rejected? || r.Unavailable? then 0 else r.inputTokens
  }

  function OutputOf(r: Reply): nat {
    if r.Unreadable? || r.Rejected? || r.Unavailable? then 0 else r.outputTokens
  }

  /** Cumulative usage over the first `n` turns. */
  function InputUsed(replies: nat -> Reply, n: nat): nat {
    if n == 0 then 0 else InputUsed(replies, n - 1) + InputOf(replies(n))
  }

  function OutputUsed(replies: nat -> Reply, n: nat): nat {
    if n == 0 then 0 else OutputUsed(replies, n - 1) + OutputOf(replies(n))
  }

  predicate Exhausted(b: Budgets, input: nat, output: nat) {
    input >= b.input || output >= b.output
  }

  /** The first `n` turns all produced a draft within budget. */
  ghost predicate DraftsUpTo(b: Budgets, replies: nat -> Reply, n: nat) {
    forall k | 1 <= k <= n :: replies(k).Draft? && !Exhausted(b, InputUsed(replies, k), OutputUsed(replies, k))
  }

  /** And `drafts` lists them. */
  ghost predicate DraftedUpTo(b: Budgets, replies: nat -> Reply, n: nat, drafts: seq<string>) {
    |drafts| == n && DraftsUpTo(b, replies, n) && forall k | 1 <= k <= n :: replies(k).draft == drafts[k - 1]
  }

  /** The loop stops after `turn`: late enough, and the last two drafts agree. */
  predicate StableAt(arm: Arm, replies: nat -> Reply, turn: nat) {
    turn >= arm.minTurns && turn >= 2 && replies(turn).Draft? && replies(turn - 1).Draft?
    && replies(turn).draft == replies(turn - 1).draft
  }

  /** How the trial fails on a reply, given the usage it brings the trial to. */
  function FailureOf(b: Budgets, r: Reply, input: nat, output: nat): Option<Failure> {
    if r.Unreadable? then Some(MalformedOutput)
    else if r.Rejected? || r.Unavailable? then None
    else if Exhausted(b, input, output) then Some(BudgetExhausted)
    else if r.Truncated? then Some(OutputTruncated)
    else if r.Malformed? then Some(MalformedOutput)
    else None
  }

  function InterruptionOf(r: Reply): Option<Interruption> {
    if r.Rejected? then Some(ConfigurationError) else if r.Unavailable? then Some(InfrastructureError) else None
  }

  /** The trial goes on after each of the first `n` turns. */
  ghost predicate GoesOn(arm: Arm, b: Budgets, replies: nat -> Reply, n: nat) {
    n <= arm.maxTurns && DraftsUpTo(b, replies, n) && forall k | 1 <= k <= n :: !StableAt(arm, replies, k)
  }

  /**
   * A stable stop is the first turn, at or after the least number of turns, whose draft repeats the
   * one before; otherwise the arm's turns are used up. A failure is that of the first turn without
   * a draft within budget, with the drafts before it and all that was consumed.
   */
  ghost predicate EndsAs(arm: Arm, b: Budgets, replies: nat -> Reply, ending: Ending) {
    match ending
    case Finished(drafts, reason, input, output) =>
      && 1 <= |drafts| <= arm.maxTurns && GoesOn(arm, b, replies, |drafts| - 1)
      && DraftedUpTo(b, replies, |drafts|, drafts)
      && (reason == StableDiagnosis <==> StableAt(arm, replies, |drafts|))
      && (reason == MaxTurns ==> |drafts| == arm.maxTurns)
      && input == InputUsed(replies, |drafts|) && output == OutputUsed(replies, |drafts|)
    case Failed(failure, turn, drafts, input, output) =>
      && input == InputUsed(replies, turn) && output == OutputUsed(replies, turn)
      && if turn == 0 then arm.maxTurns == 0 && failure == MalformedOutput && drafts == []
         else turn <= arm.maxTurns && GoesOn(arm, b, replies, turn - 1) && DraftedUpTo(b, replies, turn - 1, drafts)
              && FailureOf(b, replies(turn), input, output) == Some(failure)
    case Interrupted(interruption, turn) =>
      1 <= turn <= arm.maxTurns && GoesOn(arm, b, replies, turn - 1) && InterruptionOf(replies(turn)) == Some(interruption)
  }

  /** The turn loop. */
  method Invoke(arm: Arm, b: Budgets, replies: nat -> Reply) returns (ending: Ending)
    ensures EndsAs(arm, b, replies, ending)
  {
    var drafts: seq<string> := [];
    var input, output := 0, 0;
    var reason := MaxTurns;
    var turn := 1;
    while turn <= arm.maxTurns
      invariant 1 <= turn <= arm.maxTurns + 1
      invariant input == InputUsed(replies, turn - 1) && output == OutputUsed(replies, turn - 1)
      invariant GoesOn(arm, b, replies, turn - 1) && DraftedUpTo(b, replies, turn - 1, drafts)
      invariant reason == MaxTurns
    {
      var reply := replies(turn);
      if reply.Unavailable? {
        return Interrupted(InfrastructureError, turn);
      }
      if reply.Rejected? {
        return Interrupted(ConfigurationError, turn);
      }
      if reply.Unreadable? {
        return Failed(MalformedOutput, turn, drafts, input, output);
      }
      input, output := input + reply.inputTokens, output + reply.outputTokens;
      if Exhausted(b, input, output) {
        return Failed(BudgetExhausted, turn, drafts, input, output);
      }
      if reply.Truncated? {
        return Failed(OutputTruncated, turn, drafts, input, output);
      }
      if reply.Malformed? {
        return Failed(MalformedOutput, turn, drafts, input, output);
      }
      drafts := drafts + [reply.draft];
      if turn >= arm.minTurns && |drafts| >= 2 && drafts[|drafts| - 1] == drafts[|drafts| - 2] {
        reason := StableDiagnosis;
        break;
      }
      turn := turn + 1;
    }
    if drafts == [] {
      return Failed(MalformedOutput, 0, [], input, output);
    }
    return Finished(drafts, reason, input, output);
  }

  /** The turn an ending is reached at. */
  function TurnOf(ending: Ending): nat {
    if ending.Finished? then |ending.drafts| else ending.turn
  }

  /** Where a trial goes on, it does not end. */
  lemma EndsNoEarlier(arm: Arm, b: Budgets, replies: nat -> Reply, first: Ending, second: Ending)
    requires EndsAs(arm, b, replies, first) && EndsAs(arm, b, replies, second)
    ensures TurnOf(first) >= TurnOf(second)
  {
  }

  /** The service's replies leave a trial one way to end. */
  lemma {:induction false} EndingIsDetermined(arm: Arm, b: Budgets, replies: nat -> Reply, first: Ending, second: Ending)
    requires EndsAs(arm, b, replies, first) && EndsAs(arm, b, replies, second)
    ensures first == second
  {
    EndsNoEarlier(arm, b, replies, first, second);
    EndsNoEarlier(arm, b, replies, second, first);
    if !first.Interrupted? && !second.Interrupted? {
      SameDrafts(b, replies, first.drafts, second.drafts);
    }
  }

  lemma {:induction false} SameDrafts(b: Budgets, replies: nat -> Reply, drafts: seq<string>, others: seq<string>)
    requires |drafts| == |others| && DraftedUpTo(b, replies, |drafts|, drafts) && DraftedUpTo(b, replies, |others|, others)
    ensures drafts == others
  {
    forall i | 0 <= i < |drafts| ensures drafts[i] == others[i] {
      assert replies(i + 1).draft == drafts[i];
    }
  }

  /**
   * What a failed trial is told, by the answer it failed on: an answer whose usage cannot be read is
   * malformed; otherwise a budget that was reached comes before what the answer itself lacks.
   */
  lemma {:induction false} FailureMeans(arm: Arm, b: Budgets, replies: nat -> Reply, ending: Ending)
    requires EndsAs(arm, b, replies, ending) && ending.Failed? && ending.turn >= 1
    ensures
      var reply := replies(ending.turn);
      var reached := InputUsed(replies, ending.turn) >= b.input || OutputUsed(replies, ending.turn) >= b.output;
      && !reply.Rejected? && !reply.Unavailable?
      && (ending.failure == BudgetExhausted <==> !reply.Unreadable? && reached)
      && (ending.failure == OutputTruncated <==> reply.Truncated? && !reached)
      && (ending.failure == MalformedOutput <==> reply.Unreadable? || (reply.Malformed? && !reached))
  {
  }

  /** An interrupted trial is a configuration error exactly on a rejection, and else the service was away. */
  lemma {:induction false} InterruptionMeans(arm: Arm, b: Budgets, replies: nat -> Reply, ending: Ending)
    requires EndsAs(arm, b, replies, ending) && ending.Interrupted?
    ensures ending.interruption == ConfigurationError <==> replies(ending.turn).Rejected?
    ensures ending.interruption == InfrastructureError <==> replies(ending.turn).Unavailable?
  {
  }

  /**
   * Which way a trial ends: it fails or is interrupted exactly if some turn, before any stable stop,
   * brings anything but a draft within budget, or if the arm has no turns.
   */
  lemma {:induction false} FinishesIff(arm: Arm, b: Budgets, replies: nat -> Reply, ending: Ending)
    requires EndsAs(arm, b, replies, ending)
    ensures ending.Finished? <==>
            exists n: nat | 1 <= n <= arm.maxTurns ::
              DraftsUpTo(b, replies, n) && (n == arm.maxTurns || StableAt(arm, replies, n))
  {
    if ending.Finished? {
      assert DraftsUpTo(b, replies, |ending.drafts|);
    } else if n: nat :| 1 <= n <= arm.maxTurns && DraftsUpTo(b, replies, n) && (n == arm.maxTurns || StableAt(arm, replies, n)) {
      assert ending.turn <= n;
    }
  }

  /** The draft of this turn repeats the one before it, not before the arm's least number of turns. */
  ghost predicate Repeats(arm: Arm, drafts: seq<string>, turn: nat) {
    2 <= turn <= |drafts| && arm.minTurns <= turn && drafts[turn - 1] == drafts[turn - 2]
  }

  /** A finished trial stopped at its first repetition, and for that reason; without one it used all its turns. */
  lemma {:induction false} StopsAtFirstRepetition(arm: Arm, b: Budgets, replies: nat -> Reply, ending: Ending)
    requires EndsAs(arm, b, replies, ending) && ending.Finished?
    ensures ending.reason == StableDiagnosis <==> Repeats(arm, ending.drafts, |ending.drafts|)
    ensures forall turn | 1 <= turn < |ending.drafts| :: !Repeats(arm, ending.drafts, turn)
    ensures ending.reason == MaxTurns ==> |ending.drafts| == arm.maxTurns
  {
    forall turn: nat | 1 <= turn <= |ending.drafts| ensures Repeats(arm, ending.drafts, turn) <==> StableAt(arm, replies, turn) {
      assert replies(turn).draft == ending.drafts[turn - 1];
      assert turn >= 2 ==> replies(turn - 1).draft == ending.drafts[turn - 2];
    }
  }

  // ---------------------------------------------------------------------------------------------
  // What the preflight guarantees.

  /**
   * The messages of one request: the system's, the packet's, and for every diagnosis so far an
   * answer of at most the completion limit and the correction.
   */
  function Messages(p: PromptSizes, priors: nat): (sizes: seq<nat>)
    ensures |sizes| == 2 + 2 * priors
  {
    if priors == 0 then [p.system, p.packet] else Messages(p, priors - 1) + [MAX_COMPLETION, p.correction]
  }

  function Total(sizes: seq<nat>): nat {
    if sizes == [] then 0 else Total(sizes[..|sizes| - 1]) + sizes[|sizes| - 1]
  }

  /** The bound for a request is the size of its messages, each one framed, and of the template. */
  lemma {:induction false} RequestBoundMeans(p: PromptSizes, turn: nat)
    requires turn >= 1
    ensures RequestBound(p, turn) == Total(Messages(p, turn - 1)) + 64 * |Messages(p, turn - 1)| + 256
    decreases turn
  {
    if turn == 1 {
      assert Messages(p, 0)[..1] == [p.system];
      assert Total([p.system]) == Total([]) + p.system;
    } else {
      RequestBoundMeans(p, turn - 1);
      var before := Messages(p, turn - 2);
      var all := Messages(p, turn - 1);
      assert all[..|all| - 1] == before + [MAX_COMPLETION];
      assert (before + [MAX_COMPLETION])[..|before|] == before;
    }
  }

  /** The preflight passes exactly if the four requests together stay within the limit. */
  lemma {:induction false} PreflightMeans(p: PromptSizes)
    ensures PreflightPasses(p) <==> 4 * (p.system + p.packet) + 6 * p.correction + 6 * 2_048 + 20 * 64 + 4 * 256 <= 58_982
  {
    assert InputBound(p, 1) == InputBound(p, 0) + RequestBound(p, 1);
    assert InputBound(p, 2) == InputBound(p, 1) + RequestBound(p, 2);
    assert InputBound(p, 3) == InputBound(p, 2) + RequestBound(p, 3);
    assert InputBound(p, 4) == InputBound(p, 3) + RequestBound(p, 4);
  }

  /** Every request stays within its bound and every completion within the completion limit. */
  ghost predicate WithinLimits(p: PromptSizes, replies: nat -> Reply) {
    forall k | 1 <= k <= 4 :: InputOf(replies(k)) <= RequestBound(p, k) && OutputOf(replies(k)) <= MAX_COMPLETION
  }

  lemma {:induction false} UsageWithinBounds(p: PromptSizes, replies: nat -> Reply, n: nat)
    requires WithinLimits(p, replies) && n <= 4
    ensures InputUsed(replies, n) <= InputBound(p, n) <= InputBound(p, 4)
    ensures OutputUsed(replies, n) <= MAX_COMPLETION * n
    ensures OutputUsed(replies, n) == MAX_COMPLETION * n ==> forall k | 1 <= k <= n :: OutputOf(replies(k)) == MAX_COMPLETION
    decreases n
  {
    BoundGrows(p, n);
    if n > 0 {
      UsageWithinBounds(p, replies, n - 1);
    }
  }

  lemma {:induction false} BoundGrows(p: PromptSizes, n: nat)
    requires n <= 4
    ensures InputBound(p, n) <= InputBound(p, 4)
    decreases 4 - n
  {
    if n < 4 {
      BoundGrows(p, n + 1);
    }
  }

  /**
   * Where the preflight passes and the limits hold, the input budget is never reached, and the
   * output budget is reached exactly on the fourth turn, when all four completions are at the limit.
   */
  lemma {:induction false} PreflightProtectsTheBudget(p: PromptSizes, replies: nat -> Reply, turn: nat)
    requires PreflightPasses(p) && WithinLimits(p, replies) && turn <= 4
    ensures InputUsed(replies, turn) < MAX_CUMULATIVE_INPUT
    ensures OutputUsed(replies, turn) >= MAX_CUMULATIVE_OUTPUT <==>
            turn == 4 && forall k | 1 <= k <= 4 :: OutputOf(replies(k)) == MAX_COMPLETION
  {
    UsageWithinBounds(p, replies, turn);
    if turn == 4 && forall k | 1 <= k <= 4 :: OutputOf(replies(k)) == MAX_COMPLETION {
      assert OutputUsed(replies, 1) == OutputUsed(replies, 0) + OutputOf(replies(1));
      assert OutputUsed(replies, 2) == OutputUsed(replies, 1) + OutputOf(replies(2));
      assert OutputUsed(replies, 3) == OutputUsed(replies, 2) + OutputOf(replies(3));
      assert OutputUsed(replies, 4) == OutputUsed(replies, 3) + OutputOf(replies(4));
    }
  }

  /**
   * So an arm of at most four turns fails its budget exactly when it still goes on after the third
   * turn and all four completions are at the limit; input never counts.
   */
  lemma {:induction false} GuardedTrialIff(arm: Arm, p: PromptSizes, replies: nat -> Reply, ending: Ending)
    requires PreflightPasses(p) && WithinLimits(p, replies) && arm.maxTurns <= 4
    requires EndsAs(arm, Budgets(MAX_CUMULATIVE_INPUT, MAX_CUMULATIVE_OUTPUT), replies, ending)
    ensures ending.Failed? && ending.failure == BudgetExhausted <==>
            TurnOf(ending) == 4 && forall k | 1 <= k <= 4 :: OutputOf(replies(k)) == MAX_COMPLETION
  {
    PreflightProtectsTheBudget(p, replies, TurnOf(ending));
  }
}
