/** The duel wager game (`DuelGameCommandModel`).

    One command instance is either idle or holds one running challenge: the
    initiator's parameters, the bet, a `gameActive` flag and a cancellation
    source. The stored target accepting resolves the challenge and moves the
    bet between the two players; otherwise a background timer started with the
    challenge resolves it as "not accepted" and refunds.

    The model is sequential: every invocation and every timer callback is one
    atomic step. The background timer becomes the explicit event
    `TimerCallback(token)`, where `token` names the cancellation source it was
    started with. The timer body as written is `Elapsed`; the class uses the
    corrected `ElapsedChecked` (see `StaleTimerClearsNewerSession`). The currency ledger becomes a map from user to balance and
    every outward action (chat message, inner command, cooldown, refund) is
    appended to an effect log. */
module DuelGame {
  import opened Wrappers

  type UserId = nat

  /** Names one cancellation token source and the background timer started with it. */
  type Token = nat

  /** The command parameters of one invocation: the invoking user, the target
      the selection step found, and the payout special identifier once set. */
  datatype Params = Params(user: UserId, targetUser: Option<UserId>, payout: Option<int>)

  /** The four embedded commands of a duel. */
  datatype InnerCommand = StartedCommand | NotAcceptedCommand | SuccessfulOutcomeCommand | FailedCommand

  /** The chat replies of the duel. */
  datatype Message = InvalidBetAmount | CouldNotFindUser | TargetUserInvalidAmount | AlreadyUnderway

  /** What the duel does to the outside world, in order. */
  datatype Effect =
    | SendMessage(message: Message)
    | Run(command: InnerCommand, parameters: Params)
    | CommitCooldown(parameters: Params)
    | ResetCooldown
    | Refund(parameters: Params)

  /** One invocation together with what the helpers outside the modelled file
      produce for it: the bet (`GetBetAmount`), the target found by
      `SetSelectedUser`, the random draw (`GenerateProbability`) and the success
      probability configured for the initiator's role. */
  datatype Invocation = Invocation(
    parameters: Params,
    betAmount: int,
    selectedTarget: Option<UserId>,
    draw: int,
    successProbability: int)

  /** The whole state a duel command reads and writes: its four run fields,
      the cancellation sources already cancelled, the timers still pending
      (with the parameters each captured), the next fresh token, the ledger
      and the effect log. */
  datatype DuelState = DuelState(
    gameActive: bool,
    runParameters: Option<Params>,
    runBetAmount: int,
    runCancellation: Option<Token>,
    cancelled: set<Token>,
    timers: map<Token, Params>,
    nextToken: Token,
    balances: map<UserId, int>,
    effects: seq<Effect>)

  // ---------------------------------------------------------------------------
  // The currency ledger

  function Balance(balances: map<UserId, int>, user: UserId): int {
    if user in balances then balances[user] else 0
  }

  function AddAmount(balances: map<UserId, int>, user: UserId, amount: int): map<UserId, int> {
    balances[user := Balance(balances, user) + amount]
  }

  function SubtractAmount(balances: map<UserId, int>, user: UserId, amount: int): map<UserId, int> {
    balances[user := Balance(balances, user) - amount]
  }

  predicate HasAmount(balances: map<UserId, int>, user: UserId, amount: int) {
    Balance(balances, user) >= amount
  }

  /** Adding to the winner and then subtracting from the loser moves exactly
      `amount` between them and leaves every other balance alone. */
  lemma TransferIsZeroSum(balances: map<UserId, int>, winner: UserId, loser: UserId, amount: int)
    ensures var r := SubtractAmount(AddAmount(balances, winner, amount), loser, amount);
      && Balance(r, winner) + Balance(r, loser) == Balance(balances, winner) + Balance(balances, loser)
      && (winner != loser ==> Balance(r, winner) == Balance(balances, winner) + amount)
      && (winner != loser ==> Balance(r, loser) == Balance(balances, loser) - amount)
      && (forall u :: u != winner && u != loser ==> Balance(r, u) == Balance(balances, u))
  {
  }

  // ---------------------------------------------------------------------------
  // The steps of the state machine, as functions of the state

  /** The embedded commands, in the order `GetInnerCommands` lists them. */
  function InnerCommands(): (r: seq<InnerCommand>)
    ensures |r| == 4
    ensures StartedCommand in r && NotAcceptedCommand in r
    ensures SuccessfulOutcomeCommand in r && FailedCommand in r
  {
    [StartedCommand, NotAcceptedCommand, SuccessfulOutcomeCommand, FailedCommand]
  }

  function Initial(balances: map<UserId, int>): DuelState {
    DuelState(false, None, 0, None, {}, map[], 0, balances, [])
  }

  predicate Idle(s: DuelState) {
    !s.gameActive && s.runParameters.None? && s.runBetAmount == 0 && s.runCancellation.None?
  }

  /** `ClearData`: back to idle, cancelling the running cancellation source if any. */
  function Cleared(s: DuelState): (r: DuelState)
    ensures Idle(r)
  {
    s.(gameActive := false, runParameters := None, runBetAmount := 0, runCancellation := None,
       cancelled := if s.runCancellation.Some? then s.cancelled + {s.runCancellation.value} else s.cancelled)
  }

  /** A guard failed or the game is busy: one chat reply, then the refund of this invocation. */
  function Reply(s: DuelState, m: Message, p: Params): DuelState {
    s.(effects := s.effects + [SendMessage(m), Refund(p)])
  }

  /** A successful challenge: store the session, start its timer, run the started command. */
  function Start(s: DuelState, p: Params, bet: int): DuelState {
    var t := s.nextToken;
    s.(runParameters := Some(p), runBetAmount := bet, runCancellation := Some(t),
       timers := s.timers[t := p], nextToken := t + 1, gameActive := true,
       effects := s.effects + [Run(StartedCommand, p), ResetCooldown])
  }

  predicate InitiatorWins(inv: Invocation) {
    inv.draw <= inv.successProbability
  }

  /** The stored target accepted: set the payout identifier, move the bet, run
      exactly one outcome command, commit the cooldown and clear. The pending
      timer captured the same parameters object, so it sees the payout too. */
  function Accepted(s: DuelState, inv: Invocation): DuelState
    requires s.runParameters.Some? && s.runParameters.value.targetUser.Some?
  {
    var rp := s.runParameters.value.(payout := Some(s.runBetAmount));
    var initiator := rp.user;
    var target := rp.targetUser.value;
    var bet := s.runBetAmount;
    var balances :=
      if InitiatorWins(inv) then SubtractAmount(AddAmount(s.balances, initiator, bet), target, bet)
      else SubtractAmount(AddAmount(s.balances, target, bet), initiator, bet);
    var outcome := if InitiatorWins(inv) then SuccessfulOutcomeCommand else FailedCommand;
    var timers :=
      if s.runCancellation.Some? && s.runCancellation.value in s.timers
      then s.timers[s.runCancellation.value := rp] else s.timers;
    Cleared(s.(gameActive := false, runParameters := Some(rp), balances := balances, timers := timers,
               effects := s.effects + [Run(outcome, rp), CommitCooldown(rp)]))
  }

  predicate IsAcceptance(s: DuelState, inv: Invocation) {
    s.runCancellation.Some? && s.runParameters.Some? &&
    s.runParameters.value.targetUser == Some(inv.parameters.user)
  }

  /** `PerformInternal`. */
  function Performed(s: DuelState, inv: Invocation): DuelState {
    var p := inv.parameters;
    if s.runCancellation.None? then
      if inv.betAmount > 0 then
        var selected := p.(targetUser := inv.selectedTarget);
        if selected.targetUser.None? then Reply(s, CouldNotFindUser, selected)
        else if !HasAmount(s.balances, selected.targetUser.value, inv.betAmount) then
          Reply(s, TargetUserInvalidAmount, selected)
        else Start(s, selected, inv.betAmount)
      else Reply(s, InvalidBetAmount, p)
    else if IsAcceptance(s, inv) then
      var a := Accepted(s, inv);
      a.(effects := a.effects + [Refund(p)])
    else Reply(s, AlreadyUnderway, p)
  }

  /** The body of the background timer started with token `t`, once its delay is over. */
  function Elapsed(s: DuelState, t: Token): DuelState
    requires t in s.timers
  {
    var p := s.timers[t];
    var s1 := s.(timers := s.timers - {t});
    var s2 :=
      if s1.gameActive && t !in s1.cancelled
      then s1.(gameActive := false, effects := s1.effects + [Run(NotAcceptedCommand, p), Refund(p)])
      else s1;
    Cleared(s2.(effects := s2.effects + [CommitCooldown(p)]))
  }

  /** The timer body as evidently intended: a timer whose session is no longer
      the running one only goes away, and touches nothing else. */
  function ElapsedChecked(s: DuelState, t: Token): DuelState
    requires t in s.timers
  {
    if s.runCancellation == Some(t) then Elapsed(s, t) else s.(timers := s.timers - {t})
  }

  // ---------------------------------------------------------------------------
  // The invariant every step keeps

  /** A running session is active, holds a found target and a positive bet,
      owns an uncancelled pending timer that captured its parameters; idle
      means all four run fields are reset; every other pending timer is
      cancelled. */
  ghost predicate Inv(s: DuelState) {
    && (s.runCancellation.None? ==> Idle(s))
    && (s.runCancellation.Some? ==>
          && s.gameActive
          && s.runBetAmount > 0
          && s.runParameters.Some?
          && s.runParameters.value.targetUser.Some?
          && s.runCancellation.value in s.timers
          && s.runCancellation.value !in s.cancelled
          && s.timers[s.runCancellation.value] == s.runParameters.value)
    && (forall t :: t in s.timers ==> t < s.nextToken && (t in s.cancelled || s.runCancellation == Some(t)))
    && (forall t :: t in s.cancelled ==> t < s.nextToken)
  }

  lemma InitialInv(balances: map<UserId, int>)
    ensures Inv(Initial(balances))
  {
  }

  lemma {:induction false} PerformedKeepsInv(s: DuelState, inv: Invocation)
    requires Inv(s)
    ensures Inv(Performed(s, inv))
  {
    if s.runCancellation.Some? && IsAcceptance(s, inv) {
      var t := s.runCancellation.value;
      var r := Performed(s, inv);
      assert r.runCancellation.None? && t in r.cancelled;
      forall u | u in r.timers
        ensures u < r.nextToken && (u in r.cancelled || r.runCancellation == Some(u))
      {
        assert u in s.timers;
      }
    }
  }

  lemma {:induction false} ElapsedKeepsInv(s: DuelState, t: Token)
    requires Inv(s) && t in s.timers
    ensures Inv(Elapsed(s, t))
  {
    var r := Elapsed(s, t);
    forall u | u in r.timers
      ensures u < r.nextToken && (u in r.cancelled || r.runCancellation == Some(u))
    {
      assert u in s.timers;
    }
  }

  lemma {:induction false} ElapsedCheckedKeepsInv(s: DuelState, t: Token)
    requires Inv(s) && t in s.timers
    ensures Inv(ElapsedChecked(s, t))
  {
    if s.runCancellation == Some(t) {
      ElapsedKeepsInv(s, t);
    }
  }

  // ---------------------------------------------------------------------------
  // Properties of a new challenge

  /** A session starts only from idle, with a positive bet, a found target and
      a target that holds the bet; each failing guard sends its own message,
      refunds the invocation and changes nothing else. */
  lemma StartGuards(s: DuelState, inv: Invocation)
    requires s.runCancellation.None?
    ensures var r := Performed(s, inv);
      && (r.runCancellation.Some? <==>
            inv.betAmount > 0 && inv.selectedTarget.Some? &&
            HasAmount(s.balances, inv.selectedTarget.value, inv.betAmount))
      && (inv.betAmount <= 0 ==> r == Reply(s, InvalidBetAmount, inv.parameters))
      && (inv.betAmount > 0 && inv.selectedTarget.None? ==>
            r == Reply(s, CouldNotFindUser, inv.parameters.(targetUser := None)))
      && (inv.betAmount > 0 && inv.selectedTarget.Some? &&
          !HasAmount(s.balances, inv.selectedTarget.value, inv.betAmount) ==>
            r == Reply(s, TargetUserInvalidAmount, inv.parameters.(targetUser := inv.selectedTarget)))
  {
  }

  /** A successful challenge stores the initiator's parameters (with the found
      target) and the bet, sets `gameActive`, runs the started command once and
      returns without a refund. */
  lemma StartStoresSession(s: DuelState, inv: Invocation)
    requires s.runCancellation.None? && inv.betAmount > 0 && inv.selectedTarget.Some?
    requires HasAmount(s.balances, inv.selectedTarget.value, inv.betAmount)
    ensures var r := Performed(s, inv);
      var p := inv.parameters.(targetUser := inv.selectedTarget);
      && r.gameActive
      && r.runParameters == Some(p)
      && r.runBetAmount == inv.betAmount
      && r.runCancellation == Some(s.nextToken)
      && r.timers == s.timers[s.nextToken := p]
      && r.balances == s.balances
      && r.effects == s.effects + [Run(StartedCommand, p), ResetCooldown]
  {
  }

  /** Every path except a successful challenge ends by refunding the current invocation. */
  lemma {:induction false} RefundUnlessStarted(s: DuelState, inv: Invocation)
    requires Inv(s)
    ensures var r := Performed(s, inv);
      var started := s.runCancellation.None? && r.runCancellation.Some?;
      && |r.effects| > |s.effects|
      && (!started <==> r.effects[|r.effects| - 1].Refund?)
      && (!started ==> r.effects[|r.effects| - 1].parameters.user == inv.parameters.user)
  {
    var r := Performed(s, inv);
    if s.runCancellation.Some? && IsAcceptance(s, inv) {
      assert r.runCancellation.None?;
    }
  }

  // ---------------------------------------------------------------------------
  // Properties of a running session

  /** While a session runs, anyone but the stored target only gets "already
      underway" and a refund: the session, the timers and the ledger are untouched. */
  lemma RejectWhileOpen(s: DuelState, inv: Invocation)
    requires s.runCancellation.Some? && !IsAcceptance(s, inv)
    ensures var r := Performed(s, inv);
      && r == Reply(s, AlreadyUnderway, inv.parameters)
      && r.gameActive == s.gameActive && r.runParameters == s.runParameters
      && r.runBetAmount == s.runBetAmount && r.runCancellation == s.runCancellation
      && r.balances == s.balances
  {
  }

  /** Acceptance moves exactly the bet: the initiator wins iff the draw is at
      most the success probability, the winner gains the bet, the loser loses
      it, their sum and every other balance are unchanged, exactly one outcome
      command runs, the cooldown is committed and the game is idle again. */
  lemma {:induction false} AcceptanceIsZeroSum(s: DuelState, inv: Invocation)
    requires Inv(s) && IsAcceptance(s, inv)
    ensures var r := Performed(s, inv);
      var initiator := s.runParameters.value.user;
      var target := s.runParameters.value.targetUser.value;
      var winner := if inv.draw <= inv.successProbability then initiator else target;
      var loser := if inv.draw <= inv.successProbability then target else initiator;
      var rp := s.runParameters.value.(payout := Some(s.runBetAmount));
      var outcome := if inv.draw <= inv.successProbability then SuccessfulOutcomeCommand else FailedCommand;
      && Balance(r.balances, initiator) + Balance(r.balances, target)
         == Balance(s.balances, initiator) + Balance(s.balances, target)
      && (initiator != target ==> Balance(r.balances, winner) == Balance(s.balances, winner) + s.runBetAmount)
      && (initiator != target ==> Balance(r.balances, loser) == Balance(s.balances, loser) - s.runBetAmount)
      && (forall u :: u != initiator && u != target ==> Balance(r.balances, u) == Balance(s.balances, u))
      && r.effects == s.effects + [Run(outcome, rp), CommitCooldown(rp), Refund(inv.parameters)]
      && Idle(r)
  {
    var rp := s.runParameters.value.(payout := Some(s.runBetAmount));
    if InitiatorWins(inv) {
      TransferIsZeroSum(s.balances, rp.user, rp.targetUser.value, s.runBetAmount);
    } else {
      TransferIsZeroSum(s.balances, rp.targetUser.value, rp.user, s.runBetAmount);
    }
  }

  /** `ClearData` resets to idle, and clearing twice is clearing once. */
  lemma ClearedIsIdempotent(s: DuelState)
    ensures Idle(Cleared(s))
    ensures Cleared(Cleared(s)) == Cleared(s)
    ensures Cleared(s).balances == s.balances && Cleared(s).effects == s.effects
  {
  }

  // ---------------------------------------------------------------------------
  // Properties of the timer

  /** The timer runs the not-accepted command and the refund only when the game
      is still active and its token is not cancelled; the cooldown commit and
      the clearing happen in every case. */
  lemma TimerGuard(s: DuelState, t: Token)
    requires t in s.timers
    ensures var r := Elapsed(s, t);
      var p := s.timers[t];
      && (s.gameActive && t !in s.cancelled ==>
            r.effects == s.effects + [Run(NotAcceptedCommand, p), Refund(p), CommitCooldown(p)])
      && (!(s.gameActive && t !in s.cancelled) ==> r.effects == s.effects + [CommitCooldown(p)])
      && r.balances == s.balances
      && Idle(r)
      && t !in r.timers
  {
  }

  /** Exactly-once resolution: under the invariant, a timer resolves a session
      (not-accepted command and refund) iff that session is the running one. */
  lemma TimerResolvesOnlyRunningSession(s: DuelState, t: Token)
    requires Inv(s) && t in s.timers
    ensures var r := Elapsed(s, t);
      (|r.effects| == |s.effects| + 3 && r.effects[|s.effects|] == Run(NotAcceptedCommand, s.timers[t]))
      <==> s.runCancellation == Some(t)
  {
  }

  /** After an acceptance, the accepted session's timer is still pending but
      can no longer run the not-accepted command or refund. */
  lemma {:induction false} NoTimeoutAfterAcceptance(s: DuelState, inv: Invocation)
    requires Inv(s) && IsAcceptance(s, inv)
    ensures var a := Performed(s, inv);
      var t := s.runCancellation.value;
      && t in a.timers
      && Elapsed(a, t).effects == a.effects + [CommitCooldown(a.timers[t])]
  {
    var a := Performed(s, inv);
    var t := s.runCancellation.value;
    assert t in a.cancelled && !a.gameActive;
  }

  /** After a timeout, the game is idle, so the target's later invocation is a
      new challenge and never an acceptance. */
  lemma {:induction false} NoAcceptanceAfterTimeout(s: DuelState, t: Token, inv: Invocation)
    requires Inv(s) && s.runCancellation == Some(t)
    ensures var r := Elapsed(s, t);
      && r.effects == s.effects + [Run(NotAcceptedCommand, s.timers[t]), Refund(s.timers[t]), CommitCooldown(s.timers[t])]
      && !IsAcceptance(r, inv)
      && Inv(r)
  {
    ElapsedKeepsInv(s, t);
  }

  // ---------------------------------------------------------------------------
  // The stale timer

  /** As written, the timer of an already accepted session that fires after a
      newer session started clears that newer session; the newer session's own
      timer then finds it inactive, so its not-accepted command and its refund
      never happen. Users 1 and 3 challenge users 2 and 4 in turn. */
  lemma StaleTimerClearsNewerSession()
    ensures var s0 := Initial(map[1 := 100, 2 := 50, 3 := 100, 4 := 100]);
      var s1 := Performed(s0, Invocation(Params(1, None, None), 30, Some(2), 0, 0));
      var s2 := Performed(s1, Invocation(Params(2, None, None), 0, None, 10, 50));
      var s3 := Performed(s2, Invocation(Params(3, None, None), 20, Some(4), 0, 0));
      && s3.gameActive && s3.runCancellation == Some(1) && 0 in s3.timers
      && var s4 := Elapsed(s3, 0);
      && Idle(s4) && 1 in s4.timers
      && Elapsed(s4, 1).effects == s4.effects + [CommitCooldown(Params(3, Some(4), None))]
  {
  }

  /** The corrected timer leaves any session other than its own untouched, and
      behaves as written on its own running session. */
  lemma CheckedTimerKeepsOtherSessions(s: DuelState, t: Token)
    requires t in s.timers
    ensures var r := ElapsedChecked(s, t);
      && (s.runCancellation != Some(t) ==>
            r.gameActive == s.gameActive && r.runParameters == s.runParameters &&
            r.runBetAmount == s.runBetAmount && r.runCancellation == s.runCancellation &&
            r.balances == s.balances && r.effects == s.effects && t !in r.timers)
      && (s.runCancellation == Some(t) ==> r == Elapsed(s, t))
  {
  }

  /** In the scenario above, the corrected timer keeps the newer session, whose
      own timer then runs the not-accepted command and refunds user 3. */
  lemma CheckedTimerKeepsNewerSession()
    ensures var s0 := Initial(map[1 := 100, 2 := 50, 3 := 100, 4 := 100]);
      var s1 := Performed(s0, Invocation(Params(1, None, None), 30, Some(2), 0, 0));
      var s2 := Performed(s1, Invocation(Params(2, None, None), 0, None, 10, 50));
      var s3 := Performed(s2, Invocation(Params(3, None, None), 20, Some(4), 0, 0));
      var s4 := ElapsedChecked(s3, 0);
      && s4.gameActive && s4.runCancellation == Some(1)
      && ElapsedChecked(s4, 1).effects == s4.effects +
           [Run(NotAcceptedCommand, Params(3, Some(4), None)), Refund(Params(3, Some(4), None)),
            CommitCooldown(Params(3, Some(4), None))]
  {
  }

  // ---------------------------------------------------------------------------
  // The command object

  class Duel {
    var gameActive: bool
    var runParameters: Option<Params>
    var runBetAmount: int
    /** The running cancellation token source (`null` when idle). */
    var runCancellation: Option<Token>
    /** The sources that `Cancel()` has been called on. */
    var cancelled: set<Token>
    /** The background timers started and not yet elapsed, with the parameters each captured. */
    var timers: map<Token, Params>
    var nextToken: Token
    /** The currency ledger the duel bets against. */
    var balances: map<UserId, int>
    /** Everything the duel has done to the outside world. */
    var effects: seq<Effect>

    function Snapshot(): DuelState
      reads this
    {
      DuelState(gameActive, runParameters, runBetAmount, runCancellation, cancelled, timers,
                nextToken, balances, effects)
    }

    ghost predicate Valid()
      reads this
    {
      Inv(Snapshot())
    }

    constructor (ledger: map<UserId, int>)
      ensures Snapshot() == Initial(ledger) && Valid()
    {
      gameActive, runParameters, runBetAmount, runCancellation := false, None, 0, None;
      cancelled, timers, nextToken := {}, map[], 0;
      balances, effects := ledger, [];
    }

    /** `GetInnerCommands`. */
    method GetInnerCommands() returns (commands: seq<InnerCommand>)
      ensures commands == InnerCommands()
    {
      commands := [];
      commands := commands + [StartedCommand];
      commands := commands + [NotAcceptedCommand];
      commands := commands + [SuccessfulOutcomeCommand];
      commands := commands + [FailedCommand];
    }

    method ClearData()
      modifies this
      ensures Snapshot() == Cleared(old(Snapshot()))
    {
      gameActive := false;
      runParameters := None;
      runBetAmount := 0;
      if runCancellation.Some? {
        cancelled := cancelled + {runCancellation.value};
      }
      runCancellation := None;
    }

    method PerformInternal(inv: Invocation)
      requires Valid()
      modifies this
      ensures Snapshot() == Performed(old(Snapshot()), inv)
      ensures Valid()
    {
      ghost var before := Snapshot();
      var parameters := inv.parameters;
      if runCancellation.None? {
        var betAmount := inv.betAmount;
        if betAmount > 0 {
          parameters := parameters.(targetUser := inv.selectedTarget);
          if parameters.targetUser.Some? {
            if HasAmount(balances, parameters.targetUser.value, betAmount) {
              StartSession(parameters, betAmount);
              PerformedKeepsInv(before, inv);
              return;
            } else {
              effects := effects + [SendMessage(TargetUserInvalidAmount)];
            }
          } else {
            effects := effects + [SendMessage(CouldNotFindUser)];
          }
        } else {
          effects := effects + [SendMessage(InvalidBetAmount)];
        }
      } else {
        if runParameters.Some? && runParameters.value.targetUser == Some(parameters.user) {
          Accept(inv);
        } else {
          effects := effects + [SendMessage(AlreadyUnderway)];
        }
      }
      effects := effects + [Refund(parameters)];
      PerformedKeepsInv(before, inv);
    }

    /** The successful branch of a new challenge. */
    method StartSession(parameters: Params, betAmount: int)
      modifies this
      ensures Snapshot() == Start(old(Snapshot()), parameters, betAmount)
    {
      runParameters := Some(parameters);
      runBetAmount := betAmount;
      var token := nextToken;
      nextToken := nextToken + 1;
      runCancellation := Some(token);
      timers := timers[token := parameters];
      gameActive := true;
      effects := effects + [Run(StartedCommand, parameters)];
      effects := effects + [ResetCooldown];
    }

    /** The stored target's acceptance. */
    method Accept(inv: Invocation)
      requires runParameters.Some? && runParameters.value.targetUser.Some?
      modifies this
      ensures Snapshot() == Accepted(old(Snapshot()), inv)
    {
      ghost var before := Snapshot();
      gameActive := false;
      var run := runParameters.value.(payout := Some(runBetAmount));
      runParameters := Some(run);
      if runCancellation.Some? && runCancellation.value in timers {
        timers := timers[runCancellation.value := run];
      }
      var initiator, target := run.user, run.targetUser.value;
      if inv.draw <= inv.successProbability {
        balances := AddAmount(balances, initiator, runBetAmount);
        balances := SubtractAmount(balances, target, runBetAmount);
        effects := effects + [Run(SuccessfulOutcomeCommand, run)];
      } else {
        balances := AddAmount(balances, target, runBetAmount);
        balances := SubtractAmount(balances, initiator, runBetAmount);
        effects := effects + [Run(FailedCommand, run)];
      }
      effects := effects + [CommitCooldown(run)];
      assert Snapshot() == before.(gameActive := false, runParameters := Some(run), balances := balances,
                                   timers := timers, effects := effects);
      ClearData();
    }

    /** The body of the background timer started with `token`, after its
        delay, as corrected: a timer whose session is no longer the running
        one only goes away. On its own session it does what the source does
        (`Elapsed`). */
    method TimerCallback(token: Token)
      requires Valid() && token in timers
      modifies this
      ensures Snapshot() == ElapsedChecked(old(Snapshot()), token)
      ensures Valid()
    {
      ghost var before := Snapshot();
      var parameters := timers[token];
      timers := timers - {token};
      if runCancellation != Some(token) {
        ElapsedCheckedKeepsInv(before, token);
        return;
      }
      if gameActive && token !in cancelled {
        gameActive := false;
        effects := effects + [Run(NotAcceptedCommand, parameters)];
        effects := effects + [Refund(parameters)];
      }
      effects := effects + [CommitCooldown(parameters)];
      ClearData();
      ElapsedCheckedKeepsInv(before, token);
    }
  }
}
