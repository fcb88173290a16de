/**
 * Sequences of requests handled one after another by the chat route, and
 * what the shared game state guarantees across them.
 */
module Runs {
  import opened Optional
  import opened Syndicate
  import opened ChatRoute

  /** The state after a run, the replies in order, and the mint requests sent. */
  datatype Trace = Trace(state: GameState, responses: seq<Response>, mints: seq<MintRequest>)

  function MintsOf(o: Outcome): seq<MintRequest> {
    if o.minted.Some? then [o.minted.value] else []
  }

  /** The requests `qs` handled in order, starting from state `s`. */
  function Run(s: GameState, qs: seq<Request>): (t: Trace)
    ensures |t.responses| == |qs|
    decreases |qs|
  {
    if |qs| == 0 then
      Trace(s, [], [])
    else
      var o := Step(s, qs[0]);
      var rest := Run(o.state, qs[1..]);
      Trace(rest.state, [o.response] + rest.responses, MintsOf(o) + rest.mints)
  }

  /** Handling `a` and then `b` is handling `a + b`. */
  lemma {:induction false} RunConcat(s: GameState, a: seq<Request>, b: seq<Request>)
    ensures Run(s, a + b) ==
      var first := Run(s, a);
      var second := Run(first.state, b);
      Trace(second.state, first.responses + second.responses, first.mints + second.mints)
    decreases |a|
  {
    if |a| == 0 {
      assert a + b == b;
    } else {
      assert (a + b)[0] == a[0];
      assert (a + b)[1..] == a[1..] + b;
      var o := Step(s, a[0]);
      RunConcat(o.state, a[1..], b);
      var tail := Run(o.state, a[1..]);
      var second := Run(tail.state, b);
      assert [o.response] + (tail.responses + second.responses)
        == ([o.response] + tail.responses) + second.responses;
      assert MintsOf(o) + (tail.mints + second.mints) == (MintsOf(o) + tail.mints) + second.mints;
    }
  }

  /** A counter within the budget stays within it, however many requests come. */
  lemma {:induction false} RunKeepsRange(s: GameState, qs: seq<Request>)
    requires s.InRange()
    ensures Run(s, qs).state.InRange()
    decreases |qs|
  {
    if |qs| > 0 {
      RunKeepsRange(Step(s, qs[0]).state, qs[1..]);
    }
  }

  /** Once won, the game is frozen: every request is answered "already won" and nothing is minted. */
  lemma {:induction false} WonRunIsFrozen(s: GameState, qs: seq<Request>)
    requires s.gameWon
    ensures Run(s, qs).state == s && Run(s, qs).mints == []
    ensures forall i :: 0 <= i < |qs| ==> Run(s, qs).responses[i] == AlreadyWon
    decreases |qs|
  {
    if |qs| > 0 {
      WonRunIsFrozen(s, qs[1..]);
    }
  }

  /** `gameWon` never goes back to false: a run that has won stays won whatever follows. */
  lemma WonIsPermanent(s: GameState, a: seq<Request>, b: seq<Request>)
    requires Run(s, a).state.gameWon
    ensures Run(s, a + b).state.gameWon
  {
    RunConcat(s, a, b);
    WonRunIsFrozen(Run(s, a).state, b);
  }

  /** A game issues at most one prize: none at all once it has been won. */
  lemma {:induction false} AtMostOnePrize(s: GameState, qs: seq<Request>)
    ensures |Run(s, qs).mints| <= if s.gameWon then 0 else 1
    decreases |qs|
  {
    if |qs| > 0 {
      var o := Step(s, qs[0]);
      if o.minted.Some? {
        WonRunIsFrozen(o.state, qs[1..]);
      } else {
        AtMostOnePrize(o.state, qs[1..]);
      }
    }
  }

  /**
   * Questions that are not win claims are counted one by one and all go to
   * the chat model. This includes the one-message opening question, which at
   * a counter of 1 is never a claim.
   */
  lemma {:induction false} QuestionsAreCounted(s: GameState, qs: seq<Request>)
    requires !s.gameWon && 0 <= s.questionCount && s.questionCount + |qs| <= MaxQuestions
    requires forall i :: 0 <= i < |qs| ==>
      |qs[i].messages| > 0 && !IsWinClaim(s.questionCount + i + 1, qs[i].messages)
    ensures Run(s, qs).state == s.(questionCount := s.questionCount + |qs|)
    ensures Run(s, qs).mints == []
    ensures forall i :: 0 <= i < |qs| ==> Run(s, qs).responses[i].Chat?
    decreases |qs|
  {
    if |qs| > 0 {
      assert |qs[0].messages| > 0 && !IsWinClaim(s.questionCount + 0 + 1, qs[0].messages);
      var o := Step(s, qs[0]);
      assert o.state == s.(questionCount := s.questionCount + 1) && o.response.Chat?;
      var rest := qs[1..];
      forall i | 0 <= i < |rest|
        ensures |rest[i].messages| > 0 && !IsWinClaim(o.state.questionCount + i + 1, rest[i].messages)
      {
        assert rest[i] == qs[i + 1];
      }
      QuestionsAreCounted(o.state, rest);
    }
  }

  /**
   * After twenty questions of a fresh game that are not win claims, the next
   * request, whatever it holds, ends the game: the counter is back to zero,
   * but as written the request throws instead of sending the run-out reply.
   * With `secretWord` declared, the same request gets the run-out reply.
   */
  lemma TwentyFirstRequestEndsGame(qs: seq<Request>, q: Request)
    requires |qs| == MaxQuestions
    requires forall i :: 0 <= i < |qs| ==> |qs[i].messages| > 0 && !IsWinClaim(i + 1, qs[i].messages)
    ensures Run(Initial, qs + [q]).state == Initial
    ensures Run(Initial, qs + [q]).responses[MaxQuestions] == Crash(SecretWordUndeclared)
    ensures Run(Initial, qs + [q]).mints == []
    ensures StepCorrected(Run(Initial, qs).state, q) == Outcome(Initial, OutOfQuestions, None)
  {
    QuestionsAreCounted(Initial, qs);
    RunConcat(Initial, qs, [q]);
    assert [q][1..] == [];
  }
}
