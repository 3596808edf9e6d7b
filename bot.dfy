/**
 * The poll loop of the notifier: one cycle fetches the review API's answer,
 * validates and formats it, notifies the chat when the formatted status differs
 * from the last one notified, reports any failure to the chat, and sleeps.
 *
 * A cycle first reduces what the API returned to an `Outcome` (`Evaluate`);
 * `Step` is what the loop body does with that outcome. The class `Poller`
 * runs cycles in place, and `RunBot` is the program from the credential check
 * on, over a finite prefix of its endless loop.
 */
module Bot {
  import opened Wrappers
  import opened Json
  import opened Homework

  /** What one call of `get_api_answer` produced: the decoded body, or the text of its exception. */
  datatype FetchOutcome = Answer(body: Value) | RequestError(detail: string)

  /** What the outside world does in one cycle: the fetch's outcome, and whether Telegram accepts a send. */
  datatype Environment = Environment(fetched: FetchOutcome, deliveryOk: bool)

  /** The status text a cycle computed, or the exception the loop's `except` caught. */
  type Outcome = Result<string, Fault>

  /** A message handed to `send_message`: a status change, or a report of a failed cycle. */
  datatype Message = StatusNotice(text: string) | FailureNotice(text: string)

  /** The variables the loop carries from cycle to cycle. */
  datatype LoopState = LoopState(last: Option<string>, timestamp: int)

  /** The state before the first cycle. */
  const Initial: LoopState := LoopState(None, 0)

  /** One cycle: the next state, the `from_date` queried, the message sent if any, the sleep. */
  datatype Transition = Transition(next: LoopState, query: int, sent: Option<Message>, delay: nat)

  /** Fetch, validate, format: the first failure is the exception the loop catches. */
  function Evaluate(fetched: FetchOutcome): Outcome
  {
    match fetched
    case RequestError(detail) => Err(RequestFailed(detail))
    case Answer(body) =>
      match CheckResponse(body)
      case Err(f) => Err(f)
      case Ok(homework) => ParseStatus(homework)
  }

  /** The most recent submission of an answer: element 0 of a non-empty `homeworks` list. */
  function Latest(body: Value): Option<Value>
  {
    var homeworks := Field(body, "homeworks");
    if homeworks.Some? && homeworks.value.List? && |homeworks.value.items| > 0
    then Some(homeworks.value.items[0]) else None
  }

  /**
   * A cycle computes a status text exactly when the request succeeded, the
   * answer holds a non-empty `homeworks` list, and its first record has a
   * known `status` and a `homework_name`; the text is then that record's
   * notification. A request failure is reported as such, and nothing else is.
   */
  lemma EvaluateEndToEnd(fetched: FetchOutcome)
    ensures fetched.RequestError? ==> Evaluate(fetched) == Err(RequestFailed(fetched.detail))
    ensures fetched.Answer? && Evaluate(fetched).Err? ==> !Evaluate(fetched).error.RequestFailed?
    ensures Evaluate(fetched).Ok? <==>
      fetched.Answer? && Latest(fetched.body).Some? &&
      Field(Latest(fetched.body).value, "status").Some? &&
      KnownStatus(Field(Latest(fetched.body).value, "status").value) &&
      Field(Latest(fetched.body).value, "homework_name").Some?
    ensures Evaluate(fetched).Ok? ==>
      var record := Latest(fetched.body).value;
      Evaluate(fetched).value ==
        Notice(Display(Field(record, "homework_name").value),
               HomeworkVerdicts[Field(record, "status").value.s])
  {
  }

  /** What every report of a failed cycle starts with. */
  const AlertHead: string := "Сбой в работе программы: "

  /** The report sent to the chat after a failed cycle. */
  function AlertText(f: Fault): string
  {
    AlertHead + Describe(f)
  }

  /** A failure report is the fixed head followed by `str(e)` and nothing else. */
  lemma AlertTextShape(f: Fault)
    ensures |AlertText(f)| == |AlertHead| + |Describe(f)|
    ensures AlertText(f)[..|AlertHead|] == AlertHead && AlertText(f)[|AlertHead|..] == Describe(f)
  {
  }

  /** A failure report can never be mistaken for a status notice: their first letters differ. */
  lemma AlertIsNotNotice(f: Fault, name: string, verdict: string)
    ensures AlertText(f) != Notice(name, verdict)
  {
    AlertTextShape(f);
    assert AlertText(f)[0] == AlertText(f)[..|AlertHead|][0] == AlertHead[0] == 'С';
    assert Notice(name, verdict)[0] == Notice(name, verdict)[..|NoticeHead|][0] == NoticeHead[0] == 'И';
  }

  /** What the loop body does after fetching, validating and formatting ended in `outcome`. */
  function Step(s: LoopState, outcome: Outcome): (r: Transition)
    ensures r.query == s.timestamp && r.next.timestamp == s.timestamp && r.delay == RetryPeriod
    ensures outcome.Err? ==> r.next == s && r.sent == Some(FailureNotice(AlertText(outcome.error)))
    ensures outcome.Ok? ==> r.next.last == Some(outcome.value)
    ensures outcome.Ok? ==>
      (r.sent.None? <==> s.last == r.next.last) &&
      (r.sent.Some? ==> r.sent == Some(StatusNotice(outcome.value)))
  {
    match outcome
    case Ok(message) =>
      if Some(message) != s.last then
        Transition(s.(last := Some(message)), s.timestamp, Some(StatusNotice(message)), RetryPeriod)
      else
        Transition(s, s.timestamp, None, RetryPeriod)
    case Err(f) =>
      Transition(s, s.timestamp, Some(FailureNotice(AlertText(f))), RetryPeriod)
  }

  /** The text of the message a transition sends, if any. */
  function SentText(t: Transition): seq<string>
  {
    match t.sent case None => [] case Some(m) => [m.text]
  }

  // ---------------------------------------------------------------------------
  // Runs of several cycles, each defined by its last cycle

  /** The state after cycles with the outcomes `outcomes`. */
  function After(s: LoopState, outcomes: seq<Outcome>): LoopState
    decreases |outcomes|
  {
    if outcomes == [] then s
    else Step(After(s, outcomes[..|outcomes| - 1]), outcomes[|outcomes| - 1]).next
  }

  /** The transition of the last of the cycles. */
  function LastStep(s: LoopState, outcomes: seq<Outcome>): Transition
    requires outcomes != []
  {
    Step(After(s, outcomes[..|outcomes| - 1]), outcomes[|outcomes| - 1])
  }

  /** Every text handed to `send_message`, in order. */
  function Sent(s: LoopState, outcomes: seq<Outcome>): seq<string>
    decreases |outcomes|
  {
    if outcomes == [] then []
    else Sent(s, outcomes[..|outcomes| - 1]) + SentText(LastStep(s, outcomes))
  }

  /** The status notices among the sent messages, in order. */
  function Notices(s: LoopState, outcomes: seq<Outcome>): seq<string>
    decreases |outcomes|
  {
    if outcomes == [] then []
    else
      Notices(s, outcomes[..|outcomes| - 1]) +
      (match LastStep(s, outcomes).sent
       case Some(StatusNotice(text)) => [text]
       case _ => [])
  }

  /** The `from_date` of every request, in order. */
  function Queries(s: LoopState, outcomes: seq<Outcome>): seq<int>
    decreases |outcomes|
  {
    if outcomes == [] then [] else Queries(s, outcomes[..|outcomes| - 1]) + [LastStep(s, outcomes).query]
  }

  /** Every sleep, in order. */
  function Delays(s: LoopState, outcomes: seq<Outcome>): seq<nat>
    decreases |outcomes|
  {
    if outcomes == [] then [] else Delays(s, outcomes[..|outcomes| - 1]) + [LastStep(s, outcomes).delay]
  }

  /** A run extended by one cycle is that cycle applied to the run's final state. */
  lemma Extend(s: LoopState, outcomes: seq<Outcome>, outcome: Outcome)
    ensures var t := Step(After(s, outcomes), outcome);
      && After(s, outcomes + [outcome]) == t.next
      && Sent(s, outcomes + [outcome]) == Sent(s, outcomes) + SentText(t)
      && Queries(s, outcomes + [outcome]) == Queries(s, outcomes) + [t.query]
      && Delays(s, outcomes + [outcome]) == Delays(s, outcomes) + [t.delay]
  {
  }

  // ---------------------------------------------------------------------------
  // Properties of runs

  /** `timestamp` is never reassigned, so every request asks from the same date. */
  lemma {:induction false} TimestampNeverChanges(s: LoopState, outcomes: seq<Outcome>)
    ensures After(s, outcomes).timestamp == s.timestamp
    ensures |Queries(s, outcomes)| == |outcomes|
    ensures forall i :: 0 <= i < |outcomes| ==> Queries(s, outcomes)[i] == s.timestamp
  {
    if outcomes != [] {
      TimestampNeverChanges(s, outcomes[..|outcomes| - 1]);
    }
  }

  /** From the initial state every request is sent with `from_date` 0. */
  lemma {:induction false} QueriesFromZero(outcomes: seq<Outcome>)
    ensures After(Initial, outcomes).timestamp == 0
    ensures forall i :: 0 <= i < |Queries(Initial, outcomes)| ==> Queries(Initial, outcomes)[i] == 0
  {
    TimestampNeverChanges(Initial, outcomes);
  }

  /** The loop sleeps `RetryPeriod` after every cycle, successful or not. */
  lemma {:induction false} EveryDelayIsRetryPeriod(s: LoopState, outcomes: seq<Outcome>)
    ensures |Delays(s, outcomes)| == |outcomes|
    ensures forall i :: 0 <= i < |outcomes| ==> Delays(s, outcomes)[i] == RetryPeriod
  {
    if outcomes != [] {
      EveryDelayIsRetryPeriod(s, outcomes[..|outcomes| - 1]);
    }
  }

  /** Failed cycles leave the state alone and each sends exactly one report of its fault. */
  lemma {:induction false} FailuresKeepState(s: LoopState, outcomes: seq<Outcome>)
    requires forall i :: 0 <= i < |outcomes| ==> outcomes[i].Err?
    ensures After(s, outcomes) == s
    ensures |Sent(s, outcomes)| == |outcomes|
    ensures forall i :: 0 <= i < |outcomes| ==> Sent(s, outcomes)[i] == AlertText(outcomes[i].error)
    ensures Notices(s, outcomes) == []
  {
    if outcomes != [] {
      var init, final := outcomes[..|outcomes| - 1], outcomes[|outcomes| - 1];
      assert forall i :: 0 <= i < |init| ==> init[i] == outcomes[i];
      FailuresKeepState(s, init);
      var alert := AlertText(final.error);
      var sent := Sent(s, outcomes);
      assert After(s, outcomes) == s && sent == Sent(s, init) + [alert] && Notices(s, outcomes) == [] by {
        var t := Step(s, final);
        assert t.next == s && t.sent == Some(FailureNotice(alert));
        assert LastStep(s, outcomes) == t;
        assert SentText(t) == [alert];
      }
      forall i | 0 <= i < |outcomes| ensures sent[i] == AlertText(outcomes[i].error) {
        if i < |init| {
          assert sent[i] == Sent(s, init)[i] && outcomes[i] == init[i];
        } else {
          assert sent[i] == alert && outcomes[i] == final;
        }
      }
    }
  }

  /** The same status polled `k >= 1` times in a row is notified at most once, on the first cycle. */
  lemma {:induction false} RepeatedStatusNotifiesOnce(s: LoopState, outcome: Outcome, k: nat)
    requires outcome.Ok? && k >= 1
    ensures After(s, seq(k, _ => outcome)).last == Some(outcome.value)
    ensures Sent(s, seq(k, _ => outcome)) == if s.last == Some(outcome.value) then [] else [outcome.value]
  {
    var outcomes := seq(k, _ => outcome);
    var init := seq(k - 1, _ => outcome);
    assert outcomes[..k - 1] == init;
    if k > 1 {
      RepeatedStatusNotifiesOnce(s, outcome, k - 1);
    } else {
      assert init == [];
    }
  }

  /**
   * `last` is always the most recent status notice (or the starting value),
   * and two consecutive status notices always differ, even with failed cycles
   * between them.
   */
  lemma {:induction false} NoticesChangeEachTime(s: LoopState, outcomes: seq<Outcome>)
    ensures var n := Notices(s, outcomes);
      After(s, outcomes).last == (if n == [] then s.last else Some(n[|n| - 1]))
    ensures var n := Notices(s, outcomes);
      n != [] ==> s.last != Some(n[0])
    ensures var n := Notices(s, outcomes);
      forall i :: 0 < i < |n| ==> n[i - 1] != n[i]
  {
    if outcomes != [] {
      NoticesChangeEachTime(s, outcomes[..|outcomes| - 1]);
    }
  }

  /** A status notice only ever goes out for a status some cycle computed. */
  lemma {:induction false} NoticesComeFromOutcomes(s: LoopState, outcomes: seq<Outcome>)
    ensures forall t :: t in Notices(s, outcomes) ==>
      exists i :: 0 <= i < |outcomes| && outcomes[i] == Ok(t)
  {
    if outcomes != [] {
      var init := outcomes[..|outcomes| - 1];
      NoticesComeFromOutcomes(s, init);
      assert forall i :: 0 <= i < |init| ==> init[i] == outcomes[i];
    }
  }

  // ---------------------------------------------------------------------------
  // The loop run in place

  /** The loop's variables, with a record of everything it has done so far. */
  class Poller {
    var last: Option<string>
    var timestamp: int
    /** The outcomes of the cycles run so far. */
    ghost var history: seq<Outcome>
    /** Every text handed to `send_message`. */
    ghost var sent: seq<string>
    /** The texts Telegram accepted. */
    ghost var delivered: seq<string>
    ghost var queries: seq<int>
    ghost var delays: seq<nat>

    /** The fields agree with the run `Step` specifies over `history`. */
    ghost predicate Valid()
      reads this
    {
      && LoopState(last, timestamp) == After(Initial, history)
      && sent == Sent(Initial, history)
      && queries == Queries(Initial, history)
      && delays == Delays(Initial, history)
      && |delivered| <= |sent|
    }

    /** `timestamp = 0` and `last_status_message = None`. */
    constructor ()
      ensures Valid()
      ensures last == None && timestamp == 0
      ensures history == [] && sent == [] && delivered == [] && queries == [] && delays == []
    {
      last := None;
      timestamp := 0;
      history := [];
      sent := [];
      delivered := [];
      queries := [];
      delays := [];
    }

    /**
     * `send_message`: one attempt; a delivery failure is swallowed and changes
     * nothing else. Only a step of `Cycle`: on its own it does not keep `Valid()`.
     */
    method SendMessage(text: string, deliveryOk: bool)
      modifies this
      ensures sent == old(sent) + [text]
      ensures delivered == if deliveryOk then old(delivered) + [text] else old(delivered)
      ensures last == old(last) && timestamp == old(timestamp)
      ensures history == old(history) && queries == old(queries) && delays == old(delays)
    {
      sent := sent + [text];
      if deliveryOk {
        delivered := delivered + [text];
      }
    }

    /**
     * The `if`/`else` of the loop body, or its `except` branch, for a cycle that
     * ended in `outcome`. Only a step of `Cycle`, which also records the cycle
     * in `history`: on its own it does not keep `Valid()`.
     */
    method Notify(outcome: Outcome, deliveryOk: bool)
      modifies this
      ensures LoopState(last, timestamp) == Step(old(LoopState(last, timestamp)), outcome).next
      ensures sent == old(sent) + SentText(Step(old(LoopState(last, timestamp)), outcome))
      ensures delivered == old(delivered) +
        if deliveryOk then SentText(Step(old(LoopState(last, timestamp)), outcome)) else []
      ensures history == old(history) && queries == old(queries) && delays == old(delays)
    {
      if outcome.Ok? {
        if Some(outcome.value) != last {
          SendMessage(outcome.value, deliveryOk);
          last := Some(outcome.value);
        }
      } else {
        SendMessage(AlertText(outcome.error), deliveryOk);
      }
    }

    /** One pass of the `while True` body, with the sleep recorded in `delays`. */
    method Cycle(env: Environment)
      requires Valid()
      modifies this
      ensures Valid()
      ensures history == old(history) + [Evaluate(env.fetched)]
      ensures LoopState(last, timestamp) == Step(old(LoopState(last, timestamp)), Evaluate(env.fetched)).next
      ensures sent == old(sent) + SentText(Step(old(LoopState(last, timestamp)), Evaluate(env.fetched)))
      ensures delivered == old(delivered) +
        if env.deliveryOk then SentText(Step(old(LoopState(last, timestamp)), Evaluate(env.fetched))) else []
      ensures queries == old(queries) + [old(timestamp)] && delays == old(delays) + [RetryPeriod]
    {
      var outcome := Evaluate(env.fetched);
      Extend(Initial, history, outcome);
      queries := queries + [timestamp];
      Notify(outcome, env.deliveryOk);
      delays := delays + [RetryPeriod];
      history := history + [outcome];
    }
  }

  /** The outcomes of a sequence of cycles. */
  function Outcomes(cycles: seq<Environment>): seq<Outcome>
  {
    seq(|cycles|, i requires 0 <= i < |cycles| => Evaluate(cycles[i].fetched))
  }

  /**
   * `main` from the credential check on, run for the cycles `cycles` of its
   * endless loop. `exit` is the `sys.exit` text when the program stops;
   * otherwise `last` is `last_status_message` after those cycles.
   */
  method RunBot(practicumToken: Option<string>, telegramToken: Option<string>,
                chatId: Option<string>, cycles: seq<Environment>)
    returns (exit: Option<string>, last: Option<string>, ghost sent: seq<string>, ghost queries: seq<int>)
    ensures exit.Some? <==> CheckTokens(practicumToken, telegramToken, chatId).Fatal?
    ensures exit.Some? ==> exit.value == StopReason && last == None && sent == [] && queries == []
    ensures exit.None? ==> last == After(Initial, Outcomes(cycles)).last
    ensures exit.None? ==> sent == Sent(Initial, Outcomes(cycles))
    ensures exit.None? ==> queries == Queries(Initial, Outcomes(cycles))
  {
    match CheckTokens(practicumToken, telegramToken, chatId)
    case Fatal(reason) =>
      return Some(reason), None, [], [];
    case Proceed =>
      var poller := new Poller();
      var i := 0;
      while i < |cycles|
        invariant 0 <= i <= |cycles|
        invariant poller.Valid()
        invariant poller.history == Outcomes(cycles)[..i]
      {
        assert Outcomes(cycles)[..i + 1] == Outcomes(cycles)[..i] + [Evaluate(cycles[i].fetched)];
        poller.Cycle(cycles[i]);
        i := i + 1;
      }
      assert Outcomes(cycles)[..i] == Outcomes(cycles);
      return None, poller.last, poller.sent, poller.queries;
  }
}
