/**
 * The body of the bot's endless polling loop. The loop carries two values
 * from one cycle to the next: the last message (which starts as "text") and
 * the timestamp the next request asks from. Every exception of a cycle is
 * caught and replaced by one fixed failure notice, which is not sent again
 * while it is still the last message.
 */
module PollLoop {
  import opened PyJson
  import opened Exceptions
  import opened Homework

  const InitialMessage := "text"
  const FailureText := "Сбой в работе программы"

  /** What the loop carries between cycles. */
  datatype State = State(message: string, timestamp: Json)

  /** The state after a cycle and the messages the cycle sent. */
  datatype Transition = Transition(next: State, sent: seq<string>)

  /** The state before the first cycle, given the clock at start-up. */
  function Initial(now: int): State {
    State(InitialMessage, JInt(now))
  }

  /** The homework list a fetch yields once `get_api_answer` and `check_response` have run. */
  function Answer(fetch: Fetch): Result<seq<Json>> {
    match GetApiAnswer(fetch)
    case Err(e) => Err(e)
    case Ok(response) => CheckResponse(response)
  }

  /** `response.get('current_date')` */
  function CurrentDate(fetch: Fetch): (date: Json)
    requires GetApiAnswer(fetch).Ok?
    ensures var response := GetApiAnswer(fetch).value.members;
            !HasKey(response, "current_date") ==> date == JNull
    ensures var response := GetApiAnswer(fetch).value.members;
            HasKey(response, "current_date") ==>
              exists k :: 0 <= k < |response| && response[k] == ("current_date", date)
  {
    Get(GetApiAnswer(fetch).value.members, "current_date")
  }

  /** How the `try` block of one cycle ends. */
  datatype Outcome =
    | FetchFailed              // the request, `get_api_answer` or `check_response` raised
    | NoHomeworks(date: Json)  // the homework list was empty
    | Formatted(date: Json, text: string)  // the first record's notification
    | FormatFailed(date: Json) // `parse_status` raised, after the timestamp was replaced

  /** The outcome of the `try` block for what the request produced. */
  function Observe(fetch: Fetch): (o: Outcome)
    ensures o.FetchFailed? <==> Answer(fetch).Err?
    ensures o.NoHomeworks? <==> Answer(fetch) == Ok([])
    ensures o.Formatted? <==> Answer(fetch).Ok? && Answer(fetch).value != [] &&
                              ParseStatus(Answer(fetch).value[0]).Ok?
    ensures o.Formatted? ==> o.text == ParseStatus(Answer(fetch).value[0]).value && StatusPrefix <= o.text
    ensures !o.FetchFailed? ==> GetApiAnswer(fetch).Ok? && o.date == CurrentDate(fetch)
  {
    match GetApiAnswer(fetch)
    case Err(_) => FetchFailed
    case Ok(response) =>
      match CheckResponse(response)
      case Err(_) => FetchFailed
      case Ok(homework) =>
        var date := Get(response.members, "current_date");
        if |homework| == 0 then NoHomeworks(date)
        else
          match ParseStatus(homework[0])
          case Err(_) => FormatFailed(date)
          case Ok(m) =>
            ParseStatusPrefix(homework[0]);
            Formatted(date, m)
  }

  /** The cycle raised: the `except` block runs. */
  predicate Raised(o: Outcome) {
    o.FetchFailed? || o.FormatFailed?
  }

  /** The shape every notification has: it is never the failure notice. */
  predicate Notification(o: Outcome) {
    o.Formatted? ==> o.text != FailureText
  }

  lemma ObserveNotification(fetch: Fetch)
    ensures Notification(Observe(fetch))
  {
  }

  /** The last message sent, or `before` when nothing was sent. */
  function LastSent(before: string, log: seq<string>): string {
    if log == [] then before else log[|log| - 1]
  }

  /** No failure notice directly follows another one. */
  predicate NoRepeatedFailure(log: seq<string>) {
    forall k :: 0 <= k < |log| - 1 ==> !(log[k] == FailureText && log[k + 1] == FailureText)
  }

  /** The `except` block: send the failure notice unless it is already the last message. */
  function Failed(s: State): (t: Transition)
    ensures t.next == s.(message := FailureText)
    ensures t.sent == [] <==> s.message == FailureText
    ensures t.sent != [] ==> t.sent == [FailureText]
  {
    if s.message != FailureText then Transition(s.(message := FailureText), [FailureText])
    else Transition(s, [])
  }

  /** One cycle of the loop. */
  function Step(s: State, o: Outcome): (t: Transition)
    ensures |t.sent| <= 1 && t.next.message == LastSent(s.message, t.sent)
    ensures FailureText in t.sent ==> s.message != FailureText || !Notification(o)
    ensures t.next.timestamp == if o.FetchFailed? then s.timestamp else o.date
    ensures o.Formatted? ==> t.sent == [o.text]
    ensures Raised(o) ==> t.sent == (if s.message == FailureText then [] else [FailureText])
    ensures o.NoHomeworks? ==> t.sent == []
  {
    match o
    case FetchFailed => Failed(s)
    case NoHomeworks(date) => Transition(s.(timestamp := date), [])
    case Formatted(date, m) => Transition(State(m, date), [m])
    case FormatFailed(date) => Failed(s.(timestamp := date))
  }

  /** The cycles of the loop, one per outcome. */
  function Run(s: State, outcomes: seq<Outcome>): (t: Transition)
    ensures |t.sent| <= |outcomes|
    ensures outcomes == [] ==> t == Transition(s, [])
    ensures (forall k :: 0 <= k < |outcomes| ==> outcomes[k].NoHomeworks?) ==> t.sent == [] && t.next.message == s.message
    decreases |outcomes|
  {
    if outcomes == [] then Transition(s, [])
    else
      var first := Step(s, outcomes[0]);
      var rest := Run(first.next, outcomes[1..]);
      Transition(rest.next, first.sent + rest.sent)
  }

  /** The outcome of each of a sequence of fetches. */
  function Observations(fetches: seq<Fetch>): (os: seq<Outcome>)
    ensures |os| == |fetches|
  {
    seq(|fetches|, k requires 0 <= k < |fetches| => Observe(fetches[k]))
  }

  lemma NoRepeatedFailureSnoc(log: seq<string>, m: string)
    requires log != [] && NoRepeatedFailure(log)
    requires m == FailureText ==> log[|log| - 1] != FailureText
    ensures NoRepeatedFailure(log + [m])
  {
  }

  /**
   * One cycle keeps the two facts about the sent log: the message is the last
   * one sent, and no failure notice follows another.
   */
  lemma StepExtendsLog(s: State, o: Outcome, before: string, log: seq<string>)
    requires Notification(o)
    requires s.message == LastSent(before, log) && NoRepeatedFailure([before] + log)
    ensures var t := Step(s, o);
            t.next.message == LastSent(before, log + t.sent) &&
            NoRepeatedFailure([before] + (log + t.sent))
  {
    var t := Step(s, o);
    if t.sent == [] {
      assert log + t.sent == log;
    } else {
      var m := t.sent[0];
      assert t.sent == [m];
      assert [before] + (log + t.sent) == ([before] + log) + [m];
      NoRepeatedFailureSnoc([before] + log, m);
    }
  }

  lemma {:induction false} RunExtendsLog(s: State, outcomes: seq<Outcome>, before: string, log: seq<string>)
    requires forall k :: 0 <= k < |outcomes| ==> Notification(outcomes[k])
    requires s.message == LastSent(before, log) && NoRepeatedFailure([before] + log)
    ensures var t := Run(s, outcomes);
            t.next.message == LastSent(before, log + t.sent) &&
            NoRepeatedFailure([before] + (log + t.sent))
    decreases |outcomes|
  {
    if outcomes == [] {
      assert log + [] == log;
    } else {
      var first := Step(s, outcomes[0]);
      assert Notification(outcomes[0]);
      StepExtendsLog(s, outcomes[0], before, log);
      RunExtendsLog(first.next, outcomes[1..], before, log + first.sent);
      var rest := Run(first.next, outcomes[1..]);
      assert log + first.sent + rest.sent == log + (first.sent + rest.sent);
    }
  }

  /**
   * Over any sequence of fetches the message is the last one sent, and the
   * failure notice is never sent twice in a row (nor right after a state
   * whose message already is the notice).
   */
  lemma RunDeduplicatesFailures(s: State, fetches: seq<Fetch>)
    ensures Run(s, Observations(fetches)).next.message == LastSent(s.message, Run(s, Observations(fetches)).sent)
    ensures NoRepeatedFailure([s.message] + Run(s, Observations(fetches)).sent)
  {
    var os := Observations(fetches);
    forall k | 0 <= k < |os|
      ensures Notification(os[k])
    {
      ObserveNotification(fetches[k]);
    }
    RunExtendsLog(s, os, s.message, []);
    assert [] + Run(s, os).sent == Run(s, os).sent;
  }

  /** A streak of failing cycles sends the notice at most once: once if it is not already the last message. */
  lemma {:induction false} FailureStreak(s: State, outcomes: seq<Outcome>)
    requires forall k :: 0 <= k < |outcomes| ==> Raised(outcomes[k])
    ensures Run(s, outcomes).sent == (if outcomes == [] || s.message == FailureText then [] else [FailureText])
    ensures outcomes != [] ==> Run(s, outcomes).next.message == FailureText
    decreases |outcomes|
  {
    if outcomes != [] {
      var first := Step(s, outcomes[0]);
      assert Raised(outcomes[0]);
      FailureStreak(first.next, outcomes[1..]);
      assert first.next.message == FailureText;
      if outcomes[1..] == [] {
        assert first.sent + [] == first.sent;
      }
    }
  }

  /** A failing fetch is one whose outcome raises: the request, a check or the formatting failed. */
  lemma RaisedWhenSomethingFails(fetch: Fetch)
    ensures Raised(Observe(fetch)) <==>
              Answer(fetch).Err? ||
              (Answer(fetch).value != [] && ParseStatus(Answer(fetch).value[0]).Err?)
  {
  }

  /** A successful cycle with no homeworks sends nothing and keeps the message, but moves the timestamp. */
  lemma EmptyAnswerSendsNothing(s: State, fetch: Fetch)
    requires Answer(fetch) == Ok([])
    ensures Step(s, Observe(fetch)) == Transition(s.(timestamp := CurrentDate(fetch)), [])
  {
  }

  /** Successful notifications are not deduplicated: the same notification is sent on every cycle. */
  lemma RepeatedStatusResent(s: State, o: Outcome)
    requires o.Formatted?
    ensures Run(s, [o, o]) == Transition(State(o.text, o.date), [o.text, o.text])
  {
    var first := Step(s, o);
    assert [o, o][1..] == [o];
    assert Run(first.next, [o]) == Transition(Step(first.next, o).next, Step(first.next, o).sent + []);
  }

  /** A notification is never the failure notice, so a failure right after one is always reported. */
  lemma FailureAfterNotificationReported(s: State, ok: Outcome, bad: Outcome)
    requires ok.Formatted? && Notification(ok) && Raised(bad)
    ensures Run(s, [ok, bad]).sent == [ok.text, FailureText]
    ensures Run(s, [ok, bad]).next.message == FailureText
  {
    var first := Step(s, ok);
    assert [ok, bad][1..] == [bad];
    assert Run(first.next, [bad]) == Transition(Step(first.next, bad).next, Step(first.next, bad).sent + []);
  }

  /**
   * A successful answer without `current_date` leaves the timestamp None, so
   * the next request falls back to the clock.
   */
  lemma MissingCurrentDateFallsBackToClock(s: State, fetch: Fetch, now: int)
    requires Answer(fetch).Ok? && !HasKey(GetApiAnswer(fetch).value.members, "current_date")
    ensures Step(s, Observe(fetch)).next.timestamp == JNull
    ensures FromDate(Step(s, Observe(fetch)).next.timestamp, now) == JInt(now)
  {
  }

  /**
   * An empty answer dated 100, then two failed requests: the timestamp becomes
   * 100 and exactly one failure notice is sent.
   */
  lemma EmptyThenTwoFailures(start: int)
    ensures var first := Received(200, Some(JObject([("homeworks", JList([])), ("current_date", JInt(100))])));
            && Step(Initial(start), Observe(first)) == Transition(State(InitialMessage, JInt(100)), [])
            && Run(Initial(start), Observations([first, ConnectionFailed, ConnectionFailed]))
               == Transition(State(FailureText, JInt(100)), [FailureText])
  {
    var first := Received(200, Some(JObject([("homeworks", JList([])), ("current_date", JInt(100))])));
    var members := [("homeworks", JList([])), ("current_date", JInt(100))];
    assert HasKey(members, "homeworks");
    assert Get(members, "current_date") == JInt(100);
    assert Observe(first) == NoHomeworks(JInt(100));
    var s1 := State(InitialMessage, JInt(100));
    var os := Observations([first, ConnectionFailed, ConnectionFailed]);
    assert os == [NoHomeworks(JInt(100)), FetchFailed, FetchFailed];
    var s2 := State(FailureText, JInt(100));
    assert os[1..] == [FetchFailed, FetchFailed];
    assert [FetchFailed, FetchFailed][1..] == [FetchFailed];
    assert Run(s2, [FetchFailed]) == Transition(s2, []);
    assert Run(s1, [FetchFailed, FetchFailed]) == Transition(s2, [FailureText]);
  }

  /** The running bot: the loop's two variables and, as ghost logs, what it sent and asked for. */
  class HomeworkBot {
    var message: string
    var timestamp: Json
    ghost var sent: seq<string>
    ghost var queries: seq<Json>

    ghost predicate Valid()
      reads this
    {
      message == LastSent(InitialMessage, sent) && NoRepeatedFailure([InitialMessage] + sent)
    }

    ghost function Current(): State
      reads this
    {
      State(message, timestamp)
    }

    /** The variables `main` sets before entering the loop. */
    constructor (now: int)
      ensures Valid() && Current() == Initial(now) && sent == [] && queries == []
    {
      message := InitialMessage;
      timestamp := JInt(now);
      sent := [];
      queries := [];
    }

    /** `send_message`: delivery failures are swallowed, so all that is observable is the attempt. */
    method SendMessage(text: string)
      modifies this`sent
      ensures sent == old(sent) + [text]
    {
      sent := sent + [text];
    }

    /** The `except` block. */
    method ReportFailure()
      modifies this`message, this`sent
      ensures Current() == Failed(old(Current())).next
      ensures sent == old(sent) + Failed(old(Current())).sent
    {
      var errorText := FailureText;
      if message != errorText {
        message := errorText;
        SendMessage(message);
      }
    }

    /** One pass through the loop, with the clock reading `now` and what the request produced. */
    method Cycle(now: int, fetch: Fetch)
      requires Valid()
      modifies this
      ensures Valid()
      ensures queries == old(queries) + [FromDate(old(timestamp), now)]
      ensures Current() == Step(old(Current()), Observe(fetch)).next
      ensures sent == old(sent) + Step(old(Current()), Observe(fetch)).sent
    {
      ObserveNotification(fetch);
      StepExtendsLog(Current(), Observe(fetch), InitialMessage, sent);
      queries := queries + [FromDate(timestamp, now)];
      var answer := GetApiAnswer(fetch);
      if answer.Err? {
        ReportFailure();
        return;
      }
      var response := answer.value;
      var checked := CheckResponse(response);
      if checked.Err? {
        ReportFailure();
        return;
      }
      var homework := checked.value;
      timestamp := Get(response.members, "current_date");
      if |homework| != 0 {
        var parsed := ParseStatus(homework[0]);
        if parsed.Err? {
          ReportFailure();
          return;
        }
        message := parsed.value;
        SendMessage(message);
      }
    }
  }
}
