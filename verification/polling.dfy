/** One pass of the bot's main loop: fetch the answer, remember its
    `current_date`, validate it, translate the newest homework, and send the
    notification when the report differs from the last one sent. Fetching
    and sending are inputs of the pass; the loop, the sleep and logging are
    not modelled. */
module Polling {
  import opened Wrappers
  import opened Json
  import opened Homework

  /** current_report and prev_report: a homework's name and the message about it. */
  datatype Report = Report(name: Value, message: string)

  /** Python's `==` on the two report dicts, key by key. */
  predicate SameReport(a: Report, b: Report)
  {
    PyEq(a.name, b.name) && a.message == b.message
  }

  /** What main keeps from one iteration to the next. */
  datatype State = State(timestamp: Value, current: Report, prev: Report)

  /** What get_api_answer gave: the decoded answer, or the exception it raised. */
  datatype Fetch = Answer(response: Value) | FetchFailed(error: Error)

  /** The result of one pass: the new state, the text handed to send_message
      (if it was called) and the exception the except clauses caught (if any). */
  datatype Step = Step(state: State, sent: Option<string>, caught: Option<Error>)

  const NoHomework := "Нет домашней работы на проверке"
  const FailurePrefix := "Сбой в работе программы: "

  /** The state main enters the loop with, the clock reading `now`. */
  function Initial(now: int): State
  {
    var empty := Report(Str(""), "");
    State(Int(now), empty, empty)
  }

  /** `response['current_date']`, read before the answer is validated. */
  function CurrentDate(response: Value): (r: Result<Value, Error>)
    ensures r.Ok? <==> response.Dict? && CurrentDateKey in response.entries
    ensures r.Ok? ==> r.value == response.entries[CurrentDateKey]
    ensures r.Err? ==> r.error.kind == TypeError || r.error.kind == KeyError
  {
    match response
    case Dict(entries) =>
      if CurrentDateKey in entries then Ok(entries[CurrentDateKey])
      else Err(Error(KeyError, "'" + CurrentDateKey + "'"))
    case List(_) => Err(Error(TypeError, "list indices must be integers or slices, not str"))
    case Str(_) => Err(Error(TypeError, "string indices must be integers, not 'str'"))
    case _ => Err(Error(TypeError, "'" + TypeName(response) + "' object is not subscriptable"))
  }

  /** The exceptions of main's first except clause, which only logs them. */
  predicate LoggedOnly(e: Error)
  {
    e.kind == NotForSending || e.kind == TypeError || e.kind == KeyError
  }

  /** The except clauses: every other exception also replaces the message. */
  function Recover(s: State, e: Error): State
  {
    if LoggedOnly(e) then s
    else s.(current := s.current.(message := FailurePrefix + e.text))
  }

  /** The report built from the validated homeworks: the "no homework" text
      for an empty list, otherwise the first homework's name and notification. */
  function NextReport(current: Report, homeworks: seq<Value>): Result<Report, Error>
  {
    if homeworks == [] then Ok(current.(message := NoHomework))
    else
      match ParseStatus(homeworks[0])
      case Err(e) => Err(e)
      case Ok(message) => Ok(Report(homeworks[0].entries[HomeworkNameKey], message))
  }

  /** The report a pass compares with prev_report, or the exception raised
      before the comparison. It does not depend on the send. */
  function Candidate(s: State, fetch: Fetch): Result<Report, Error>
  {
    match fetch
    case FetchFailed(e) => Err(e)
    case Answer(response) =>
      match CurrentDate(response)
      case Err(e) => Err(e)
      case Ok(_) =>
        match CheckResponse(response)
        case Err(e) => Err(e)
        case Ok(homeworks) => NextReport(s.current, homeworks)
  }

  /** The cursor after a pass: `current_date` whenever it could be read. */
  function NextTimestamp(s: State, fetch: Fetch): Value
  {
    if fetch.Answer? && CurrentDate(fetch.response).Ok? then CurrentDate(fetch.response).value
    else s.timestamp
  }

  /** One pass of the loop body of main, from state `s`, with what the API
      answered and what the Telegram client does with a message. */
  function TickSpec(s: State, fetch: Fetch, delivery: Delivery): Step
  {
    var stamped := s.(timestamp := NextTimestamp(s, fetch));
    match Candidate(s, fetch)
    case Err(e) => Step(Recover(stamped, e), None, Some(e))
    case Ok(report) =>
      var reported := stamped.(current := report);
      if SameReport(report, s.prev) then Step(reported, None, None)
      else
        match SendMessage(delivery)
        case Some(e) => Step(Recover(reported, e), Some(report.message), Some(e))
        case None => Step(reported.(prev := report), Some(report.message), None)
  }

  /** A message is sent exactly when the pass produced a report that differs
      from prev_report, and it is that report's message; so only a validated
      answer is ever reported. */
  lemma TickSendsOnlyChangedReport(s: State, fetch: Fetch, delivery: Delivery)
    ensures var step := TickSpec(s, fetch, delivery);
      && (step.sent.Some? <==> Candidate(s, fetch).Ok? && !SameReport(Candidate(s, fetch).value, s.prev))
      && (step.sent.Some? ==> step.sent.value == Candidate(s, fetch).value.message)
      && (step.sent.Some? ==> fetch.Answer? && WellFormedResponse(fetch.response))
  {
  }

  /** prev_report takes the new report only when the send returned normally,
      and whenever it changes it equals current_report. */
  lemma TickAdoptsReportOnlyAfterDelivery(s: State, fetch: Fetch, delivery: Delivery)
    ensures var step := TickSpec(s, fetch, delivery);
      && step.state.prev == (if step.sent.Some? && delivery.Delivered? then Candidate(s, fetch).value else s.prev)
      && (step.state.prev != s.prev ==> step.state.prev == step.state.current)
  {
  }

  /** Every caught exception leaves prev_report alone; the second except
      clause also replaces the message with the failure text, and an
      exception raised before the report is built leaves it as it was. */
  lemma TickErrorsKeepPrev(s: State, fetch: Fetch, delivery: Delivery)
    ensures var step := TickSpec(s, fetch, delivery);
      && (step.caught.Some? ==> step.state.prev == s.prev)
      && (step.caught.Some? && !LoggedOnly(step.caught.value) ==>
            step.state.current.message == FailurePrefix + step.caught.value.text)
      && (step.caught.Some? && step.sent.None? && LoggedOnly(step.caught.value) ==>
            step.state.current == s.current)
      && (step.caught.None? ==> Candidate(s, fetch).Ok? && step.state.current == Candidate(s, fetch).value)
  {
  }

  /** The cursor is taken from `current_date` as soon as it can be read, even
      when validation, translation or the send fail afterwards. */
  lemma TickCursor(s: State, fetch: Fetch, delivery: Delivery)
    ensures var step := TickSpec(s, fetch, delivery);
      step.state.timestamp ==
        if fetch.Answer? && fetch.response.Dict? && CurrentDateKey in fetch.response.entries
        then fetch.response.entries[CurrentDateKey]
        else s.timestamp
  {
  }

  /** An empty list of homeworks keeps the name and sets the "no homework" text. */
  lemma TickNoHomework(s: State, response: Value)
    requires CheckResponse(response) == Ok([])
    ensures Candidate(s, Answer(response)) == Ok(Report(s.current.name, NoHomework))
  {
  }

  /** Only the first homework is read: two answers with the same cursor whose
      lists start with the same homework lead to the same pass. */
  lemma TickTranslatesFirstOnly(s: State, r1: Value, r2: Value, delivery: Delivery)
    requires CheckResponse(r1).Ok? && CheckResponse(r2).Ok?
    requires CurrentDate(r1) == CurrentDate(r2)
    requires CheckResponse(r1).value != [] && CheckResponse(r2).value != []
    requires CheckResponse(r1).value[0] == CheckResponse(r2).value[0]
    ensures TickSpec(s, Answer(r1), delivery) == TickSpec(s, Answer(r2), delivery)
  {
  }

  /** Because main reads `current_date` by indexing first, check_response
      can only reject an answer there for its `homeworks` value: its
      not-a-dict and missing-`current_date` branches are never reached. */
  lemma TickValidationRejectsOnlyHomeworks(response: Value)
    requires CurrentDate(response).Ok? && CheckResponse(response).Err?
    ensures CheckResponse(response).error ==
              Error(NotForSending, NotAListText(Get(response.entries, HomeworksKey)))
  {
  }

  /** A second pass over the same answer sends nothing, unless the first
      pass's send raised: then, whichever except clause caught it, the
      report was not adopted and the same message is sent again. */
  lemma {:induction false} TickRepeatSendsNothing(s: State, response: Value, d1: Delivery, d2: Delivery)
    ensures var first := TickSpec(s, Answer(response), d1);
            var second := TickSpec(first.state, Answer(response), d2);
      && (second.sent.Some? ==> first.sent.Some? && d1.Raised?)
      && (first.sent.Some? && d1.Raised? ==> second.sent == first.sent)
  {
    var first := TickSpec(s, Answer(response), d1);
    match Candidate(s, Answer(response))
    case Err(_) =>
    case Ok(report) =>
      assert Candidate(first.state, Answer(response)) == Ok(report);
      PyEqReflexive(report.name);
  }

  /** An approved homework `hw1` in an answer dated 1010: the first pass
      sends its notification and moves the cursor, a second pass over the
      same answer sends nothing. */
  lemma ApprovedHomeworkIsSentOnce(now: int)
    ensures var homework := Dict(map[HomeworkNameKey := Str("hw1"), StatusKey := Str("approved")]);
            var response := Dict(map[HomeworksKey := List([homework]), CurrentDateKey := Int(1010)]);
            var first := TickSpec(Initial(now), Answer(response), Delivered);
            var second := TickSpec(first.state, Answer(response), Delivered);
      && first.sent == Some(StatusMessage(Str("hw1"), Verdicts["approved"]))
      && first.state.timestamp == Int(1010)
      && first.state.prev == Report(Str("hw1"), first.sent.value)
      && second.sent == None
  {
  }

  /** An empty homework list is itself notified: the first pass after start
      on an answer without homeworks sends the "no homework" text. */
  lemma EmptyAnswerIsNotified(now: int)
    ensures var response := Dict(map[HomeworksKey := List([]), CurrentDateKey := Int(1000)]);
            var first := TickSpec(Initial(now), Answer(response), Delivered);
      && first.sent == Some(NoHomework)
      && first.state.timestamp == Int(1000)
      && first.state.prev == Report(Str(""), NoHomework)
  {
  }

  /** The bot's state: the cursor and the two reports of main. */
  class Bot {
    var currentTimestamp: Value
    var currentReport: Report
    var prevReport: Report

    /** The state as a value. */
    function Snapshot(): State
      reads this
    {
      State(currentTimestamp, currentReport, prevReport)
    }

    /** The start of main after the settings check: the clock reads `now`,
        both reports are empty and prev_report is a copy of current_report. */
    constructor (now: int)
      ensures Snapshot() == Initial(now)
    {
      currentTimestamp := Int(now);
      currentReport := Report(Str(""), "");
      prevReport := currentReport;
    }

    /** One iteration of main's loop; returns the text passed to
        send_message, if it was called. Every exception is caught, so the
        loop always goes on. */
    method Tick(fetch: Fetch, delivery: Delivery) returns (sent: Option<string>)
      modifies this
      ensures Snapshot() == TickSpec(old(Snapshot()), fetch, delivery).state
      ensures sent == TickSpec(old(Snapshot()), fetch, delivery).sent
    {
      sent := None;
      var failure: Option<Error> := None;  // the exception raised in the try block
      if fetch.FetchFailed? {
        failure := Some(fetch.error);
      } else {
        var response := fetch.response;
        var currentDate := CurrentDate(response);
        if currentDate.Err? {
          failure := Some(currentDate.error);
        } else {
          currentTimestamp := currentDate.value;
          var checked := CheckResponse(response);
          if checked.Err? {
            failure := Some(checked.error);
          } else {
            var newHomeworks := checked.value;
            var message := NoHomework;
            if newHomeworks == [] {
              currentReport := currentReport.(message := message);
            } else {
              var parsed := ParseStatus(newHomeworks[0]);
              if parsed.Err? {
                failure := Some(parsed.error);
              } else {
                message := parsed.value;
                currentReport := currentReport.(name := newHomeworks[0].entries[HomeworkNameKey]);
                currentReport := currentReport.(message := message);
              }
            }
            if failure.None? && !SameReport(currentReport, prevReport) {
              sent := Some(message);
              failure := SendMessage(delivery);
              if failure.None? {
                prevReport := currentReport;
              }
            }
          }
        }
      }
      if failure.Some? && !LoggedOnly(failure.value) {
        currentReport := currentReport.(message := FailurePrefix + failure.value.text);
      }
    }
  }

  /** main up to its loop: exits with a message when a setting is missing,
      otherwise creates the bot's state with the clock reading `now`. */
  method Start(practicumToken: Option<string>, telegramToken: Option<string>,
               telegramChatId: Option<string>, now: int)
    returns (bot: Bot?, exitMessage: Option<string>)
    ensures bot == null <==> !CheckTokens(practicumToken, telegramToken, telegramChatId)
    ensures exitMessage == if bot == null then Some(NoTokens) else None
    ensures bot != null ==> fresh(bot) && bot.Snapshot() == Initial(now)
  {
    if !CheckTokens(practicumToken, telegramToken, telegramChatId) {
      return null, Some(NoTokens);
    }
    bot := new Bot(now);
    exitMessage := None;
  }
}
