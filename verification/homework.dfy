/** The pure guards of the bot: validating the API answer, translating a
    homework's status into a message, checking the configuration, and how a
    failed Telegram send is reported to the main loop. */
module Homework {
  import opened Wrappers
  import opened Json

  /** The exception classes the main loop tells apart. */
  datatype ErrorKind =
    | TypeError
    | KeyError
    | AttributeError
    | NotForSending         // exceptions.NotForSendingError
    | WrongApiResponseCode  // exceptions.WrongAPIResponseCodeError
    | ConnectionServer      // exceptions.ConnectionServerError
    | Unclassified          // any other exception (HTTP client, JSON decoding, Telegram)

  /** A raised exception: its class and `str()` of it. */
  datatype Error = Error(kind: ErrorKind, text: string)

  const HomeworksKey := "homeworks"
  const CurrentDateKey := "current_date"
  const HomeworkNameKey := "homework_name"
  const StatusKey := "status"

  /** HOMEWORK_VERDICTS: the text shown for each known review status. */
  const Verdicts: map<string, string> := map[
    "approved" := "Работа проверена: ревьюеру всё понравилось. Ура!",
    "reviewing" := "Работа взята на проверку ревьюером.",
    "rejected" := "Работа проверена: у ревьюера есть замечания."
  ]

  const NotADict := "response не словарь"
  const HomeworksMissing := "Ключ homeworks отсутствует в словаре"
  const CurrentDateMissing := "Ключ current_date отсутствует в словаре"
  const NameMissing := "Ключ homework_name отсутствует в словаре"
  const StatusUnknown := "Статус домашней работы неизвестен"
  const SendFailed := "Cбой при отправке сообщения в Telegram"

  /** The text of the error raised when `homeworks` is not a list. */
  function NotAListText(homeworks: Value): string
  {
    "В ответе от API под ключом \"homeworks\" пришел не список. " + "homeworks = " + Show(homeworks) + "."
  }

  /** The text of the error raised for a status missing from the table. */
  function UnknownStatusText(name: Value): string
  {
    "Отсутствует статус " + Show(name) + " в словаре HOMEWORK_VERDICTS."
  }

  const ChangedPrefix := "Изменился статус проверки работы \""

  /** The notification for a homework called `name` with the given verdict. */
  function StatusMessage(name: Value, verdict: string): string
  {
    ChangedPrefix + Show(name) + "\". " + verdict
  }

  /** A well-typed answer: a dict whose `homeworks` is a list and which has a
      `current_date`. */
  predicate WellFormedResponse(response: Value)
  {
    && response.Dict?
    && HomeworksKey in response.entries
    && response.entries[HomeworksKey].List?
    && CurrentDateKey in response.entries
  }

  /** check_response: validates the decoded answer in the source's order and
      returns its list of homeworks. */
  function CheckResponse(response: Value): (r: Result<seq<Value>, Error>)
    ensures r.Ok? <==> WellFormedResponse(response)
    ensures r.Ok? ==> r.value == response.entries[HomeworksKey].items
    ensures !response.Dict? ==> r == Err(Error(TypeError, NotADict))
    ensures response.Dict? && !Get(response.entries, HomeworksKey).List? ==>
              r == Err(Error(NotForSending, NotAListText(Get(response.entries, HomeworksKey))))
    ensures response.Dict? && HomeworksKey !in response.entries ==>
              r == Err(Error(NotForSending, NotAListText(Null)))
    ensures response.Dict? && Get(response.entries, HomeworksKey).List? && CurrentDateKey !in response.entries ==>
              r == Err(Error(NotForSending, CurrentDateMissing))
    ensures r != Err(Error(NotForSending, HomeworksMissing))
  {
    if !response.Dict? then Err(Error(TypeError, NotADict))
    else
      var homeworks := Get(response.entries, HomeworksKey);
      if !homeworks.List? then Err(Error(NotForSending, NotAListText(homeworks)))
      else if HomeworksKey !in response.entries then Err(Error(NotForSending, HomeworksMissing))
      else if CurrentDateKey !in response.entries then Err(Error(NotForSending, CurrentDateMissing))
      else Ok(homeworks.items)
  }

  /** The homework's `status` as `homework.get('status')` reads it. */
  function StatusOf(homework: map<string, Value>): Value
  {
    Get(homework, StatusKey)
  }

  /** A homework entry parse_status accepts: a dict with a name and a known status. */
  predicate Translatable(homework: Value)
  {
    && homework.Dict?
    && HomeworkNameKey in homework.entries
    && StatusOf(homework.entries).Str?
    && StatusOf(homework.entries).s in Verdicts
  }

  /** parse_status: the notification text for one homework entry. The `in`
      test of the first check behaves as Python's does on each kind of value:
      a key test on a dict, a substring test on a string, a membership test on
      a list, and a TypeError on anything else. */
  function ParseStatus(homework: Value): (r: Result<string, Error>)
    ensures r.Ok? <==> Translatable(homework)
    ensures r.Ok? ==>
              r.value == StatusMessage(homework.entries[HomeworkNameKey], Verdicts[StatusOf(homework.entries).s])
    ensures homework.Dict? && HomeworkNameKey !in homework.entries ==> r == Err(Error(KeyError, NameMissing))
    ensures homework.Dict? && HomeworkNameKey in homework.entries && !StatusOf(homework.entries).List?
              && !StatusOf(homework.entries).Dict? && !Translatable(homework) ==>
              r == Err(Error(NotForSending, UnknownStatusText(homework.entries[HomeworkNameKey])))
    ensures homework.Dict? && HomeworkNameKey in homework.entries
              && (StatusOf(homework.entries).List? || StatusOf(homework.entries).Dict?) ==>
              r.Err? && r.error.kind == TypeError
    ensures homework.Str? ==>
              r.Err? && r.error.kind == (if Contains(homework.s, HomeworkNameKey) then AttributeError else KeyError)
    ensures homework.List? ==>
              r.Err? && r.error.kind == (if Str(HomeworkNameKey) in homework.items then AttributeError else KeyError)
    ensures homework.Null? || homework.Bool? || homework.Int? ==> r.Err? && r.error.kind == TypeError
    ensures r != Err(Error(NotForSending, StatusUnknown))
  {
    match homework
    case Dict(entries) =>
      if HomeworkNameKey !in entries then Err(Error(KeyError, NameMissing))
      else
        var name := entries[HomeworkNameKey];
        var status := StatusOf(entries);
        if status.List? || status.Dict? then
          Err(Error(TypeError, "unhashable type: '" + TypeName(status) + "'"))
        else if !(status.Str? && status.s in Verdicts) then
          Err(Error(NotForSending, UnknownStatusText(name)))
        else
          var verdict := Verdicts[status.s];
          if verdict == "" then Err(Error(NotForSending, StatusUnknown))
          else Ok(StatusMessage(name, verdict))
    case Str(s) =>
      if !Contains(s, HomeworkNameKey) then Err(Error(KeyError, NameMissing))
      else Err(Error(AttributeError, "'str' object has no attribute 'get'"))
    case List(items) =>
      if Str(HomeworkNameKey) !in items then Err(Error(KeyError, NameMissing))
      else Err(Error(AttributeError, "'list' object has no attribute 'get'"))
    case _ =>
      Err(Error(TypeError, "argument of type '" + TypeName(homework) + "' is not iterable"))
  }

  /** For a homework whose name is a string, the notification is the fixed
      prefix, the quoted name, and the verdict for its status. */
  lemma ParseStatusText(homework: Value)
    requires Translatable(homework) && homework.entries[HomeworkNameKey].Str?
    ensures ParseStatus(homework).value ==
              ChangedPrefix + homework.entries[HomeworkNameKey].s + "\". " + Verdicts[StatusOf(homework.entries).s]
  {
  }

  /** The three verdict texts are different, so the verdict names the status. */
  lemma VerdictsDistinct(a: string, b: string)
    requires a in Verdicts && b in Verdicts && a != b
    ensures Verdicts[a] != Verdicts[b]
  {
  }

  /** When the status of a homework changes, so does its notification: the
      duplicate check of the main loop therefore sees every status change. */
  lemma StatusChangeChangesMessage(h1: Value, h2: Value)
    requires ParseStatus(h1).Ok? && ParseStatus(h2).Ok?
    requires h1.entries[HomeworkNameKey] == h2.entries[HomeworkNameKey]
    requires StatusOf(h1.entries) != StatusOf(h2.entries)
    ensures ParseStatus(h1).value != ParseStatus(h2).value
  {
  }

  /** Python truthiness of a configuration value read by os.getenv: present and
      not empty. */
  predicate Truthy(v: Option<string>)
  {
    v.Some? && v.value != ""
  }

  /** Python's `all()` over configuration values. */
  function All(xs: seq<Option<string>>): bool
  {
    xs == [] || (Truthy(xs[0]) && All(xs[1..]))
  }

  /** `all()` holds exactly when every value is truthy. */
  lemma {:induction false} AllTruthy(xs: seq<Option<string>>)
    ensures All(xs) <==> forall k :: 0 <= k < |xs| ==> Truthy(xs[k])
  {
    if xs != [] {
      AllTruthy(xs[1..]);
      assert forall k :: 1 <= k < |xs| ==> xs[k] == xs[1..][k - 1];
    }
  }

  /** check_tokens: the bot may start only when all three settings are set. */
  function CheckTokens(practicumToken: Option<string>, telegramToken: Option<string>,
                       telegramChatId: Option<string>): (r: bool)
    ensures r <==> Truthy(practicumToken) && Truthy(telegramToken) && Truthy(telegramChatId)
  {
    var tokens := [practicumToken, telegramToken, telegramChatId];
    AllTruthy(tokens);
    assert tokens[0] == practicumToken && tokens[1] == telegramToken && tokens[2] == telegramChatId;
    All(tokens)
  }

  /** The message main exits with when a setting is missing. */
  const NoTokens := "Отсутствуют токены"

  /** What the Telegram client does with one message: delivers it or raises. */
  datatype Delivery = Delivered | Raised(error: Error)

  /** send_message: the exception it lets out, if any. A NotForSendingError is
      re-raised with the bot's own text; anything else passes through. */
  function SendMessage(delivery: Delivery): (r: Option<Error>)
    ensures r.None? <==> delivery.Delivered?
    ensures r.Some? ==> r.value.kind == delivery.error.kind
    ensures r.Some? && delivery.error.kind != NotForSending ==> r.value == delivery.error
    ensures r.Some? && delivery.error.kind == NotForSending ==> r.value.text == SendFailed
  {
    match delivery
    case Delivered => None
    case Raised(e) =>
      if e.kind == NotForSending then Some(Error(NotForSending, SendFailed)) else Some(e)
  }
}
