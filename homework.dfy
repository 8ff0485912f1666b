/**
 * The checks the bot applies to what the homework API returns: the HTTP-level
 * check of `get_api_answer`, the body check of `check_response` and the
 * formatting of one homework record by `parse_status`.
 */
module Homework {
  import opened PyJson
  import opened Exceptions

  /** `HOMEWORK_VERDICTS`: the sentence shown for each review status. */
  const Verdicts: map<string, string> := map[
    "approved" := "Работа проверена: ревьюеру всё понравилось. Ура!",
    "reviewing" := "Работа взята на проверку ревьюером.",
    "rejected" := "Работа проверена: у ревьюера есть замечания."
  ]

  /** `HTTPStatus.OK` */
  const HttpOk := 200

  // The texts the bot's exceptions carry.
  const BodyNotDictionaryText := "Response.json() is not a dictionary"
  const NoResponseText := "There is no response"
  const NotDictionaryText := "Response is not a dictionary"
  const NoCurrentDateText := "There is no \"current_date\" in response"
  const NoHomeworksText := "There is no \"homeworks\" in response"
  const NotListText := "The list of homeworks is not a list"
  const NoNameText := "Correct \"homework_name\" is not found"
  const NoStatusText := "Homework status is not found"
  const BadStatusText := "Receieved incorrect status of homework"

  /**
   * The text of `Not200ApiAnswer`. The string literal continues on the next
   * source line after a backslash, so the indentation of that line is part
   * of the text.
   */
  const Not200Prefix := "Response status code is not 200,            but "

  function Not200Text(code: int): string {
    Not200Prefix + IntToString(code)
  }

  // The texts of the built-in exceptions Python raises on the wrong type.
  function NotIterableText(typeName: string): string {
    "argument of type '" + typeName + "' is not iterable"
  }

  function UnhashableText(typeName: string): string {
    "unhashable type: '" + typeName + "'"
  }

  function NoGetText(typeName: string): string {
    "'" + typeName + "' object has no attribute 'get'"
  }

  /**
   * What one `requests.get` produced: an answer with its status code and its
   * body decoded as JSON (None when the body is not JSON), or no answer.
   */
  datatype Fetch = Received(statusCode: int, body: Option<Json>) | ConnectionFailed

  /** The `from_date` query parameter: `current_timestamp or int(time.time())`. */
  function FromDate(currentTimestamp: Json, now: int): (r: Json)
    ensures !Falsy(currentTimestamp) ==> r == currentTimestamp
    ensures Falsy(currentTimestamp) ==> r == JInt(now)
    ensures now != 0 ==> !Falsy(r)
  {
    if Falsy(currentTimestamp) then JInt(now) else currentTimestamp
  }

  /** `get_api_answer` after the request: the status must be 200 and the body a dict. */
  function GetApiAnswer(fetch: Fetch): (r: Result<Json>)
    ensures r.Ok? <==> fetch.Received? && fetch.statusCode == HttpOk &&
                       fetch.body.Some? && fetch.body.value.JObject?
    ensures r.Ok? ==> r.value == fetch.body.value
    ensures fetch.Received? && fetch.statusCode != HttpOk ==>
              r == Err(Not200ApiAnswer(Not200Text(fetch.statusCode)))
    ensures fetch.Received? && fetch.statusCode == HttpOk && fetch.body.Some? && !fetch.body.value.JObject? ==>
              r == Err(ResponseNotType(BodyNotDictionaryText))
  {
    match fetch
    case ConnectionFailed => Err(RequestException)
    case Received(code, body) =>
      if code != HttpOk then Err(Not200ApiAnswer(Not200Text(code)))
      else if body.None? then Err(JsonDecodeError)
      else if !body.value.JObject? then Err(ResponseNotType(BodyNotDictionaryText))
      else Ok(body.value)
  }

  /** A non-200 answer fails with a text from which its status code reads back. */
  lemma Not200CarriesCode(fetch: Fetch)
    requires fetch.Received? && fetch.statusCode != HttpOk
    ensures GetApiAnswer(fetch).Err? && GetApiAnswer(fetch).error.Not200ApiAnswer?
    ensures var m := GetApiAnswer(fetch).error.msg;
            Not200Prefix <= m && DecimalValue(m[|Not200Prefix|..]) == Some(fetch.statusCode)
  {
    var m := GetApiAnswer(fetch).error.msg;
    IntToStringRoundTrip(fetch.statusCode);
    assert m[|Not200Prefix|..] == IntToString(fetch.statusCode);
  }

  /** Python's `a or b` on two strings. */
  function StrOr(a: string, b: string): (r: string)
    ensures !Falsy(JString(a)) ==> r == a
    ensures Falsy(JString(a)) ==> r == b
  {
    if a == "" then b else a
  }

  /** The defensive unwrap of a one-element list to its element. */
  function UnwrapSingle(j: Json): (r: Json)
    ensures j.JList? && |j.items| == 1 ==> r == j.items[0] && r < j
    ensures !(j.JList? && |j.items| == 1) ==> r == j
  {
    if j.JList? && |j.items| == 1 then j.items[0] else j
  }

  /**
   * `check_response`: the list under `homeworks` of a non-empty dict (or of a
   * one-element list holding one). The key test reads
   * `('homeworks' or 'current_date') not in response`; the parenthesis
   * evaluates to `'homeworks'`, so `current_date` is never looked at, and the
   * separate test for `homeworks` after it can never fire.
   */
  function CheckResponse(response: Json): (r: Result<seq<Json>>)
    ensures Falsy(response) ==> r == Err(ResponseIsEmpty(NoResponseText))
    ensures !Falsy(response) && !UnwrapSingle(response).JObject? ==>
              r == Err(ResponseNotType(NotDictionaryText))
    ensures !Falsy(response) && UnwrapSingle(response).JObject? &&
            !HasKey(UnwrapSingle(response).members, "homeworks") ==>
              r == Err(KeyError(NoCurrentDateText))
    ensures !Falsy(response) && UnwrapSingle(response).JObject? &&
            HasKey(UnwrapSingle(response).members, "homeworks") &&
            !Get(UnwrapSingle(response).members, "homeworks").JList? ==>
              r == Err(ResponseNotType(NotListText))
    ensures r.Ok? <==> !Falsy(response) && UnwrapSingle(response).JObject? &&
                       Get(UnwrapSingle(response).members, "homeworks").JList?
    ensures r.Ok? ==> r.value == Get(UnwrapSingle(response).members, "homeworks").items
  {
    if Falsy(response) then Err(ResponseIsEmpty(NoResponseText))
    else
      var response := UnwrapSingle(response);
      if !response.JObject? then Err(ResponseNotType(NotDictionaryText))
      else if !HasKey(response.members, StrOr("homeworks", "current_date")) then
        Err(KeyError(NoCurrentDateText))
      else if !HasKey(response.members, "homeworks") then
        Err(KeyError(NoHomeworksText))
      else
        var homeworks := Get(response.members, "homeworks");
        if !homeworks.JList? then Err(ResponseNotType(NotListText))
        else Ok(homeworks.items)
  }

  /** The error for a missing `homeworks` key always names `current_date`. */
  lemma HomeworksKeyErrorUnreachable(response: Json)
    ensures CheckResponse(response) != Err(KeyError(NoHomeworksText))
  {
  }

  /**
   * Any dict with a `homeworks` list passes, whether or not it has
   * `current_date`; any non-empty dict without `homeworks` fails with the
   * `KeyError` naming `current_date`, even when it has `current_date`.
   */
  lemma CurrentDateNotRequired(members: seq<Member>)
    ensures HasKey(members, "homeworks") && Get(members, "homeworks").JList? ==>
              CheckResponse(JObject(members)) == Ok(Get(members, "homeworks").items)
    ensures members != [] && !HasKey(members, "homeworks") ==>
              CheckResponse(JObject(members)) == Err(KeyError(NoCurrentDateText))
  {
  }

  /** Wrapping a truthy value that is not itself a one-element list in a list changes nothing. */
  lemma CheckResponseUnwrapsOnce(x: Json)
    requires !Falsy(x) && !(x.JList? && |x.items| == 1)
    ensures CheckResponse(JList([x])) == CheckResponse(x)
  {
  }

  /**
   * The unwrap happens after the emptiness test and only once: `[{}]` is not
   * reported empty, and `[[d]]` is not a dict even when `[d]` passes.
   */
  lemma CheckResponseUnwrapLimits(d: Json)
    requires CheckResponse(d).Ok? && d.JObject?
    ensures CheckResponse(JObject([])) == Err(ResponseIsEmpty(NoResponseText))
    ensures CheckResponse(JList([JObject([])])) == Err(KeyError(NoCurrentDateText))
    ensures CheckResponse(JList([d])) == CheckResponse(d)
    ensures CheckResponse(JList([JList([d])])) == Err(ResponseNotType(NotDictionaryText))
  {
  }

  /** `key in container`, for the two keys `parse_status` looks for. */
  function Contains(container: Json, key: string): (r: Result<bool>)
    ensures container.JObject? ==> r == Ok(HasKey(container.members, key))
    ensures container.JString? ==> r == Ok(exists p :: OccursAt(key, container.s, p))
    ensures container.JList? ==> r == Ok(JString(key) in container.items)
    ensures container.JNull? || container.JBool? || container.JInt? ==>
              r == Err(TypeError(NotIterableText(TypeName(container))))
  {
    match container
    case JObject(members) => Ok(HasKey(members, key))
    case JString(s) =>
      IsSubstringAt(key, s);
      Ok(IsSubstring(key, s))
    case JList(items) => Ok(JString(key) in items)
    case _ => Err(TypeError(NotIterableText(TypeName(container))))
  }

  /** `status not in HOMEWORK_VERDICTS`, then the verdict for `status`. */
  function Verdict(status: Json): (r: Result<string>)
    ensures r.Ok? <==> status.JString? && status.s in Verdicts
    ensures r.Ok? ==> r.value == Verdicts[status.s]
    ensures status.JList? || status.JObject? ==> r == Err(TypeError(UnhashableText(TypeName(status))))
    ensures !status.JList? && !status.JObject? && !(status.JString? && status.s in Verdicts) ==>
              r == Err(KeyError(BadStatusText))
  {
    match status
    case JList(_) => Err(TypeError(UnhashableText("list")))
    case JObject(_) => Err(TypeError(UnhashableText("dict")))
    case JString(s) => if s in Verdicts then Ok(Verdicts[s]) else Err(KeyError(BadStatusText))
    case _ => Err(KeyError(BadStatusText))
  }

  /** Different statuses get different verdicts, so the notification tells which status a homework has. */
  lemma VerdictIdentifiesStatus(a: Json, b: Json)
    requires Verdict(a).Ok? && Verdict(a) == Verdict(b)
    ensures a == b
  {
  }

  const StatusPrefix := "Изменился статус проверки работы \""

  /** The notification for a homework named `name` whose verdict is `verdict`. */
  function StatusMessage(name: string, verdict: string): string {
    StatusPrefix + name + "\". " + verdict
  }

  /** A homework record `parse_status` accepts: a dict with both keys and a known status. */
  predicate IsHomeworkRecord(hw: Json) {
    && hw.JObject?
    && HasKey(hw.members, "homework_name")
    && HasKey(hw.members, "status")
    && Get(hw.members, "status").JString?
    && Get(hw.members, "status").s in Verdicts
  }

  /**
   * `parse_status`: the notification for one homework record, after the same
   * one-element unwrap as `check_response`. The key tests are Python's `in`,
   * which on a string is a substring test and on a list a membership test.
   */
  function ParseStatus(homework: Json): (r: Result<string>)
    ensures r.Ok? <==> IsHomeworkRecord(UnwrapSingle(homework))
    ensures r.Ok? ==>
              var hw := UnwrapSingle(homework).members;
              r.value == StatusMessage(Str(Get(hw, "homework_name")), Verdicts[Get(hw, "status").s])
    ensures UnwrapSingle(homework).JObject? ==>
              var hw := UnwrapSingle(homework).members;
              && (!HasKey(hw, "homework_name") ==> r == Err(KeyError(NoNameText)))
              && (HasKey(hw, "homework_name") && !HasKey(hw, "status") ==> r == Err(KeyError(NoStatusText)))
              && (HasKey(hw, "homework_name") && HasKey(hw, "status") ==>
                    match Get(hw, "status")
                    case JList(_) => r == Err(TypeError(UnhashableText("list")))
                    case JObject(_) => r == Err(TypeError(UnhashableText("dict")))
                    case JString(s) => s !in Verdicts ==> r == Err(KeyError(BadStatusText))
                    case _ => r == Err(KeyError(BadStatusText)))
    ensures UnwrapSingle(homework).JNull? || UnwrapSingle(homework).JBool? || UnwrapSingle(homework).JInt? ==>
              r == Err(TypeError(NotIterableText(TypeName(UnwrapSingle(homework)))))
  {
    var homework := UnwrapSingle(homework);
    match Contains(homework, "homework_name")
    case Err(e) => Err(e)
    case Ok(hasName) =>
      if !hasName then Err(KeyError(NoNameText))
      else
        match Contains(homework, "status")
        case Err(e) => Err(e)
        case Ok(hasStatus) =>
          if !hasStatus then Err(KeyError(NoStatusText))
          else if !homework.JObject? then Err(AttributeError(NoGetText(TypeName(homework))))
          else
            var name := Get(homework.members, "homework_name");
            var status := Get(homework.members, "status");
            match Verdict(status)
            case Err(e) => Err(e)
            case Ok(verdict) => Ok(StatusMessage(Str(name), verdict))
  }

  /** A string or a list that holds both key names gets past the key tests and fails at `.get`. */
  lemma ParseStatusOnSequences(homework: Json)
    requires UnwrapSingle(homework).JString? || UnwrapSingle(homework).JList?
    ensures var hw := UnwrapSingle(homework);
            Contains(hw, "homework_name") == Ok(false) ==> ParseStatus(homework) == Err(KeyError(NoNameText))
    ensures var hw := UnwrapSingle(homework);
            Contains(hw, "homework_name") == Ok(true) && Contains(hw, "status") == Ok(false) ==>
              ParseStatus(homework) == Err(KeyError(NoStatusText))
    ensures var hw := UnwrapSingle(homework);
            Contains(hw, "homework_name") == Ok(true) && Contains(hw, "status") == Ok(true) ==>
              ParseStatus(homework) == Err(AttributeError(NoGetText(TypeName(hw))))
  {
  }

  /** Wrapping a record that is not itself a one-element list in a list changes nothing. */
  lemma ParseStatusUnwrapsOnce(homework: Json)
    requires !(homework.JList? && |homework.items| == 1)
    ensures ParseStatus(JList([homework])) == ParseStatus(homework)
  {
  }

  /** The example of an approved project. */
  lemma ParseStatusApproved()
    ensures ParseStatus(JObject([("homework_name", JString("Project X")), ("status", JString("approved"))]))
         == Ok("Изменился статус проверки работы \"" + "Project X" + "\". " + "Работа проверена: ревьюеру всё понравилось. Ура!")
    ensures ParseStatus(JList([JObject([("homework_name", JString("Project X")), ("status", JString("approved"))])]))
         == Ok("Изменился статус проверки работы \"" + "Project X" + "\". " + "Работа проверена: ревьюеру всё понравилось. Ура!")
  {
  }

  /** Every notification `parse_status` produces starts with the same words. */
  lemma ParseStatusPrefix(homework: Json)
    requires ParseStatus(homework).Ok?
    ensures StatusPrefix <= ParseStatus(homework).value
  {
  }
}
