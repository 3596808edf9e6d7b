/**
 * The decision logic of the homework notifier that runs before and inside
 * each poll: the startup check of the three credentials, the validation of
 * the review API's answer and the formatting of a submission's status.
 */
module Homework {
  import opened Wrappers
  import opened Json

  /** Seconds slept after every cycle, successful or not. */
  const RetryPeriod: nat := 600

  const ApprovedVerdict: string := "Работа проверена: ревьюеру всё понравилось. Ура!"
  const ReviewingVerdict: string := "Работа взята на проверку ревьюером."
  const RejectedVerdict: string := "Работа проверена: у ревьюера есть замечания."

  /** The fixed table from review status to the verdict shown to the user. */
  const HomeworkVerdicts: map<string, string> := map[
    "approved" := ApprovedVerdict,
    "reviewing" := ReviewingVerdict,
    "rejected" := RejectedVerdict
  ]

  /** The text handed to `sys.exit` when a credential is missing. */
  const StopReason: string := "Программа принудительно остановлена."

  // ---------------------------------------------------------------------------
  // Startup check of the credentials

  /** Whether the program may go on: `sys.exit` ends it otherwise. */
  datatype Startup = Proceed | Fatal(reason: string)

  /** Python truthiness of an environment variable: set and not empty. */
  predicate Truthy(token: Option<string>)
  {
    token.Some? && token.value != ""
  }

  /** `check_tokens`: stop unless all three credentials are set and non-empty. */
  function CheckTokens(practicumToken: Option<string>, telegramToken: Option<string>,
                       chatId: Option<string>): (r: Startup)
    ensures r.Fatal? <==>
      exists t :: t in [practicumToken, telegramToken, chatId] && (t == None || t == Some(""))
    ensures r.Fatal? ==> r.reason == StopReason
  {
    if Truthy(practicumToken) && Truthy(telegramToken) && Truthy(chatId) then Proceed
    else
      var t := if !Truthy(practicumToken) then practicumToken
               else if !Truthy(telegramToken) then telegramToken else chatId;
      assert t in [practicumToken, telegramToken, chatId] && (t == None || t == Some(""));
      Fatal(StopReason)
  }

  // ---------------------------------------------------------------------------
  // Exceptions that reach the poll loop

  /** Every exception the poll loop can catch in one cycle. */
  datatype Fault =
      /** `KeyError('homeworks')` from the lookup outside the `try`. */
    | HomeworksKeyMissing
      /** The answer is not a dict, so the same lookup raises `TypeError`. */
    | AnswerNotSubscriptable(detail: string)
      /** `homeworks` is present but not a list. */
    | HomeworksNotAList
      /** `homeworks` is an empty list. */
    | HomeworksEmpty
      /** `status` or `homework_name` absent, or the status not in the table. */
    | StatusKeysMissing
      /** Any other failure while reading the submission record. */
    | StatusUnreadable(detail: string)
      /** `get_api_answer` failed; its text is kept as it is. */
    | RequestFailed(detail: string)

  // The two long texts below are written in two pieces each so that the
  // verifier can read off their letters.

  /** The prefix `parse_status` puts before the text of an unexpected exception. */
  const UnreadablePrefix: string := "Обнаружена ошибка " + "при обработке статуса работы: "

  /** The message `parse_status` raises when a key or the verdict is missing. */
  const KeysMissingText: string := "Отсутствуют ожидаемые ключи " + "'status' или 'id' в ответе API"

  /** `str(e)` for the exception a fault stands for. */
  function Describe(f: Fault): string
  {
    match f
    case HomeworksKeyMissing => "'homeworks'"
    case AnswerNotSubscriptable(detail) => detail
    case HomeworksNotAList => "Данные о работах должны быть представлены в виде списка"
    case HomeworksEmpty => "Список работ пуст"
    case StatusKeysMissing => KeysMissingText
    case StatusUnreadable(detail) => UnreadablePrefix + detail
    case RequestFailed(detail) => detail
  }

  // ---------------------------------------------------------------------------
  // Validation of the API answer

  /** `check_response`: the first (most recent) submission of the answer. */
  function CheckResponse(answer: Value): (r: Result<Value, Fault>)
    ensures r.Ok? <==>
      Field(answer, "homeworks").Some? && Field(answer, "homeworks").value.List? &&
      |Field(answer, "homeworks").value.items| > 0
    ensures r.Ok? ==> r.value == Field(answer, "homeworks").value.items[0]
    ensures r == Err(HomeworksKeyMissing) <==> answer.Object? && Field(answer, "homeworks").None?
    ensures r == Err(HomeworksNotAList) <==>
      Field(answer, "homeworks").Some? && !Field(answer, "homeworks").value.List?
    ensures r == Err(HomeworksEmpty) <==> Field(answer, "homeworks") == Some(List([]))
    ensures (r.Err? && r.error.AnswerNotSubscriptable?) <==> !answer.Object?
  {
    match Subscript(answer, "homeworks")
    case TypeError(message) => Err(AnswerNotSubscriptable(message))
    case KeyError => Err(HomeworksKeyMissing)
    case Present(homeworks) =>
      if !homeworks.List? then Err(HomeworksNotAList)
      else if |homeworks.items| == 0 then Err(HomeworksEmpty)
      else Ok(homeworks.items[0])
  }

  /** Each way `check_response` can fail shows its own text, so the report tells the failures apart. */
  lemma CheckResponseFaultTextsDistinct(a: Value, b: Value)
    requires CheckResponse(a).Err? && CheckResponse(b).Err?
    requires CheckResponse(a).error != CheckResponse(b).error
    ensures Describe(CheckResponse(a).error) != Describe(CheckResponse(b).error)
  {
    CheckResponseTextLength(a);
    CheckResponseTextLength(b);
  }

  /** All the texts a `check_response` failure can show have different lengths, one per kind of failure. */
  lemma CheckResponseTextLength(answer: Value)
    requires CheckResponse(answer).Err?
    ensures var f := CheckResponse(answer).error;
      && (f.HomeworksKeyMissing? ==> |Describe(f)| == 11)
      && (f.HomeworksEmpty? ==> |Describe(f)| == 17)
      && (f.HomeworksNotAList? ==> |Describe(f)| == 55)
      && (f.AnswerNotSubscriptable? ==> 33 <= |Describe(f)| <= 48)
  {
    if !answer.Object? {
      NotSubscriptableLength(answer, "homeworks");
    }
  }

  /** Every `TypeError` text of a subscript is between 33 and 48 characters long. */
  lemma NotSubscriptableLength(v: Value, key: string)
    requires !v.Object?
    ensures 33 <= |Subscript(v, key).message| <= 48
  {
    match v
    case List(_) =>
    case Str(_) =>
    case Int(_) =>
    case Bool(_) =>
    case Null =>
  }

  // ---------------------------------------------------------------------------
  // Formatting of a submission's status

  /** The text before the submission's name in a notification. */
  const NoticeHead: string := "Изменился статус проверки работы \""

  /** The text between the name and the verdict. */
  const NoticeMiddle: string := "\". "

  /**
   * The notification for a submission named `name` whose verdict is `verdict`:
   * the name and the verdict can be read back from fixed positions.
   */
  function Notice(name: string, verdict: string): (r: string)
    ensures |r| == |NoticeHead| + |name| + |NoticeMiddle| + |verdict|
    ensures r[..|NoticeHead|] == NoticeHead
    ensures r[|NoticeHead|..|NoticeHead| + |name|] == name
    ensures r[|NoticeHead| + |name|..|NoticeHead| + |name| + |NoticeMiddle|] == NoticeMiddle
    ensures r[|r| - |verdict|..] == verdict
  {
    var r := NoticeHead + name + NoticeMiddle + verdict;
    assert r == (NoticeHead + name) + (NoticeMiddle + verdict);
    r
  }

  /** Whether `status` is one of the three keys of the verdict table. */
  predicate KnownStatus(status: Value)
  {
    status.Str? && status.s in HomeworkVerdicts
  }

  /** `parse_status`: the notification text for one submission record. */
  function ParseStatus(homework: Value): (r: Result<string, Fault>)
    ensures r.Ok? <==>
      Field(homework, "status").Some? && KnownStatus(Field(homework, "status").value) &&
      Field(homework, "homework_name").Some?
    ensures r.Ok? ==>
      r.value == Notice(Display(Field(homework, "homework_name").value),
                        HomeworkVerdicts[Field(homework, "status").value.s])
    ensures r == Err(StatusKeysMissing) <==>
      homework.Object? &&
      (Field(homework, "status").None? || Field(homework, "homework_name").None? ||
       (Hashable(Field(homework, "status").value) && !KnownStatus(Field(homework, "status").value)))
    ensures (r.Err? && r.error.StatusUnreadable?) <==>
      !homework.Object? ||
      (Field(homework, "status").Some? && Field(homework, "homework_name").Some? &&
       !Hashable(Field(homework, "status").value))
    ensures r.Err? ==> r.error.StatusKeysMissing? || r.error.StatusUnreadable?
  {
    match Subscript(homework, "status")
    case TypeError(message) => Err(StatusUnreadable(message))
    case KeyError => Err(StatusKeysMissing)
    case Present(status) =>
      match Subscript(homework, "homework_name")
      case TypeError(message) => Err(StatusUnreadable(message))
      case KeyError => Err(StatusKeysMissing)
      case Present(name) =>
        if !Hashable(status) then Err(StatusUnreadable(UnhashableMessage(status)))
        else if !KnownStatus(status) then Err(StatusKeysMissing)
        else Ok(Notice(Display(name), HomeworkVerdicts[status.s]))
  }

  // ---------------------------------------------------------------------------
  // Properties of the formatting

  /**
   * The two ways `parse_status` can fail show different texts: the shared
   * "keys missing" message never starts like the generic one, and two
   * generic failures differ exactly in their inner texts.
   */
  lemma ParseStatusFaultTextsDistinct(a: Value, b: Value)
    requires ParseStatus(a).Err? && ParseStatus(b).Err?
    requires ParseStatus(a).error != ParseStatus(b).error
    ensures Describe(ParseStatus(a).error) != Describe(ParseStatus(b).error)
  {
    var fa, fb := ParseStatus(a).error, ParseStatus(b).error;
    assert fa.StatusKeysMissing? || fa.StatusUnreadable?;
    assert fb.StatusKeysMissing? || fb.StatusUnreadable?;
    if fa.StatusUnreadable? && fb.StatusUnreadable? {
      assert (UnreadablePrefix + fa.detail)[|UnreadablePrefix|..] == fa.detail;
      assert (UnreadablePrefix + fb.detail)[|UnreadablePrefix|..] == fb.detail;
    } else if fa.StatusUnreadable? {
      UnreadableNotKeysMissing(fa.detail);
    } else {
      UnreadableNotKeysMissing(fb.detail);
    }
  }

  /** A generic `parse_status` failure never reads as the "keys missing" one: their second letters differ. */
  lemma UnreadableNotKeysMissing(detail: string)
    ensures Describe(StatusUnreadable(detail)) != Describe(StatusKeysMissing)
  {
    assert Describe(StatusUnreadable(detail))[1] == UnreadablePrefix[1] == 'б';
    assert Describe(StatusKeysMissing)[1] == KeysMissingText[1] == 'т';
  }

  /** The three verdicts differ pairwise. */
  lemma VerdictsDistinct(s1: string, s2: string)
    requires s1 in HomeworkVerdicts && s2 in HomeworkVerdicts && s1 != s2
    ensures HomeworkVerdicts[s1] != HomeworkVerdicts[s2]
  {
  }

  /** A notification determines its verdict once the name is fixed. */
  lemma NoticeVerdictInjective(name: string, v1: string, v2: string)
    requires Notice(name, v1) == Notice(name, v2)
    ensures v1 == v2
  {
    var head := NoticeHead + name + NoticeMiddle;
    assert Notice(name, v1) == head + v1 && Notice(name, v2) == head + v2;
    assert (head + v1)[|head|..] == v1;
    assert (head + v2)[|head|..] == v2;
  }

  /** A notification determines the name once the verdict is fixed. */
  lemma NoticeNameInjective(n1: string, n2: string, verdict: string)
    requires Notice(n1, verdict) == Notice(n2, verdict)
    ensures n1 == n2
  {
    var prefix := NoticeHead;
    var tail := NoticeMiddle + verdict;
    assert Notice(n1, verdict) == prefix + n1 + tail;
    assert Notice(n2, verdict) == prefix + n2 + tail;
    assert |n1| == |n2|;
    assert (prefix + n1 + tail)[|prefix|..|prefix| + |n1|] == n1;
    assert (prefix + n2 + tail)[|prefix|..|prefix| + |n2|] == n2;
  }

  /** For one submission name, the three known statuses give three different notifications. */
  lemma StatusNoticesDistinct(name: string, s1: string, s2: string)
    requires s1 in HomeworkVerdicts && s2 in HomeworkVerdicts && s1 != s2
    ensures Notice(name, HomeworkVerdicts[s1]) != Notice(name, HomeworkVerdicts[s2])
  {
  }

  /** Any record, whatever its other keys and their order, with a known status and a string name yields exactly the fixed format. */
  lemma ParseStatusKnown(homework: Value, status: string, name: string)
    requires status in HomeworkVerdicts
    requires Field(homework, "status") == Some(Str(status))
    requires Field(homework, "homework_name") == Some(Str(name))
    ensures ParseStatus(homework)
         == Ok("Изменился статус проверки работы \"" + name + "\". " + HomeworkVerdicts[status])
  {
  }

  /** A submission named `lab1` as the API returns it, with its `id` first, approved. */
  lemma ApprovedLab1()
    ensures ParseStatus(Object([Entry("id", Int(124)), Entry("status", Str("approved")),
                                Entry("homework_name", Str("lab1"))]))
         == Ok("Изменился статус проверки работы \"lab1\". " + ApprovedVerdict)
  {
    var entries := [Entry("id", Int(124)), Entry("status", Str("approved")), Entry("homework_name", Str("lab1"))];
    Lab1Fields(entries);
    ParseStatusKnown(Object(entries), "approved", "lab1");
    assert HomeworkVerdicts["approved"] == ApprovedVerdict;
    Lab1Head();
  }

  /** The two lookups `parse_status` makes in that record. */
  lemma Lab1Fields(entries: seq<Entry>)
    requires entries == [Entry("id", Int(124)), Entry("status", Str("approved")), Entry("homework_name", Str("lab1"))]
    ensures Lookup(entries, "status") == Some(Str("approved"))
    ensures Lookup(entries, "homework_name") == Some(Str("lab1"))
  {
    assert entries[1..][0] == Entry("status", Str("approved"));
    assert entries[1..][1..][0] == Entry("homework_name", Str("lab1"));
  }

  /** Proof step only, modelling nothing: the three literals of the `lab1` head joined, kept apart so the solver sees them alone. */
  lemma Lab1Head()
    ensures "Изменился статус проверки работы \"" + "lab1" + "\". " == "Изменился статус проверки работы \"lab1\". "
  {
  }

  /** Whatever the length of a non-empty `homeworks` list, and wherever the key stands, its first element is returned. */
  lemma CheckResponseFirst(answer: Value, first: Value, rest: seq<Value>)
    requires Field(answer, "homeworks") == Some(List([first] + rest))
    ensures CheckResponse(answer) == Ok(first)
  {
  }
}
