/**
 * TelegramBot/src/handlers.py: repairing a user record after a KeyError,
 * dispatching a typed message on the record's pending operation and
 * clearing it, and choosing what an inline button press shows.
 */
module Handlers {
  import opened Values
  import opened Coerce
  import opened Strings
  import opened General
  import opened Templates
  import opened HandlersUtils
  import opened Commands

  // ---------------------------------------------------------------------
  // handle_exception
  // ---------------------------------------------------------------------

  /** The record with every template key it lacks added as None. */
  function Repaired(fields: map<string, Value>): map<string, Value> {
    map k | k in fields.Keys + (set t | t in UserDictKeys) :: if k in fields then fields[k] else Null
  }

  /** The loop over USER_DICT's keys: `if key not in user.keys(): user[key] = None`. */
  method RepairUser(user: UserRecord)
    modifies user
    ensures user.fields == Repaired(old(user.fields))
  {
    ghost var before := user.fields;
    var i := 0;
    while i < |UserDictKeys|
      invariant 0 <= i <= |UserDictKeys|
      invariant user.fields.Keys == before.Keys + (set j | 0 <= j < i :: UserDictKeys[j])
      invariant forall k :: k in user.fields ==> user.fields[k] == (if k in before then before[k] else Null)
    {
      var key := UserDictKeys[i];
      if key !in user.fields {
        user.fields := user.fields[key := Null];
      }
      i := i + 1;
    }
    assert (set j | 0 <= j < |UserDictKeys| :: UserDictKeys[j]) == (set t | t in UserDictKeys);
  }

  /**
   * After the repair every template key is present; the keys the record had
   * keep their values and the added ones are None.
   */
  lemma RepairCompletesRecord(fields: map<string, Value>)
    ensures var after := Repaired(fields);
            && (forall t :: t in UserDictKeys ==> t in after)
            && (forall k :: k in after <==> k in fields || k in UserDictKeys)
            && (forall k :: k in fields ==> after[k] == fields[k])
            && (forall k :: k in after && k !in fields ==> after[k] == Null)
  {
  }

  /** Repairing twice changes nothing more, and a complete record is left as it is. */
  lemma RepairIdempotent(fields: map<string, Value>)
    ensures Repaired(Repaired(fields)) == Repaired(fields)
    ensures (forall t :: t in UserDictKeys ==> t in fields) ==> Repaired(fields) == fields
  {
  }

  const InternalErrorReply: string := "❌ Внутренняя ошибка. Попробуйте ещё раз"
  const UnauthorizedReply: string := "❌ Недействительный sessionid. Обновите его с помощью /set_sessionid"
  const SiteDownReply: string := "❌ В данный момент сайт недоступен. Повторите попытку позже."
  const BotErrorReply: string := "❌ Недействительная операция."
  const UnknownErrorPrefix: string := "❌ Произошла неизвестная ошибка:\n "

  /** The reply chosen by the error's class; `shown` is `str(context.error)`. */
  function ErrorReply(e: Error, shown: string): string {
    match e
    case KeyError(_) => InternalErrorReply
    case Unauthorized => UnauthorizedReply
    case InternalError => SiteDownReply
    case BotError => BotErrorReply
    case _ => UnknownErrorPrefix + shown
  }

  /**
   * `handle_exception`: a KeyError repairs the user's record; every other
   * error leaves it alone. The reply names the class of error.
   */
  method HandleException(user: UserRecord, e: Error, shown: string) returns (reply: string)
    modifies user
    ensures e.KeyError? ==> user.fields == Repaired(old(user.fields))
    ensures !e.KeyError? ==> user.fields == old(user.fields)
    ensures reply == ErrorReply(e, shown)
  {
    if e.KeyError? {
      RepairUser(user);
    }
    reply := ErrorReply(e, shown);
  }

  /**
   * Missing keys, the portal's own failures and the bot's invalid operations
   * get a fixed reply each; every other error is quoted after a fixed prefix.
   */
  lemma ErrorReplyKnown(e: Error, shown: string)
    ensures ErrorReply(e, shown) == InternalErrorReply <==> e.KeyError?
    ensures ErrorReply(e, shown) == UnauthorizedReply <==> e.Unauthorized?
    ensures ErrorReply(e, shown) == SiteDownReply <==> e.InternalError?
    ensures ErrorReply(e, shown) == BotErrorReply <==> e.BotError?
    ensures !(e.KeyError? || e.Unauthorized? || e.InternalError? || e.BotError?) ==>
              IsPrefix(UnknownErrorPrefix, ErrorReply(e, shown))
  {
    if !(e.KeyError? || e.Unauthorized? || e.InternalError? || e.BotError?) {
      var r := UnknownErrorPrefix + shown;
      assert r[1] == ' ' && r[2] == 'П' && r[32] == ' ';
      assert InternalErrorReply[2] == 'В';
      assert UnauthorizedReply[32] == 'н' && SiteDownReply[32] == 'н';
      assert BotErrorReply[2] == 'Н';
    }
  }

  // ---------------------------------------------------------------------
  // handle_message
  // ---------------------------------------------------------------------

  /** What a typed message leads to: a greeting, a subject for the data request, or nothing. */
  datatype Reply = Greeted(text: string) | SubjectChosen(lookup: Lookup) | NoReply

  /**
   * `process_attendancedata` / `process_progressdata`: the stored session id
   * is read, the account's disciplines are fetched with it and the typed
   * text picks the subject. A chosen subject then needs the stored pupil id
   * and the data request; `data` is how that request and the formatting of
   * its answer end, which this model does not compute.
   */
  function SubjectReply(fields: map<string, Value>, text: string, disciplines: Result<seq<Discipline>>,
                        data: Result<()>): Result<Reply> {
    if "sessionid" !in fields then Err(KeyError("sessionid"))
    else
      var ds :- disciplines;
      var lookup := SubjectOf(text, ds);
      if lookup.Reject? then Ok(SubjectChosen(lookup))
      else if "pupilid" !in fields then Err(KeyError("pupilid"))
      else if data.Err? then Err(data.error)
      else Ok(SubjectChosen(lookup))
  }

  /**
   * `handle_message`: the pending operation picks the handler, and once it
   * has finished the operation is cleared and the record stored; a raised
   * error stores nothing.
   */
  function MessageOutcome(fields: map<string, Value>, text: string, pupil: Result<string>,
                          account: Result<Value>, disciplines: Result<seq<Discipline>>,
                          data: Result<()>): (Result<Reply>, map<string, Value>)
  {
    if "current_operation" !in fields then (Err(KeyError("current_operation")), fields)
    else
      var op := fields["current_operation"];
      if op == Str("sessionid") then
        var (greeting, after) := SessionIdOutcome(fields, text, pupil, account);
        if greeting.Err? then (Err(greeting.error), fields)
        else (Ok(Greeted(greeting.value)), after["current_operation" := Null])
      else if op == Str("attendancedata") || op == Str("progressdata") then
        var reply := SubjectReply(fields, text, disciplines, data);
        if reply.Err? then (reply, fields) else (reply, fields["current_operation" := Null])
      else (Ok(NoReply), fields["current_operation" := Null])
  }

  method HandleMessage(user: UserRecord, text: string, pupil: Result<string>, account: Result<Value>,
                       disciplines: Result<seq<Discipline>>, data: Result<()>) returns (reply: Result<Reply>)
    modifies user
    ensures (reply, user.fields) == MessageOutcome(old(user.fields), text, pupil, account, disciplines, data)
  {
    if "current_operation" !in user.fields {
      return Err(KeyError("current_operation"));
    }
    var op := user.fields["current_operation"];
    if op == Str("sessionid") {
      var greeting := ProcessSessionId(user, text, pupil, account);
      if greeting.Err? {
        return Err(greeting.error);
      }
      reply := Ok(Greeted(greeting.value));
    } else if op == Str("attendancedata") || op == Str("progressdata") {
      if "sessionid" !in user.fields {
        return Err(KeyError("sessionid"));
      }
      if disciplines.Err? {
        return Err(disciplines.error);
      }
      var lookup := FindSubject(text, disciplines.value);
      if lookup.Request? {
        if "pupilid" !in user.fields {
          return Err(KeyError("pupilid"));
        }
        if data.Err? {
          return Err(data.error);
        }
      }
      reply := Ok(SubjectChosen(lookup));
    } else {
      reply := Ok(NoReply);
    }
    user.fields := user.fields["current_operation" := Null];
  }

  /** A handled message always leaves no operation pending; a failed one leaves the record untouched. */
  lemma MessageClearsOperation(fields: map<string, Value>, text: string, pupil: Result<string>,
                               account: Result<Value>, disciplines: Result<seq<Discipline>>, data: Result<()>)
    ensures var (reply, after) := MessageOutcome(fields, text, pupil, account, disciplines, data);
            && (reply.Ok? ==> "current_operation" in after && after["current_operation"] == Null)
            && (reply.Err? ==> after == fields)
  {
  }

  /**
   * Only `sessionid`, `attendancedata` and `progressdata` are dispatched:
   * any other pending value gives no reply and only clears the operation,
   * and only `sessionid` changes keys other than the operation.
   */
  lemma MessageDispatch(fields: map<string, Value>, text: string, pupil: Result<string>,
                        account: Result<Value>, disciplines: Result<seq<Discipline>>, data: Result<()>)
    requires "current_operation" in fields
    ensures var op := fields["current_operation"];
            var (reply, after) := MessageOutcome(fields, text, pupil, account, disciplines, data);
            && (op != Str("sessionid") && op != Str("attendancedata") && op != Str("progressdata") ==>
                  reply == Ok(NoReply) && after == fields["current_operation" := Null])
            && (op != Str("sessionid") && reply.Ok? ==> after == fields["current_operation" := Null])
            && (op == Str("sessionid") && reply.Ok? ==>
                  after == fields["sessionid" := Str(text)]["pupilid" := account.value]["current_operation" := Null])
  {
  }

  /**
   * A subject the account does not offer is refused with a reply before any
   * data is requested, and the operation still ends.
   */
  lemma UnknownSubjectEndsOperation(fields: map<string, Value>, text: string, pupil: Result<string>,
                                    account: Result<Value>, ds: seq<Discipline>, data: Result<()>)
    requires "current_operation" in fields && "sessionid" in fields
    requires fields["current_operation"] == Str("attendancedata") || fields["current_operation"] == Str("progressdata")
    requires SubjectOf(text, ds).Reject?
    ensures MessageOutcome(fields, text, pupil, account, Ok(ds), data) ==
            (Ok(SubjectChosen(Reject("❌ Недоступный предмет \"" + text + "\""))), fields["current_operation" := Null])
  {
  }

  /**
   * A chosen subject ends the operation exactly when the pupil id is stored
   * and the data request succeeds; otherwise its error is raised and the
   * operation stays pending.
   */
  lemma ChosenSubjectNeedsData(fields: map<string, Value>, text: string, pupil: Result<string>,
                               account: Result<Value>, ds: seq<Discipline>, data: Result<()>)
    requires "current_operation" in fields && "sessionid" in fields
    requires fields["current_operation"] == Str("attendancedata") || fields["current_operation"] == Str("progressdata")
    requires SubjectOf(text, ds).Request?
    ensures var (reply, after) := MessageOutcome(fields, text, pupil, account, Ok(ds), data);
            && (reply.Ok? <==> "pupilid" in fields && data.Ok?)
            && (reply.Ok? ==> reply.value == SubjectChosen(SubjectOf(text, ds)) && after == fields["current_operation" := Null])
            && ("pupilid" !in fields ==> reply == Err(KeyError("pupilid")) && after == fields)
            && ("pupilid" in fields && data.Err? ==> reply == Err(data.error) && after == fields)
  {
  }

  // ---------------------------------------------------------------------
  // handle_callback
  // ---------------------------------------------------------------------

  /** What a button press asks for. */
  datatype Action =
    | AboutSid
    | DiaryStep(step: int)
    | HomeworkStep(step: int)
    | ScheduleStep(step: int)
    | ShowSubperiod(n: int)
    | NoAction

  /** The `match` on the callback data. */
  function CallbackAction(data: string): (a: Action)
    ensures a.DiaryStep? ==> a.step == 1 || a.step == -1
    ensures a.HomeworkStep? ==> a.step == 1 || a.step == -1
    ensures a.ScheduleStep? ==> a.step == 1 || a.step == -1
    ensures a.ShowSubperiod? ==> 1 <= a.n <= 4 && data == TotalMarksCallbacks[a.n - 1]
  {
    if data == "about_sid" then AboutSid
    else if data == "diary_next_day" then DiaryStep(1)
    else if data == "diary_previous_day" then DiaryStep(-1)
    else if data == "homework_next_day" then HomeworkStep(1)
    else if data == "homework_previous_day" then HomeworkStep(-1)
    else if data == "schedule_next_day" then ScheduleStep(1)
    else if data == "schedule_previous_day" then ScheduleStep(-1)
    else if data == TotalMarksCallbacks[0] then ShowSubperiod(1)
    else if data == TotalMarksCallbacks[1] then ShowSubperiod(2)
    else if data == TotalMarksCallbacks[2] then ShowSubperiod(3)
    else if data == TotalMarksCallbacks[3] then ShowSubperiod(4)
    else NoAction
  }

  /**
   * Each button string reaches its own handler and no other: `about_sid`
   * explains the session id, and each next/previous pair steps its own week
   * forwards or backwards by one day.
   */
  lemma CallbackDispatch(data: string)
    ensures CallbackAction(data) == AboutSid <==> data == "about_sid"
    ensures CallbackAction(data) == DiaryStep(1) <==> data == "diary_next_day"
    ensures CallbackAction(data) == DiaryStep(-1) <==> data == "diary_previous_day"
    ensures CallbackAction(data) == HomeworkStep(1) <==> data == "homework_next_day"
    ensures CallbackAction(data) == HomeworkStep(-1) <==> data == "homework_previous_day"
    ensures CallbackAction(data) == ScheduleStep(1) <==> data == "schedule_next_day"
    ensures CallbackAction(data) == ScheduleStep(-1) <==> data == "schedule_previous_day"
  {
  }

  /** Each subperiod button shows its own subperiod. */
  lemma SubperiodButtonsShowTheirPage(n: int)
    requires 1 <= n <= 4
    ensures CallbackAction(TotalMarksCallbacks[n - 1]) == ShowSubperiod(n)
  {
  }

  /** The text to show and the buttons offered beside it (as their callback data). */
  datatype SubperiodView = SubperiodView(text: string, buttons: seq<string>)

  /** The buttons of the other three subperiods, in their order. */
  function OtherSubperiods(n: int): (bs: seq<string>)
    requires 1 <= n <= 4
    ensures |bs| == 3
    ensures forall i :: 0 <= i < 3 ==> bs[i] == TotalMarksCallbacks[if i < n - 1 then i else i + 1]
  {
    TotalMarksCallbacks[..n - 1] + TotalMarksCallbacks[n..]
  }

  /** Subperiod `n` is not offered again, and every other one is. */
  lemma OtherSubperiodsAreTheRest(n: int, m: int)
    requires 1 <= n <= 4 && 1 <= m <= 4
    ensures TotalMarksCallbacks[m - 1] in OtherSubperiods(n) <==> m != n
  {
    var bs := OtherSubperiods(n);
    if m == n {
      forall i | 0 <= i < 3
        ensures bs[i] != TotalMarksCallbacks[n - 1]
      {
        var j := if i < n - 1 then i else i + 1;
        assert TotalMarksCallbacks[j][|TotalMarksCallbacks[j]| - 1] != TotalMarksCallbacks[n - 1][|TotalMarksCallbacks[n - 1]| - 1];
      }
    } else {
      assert bs[if m - 1 < n - 1 then m - 1 else m - 2] == TotalMarksCallbacks[m - 1];
    }
  }

  /**
   * `total_marks_subperiodN`: the text under `user['total_marks'][str(N-1)]`
   * with the other three buttons; a missing record key or page is a
   * KeyError, and a `total_marks` that is not a dict of texts cannot be
   * shown.
   */
  function SubperiodPage(fields: map<string, Value>, n: int): (r: Result<SubperiodView>)
    requires 1 <= n <= 4
  {
    if "total_marks" !in fields then Err(KeyError("total_marks"))
    else
      match fields["total_marks"]
      case Obj(pages) =>
        if ShowInt(n - 1) !in pages then Err(KeyError(ShowInt(n - 1)))
        else if pages[ShowInt(n - 1)].Str? then Ok(SubperiodView(pages[ShowInt(n - 1)].s, OtherSubperiods(n)))
        else Err(UnexpectedShape(pages[ShowInt(n - 1)]))
      case v => Err(UnexpectedShape(v))
  }

  /**
   * After `/get_total_marks` stored the pages, button `n` shows page `n - 1`
   * when there is one and is a KeyError otherwise.
   */
  lemma SubperiodShowsStoredPage(fields: map<string, Value>, pages: seq<string>, n: int)
    requires 1 <= n <= 4
    requires "total_marks" in fields && fields["total_marks"] == Obj(StoredPages(pages))
    ensures n <= |pages| ==> SubperiodPage(fields, n) == Ok(SubperiodView(pages[n - 1], OtherSubperiods(n)))
    ensures n > |pages| ==> SubperiodPage(fields, n) == Err(KeyError(ShowInt(n - 1)))
  {
    var stored := StoredPages(pages);
    var key := ShowInt(n - 1);
    assert fields["total_marks"].entries == stored;
    if n <= |pages| {
      StoredPagesAt(pages, n - 1);
      assert key in stored && stored[key] == Str(pages[n - 1]);
    } else {
      StoredPagesMissing(pages, n - 1);
      assert key !in stored;
    }
  }

  /**
   * The round trip through the record: pressing subperiod `n` after a
   * successful `/get_total_marks` shows the page built for the `n`-th
   * subperiod with code `1_n`.
   */
  lemma TotalMarksRoundTrip(fields: map<string, Value>, subperiods: seq<string>, ds: seq<TotalDiscipline>, n: int)
    requires 1 <= n <= 4 && n <= |subperiods|
    ensures var after := fields["total_marks" := Obj(StoredPages(Pages(subperiods, ds)))];
            SubperiodPage(after, n) == Ok(SubperiodView(Page(subperiods[n - 1], SubperiodCodes[n - 1], ds), OtherSubperiods(n)))
  {
    var pages := Pages(subperiods, ds);
    var after := fields["total_marks" := Obj(StoredPages(pages))];
    PagesUpToAt(subperiods, ds, |pages|, n - 1);
    assert pages[n - 1] == Page(subperiods[n - 1], SubperiodCodes[n - 1], ds);
    SubperiodShowsStoredPage(after, pages, n);
  }
}
