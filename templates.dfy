/**
 * TelegramBot/src/templates.py: the constants the modelled rules read,
 * namely the keys of a fresh user record and the callback data of the four
 * subperiod buttons.
 */
module Templates {
  import opened Values

  /** The keys of USER_DICT, in display order; every value starts as None. */
  const UserDictKeys: seq<string> :=
    ["sessionid", "pupilid", "current_operation", "total_marks", "schedule_week", "homework_week", "diary_week"]

  /** USER_DICT: the record `/start` stores for a new user. */
  function UserDict(): (d: map<string, Value>)
    ensures forall k :: k in d <==> k in UserDictKeys
    ensures forall k :: k in d ==> d[k] == Null
  {
    map k | k in UserDictKeys :: Null
  }

  /** The callback data of TOTAL_MARKS_BUTTONS[0..3]; button `n` (from 1) shows subperiod `n`. */
  const TotalMarksCallbacks: seq<string> :=
    ["total_marks_subperiod1", "total_marks_subperiod2", "total_marks_subperiod3", "total_marks_subperiod4"]
}
