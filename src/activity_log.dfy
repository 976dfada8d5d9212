/**
 * The front end's activity log (frontend/src/context/ActivityLogContext.jsx):
 * a list of entries, newest first, that the log helpers prepend to and
 * that clearing resets. The locale time string of each entry is a
 * parameter.
 */
module ActivityLog {
  import opened Text

  datatype LogItem = LogItem(timestamp: string, kind: string, msg: string)

  /**
   * The message of the log helpers: the action, followed by ": " and the
   * detail only when the detail is not empty.
   */
  function WithDetail(action: string, detail: string): (m: string)
    ensures StartsWith(m, action)
    ensures detail == [] <==> m == action
    ensures detail != [] ==> m[|action|..] == ": " + detail
  {
    if detail == [] then action else action + ": " + detail
  }

  /** Two messages for the same action carry the same detail only if they are equal. */
  lemma WithDetailInjective(action: string, d1: string, d2: string)
    requires WithDetail(action, d1) == WithDetail(action, d2)
    ensures d1 == d2
  {
    if d1 != [] && d2 != [] {
      assert WithDetail(action, d1)[|action| + 2..] == d1;
      assert WithDetail(action, d2)[|action| + 2..] == d2;
    }
  }

  class Log {
    var logs: seq<LogItem>

    /** Every stored type is already upper-case. */
    predicate Valid()
      reads this
    {
      forall i :: 0 <= i < |logs| ==> Upper(logs[i].kind) == logs[i].kind
    }

    /** The provider starts with the single entry "System initialized". */
    constructor(now: string)
      ensures logs == [LogItem(now, "INFO", "System initialized")]
      ensures Valid()
    {
      logs := [LogItem(now, "INFO", "System initialized")];
    }

    /** `addLog`: the new entry, with its type upper-cased, goes in front of all earlier ones. */
    method AddLog(now: string, kind: string, message: string)
      requires Valid()
      modifies this
      ensures logs == [LogItem(now, Upper(kind), message)] + old(logs)
      ensures logs[1..] == old(logs)
      ensures Valid()
    {
      UpperIdempotent(kind);
      logs := [LogItem(now, Upper(kind), message)] + logs;
    }

    /** `logAction`: an INFO entry. */
    method LogAction(now: string, action: string, detail: string)
      requires Valid()
      modifies this
      ensures logs == [LogItem(now, "INFO", WithDetail(action, detail))] + old(logs)
      ensures Valid()
    {
      assert Upper("INFO") == "INFO";
      AddLog(now, "INFO", WithDetail(action, detail));
    }

    /** `logSuccess`: a SUCCESS entry. */
    method LogSuccess(now: string, action: string, detail: string)
      requires Valid()
      modifies this
      ensures logs == [LogItem(now, "SUCCESS", WithDetail(action, detail))] + old(logs)
      ensures Valid()
    {
      assert Upper("SUCCESS") == "SUCCESS";
      AddLog(now, "SUCCESS", WithDetail(action, detail));
    }

    /** `logError`: an ERROR entry. */
    method LogError(now: string, action: string, error: string)
      requires Valid()
      modifies this
      ensures logs == [LogItem(now, "ERROR", WithDetail(action, error))] + old(logs)
      ensures Valid()
    {
      assert Upper("ERROR") == "ERROR";
      AddLog(now, "ERROR", WithDetail(action, error));
    }

    /** `clearLogs`: only the entry "Logs cleared" remains. */
    method ClearLogs(now: string)
      modifies this
      ensures logs == [LogItem(now, "INFO", "Logs cleared")]
      ensures Valid()
    {
      logs := [LogItem(now, "INFO", "Logs cleared")];
    }
  }
}
