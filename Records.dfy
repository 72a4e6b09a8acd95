/** Log levels, log records and the listener's kill sentinel. */
module Records {

  /** Numeric levels of the logging backend (as in Python's `logging`). */
  const NOTSET: int := 0
  const DEBUG: int := 10
  const INFO: int := 20
  const WARNING: int := 30
  const ERROR: int := 40
  const CRITICAL: int := 50

  /** The reserved message that tells the listener to stop. */
  const LISTENER_KILL_MSG: string := "$____KILL_SERVER____$"

  /** A log record as it travels over the queue: its level number and its message text. */
  datatype Record = Record(levelno: int, message: string)

  /** The listener recognises the sentinel purely by content: level INFO and the kill text. */
  predicate IsSentinel(r: Record)
    ensures IsSentinel(r) <==> r == Record(INFO, LISTENER_KILL_MSG)
  {
    r.levelno == INFO && r.message == LISTENER_KILL_MSG
  }

  /** The record `killListener` emits. */
  function KillRecord(): (r: Record)
    ensures IsSentinel(r)
  {
    Record(INFO, LISTENER_KILL_MSG)
  }

  /** A record differs from the sentinel as soon as either its level or its text differs. */
  lemma SentinelNeedsBoth(r: Record)
    ensures r.levelno != INFO ==> !IsSentinel(r)
    ensures r.message != LISTENER_KILL_MSG ==> !IsSentinel(r)
    ensures IsSentinel(r) <==> r == KillRecord()
  {
  }
}
