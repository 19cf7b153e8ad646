/** The message log: newest entry first, at most fifty entries kept. */
module Ledger {
  import opened Types

  const LOG_CAP: nat := 50

  /** Prepends an entry and drops whatever falls beyond the cap. */
  function PushLog(log: seq<LogEntry>, e: LogEntry): (r: seq<LogEntry>)
    ensures 0 < |r| <= LOG_CAP
    ensures |r| == if |log| < LOG_CAP then |log| + 1 else LOG_CAP
    ensures r[0] == e
    ensures r[1..] == log[..|r| - 1]
  {
    var full := [e] + log;
    if |full| <= LOG_CAP then full else full[..LOG_CAP]
  }

  /** Prepends an entry when there is one. */
  function PushNote(log: seq<LogEntry>, e: Option<LogEntry>): (r: seq<LogEntry>)
    ensures e.None? ==> r == log
    ensures e.Some? ==> r == PushLog(log, e.value)
  {
    match e
    case None => log
    case Some(x) => PushLog(log, x)
  }

  /** No entry is lost while the log is below the cap: the old log is still there
      behind the new entries. */
  lemma {:induction false} PushLogKeepsAll(log: seq<LogEntry>, es: seq<LogEntry>)
    requires |log| + |es| <= LOG_CAP
    ensures PushAll(log, es) == Reverse(es) + log
  {
    if es != [] {
      var init := es[..|es| - 1];
      PushLogKeepsAll(log, init);
      assert |PushAll(log, init)| == |init| + |log| < LOG_CAP;
      assert PushAll(log, es) == PushLog(PushAll(log, init), es[|es| - 1]);
      assert Reverse(es) == [es[|es| - 1]] + Reverse(init);
    }
  }

  /** Writing two batches of entries one after the other is writing them as one
      batch. */
  lemma {:induction false} PushAllAppend(log: seq<LogEntry>, es1: seq<LogEntry>, es2: seq<LogEntry>)
    ensures PushAll(log, es1 + es2) == PushAll(PushAll(log, es1), es2)
  {
    if es2 == [] {
      assert es1 + es2 == es1;
    } else {
      var init := es2[..|es2| - 1];
      PushAllAppend(log, es1, init);
      assert (es1 + es2)[..|es1 + es2| - 1] == es1 + init;
    }
  }

  /** The log after prepending the entries of es, first entry first. */
  function PushAll(log: seq<LogEntry>, es: seq<LogEntry>): (r: seq<LogEntry>)
    ensures |r| <= LOG_CAP || (es == [] && r == log)
  {
    if es == [] then log else PushLog(PushAll(log, es[..|es| - 1]), es[|es| - 1])
  }

  function Reverse<T>(s: seq<T>): (r: seq<T>)
    ensures |r| == |s|
  {
    if s == [] then [] else [s[|s| - 1]] + Reverse(s[..|s| - 1])
  }
}
