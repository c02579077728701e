/** Programs with and without the checks of one release. A check disappears from a program when every place that asks is
    replaced by the branch for one answer; every program has such a version. */
module Checks {
  import opened Base
  import opened Engine

  predicate IsCheck(e: LogEntry, name: string) {
    e.Answered? && e.request == HasRelease(name)
  }

  /** The log without the checks of one release. */
  function Strip(log: seq<LogEntry>, name: string): seq<LogEntry> {
    if log == [] then []
    else
      var last := log[|log| - 1];
      Strip(log[..|log| - 1], name) + (if IsCheck(last, name) then [] else [last])
  }

  /** Every check of the release got this answer. */
  predicate AllAnswered(log: seq<LogEntry>, name: string, flag: bool) {
    forall i :: 0 <= i < |log| && IsCheck(log[i], name) ==> log[i].answer == Flag(flag)
  }

  /** The fiber that was last heard of asks for the release next. */
  predicate Asks(code: Code, log: seq<LogEntry>, name: string) {
    log != [] && code(log[|log| - 1].fiber, log) == HasRelease(name)
  }

  /** The checks in a log are those that the code makes: a fiber that asks is answered before anything else happens. */
  predicate Faithful(code: Code, log: seq<LogEntry>, name: string) {
    forall i :: 0 <= i < |log| ==>
      && (IsCheck(log[i], name) <==> Asks(code, log[..i], name))
      && (IsCheck(log[i], name) ==> i > 0 && log[i].fiber == log[i - 1].fiber)
  }

  /** A log that a run of the code can stop at, with all checks answered alike. */
  predicate Settled(code: Code, log: seq<LogEntry>, name: string, flag: bool) {
    log != [] && Faithful(code, log, name) && AllAnswered(log, name, flag) && !Asks(code, log, name)
  }

  /** `plain` is `code` with each check of the release replaced by its branch for `flag`: wherever the running fiber of
      `code` goes on with something else than a check, `plain` does the same, having seen the same except the checks. */
  ghost predicate CleanedUp(code: Code, plain: Code, name: string, flag: bool) {
    forall log: seq<LogEntry> :: Settled(code, log, name, flag) ==>
      var fiber := log[|log| - 1].fiber;
      plain(fiber, Strip(log, name)) == code(fiber, log)
  }

  lemma StripSnoc(log: seq<LogEntry>, e: LogEntry, name: string)
    ensures Strip(log + [e], name) == Strip(log, name) + (if IsCheck(e, name) then [] else [e])
  {
    assert (log + [e])[..|log|] == log;
  }

  /** Faithful logs grow by a check when the code asks, and by anything else when it does not. */
  lemma FaithfulSnoc(code: Code, log: seq<LogEntry>, e: LogEntry, name: string)
    requires Faithful(code, log, name) && (IsCheck(e, name) <==> Asks(code, log, name))
    requires IsCheck(e, name) ==> e.fiber == log[|log| - 1].fiber
    ensures Faithful(code, log + [e], name)
  {
    var all := log + [e];
    forall i | 0 <= i < |all|
      ensures IsCheck(all[i], name) <==> Asks(code, all[..i], name)
      ensures IsCheck(all[i], name) ==> i > 0 && all[i].fiber == all[i - 1].fiber
    {
      assert all[..i] == log[..i];
      assert i == |log| ==> log[..i] == log;
    }
  }

  lemma AllAnsweredPrefix(shorter: seq<LogEntry>, longer: seq<LogEntry>, name: string, flag: bool)
    requires shorter <= longer && AllAnswered(longer, name, flag)
    ensures AllAnswered(shorter, name, flag)
  {
    assert forall i :: 0 <= i < |shorter| ==> shorter[i] == longer[i];
  }

  lemma AllAnsweredSnoc(log: seq<LogEntry>, e: LogEntry, name: string, flag: bool)
    requires AllAnswered(log, name, flag) && (IsCheck(e, name) ==> e.answer == Flag(flag))
    ensures AllAnswered(log + [e], name, flag)
  {
  }

  // ----- Every program has a version without the check -----

  lemma {:induction false} StripAt(log: seq<LogEntry>, name: string, k: nat)
    requires k < |log| && !IsCheck(log[k], name)
    ensures |Strip(log[..k], name)| < |Strip(log, name)|
    ensures Strip(log, name)[|Strip(log[..k], name)|] == log[k]
  {
    var n := |log| - 1;
    if k < n {
      StripAt(log[..n], name, k);
      assert log[..n][..k] == log[..k];
    }
  }

  /** Two logs that agree but for checks have the same checks: where one has a check, the other has it too. */
  lemma SameNext(code: Code, a: seq<LogEntry>, b: seq<LogEntry>, name: string, flag: bool, k: nat)
    requires Faithful(code, a, name) && Faithful(code, b, name)
    requires AllAnswered(a, name, flag) && AllAnswered(b, name, flag)
    requires Strip(a, name) <= Strip(b, name)
    requires k < |a| && k < |b| && a[..k] == b[..k]
    ensures a[k] == b[k]
  {
    hide Strip;
    if IsCheck(a[k], name) {
      assert a[k - 1] == a[..k][k - 1] == b[..k][k - 1] == b[k - 1];
    } else {
      StripAt(a, name, k);
      StripAt(b, name, k);
    }
  }

  /** A log that has seen no more than a settled one, but for checks, is a part of it. */
  lemma SettledCovers(code: Code, a: seq<LogEntry>, b: seq<LogEntry>, name: string, flag: bool)
    requires Faithful(code, a, name) && AllAnswered(a, name, flag)
    requires Faithful(code, b, name) && AllAnswered(b, name, flag) && !Asks(code, b, name)
    requires Strip(a, name) <= Strip(b, name)
    ensures a <= b
  {
    hide Strip;
    var k := if |a| < |b| then |a| else |b|;
    SamePrefix(code, a, b, name, flag, k);
    if |b| < |a| {
      assert a[..|b|] == b[..|b|] == b;
      StripAt(a, name, |b|);
      assert false;
    }
    assert a[..|a|] == a;
  }

  /** A settled log ends where the other, that agrees with it so far, ends. */
  lemma SameEnd(code: Code, a: seq<LogEntry>, b: seq<LogEntry>, name: string, flag: bool)
    requires Settled(code, a, name, flag) && Faithful(code, b, name)
    requires Strip(a, name) == Strip(b, name) && a <= b
    ensures a == b
  {
    hide Strip;
    if |a| < |b| {
      assert b[..|a|] == a;
      StripAt(b, name, |a|);
      assert false;
    }
  }

  lemma {:induction false} SamePrefix(code: Code, a: seq<LogEntry>, b: seq<LogEntry>, name: string, flag: bool, k: nat)
    requires Faithful(code, a, name) && Faithful(code, b, name)
    requires AllAnswered(a, name, flag) && AllAnswered(b, name, flag)
    requires Strip(a, name) <= Strip(b, name)
    requires k <= |a| && k <= |b|
    ensures a[..k] == b[..k]
  {
    hide Faithful, AllAnswered, Strip;
    if k > 0 {
      SamePrefix(code, a, b, name, flag, k - 1);
      SameNext(code, a, b, name, flag, k - 1);
      assert a[..k] == a[..k - 1] + [a[k - 1]] && b[..k] == b[..k - 1] + [b[k - 1]];
    }
  }

  /** The checks can be put back in one way only. */
  lemma {:induction false} SameLog(code: Code, a: seq<LogEntry>, b: seq<LogEntry>, name: string, flag: bool)
    requires Settled(code, a, name, flag) && Settled(code, b, name, flag) && Strip(a, name) == Strip(b, name)
    ensures a == b
    decreases |b| < |a|
  {
    hide Faithful, AllAnswered, Strip, Asks;
    if |b| < |a| {
      SameLog(code, b, a, name, flag);
    } else {
      SamePrefix(code, a, b, name, flag, |a|);
      assert a[..|a|] == a;
      SameEnd(code, a, b, name, flag);
    }
  }

  ghost predicate ComesFrom(code: Code, log: seq<LogEntry>, stripped: seq<LogEntry>, name: string, flag: bool) {
    Settled(code, log, name, flag) && Strip(log, name) == stripped
  }

  /** What the code asks next when the checks are put back into the log that the plain program has seen. */
  ghost function Next(code: Code, fiber: nat, stripped: seq<LogEntry>, name: string, flag: bool): Request {
    if exists log :: ComesFrom(code, log, stripped, name, flag) then
      var log :| ComesFrom(code, log, stripped, name, flag);
      code(fiber, log)
    else
      Return(Null)
  }

  ghost function Plain(code: Code, name: string, flag: bool): Code {
    (fiber: nat, stripped) => Next(code, fiber, stripped, name, flag)
  }

  /** Every program, whatever its fibers share, has a version in which the checks are replaced by one branch. */
  lemma EveryCheckCanBeDropped(code: Code, name: string, flag: bool)
    ensures CleanedUp(code, Plain(code, name, flag), name, flag)
  {
    hide Settled, Strip;
    forall log: seq<LogEntry> | Settled(code, log, name, flag) && log != []
      ensures
        var fiber := log[|log| - 1].fiber;
        Plain(code, name, flag)(fiber, Strip(log, name)) == code(fiber, log)
    {
      assert ComesFrom(code, log, Strip(log, name), name, flag);
      var found :| ComesFrom(code, found, Strip(log, name), name, flag);
      forall other | ComesFrom(code, other, Strip(log, name), name, flag)
        ensures other == log
      {
        SameLog(code, other, log, name, flag);
      }
    }
    SettledNonEmpty(code, name, flag);
  }

  lemma SettledNonEmpty(code: Code, name: string, flag: bool)
    ensures forall log: seq<LogEntry> :: Settled(code, log, name, flag) ==> log != []
  {
  }
}
