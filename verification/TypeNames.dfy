/** Event type names as strings: the prefix table of `event_target.rb` and the word lists of `client.rb`. */
module TypeNames {
  import opened Base
  import opened Decisions
  import opened Events
  import opened Histories

  function NameOf(k: Kind): string {
    match k
    case WorkflowExecutionStarted(_) => "WorkflowExecutionStarted"
    case WorkflowExecutionCompleted => "WorkflowExecutionCompleted"
    case WorkflowExecutionFailed => "WorkflowExecutionFailed"
    case DecisionTaskScheduled => "DecisionTaskScheduled"
    case DecisionTaskStarted(_) => "DecisionTaskStarted"
    case DecisionTaskCompleted => "DecisionTaskCompleted"
    case DecisionTaskTimedOut => "DecisionTaskTimedOut"
    case DecisionTaskFailed => "DecisionTaskFailed"
    case ActivityTaskScheduled(_, _, _, _) => "ActivityTaskScheduled"
    case ActivityTaskStarted(_) => "ActivityTaskStarted"
    case ActivityTaskCompleted(_, _) => "ActivityTaskCompleted"
    case ActivityTaskFailed(_, _, _) => "ActivityTaskFailed"
    case ActivityTaskTimedOut(_, _) => "ActivityTaskTimedOut"
    case ActivityTaskCancelRequested => "ActivityTaskCancelRequested"
    case RequestCancelActivityTaskFailed(_) => "RequestCancelActivityTaskFailed"
    case ActivityTaskCanceled(_, _) => "ActivityTaskCanceled"
    case TimerStarted => "TimerStarted"
    case TimerFired(_) => "TimerFired"
    case CancelTimerFailed(_) => "CancelTimerFailed"
    case TimerCanceled => "TimerCanceled"
    case WorkflowExecutionCancelRequested => "WorkflowExecutionCancelRequested"
    case MarkerRecorded(_, _) => "MarkerRecorded"
    case WorkflowExecutionSignaled(_, _) => "WorkflowExecutionSignaled"
    case StartChildWorkflowExecutionInitiated => "StartChildWorkflowExecutionInitiated"
    case StartChildWorkflowExecutionFailed(_, _) => "StartChildWorkflowExecutionFailed"
    case ChildWorkflowExecutionStarted(_) => "ChildWorkflowExecutionStarted"
    case ChildWorkflowExecutionCompleted(_, _) => "ChildWorkflowExecutionCompleted"
    case ChildWorkflowExecutionFailed(_, _, _) => "ChildWorkflowExecutionFailed"
    case ChildWorkflowExecutionCanceled(_, _) => "ChildWorkflowExecutionCanceled"
    case ChildWorkflowExecutionTimedOut(_, _) => "ChildWorkflowExecutionTimedOut"
    case ChildWorkflowExecutionTerminated(_) => "ChildWorkflowExecutionTerminated"
    case Other(t) => NameOfOther(t)
    case Unsupported(name) => name
  }

  function NameOfOther(t: OtherType): string {
    match t
    case WorkflowExecutionTimedOut => "WorkflowExecutionTimedOut"
    case WorkflowExecutionCanceled => "WorkflowExecutionCanceled"
    case WorkflowExecutionTerminated => "WorkflowExecutionTerminated"
    case WorkflowExecutionContinuedAsNew => "WorkflowExecutionContinuedAsNew"
    case RequestCancelExternalWorkflowExecutionInitiated => "RequestCancelExternalWorkflowExecution" + "Initiated"
    case RequestCancelExternalWorkflowExecutionFailed => "RequestCancelExternalWorkflowExecution" + "Failed"
    case ExternalWorkflowExecutionCancelRequested => "ExternalWorkflowExecutionCancelRequested"
    case SignalExternalWorkflowExecutionInitiated => "SignalExternalWorkflowExecution" + "Initiated"
    case SignalExternalWorkflowExecutionFailed => "SignalExternalWorkflowExecution" + "Failed"
    case ExternalWorkflowExecutionSignaled => "ExternalWorkflowExecutionSignaled"
    case UpsertWorkflowSearchAttributes => "UpsertWorkflowSearchAttributes"
  }

  // ----- The prefix table -----

  datatype Row = Row(prefix: string, kind: TargetType)

  /** `EVENT_TARGET_TYPES`, in order. */
  const TARGET_TABLE: seq<Row> := [
    Row("ActivityTaskCancel", CancelActivityRequest),
    Row("ActivityTask", Activity),
    Row("RequestCancelActivityTask", CancelActivityRequest),
    Row("TimerCanceled", CancelTimerRequest),
    Row("Timer", Timer),
    Row("CancelTimer", CancelTimerRequest),
    Row("ChildWorkflowExecution", ChildWorkflow),
    Row("StartChildWorkflowExecution", ChildWorkflow),
    Row("Marker", Marker),
    Row("ExternalWorkflowExecution", ExternalWorkflow),
    Row("SignalExternalWorkflowExecution", ExternalWorkflow),
    Row("ExternalWorkflowExecutionCancel", CancelExternalWorkflowRequest),
    Row("RequestCancelExternalWorkflowExecution", CancelExternalWorkflowRequest),
    Row("UpsertWorkflowSearchAttributes", Workflow),
    Row("WorkflowExecutionCancel", CancelWorkflowRequest),
    Row("WorkflowExecution", Workflow)
  ]

  /** The first row whose prefix starts the name. */
  function FirstMatch(table: seq<Row>, name: string): Option<TargetType> {
    if table == [] then None
    else if table[0].prefix <= name then Some(table[0].kind)
    else FirstMatch(table[1..], name)
  }

  lemma {:induction false} FirstMatchAt(table: seq<Row>, name: string, i: nat)
    requires i < |table| && table[i].prefix <= name
    requires forall j :: 0 <= j < i ==> !(table[j].prefix <= name)
    ensures FirstMatch(table, name) == Some(table[i].kind)
  {
    if i > 0 {
      FirstMatchAt(table[1..], name, i - 1);
    }
  }

  lemma {:induction false} NoMatch(table: seq<Row>, name: string)
    requires forall j :: 0 <= j < |table| ==> !(table[j].prefix <= name)
    ensures FirstMatch(table, name) == None
  {
    if table != [] {
      NoMatch(table[1..], name);
    }
  }

  /** Two strings that differ at an index are no prefixes of each other. */
  lemma Differ(a: string, b: string, i: nat)
    requires i < |a| && i < |b| && a[i] != b[i]
    ensures !(a <= b) && !(b <= a)
  {
  }

  /** Of all rows whose prefix starts the name, the longest; the reference for the table. */
  function LongestMatch(table: seq<Row>, name: string): Option<Row> {
    if table == [] then None
    else
      var rest := LongestMatch(table[1..], name);
      if table[0].prefix <= name && (rest.None? || |table[0].prefix| >= |rest.value.prefix|) then Some(table[0])
      else rest
  }

  lemma {:induction false} LongestMatches(table: seq<Row>, name: string)
    ensures
      match LongestMatch(table, name)
      case None => forall j :: 0 <= j < |table| ==> !(table[j].prefix <= name)
      case Some(row) =>
        && row in table && row.prefix <= name
        && forall j :: 0 <= j < |table| && table[j].prefix <= name ==> |table[j].prefix| <= |row.prefix|
  {
    if table != [] {
      LongestMatches(table[1..], name);
      assert forall j :: 1 <= j < |table| ==> table[j] == table[1..][j - 1];
    }
  }

  /** No row that matches is hidden by an earlier, shorter one. */
  predicate NothingHidden(table: seq<Row>, name: string) {
    forall i, j :: 0 <= i < j < |table| && table[j].prefix <= name ==> !(table[i].prefix <= table[j].prefix)
  }

  lemma {:induction false} FirstIsLongest(table: seq<Row>, name: string)
    requires NothingHidden(table, name)
    ensures
      match LongestMatch(table, name)
      case None => FirstMatch(table, name).None?
      case Some(row) => FirstMatch(table, name) == Some(row.kind)
  {
    if table != [] {
      var rest := table[1..];
      assert forall j :: 0 <= j < |rest| ==> rest[j] == table[j + 1];
      FirstIsLongest(rest, name);
      LongestMatches(rest, name);
    }
  }

  const INITIALS := "AARTTCCSMESERUWW"

  lemma Initial(i: nat)
    requires i < |TARGET_TABLE|
    ensures |INITIALS| == |TARGET_TABLE| == 16
    ensures |TARGET_TABLE[i].prefix| > 0 && TARGET_TABLE[i].prefix[0] == INITIALS[i]
  {
  }

  lemma SameInitial(i: nat, j: nat)
    requires i < j < |INITIALS| && INITIALS[i] == INITIALS[j]
    ensures (i, j) in {(0, 1), (2, 12), (3, 4), (5, 6), (7, 10), (9, 11), (14, 15)}
  {
  }

  /** The only row that an earlier, shorter one hides is the one for cancellations of external workflows. */
  lemma OneRowHidden(i: nat, j: nat)
    requires i < j < |TARGET_TABLE|
    ensures TARGET_TABLE[i].prefix <= TARGET_TABLE[j].prefix <==> i == 9 && j == 11
  {
    Initial(i);
    Initial(j);
    if INITIALS[i] == INITIALS[j] {
      SameInitial(i, j);
      RelatedRows(i, j);
    }
  }

  lemma RelatedRows(i: nat, j: nat)
    requires (i, j) in {(0, 1), (2, 12), (3, 4), (5, 6), (7, 10), (9, 11), (14, 15)}
    ensures TARGET_TABLE[i].prefix <= TARGET_TABLE[j].prefix <==> i == 9 && j == 11
  {
    if i == 2 {
      Differ(TARGET_TABLE[2].prefix, TARGET_TABLE[12].prefix, 13);
    } else if i == 5 {
      Differ(TARGET_TABLE[5].prefix, TARGET_TABLE[6].prefix, 1);
    } else if i == 7 {
      Differ(TARGET_TABLE[7].prefix, TARGET_TABLE[10].prefix, 1);
    }
  }

  /** Row `i` is picked when it matches and no row before it with the same initial does. */
  lemma Picks(name: string, i: nat)
    requires i < |TARGET_TABLE| && TARGET_TABLE[i].prefix <= name
    requires forall j :: 0 <= j < i && INITIALS[j] == INITIALS[i] ==> !(TARGET_TABLE[j].prefix <= name)
    ensures FirstMatch(TARGET_TABLE, name) == Some(TARGET_TABLE[i].kind)
  {
    Initial(i);
    forall j | 0 <= j < i
      ensures !(TARGET_TABLE[j].prefix <= name)
    {
      Initial(j);
    }
    FirstMatchAt(TARGET_TABLE, name, i);
  }

  /** The first match is the longest one, as the comment on the table promises, exactly for the names outside one
      family: cancellations of external workflows, whose row stands after a shorter one that matches them too. */
  lemma FirstMatchIsLongest(name: string)
    ensures
      var longest := LongestMatch(TARGET_TABLE, name);
      FirstMatch(TARGET_TABLE, name) == (if longest.None? then None else Some(longest.value.kind))
      <==> !("ExternalWorkflowExecutionCancel" <= name)
  {
    if "ExternalWorkflowExecutionCancel" <= name {
      HiddenFamily(name);
    } else {
      forall i, j | 0 <= i < j < |TARGET_TABLE| && TARGET_TABLE[j].prefix <= name
        ensures !(TARGET_TABLE[i].prefix <= TARGET_TABLE[j].prefix)
      {
        OneRowHidden(i, j);
      }
      FirstIsLongest(TARGET_TABLE, name);
    }
  }

  lemma HiddenFamily(name: string)
    requires "ExternalWorkflowExecutionCancel" <= name
    ensures FirstMatch(TARGET_TABLE, name) == Some(ExternalWorkflow)
    ensures LongestMatch(TARGET_TABLE, name).Some?
    ensures LongestMatch(TARGET_TABLE, name).value.kind == CancelExternalWorkflowRequest
  {
    var table := TARGET_TABLE;
    RowsOfFamily();
    assert table[9].prefix <= name && table[11].prefix <= name;
    Picks(name, 9);
    LongestMatches(table, name);
    var longest := LongestMatch(table, name).value;
    var k :| 0 <= k < |table| && table[k] == longest;
    Initial(k);
    Initial(9);
    assert k == 9 || k == 11;
  }

  lemma RowsOfFamily()
    ensures TARGET_TABLE[11] == Row("ExternalWorkflowExecutionCancel", CancelExternalWorkflowRequest)
    ensures TARGET_TABLE[9].kind == ExternalWorkflow
    ensures TARGET_TABLE[9].prefix <= "ExternalWorkflowExecutionCancel"
    ensures |TARGET_TABLE[9].prefix| < |TARGET_TABLE[11].prefix|
  {
  }

  // ----- The kinds of event -----

  lemma ActivityRow(k: Kind)
    requires TargetTypeOfKind(k) == Activity
    ensures FirstMatch(TARGET_TABLE, NameOf(k)) == Some(Activity)
  {
    assert TARGET_TABLE[1].prefix <= NameOf(k);
    Differ(TARGET_TABLE[0].prefix, NameOf(k), if k.ActivityTaskCompleted? then 13 else 12);
    Picks(NameOf(k), 1);
  }

  lemma ActivityCancelRow(k: Kind)
    requires TargetTypeOfKind(k) == CancelActivityRequest
    ensures FirstMatch(TARGET_TABLE, NameOf(k)) == Some(CancelActivityRequest)
  {
    Picks(NameOf(k), if k.RequestCancelActivityTaskFailed? then 2 else 0);
  }

  lemma TimerRow(k: Kind)
    requires TargetTypeOfKind(k) == Timer || TargetTypeOfKind(k) == CancelTimerRequest
    ensures FirstMatch(TARGET_TABLE, NameOf(k)) == Some(TargetTypeOfKind(k))
  {
    if TargetTypeOfKind(k) == Timer {
      Differ(TARGET_TABLE[3].prefix, NameOf(k), 5);
      Picks(NameOf(k), 4);
    } else {
      Picks(NameOf(k), if k.TimerCanceled? then 3 else 5);
    }
  }

  lemma ChildRow(k: Kind)
    requires TargetTypeOfKind(k) == ChildWorkflow
    ensures FirstMatch(TARGET_TABLE, NameOf(k)) == Some(ChildWorkflow)
  {
    if k.StartChildWorkflowExecutionInitiated? || k.StartChildWorkflowExecutionFailed? {
      Picks(NameOf(k), 7);
    } else {
      StartedChildRow(k);
    }
  }

  lemma StartedChildRow(k: Kind)
    requires TargetTypeOfKind(k) == ChildWorkflow
    requires !k.StartChildWorkflowExecutionInitiated? && !k.StartChildWorkflowExecutionFailed?
    ensures FirstMatch(TARGET_TABLE, NameOf(k)) == Some(ChildWorkflow)
  {
    ChildPrefix(k);
    hide NameOf;
    Differ(TARGET_TABLE[5].prefix, NameOf(k), 1);
    Picks(NameOf(k), 6);
  }

  lemma ChildPrefix(k: Kind)
    requires TargetTypeOfKind(k) == ChildWorkflow
    requires !k.StartChildWorkflowExecutionInitiated? && !k.StartChildWorkflowExecutionFailed?
    ensures "ChildWorkflowExecution" <= NameOf(k) && |NameOf(k)| > 1 && NameOf(k)[1] == 'h'
  {
  }

  lemma WorkflowRow(k: Kind)
    requires TargetTypeOfKind(k) == Workflow && !k.Unsupported? && !k.Bookkeeping() && !k.Other?
    ensures FirstMatch(TARGET_TABLE, NameOf(k)) == Some(Workflow)
  {
    assert TARGET_TABLE[15].prefix <= NameOf(k);
    Differ(TARGET_TABLE[14].prefix, NameOf(k), if k.WorkflowExecutionCompleted? then 18 else 17);
    Picks(NameOf(k), 15);
  }

  /** The rows of the types with empty branches, among them cancellations of external workflows, which the table takes
      for external workflows, and a cancelled workflow, which it takes for a cancel request. */
  lemma OtherRow(t: OtherType)
    ensures FirstMatch(TARGET_TABLE, NameOfOther(t)) == Some(TargetTypeOfOther(t))
  {
    match TargetTypeOfOther(t) {
      case CancelWorkflowRequest => Picks(NameOfOther(t), 14);
      case ExternalWorkflow => ExternalRow(t);
      case CancelExternalWorkflowRequest => CancelExternalRow(t);
      case Workflow =>
        if t.UpsertWorkflowSearchAttributes? {
          Picks(NameOfOther(t), 13);
        } else {
          EndedRow(t);
        }
    }
  }

  lemma ExternalRow(t: OtherType)
    requires TargetTypeOfOther(t) == ExternalWorkflow
    ensures FirstMatch(TARGET_TABLE, NameOfOther(t)) == Some(ExternalWorkflow)
  {
    ExternalPrefixes(t);
    hide NameOfOther;
    if t.SignalExternalWorkflowExecutionInitiated? || t.SignalExternalWorkflowExecutionFailed? {
      Differ(TARGET_TABLE[7].prefix, NameOfOther(t), 1);
      Picks(NameOfOther(t), 10);
    } else {
      Picks(NameOfOther(t), 9);
    }
  }

  lemma CancelExternalRow(t: OtherType)
    requires TargetTypeOfOther(t) == CancelExternalWorkflowRequest
    ensures FirstMatch(TARGET_TABLE, NameOfOther(t)) == Some(CancelExternalWorkflowRequest)
  {
    ExternalPrefixes(t);
    CancelExternalLetters(NameOfOther(t));
    hide NameOfOther;
    Picks(NameOfOther(t), 12);
  }

  lemma CancelExternalLetters(n: string)
    requires |n| > 13 && n[13] == 'E'
    ensures forall j :: 0 <= j < 12 && INITIALS[j] == INITIALS[12] ==> !(TARGET_TABLE[j].prefix <= n)
  {
    assert forall j :: 0 <= j < 12 && INITIALS[j] == INITIALS[12] ==> j == 2;
    assert TARGET_TABLE[2].prefix[13] == 'A';
    Differ(TARGET_TABLE[2].prefix, n, 13);
  }

  lemma ExternalPrefixes(t: OtherType)
    requires TargetTypeOfOther(t) == ExternalWorkflow || TargetTypeOfOther(t) == CancelExternalWorkflowRequest
    ensures
      var n := NameOfOther(t);
      if TargetTypeOfOther(t) == CancelExternalWorkflowRequest then
        "RequestCancelExternalWorkflowExecution" <= n && |n| > 13 && n[13] == 'E'
      else if t.SignalExternalWorkflowExecutionInitiated? || t.SignalExternalWorkflowExecutionFailed? then
        "SignalExternalWorkflowExecution" <= n && |n| > 1 && n[1] == 'i'
      else
        "ExternalWorkflowExecution" <= n
  {
  }

  lemma EndedRow(t: OtherType)
    requires TargetTypeOfOther(t) == Workflow && !t.UpsertWorkflowSearchAttributes?
    ensures FirstMatch(TARGET_TABLE, NameOfOther(t)) == Some(Workflow)
  {
    assert TARGET_TABLE[15].prefix <= NameOfOther(t);
    Differ(TARGET_TABLE[14].prefix, NameOfOther(t), if t.WorkflowExecutionContinuedAsNew? then 18 else 17);
    Picks(NameOfOther(t), 15);
  }

  lemma BookkeepingRow(k: Kind)
    requires k.Bookkeeping()
    ensures FirstMatch(TARGET_TABLE, NameOf(k)) == None
  {
    assert NameOf(k)[0] == 'D';
    forall j | 0 <= j < |TARGET_TABLE|
      ensures !(TARGET_TABLE[j].prefix <= NameOf(k))
    {
      Initial(j);
    }
    NoMatch(TARGET_TABLE, NameOf(k));
  }

  /** For every event type of the server, what the model gives as the target type is what the table yields for the
      type's name; the names of decision task events have no row. */
  lemma PrefixTable(k: Kind)
    requires !k.Unsupported?
    ensures FirstMatch(TARGET_TABLE, NameOf(k)) == if k.Bookkeeping() then None else Some(TargetTypeOfKind(k))
  {
    hide FirstMatch, NameOf;
    if k.Bookkeeping() {
      BookkeepingRow(k);
    } else if k.Other? {
      assert NameOf(k) == NameOfOther(k.other) by { NameOfOtherKind(k.other); }
      OtherRow(k.other);
    } else {
      match TargetTypeOfKind(k) {
        case Activity => ActivityRow(k);
        case CancelActivityRequest => ActivityCancelRow(k);
        case Timer => TimerRow(k);
        case CancelTimerRequest => TimerRow(k);
        case ChildWorkflow => ChildRow(k);
        case Workflow => WorkflowRow(k);
        case Marker => MarkerRow(k);
        case CancelWorkflowRequest => CancelRow(k);
      }
    }
  }

  lemma NameOfOtherKind(t: OtherType)
    ensures NameOf(Other(t)) == NameOfOther(t)
  {
  }

  lemma MarkerRow(k: Kind)
    requires TargetTypeOfKind(k) == Marker
    ensures FirstMatch(TARGET_TABLE, NameOf(k)) == Some(Marker)
  {
    Picks(NameOf(k), 8);
  }

  lemma CancelRow(k: Kind)
    requires TargetTypeOfKind(k) == CancelWorkflowRequest && !k.Other?
    ensures FirstMatch(TARGET_TABLE, NameOf(k)) == Some(CancelWorkflowRequest)
  {
    Picks(NameOf(k), 14);
  }

  // ----- Lists of names -----

  /** `String#include?`. */
  predicate Includes(text: string, word: string) {
    exists i :: 0 <= i <= |text| - |word| && OccursAt(text, word, i)
  }

  predicate OccursAt(text: string, word: string, i: nat)
    requires i + |word| <= |text|
  {
    text[i..i + |word|] == word
  }

  /** The strings that `find_decision_task` searches: percent literals without a letter, so strings and not lists. */
  const DECISION_END_NAMES := "DecisionTaskCompleted" + (" DecisionTaskTimedOut" + " DecisionTaskFailed")
  const ACTIVITY_FAILURE_NAMES := "ActivityTaskFailed" + " ActivityTaskTimedOut"

  /** The capitals of a string, where type names can start: each has its own positions. */
  predicate Capitals(text: string, d: set<int>, t: set<int>, c: set<int>, a: set<int>) {
    forall i :: 0 <= i < |text| ==>
      && text[i] !in {'E', 'M', 'R', 'S', 'U', 'W'}
      && (text[i] == 'D' ==> i in d) && (text[i] == 'T' ==> i in t)
      && (text[i] == 'C' ==> i in c) && (text[i] == 'A' ==> i in a)
  }

  lemma DecisionCapitals()
    ensures |DECISION_END_NAMES| == 61
    ensures Capitals(DECISION_END_NAMES, {0, 22, 43}, {8, 30, 34, 51}, {12}, {})
  {
    FirstWord();
    LaterWords();
    hide Capitals;
    CapitalsOfThree();
  }

  lemma FirstWord()
    ensures Capitals("DecisionTaskCompleted", {0}, {8}, {12}, {})
    ensures Capitals("ActivityTaskFailed", {}, {8}, {}, {0})
  {
  }

  lemma LaterWords()
    ensures Capitals(" DecisionTaskTimedOut", {1}, {9, 13}, {}, {})
    ensures Capitals(" DecisionTaskFailed", {1}, {9}, {}, {})
  {
  }

  lemma ActivityCapitals()
    ensures |ACTIVITY_FAILURE_NAMES| == 39
    ensures Capitals(ACTIVITY_FAILURE_NAMES, {}, {8, 27, 31}, {}, {0, 19})
  {
    FirstWord();
    LastWord();
    hide Capitals;
    CapitalsOfTwo();
  }

  lemma LastWord()
    ensures Capitals(" ActivityTaskTimedOut", {}, {9, 13}, {}, {1})
  {
  }

  lemma CapitalsOfTwo()
    requires Capitals("ActivityTaskFailed", {}, {8}, {}, {0})
    requires Capitals(" ActivityTaskTimedOut", {}, {9, 13}, {}, {1})
    ensures Capitals(ACTIVITY_FAILURE_NAMES, {}, {8, 27, 31}, {}, {0, 19})
  {
    var text := ACTIVITY_FAILURE_NAMES;
    forall i | 0 <= i < |text|
      ensures text[i] == if i < 18 then "ActivityTaskFailed"[i] else " ActivityTaskTimedOut"[i - 18]
    {
    }
  }

  lemma CapitalsOfThree()
    requires Capitals("DecisionTaskCompleted", {0}, {8}, {12}, {})
    requires Capitals(" DecisionTaskTimedOut", {1}, {9, 13}, {}, {})
    requires Capitals(" DecisionTaskFailed", {1}, {9}, {}, {})
    ensures Capitals(DECISION_END_NAMES, {0, 22, 43}, {8, 30, 34, 51}, {12}, {})
  {
  }

  /** Enough of the first list's letters to tell its names from others. */
  predicate DecisionText(t: string) {
    && |t| == 61 && Capitals(t, {0, 22, 43}, {8, 30, 34, 51}, {12}, {})
    && t[9] == 'a' && t[12] == 'C' && t[13] == 'o' && t[31] == 'a' && t[34] == 'T' && t[38] == 'd' && t[52] == 'a'
    && t[55] == 'F'
  }

  predicate FailureText(t: string) {
    && |t| == 39 && Capitals(t, {}, {8, 27, 31}, {}, {0, 19})
    && t[9] == 'a' && t[12] == 'F' && t[28] == 'a' && t[31] == 'T' && t[35] == 'd'
  }

  lemma DecisionLetters()
    ensures DecisionText(DECISION_END_NAMES)
  {
    DecisionCapitals();
  }

  lemma ActivityLetters()
    ensures FailureText(ACTIVITY_FAILURE_NAMES)
  {
    ActivityCapitals();
  }

  predicate EndsDecision(k: Kind) {
    k.DecisionTaskCompleted? || k.DecisionTaskTimedOut? || k.DecisionTaskFailed?
  }

  predicate FailsActivity(k: Kind) { k.ActivityTaskFailed? || k.ActivityTaskTimedOut? }

  /** The letters of a name that tell it from the names in the two lists. */
  predicate Telling(k: Kind, n: string) {
    && |n| > 4 && n[0] in {'A', 'C', 'D', 'E', 'M', 'R', 'S', 'T', 'U', 'W'}
    && (n[0] == 'T' ==> n[1] == 'i' && n[4] == 'r')
    && (n[0] == 'C' ==> n[1] == 'a' || n[1] == 'h')
    && (n[0] == 'D' || n[0] == 'A' ==> |n| > 12)
    && (n[0] == 'D' && !EndsDecision(k) ==> n[12] == 'S')
    && (n[0] == 'A' && !FailsActivity(k) ==> n[12] == 'S' || n[12] == 'C')
    && (EndsDecision(k) ==> n[0] == 'D') && (FailsActivity(k) ==> n[0] == 'A')
  }

  lemma DecisionNamesTell(k: Kind)
    requires k.Bookkeeping()
    ensures Telling(k, NameOf(k))
  {
  }

  lemma ActivityNamesTell(k: Kind)
    requires TargetTypeOfKind(k) == Activity || (TargetTypeOfKind(k) == CancelActivityRequest)
    ensures Telling(k, NameOf(k))
  {
  }

  lemma LaterNamesTell(t: OtherType)
    ensures Telling(Other(t), NameOfOther(t))
  {
    match t
    case WorkflowExecutionTimedOut =>
    case WorkflowExecutionCanceled =>
    case WorkflowExecutionTerminated =>
    case WorkflowExecutionContinuedAsNew =>
    case RequestCancelExternalWorkflowExecutionInitiated =>
    case RequestCancelExternalWorkflowExecutionFailed =>
    case ExternalWorkflowExecutionCancelRequested =>
    case SignalExternalWorkflowExecutionInitiated =>
    case SignalExternalWorkflowExecutionFailed =>
    case ExternalWorkflowExecutionSignaled =>
    case UpsertWorkflowSearchAttributes =>
  }

  lemma ChildNamesTell(k: Kind)
    requires TargetTypeOfKind(k) == ChildWorkflow && !k.Other?
    ensures Telling(k, NameOf(k))
  {
  }

  lemma OtherNamesTell(k: Kind)
    requires !k.Unsupported? && !k.Bookkeeping() && !k.Other? && TargetTypeOfKind(k) != ChildWorkflow
    requires TargetTypeOfKind(k) != Activity && TargetTypeOfKind(k) != CancelActivityRequest
    ensures Telling(k, NameOf(k))
  {
  }

  lemma NamesTell(k: Kind)
    requires !k.Unsupported?
    ensures Telling(k, NameOf(k))
  {
    hide NameOf, Telling;
    if k.Bookkeeping() {
      DecisionNamesTell(k);
    } else if TargetTypeOfKind(k) == Activity || TargetTypeOfKind(k) == CancelActivityRequest {
      ActivityNamesTell(k);
    } else if k.Other? {
      NameOfOtherKind(k.other);
      LaterNamesTell(k.other);
    } else if TargetTypeOfKind(k) == ChildWorkflow {
      ChildNamesTell(k);
    } else {
      OtherNamesTell(k);
    }
  }

  lemma Letter(text: string, word: string, i: nat, m: nat)
    requires i + |word| <= |text| && OccursAt(text, word, i) && m < |word|
    ensures word[m] == text[i + m]
  {
    assert text[i..i + |word|][m] == text[i + m];
  }

  lemma NotInDecisions(text: string, k: Kind, n: string, i: nat)
    requires DecisionText(text) && Telling(k, n) && !EndsDecision(k) && i + |n| <= |text|
    ensures !OccursAt(text, n, i)
  {
    if OccursAt(text, n, i) {
      hide OccursAt;
      Letter(text, n, i, 0);
      Letter(text, n, i, 1);
      Letter(text, n, i, 4);
      if |n| > 12 {
        Letter(text, n, i, 12);
      }
    }
  }

  lemma NotInFailures(text: string, k: Kind, n: string, i: nat)
    requires FailureText(text) && Telling(k, n) && !FailsActivity(k) && i + |n| <= |text|
    ensures !OccursAt(text, n, i)
  {
    if OccursAt(text, n, i) {
      hide OccursAt;
      Letter(text, n, i, 0);
      Letter(text, n, i, 1);
      Letter(text, n, i, 4);
      if |n| > 12 {
        Letter(text, n, i, 12);
      }
    }
  }

  lemma IncludesPart(before: string, word: string, after: string)
    ensures Includes(before + word + after, word)
  {
    assert (before + word + after)[|before|..|before| + |word|] == word;
    assert OccursAt(before + word + after, word, |before|);
  }

  lemma ListedDecisions()
    ensures Includes(DECISION_END_NAMES, "DecisionTaskCompleted")
    ensures Includes(DECISION_END_NAMES, "DecisionTaskTimedOut")
    ensures Includes(DECISION_END_NAMES, "DecisionTaskFailed")
  {
    IncludesWords("DecisionTaskCompleted", "DecisionTaskTimedOut", "DecisionTaskFailed");
    assert DECISION_END_NAMES
        == "DecisionTaskCompleted" + (" " + "DecisionTaskTimedOut" + (" " + "DecisionTaskFailed"));
  }

  lemma IncludesWords(a: string, b: string, c: string)
    ensures var text := a + (" " + b + (" " + c)); Includes(text, a) && Includes(text, b) && Includes(text, c)
  {
    hide Includes;
    var text := a + (" " + b + (" " + c));
    IncludesPart("", a, " " + b + (" " + c));
    assert "" + a + (" " + b + (" " + c)) == text;
    IncludesPart(a + " ", b, " " + c);
    assert a + " " + b + (" " + c) == text;
    IncludesPart(a + (" " + b + " "), c, "");
    assert a + (" " + b + " ") + c + "" == text;
  }

  lemma ListedFailures()
    ensures Includes(ACTIVITY_FAILURE_NAMES, "ActivityTaskFailed")
    ensures Includes(ACTIVITY_FAILURE_NAMES, "ActivityTaskTimedOut")
  {
    var failed, timedOut := "ActivityTaskFailed", "ActivityTaskTimedOut";
    assert ACTIVITY_FAILURE_NAMES == failed + (" " + timedOut);
    hide Includes;
    IncludesPart("", failed, " " + timedOut);
    assert "" + failed + (" " + timedOut) == failed + (" " + timedOut);
    IncludesPart(failed + " ", timedOut, "");
    assert failed + " " + timedOut + "" == failed + (" " + timedOut);
  }

  lemma DecisionSearch(k: Kind)
    requires !k.Unsupported?
    ensures Includes(DECISION_END_NAMES, NameOf(k)) <==> EndsDecision(k)
  {
    var text, n := DECISION_END_NAMES, NameOf(k);
    DecisionLetters();
    ListedDecisions();
    NamesTell(k);
    assert EndsDecision(k) ==> n in {"DecisionTaskCompleted", "DecisionTaskTimedOut", "DecisionTaskFailed"};
    hide NameOf, Telling, OccursAt, DecisionText;
    if !EndsDecision(k) {
      forall i | 0 <= i <= |text| - |n|
        ensures !OccursAt(text, n, i)
      {
        NotInDecisions(text, k, n, i);
      }
    }
  }

  lemma FailureSearch(k: Kind)
    requires !k.Unsupported?
    ensures Includes(ACTIVITY_FAILURE_NAMES, NameOf(k)) <==> FailsActivity(k)
  {
    var text, n := ACTIVITY_FAILURE_NAMES, NameOf(k);
    ActivityLetters();
    ListedFailures();
    NamesTell(k);
    assert FailsActivity(k) ==> n in {"ActivityTaskFailed", "ActivityTaskTimedOut"};
    hide NameOf, Telling, OccursAt, FailureText;
    if !FailsActivity(k) {
      forall i | 0 <= i <= |text| - |n|
        ensures !OccursAt(text, n, i)
      {
        NotInFailures(text, k, n, i);
      }
    }
  }

  /** For every event type of the server, searching the text for its name is the same as looking it up in the list that
      was meant. */
  lemma SearchIsMembership(k: Kind)
    requires !k.Unsupported?
    ensures Includes(DECISION_END_NAMES, NameOf(k)) <==> EndsDecision(k)
    ensures Includes(ACTIVITY_FAILURE_NAMES, NameOf(k)) <==> FailsActivity(k)
  {
    hide *;
    DecisionSearch(k);
    FailureSearch(k);
  }

  // ----- Command events -----

  /** The names of the events that record what a decision task issued: they stay in its window. */
  const COMMAND_NAMES: seq<string> := [
    "ActivityTaskScheduled", "ActivityTaskCancelRequested", "TimerStarted", "CancelTimerFailed", "TimerCanceled",
    "WorkflowExecutionCancelRequested", "StartChildWorkflowExecutionInitiated",
    "SignalExternalWorkflowExecution" + "Initiated", "RequestCancelActivityTaskFailed",
    "RequestCancelExternalWorkflowExecution" + "Initiated", "MarkerRecorded"]

  /** Length and first letter tell the names of command events from all others, but for one thirteenth letter. */
  predicate CommandShape(n: string) {
    || (|n| == 21 && n[0] == 'A' && n[12] == 'S') || (|n| == 27 && n[0] == 'A') || (|n| == 12 && n[0] == 'T')
    || (|n| == 17 && n[0] == 'C') || (|n| == 13 && n[0] == 'T') || (|n| == 32 && n[0] == 'W')
    || (|n| == 36 && n[0] == 'S') || (|n| == 40 && n[0] == 'S') || (|n| == 31 && n[0] == 'R')
    || (|n| == 47 && n[0] == 'R') || (|n| == 14 && n[0] == 'M')
  }

  lemma CommandNamesHaveShape(n: string)
    requires n in COMMAND_NAMES
    ensures CommandShape(n)
  {
  }

  /** A kind that opens a window has no command's shape, and any other has a command's name. */
  predicate Sorted(k: Kind, n: string) {
    if OpensWindow(k) then !CommandShape(n) else n in COMMAND_NAMES
  }

  lemma TaskNamesSorted(k: Kind)
    requires k.Bookkeeping() || TargetTypeOfKind(k) == Activity || TargetTypeOfKind(k) == CancelActivityRequest
    ensures Sorted(k, NameOf(k))
  {
  }

  lemma ChildNamesSorted(k: Kind)
    requires TargetTypeOfKind(k) == ChildWorkflow && !k.Other?
    ensures Sorted(k, NameOf(k))
  {
  }

  lemma LaterNamesSorted(t: OtherType)
    ensures Sorted(Other(t), NameOfOther(t))
  {
    match t
    case WorkflowExecutionTimedOut =>
    case WorkflowExecutionCanceled =>
    case WorkflowExecutionTerminated =>
    case WorkflowExecutionContinuedAsNew =>
    case RequestCancelExternalWorkflowExecutionInitiated =>
    case RequestCancelExternalWorkflowExecutionFailed =>
    case ExternalWorkflowExecutionCancelRequested =>
    case SignalExternalWorkflowExecutionInitiated =>
    case SignalExternalWorkflowExecutionFailed =>
    case ExternalWorkflowExecutionSignaled =>
    case UpsertWorkflowSearchAttributes =>
  }

  lemma OtherNamesSorted(k: Kind)
    requires !k.Unsupported? && !k.Bookkeeping() && !k.Other? && TargetTypeOfKind(k) != ChildWorkflow
    requires TargetTypeOfKind(k) != Activity && TargetTypeOfKind(k) != CancelActivityRequest
    ensures Sorted(k, NameOf(k))
  {
  }

  lemma NamesSorted(k: Kind)
    requires !k.Unsupported?
    ensures Sorted(k, NameOf(k))
  {
    hide NameOf, Sorted;
    if k.Bookkeeping() || TargetTypeOfKind(k) == Activity || TargetTypeOfKind(k) == CancelActivityRequest {
      TaskNamesSorted(k);
    } else if k.Other? {
      NameOfOtherKind(k.other);
      LaterNamesSorted(k.other);
    } else if TargetTypeOfKind(k) == ChildWorkflow {
      ChildNamesSorted(k);
    } else {
      OtherNamesSorted(k);
    }
  }

  /** For every event type of the server, whether `next_window` reads the event into the window of the task before it is
      whether its name is one of the eleven listed. */
  lemma CommandsByName(k: Kind)
    requires !k.Unsupported?
    ensures k.Command() <==> NameOf(k) in COMMAND_NAMES
    ensures OpensWindow(k) <==> NameOf(k) !in COMMAND_NAMES
  {
    hide NameOf, CommandShape, COMMAND_NAMES;
    NamesSorted(k);
    if NameOf(k) in COMMAND_NAMES {
      CommandNamesHaveShape(NameOf(k));
    }
  }
}
