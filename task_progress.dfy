/**
 * The process-wide progress bar state (Runtime/Utilities/TaskProgress.cs):
 * a title, a description, a fraction and an active flag. The pure
 * transition functions say what each entry point does to the state; the
 * class `TaskProgress` holds the four static fields and its methods are
 * proved to perform exactly those transitions.
 */
module Progress {
  import opened Text

  datatype ProgressState = ProgressState(title: string, description: string, progress: real, active: bool)

  /** The field initialisers: title "Progress", empty description, 0, inactive. */
  const Initial: ProgressState := ProgressState("Progress", "", 0.0, false)

  predicate InRange(s: ProgressState) {
    0.0 <= s.progress <= 1.0
  }

  /** Mathf.Clamp01. */
  function Clamp01(v: real): (r: real)
    ensures 0.0 <= r <= 1.0
    ensures 0.0 <= v <= 1.0 ==> r == v
    ensures v < 0.0 ==> r == 0.0
    ensures v > 1.0 ==> r == 1.0
  {
    if v < 0.0 then 0.0 else if v > 1.0 then 1.0 else v
  }

  /**
   * Mathf.Clamp01((float)index / total). With total == 0 the float quotient
   * is +infinity or -infinity, which clamps to 1 or 0; only 0 / 0 (NaN) is
   * left undefined.
   */
  predicate FractionDefined(total: int, index: int) {
    total != 0 || index != 0
  }

  function BatchFraction(total: int, index: int): (r: real)
    requires FractionDefined(total, index)
    ensures 0.0 <= r <= 1.0
    ensures 0 < total && 0 <= index <= total ==> r == index as real / total as real
    ensures 0 < total && total <= index ==> r == 1.0
    ensures total == 0 ==> (r == 1.0 <==> index > 0)
  {
    if total == 0 then (if index > 0 then 1.0 else 0.0)
    else Clamp01(index as real / total as real)
  }

  /** `Processing <name> (<index + 1>/<total>)...` */
  function BatchDescription(name: string, index: int, total: int): string {
    "Processing " + name + " (" + IntToString(index + 1) + "/" + IntToString(total) + ")..."
  }

  /** A call of one of the public entry points (HandleError is reached from failed UI actions). */
  datatype ProgressCall =
    | Initialize(title: string)
    | Update(description: string, value: real)
    | UpdateBatch(total: int, name: string, index: int)
    | Complete
    | HandleError

  predicate Defined(c: ProgressCall) {
    c.UpdateBatch? ==> FractionDefined(c.total, c.index)
  }

  predicate AllDefined(calls: seq<ProgressCall>) {
    forall i :: 0 <= i < |calls| ==> Defined(calls[i])
  }

  function Initialized(s: ProgressState, title: string): ProgressState {
    s.(title := title, progress := 0.0, active := true)
  }

  function Updated(s: ProgressState, description: string, value: real): ProgressState {
    if !s.active then s else s.(description := description, progress := Clamp01(value))
  }

  function BatchUpdated(s: ProgressState, total: int, name: string, index: int): ProgressState
    requires FractionDefined(total, index)
  {
    if !s.active then s else Updated(s, BatchDescription(name, index, total), BatchFraction(total, index))
  }

  function Completed(s: ProgressState): ProgressState {
    if !s.active then s else s.(active := false, progress := 0.0)
  }

  function ErrorHandled(s: ProgressState): ProgressState {
    if s.active then s.(active := false) else s
  }

  function Apply(s: ProgressState, c: ProgressCall): ProgressState
    requires Defined(c)
  {
    match c
    case Initialize(t) => Initialized(s, t)
    case Update(d, v) => Updated(s, d, v)
    case UpdateBatch(total, name, index) => BatchUpdated(s, total, name, index)
    case Complete => Completed(s)
    case HandleError => ErrorHandled(s)
  }

  /** The state after the calls, in order. */
  function Replay(s: ProgressState, calls: seq<ProgressCall>): ProgressState
    requires AllDefined(calls)
    decreases |calls|
  {
    if calls == [] then s else Replay(Apply(s, calls[0]), calls[1..])
  }

  /** Initialize sets the title, resets the fraction and activates; the description is kept. */
  lemma InitializeEffect(s: ProgressState, title: string)
    ensures var r := Initialized(s, title);
      r.active && r.progress == 0.0 && r.title == title && r.description == s.description
  {
  }

  /** While inactive, Update and UpdateBatch change nothing. */
  lemma InactiveUpdatesIgnored(s: ProgressState, d: string, v: real, total: int, name: string, index: int)
    requires !s.active && FractionDefined(total, index)
    ensures Updated(s, d, v) == s && BatchUpdated(s, total, name, index) == s
  {
  }

  /** An active Update stores the description and a fraction in [0, 1]. */
  lemma ActiveUpdate(s: ProgressState, d: string, v: real)
    requires s.active
    ensures Updated(s, d, v).description == d && InRange(Updated(s, d, v)) && Updated(s, d, v).active
  {
  }

  /** An active UpdateBatch with a positive total shows the clamped ratio and the 1-based counter. */
  lemma ActiveBatchUpdate(s: ProgressState, total: int, name: string, index: int)
    requires s.active && total > 0
    ensures var r := BatchUpdated(s, total, name, index);
      r.progress == Clamp01(index as real / total as real) &&
      r.description == BatchDescription(name, index, total) &&
      r.title == s.title && r.active
  {
  }

  /** Complete leaves the state inactive; on an active state it also resets the fraction. */
  lemma CompleteEffect(s: ProgressState)
    ensures !Completed(s).active
    ensures s.active ==> Completed(s).progress == 0.0 && Completed(s).title == s.title
    ensures !s.active ==> Completed(s) == s
    ensures Completed(Completed(s)) == Completed(s)
  {
  }

  /** HandleError deactivates and keeps the fraction, title and description. */
  lemma HandleErrorEffect(s: ProgressState)
    ensures ErrorHandled(s) == s.(active := false)
  {
  }

  /** Replaying a concatenation is replaying its parts one after the other. */
  lemma {:induction false} ReplayAppend(s: ProgressState, a: seq<ProgressCall>, b: seq<ProgressCall>)
    requires AllDefined(a) && AllDefined(b)
    ensures AllDefined(a + b)
    ensures Replay(s, a + b) == Replay(Replay(s, a), b)
    decreases |a|
  {
    assert AllDefined(a + b) by {
      forall i | 0 <= i < |a + b| ensures Defined((a + b)[i]) {
        if i < |a| { assert (a + b)[i] == a[i]; } else { assert (a + b)[i] == b[i - |a|]; }
      }
    }
    if a != [] {
      assert (a + b)[0] == a[0];
      assert (a + b)[1..] == a[1..] + b;
      assert AllDefined(a[1..]) by {
        forall i | 0 <= i < |a[1..]| ensures Defined(a[1..][i]) { assert a[1..][i] == a[i + 1]; }
      }
      ReplayAppend(Apply(s, a[0]), a[1..], b);
    } else {
      assert a + b == b;
    }
  }

  /** Whatever the calls, the fraction never leaves [0, 1]. */
  lemma {:induction false} ReplayInRange(s: ProgressState, calls: seq<ProgressCall>)
    requires InRange(s) && AllDefined(calls)
    ensures InRange(Replay(s, calls))
    decreases |calls|
  {
    if calls != [] {
      assert Defined(calls[0]);
      assert AllDefined(calls[1..]) by {
        forall i | 0 <= i < |calls[1..]| ensures Defined(calls[1..][i]) { assert calls[1..][i] == calls[i + 1]; }
      }
      ReplayInRange(Apply(s, calls[0]), calls[1..]);
    }
  }

  /** After a Complete that is followed only by updates, the state is inactive. */
  lemma {:induction false} InactiveAfterComplete(s: ProgressState, before: seq<ProgressCall>, after: seq<ProgressCall>)
    requires AllDefined(before) && AllDefined(after)
    requires forall i :: 0 <= i < |after| ==> !after[i].Initialize?
    ensures AllDefined(before + [Complete] + after)
    ensures !Replay(s, before + [Complete] + after).active
  {
    ReplayAppend(s, before, [Complete]);
    ReplayAppend(s, before + [Complete], after);
    StaysInactive(Replay(s, before + [Complete]), after);
  }

  /** Without an Initialize, an inactive state stays exactly as it is. */
  lemma {:induction false} StaysInactive(s: ProgressState, calls: seq<ProgressCall>)
    requires !s.active && AllDefined(calls)
    requires forall i :: 0 <= i < |calls| ==> !calls[i].Initialize?
    ensures Replay(s, calls) == s
    decreases |calls|
  {
    if calls != [] {
      assert Apply(s, calls[0]) == s by { assert !calls[0].Initialize?; }
      assert AllDefined(calls[1..]) by {
        forall i | 0 <= i < |calls[1..]| ensures Defined(calls[1..][i]) { assert calls[1..][i] == calls[i + 1]; }
      }
      StaysInactive(s, calls[1..]);
    }
  }

  /** The four static fields of TaskProgress. */
  class TaskProgress {
    var title: string
    var description: string
    var progress: real
    var active: bool

    ghost predicate Valid()
      reads this
    {
      0.0 <= progress <= 1.0
    }

    function State(): ProgressState
      reads this
    {
      ProgressState(title, description, progress, active)
    }

    constructor ()
      ensures State() == Initial && Valid()
    {
      title, description, progress, active := "Progress", "", 0.0, false;
    }

    method Initialize(progressTitle: string)
      requires Valid()
      modifies this
      ensures Valid() && State() == Initialized(old(State()), progressTitle)
    {
      title := progressTitle;
      progress := 0.0;
      active := true;
    }

    method Update(taskDescription: string, progressValue: real)
      requires Valid()
      modifies this
      ensures Valid() && State() == Updated(old(State()), taskDescription, progressValue)
    {
      if !active {
        return;
      }
      description := taskDescription;
      progress := Clamp01(progressValue);
    }

    method UpdateBatch(totalItems: int, currentItemName: string, currentIndex: int)
      requires Valid() && FractionDefined(totalItems, currentIndex)
      modifies this
      ensures Valid() && State() == BatchUpdated(old(State()), totalItems, currentItemName, currentIndex)
    {
      if !active {
        return;
      }
      var progressValue := BatchFraction(totalItems, currentIndex);
      var taskDescription := BatchDescription(currentItemName, currentIndex, totalItems);
      Update(taskDescription, progressValue);
    }

    method Complete()
      requires Valid()
      modifies this
      ensures Valid() && State() == Completed(old(State()))
    {
      if !active {
        return;
      }
      active := false;
      progress := 0.0;
    }

    method HandleError()
      requires Valid()
      modifies this
      ensures Valid() && State() == ErrorHandled(old(State()))
    {
      if active {
        active := false;
      }
    }

    /** Performs one call, as the orchestrators record it. */
    method Perform(c: ProgressCall)
      requires Valid() && Defined(c)
      modifies this
      ensures Valid() && State() == Apply(old(State()), c)
    {
      match c
      case Initialize(t) => Initialize(t);
      case Update(d, v) => Update(d, v);
      case UpdateBatch(total, name, index) => UpdateBatch(total, name, index);
      case Complete => Complete();
      case HandleError => HandleError();
    }
  }
}
