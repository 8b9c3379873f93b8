/** Self-update and rollback: the files beside the program change one operation at a time, any operation can fail
    and the process can die between any two. */
module Update {

  datatype Option<+T> = None | Some(value: T)

  /** A program file; Junk is one that was only partly written. */
  datatype Image = Version(id: int) | Junk

  datatype Marker = Absent | Readable | Corrupt

  /** RFERP.exe, its .old and .failed copies, RFERP.new.exe and the update marker. */
  datatype Files = Files(exe: Option<Image>, prev: Option<Image>, next: Option<Image>, failed: Option<Image>, marker: Marker)

  /** The operation a process is about to do: of an update, of a confirmation, of a rollback. */
  datatype Stage =
    | Extract | Mark | DropOld | MoveExe | MoveNew | Spawn | PutBack | CleanNew
    | ConfirmMark | ConfirmOld | ConfirmFailed
    | DropFailed | MoveAway | PutOld | Restore | ClearMark

  /** A running process knows the version it was started from, and whether its interface came up. */
  datatype Process = Idle | Running(image: Image, ready: bool) | Busy(image: Image, version: int, stage: Stage)

  /** `confirmed` is the version whose interface last came up. */
  datatype State = State(files: Files, proc: Process, confirmed: Image)

  /** Partial: the operation failed and left a half-written file. */
  datatype Reply = Done | Failed | Partial

  datatype Event =
    | Launch(reply: Reply)
    | BeginApply(version: int)
    | BeginConfirm
    | BeginRollback
    | Op(reply: Reply)
    | Crash

  // ---- The file operations ----

  function WriteMarker(f: Files, r: Reply): Files {
    f.(marker := if r.Done? then Readable else if r.Partial? then Corrupt else f.marker)
  }

  predicate OffersRollback(f: Files) { f.prev.Some? && f.marker.Readable? }

  /** PrepareStart: a copy without a marker gets one. */
  function Prepared(f: Files, r: Reply): Files {
    if f.prev.Some? && f.marker.Absent? then WriteMarker(f, r) else f
  }

  predicate Applying(st: Stage) {
    st.Extract? || st.Mark? || st.DropOld? || st.MoveExe? || st.MoveNew? || st.Spawn? || st.PutBack? || st.CleanNew?
  }

  predicate Confirming(st: Stage) { st.ConfirmMark? || st.ConfirmOld? || st.ConfirmFailed? }

  /** The next operation of a busy process and what it goes on to. */
  function Next(f: Files, image: Image, v: int, st: Stage, r: Reply): (Files, Process) {
    var back := Running(image, Applying(st) || Confirming(st));
    match st
    case Extract =>
      if r.Done? then (f.(next := Some(Version(v))), Busy(image, v, Mark))
      else (if r.Partial? then f.(next := Some(Junk)) else f, back)
    case Mark => (WriteMarker(f, r), Busy(image, v, if r.Done? then DropOld else CleanNew))
    case CleanNew => (if r.Done? then f.(next := None) else f, back)
    case DropOld => (if r.Done? then f.(prev := None) else f, Busy(image, v, MoveExe))
    case MoveExe =>
      if r.Done? && f.exe.Some? then (f.(prev := f.exe, exe := None), Busy(image, v, MoveNew)) else (f, Busy(image, v, CleanNew))
    case MoveNew =>
      if r.Done? && f.next.Some? then (f.(exe := f.next, next := None), Busy(image, v, Spawn)) else (f, Busy(image, v, PutBack))
    case Spawn => (f, if r.Done? then Idle else back)
    case PutBack => (if r.Done? && f.prev.Some? then f.(exe := f.prev, prev := None) else f, back)
    case ConfirmMark => (if r.Done? then f.(marker := Absent) else f, Busy(image, v, ConfirmOld))
    case ConfirmOld => (if r.Done? then f.(prev := None) else f, Busy(image, v, ConfirmFailed))
    case ConfirmFailed => (if r.Done? then f.(failed := None) else f, back)
    case DropFailed => if r.Done? || f.failed.None? then (f.(failed := None), Busy(image, v, MoveAway)) else (f, back)
    case MoveAway => if r.Done? && f.exe.Some? then (f.(failed := f.exe, exe := None), Busy(image, v, PutOld)) else (f, back)
    case PutOld =>
      if r.Done? && f.prev.Some? then (f.(exe := f.prev, prev := None), Busy(image, v, ClearMark)) else (f, Busy(image, v, Restore))
    case Restore => (if r.Done? && f.failed.Some? then f.(exe := f.failed, failed := None) else f, back)
    case ClearMark => (if r.Done? then f.(marker := Absent) else f, Idle)
  }

  function Step(s: State, e: Event): State {
    match e
    case Launch(r) =>
      if s.proc.Idle? && s.files.exe.Some? then s.(files := Prepared(s.files, r), proc := Running(s.files.exe.value, false)) else s
    case BeginApply(v) =>
      if s.proc.Running? && s.proc.ready then s.(proc := Busy(s.proc.image, v, Extract)) else s
    case BeginConfirm =>
      if s.proc.Running? && !s.proc.ready then s.(proc := Busy(s.proc.image, 0, ConfirmMark), confirmed := s.proc.image) else s
    case BeginRollback =>
      if s.proc.Running? && !s.proc.ready && OffersRollback(s.files) then s.(proc := Busy(s.proc.image, 0, DropFailed)) else s
    case Op(r) =>
      if s.proc.Busy? then
        var (f, p) := Next(s.files, s.proc.image, s.proc.version, s.proc.stage, r);
        s.(files := f, proc := p)
      else s
    case Crash => s.(proc := Idle)
  }

  function Run(s: State, events: seq<Event>): State
    decreases |events|
  {
    if events == [] then s else Run(Step(s, events[0]), events[1..])
  }

  // ---- The last confirmed version is never lost ----

  ghost predicate Kept(s: State) { s.files.exe == Some(s.confirmed) || s.files.prev == Some(s.confirmed) }

  /** Where the confirmed version is at each stage. */
  ghost predicate Placed(s: State) {
    s.proc.Busy? ==>
      match s.proc.stage
      case Extract => s.files.exe == Some(s.confirmed)
      case Mark => s.files.exe == Some(s.confirmed)
      case DropOld => s.files.exe == Some(s.confirmed)
      case MoveExe => s.files.exe == Some(s.confirmed)
      case CleanNew => s.files.exe == Some(s.confirmed)
      case ConfirmMark => s.files.exe == Some(s.confirmed)
      case ConfirmOld => s.files.exe == Some(s.confirmed)
      case ConfirmFailed => s.files.exe == Some(s.confirmed)
      case ClearMark => s.files.exe == Some(s.confirmed)
      case _ => s.files.prev == Some(s.confirmed)
  }

  /** What must hold when a task begins: an update starts from the confirmed version, a confirmation finds its
      program in place, a rollback does not leave the confirmed version for another. */
  predicate Guarded(s: State, e: Event) {
    match e
    case BeginApply(_) => s.proc.Running? && s.proc.ready ==> s.files.exe == Some(s.confirmed)
    case BeginConfirm => s.proc.Running? && !s.proc.ready ==> s.files.exe == Some(s.proc.image)
    case BeginRollback =>
      s.proc.Running? && !s.proc.ready && OffersRollback(s.files) && s.files.exe == Some(s.confirmed) ==> s.files.prev == Some(s.confirmed)
    case _ => true
  }

  predicate AllGuarded(s: State, events: seq<Event>)
    decreases |events|
  {
    events == [] || (Guarded(s, events[0]) && AllGuarded(Step(s, events[0]), events[1..]))
  }

  lemma StepKeeps(s: State, e: Event)
    requires Kept(s) && Placed(s) && Guarded(s, e)
    ensures Kept(Step(s, e)) && Placed(Step(s, e))
  {
  }

  /** Under every failing operation and every crash, the last confirmed version stays there as the program or as
      its .old copy, as long as the tasks begin as guarded. */
  lemma {:induction false} ConfirmedVersionKept(s: State, events: seq<Event>)
    requires Kept(s) && Placed(s) && AllGuarded(s, events)
    ensures Kept(Run(s, events)) && Placed(Run(s, events))
    decreases |events|
  {
    if events != [] {
      hide Kept, Placed, Guarded, Step;
      StepKeeps(s, events[0]);
      ConfirmedVersionKept(Step(s, events[0]), events[1..]);
    }
  }

  // ---- The guards are exact ----

  predicate OnlyOps(events: seq<Event>) { forall i :: 0 <= i < |events| ==> events[i].Op? || events[i].Crash? }

  lemma {:induction false} OpsAreGuarded(s: State, ops: seq<Event>)
    requires OnlyOps(ops)
    ensures AllGuarded(s, ops)
    decreases |ops|
  {
    hide Step;
    if ops != [] {
      OpsAreGuarded(Step(s, ops[0]), ops[1..]);
    }
  }

  const TWO_OPS: seq<Event> := [Op(Done), Op(Done)]

  const THREE_OPS: seq<Event> := [Op(Done), Op(Done), Op(Done)]

  lemma TwoOps(s: State)
    ensures Run(s, TWO_OPS) == Step(Step(s, Op(Done)), Op(Done))
  {
    hide Step;
    assert TWO_OPS[1..] == [Op(Done)] && [Op(Done)][1..] == [];
    assert Run(Step(s, Op(Done)), [Op(Done)]) == Run(Step(Step(s, Op(Done)), Op(Done)), []);
  }

  /** An update of a program that is not the confirmed one drops the only copy of it. */
  lemma UnguardedUpdateLoses(s: State, v: int)
    requires s.proc.Running? && !Guarded(s, BeginApply(v))
    ensures !Kept(Run(Step(s, BeginApply(v)), THREE_OPS))
  {
    var s3 := Unroll3(Step(s, BeginApply(v)), THREE_OPS);
    assert THREE_OPS[3..] == [];
  }

  /** A confirmation whose program is not in place drops the copy; a rollback from the confirmed version to
      another moves it away. */
  lemma UnguardedTaskLoses(s: State, e: Event)
    requires s.proc.Running? && !Guarded(s, e) && !e.BeginApply?
    ensures !Kept(Run(Step(s, e), TWO_OPS))
  {
    TwoOps(Step(s, e));
  }

  /** A task may begin exactly when nothing its file operations do can lose the confirmed version: guarded, no
      failure and no crash loses it; not guarded, letting the operations succeed does. */
  lemma GuardIsExact(s: State, e: Event)
    requires Kept(s) && s.proc.Running?
    ensures Guarded(s, e) <==> forall ops :: OnlyOps(ops) ==> Kept(Run(Step(s, e), ops))
  {
    if Guarded(s, e) {
      StepKeeps(s, e);
      forall ops | OnlyOps(ops) ensures Kept(Run(Step(s, e), ops)) {
        OpsAreGuarded(Step(s, e), ops);
        ConfirmedVersionKept(Step(s, e), ops);
      }
    } else if e.BeginApply? {
      UnguardedUpdateLoses(s, e.version);
      assert OnlyOps(THREE_OPS);
    } else {
      UnguardedTaskLoses(s, e);
      assert OnlyOps(TWO_OPS);
    }
  }

  // ---- When the guards hold by themselves ----

  /** Every update starts from the confirmed version; confirmations run to their end without a failure; a rollback
      that cannot bring the old version back can at least restore the current one. Everything else may fail, and
      the process may die anywhere else. */
  predicate Calm(s: State, e: Event) {
    && (e.BeginApply? && s.proc.Running? && s.proc.ready ==> s.files.exe == Some(s.confirmed))
    && (s.proc.Busy? && Confirming(s.proc.stage) && (e.Crash? || e.Op?) ==> e == Op(Done))
    && (s.proc.Busy? && s.proc.stage == Restore && e.Op? ==> e == Op(Done))
  }

  predicate AllCalm(s: State, events: seq<Event>)
    decreases |events|
  {
    events == [] || (Calm(s, events[0]) && AllCalm(Step(s, events[0]), events[1..]))
  }

  /** The copy is the confirmed version, and a process that has not confirmed still finds itself on disk. */
  ghost predicate Tidy(s: State) {
    && (s.files.prev.Some? && !(s.proc.Busy? && Confirming(s.proc.stage)) ==> s.files.prev == Some(s.confirmed))
    && (s.proc.Busy? && s.proc.stage == ConfirmFailed ==> s.files.prev.None?)
    && (s.proc.Running? && !s.proc.ready ==> s.files.exe == Some(s.proc.image))
    && (s.proc.Busy? && (s.proc.stage == DropFailed || s.proc.stage == MoveAway) ==> s.files.exe == Some(s.proc.image))
    && (s.proc.Busy? && (s.proc.stage == PutOld || s.proc.stage == Restore) ==> s.files.failed == Some(s.proc.image))
  }

  lemma CalmStep(s: State, e: Event)
    requires Kept(s) && Placed(s) && Tidy(s) && Calm(s, e)
    ensures Guarded(s, e) && Tidy(Step(s, e))
  {
  }

  /** So with confirmations that finish, crashes and failures anywhere else never lose the confirmed version. */
  lemma {:induction false} CalmRunsKeepConfirmed(s: State, events: seq<Event>)
    requires Kept(s) && Placed(s) && Tidy(s) && AllCalm(s, events)
    ensures AllGuarded(s, events) && Kept(Run(s, events)) && Tidy(Run(s, events))
    decreases |events|
  {
    if events != [] {
      hide Kept, Placed, Tidy, Guarded, Calm, Step;
      CalmStep(s, events[0]);
      StepKeeps(s, events[0]);
      CalmRunsKeepConfirmed(Step(s, events[0]), events[1..]);
    }
  }

  // ---- Runs in which a guard is missing ----

  const CUT_SHORT: seq<Event> := [BeginConfirm, Op(Done), Crash, Launch(Done), Crash, Launch(Done)]

  lemma OfferedAgain(s: State)
    requires s.proc.Running? && !s.proc.ready && s.files.exe == Some(s.proc.image) && OffersRollback(s.files)
    ensures Run(s, CUT_SHORT) == State(s.files, s.proc, s.proc.image)
  {
    var s3 := Unroll3(s, CUT_SHORT);
    var s6 := Unroll3(s3, CUT_SHORT[3..]);
    assert CUT_SHORT[3..][3..] == [];
  }

  /** A confirmation cut short after the marker is gone leaves the old copy; two starts later the user is offered a
      rollback from the confirmed version, and taking it leaves that version in .failed only. */
  lemma InterruptedConfirmLoses(s: State)
    requires s.proc.Running? && !s.proc.ready && s.files.exe == Some(s.proc.image)
    requires OffersRollback(s.files) && s.files.prev != s.files.exe
    ensures var end := Run(s, CUT_SHORT + ROLLED_BACK);
      !Kept(end) && end.files.failed == Some(end.confirmed) && end.files.exe == s.files.prev
  {
    OfferedAgain(s);
    RunParts(s, CUT_SHORT, ROLLED_BACK);
    RollbackDone(Run(s, CUT_SHORT));
  }

  lemma Unroll3(s: State, events: seq<Event>) returns (s3: State)
    requires |events| >= 3
    ensures s3 == Step(Step(Step(s, events[0]), events[1]), events[2])
    ensures Run(s, events) == Run(s3, events[3..])
  {
    s3 := Step(Step(Step(s, events[0]), events[1]), events[2]);
    hide Step;
    var s1 := Step(s, events[0]);
    assert Run(s, events) == Run(s1, events[1..]);
    assert Run(s1, events[1..]) == Run(Step(s1, events[1]), events[2..]) by { assert events[1..][1..] == events[2..]; }
    assert Run(Step(s1, events[1]), events[2..]) == Run(s3, events[3..]) by { assert events[2..][1..] == events[3..]; }
  }

  /** An update whose new process could not be started leaves the old one running beside an unconfirmed program;
      updating again from there removes the confirmed version. */
  lemma RetriedUpdateLoses(v: int, w: int, x: int)
    requires v != w
    ensures var s := State(Files(Some(Version(v)), None, None, None, Absent), Running(Version(v), true), Version(v));
      var events := [BeginApply(w), Op(Done), Op(Done), Op(Done), Op(Done), Op(Done), Op(Failed),
        BeginApply(x), Op(Done), Op(Done), Op(Done), Crash];
      && Kept(s) && Placed(s) && Tidy(s) && Run(s, events).confirmed == Version(v)
      && Run(s, events).files == Files(Some(Version(w)), None, Some(Version(x)), None, Readable)
  {
    var s := State(Files(Some(Version(v)), None, None, None, Absent), Running(Version(v), true), Version(v));
    var events := [BeginApply(w), Op(Done), Op(Done), Op(Done), Op(Done), Op(Done), Op(Failed),
      BeginApply(x), Op(Done), Op(Done), Op(Done), Crash];
    var s3 := Unroll3(s, events);
    var s6 := Unroll3(s3, events[3..]);
    var s9 := Unroll3(s6, events[6..]);
    var s12 := Unroll3(s9, events[9..]);
    assert events[12..] == [];
  }

  lemma MovedAway(v: int, w: int)
    ensures var s := State(Files(Some(Version(v)), Some(Version(w)), None, None, Readable), Running(Version(v), false), Version(w));
      Step(Step(Step(s, BeginRollback), Op(Done)), Op(Done))
        == State(Files(None, Some(Version(w)), None, Some(Version(v)), Readable), Busy(Version(v), 0, PutOld), Version(w))
  {
  }

  lemma StrandedConfirms(v: int, w: int)
    ensures var s := State(Files(None, Some(Version(w)), None, Some(Version(v)), Readable), Busy(Version(v), 0, PutOld), Version(w));
      Step(Step(Step(s, Op(Failed)), Op(Failed)), BeginConfirm)
        == State(s.files, Busy(Version(v), 0, ConfirmMark), Version(v))
  {
  }

  lemma ConfirmRemoves(v: int, f: Files)
    ensures Step(Step(Step(State(f, Busy(Version(v), 0, ConfirmMark), Version(v)), Op(Done)), Op(Done)), Op(Done))
         == State(f.(prev := None, failed := None, marker := Absent), Running(Version(v), true), Version(v))
  {
  }

  /** A rollback that can neither bring the old version back nor restore the current one leaves no program; if the
      process still confirms itself, every copy is removed. */
  lemma StrandedConfirmLoses(v: int, w: int)
    ensures var s := State(Files(Some(Version(v)), Some(Version(w)), None, None, Readable), Running(Version(v), false), Version(w));
      var events := [BeginRollback, Op(Done), Op(Done), Op(Failed), Op(Failed), BeginConfirm, Op(Done), Op(Done), Op(Done)];
      && Kept(s) && Placed(s) && Tidy(s)
      && Run(s, events) == State(Files(None, None, None, None, Absent), Running(Version(v), true), Version(v))
  {
    var s := State(Files(Some(Version(v)), Some(Version(w)), None, None, Readable), Running(Version(v), false), Version(w));
    var events := [BeginRollback, Op(Done), Op(Done), Op(Failed), Op(Failed), BeginConfirm, Op(Done), Op(Done), Op(Done)];
    hide Step;
    MovedAway(v, w);
    var s3 := Unroll3(s, events);
    StrandedConfirms(v, w);
    var s6 := Unroll3(s3, events[3..]);
    ConfirmRemoves(v, s6.files);
    var s9 := Unroll3(s6, events[6..]);
    assert events[9..] == [];
  }

  // ---- Starting, confirming and rolling back ----

  /** A start removes nothing; all it may do is mark an unmarked copy. */
  lemma StartRemovesNothing(s: State, r: Reply)
    ensures var f := Step(s, Launch(r)).files;
      && f == s.files.(marker := f.marker)
      && (f.marker != s.files.marker ==> s.files.marker.Absent? && s.files.prev.Some?)
  {
  }

  /** A confirmation that finishes leaves the program alone and nothing else. */
  lemma FinishedConfirm(s: State)
    requires s.proc.Running? && !s.proc.ready
    ensures Run(s, [BeginConfirm, Op(Done), Op(Done), Op(Done)]) ==
      State(s.files.(prev := None, failed := None, marker := Absent), Running(s.proc.image, true), s.proc.image)
  {
    var events := [BeginConfirm, Op(Done), Op(Done), Op(Done)];
    var s3 := Unroll3(s, events);
    assert events[3..] == [Op(Done)];
    assert Run(s3, [Op(Done)]) == Run(Step(s3, Op(Done)), [Op(Done)][1..]);
  }

  /** After that no start offers a rollback until the next update begins, whatever fails in between. */
  lemma {:induction false} NoOfferUntilUpdate(s: State, events: seq<Event>)
    requires s.files.prev.None? && !(s.proc.Busy? && Applying(s.proc.stage))
    requires forall i :: 0 <= i < |events| ==> !events[i].BeginApply?
    ensures Run(s, events).files.prev.None? && !OffersRollback(Run(s, events).files)
    decreases |events|
  {
    if events != [] {
      NoOfferUntilUpdate(Step(s, events[0]), events[1..]);
    }
  }

  lemma {:induction false} RunParts(s: State, a: seq<Event>, b: seq<Event>)
    ensures Run(s, a + b) == Run(Run(s, a), b)
    decreases |a|
  {
    if a == [] {
      assert a + b == b;
    } else {
      assert (a + b)[1..] == a[1..] + b;
      RunParts(Step(s, a[0]), a[1..], b);
    }
  }

  const UPDATED: seq<Event> := [Op(Done), Op(Done), Op(Done), Op(Done), Op(Done), Op(Done)]

  const ROLLED_BACK: seq<Event> := [BeginRollback, Op(Done), Op(Done), Op(Done), Op(Done), Crash]

  lemma UpdateDone(s: State, v: int)
    requires s.proc.Running? && s.proc.ready && s.files.exe.Some?
    ensures Run(Step(s, BeginApply(v)), UPDATED) ==
      State(s.files.(exe := Some(Version(v)), prev := s.files.exe, next := None, marker := Readable), Idle, s.confirmed)
  {
    var s0 := Step(s, BeginApply(v));
    var s3 := Unroll3(s0, UPDATED);
    var s6 := Unroll3(s3, UPDATED[3..]);
    assert UPDATED[3..][3..] == [];
  }

  lemma RollbackDone(s: State)
    requires s.proc.Running? && !s.proc.ready && OffersRollback(s.files) && s.files.exe.Some?
    ensures Run(s, ROLLED_BACK) ==
      State(s.files.(exe := s.files.prev, prev := None, failed := s.files.exe, marker := Absent), Idle, s.confirmed)
  {
    var s3 := Unroll3(s, ROLLED_BACK);
    var s6 := Unroll3(s3, ROLLED_BACK[3..]);
    assert ROLLED_BACK[3..][3..] == [];
  }

  /** Where the interrupted confirmation and the failed rollback start is an ordinary state: the first start after
      an update. */
  lemma FirstStart(w: int, v: int)
    ensures var installed := State(Files(Some(Version(w)), None, None, None, Absent), Running(Version(w), true), Version(w));
      Kept(installed) && Placed(installed) && Tidy(installed)
      && Run(installed, [BeginApply(v)] + UPDATED + [Launch(Done)]) ==
         State(Files(Some(Version(v)), Some(Version(w)), None, None, Readable), Running(Version(v), false), Version(w))
  {
    var installed := State(Files(Some(Version(w)), None, None, None, Absent), Running(Version(w), true), Version(w));
    UpdateDone(installed, v);
    RunParts(installed, [BeginApply(v)], UPDATED);
    assert Run(installed, [BeginApply(v)]) == Run(Step(installed, BeginApply(v)), [BeginApply(v)][1..]);
    var s1 := Run(installed, [BeginApply(v)] + UPDATED);
    RunParts(installed, [BeginApply(v)] + UPDATED, [Launch(Done)]);
    assert Run(s1, [Launch(Done)]) == Run(Step(s1, Launch(Done)), [Launch(Done)][1..]);
  }

  /** Updating and rolling back on the next start brings the program back, with the new one kept aside. */
  lemma UpdateThenRollback(s: State, v: int)
    requires s.proc.Running? && s.proc.ready && s.files.exe.Some?
    ensures var end := Run(s, [BeginApply(v)] + UPDATED + [Launch(Done)] + ROLLED_BACK);
      end.files == Files(s.files.exe, None, None, Some(Version(v)), Absent)
  {
    UpdateDone(s, v);
    RunParts(s, [BeginApply(v)], UPDATED);
    assert Run(s, [BeginApply(v)]) == Run(Step(s, BeginApply(v)), [BeginApply(v)][1..]);
    var s1 := Run(s, [BeginApply(v)] + UPDATED);
    RunParts(s, [BeginApply(v)] + UPDATED, [Launch(Done)]);
    assert Run(s1, [Launch(Done)]) == Run(Step(s1, Launch(Done)), [Launch(Done)][1..]);
    RollbackDone(Step(s1, Launch(Done)));
    RunParts(s, [BeginApply(v)] + UPDATED + [Launch(Done)], ROLLED_BACK);
  }

  // ---- The functions that do it ----

  /** Carry a task through without a crash. */
  function Drive(s: State, replies: Stage -> Reply, fuel: nat): State
    decreases fuel
  {
    if fuel == 0 || !s.proc.Busy? then s else Drive(Step(s, Op(replies(s.proc.stage))), replies, fuel - 1)
  }

  const LONGEST := 8

  lemma {:induction false} DriveMore(s: State, replies: Stage -> Reply, steps: nat, fuel: nat)
    requires steps <= fuel
    ensures Drive(s, replies, fuel) == Drive(Drive(s, replies, steps), replies, fuel - steps)
    decreases steps
  {
    if steps != 0 && s.proc.Busy? {
      DriveMore(Step(s, Op(replies(s.proc.stage))), replies, steps - 1, fuel - 1);
    }
  }

  lemma DriveStep(s: State, replies: Stage -> Reply, fuel: nat)
    requires fuel > 0
    ensures Drive(s, replies, fuel) == if s.proc.Busy? then Drive(Step(s, Op(replies(s.proc.stage))), replies, fuel - 1) else s
  {
    hide Step;
  }

  /** How an update ends, whatever of it fails: with the new program in place exactly when the extraction, the marker
      and both renamings succeed, the old program then being the .old copy; otherwise with the old program back in
      place, except when the renaming back fails too, and then it is the .old copy and no program is there. */
  lemma UpdateOutcome(s: State, v: int, r: Stage -> Reply)
    requires s.proc.Running? && s.proc.ready && s.files.exe.Some?
    ensures var f, end := s.files, Drive(Step(s, BeginApply(v)), r, LONGEST);
      var marked := r(Extract).Done? && r(Mark).Done?;
      var moved := marked && r(MoveExe).Done?;
      var installed, stranded := moved && r(MoveNew).Done?, moved && !r(MoveNew).Done? && !r(PutBack).Done?;
      && end.confirmed == s.confirmed && end.files.failed == f.failed
      && end.proc == (if installed && r(Spawn).Done? then Idle else s.proc)
      && end.files.exe == (if installed then Some(Version(v)) else if stranded then None else f.exe)
      && end.files.prev == (if installed || stranded then f.exe else if moved || (marked && r(DropOld).Done?) then None else f.prev)
      && end.files.next == (if installed then None else if !r(Extract).Done? then if r(Extract).Partial? then Some(Junk) else f.next
                            else if !moved && r(CleanNew).Done? then None else Some(Version(v)))
      && end.files.marker == if !r(Extract).Done? then f.marker else WriteMarker(f, r(Mark)).marker
  {
    var s0 := Step(s, BeginApply(v));
    DriveStep(s0, r, 8);
    var s1 := Step(s0, Op(r(Extract)));
    DriveStep(s1, r, 7);
    if r(Extract).Done? {
      var s2 := Step(s1, Op(r(Mark)));
      DriveStep(s2, r, 6);
      if r(Mark).Done? {
        var s3 := Step(s2, Op(r(DropOld)));
        MovingOutcome(s3, r);
      } else {
        DriveStep(Step(s2, Op(r(CleanNew))), r, 5);
      }
    }
    hide Drive;
  }

  /** From the first renaming on. */
  lemma MovingOutcome(s: State, r: Stage -> Reply)
    requires s.proc.Busy? && s.proc.stage == MoveExe && s.files.exe.Some? && s.files.next.Some?
    ensures var f, end := s.files, Drive(s, r, 5);
      var moved := r(MoveExe).Done?;
      var installed, stranded := moved && r(MoveNew).Done?, moved && !r(MoveNew).Done? && !r(PutBack).Done?;
      && end.confirmed == s.confirmed && end.files.failed == f.failed && end.files.marker == f.marker
      && end.proc == (if installed && r(Spawn).Done? then Idle else Running(s.proc.image, true))
      && end.files.exe == (if installed then f.next else if stranded then None else f.exe)
      && end.files.prev == (if installed || stranded then f.exe else if moved then None else f.prev)
      && end.files.next == if installed || (!moved && r(CleanNew).Done?) then None else f.next
  {
    DriveStep(s, r, 5);
    var s1 := Step(s, Op(r(MoveExe)));
    DriveStep(s1, r, 4);
    var s2 := Step(s1, Op(r(s1.proc.stage)));
    DriveStep(s2, r, 3);
    if s2.proc.Busy? {
      var s3 := Step(s2, Op(r(s2.proc.stage)));
      DriveStep(s3, r, 2);
    }
    hide Drive;
  }

  /** How a rollback ends, whatever of it fails: with the old program back exactly when a .failed file, if there is one,
      can be removed and both renamings succeed; otherwise with the running program where it was and the copy kept,
      except when the renaming back fails too, and then both are beside an empty place. */
  lemma RollbackOutcome(s: State, r: Stage -> Reply)
    requires s.proc.Running? && !s.proc.ready && OffersRollback(s.files) && s.files.exe.Some?
    ensures var f, end := s.files, Drive(Step(s, BeginRollback), r, LONGEST);
      var cleared := r(DropFailed).Done? || f.failed.None?;
      var moved := cleared && r(MoveAway).Done?;
      var back, stranded := moved && r(PutOld).Done?, moved && !r(PutOld).Done? && !r(Restore).Done?;
      && end.confirmed == s.confirmed && end.files.next == f.next
      && end.proc == (if back then Idle else s.proc)
      && end.files.exe == (if back then f.prev else if stranded then None else f.exe)
      && end.files.prev == (if back then None else f.prev)
      && end.files.failed == (if back || stranded then f.exe else if cleared then None else f.failed)
      && end.files.marker == if back && r(ClearMark).Done? then Absent else f.marker
  {
    var s0 := Step(s, BeginRollback);
    DriveStep(s0, r, 8);
    var s1 := Step(s0, Op(r(DropFailed)));
    DriveStep(s1, r, 7);
    if s1.proc.Busy? {
      var s2 := Step(s1, Op(r(MoveAway)));
      DriveStep(s2, r, 6);
      if s2.proc.Busy? {
        var s3 := Step(s2, Op(r(PutOld)));
        DriveStep(s3, r, 5);
        DriveStep(Step(s3, Op(r(s3.proc.stage))), r, 4);
      }
    }
    hide Drive;
  }

  /** A confirmation goes on after a failure: each of the three files goes exactly when its removal succeeds. */
  lemma ConfirmOutcome(s: State, r: Stage -> Reply)
    requires s.proc.Running? && !s.proc.ready
    ensures var f, end := s.files, Drive(Step(s, BeginConfirm), r, LONGEST);
      && end.proc == Running(s.proc.image, true) && end.confirmed == s.proc.image
      && end.files == f.(marker := if r(ConfirmMark).Done? then Absent else f.marker,
                         prev := if r(ConfirmOld).Done? then None else f.prev,
                         failed := if r(ConfirmFailed).Done? then None else f.failed)
  {
    var s0 := Step(s, BeginConfirm);
    DriveStep(s0, r, 8);
    var s1 := Step(s0, Op(r(ConfirmMark)));
    DriveStep(s1, r, 7);
    var s2 := Step(s1, Op(r(ConfirmOld)));
    DriveStep(s2, r, 6);
    DriveStep(Step(s2, Op(r(ConfirmFailed))), r, 5);
    hide Drive;
  }

  class Installation {
    var exe: Option<Image>
    var prev: Option<Image>
    var next: Option<Image>
    var failed: Option<Image>
    var marker: Marker

    constructor (program: Image)
      ensures View() == Files(Some(program), None, None, None, Absent)
    {
      exe, prev, next, failed, marker := Some(program), None, None, None, Absent;
    }

    function View(): Files
      reads this
    {
      Files(exe, prev, next, failed, marker)
    }

    method WritePending(r: Reply) returns (ok: bool)
      modifies this`marker
      ensures View() == WriteMarker(old(View()), r) && (ok <==> r.Done?)
    {
      if r.Done? {
        marker := Readable;
      } else if r.Partial? {
        marker := Corrupt;
      }
      ok := r.Done?;
    }

    method PrepareStart(r: Reply) returns (offer: bool)
      modifies this`marker
      ensures View() == Prepared(old(View()), r)
      ensures offer == OffersRollback(old(View()))
    {
      if prev.None? || marker.Corrupt? {
        return false;
      }
      if marker.Readable? {
        return true;
      }
      var _ := WritePending(r);
      offer := false;
    }

    method ApplyAndRestart(image: Image, v: int, replies: Stage -> Reply, ghost c: Image) returns (ok: bool)
      modifies this
      ensures Drive(State(old(View()), Busy(image, v, Extract), c), replies, LONGEST) ==
              State(View(), if ok then Idle else Running(image, true), c)
    {
      ghost var s0 := State(View(), Busy(image, v, Extract), c);
      if !replies(Extract).Done? {
        if replies(Extract).Partial? {
          next := Some(Junk);
        }
        assert Drive(s0, replies, 1) == State(View(), Running(image, true), c);
        DriveMore(s0, replies, 1, LONGEST);
        return false;
      }
      next := Some(Version(v));
      ghost var s1 := Drive(s0, replies, 1);
      DriveMore(s0, replies, 1, LONGEST);
      var marked := WritePending(replies(Mark));
      ghost var s2 := Drive(s1, replies, 1);
      DriveMore(s1, replies, 1, 7);
      if !marked {
        if replies(CleanNew).Done? {
          next := None;
        }
        assert Drive(s2, replies, 1) == State(View(), Running(image, true), c);
        DriveMore(s2, replies, 1, 6);
        return false;
      }
      if replies(DropOld).Done? {
        prev := None;
      }
      ghost var s3 := Drive(s2, replies, 1);
      DriveMore(s2, replies, 1, 6);
      assert s3 == State(View(), Busy(image, v, MoveExe), c);
      ok := ReplaceProgram(image, v, replies, c);
    }

    /** The program goes to .old, the new one takes its place; what cannot be replaced is put back. */
    method ReplaceProgram(image: Image, v: int, replies: Stage -> Reply, ghost c: Image) returns (ok: bool)
      modifies this
      ensures Drive(State(old(View()), Busy(image, v, MoveExe), c), replies, 5) ==
              State(View(), if ok then Idle else Running(image, true), c)
    {
      hide Drive;
      ghost var s0 := State(View(), Busy(image, v, MoveExe), c);
      ghost var s1 := Step(s0, Op(replies(MoveExe)));
      DriveStep(s0, replies, 5);
      DriveStep(s1, replies, 4);
      if !replies(MoveExe).Done? || exe.None? {
        if replies(CleanNew).Done? {
          next := None;
        }
        DriveStep(Step(s1, Op(replies(CleanNew))), replies, 3);
        return false;
      }
      prev, exe := exe, None;
      ghost var s2 := Step(s1, Op(replies(MoveNew)));
      DriveStep(s2, replies, 3);
      if !replies(MoveNew).Done? || next.None? {
        if replies(PutBack).Done? {
          exe, prev := prev, None;
        }
        DriveStep(Step(s2, Op(replies(PutBack))), replies, 2);
        return false;
      }
      exe, next := next, None;
      ok := replies(Spawn).Done?;
      DriveStep(Step(s2, Op(replies(Spawn))), replies, 2);
    }

    method ConfirmHealthy(image: Image, replies: Stage -> Reply)
      modifies this
      ensures Drive(State(old(View()), Busy(image, 0, ConfirmMark), image), replies, LONGEST) == State(View(), Running(image, true), image)
    {
      ghost var s0 := State(View(), Busy(image, 0, ConfirmMark), image);
      if replies(ConfirmMark).Done? {
        marker := Absent;
      }
      ghost var s1 := Drive(s0, replies, 1);
      DriveMore(s0, replies, 1, LONGEST);
      if replies(ConfirmOld).Done? {
        prev := None;
      }
      ghost var s2 := Drive(s1, replies, 1);
      DriveMore(s1, replies, 1, 7);
      if replies(ConfirmFailed).Done? {
        failed := None;
      }
      assert Drive(s2, replies, 1) == State(View(), Running(image, true), image);
      DriveMore(s2, replies, 1, 6);
    }

    /** Needs the .old copy; on success it is the program again and the bad one is kept as .failed. */
    method Rollback(image: Image, replies: Stage -> Reply, ghost c: Image) returns (ok: bool)
      modifies this
      ensures old(prev).None? ==> !ok && View() == old(View())
      ensures old(prev).Some? ==> Drive(State(old(View()), Busy(image, 0, DropFailed), c), replies, LONGEST) ==
                                  State(View(), if ok then Idle else Running(image, false), c)
      ensures ok ==> exe == old(prev) && failed == old(exe) && prev.None?
    {
      if prev.None? {
        return false;
      }
      ghost var s0 := State(View(), Busy(image, 0, DropFailed), c);
      ghost var s1 := Drive(s0, replies, 1);
      DriveMore(s0, replies, 1, LONGEST);
      if failed.Some? {
        if !replies(DropFailed).Done? {
          assert s1 == State(View(), Running(image, false), c);
          return false;
        }
        failed := None;
      }
      ghost var s2 := Drive(s1, replies, 1);
      DriveMore(s1, replies, 1, 7);
      if !replies(MoveAway).Done? || exe.None? {
        assert s2 == State(View(), Running(image, false), c);
        return false;
      }
      failed, exe := exe, None;
      assert s2 == State(View(), Busy(image, 0, PutOld), c);
      ok := PutOldBack(image, replies, c);
    }

    /** The old copy becomes the program; if it cannot, the one moved away comes back. */
    method PutOldBack(image: Image, replies: Stage -> Reply, ghost c: Image) returns (ok: bool)
      requires prev.Some? && failed.Some? && exe.None?
      modifies this
      ensures Drive(State(old(View()), Busy(image, 0, PutOld), c), replies, 6) == State(View(), if ok then Idle else Running(image, false), c)
      ensures ok ==> exe == old(prev) && failed == old(failed) && prev.None?
    {
      ghost var s0 := State(View(), Busy(image, 0, PutOld), c);
      ghost var s1 := Drive(s0, replies, 1);
      DriveMore(s0, replies, 1, 6);
      if !replies(PutOld).Done? {
        if replies(Restore).Done? {
          exe, failed := failed, None;
        }
        assert Drive(s1, replies, 1) == State(View(), Running(image, false), c);
        DriveMore(s1, replies, 1, 5);
        return false;
      }
      exe, prev := prev, None;
      if replies(ClearMark).Done? {
        marker := Absent;
      }
      assert Drive(s1, replies, 1) == State(View(), Idle, c);
      DriveMore(s1, replies, 1, 5);
      ok := true;
    }
  }
}
