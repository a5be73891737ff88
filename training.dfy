/** The training view: coach-assigned modules of lessons shown as an accordion in which at
    most one module is expanded, with lesson totals counted over all modules. */
module Training {
  import opened Slot

  datatype LessonStatus = Completed | InProgress | Locked

  datatype LessonType = Video | Quiz | Drill

  datatype Lesson = Lesson(
    id: string,
    title: string,
    description: string,
    kind: LessonType,
    duration: string,
    status: LessonStatus,
    progress: Option<int>,
    dueDate: Option<string>)

  /** `progress` is the figure authored for the module header, in percent. */
  datatype Module = Module(id: string, title: string, lessons: seq<Lesson>, progress: int)

  const AttackingMovement: Module := Module("1", "Attacking Movement", [
    Lesson("1a", "Creating Space in the Box", "Learn positioning techniques for strikers", Video, "12 min", Completed, None, None),
    Lesson("1b", "Movement Quiz", "Test your understanding", Quiz, "5 min", Completed, None, None),
    Lesson("1c", "Overlapping Runs", "Timing your runs with wingers", Video, "8 min", InProgress, Some(60), None),
    Lesson("1d", "Practice Drill", "Movement patterns to practice", Drill, "15 min", Locked, None, Some("Dec 30"))
  ], 75)

  const FinishingTechniques: Module := Module("2", "Finishing Techniques", [
    Lesson("2a", "One-on-One Situations", "Composure in front of goal", Video, "10 min", Completed, None, None),
    Lesson("2b", "Header Accuracy", "Directing headers on target", Video, "8 min", InProgress, Some(30), None),
    Lesson("2c", "Finishing Quiz", "Test your technique knowledge", Quiz, "5 min", Locked, None, None)
  ], 33)

  const TeamTactics: Module := Module("3", "Team Tactics", [
    Lesson("3a", "Pressing Triggers", "When to press as a unit", Video, "15 min", Locked, None, None),
    Lesson("3b", "Set Piece Roles", "Your responsibilities", Drill, "10 min", Locked, None, None)
  ], 0)

  const Modules: seq<Module> := [AttackingMovement, FinishingTechniques, TeamTactics]

  /** The icon drawn for a lesson that is not completed. */
  datatype Icon = VideoIcon | BookOpenIcon | TargetIcon

  /** `getTypeIcon`: one icon per lesson type, a different one for each. */
  function TypeIcon(t: LessonType): (icon: Icon)
    ensures t == Video <==> icon == VideoIcon
    ensures t == Quiz <==> icon == BookOpenIcon
    ensures t == Drill <==> icon == TargetIcon
  {
    match t
    case Video => VideoIcon
    case Quiz => BookOpenIcon
    case Drill => TargetIcon
  }

  /** `lessons.filter(l => l.status === "completed").length`. */
  function CountCompleted(ls: seq<Lesson>): nat {
    if ls == [] then 0 else (if ls[0].status == Completed then 1 else 0) + CountCompleted(ls[1..])
  }

  /** The `reduce` fold `(acc, m) => acc + m.lessons.length` from start value `acc`;
      `TotalLessons` starts it at 0. */
  function SumLessons(acc: nat, ms: seq<Module>): nat
    decreases |ms|
  {
    if ms == [] then acc else SumLessons(acc + |ms[0].lessons|, ms[1..])
  }

  /** The `reduce` fold adding each module's completed lessons, from start value `acc`;
      `CompletedLessons` starts it at 0. */
  function SumCompleted(acc: nat, ms: seq<Module>): nat
    decreases |ms|
  {
    if ms == [] then acc else SumCompleted(acc + CountCompleted(ms[0].lessons), ms[1..])
  }

  function TotalLessons(ms: seq<Module>): nat { SumLessons(0, ms) }

  function CompletedLessons(ms: seq<Module>): nat { SumCompleted(0, ms) }

  /** Every lesson of every module, module by module. */
  function AllLessons(ms: seq<Module>): seq<Lesson>
    decreases |ms|
  {
    if ms == [] then [] else ms[0].lessons + AllLessons(ms[1..])
  }

  lemma {:induction false} CountCompletedAppend(a: seq<Lesson>, b: seq<Lesson>)
    ensures CountCompleted(a + b) == CountCompleted(a) + CountCompleted(b)
  {
    if a != [] {
      CountCompletedAppend(a[1..], b);
      assert (a + b)[1..] == a[1..] + b;
    } else {
      assert a + b == b;
    }
  }

  lemma {:induction false} CountCompletedBound(ls: seq<Lesson>)
    ensures CountCompleted(ls) <= |ls|
  {
    if ls != [] {
      CountCompletedBound(ls[1..]);
    }
  }

  /** The fold from any start value adds the number of all lessons. */
  lemma {:induction false} SumLessonsCounts(acc: nat, ms: seq<Module>)
    ensures SumLessons(acc, ms) == acc + |AllLessons(ms)|
    decreases |ms|
  {
    if ms != [] {
      SumLessonsCounts(acc + |ms[0].lessons|, ms[1..]);
    }
  }

  /** The fold from any start value adds the number of completed lessons of all modules. */
  lemma {:induction false} SumCompletedCounts(acc: nat, ms: seq<Module>)
    ensures SumCompleted(acc, ms) == acc + CountCompleted(AllLessons(ms))
    decreases |ms|
  {
    if ms != [] {
      SumCompletedCounts(acc + CountCompleted(ms[0].lessons), ms[1..]);
      CountCompletedAppend(ms[0].lessons, AllLessons(ms[1..]));
    }
  }

  /** The header figures: total is the number of lessons over all modules, completed the
      number of those whose status is completed, and completed never exceeds total. */
  lemma LessonTotals(ms: seq<Module>)
    ensures TotalLessons(ms) == |AllLessons(ms)|
    ensures CompletedLessons(ms) == CountCompleted(AllLessons(ms))
    ensures CompletedLessons(ms) <= TotalLessons(ms)
  {
    SumLessonsCounts(0, ms);
    SumCompletedCounts(0, ms);
    CountCompletedBound(AllLessons(ms));
  }

  /** The counts read lesson statuses only: modules with the same lessons give the same
      counts whatever their authored progress figures. */
  lemma {:induction false} CountsIgnoreProgress(ms: seq<Module>, ns: seq<Module>)
    requires |ms| == |ns|
    requires forall i :: 0 <= i < |ms| ==> ms[i].lessons == ns[i].lessons
    ensures AllLessons(ms) == AllLessons(ns)
    ensures TotalLessons(ms) == TotalLessons(ns) && CompletedLessons(ms) == CompletedLessons(ns)
    decreases |ms|
  {
    if ms != [] {
      CountsIgnoreProgress(ms[1..], ns[1..]);
    }
    LessonTotals(ms);
    LessonTotals(ns);
  }

  /** The seed modules: 9 lessons, 3 of them completed; and the authored 75 percent of the
      first module is not its completed share (2 of 4 lessons). */
  lemma SeedCounts()
    ensures TotalLessons(Modules) == 9 && CompletedLessons(Modules) == 3
    ensures AttackingMovement.progress * |AttackingMovement.lessons| != 100 * CountCompleted(AttackingMovement.lessons)
  {
    var a, f, t := AttackingMovement.lessons, FinishingTechniques.lessons, TeamTactics.lessons;
    assert CountCompleted(a) == 2 by {
      assert a[1..][1..][1..][1..] == [];
    }
    assert CountCompleted(f) == 1 by {
      assert f[1..][1..][1..] == [];
    }
    assert CountCompleted(t) == 0 by {
      assert t[1..][1..] == [];
    }
    var ms := Modules;
    assert ms[2..][1..] == ms[3..] == [];
    assert AllLessons(ms[2..]) == t + [];
    assert ms[1..][1..] == ms[2..];
    assert AllLessons(ms[1..]) == f + (t + []);
    assert AllLessons(ms) == a + (f + (t + []));
    CountCompletedAppend(t, []);
    CountCompletedAppend(f, t + []);
    CountCompletedAppend(a, f + (t + []));
    LessonTotals(ms);
  }

  predicate UniqueModuleIds(ms: seq<Module>) {
    forall i, j :: 0 <= i < j < |ms| ==> ms[i].id != ms[j].id
  }

  /** The seed modules have distinct ids, so `OneModuleExpanded` applies to them. */
  lemma SeedModuleIds()
    ensures UniqueModuleIds(Modules)
  {
  }

  /** A module's lessons are drawn when the slot names it. */
  predicate Expanded(slot: Option<string>, m: Module) { slot == Some(m.id) }

  /** With distinct module ids, at most one module is expanded. */
  lemma OneModuleExpanded(ms: seq<Module>, slot: Option<string>, i: nat, j: nat)
    requires UniqueModuleIds(ms) && i < |ms| && j < |ms|
    requires Expanded(slot, ms[i]) && Expanded(slot, ms[j])
    ensures i == j
  {
  }

  /** The view's one state slot, the expanded module's id. */
  class TrainingView {
    var activeModule: Option<string>

    constructor ()
      ensures activeModule == Some("1")
    {
      activeModule := Some("1");
    }

    /** A click on a module header: collapses it when expanded, otherwise expands it (and
        so collapses the one that was). */
    method ToggleModule(id: string)
      modifies this
      ensures activeModule == Toggle(old(activeModule), id)
    {
      activeModule := Toggle(activeModule, id);
    }
  }

  /** From the initial slot: clicking module 2 switches to it, clicking it again collapses
      it, clicking module 1 expands module 1 again. */
  method SeedClicks() returns (slots: seq<Option<string>>)
    ensures slots == [Some("1"), Some("2"), None, Some("1")]
  {
    var view := new TrainingView();
    slots := [view.activeModule];
    view.ToggleModule("2");
    slots := slots + [view.activeModule];
    view.ToggleModule("2");
    slots := slots + [view.activeModule];
    view.ToggleModule("1");
    slots := slots + [view.activeModule];
  }
}
