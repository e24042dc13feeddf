/** What follows the creation of a table: four effects whose failures become warnings. */
module PostCreate {
  import opened Warnings

  datatype Stage = Refresh | Dirty | Selection | History

  const STAGES: seq<Stage> := [Refresh, Dirty, Selection, History]

  datatype PostCreateWarnings = PostCreateWarnings(refresh: Warning, dirty: Warning, selection: Warning,
      history: Warning)

  const TABLE_CREATE_WARNINGS := PostCreateWarnings(
    "table_create_refresh_failed",
    "table_create_mark_dirty_failed",
    "table_create_activate_dataset_failed",
    "table_create_history_failed")

  const SQL_CREATE_WARNINGS := PostCreateWarnings(
    "sql_create_refresh_failed",
    "sql_create_mark_dirty_failed",
    "sql_create_activate_dataset_failed",
    "sql_create_history_failed")

  function CodeFor(codes: PostCreateWarnings, stage: Stage): Warning {
    match stage
    case Refresh => codes.refresh
    case Dirty => codes.dirty
    case Selection => codes.selection
    case History => codes.history
  }

  ghost predicate Distinct(codes: PostCreateWarnings) {
    forall s, t :: s != t ==> CodeFor(codes, s) != CodeFor(codes, t)
  }

  /** The warnings of the stages that ran and failed, in the order they ran. */
  function Failures(ran: seq<Stage>, fails: Stage -> bool, codes: PostCreateWarnings): seq<Warning> {
    if ran == [] then []
    else Failures(ran[..|ran| - 1], fails, codes) +
         (if fails(ran[|ran| - 1]) then [CodeFor(codes, ran[|ran| - 1])] else [])
  }

  /** The currency checks that pass: all of them up to the first that throws. */
  ghost predicate PassesUpTo(current: nat -> bool, n: nat) {
    && n <= |STAGES|
    && (forall i | 0 <= i < n :: current(i))
    && (n < |STAGES| ==> !current(n))
  }

  method RunStage(stage: Stage, fails: Stage -> bool, warnings: WarningList, codes: PostCreateWarnings,
                  ran: seq<Stage>, ghost was: seq<Warning>)
    returns (ran': seq<Stage>)
    requires warnings.items == was + Failures(ran, fails, codes)
    modifies warnings
    ensures ran' == ran + [stage]
    ensures warnings.items == was + Failures(ran', fails, codes)
  {
    ran' := ran + [stage];
    assert ran'[..|ran|] == ran;
    if fails(stage) {
      warnings.Push(CodeFor(codes, stage));
    }
  }

  /**
   `runPostCreateCoordinator`. `current(i)` says whether the i-th currency check returns (always, when the caller passes
   none) and `fails(s)` whether the effect of stage s throws. Whatever the effects do, the stages that ran are the first
   ones in the fixed order, up to the first check that threw, and the caller's list has gained their failures only.
   */
  method RunPostCreate(current: nat -> bool, fails: Stage -> bool, warnings: WarningList, codes: PostCreateWarnings)
    returns (ran: seq<Stage>, thrown: bool)
    modifies warnings
    ensures PassesUpTo(current, |ran|) && ran == STAGES[..|ran|] && STAGES == [Refresh, Dirty, Selection, History]
    ensures thrown <==> ran != STAGES
    ensures warnings.items == old(warnings.items) + Failures(ran, fails, codes)
  {
    ran := [];
    ghost var was := warnings.items;
    if !current(0) { return ran, true; }
    ran := RunStage(Refresh, fails, warnings, codes, ran, was);
    if !current(1) { return ran, true; }
    ran := RunStage(Dirty, fails, warnings, codes, ran, was);
    if !current(2) { return ran, true; }
    ran := RunStage(Selection, fails, warnings, codes, ran, was);
    if !current(3) { return ran, true; }
    ran := RunStage(History, fails, warnings, codes, ran, was);
    thrown := false;
  }

  /** Both tables of codes tell the stages apart. */
  lemma CodesAreDistinct()
    ensures Distinct(TABLE_CREATE_WARNINGS) && Distinct(SQL_CREATE_WARNINGS)
  {
    assert TABLE_CREATE_WARNINGS.refresh[13] != TABLE_CREATE_WARNINGS.history[13];
    assert SQL_CREATE_WARNINGS.refresh[11] != SQL_CREATE_WARNINGS.history[11];
  }

  /** A stage that ran and failed left its warning exactly once; every other stage left none. */
  lemma {:induction false} EachFailureWarnsOnce(ran: seq<Stage>, fails: Stage -> bool, codes: PostCreateWarnings,
      stage: Stage)
    requires Distinct(codes) && forall i, j | 0 <= i < j < |ran| :: ran[i] != ran[j]
    ensures Count(Failures(ran, fails, codes), CodeFor(codes, stage)) == if stage in ran && fails(stage) then 1 else 0
  {
    if ran == [] {
    } else {
      var before, last := ran[..|ran| - 1], ran[|ran| - 1];
      EachFailureWarnsOnce(before, fails, codes, stage);
      OneMoreFailure(ran, fails, codes, CodeFor(codes, stage));
      assert stage in ran <==> stage in before || stage == last;
      assert stage == last ==> stage !in before;
    }
  }

  lemma OneMoreFailure(ran: seq<Stage>, fails: Stage -> bool, codes: PostCreateWarnings, code: Warning)
    requires ran != []
    ensures var before, last := ran[..|ran| - 1], ran[|ran| - 1];
            Count(Failures(ran, fails, codes), code) ==
              Count(Failures(before, fails, codes), code) + if fails(last) && CodeFor(codes, last) == code then 1 else 0
  {
  }

  /** No other warning appears. */
  lemma {:induction false} OnlyFailuresWarn(ran: seq<Stage>, fails: Stage -> bool, codes: PostCreateWarnings,
      code: Warning)
    returns (stage: Stage)
    requires code in Failures(ran, fails, codes)
    ensures stage in ran && fails(stage) && code == CodeFor(codes, stage)
  {
    var before, last := ran[..|ran| - 1], ran[|ran| - 1];
    if code in Failures(before, fails, codes) {
      stage := OnlyFailuresWarn(before, fails, codes, code);
    } else {
      stage := last;
    }
  }

  /** How often a code is among the warnings of the stages that ran, and how often it should be. */
  function Warned(ran: seq<Stage>, fails: Stage -> bool, codes: PostCreateWarnings, code: Warning): nat {
    Count(Failures(ran, fails, codes), code)
  }

  function Failed(ran: seq<Stage>, fails: Stage -> bool, stage: Stage): nat {
    if stage in ran && fails(stage) then 1 else 0
  }

  lemma WarnedAsFailed(ran: seq<Stage>, fails: Stage -> bool, codes: PostCreateWarnings)
    requires Distinct(codes) && forall i, j | 0 <= i < j < |ran| :: ran[i] != ran[j]
    ensures forall stage :: Warned(ran, fails, codes, CodeFor(codes, stage)) == Failed(ran, fails, stage)
  {
    forall stage ensures Warned(ran, fails, codes, CodeFor(codes, stage)) == Failed(ran, fails, stage) {
      EachFailureWarnsOnce(ran, fails, codes, stage);
    }
  }

  /** After a created table, each code is there exactly when the stage it names ran and failed, and then once. */
  lemma TableWarningsName(ran: seq<Stage>, fails: Stage -> bool)
    requires forall i, j | 0 <= i < j < |ran| :: ran[i] != ran[j]
    ensures var codes := TABLE_CREATE_WARNINGS;
            && Warned(ran, fails, codes, "table_create_refresh_failed") == Failed(ran, fails, Refresh)
            && Warned(ran, fails, codes, "table_create_mark_dirty_failed") == Failed(ran, fails, Dirty)
            && Warned(ran, fails, codes, "table_create_activate_dataset_failed") == Failed(ran, fails, Selection)
            && Warned(ran, fails, codes, "table_create_history_failed") == Failed(ran, fails, History)
  {
    CodesAreDistinct();
    WarnedAsFailed(ran, fails, TABLE_CREATE_WARNINGS);
  }

  /** The same after a table created from SQL, with its own codes. */
  lemma SqlWarningsName(ran: seq<Stage>, fails: Stage -> bool)
    requires forall i, j | 0 <= i < j < |ran| :: ran[i] != ran[j]
    ensures var codes := SQL_CREATE_WARNINGS;
            && Warned(ran, fails, codes, "sql_create_refresh_failed") == Failed(ran, fails, Refresh)
            && Warned(ran, fails, codes, "sql_create_mark_dirty_failed") == Failed(ran, fails, Dirty)
            && Warned(ran, fails, codes, "sql_create_activate_dataset_failed") == Failed(ran, fails, Selection)
            && Warned(ran, fails, codes, "sql_create_history_failed") == Failed(ran, fails, History)
  {
    CodesAreDistinct();
    WarnedAsFailed(ran, fails, SQL_CREATE_WARNINGS);
  }
}
