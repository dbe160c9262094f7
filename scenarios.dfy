/** Concrete runs taken from the repository's test suite, stated over the
    models of the migrators. */
module Scenarios {
  import opened Json
  import opened Tally
  import opened Migration
  import AppConfig
  import DashboardPrepare
  import opened DashboardsSync

  /** The configuration the dashboard tests start from: both backends set,
      duplicates skipped. */
  const TestSettings: AppConfig.Settings :=
    AppConfig.Defaults.(sourceToken := "test", sourceUrl := "http://test.com",
                        targetToken := "test", targetUrl := "http://test.com", onDuplicate := "skip")

  const SkipSource: seq<Obj> := [map[
    "id" := JStr("1"), "title" := JStr("Test Dashboard"), "owner" := JStr("src_user1"),
    "widgets" := JArr([JObj(map["id" := JStr("w1"), "width" := JInt(1), "height" := JInt(1), "config" := JObj(map[])])])]]

  const SkipTarget: seq<Obj> := [map["id" := JStr("2"), "title" := JStr("Test Dashboard")]]

  const TestUsers: seq<Obj> := [map["id" := JStr("src_user1"), "email" := JStr("test@example.com")]]

  /** `test_migrate_skip_existing`: the one source dashboard has a title the
      target already has, so the synchronous run skips it and migrates
      nothing, whatever the target would have answered. */
  lemma SkipExistingDashboard(interactive: bool, typed: seq<string>, api: WriteApi)
    ensures SyncRun(TestSettings, SyncIo(interactive, typed, Some(SkipSource), Some(SkipTarget),
                                         Some(TestUsers), Some(TestUsers), api))
            == Finished(Summary(1, 0, 0, 1))
  {
    var io := SyncIo(interactive, typed, Some(SkipSource), Some(SkipTarget), Some(TestUsers), Some(TestUsers), api);
    LoopSkipsTheDuplicate(Context(TestSettings, io, SkipTarget), typed);
    TestSettingsValid();
    DashboardsSync.RunIsLoop(TestSettings, io);
  }

  /** The loop over the test's single source dashboard counts it as skipped. */
  lemma LoopSkipsTheDuplicate(ctx: SyncContext, typed: seq<string>)
    requires ctx.onDuplicate == "skip" && ctx.titles == TruthyValues(SkipTarget, "title")
    ensures SyncLoop(SkipSource, ctx, typed, Counters(0, 0, 0)) == Ended(Counters(0, 0, 1), false)
  {
    var d := SkipSource[0];
    SourceDashboardAccepted();
    assert Get(d, "title") in ctx.titles by { TitleAlreadyThere(); }
    assert SyncItem(d, ctx, typed) == Counted(Skipped, typed);
    OneCountedItem(d, ctx, typed, Counters(0, 0, 0));
    assert SkipSource == [d];
  }

  lemma TestSettingsValid()
    ensures AppConfig.ValidationError(TestSettings) == None
  {
  }

  /** The test's source dashboard passes preparation: its widget has an id
      and a positive width and height. */
  lemma SourceDashboardAccepted()
    ensures DashboardPrepare.PrepareVerdict(SkipSource[0]) == DashboardPrepare.Accepted
  {
  }

  lemma TitleAlreadyThere()
    ensures Get(SkipSource[0], "title") in TruthyValues(SkipTarget, "title")
  {
  }
}
