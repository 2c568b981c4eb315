/**
 * The repository list of the package client, as far as the main display looks at it,
 * and the loop that folds the per-repository health flags into the display's two flags.
 */
module Repos {
  /** One repository of the client: whether its metadata loaded, whether it is enabled, and its URL. */
  datatype Repo = Repo(loaded: bool, enabled: bool, url: string)

  /** The package client after construction: its repositories and its temporary directory. */
  datatype Client = Client(repos: seq<Repo>, tmpPath: string)

  /** OR-fold of "not loaded" over the list, taken in list order. */
  function AnyUnloaded(repos: seq<Repo>): bool
  {
    if repos == [] then false
    else AnyUnloaded(repos[..|repos| - 1]) || !repos[|repos| - 1].loaded
  }

  /** OR-fold of "enabled" over the list, taken in list order. */
  function AnyEnabled(repos: seq<Repo>): bool
  {
    if repos == [] then false
    else AnyEnabled(repos[..|repos| - 1]) || repos[|repos| - 1].enabled
  }

  /** The fold finds an unloaded repository exactly when one exists. */
  lemma {:induction false} AnyUnloadedIff(repos: seq<Repo>)
    ensures AnyUnloaded(repos) <==> exists i :: 0 <= i < |repos| && !repos[i].loaded
  {
    if repos != [] {
      var init := repos[..|repos| - 1];
      AnyUnloadedIff(init);
      if AnyUnloaded(init) {
        var i :| 0 <= i < |init| && !init[i].loaded;
        assert repos[i] == init[i];
      }
      if exists i :: 0 <= i < |repos| && !repos[i].loaded {
        var i :| 0 <= i < |repos| && !repos[i].loaded;
        if i < |init| {
          assert init[i] == repos[i];
        }
      }
    }
  }

  /** The fold finds an enabled repository exactly when one exists. */
  lemma {:induction false} AnyEnabledIff(repos: seq<Repo>)
    ensures AnyEnabled(repos) <==> exists i :: 0 <= i < |repos| && repos[i].enabled
  {
    if repos != [] {
      var init := repos[..|repos| - 1];
      AnyEnabledIff(init);
      if AnyEnabled(init) {
        var i :| 0 <= i < |init| && init[i].enabled;
        assert repos[i] == init[i];
      }
      if exists i :: 0 <= i < |repos| && repos[i].enabled {
        var i :| 0 <= i < |repos| && repos[i].enabled;
        if i < |init| {
          assert init[i] == repos[i];
        }
      }
    }
  }

  /**
   * The loop over the client's repositories: each step ORs "not loaded" into the
   * error flag and "enabled" into the enabled flag. Starting from a clear error flag,
   * a set error flag means the list has a first element to report.
   */
  method ScanRepos(error0: bool, enabled0: bool, repos: seq<Repo>) returns (error: bool, atLeastOneEnabled: bool)
    ensures error == (error0 || AnyUnloaded(repos))
    ensures atLeastOneEnabled == (enabled0 || AnyEnabled(repos))
    ensures error && !error0 ==> |repos| > 0
  {
    error, atLeastOneEnabled := error0, enabled0;
    for i := 0 to |repos|
      invariant error == (error0 || AnyUnloaded(repos[..i]))
      invariant atLeastOneEnabled == (enabled0 || AnyEnabled(repos[..i]))
    {
      assert repos[..i + 1][..i] == repos[..i];
      error := error || !repos[i].loaded;
      atLeastOneEnabled := atLeastOneEnabled || repos[i].enabled;
    }
    assert repos[..|repos|] == repos;
  }
}
