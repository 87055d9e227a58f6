/** The resolver chain on the concrete remotes and stubs the Go tests use:
    an "origin" remote on owner/fork and an "upstream" remote on owner/repo,
    the latter marked as the resolved default in the interactive cases. */
module BaseRepoScenarios {
  import opened Options
  import opened GhRepo
  import opened Context
  import opened BaseRepo

  const OwnerRepo := Repository("owner", "repo")
  const OwnerFork := Repository("owner", "fork")

  const OneRemote: Remotes := [Remote("origin", "", OwnerRepo)]
  const TwoRemotes: Remotes := [Remote("origin", "", OwnerFork), Remote("upstream", "", OwnerRepo)]
  const TwoRemotesUpstreamResolved: Remotes :=
    [Remote("origin", "", OwnerFork), Remote("upstream", "base", OwnerRepo)]

  const BaseRepoStub := Base(Ok(OwnerRepo))
  const BaseRepoErrorStub := Base(Err(Failure("test base repo error")))
  const AmbiguityStub := Base(Err(AmbiguousBaseRepo(TwoRemotesUpstreamResolved)))

  /** A prompter that picks the first position of "owner/repo" among the
      options, and fails when it is not offered. */
  function PickOwnerRepo(text: string, default: string, options: seq<string>): (r: Result<int>)
    ensures r.Ok? ==> 0 <= r.value < |options| && options[r.value] == "owner/repo"
    ensures r.Ok? ==> forall j :: 0 <= j < r.value ==> options[j] != "owner/repo"
    ensures r.Err? ==> "owner/repo" !in options
  {
    if options == [] then Err(Failure("not found"))
    else if options[0] == "owner/repo" then Ok(0)
    else
      assert options == [options[0]] + options[1..];
      match PickOwnerRepo(text, default, options[1..])
      case Ok(k) => Ok(k + 1)
      case Err(e) => Err(e)
  }

  /** With one remote the strict wrapper returns the inner repository. */
  lemma StrictOneRemote()
    ensures Defined(RequireNoAmbiguity(BaseRepoStub, Ok(OneRemote)))
    ensures Eval(RequireNoAmbiguity(BaseRepoStub, Ok(OneRemote))).result == Ok(OwnerRepo)
  {
  }

  /** With two remotes the strict wrapper fails with the signal over both, in order. */
  lemma StrictTwoRemotes()
    ensures Defined(RequireNoAmbiguity(BaseRepoStub, Ok(TwoRemotes)))
    ensures Eval(RequireNoAmbiguity(BaseRepoStub, Ok(TwoRemotes))).result
         == Err(AmbiguousBaseRepo(TwoRemotes))
  {
  }

  /** A remotes lookup error is what the strict wrapper returns. */
  lemma StrictRemotesError()
    ensures Defined(RequireNoAmbiguity(BaseRepoStub, Err(Failure("test remote error"))))
    ensures Eval(RequireNoAmbiguity(BaseRepoStub, Err(Failure("test remote error")))).result
         == Err(Failure("test remote error"))
  {
  }

  /** An inner resolver error is what the strict wrapper returns. */
  lemma StrictInnerError()
    ensures Defined(RequireNoAmbiguity(BaseRepoErrorStub, Ok(OneRemote)))
    ensures Eval(RequireNoAmbiguity(BaseRepoErrorStub, Ok(OneRemote))).result
         == Err(Failure("test base repo error"))
  {
  }

  /** A successful inner resolver needs no prompter. */
  lemma InteractiveNilPrompterSucceeds()
    ensures Defined(PromptWhenAmbiguous(BaseRepoStub, None))
    ensures Eval(PromptWhenAmbiguous(BaseRepoStub, None)) == Run(Ok(OwnerRepo), [BaseCalled])
  {
  }

  /** A non-ambiguity inner error passes through without a prompter. */
  lemma InteractiveNilPrompterForwardsError()
    ensures Defined(PromptWhenAmbiguous(BaseRepoErrorStub, None))
    ensures Eval(PromptWhenAmbiguous(BaseRepoErrorStub, None)).result
         == Err(Failure("test base repo error"))
  {
  }

  /** The prompt over the test remotes offers both labels in remote order and
      defaults to the resolved upstream. */
  lemma PromptArgumentsOfTestRemotes()
    ensures Labels(TwoRemotesUpstreamResolved) == ["owner/fork", "owner/repo"]
    ensures DefaultLabel(TwoRemotesUpstreamResolved) == "owner/repo"
  {
    var rs := TwoRemotesUpstreamResolved;
    assert FullName(OwnerFork) == "owner/fork";
    assert FullName(OwnerRepo) == "owner/repo";
    assert FirstResolvedAt(rs, 1);
  }

  /** Over the test options the prompter picks the second one. */
  lemma PickOwnerRepoOnTestOptions(text: string, default: string)
    ensures PickOwnerRepo(text, default, ["owner/fork", "owner/repo"]) == Ok(1)
  {
    var options := ["owner/fork", "owner/repo"];
    // "owner/fork" and "owner/repo" differ at character 6, so the prompter
    // passes over option 0 and picks option 1
    assert options[0][6] != options[1][6];
  }

  /** Prompting over the test remotes: the prompt carries the expected
      arguments, the index chosen is in range, and it resolves to owner/repo. */
  lemma PromptOverTestRemotes()
    ensures SelectPrompt(TwoRemotesUpstreamResolved)
         == Prompted("Select a base repo", "owner/repo", ["owner/fork", "owner/repo"])
    ensures CanPrompt(TwoRemotesUpstreamResolved, Some(PickOwnerRepo))
    ensures PromptForRepo(TwoRemotesUpstreamResolved, PickOwnerRepo) == Ok(OwnerRepo)
  {
    var rs := TwoRemotesUpstreamResolved;
    PromptArgumentsOfTestRemotes();
    AnswerOverTestRemotes();
    assert rs[1].repo == OwnerRepo && Valid(OwnerRepo);
  }

  /** Asked over the test remotes, the test prompter answers the upstream's index. */
  lemma AnswerOverTestRemotes()
    ensures Answer(TwoRemotesUpstreamResolved, PickOwnerRepo) == Ok(1)
  {
    PromptArgumentsOfTestRemotes();
    PickOwnerRepoOnTestOptions(SelectPromptText, "owner/repo");
  }

  /** The interactive wrapper with the test prompter over the ambiguity stub
      can be run: the prompter is present and picks one of the two remotes. */
  lemma InteractiveOverAmbiguityDefined()
    ensures Defined(PromptWhenAmbiguous(AmbiguityStub, Some(PickOwnerRepo)))
  {
    assert Eval(AmbiguityStub).result == Err(AmbiguousBaseRepo(TwoRemotesUpstreamResolved));
    PromptOverTestRemotes();
  }

  /** The resolved remote is the default, the options are both labels in
      order, and choosing "owner/repo" resolves to that repository. */
  lemma InteractivePromptsWithResolvedDefault()
    ensures Defined(PromptWhenAmbiguous(AmbiguityStub, Some(PickOwnerRepo)))
    ensures Eval(PromptWhenAmbiguous(AmbiguityStub, Some(PickOwnerRepo)))
         == Run(Ok(OwnerRepo), [BaseCalled, Prompted("Select a base repo", "owner/repo", ["owner/fork", "owner/repo"])])
  {
    var rs := TwoRemotesUpstreamResolved;
    InteractiveOverAmbiguityDefined();
    var innerRun := Run(Err(AmbiguousBaseRepo(rs)), [BaseCalled]);
    assert Eval(AmbiguityStub) == innerRun;
    var run := Eval(PromptWhenAmbiguous(AmbiguityStub, Some(PickOwnerRepo)));
    assert run == PromptWhenAmbiguousBaseRepo(innerRun, Some(PickOwnerRepo));
    PromptOverTestRemotes();
    assert run.result == Ok(OwnerRepo);
    assert run.trace == innerRun.trace + [SelectPrompt(rs)];
  }

  /** A prompter error is what the interactive wrapper returns. */
  lemma InteractivePrompterError()
    ensures
      var failing := (t: string, d: string, o: seq<string>) => Err(Failure("test prompt error"));
      && Defined(PromptWhenAmbiguous(AmbiguityStub, Some(failing)))
      && Eval(PromptWhenAmbiguous(AmbiguityStub, Some(failing))).result == Err(Failure("test prompt error"))
  {
  }

  /** With no remote marked, the first remote's label is the default. */
  lemma FirstRemoteIsFallbackDefault()
    ensures DefaultLabel(TwoRemotes) == "owner/fork"
  {
  }

  /** The strict wrapper around the interactive one short-circuits first: the
      prompter is never asked and the base resolver never called. */
  lemma StrictOutsideInteractive()
    ensures Defined(RequireNoAmbiguity(PromptWhenAmbiguous(BaseRepoStub, None), Ok(TwoRemotes)))
    ensures Eval(RequireNoAmbiguity(PromptWhenAmbiguous(BaseRepoStub, None), Ok(TwoRemotes)))
         == Run(Err(AmbiguousBaseRepo(TwoRemotes)), [RemotesListed])
  {
  }
}
