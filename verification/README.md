# Base-repository resolution for secret commands

This project models how the `gh secret` commands pick the repository to act on
when a working copy has several git remotes (`pkg/cmd/secret/shared/base_repo.go`).
A command gets its base repository from a resolver: a zero-argument function
returning a repository or an error. Two wrappers add a policy around an inner
resolver:

- `RequireNoAmbiguityBaseRepoFunc` lists the remotes. A lookup error is
  returned unchanged. With more than one remote it fails with the structured
  `AmbiguousBaseRepoError`, which carries that remote list, and does not run
  the inner resolver. Otherwise it returns what the inner resolver returns.
- `PromptWhenAmbiguousBaseRepoFunc` runs the inner resolver. Success and other
  errors come back unchanged. On the ambiguity error it calls `promptForRepo`,
  which:
  - offers one "owner/name" label per remote;
  - uses as the default the resolved remote, else the first remote, else nothing;
  - asks the prompter once;
  - maps the chosen index back to a repository.

In the model a chain of resolvers is data. `BaseRepo.Resolver` has the cases
`Base(result)`, `RequireNoAmbiguity(inner, remotes)` and
`PromptWhenAmbiguous(inner, prompter)`. The capabilities a Go closure captures
become values:

- the remotes provider is the list or error it returns;
- the base resolver is its result;
- the prompter is a function from (text, default label, options) to a chosen
  index or an error.

`BaseRepo.Eval` runs a chain and returns the outcome together with a trace of
the capability calls made. These are `BaseCalled`, `RemotesListed` and
`Prompted(text, default, options)`. "The inner resolver is never called" and
"the prompter is never used" are therefore statements about the trace.

Go panics are excluded by a precondition rather than modelled. There are two:
calling a nil prompter, and indexing past the end of the label list.
`BaseRepo.Defined` states that neither happens on the path a chain takes.
Because that depends on what the inner resolver returns, `Defined` and `Eval`
are defined together. The interactive wrapper always calls its inner resolver
first, so in the model it receives the inner run as an argument. The strict
wrapper may skip its inner resolver, so it receives the inner chain instead.

Modules:

- `Options`: an optional value.
- `GhRepo`: repository identity as (owner, name), and its "owner/name" label.
- `Context`: remotes and the resolved-remote lookup.
- `BaseRepo`: errors, the chain, the evaluator, both wrappers and `promptForRepo`.
- `BaseRepoProperties`: lemmas about wrappers in combination and whole chains.
- `BaseRepoScenarios`: the cases of `base_repo_test.go` replayed on the model.

The repository identity helpers (`ghrepo.FullName`, `ghrepo.FromFullName`) and
`Remotes.ResolvedRemote` are defined outside `base_repo.go`, in the `ghrepo`
and `context` packages. They are given here the simplest definitions that
agree with their use:

- `FullName` prints `owner + "/" + name`.
- `FromFullName` accepts exactly one '/' with non-empty text on both sides.
- `ResolvedRemote` returns the first remote whose resolution marker is non-empty.

With these definitions the label round trip is proved, not assumed. With this
parser, a repository that cannot survive the round trip makes `promptForRepo`
return a parse error, which is the code's own branch at `base_repo.go:82-83`.
The real `ghrepo` parser also accepts a "HOST/OWNER/REPO" label, so there a
label such as "a/b/c" would parse rather than fail.

## Model

| member | source | states |
|---|---|---|
| GhRepo.FullNameParts | pkg/cmd/secret/shared/base_repo.go:73 | the label `FullName` gives a repository is exactly its owner, then the '/' separator, then exactly its name, and nothing else |
| GhRepo.FromFullName | pkg/cmd/secret/shared/base_repo.go:81-84 | any label the parser accepts yields a valid repository whose label is exactly that text |
| GhRepo.FullNameRoundTrip | pkg/cmd/secret/shared/base_repo.go:73-81 | parsing the label of a valid repository gives back that same repository |
| GhRepo.FullNameOfInvalid | pkg/cmd/secret/shared/base_repo.go:81-83 | the label of a repository with an empty or slash-containing part never parses, so selecting it takes the error branch |
| GhRepo.ParseOfFullName | pkg/cmd/secret/shared/base_repo.go:81-84 | parsing a label succeeds exactly for valid repositories, and then restores the repository |
| GhRepo.FullNameInjective | pkg/cmd/secret/shared/base_repo.go:72-74 | two valid repositories with the same label are the same repository, so an option identifies its remote's repository |
| GhRepo.FromFullNameRejectsOnlyNonLabels | pkg/cmd/secret/shared/base_repo.go:81-83 | text the parser rejects is not the label of any valid repository |
| Context.ResolvedRemote | pkg/cmd/secret/shared/base_repo.go:64 | the remote found is the first one carrying the resolution marker; none is found exactly when no remote carries it |
| BaseRepo.DefaultLabel | pkg/cmd/secret/shared/base_repo.go:61-70 | the default label is the first resolved remote's label; failing that, the first remote's label; failing that, empty. A resolved remote wins over position |
| BaseRepo.Labels | pkg/cmd/secret/shared/base_repo.go:72-74 | the options hold one label per remote, same length, and option i is the "owner/name" of remote i |
| BaseRepo.PromptForRepo | pkg/cmd/secret/shared/base_repo.go:76-86 | a prompter error comes back unchanged; chosen index i gives remote i's repository; an unparsable label gives a parse error naming it |
| BaseRepo.Eval | pkg/cmd/secret/shared/base_repo.go:22-58 | running any chain calls at least one capability, at most one per layer, and the base resolver at most once, so there are no retries |
| BaseRepo.RequireNoAmbiguityBaseRepo | pkg/cmd/secret/shared/base_repo.go:43-58 | remotes are listed first; a provider error is returned verbatim with no inner call; more than one remote gives the ambiguity error carrying exactly the provider's list, with no inner call; with zero or one remote the inner result is returned unchanged |
| BaseRepo.PromptWhenAmbiguousBaseRepo | pkg/cmd/secret/shared/base_repo.go:22-39 | given the run of the inner resolver (always called first): success or a non-ambiguity error comes back unchanged with no prompt; on the ambiguity error exactly one prompt is added, with text "Select a base repo" over that error's remotes, and its outcome is returned |
| BaseRepoProperties.DefaultIsAnOption | pkg/cmd/secret/shared/base_repo.go:64-74 | with at least one remote the default label is among the offered options |
| BaseRepoProperties.LabelParsesBack | pkg/cmd/secret/shared/base_repo.go:72-84 | the option at index i parses back to remote i's repository exactly when that repository is valid |
| BaseRepoProperties.StrictShortCircuits | pkg/cmd/secret/shared/base_repo.go:52-54 | with several remotes the strict wrapper fails with the signal over exactly those remotes, whatever it wraps, and makes no other call |
| BaseRepoProperties.InteractiveWithoutAmbiguity | pkg/cmd/secret/shared/base_repo.go:24-37 | without an ambiguity signal the interactive wrapper returns exactly the inner run; this holds with no prompter at all |
| BaseRepoProperties.InteractiveAroundStrict | pkg/cmd/secret/shared/base_repo.go:22-58 | interactive around strict with several remotes: remotes listed, one prompt, base never called. A prompter error is returned; a valid chosen remote's repository is returned |
| BaseRepoProperties.BaseCalledIffReached | pkg/cmd/secret/shared/base_repo.go:47-56 | the base resolver is called exactly when every strict layer on the way finds its remotes and at most one |
| BaseRepoProperties.PromptsOfferSeveralOptions | pkg/cmd/secret/shared/base_repo.go:52-76 | if no capability raises an ambiguity error over fewer than two remotes, every prompt offers at least two options and any signal reaching the caller names at least two remotes |
| BaseRepoScenarios.PickOwnerRepo | pkg/cmd/secret/shared/base_repo_test.go:112-116 | the test prompter's choice is the first position of "owner/repo" among the options, or an error when it is not offered |
| BaseRepoScenarios.StrictOneRemote | pkg/cmd/secret/shared/base_repo_test.go:19-31 | one remote: the strict wrapper returns the inner owner/repo |
| BaseRepoScenarios.StrictTwoRemotes | pkg/cmd/secret/shared/base_repo_test.go:33-59 | two remotes: the ambiguity error carries origin/owner/fork then upstream/owner/repo |
| BaseRepoScenarios.StrictRemotesError | pkg/cmd/secret/shared/base_repo_test.go:61-72 | the remotes lookup error is returned |
| BaseRepoScenarios.StrictInnerError | pkg/cmd/secret/shared/base_repo_test.go:74-85 | the inner resolver's error is returned |
| BaseRepoScenarios.InteractiveNilPrompterSucceeds | pkg/cmd/secret/shared/base_repo_test.go:91-103 | with a nil prompter and a succeeding inner resolver the result is owner/repo and only the base is called |
| BaseRepoScenarios.InteractivePromptsWithResolvedDefault | pkg/cmd/secret/shared/base_repo_test.go:105-128 | the prompt has default "owner/repo" (the resolved remote) and options ["owner/fork", "owner/repo"]; choosing owner/repo returns it |
| BaseRepoScenarios.PromptArgumentsOfTestRemotes | pkg/cmd/secret/shared/base_repo_test.go:109-114 | over the test remotes the options are ["owner/fork", "owner/repo"] and the default is the resolved "owner/repo" |
| BaseRepoScenarios.PickOwnerRepoOnTestOptions | pkg/cmd/secret/shared/base_repo_test.go:115 | over those options the test prompter picks index 1 |
| BaseRepoScenarios.AnswerOverTestRemotes | pkg/cmd/secret/shared/base_repo_test.go:112-116 | asked over the test remotes, the test prompter answers index 1, the upstream remote |
| BaseRepoScenarios.InteractiveOverAmbiguityDefined | pkg/cmd/secret/shared/base_repo_test.go:105-118 | the interactive wrapper over the ambiguity stub with the test prompter runs without a nil prompter or an out-of-range index |
| BaseRepoScenarios.PromptOverTestRemotes | pkg/cmd/secret/shared/base_repo_test.go:105-127 | over the test remotes the prompt is "Select a base repo" with default "owner/repo" and both options in order, the choice is in range, and it resolves to owner/repo |
| BaseRepoScenarios.InteractivePrompterError | pkg/cmd/secret/shared/base_repo_test.go:130-151 | the prompter's error is returned |
| BaseRepoScenarios.InteractiveNilPrompterForwardsError | pkg/cmd/secret/shared/base_repo_test.go:153-164 | a non-ambiguity inner error is returned with a nil prompter |
| BaseRepoScenarios.FirstRemoteIsFallbackDefault | pkg/cmd/secret/shared/base_repo.go:67-70 | with no remote resolved, the first remote's label "owner/fork" is the default |
| BaseRepoScenarios.StrictOutsideInteractive | pkg/cmd/secret/shared/base_repo.go:43-58 | strict around interactive with two remotes short-circuits: signal returned, only the remotes listed |

## Left out

- Go runtime panics are not modelled; `BaseRepo.Defined` excludes them as a precondition. They are a nil prompter reached by an ambiguity error, and an index outside the label list at `base_repo.go:81`. An ambiguity error with an empty remote list is covered by the second.
- Resolver results are `Ok(repository)` or `Err(error)`. Go's other pairs are not modelled: a non-nil repository alongside an error, which the strict wrapper passes on at `base_repo.go:56`, and a nil repository with a nil error.
- BaseRepo.PromptForRepo: does not take the `baseRepo` argument of `promptForRepo`. The function returns it only beside an error, and the interactive wrapper then returns nil (`base_repo.go:31-34`).
- `errors.As` also matches an ambiguity error wrapped inside another error. The model recognises only the bare ambiguity variant.
- Error message text is not modelled. `base_repo.go:16` says "-R or --repo argument", while `base_repo_test.go:169` expects "-R, --repo argument".
- Repository host names, the "HOST/OWNER/REPO" label form and case-insensitive comparison (`ghrepo.IsSame`) are not modelled. ghrepo is not part of this model; a repository is an (owner, name) pair.
- `Remotes.ResolvedRemote` is not part of this model. It is taken to return the first remote with a non-empty resolution marker, and its error result is ignored as at `base_repo.go:64`.
- The remotes provider and the base resolver are represented by the single answer each gives for one resolution. The prompter is a deterministic function of its arguments. Nothing else about them is modelled: staleness, caching, rendering, TTY handling and I/O.
- The count-based ambiguity policy is kept as written. The open question at `base_repo.go:45-46`, whether remotes in one fork network should count as ambiguous, is not modelled.
- Test parallelism (`t.Parallel`) has no counterpart.
