/** Properties of resolver chains that relate several calls or hold of whole
    chains rather than one wrapper. */
module BaseRepoProperties {
  import opened Options
  import opened GhRepo
  import opened Context
  import opened BaseRepo

  // ---------------------------------------------------------------------------
  // The prompt's arguments

  /** With at least one remote, the default label is one of the options offered. */
  lemma DefaultIsAnOption(rs: Remotes)
    requires rs != []
    ensures DefaultLabel(rs) in Labels(rs)
  {
  }

  /** The option at position `i` parses back to the repository of remote `i`
      exactly when that repository is valid: mapping an index back through its
      label recovers the remote's repository. */
  lemma LabelParsesBack(rs: Remotes, i: int)
    requires 0 <= i < |rs|
    ensures FromFullName(Labels(rs)[i]) == if Valid(rs[i].repo) then Some(rs[i].repo) else None
  {
    ParseOfFullName(rs[i].repo);
  }

  // ---------------------------------------------------------------------------
  // One wrapper at a time

  /** The strict wrapper outermost with several remotes fails with the signal
      over exactly those remotes whatever it wraps: nothing inside is run, not
      even a layer that could not be run. */
  lemma StrictShortCircuits(inner: Resolver, rs: Remotes)
    requires |rs| > 1
    ensures Defined(RequireNoAmbiguity(inner, Ok(rs)))
    ensures Eval(RequireNoAmbiguity(inner, Ok(rs))) == Run(Err(AmbiguousBaseRepo(rs)), [RemotesListed])
  {
  }

  /** When the inner resolver succeeds or fails for another reason, the
      interactive wrapper is runnable even without a prompter, returns exactly
      what the inner resolver returned and adds no call. */
  lemma InteractiveWithoutAmbiguity(inner: Resolver, prompter: Option<Select>)
    requires Defined(inner)
    requires !IsAmbiguity(Eval(inner).result)
    ensures Defined(PromptWhenAmbiguous(inner, prompter))
    ensures Eval(PromptWhenAmbiguous(inner, prompter)) == Eval(inner)
  {
  }

  /** The interactive wrapper around the strict one, with several remotes: the
      operator is asked once, the base resolver is never called, and the
      answer decides the outcome. */
  lemma InteractiveAroundStrict(inner: Resolver, rs: Remotes, select: Select)
    requires |rs| > 1
    requires CanPrompt(rs, Some(select))
    ensures Defined(PromptWhenAmbiguous(RequireNoAmbiguity(inner, Ok(rs)), Some(select)))
    ensures
      var run := Eval(PromptWhenAmbiguous(RequireNoAmbiguity(inner, Ok(rs)), Some(select)));
      && run.trace == [RemotesListed, SelectPrompt(rs)]
      && (Answer(rs, select).Err? ==> run.result == Err(Answer(rs, select).error))
      && (Answer(rs, select).Ok? && Valid(rs[Answer(rs, select).value].repo) ==>
            run.result == Ok(rs[Answer(rs, select).value].repo))
  {
  }

  // ---------------------------------------------------------------------------
  // Whole chains

  /** No strict layer on the way to the base resolver stops the resolution
      early: every strict layer finds its remotes, and at most one of them. */
  predicate ReachesBase(r: Resolver) {
    match r
    case Base(_) => true
    case RequireNoAmbiguity(inner, remotes) => remotes.Ok? && |remotes.value| <= 1 && ReachesBase(inner)
    case PromptWhenAmbiguous(inner, _) => ReachesBase(inner)
  }

  /** The base resolver is called exactly when no strict layer short-circuits. */
  lemma {:induction false} BaseCalledIffReached(r: Resolver)
    requires Defined(r)
    ensures BaseCalled in Eval(r).trace <==> ReachesBase(r)
  {
    match r
    case Base(_) =>
    case RequireNoAmbiguity(inner, remotes) =>
      if remotes.Ok? && |remotes.value| <= 1 {
        BaseCalledIffReached(inner);
      }
    case PromptWhenAmbiguous(inner, prompter) =>
      BaseCalledIffReached(inner);
  }

  /** An ambiguity signal is well formed when it names more than one remote. */
  predicate WellFormedSignal(e: Error) {
    e.AmbiguousBaseRepo? ==> |e.remotes| > 1
  }

  /** Every error a capability of the chain can hand back is well formed:
      base results, provider errors and prompter errors. */
  ghost predicate SignalsWellFormed(r: Resolver) {
    match r
    case Base(result) => result.Err? ==> WellFormedSignal(result.error)
    case RequireNoAmbiguity(inner, remotes) =>
      (remotes.Err? ==> WellFormedSignal(remotes.error)) && SignalsWellFormed(inner)
    case PromptWhenAmbiguous(inner, prompter) =>
      && SignalsWellFormed(inner)
      && (prompter.Some? ==>
            forall t, d, o :: prompter.value(t, d, o).Err? ==> WellFormedSignal(prompter.value(t, d, o).error))
  }

  /** The strict wrapper only raises the signal over more than one remote, so
      when the capabilities never raise a malformed one themselves, every
      prompt issued offers at least two options and any signal that reaches
      the caller names at least two remotes. */
  lemma {:induction false} PromptsOfferSeveralOptions(r: Resolver)
    requires Defined(r) && SignalsWellFormed(r)
    ensures Eval(r).result.Err? ==> WellFormedSignal(Eval(r).result.error)
    ensures forall c :: c in Eval(r).trace && c.Prompted? ==> |c.options| > 1
  {
    match r
    case Base(_) =>
    case RequireNoAmbiguity(inner, remotes) =>
      if remotes.Ok? && |remotes.value| <= 1 {
        PromptsOfferSeveralOptions(inner);
      }
    case PromptWhenAmbiguous(inner, prompter) =>
      PromptsOfferSeveralOptions(inner);
      var innerRun := Eval(inner);
      if IsAmbiguity(innerRun.result) {
        var rs := innerRun.result.error.remotes;
        var answer := prompter.value(SelectPromptText, DefaultLabel(rs), Labels(rs));
        assert answer == Answer(rs, prompter.value);
        assert |SelectPrompt(rs).options| == |rs|;
      }
  }
}
