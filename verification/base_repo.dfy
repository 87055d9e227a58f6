/** The base-repository resolver chain: a base resolver wrapped by the strict
    policy (refuse when several remotes exist) and the interactive policy (ask
    the operator when the inner resolver reports ambiguity).

    A chain is a `Resolver` value. The capabilities a wrapper closes over
    become data: the remotes provider is the list (or error) it returns, the
    base resolver is its result, and the prompter is a function from the
    prompt's (text, default label, options) to a chosen index or an error.
    `Eval` runs a chain and returns the outcome together with the trace of
    capability calls it made, so "was X called" is a question about the trace. */
module BaseRepo {
  import opened Options
  import opened GhRepo
  import opened Context

  /** The errors a resolution can end with. The ambiguity signal is its own
      variant, carrying the remotes that caused it, so callers can recognise it
      without reading a message. */
  datatype Error =
    | AmbiguousBaseRepo(remotes: Remotes)
    | InvalidFullName(input: string)
    | Failure(message: string)

  datatype Result<+T> = Ok(value: T) | Err(error: Error)

  /** The result is the ambiguity signal. */
  predicate IsAmbiguity<T>(r: Result<T>) {
    r.Err? && r.error.AmbiguousBaseRepo?
  }

  const SelectPromptText: string := "Select a base repo"

  /** A single-select prompter: (text, default label, options) to the index chosen. */
  type Select = (string, string, seq<string>) -> Result<int>

  datatype Resolver =
    | Base(result: Result<Repository>)
    | RequireNoAmbiguity(inner: Resolver, remotes: Result<Remotes>)
    | PromptWhenAmbiguous(inner: Resolver, prompter: Option<Select>)

  /** A call a resolution makes into one of its capabilities. */
  datatype Call =
    | BaseCalled
    | RemotesListed
    | Prompted(text: string, defaultLabel: string, options: seq<string>)

  datatype Run = Run(result: Result<Repository>, trace: seq<Call>)

  /** The number of wrapper layers of a chain, the base included. */
  function Layers(r: Resolver): nat {
    match r
    case Base(_) => 1
    case RequireNoAmbiguity(inner, _) => 1 + Layers(inner)
    case PromptWhenAmbiguous(inner, _) => 1 + Layers(inner)
  }

  /** The label offered as the prompt's default: the remote carrying the
      resolution marker wins over position, then the first remote, then nothing. */
  function DefaultLabel(rs: Remotes): (default: string)
    ensures forall i :: FirstResolvedAt(rs, i) ==> default == FullName(rs[i].repo)
    ensures (forall i :: 0 <= i < |rs| ==> !IsResolved(rs[i])) && rs != [] ==>
      default == FullName(rs[0].repo)
    ensures rs == [] ==> default == ""
  {
    match ResolvedRemote(rs)
    case Some(remote) => FullName(remote.repo)
    case None => if |rs| > 0 then FullName(rs[0].repo) else ""
  }

  /** The options offered to the operator: one "owner/name" label per remote, in remote order. */
  function Labels(rs: Remotes): (labels: seq<string>)
    ensures |labels| == |rs|
    ensures forall i :: 0 <= i < |rs| ==> labels[i] == FullName(rs[i].repo)
  {
    if rs == [] then [] else [FullName(rs[0].repo)] + Labels(rs[1..])
  }

  /** The one prompt issued to disambiguate `rs`. */
  function SelectPrompt(rs: Remotes): Call {
    Prompted(SelectPromptText, DefaultLabel(rs), Labels(rs))
  }

  /** What the prompter answers when asked to disambiguate `rs`. */
  function Answer(rs: Remotes, select: Select): Result<int> {
    select(SelectPromptText, DefaultLabel(rs), Labels(rs))
  }

  /** Asking is well defined: there is a prompter, and an index it answers
      names one of the remotes. */
  predicate CanPrompt(rs: Remotes, prompter: Option<Select>) {
    prompter.Some? && (Answer(rs, prompter.value).Ok? ==> 0 <= Answer(rs, prompter.value).value < |rs|)
  }

  /** Asks the operator to choose among `rs` and maps the chosen label back to
      a repository: a prompter error comes back unchanged, a chosen index gives
      that remote's repository, and a label that does not parse gives a parse error. */
  function PromptForRepo(rs: Remotes, select: Select): (r: Result<Repository>)
    requires CanPrompt(rs, Some(select))
    ensures Answer(rs, select).Err? ==> r == Err(Answer(rs, select).error)
    ensures Answer(rs, select).Ok? && Valid(rs[Answer(rs, select).value].repo) ==>
      r == Ok(rs[Answer(rs, select).value].repo)
    ensures Answer(rs, select).Ok? && !Valid(rs[Answer(rs, select).value].repo) ==>
      r == Err(InvalidFullName(FullName(rs[Answer(rs, select).value].repo)))
  {
    var labels := Labels(rs);
    var answer := select(SelectPromptText, DefaultLabel(rs), labels);
    if answer.Err? then Err(answer.error)
    else
      var chosen := labels[answer.value];
      ParseOfFullName(rs[answer.value].repo);
      match FromFullName(chosen)
      case None => Err(InvalidFullName(chosen))
      case Some(repo) => Ok(repo)
  }

  /** The chain can be run without a Go runtime panic: no interactive layer
      that is reached by an ambiguity signal lacks a prompter or receives an
      index outside the remote list. */
  predicate Defined(r: Resolver)
    decreases r, 0
  {
    match r
    case Base(_) => true
    case RequireNoAmbiguity(inner, remotes) =>
      remotes.Err? || |remotes.value| > 1 || Defined(inner)
    case PromptWhenAmbiguous(inner, prompter) =>
      && Defined(inner)
      && (IsAmbiguity(Eval(inner).result) ==> CanPrompt(Eval(inner).result.error.remotes, prompter))
  }

  /** Runs a chain. Each layer calls at most one capability, and the base
      resolver is called at most once: there are no retries. */
  function Eval(r: Resolver): (run: Run)
    requires Defined(r)
    ensures 0 < |run.trace| <= Layers(r)
    ensures multiset(run.trace)[BaseCalled] <= 1
    decreases r, 1
  {
    match r
    case Base(result) => Run(result, [BaseCalled])
    case RequireNoAmbiguity(inner, remotes) => RequireNoAmbiguityBaseRepo(inner, remotes)
    case PromptWhenAmbiguous(inner, prompter) => PromptWhenAmbiguousBaseRepo(Eval(inner), prompter)
  }

  /** The strict wrapper. It lists the remotes first; a provider error comes
      back unchanged and more than one remote gives the ambiguity signal with
      exactly the listed remotes, and in both cases the inner resolver is
      never called. With zero or one remote the inner result comes back unchanged. */
  function RequireNoAmbiguityBaseRepo(inner: Resolver, remotes: Result<Remotes>): (run: Run)
    requires remotes.Err? || |remotes.value| > 1 || Defined(inner)
    ensures run.trace != [] && run.trace[0] == RemotesListed
    ensures remotes.Err? ==> run.result == Err(remotes.error)
    ensures remotes.Ok? && |remotes.value| > 1 ==> run.result == Err(AmbiguousBaseRepo(remotes.value))
    ensures remotes.Err? || |remotes.value| > 1 ==> run.trace == [RemotesListed]
    ensures remotes.Ok? && |remotes.value| <= 1 ==>
      run.result == Eval(inner).result && run.trace == [RemotesListed] + Eval(inner).trace
    decreases inner, 2
  {
    if remotes.Err? then Run(Err(remotes.error), [RemotesListed])
    else if |remotes.value| > 1 then Run(Err(AmbiguousBaseRepo(remotes.value)), [RemotesListed])
    else
      var innerRun := Eval(inner);
      Run(innerRun.result, [RemotesListed] + innerRun.trace)
  }

  /** The interactive wrapper, given the run of the resolver it wraps (which
      it always calls first). Success and any error other than the ambiguity
      signal come back unchanged, with no prompt. On the ambiguity signal it
      prompts exactly once, over the remotes the signal carries, and returns
      what the prompt resolves to. */
  function PromptWhenAmbiguousBaseRepo(innerRun: Run, prompter: Option<Select>): (run: Run)
    requires IsAmbiguity(innerRun.result) ==> CanPrompt(innerRun.result.error.remotes, prompter)
    ensures !IsAmbiguity(innerRun.result) ==> run == innerRun
    ensures IsAmbiguity(innerRun.result) ==>
      run.trace == innerRun.trace + [SelectPrompt(innerRun.result.error.remotes)]
    ensures IsAmbiguity(innerRun.result) ==>
      run.result == PromptForRepo(innerRun.result.error.remotes, prompter.value)
  {
    if IsAmbiguity(innerRun.result) then
      var rs := innerRun.result.error.remotes;
      Run(PromptForRepo(rs, prompter.value), innerRun.trace + [SelectPrompt(rs)])
    else innerRun
  }
}
