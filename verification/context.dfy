/** The configured remotes of a working copy, in configuration order. A remote
    may carry a resolution marker naming it as the chosen default target. */
module Context {
  import opened Options
  import opened GhRepo

  /** A named remote, its resolution marker (empty when unmarked) and the
      repository it points at. */
  datatype Remote = Remote(name: string, resolved: string, repo: Repository)

  type Remotes = seq<Remote>

  predicate IsResolved(r: Remote) {
    r.resolved != ""
  }

  /** `i` is the position of the first remote carrying the resolution marker. */
  predicate FirstResolvedAt(rs: Remotes, i: int) {
    0 <= i < |rs| && IsResolved(rs[i]) && forall j :: 0 <= j < i ==> !IsResolved(rs[j])
  }

  /** The remote chosen as default by earlier configuration: the first one
      carrying the marker, or none when no remote carries it. */
  function ResolvedRemote(rs: Remotes): (o: Option<Remote>)
    ensures o.Some? ==> exists i :: FirstResolvedAt(rs, i) && rs[i] == o.value
    ensures o.None? ==> forall i :: 0 <= i < |rs| ==> !IsResolved(rs[i])
  {
    if rs == [] then None
    else if IsResolved(rs[0]) then
      assert FirstResolvedAt(rs, 0);
      Some(rs[0])
    else
      assert forall i :: FirstResolvedAt(rs[1..], i) ==> FirstResolvedAt(rs, i + 1);
      ResolvedRemote(rs[1..])
  }
}
