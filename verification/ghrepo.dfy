/** Repository identities as the base-repo resolver sees them: an owner and a
    name, printed as the label "owner/name" and parsed back from it. */
module GhRepo {
  import opened Options

  datatype Repository = Repository(owner: string, name: string)

  /** A repository the "owner/name" label can carry: both parts present and
      neither containing the separator. */
  predicate Valid(r: Repository) {
    r.owner != "" && r.name != "" && '/' !in r.owner && '/' !in r.name
  }

  /** The "owner/name" label of a repository. */
  function FullName(r: Repository): string {
    r.owner + "/" + r.name
  }

  /** The label is the owner, then the separator, then the name, and nothing else. */
  lemma FullNameParts(r: Repository)
    ensures |FullName(r)| == |r.owner| + 1 + |r.name|
    ensures FullName(r)[..|r.owner|] == r.owner
    ensures FullName(r)[|r.owner|] == '/'
    ensures FullName(r)[|r.owner| + 1..] == r.name
  {
    var s := FullName(r);
    assert s == r.owner + ("/" + r.name);
    assert s[|r.owner| + 1..] == ("/" + r.name)[1..];
  }

  /** The position of the first '/' in `s`, if there is one. */
  function FirstSlash(s: string): (k: Option<nat>)
    ensures k.Some? ==> k.value < |s| && s[k.value] == '/'
    ensures k.Some? ==> forall i :: 0 <= i < k.value ==> s[i] != '/'
    ensures k.None? ==> forall i :: 0 <= i < |s| ==> s[i] != '/'
  {
    if s == [] then None
    else if s[0] == '/' then Some(0)
    else match FirstSlash(s[1..])
      case None => None
      case Some(k) => Some(k + 1)
  }

  /** Parses an "owner/name" label; `None` when the text is not of that form.
      Whatever it accepts is a valid repository whose label is the input. */
  function FromFullName(s: string): (r: Option<Repository>)
    ensures r.Some? ==> Valid(r.value) && FullName(r.value) == s
  {
    match FirstSlash(s)
    case None => None
    case Some(k) =>
      var repo := Repository(s[..k], s[k + 1..]);
      assert FullName(repo) == s by {
        assert s == s[..k] + [s[k]] + s[k + 1..];
      }
      if Valid(repo) then Some(repo) else None
  }

  /** The label of a valid repository has exactly one '/', right after the owner. */
  lemma FullNameSlashes(r: Repository)
    requires Valid(r)
    ensures forall p :: 0 <= p < |FullName(r)| && FullName(r)[p] == '/' ==> p == |r.owner|
  {
  }

  /** Parsing the label of a valid repository gives the repository back. */
  lemma FullNameRoundTrip(r: Repository)
    requires Valid(r)
    ensures FromFullName(FullName(r)) == Some(r)
  {
    var s := FullName(r);
    var n := |r.owner|;
    assert s[n] == '/';
    FullNameSlashes(r);
    match FirstSlash(s)
    case None =>
      assert false;
    case Some(k) =>
      assert k == n;
      assert s[..n] == r.owner;
      assert s[n + 1..] == r.name;
  }

  /** A label that parses comes from exactly one repository: the label of an
      invalid repository never parses. */
  lemma FullNameOfInvalid(r: Repository)
    requires !Valid(r)
    ensures FromFullName(FullName(r)) == None
  {
    var s := FullName(r);
    var n := |r.owner|;
    assert s[n] == '/';
    assert s[..n] == r.owner;
    assert s[n + 1..] == r.name;
    match FirstSlash(s)
    case None =>
      assert false;
    case Some(k) =>
      if k < n {
        // the parsed name runs past the owner's own slash
        assert s[k + 1..][n - k - 1] == '/';
      } else {
        assert k == n;
      }
  }

  /** Parsing inverts printing on every repository: it restores a valid one and
      rejects the label of any other. */
  lemma ParseOfFullName(r: Repository)
    ensures FromFullName(FullName(r)) == if Valid(r) then Some(r) else None
  {
    if Valid(r) {
      FullNameRoundTrip(r);
    } else {
      FullNameOfInvalid(r);
    }
  }

  /** Distinct valid repositories have distinct labels. */
  lemma FullNameInjective(a: Repository, b: Repository)
    requires Valid(a) && Valid(b)
    requires FullName(a) == FullName(b)
    ensures a == b
  {
    FullNameRoundTrip(a);
    FullNameRoundTrip(b);
  }

  /** A text the parser rejects is not the label of any valid repository. */
  lemma FromFullNameRejectsOnlyNonLabels(s: string)
    requires FromFullName(s).None?
    ensures forall r :: Valid(r) ==> FullName(r) != s
  {
    forall r | Valid(r)
      ensures FullName(r) != s
    {
      FullNameRoundTrip(r);
    }
  }
}
