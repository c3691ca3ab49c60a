/** The GitHub REST address of a repository's workflow-run listing. */
module ApiUrl {
  import opened Wrappers

  const PREFIX: string := "https://api.github.com/repos/"
  const SUFFIX: string := "/actions/runs"

  /** The repository the tool is hard-wired to. */
  const REPO: string := "zarkone/literally.el"

  /** The listing address of `repo`: the repository string is inserted unchanged. */
  function MakeApiUrl(repo: string): (url: string)
    ensures |url| == |PREFIX| + |repo| + |SUFFIX|
    ensures url[..|PREFIX|] == PREFIX
    ensures url[|PREFIX|..|PREFIX| + |repo|] == repo
    ensures url[|PREFIX| + |repo|..] == SUFFIX
  {
    PREFIX + repo + SUFFIX
  }

  /** The repository a listing address names, if the address has the listing shape. */
  function RepoOf(url: string): Option<string>
  {
    if |url| >= |PREFIX| + |SUFFIX| && url[..|PREFIX|] == PREFIX && url[|url| - |SUFFIX|..] == SUFFIX
    then Some(url[|PREFIX|..|url| - |SUFFIX|])
    else None
  }

  /** The repository is recovered from its listing address. */
  lemma RepoOfMakeApiUrl(repo: string)
    ensures RepoOf(MakeApiUrl(repo)) == Some(repo)
  {
  }

  /** Every address with the listing shape is the listing address of the repository it names. */
  lemma MakeApiUrlOfRepoOf(url: string)
    requires RepoOf(url).Some?
    ensures MakeApiUrl(RepoOf(url).value) == url
  {
  }

  /** Different repositories have different listing addresses. */
  lemma MakeApiUrlInjective(a: string, b: string)
    ensures MakeApiUrl(a) == MakeApiUrl(b) <==> a == b
  {
  }

  /** The address the tool actually requests. */
  lemma DefaultApiUrl()
    ensures MakeApiUrl(REPO) == "https://api.github.com/repos/zarkone/literally.el/actions/runs"
  {
  }
}
