/**
  The checkout plan of `Travis::Build::Git::Clone`: from the build data and
  its `git:` configuration, the folded sequence of shell operations that
  clones (or refreshes) a working copy and checks out the commit under test.
  Each Ruby method that wrote into the shell builder is a function here that
  returns the operations it would have written.
 */
module Clone {
  import opened Wrappers
  import opened Shell
  import opened RubyText

  /** The `git:` section of the build configuration, already parsed. */
  datatype GitConfig = GitConfig(
    depth: Scalar,
    quiet: bool,
    sparseCheckout: bool,
    sparseCheckoutFiles: seq<string>)

  /** The build data the clone step reads. */
  datatype BuildData = BuildData(
    sourceUrl: string,
    ref: Option<string>,
    branch: string,
    commit: string,
    pullRequest: bool,
    slug: string,
    config: GitConfig)

  const FoldName := "git.checkout"
  const SparseCheckoutFile := ".git/info/sparse-checkout"

  // Accessors

  /** The working-copy directory is the repository slug. */
  function Dir(data: BuildData): string {
    data.slug
  }

  function DepthText(data: BuildData): string {
    ToS(data.config.depth)
  }

  predicate Quiet(data: BuildData) {
    data.config.quiet
  }

  predicate UseSparseCheckout(data: BuildData) {
    data.config.sparseCheckout
  }

  function SparseCheckoutFiles(data: BuildData): seq<string> {
    data.config.sparseCheckoutFiles
  }

  /** A ref is fetched whenever one is given; an empty ref counts, as Ruby's "" is truthy. */
  predicate FetchRefWanted(data: BuildData) {
    data.ref.Some?
  }

  // Clone arguments

  /**
    The arguments shared by `git clone` and `git pull`, built as the source
    appends them: the depth, then the branch unless an explicit ref
    supersedes it, then the quiet switch when configured.
   */
  function CloneArgs(data: BuildData): Text {
    [Lit("--depth="), Esc(DepthText(data))]
    + (if data.ref.None? then [Lit(" --branch="), Esc(data.branch)] else [])
    + (if Quiet(data) then [Lit(" --quiet")] else [])
  }

  // Standard mode

  /** `! -d <dir>/.git`: the working copy has not been cloned yet. */
  function NotClonedTest(data: BuildData): Text {
    [Lit("! -d "), Raw(Dir(data)), Lit("/.git")]
  }

  function CloneCmd(data: BuildData): ShellOp {
    Cmd([Lit("git clone ")] + CloneArgs(data)
        + [Lit(" "), Raw(data.sourceUrl), Lit(" "), Raw(Dir(data))],
        Attrs(true, true, false))
  }

  function FetchOriginCmd(data: BuildData): ShellOp {
    Cmd([Lit("git -C "), Raw(Dir(data)), Lit(" fetch origin")], Attrs(true, true, false))
  }

  function ResetHardCmd(data: BuildData): ShellOp {
    Cmd([Lit("git -C "), Raw(Dir(data)), Lit(" reset --hard")], Attrs(true, false, true))
  }

  /** Clone when there is no working copy, otherwise fetch and hard-reset the existing one. */
  function CloneOrFetch(data: BuildData): ShellOp {
    If(NotClonedTest(data), [CloneCmd(data)], [FetchOriginCmd(data), ResetHardCmd(data)])
  }

  /**
    Fetch the given ref into FETCH_HEAD. The source calls it only when a ref
    is present; a missing ref would interpolate as empty text.
   */
  function FetchRef(data: BuildData): ShellOp {
    Cmd([Lit("git fetch origin +"), Raw(data.ref.GetOr("")), Lit(":")], Attrs(true, true, false))
  }

  /** The final checkout: FETCH_HEAD for a pull request, the commit otherwise. */
  function Checkout(data: BuildData): ShellOp {
    Cmd([Lit("git checkout -qf "), if data.pullRequest then Lit("FETCH_HEAD") else Raw(data.commit)],
        Attrs(false, false, true))
  }

  /** After the clone or fetch: enter the working copy, fetch the ref when one is given, check out. */
  function CheckoutSteps(data: BuildData): seq<ShellOp> {
    [Cd(Dir(data))] + ((if FetchRefWanted(data) then [FetchRef(data)] else []) + [Checkout(data)])
  }

  function StandardPlan(data: BuildData): seq<ShellOp> {
    [CloneOrFetch(data)] + CheckoutSteps(data)
  }

  // Sparse mode

  function GitInitCmd(data: BuildData): ShellOp {
    Cmd([Lit("git init "), Raw(Dir(data))], NoAttrs)
  }

  function RemoteAddCmd(data: BuildData): ShellOp {
    Cmd([Lit("git remote add origin "), Raw(data.sourceUrl)], NoAttrs)
  }

  /** `git init <dir>` and `git remote add origin <url>`, neither with attributes. */
  function InitGitRepo(data: BuildData): seq<ShellOp> {
    [GitInitCmd(data), RemoteAddCmd(data)]
  }

  /** `git pull origin` with the same arguments a clone would use. */
  function PullGitRepo(data: BuildData): ShellOp {
    Cmd([Lit("git pull origin ")] + CloneArgs(data), NoAttrs)
  }

  /** One append to the sparse-checkout file per pattern, in list order. */
  function SparseAppends(files: seq<string>): (ops: seq<ShellOp>)
    ensures |ops| == |files|
    ensures forall k :: 0 <= k < |ops| ==>
              ops[k] == AppendFile(SparseCheckoutFile, files[k], true)
  {
    if files == [] then []
    else [AppendFile(SparseCheckoutFile, files[0], true)] + SparseAppends(files[1..])
  }

  const EnableSparseCmd := Cmd([Lit("git config core.sparseCheckout true")], NoAttrs)

  /** Enable sparse checkout, then append each pattern to the sparse-checkout file. */
  function ConfigSparseCheckout(data: BuildData): seq<ShellOp> {
    [EnableSparseCmd] + SparseAppends(SparseCheckoutFiles(data))
  }

  function SparsePlan(data: BuildData): seq<ShellOp> {
    InitGitRepo(data) + ([Cd(Dir(data))] + (ConfigSparseCheckout(data) + [PullGitRepo(data)]))
  }

  // The whole step

  /** The checkout step: one `git.checkout` fold holding the plan of the configured mode. */
  function Apply(data: BuildData): (plan: seq<ShellOp>)
    ensures |plan| == 1 && plan[0].Fold? && plan[0].name == FoldName
  {
    if UseSparseCheckout(data) then [Fold(FoldName, SparsePlan(data))]
    else [Fold(FoldName, StandardPlan(data))]
  }
}
