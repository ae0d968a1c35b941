# Checkout plan of `Travis::Build::Git::Clone`, in Dafny

This project models the step of travis-build that checks out the repository
under test (`lib/travis/build/git/clone.rb`). In Ruby, the class writes shell
operations into a mutable builder `sh`. Here every method is a pure function
that returns the operations it would have written, as an immutable `ShellOp`
tree:

- `Cmd(text, attrs)` for `sh.cmd`;
- `If(cond, thn, els)` for `sh.if` / `sh.else`;
- `Cd(dir)` for `sh.cd`;
- `AppendFile(path, line, append)` for `sh.file`;
- `Fold(name, body)` for `sh.fold`.

Because the functions are pure, building the plan twice from the same inputs
gives the same plan by construction.

Command text is kept as a template (`Shell.Text`, a sequence of pieces):

- `Lit` is a literal written by the builder;
- `Raw` is a data value interpolated as it is;
- `Esc` is a value passed through `shellescape`.

`Shell.Render` turns a template into the string Ruby would build. It takes the
escaper as a function parameter, so the proofs hold for every escaper, and
where escaping is applied is visible in the plan itself.

The attributes `Attrs(asserted, retry, untimed)` record exactly which options
the source passes: `assert: true`, `retry: true`, `timing: false`. A false flag
means the option is absent and the executor's default applies.

Modules:

- `Wrappers`: `Option`.
- `RubyText`: Ruby's `to_s` on the depth setting (integers in decimal).
- `Shell`: the plan datatype, rendering, and queries over a plan. The queries are:
  - `Nodes`: every node, each before its children;
  - `CountWhere`: how many elements satisfy a predicate;
  - `AppendedLines`: the lines the file appends write, in order;
  - `Escaped`: the values passed through the escaper, in order;
  - `Unescaped`: the set of values interpolated unescaped.
- `Clone`: the build data, the accessors, and one function per Ruby method.
  `Apply` is the whole step.
- `PlanWalk`: recognisers for kinds of operation, and the layout and counting
  of each mode's plan.
- Property modules (`ModeProperties`, `ArgsProperties`, `StandardProperties`,
  `SparseProperties`, `EscapingProperties`): the properties proved about the model.
- `Scenarios`: three concrete builds worked through with those properties.

Where the builder functions in `Clone` have no contract of their own, the lemma
about them carries it:

- `CloneOrFetch`: `StandardFirstStep`.
- `FetchRef`: `RefFetchPlacement` and `RefFetchCount`.
- `Checkout`: `FinalCheckout`.
- `InitGitRepo`, `ConfigSparseCheckout`, `PullGitRepo`: `SparseOrder`.
- `CloneArgs`: `CloneArgsShape`, `CloneArgsRendered` and `EscapedInArgs`.

Design choices:

- **Escaping.** The code shell-escapes only the depth (after `to_s`) and the
  branch. The URL, directory, ref and commit are interpolated as they are;
  `EscapedValues` / `UnescapedValues` state the split.
- **A present ref.** A ref is present whenever it is not nil, so an empty
  string counts: in Ruby `""` is truthy. `ref` is an `Option<string>` and
  `Some("")` is a present ref.
- **The sparse pull.** It reuses `clone_args` unchanged. With no ref, that
  includes ` --branch=<branch>`, an option of `git clone` that `git pull` does
  not take. This is modelled as written.
- **Attributes in sparse mode.** None of the sparse commands carries any
  attribute, including the network pull.
- **The final checkout.** It exists only in standard mode. There, with or
  without a ref or pull request, it carries only `timing: false`.

## Model

| member | source | states |
|---|---|---|
| Clone.Apply | lib/travis/build/git/clone.rb:7-26 | The step emits exactly one operation, a fold named `git.checkout`. |
| ModeProperties.ModeSelection | lib/travis/build/git/clone.rb:7-26 | The plan is one `git.checkout` fold and no other fold occurs. Its body starts with the existence test exactly when sparse checkout is off, and with `git init` exactly when it is on. Across the whole plan there is one test and no `git init` in standard mode, and no test and one `git init` in sparse mode. |
| ModeProperties.StandardShape | lib/travis/build/git/clone.rb:17-24 | Standard mode: one fold, one conditional, no `git init` anywhere in the plan. |
| ModeProperties.SparseShape | lib/travis/build/git/clone.rb:8-15 | Sparse mode: one fold, no conditional, exactly one `git init` in the plan. |
| ArgsProperties.CloneArgsShape | lib/travis/build/git/clone.rb:52-57 | The clone arguments start with `--depth=` and the escaped depth. ` --branch=` and the escaped branch follow exactly when no ref is given. ` --quiet` is last exactly when quiet is set. The length leaves room for nothing else, and no value in them is unescaped. |
| ArgsProperties.CloneArgsRendered | lib/travis/build/git/clone.rb:52-57 | Rendered, the arguments are exactly `--depth=` + escape(depth.to_s), then ` --branch=` + escape(branch) when no ref is given, then ` --quiet` when quiet is set. |
| EscapingProperties.EscapedInArgs | lib/travis/build/git/clone.rb:75-81 | The only values the clone arguments pass through the escaper are the depth's `to_s`, then the branch when no ref is given, in that order. |
| StandardProperties.StandardFirstStep | lib/travis/build/git/clone.rb:30-38 | The first standard step is a test rendering `! -d <dir>/.git`. Its then-branch is the single command `git clone <args> <url> <dir>`, asserted and retried. Its else-branch is `git -C <dir> fetch origin` (asserted, retried), then `git -C <dir> reset --hard` (asserted, untimed, not retried). |
| StandardProperties.RenderClone | lib/travis/build/git/clone.rb:32 | The clone command renders as `git clone `, the rendered arguments, the URL and the directory, separated by single spaces. |
| StandardProperties.RefFetchCount | lib/travis/build/git/clone.rb:7-26 | A `git fetch origin +` command occurs anywhere in the plan exactly once when a ref is given in standard mode, and never otherwise. |
| StandardProperties.RefFetchPlacement | lib/travis/build/git/clone.rb:17-24 | The standard body has four steps with a ref and three without. The first is the test and the second is `cd <dir>`; the last is the checkout. With a ref, the third renders `git fetch origin +<ref>:` and is asserted and retried. |
| StandardProperties.FinalCheckout | lib/travis/build/git/clone.rb:48-50 | The last standard step renders `git checkout -qf FETCH_HEAD` for a pull request and `git checkout -qf <commit>` otherwise. It is untimed, with neither assert nor retry. |
| StandardProperties.FinalCheckoutIgnoresRef | lib/travis/build/git/clone.rb:48-50 | Changing only the ref leaves the final checkout unchanged. |
| StandardProperties.StandardAttributes | lib/travis/build/git/clone.rb:30-50 | In standard mode the final checkout is the only command without assert. Retried commands: three with a ref, two without. Exactly two commands are untimed (the hard reset and the checkout). |
| SparseProperties.SparseOrder | lib/travis/build/git/clone.rb:8-15 | The sparse body has exactly `|files| + 5` steps, in order: `git init <dir>`, `git remote add origin <url>`, `cd <dir>`, `git config core.sparseCheckout true`, one append of each pattern to `.git/info/sparse-checkout` in list order, and `git pull origin` followed by the same rendered clone arguments. Every command has no attributes. |
| Clone.SparseAppends | lib/travis/build/git/clone.rb:70-72 | One append per pattern; the k-th appends the k-th pattern to `.git/info/sparse-checkout` in append mode. |
| SparseProperties.SparseAppendLines | lib/travis/build/git/clone.rb:70-72 | Reading the appended lines back from the appends gives the pattern list itself. |
| SparseProperties.SparseAppendsFollowList | lib/travis/build/git/clone.rb:68-73 | Over the whole plan, the appended lines are exactly the patterns in list order in sparse mode and none otherwise. The number of appends equals the number of patterns, and every append goes to the sparse-checkout file in append mode. |
| SparseProperties.SparseAttributes | lib/travis/build/git/clone.rb:59-66 | In sparse mode no command carries any attribute. |
| EscapingProperties.EscapedValues | lib/travis/build/git/clone.rb:75-81 | In either mode, the values passed through the escaper anywhere in the plan are exactly the depth's `to_s`, then the branch when no ref is given. |
| EscapingProperties.UnescapedValues | lib/travis/build/git/clone.rb:30-50 | The values interpolated unescaped are exactly the directory and the URL. In standard mode they also include the ref when given, and the commit when the build is not a pull request. |
| RubyText.ToS | lib/travis/build/git/clone.rb:76 | `to_s` of a string is itself, of nil is empty, and of a boolean is `true` or `false`. Of an integer it is the integer's decimal form (`IntToS`): non-empty, and all digits exactly when the integer is non-negative. |
| RubyText.IntToS | lib/travis/build/git/clone.rb:76 | An integer prints as decimal digits, with a leading `-` exactly when it is negative. |
| RubyText.IntToSInjective | lib/travis/build/git/clone.rb:76 | Distinct integer depths print as distinct strings. |
| RubyText.DecimalRoundTrip | lib/travis/build/git/clone.rb:76 | Reading back the decimal digits printed for a natural number gives the number. |
| Scenarios.BranchBuild | lib/travis/build/git/clone.rb:17-24 | Branch `main`, commit `abc123`, no ref, not a pull request: three steps. The clone carries `--depth=` and `--branch=`, and the checkout is of `abc123`. There is no ref fetch. |
| Scenarios.PullRequestBuild | lib/travis/build/git/clone.rb:17-24 | Ref `refs/pull/5/merge`, pull request: four steps. The clone carries no branch and the ref is fetched third. The checkout is of `FETCH_HEAD`. |
| Scenarios.SparseBuild | lib/travis/build/git/clone.rb:8-15 | Sparse checkout of `src/*` and `docs/*`: seven steps, with the two appends in order and the pull carrying `--depth=` and `--branch=`. |

## Left out

- The shell builder and everything the executor does: running commands, retry and backoff, assert handling, timing, how `cd` and file appends are carried out. The plan is returned as a value instead.
- `Shellwords#shellescape`: its behaviour is not modelled. `Render` takes the escaper as a parameter, and every property holds for any escaper.
- Configuration loading and hash lookups (`config[:git][...]`). The model takes the `git:` settings already parsed. A missing `git:` section, which raises in Ruby, is not modelled.
- Ruby truthiness of `quiet`, `sparse_checkout` and `pull_request`: each is modelled as the boolean its truthiness gives.
- RubyText.ToS: covers integers, strings, booleans and nil. Other YAML kinds a depth could arrive as (floats, lists, maps) are not modelled.
- Clone.SparseCheckoutFiles: is a list of strings. A nil list, which raises `NoMethodError` on `each` in Ruby, is not modelled. Non-string patterns are taken as already converted by `to_s`.
- Clone.FetchRef: renders a missing ref as empty text. The source never calls it without a ref, so this case does not occur in any plan.
- `spec/addons/sauce_connect_spec.rb` is about an unrelated addon and is not part of this model.
