/**
  Three concrete checkout requests and the plans they produce, rendered with
  an arbitrary shell escaper and an arbitrary non-negative depth.
 */
module Scenarios {
  import opened Wrappers
  import opened Shell
  import opened RubyText
  import opened Clone
  import opened PlanWalk
  import opened ArgsProperties
  import opened StandardProperties
  import opened SparseProperties

  /**
    A branch build without a ref: the existence test cloning with the
    escaped depth and branch, the change of directory, and the checkout of
    the commit, with no ref fetch.
   */
  lemma BranchBuild(url: string, slug: string, n: nat, escape: string -> string)
    ensures var data := BuildData(url, None, "main", "abc123", false, slug,
                                  GitConfig(IntValue(n), false, false, []));
            var body := Body(data);
            && |body| == 3
            && body[0].If? && |body[0].thn| == 1
            && Render(CloneArgs(data), escape) == "--depth=" + escape(NatToDecimal(n)) + " --branch=" + escape("main")
            && Render(body[0].thn[0].text, escape)
               == "git clone " + Render(CloneArgs(data), escape) + " " + url + " " + slug
            && body[1] == Cd(slug)
            && Render(body[2].text, escape) == "git checkout -qf " + "abc123"
            && CountWhere(Nodes(Apply(data)), IsRefFetch) == 0
  {
    var data := BuildData(url, None, "main", "abc123", false, slug, GitConfig(IntValue(n), false, false, []));
    var args := "--depth=" + escape(NatToDecimal(n)) + " --branch=" + escape("main");
    assert ToS(data.config.depth) == NatToDecimal(n);
    assert Render(CloneArgs(data), escape) == args + "" by {
      CloneArgsRendered(data, escape);
    }
    assert args + "" == args;
    StandardFirstStep(data, escape);
    RefFetchPlacement(data, escape);
    FinalCheckout(data, escape);
    RefFetchCount(data);
  }

  /**
    A pull-request build with a ref: the clone carries no branch, the ref is
    fetched after the change of directory, and FETCH_HEAD is checked out.
   */
  lemma PullRequestBuild(url: string, slug: string, n: nat, escape: string -> string)
    ensures var data := BuildData(url, Some("refs/pull/5/merge"), "main", "abc123", true, slug,
                                  GitConfig(IntValue(n), false, false, []));
            var body := Body(data);
            && |body| == 4
            && body[0].If? && |body[0].thn| == 1
            && Render(CloneArgs(data), escape) == "--depth=" + escape(NatToDecimal(n))
            && Render(body[0].thn[0].text, escape)
               == "git clone " + Render(CloneArgs(data), escape) + " " + url + " " + slug
            && body[1] == Cd(slug)
            && Render(body[2].text, escape) == "git fetch origin +" + "refs/pull/5/merge" + ":"
            && Render(body[3].text, escape) == "git checkout -qf " + "FETCH_HEAD"
  {
    var data := BuildData(url, Some("refs/pull/5/merge"), "main", "abc123", true, slug,
                          GitConfig(IntValue(n), false, false, []));
    var args := "--depth=" + escape(NatToDecimal(n));
    assert ToS(data.config.depth) == NatToDecimal(n);
    assert Render(CloneArgs(data), escape) == args + "" + "" by {
      CloneArgsRendered(data, escape);
    }
    assert args + "" + "" == args;
    StandardFirstStep(data, escape);
    RefFetchPlacement(data, escape);
    FinalCheckout(data, escape);
  }

  /**
    A sparse build of two patterns: init, remote, change of directory,
    enabling, the two appends in order, and the pull with the clone
    arguments.
   */
  lemma SparseBuild(url: string, slug: string, branch: string, n: nat, escape: string -> string)
    ensures var data := BuildData(url, None, branch, "abc123", false, slug,
                                  GitConfig(IntValue(n), false, true, ["src/*", "docs/*"]));
            var body := Body(data);
            && |body| == 7
            && Render(body[0].text, escape) == "git init " + slug
            && Render(body[1].text, escape) == "git remote add origin " + url
            && body[2] == Cd(slug)
            && Render(body[3].text, escape) == "git config core.sparseCheckout true"
            && body[4] == AppendFile(".git/info/sparse-checkout", "src/*", true)
            && body[5] == AppendFile(".git/info/sparse-checkout", "docs/*", true)
            && Render(CloneArgs(data), escape) == "--depth=" + escape(NatToDecimal(n)) + " --branch=" + escape(branch)
            && Render(body[6].text, escape) == "git pull origin " + Render(CloneArgs(data), escape)
  {
    var data := BuildData(url, None, branch, "abc123", false, slug,
                          GitConfig(IntValue(n), false, true, ["src/*", "docs/*"]));
    var args := "--depth=" + escape(NatToDecimal(n)) + " --branch=" + escape(branch);
    assert ToS(data.config.depth) == NatToDecimal(n);
    assert Render(CloneArgs(data), escape) == args + "" by {
      CloneArgsRendered(data, escape);
    }
    assert args + "" == args;
    SparseOrder(data, escape);
  }
}
