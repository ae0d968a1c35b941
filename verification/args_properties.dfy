/**
  The clone arguments rendered to the string the source concatenates.
 */
module ArgsProperties {
  import opened Shell
  import opened RubyText
  import opened Clone
  import opened PlanWalk

  /**
    The clone arguments begin with the escaped depth; the escaped branch
    follows exactly when no ref is given; ` --quiet` ends them exactly when
    quiet is configured; no value in them is interpolated unescaped.
   */
  lemma CloneArgsShape(data: BuildData)
    ensures var args := CloneArgs(data);
            && |args| == 2 + (if data.ref.None? then 2 else 0) + (if data.config.quiet then 1 else 0)
            && args[..2] == [Lit("--depth="), Esc(ToS(data.config.depth))]
            && (Lit(" --branch=") in args <==> data.ref.None?)
            && (data.ref.None? ==> args[2..4] == [Lit(" --branch="), Esc(data.branch)])
            && (args[|args| - 1] == Lit(" --quiet") <==> data.config.quiet)
            && (forall k :: 0 <= k < |args| ==> !args[k].Raw?)
  {
    var depth := [Lit("--depth="), Esc(DepthText(data))];
    var branch := if data.ref.None? then [Lit(" --branch="), Esc(data.branch)] else [];
    var quiet := if Quiet(data) then [Lit(" --quiet")] else [];
    assert CloneArgs(data) == depth + branch + quiet;
    assert (depth + branch + quiet)[..2] == depth;
  }

  /**
    The rendered clone arguments are the source's string: `--depth=` and the
    escaped depth, then ` --branch=` and the escaped branch unless a ref is
    given, then ` --quiet` when quiet is configured.
   */
  lemma CloneArgsRendered(data: BuildData, escape: string -> string)
    ensures Render(CloneArgs(data), escape)
            == "--depth=" + escape(ToS(data.config.depth))
               + (if data.ref.None? then " --branch=" + escape(data.branch) else "")
               + (if data.config.quiet then " --quiet" else "")
  {
    var depth := [Lit("--depth="), Esc(DepthText(data))];
    var branch := if data.ref.None? then [Lit(" --branch="), Esc(data.branch)] else [];
    var quiet := if Quiet(data) then [Lit(" --quiet")] else [];
    var d := "--depth=" + escape(ToS(data.config.depth));
    var b := if data.ref.None? then " --branch=" + escape(data.branch) else "";
    var q := if data.config.quiet then " --quiet" else "";
    assert Render(depth, escape) == d by {
      RenderPair(Lit("--depth="), Esc(DepthText(data)), escape);
    }
    assert Render(branch, escape) == b by {
      if data.ref.None? {
        RenderPair(Lit(" --branch="), Esc(data.branch), escape);
      }
    }
    assert Render(quiet, escape) == q by {
      if Quiet(data) {
        RenderSingle(Lit(" --quiet"), escape);
      }
    }
    calc {
      Render(CloneArgs(data), escape);
    ==
      Render(depth + branch + quiet, escape);
    == { RenderAppend(depth + branch, quiet, escape); }
      Render(depth + branch, escape) + q;
    == { RenderAppend(depth, branch, escape); }
      d + b + q;
    }
  }
}
