/**
 * The link-time-optimisation helpers of infra/instances/helpers/llvm_lto.py:
 * passing options to the linker plugin and enabling a statistics pass.
 */
module Lto {

  import Strs
  import Context

  /** The linker flag that hands one option to the LTO plugin. */
  function PluginOpt(arg: string): (r: string)
    ensures Strs.StartsWith(r, "-Wl,-plugin-opt=") && r[16..] == arg
  {
    "-Wl,-plugin-opt=" + arg
  }

  /** The flags `add_lto_args` appends, one per argument, in order. */
  function PluginOpts(args: seq<string>): (r: seq<string>)
    ensures |r| == |args| && forall k :: 0 <= k < |args| ==> r[k] == PluginOpt(args[k])
  {
    if |args| == 0 then [] else PluginOpts(args[..|args| - 1]) + [PluginOpt(args[|args| - 1])]
  }

  /** `add_lto_args`: the flags are appended after the existing ones. */
  method AddLtoArgs(ctx: Context.Ctx, args: seq<string>)
    modifies ctx`ldflags
    ensures ctx.ldflags == old(ctx.ldflags) + PluginOpts(args)
  {
    for k := 0 to |args|
      invariant ctx.ldflags == old(ctx.ldflags) + PluginOpts(args[..k])
    {
      assert args[..k + 1][..k] == args[..k];
      ctx.ldflags := ctx.ldflags + [PluginOpt(args[k])];
    }
    assert args[..|args|] == args;
  }

  /** The pass name with a leading '-', added only when missing. */
  function StatsPassName(pass: string): (r: string)
    ensures Strs.StartsWith(r, "-")
    ensures Strs.StartsWith(pass, "-") ==> r == pass
    ensures !Strs.StartsWith(pass, "-") ==> r == "-" + pass
  {
    if Strs.StartsWith(pass, "-") then pass else "-" + pass
  }

  /** Normalising the pass name twice is normalising it once. */
  lemma StatsPassNameIdempotent(pass: string)
    ensures StatsPassName(StatsPassName(pass)) == StatsPassName(pass)
  {
  }

  /** The plugin options of `add_stats_pass`: the pass, the statistics filter, then the extra arguments. */
  function StatsArgs(pass: string, args: seq<string>): seq<string>
  {
    var p := StatsPassName(pass);
    [p, "-stats-only=" + p] + args
  }

  /** `add_stats_pass`. */
  method AddStatsPass(ctx: Context.Ctx, pass: string, args: seq<string>)
    modifies ctx`ldflags
    ensures ctx.ldflags == old(ctx.ldflags) + PluginOpts(StatsArgs(pass, args))
  {
    var p := pass;
    if !Strs.StartsWith(p, "-") {
      p := "-" + p;
    }
    AddLtoArgs(ctx, [p, "-stats-only=" + p] + args);
  }

  /**
   * `add_stats_pass` adds two flags plus one per extra argument: the pass,
   * its statistics filter, and the extra arguments in order.
   */
  lemma StatsFlags(pass: string, args: seq<string>)
    ensures var fs := PluginOpts(StatsArgs(pass, args));
      && |fs| == 2 + |args|
      && fs[0] == PluginOpt(StatsPassName(pass))
      && fs[1] == PluginOpt("-stats-only=" + StatsPassName(pass))
      && forall k :: 0 <= k < |args| ==> fs[2 + k] == PluginOpt(args[k])
  {
    var s := StatsArgs(pass, args);
    assert forall k :: 0 <= k < |args| ==> s[2 + k] == args[k];
  }
}
