/** Captured files followed through any number of merges. */
module Lineage {
  import opened Wrappers
  import opened Bytes
  import opened Trees
  import opened TreeMerge
  import opened MergeFates
  import opened MergeTracks
  import opened MergeFallbacks

  /** Where a captured file is now; `seed` names the commit its last new name came from. */
  datatype Traced = Traced(target: Path, content: nat, mtime: nat, seed: Bytes)

  type Traces = map<Path, Traced>

  /** The traces after one effect: moved along, given up, or as they were. */
  function ApplyOne(traces: Traces, e: Effect, seedId: Bytes): Traces {
    map source | source in traces && FollowOne(e, traces[source].target).Some? ::
      if e.Move? && e.path <= traces[source].target
      then traces[source].(target := FollowOne(e, traces[source].target).value, seed := seedId)
      else traces[source]
  }

  function ApplyAll(traces: Traces, effects: seq<Effect>, seedId: Bytes): Traces {
    if effects == [] then traces else ApplyAll(ApplyOne(traces, effects[0], seedId), effects[1..], seedId)
  }

  /** Applying the effects follows every target on its own. */
  lemma {:induction false} ApplyAllFollows(traces: Traces, effects: seq<Effect>, seedId: Bytes, source: Path)
    ensures source in ApplyAll(traces, effects, seedId) <==> source in traces && Follow(effects, traces[source].target).Some?
    ensures source in ApplyAll(traces, effects, seedId) ==>
              var now := ApplyAll(traces, effects, seedId)[source];
              now.target == Follow(effects, traces[source].target).value && now.content == traces[source].content
              && now.mtime == traces[source].mtime
  {
    if effects != [] {
      ApplyAllFollows(ApplyOne(traces, effects[0], seedId), effects[1..], seedId, source);
    }
  }

  /** Every trace leads to a file with the captured content, and no two traces lead to the same place. */
  ghost predicate Faithful(traces: Traces, root: Node) {
    && (forall s :: s in traces ==> FileAt(root, traces[s].target, traces[s].content))
    && (forall s, t :: s in traces && t in traces && s != t ==> traces[s].target != traces[t].target)
  }

  /** One round of merging: what Local is merged with. */
  datatype Round = Round(cfg: Config, base: Node, remote: Node)

  /** The merge succeeds, and no place that it gave in the fallback directory is taken away again by the next request. */
  ghost predicate Succeeds(round: Round, local: Node) {
    && round.base.Dir? && local.Dir? && round.remote.Dir?
    && MergeTrees(round.cfg, round.base, local, round.remote).Some? && !Retaken(round.cfg, round.base, local, round.remote)
  }

  ghost function Result(round: Round, local: Node): Final
    requires Succeeds(round, local)
  {
    MergeTrees(round.cfg, round.base, local, round.remote).value
  }

  /** One merge keeps the traces faithful. */
  lemma RoundKeepsTraces(round: Round, local: Node, traces: Traces)
    requires Succeeds(round, local) && Faithful(traces, local)
    ensures Faithful(ApplyAll(traces, Result(round, local).effects, round.cfg.seedId), Result(round, local).node)
  {
    var final := Result(round, local);
    var after := ApplyAll(traces, final.effects, round.cfg.seedId);
    forall s | s in after
      ensures FileAt(final.node, after[s].target, after[s].content)
    {
      ApplyAllFollows(traces, final.effects, round.cfg.seedId, s);
      NoLocalEditLost(round.cfg, round.base, local, round.remote, traces[s].target, traces[s].content);
    }
    forall s, t | s in after && t in after && s != t
      ensures after[s].target != after[t].target
    {
      ApplyAllFollows(traces, final.effects, round.cfg.seedId, s);
      ApplyAllFollows(traces, final.effects, round.cfg.seedId, t);
      FilesStayApart(round.cfg, round.base, local, round.remote, traces[s].target, traces[s].content,
                     traces[t].target, traces[t].content);
    }
  }

  /** A trace is given up only for a file that Local had left as it was in the base of that round. */
  lemma GivenUpWasUntouched(round: Round, local: Node, traces: Traces, source: Path)
    requires Succeeds(round, local) && Faithful(traces, local) && source in traces
    requires source !in ApplyAll(traces, Result(round, local).effects, round.cfg.seedId)
    ensures Untouched(round.base, local, traces[source].target)
  {
    ApplyAllFollows(traces, Result(round, local).effects, round.cfg.seedId, source);
    NoLocalEditLost(round.cfg, round.base, local, round.remote, traces[source].target, traces[source].content);
  }

  /** Local after some rounds, each merging what the one before produced. */
  ghost predicate AllSucceed(rounds: seq<Round>, local: Node) {
    rounds == [] || (Succeeds(rounds[0], local) && AllSucceed(rounds[1..], Result(rounds[0], local).node))
  }

  ghost function LastRoot(rounds: seq<Round>, local: Node): Node
    requires AllSucceed(rounds, local)
  {
    if rounds == [] then local else LastRoot(rounds[1..], Result(rounds[0], local).node)
  }

  ghost function LastTraces(rounds: seq<Round>, local: Node, traces: Traces): Traces
    requires AllSucceed(rounds, local)
  {
    if rounds == [] then traces
    else
      var final := Result(rounds[0], local);
      LastTraces(rounds[1..], final.node, ApplyAll(traces, final.effects, rounds[0].cfg.seedId))
  }

  /** Across any sequence of merges every surviving trace leads to its file, and distinct files stay distinct. */
  lemma {:induction false} RunKeepsTraces(rounds: seq<Round>, local: Node, traces: Traces)
    requires AllSucceed(rounds, local) && Faithful(traces, local)
    ensures Faithful(LastTraces(rounds, local, traces), LastRoot(rounds, local))
  {
    if rounds != [] {
      var final := Result(rounds[0], local);
      RoundKeepsTraces(rounds[0], local, traces);
      RunKeepsTraces(rounds[1..], final.node, ApplyAll(traces, final.effects, rounds[0].cfg.seedId));
    }
  }

  /** The traces of a captured snapshot: every file where it was captured. */
  ghost predicate Captured(traces: Traces, root: Node) {
    forall s :: s in traces ==> traces[s].target == s && FileAt(root, s, traces[s].content)
  }

  /** From the captured snapshot on. */
  lemma CapturedRun(rounds: seq<Round>, root: Node, traces: Traces)
    requires Captured(traces, root) && AllSucceed(rounds, root)
    ensures Faithful(LastTraces(rounds, root, traces), LastRoot(rounds, root))
    ensures forall s :: s in LastTraces(rounds, root, traces) ==> s in traces && LastTraces(rounds, root, traces)[s].content == traces[s].content
  {
    RunKeepsTraces(rounds, root, traces);
    RunKeepsContents(rounds, root, traces);
  }

  lemma {:induction false} RunKeepsContents(rounds: seq<Round>, root: Node, traces: Traces)
    requires AllSucceed(rounds, root)
    ensures forall s :: s in LastTraces(rounds, root, traces) ==> s in traces && LastTraces(rounds, root, traces)[s].content == traces[s].content
  {
    if rounds != [] {
      var final := Result(rounds[0], root);
      var next := ApplyAll(traces, final.effects, rounds[0].cfg.seedId);
      RunKeepsContents(rounds[1..], final.node, next);
      forall s | s in next
        ensures s in traces && next[s].content == traces[s].content
      {
        ApplyAllFollows(traces, final.effects, rounds[0].cfg.seedId, s);
      }
    }
  }
}
