/** A history of a valid pipeline whose TOOL runs twice. */
module ToolExamples {
  import opened Basics
  import opened Values
  import opened Pipelines
  import opened EdgeSelector
  import opened Keys
  import opened RunState
  import opened Advance
  import opened Invariants
  import opened CrashReplay
  import opened Histories
  import opened GateLoop
  import opened Redelivery
  import opened Dispatches
  import opened Scenarios

  /** A tool that counts its own runs in the context. */
  function Runs(ctx: Data): real {
    if "n" in ctx && ctx["n"].Num? then ctx["n"].n else 0.0
  }

  function CountRun(ctx: Data): Value {
    Dict(map["context_updates" := Dict(map["n" := Num(Runs(ctx) + 1.0)])])
  }

  function Registry(): Tools {
    Some((name, ctx) => CountRun(ctx))
  }

  function ToolNode(): Node {
    Coder("count", TOOL).(prompt := Some("count"))
  }

  /** start -> a -> count (TOOL) -> b -> end. */
  function ToolPipeline(): Pipeline {
    Pipeline("tool",
      [Bare("start", START), Coder("a", CODERGEN), ToolNode(), Coder("b", CODERGEN), Bare("end", EXIT)],
      [Link("start", "a"), Link("a", "count"), Link("count", "b"), Link("b", "end")], [])
  }

  function ToolEnv(): Env {
    Env(ToolPipeline(), Registry())
  }

  function ToolConfig(): Config {
    Equipped("tool", ToolPipeline(), Registry())
  }

  lemma ToolNodes()
    ensures
      var ns := ToolPipeline().nodes;
      && |ns| == 5 && ns[0] == Bare("start", START)
      && Lookup(ns, "a") == Some(Coder("a", CODERGEN)) && Lookup(ns, "count") == Some(ToolNode())
      && Lookup(ns, "start").Some? && Lookup(ns, "b").Some? && Lookup(ns, "end").Some?
  {
    hide Lookup;
    var ns := ToolPipeline().nodes;
    LookupIs(ns, ns[0]);
    LookupIs(ns, ns[1]);
    LookupIs(ns, ns[2]);
    LookupIs(ns, ns[3]);
    LookupIs(ns, ns[4]);
  }

  lemma ToolEdges()
    ensures OutEdges(ToolPipeline().edges, "start") == [Link("start", "a")]
    ensures OutEdges(ToolPipeline().edges, "a") == [Link("a", "count")]
  {
    hide OutEdges;
    OutEdgesOne(ToolPipeline().edges, "start", 0);
    OutEdgesOne(ToolPipeline().edges, "a", 1);
  }

  lemma ToolFed()
    ensures
      var p := ToolPipeline();
      Fed(p, "start", "a") && Fed(p, "a", "count") && Fed(p, "count", "b") && Fed(p, "b", "end")
  {
    var es := ToolPipeline().edges;
    assert es[0] in es && es[1] in es && es[2] in es && es[3] in es;
  }

  lemma ToolMiddle(i: nat)
    requires 0 < i < 4
    ensures Middle(ToolPipeline(), ToolPipeline().nodes[i])
  {
    hide Ids;
  }

  lemma ToolValid()
    ensures ValidPipeline(ToolPipeline())
  {
    hide ValidPipeline, Ids, Lookup, Fed, Middle;
    ToolFed();
    ToolNodes();
    forall i | 0 < i < 4
      ensures Middle(ToolPipeline(), ToolPipeline().nodes[i])
    {
      ToolMiddle(i);
    }
    ForwardValid(ToolPipeline(), [0, 0, 1, 2, 3]);
  }

  lemma ToolSafe()
    ensures SafeId("r") && SafeId("a") && forall n | n in ToolPipeline().nodes :: SafeId(n.id)
  {
    assert WithoutNewline("r") == "r" && WithoutNewline("start") == "start" && WithoutNewline("a") == "a";
    assert WithoutNewline("count") == "count" && WithoutNewline("b") == "b" && WithoutNewline("end") == "end";
  }

  /** On a valid pipeline with safe ids a TOOL step saves. */
  lemma ToolTailSaves(t: Turn, tool: Node)
    requires ValidPipeline(t.env.pipeline) && SafeId(t.key.run) && t.run.specId == t.before.specId
    requires forall n | n in t.env.pipeline.nodes :: SafeId(n.id)
    ensures ToolTail(t, tool).saved.Some?
  {
    hide ValidPipeline, SafeId, ToolTail, ToolContext, Select;
    ToolSends(t, tool);
    ToolSaves(t, tool);
  }

  /** a's completion runs the tool and saves what it leaves. */
  lemma RunsTool(s: State)
    requires Bijective(s) && Key("a") in s.rows && "r" in s.runs
    ensures
      var after := Step(ToolEnv(), s, Done(Key("a"), 1));
      && Bijective(after) && Key("a") in after.rows && "r" in after.runs
      && after.runs["r"].context == s.runs["r"].context + map["n" := Num(Runs(s.runs["r"].context) + 1.0)]
  {
    hide SafeId, ToolPipeline, Step, Bijective, KeyText, TailOf, ToolTail, Entered, Imprint;
    var e := Done(Key("a"), 1);
    var t := RunsToolTurn(s);
    ToolSavesContext(t, ToolNode());
    FirstStep(ToolEnv(), s, e, t);
    CountsRuns(t);
  }

  lemma RunsToolTurn(s: State) returns (t: Turn)
    requires Bijective(s) && Key("a") in s.rows && "r" in s.runs
    ensures TurnAt(ToolEnv(), s, Done(Key("a"), 1)) == Some(t) && t.key == Key("a") && t.env == ToolEnv()
    ensures t.run == s.runs["r"]
    ensures TailOf(t, MarkedRows(t, s.rows)) == ToolTail(t, ToolNode()) && ToolTail(t, ToolNode()).saved.Some?
  {
    hide ValidPipeline, SafeId, ToolPipeline, Lookup, OutEdges, Bijective, KeyText, TailOf, ToolTail, Entered, Select;
    ToolNodes();
    ToolEdges();
    ToolValid();
    ToolSafe();
    PlainTurn(ToolEnv(), s, Key("a"), 1);
    t := TurnOf(ToolEnv(), Key("a"), s.runs["r"], Done(Key("a"), 1));
    assert ChainLink(ToolPipeline(), "a", "count");
    OneEdgeEnters(t, "count");
    ToolEntered(t, ToolNode(), MarkedRows(t, s.rows));
    ToolTailSaves(t, ToolNode());
  }

  lemma CountsRuns(t: Turn)
    requires t.env == ToolEnv()
    ensures ToolContext(t, ToolNode()) == t.run.context + map["n" := Num(Runs(t.run.context) + 1.0)]
  {
    hide ToolPipeline;
  }

  /** Delivered once the completion leaves n at 1, delivered twice at 2. */
  lemma ToolRunsTwice()
    ensures
      var launch, a := Launch("r", "tool", map[], WHOLE), Deliver(Done(Key("a"), 1), WHOLE);
      var once, twice := StateAfter(ToolConfig(), [launch, a]), StateAfter(ToolConfig(), [launch, a, a]);
      && "r" in once.runs && once.runs["r"].context == map["n" := Num(1.0)]
      && "r" in twice.runs && twice.runs["r"].context == map["n" := Num(2.0)]
  {
    hide ValidPipeline, SafeId, ToolPipeline, Lookup, OutEdges, Step, Bijective, StateAfter, CrashAt, Registry;
    var launch, e := Launch("r", "tool", map[], WHOLE), Done(Key("a"), 1);
    var a := Deliver(e, WHOLE);
    ToolNodes();
    ToolEdges();
    ToolValid();
    ToolSafe();
    EquippedLaunched("tool", ToolPipeline(), Registry(), "r", Coder("a", CODERGEN));
    var s := StateAfter(ToolConfig(), [launch]);
    RunsTool(s);
    RunsTool(Step(ToolEnv(), s, e));
    EquippedDelivers("tool", ToolPipeline(), Registry(), [launch], e, WHOLE);
    EquippedDelivers("tool", ToolPipeline(), Registry(), [launch, a], e, WHOLE);
    WholeIsStep(ToolEnv(), s, e, WHOLE);
    WholeIsStep(ToolEnv(), Step(ToolEnv(), s, e), e, WHOLE);
    assert [launch] + [a] == [launch, a] && [launch, a] + [a] == [launch, a, a];
  }
}
