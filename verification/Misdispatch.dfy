/** A definition that is accepted and runs, in which a decision for a tool is carried out by a
    retriever node. */
module Misdispatch {
  import opened Domain
  import opened Graph
  import opened Validator
  import opened Compiler
  import opened Execution
  import Subagents

  const PLAIN := Config([], None, None, None, None, [], "")
  const CHOOSER := NodeDef("s", Supervisor, PLAIN)
  const NAMELESS := NodeDef("", Tool, PLAIN)
  const NONE := NodeDef("None", Rag, PLAIN)

  function Definition(): AgentDefinition {
    AgentDefinition([CHOOSER, NAMELESS, NONE], [], "s")
  }

  /** The Supervisor asks for a tool and names no node. */
  function Oracle(): nat -> Reply {
    _ => Reply(false, None, false, "", Decision(UseTool, None, None, None, None, []),
               Subagents.World({}, {}, k => Subagents.Reply(false, "", None, None), k => ""))
  }

  lemma SupervisorsOf()
    ensures Supervisors(Definition().nodes) == [CHOOSER]
  {
    var nodes := Definition().nodes;
    assert nodes[..2] == [CHOOSER, NAMELESS] && nodes[..2][..1] == [CHOOSER];
    assert Supervisors([CHOOSER]) == [CHOOSER];
    assert Supervisors([CHOOSER, NAMELESS]) == [CHOOSER];
  }

  lemma Accepted()
    ensures ValidDefinition(Definition())
  {
    var d := Definition();
    SupervisorsOf();
    assert |CHOOSER.id| == 1 && |NAMELESS.id| == 0 && |NONE.id| == 4;
    assert Roots(d) == {"s"} by {
      assert CHOOSER in d.nodes;
    }
    forall n | n in Ids(d.nodes)
      ensures Reaches(Adjacency(d), Roots(d), n)
    {
      RootReached(Adjacency(d), Roots(d), "s");
      if n != "s" {
        assert CHOOSER in d.nodes && NAMELESS in d.nodes && NONE in d.nodes;
        assert Step(Adjacency(d), "s", n);
        StepReached(Adjacency(d), Roots(d), "s", n);
      }
    }
  }

  lemma Runs()
    ensures var c := CompiledOf(Definition());
            Compiled(c) && Executable(c) && WellFormed(ProgramOf(c))
  {
    var c := CompiledOf(Definition());
    Accepted();
    CompiledIsIndexed(c);
    SupervisorsOf();
    assert CHOOSER in c.definition.nodes;
    forall n | n in c.definition.nodes
      ensures LinearAt(c, n)
    {
    }
    ProgramWellFormed(c);
  }

  /** The tool decision makes the retriever run. */
  lemma ToolDecisionRunsRetriever()
    ensures ValidDefinition(Definition())
    ensures var p := ProgramOf(CompiledOf(Definition()));
            && WellFormed(p)
            && var v := Attempt(p, ReAct(8), Fresh("hi", "r"), Oracle(), 2).visits;
            && |v| == 2
            && v[0].kind.Supervisor? && DecisionOf(v[0]).Some? && DecisionOf(v[0]).value.action.UseTool?
            && v[1].node == "None" && v[1].kind.Rag? && v[1].end.Patched?
  {
    Accepted();
    Runs();
    var c := CompiledOf(Definition());
    CompiledIsIndexed(c);
    SupervisorsOf();
    var p := ProgramOf(c);
    assert CHOOSER in c.definition.nodes && NAMELESS in c.definition.nodes && NONE in c.definition.nodes;
    assert p.nodes["s"] == CHOOSER && p.nodes[""] == NAMELESS && p.nodes["None"] == NONE;
    TwoSteps(p);
  }

  lemma TwoSteps(p: Program)
    requires WellFormed(p) && p.entry == "s" && p.supervisor == Some("s")
    requires "s" in p.nodes && "" in p.nodes && "None" in p.nodes
    requires p.nodes["s"] == CHOOSER && p.nodes[""] == NAMELESS && p.nodes["None"] == NONE
    ensures var v := Attempt(p, ReAct(8), Fresh("hi", "r"), Oracle(), 2).visits;
            && |v| == 2
            && v[0].kind.Supervisor? && DecisionOf(v[0]).Some? && DecisionOf(v[0]).value.action.UseTool?
            && v[1].node == "None" && v[1].kind.Rag? && v[1].end.Patched?
  {
    assert NodeOk(p, "s") && NodeOk(p, "") && NodeOk(p, "None");
    var s := Fresh("hi", "r");
    var first := RunNode(p.nodes, CHOOSER, s, Oracle()(0), ReAct(8));
    var t := Merged(s, first.patch);
    assert After(p, "s", t) == Some(To("None"));
    var second := RunNode(p.nodes, NONE, t, Oracle()(1), ReAct(8));
    assert second.Patched?;
    assert After(p, "None", Merged(t, second.patch)) == Some(To("s"));
  }
}
