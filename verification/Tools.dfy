/** The registry of trusted tools, and the gate a call passes before it can be dispatched. */
module Tools {
  import opened Contracts

  /** Validation and execution are the application's; their answers are in Scripts. */
  datatype Tool = Tool(name: string, externalAction: bool, observation: bool, description: string, parametersJson: string)

  /** Registered names are nonempty and distinct. */
  predicate Registry(tools: seq<Tool>) {
    && (forall i :: 0 <= i < |tools| ==> tools[i].name != "")
    && forall i, k :: 0 <= i < k < |tools| ==> tools[i].name != tools[k].name
  }

  function Lookup(tools: seq<Tool>, name: string): (t: Option<Tool>)
    ensures t.Some? ==> t.value in tools && t.value.name == name
    ensures t.None? ==> forall i :: 0 <= i < |tools| ==> tools[i].name != name
  {
    if tools == [] then None
    else if tools[0].name == name then Some(tools[0]) else Lookup(tools[1..], name)
  }

  function SpecOf(tool: Tool): ToolSpec { ToolSpec(tool.name, tool.description, tool.parametersJson) }

  /** The granted tools' descriptions, in registration order. */
  function SpecsOf(tools: seq<Tool>, grants: seq<string>): seq<ToolSpec> {
    if tools == [] then []
    else
      var n := |tools| - 1;
      SpecsOf(tools[..n], grants) + if tools[n].name in grants then [SpecOf(tools[n])] else []
  }

  /** Exactly the granted and registered tools are described. */
  lemma {:induction false} SpecsAreGranted(tools: seq<Tool>, grants: seq<string>, spec: ToolSpec)
    ensures spec in SpecsOf(tools, grants) <==> exists t :: t in tools && t.name in grants && spec == SpecOf(t)
  {
    if tools != [] {
      var n := |tools| - 1;
      SpecsAreGranted(tools[..n], grants, spec);
      assert tools == tools[..n] + [tools[n]];
    }
  }

  /** The validator's exception, as the broker passes it on: a budget error unchanged, any other
      ValueError as a rejected proposal, anything else unchanged. */
  function PassOn(e: Error): Error {
    if e.Class() == BudgetExhausted then e
    else if e.IsValueError() then Refused(InvalidArguments)
    else e
  }

  function Prepared(tools: seq<Tool>, call: ToolCall, grants: seq<string>, validation: Option<Error>): Outcome<Tool> {
    if call.name !in grants then Raised(Refused(ToolNotGranted))
    else if Lookup(tools, call.name).None? then Raised(Refused(ToolNotRegistered))
    else if validation.Some? then Raised(PassOn(validation.value))
    else Ok(Lookup(tools, call.name).value)
  }

  class ToolBroker {
    var tools: seq<Tool>

    ghost predicate Valid()
      reads this
    {
      Registry(tools)
    }

    constructor Empty()
      ensures Valid() && tools == []
    {
      tools := [];
    }

    /** Registers every tool, or refuses: exactly when some name is empty or repeated. */
    static method Create(tools: seq<Tool>) returns (r: Outcome<ToolBroker>)
      ensures r.Ok? <==> Registry(tools)
      ensures r.Ok? ==> fresh(r.value) && r.value.Valid() && r.value.tools == tools
      ensures r.Raised? ==> r.error == Refused(BadToolName)
    {
      var broker := new ToolBroker.Empty();
      for i := 0 to |tools|
        invariant broker.tools == tools[..i] && fresh(broker)
        invariant Registry(tools[..i])
      {
        if tools[i].name == "" || Lookup(broker.tools, tools[i].name).Some? {
          return Raised(Refused(BadToolName));
        }
        broker.tools := broker.tools + [tools[i]];
        assert tools[..i + 1] == tools[..i] + [tools[i]];
      }
      assert tools[..|tools|] == tools;
      r := Ok(broker);
    }

    method Specifications(grants: seq<string>) returns (specs: seq<ToolSpec>)
      ensures specs == SpecsOf(tools, grants)
    {
      specs := [];
      for i := 0 to |tools|
        invariant specs == SpecsOf(tools[..i], grants)
      {
        assert tools[..i + 1][..i] == tools[..i];
        if tools[i].name in grants {
          specs := specs + [SpecOf(tools[i])];
        }
      }
      assert tools[..|tools|] == tools;
    }

    /** validation is what the tool's own validator raises for these arguments, if anything. */
    method Prepare(call: Dynamic<ToolCall>, grants: seq<string>, validation: Option<Error>) returns (r: Outcome<Tool>)
      ensures r == if call.Foreign? then Raised(Refused(WrongType)) else Prepared(tools, call.value, grants, validation)
    {
      if call.Foreign? {
        return Raised(Refused(WrongType));
      }
      if call.value.name !in grants {
        return Raised(Refused(ToolNotGranted));
      }
      var tool := Lookup(tools, call.value.name);
      if tool.None? {
        return Raised(Refused(ToolNotRegistered));
      }
      if validation.Some? {
        if validation.value.Class() == BudgetExhausted {
          return Raised(validation.value);
        }
        if validation.value.IsValueError() {
          return Raised(Refused(InvalidArguments));
        }
        return Raised(validation.value);
      }
      r := Ok(tool.value);
    }
  }

  /** What a prepared tool vouches for, and what each refusal means: a grant is asked for first, then the registration,
      and a validator's plain ValueError is passed on as a rejected proposal, a budget's or any other exception as it is. */
  lemma PreparedIsGranted(tools: seq<Tool>, call: ToolCall, grants: seq<string>, validation: Option<Error>)
    ensures Prepared(tools, call, grants, validation).Ok? <==>
      call.name in grants && (exists t :: t in tools && t.name == call.name) && validation.None?
    ensures Prepared(tools, call, grants, validation).Ok? ==>
      var t := Prepared(tools, call, grants, validation).value; t in tools && t.name == call.name
    ensures call.name !in grants ==> Prepared(tools, call, grants, validation) == Raised(Refused(ToolNotGranted))
    ensures call.name in grants && (forall t :: t in tools ==> t.name != call.name) ==>
      Prepared(tools, call, grants, validation) == Raised(Refused(ToolNotRegistered))
    ensures call.name in grants && (exists t :: t in tools && t.name == call.name) && validation.Some? ==>
      Prepared(tools, call, grants, validation)
        == Raised(if validation.value.IsValueError() && validation.value.Class() != BudgetExhausted
                  then Refused(InvalidArguments) else validation.value)
    ensures Prepared(tools, call, grants, validation).Raised? && Prepared(tools, call, grants, validation).error.IsProposalRejected() ==>
      validation.Some? && validation.value.IsValueError() && validation.value.Class() != BudgetExhausted
  {
  }

  /** Class ProposalRejected is the one class of rejected arguments, and a ValueError like every refusal of the library. */
  lemma RejectionsAreTyped(e: Error)
    ensures Refused(InvalidArguments).IsProposalRejected()
    ensures e.IsProposalRejected() || e.IsInferenceRejected() ==> e.IsValueError()
  {
  }

  /** Descriptions are given in registration order, each with its tool's own name, text and parameters. */
  lemma {:induction false} SpecsFollowRegistration(first: seq<Tool>, second: seq<Tool>, grants: seq<string>)
    ensures SpecsOf(first + second, grants) == SpecsOf(first, grants) + SpecsOf(second, grants)
  {
    if second == [] {
      assert first + second == first;
    } else {
      var n := |second| - 1;
      assert (first + second)[..|first| + n] == first + second[..n];
      SpecsFollowRegistration(first, second[..n], grants);
    }
  }

  lemma SpecOfOne(tool: Tool, grants: seq<string>)
    ensures SpecsOf([], grants) == []
    ensures SpecsOf([tool], grants)
         == if tool.name in grants then [ToolSpec(tool.name, tool.description, tool.parametersJson)] else []
  {
    assert [tool][..0] == [];
  }
}
