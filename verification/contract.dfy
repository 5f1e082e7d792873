/** The code generator of the `Contract` class: from a normalised class name
    and a parsed ABI it renders the Python source of a wrapper class with one
    method per contract function. Each rendering step looks up dictionary
    keys of the ABI entry in the same order as the Python code, so a missing
    key fails with the same `KeyError`. */
module Contract {
  import opened Abi
  import opened Text
  import Naming

  // ---------------------------------------------------------------------
  // Templates

  /** `CONTRACT_CLASS_TPL` filled in with the class name: the name follows
      `class ` on the first line, and the constructor stores the contract. */
  function ClassTemplate(className: string): (r: string)
    ensures StartsWith(r, "\nclass ") && OccursAt(r, className, 7)
    ensures EndsWith(r, "\n        self.contract = contract")
    ensures |r| == |className| + 83
  {
    "\nclass " + className + "(object):"
    + "\n    def __init__(self, contract):"
    + "\n        self.contract = contract"
  }

  /** The `def` line of `CONTRACT_FUNC_TPL`: the method name, then `self`
      followed directly by the two optional parameter texts. */
  function DefLine(funcName: string, argsWithComma: string, txWithComma: string): (r: string)
    ensures StartsWith(r, "\n    def ") && OccursAt(r, funcName, 9)
    ensures OccursAt(r, "(self", 9 + |funcName|)
    ensures EndsWith(r, argsWithComma + txWithComma + "):")
  {
    "\n    def " + funcName + "(self" + argsWithComma + txWithComma + "):"
  }

  /** The docstring line of `CONTRACT_FUNC_TPL`: the docs between triple quotes. */
  function DocLine(docs: string): (r: string)
    ensures StartsWith(r, "\n        \"\"\"") && EndsWith(r, "\"\"\"")
    ensures OccursAt(r, docs, 12) && |r| == |docs| + 15
  {
    "\n        \"\"\"" + docs + "\"\"\""
  }

  /** The `return` line of `CONTRACT_FUNC_TPL`: the contract function of the
      same name, applied to the arguments, then `call` or `transact` applied to `tx`. */
  function ReturnLine(funcName: string, args: string, call: string, tx: string): (r: string)
    ensures StartsWith(r, "\n        return self.contract.functions.") && OccursAt(r, funcName, 40)
    ensures OccursAt(r, "(" + args + ").", 40 + |funcName|)
    ensures EndsWith(r, call + "(" + tx + ")")
  {
    "\n        return self.contract.functions." + funcName + "(" + args + ")." + call + "(" + tx + ")"
  }

  /** `CONTRACT_FUNC_TPL` filled in with its seven fields: three lines, with
      the method name both in the `def` line and in the forwarded call, and
      the docs in between. */
  function FuncTemplate(funcName: string, argsWithComma: string, txWithComma: string,
                        docs: string, args: string, call: string, tx: string): (r: string)
    ensures var def := DefLine(funcName, argsWithComma, txWithComma);
            StartsWith(r, def)
            && OccursAt(r, funcName, 9)
            && OccursAt(r, docs, |def| + 12)
            && OccursAt(r, funcName, |def| + |docs| + 15 + 40)
            && EndsWith(r, call + "(" + tx + ")")
  {
    DefLine(funcName, argsWithComma, txWithComma) + DocLine(docs) + ReturnLine(funcName, args, call, tx)
  }

  // ---------------------------------------------------------------------
  // Docstring: `name(type: arg, ...) -> (type: out, ...)`

  /** An input in the docstring: `type: name`, with the raw (un-normalised) name. */
  function InputDoc(p: Param): string
  {
    p.typ + ": " + p.name
  }

  /** An output in the docstring: its bare type when unnamed, else `type: name`. */
  function OutputDoc(p: Param): string
  {
    if p.name != "" then p.typ + ": " + p.name else p.typ
  }

  function InputDocs(ps: seq<Param>): (docs: seq<string>)
    ensures |docs| == |ps|
    ensures forall k :: 0 <= k < |ps| ==> docs[k] == InputDoc(ps[k])
  {
    if ps == [] then [] else InputDocs(ps[..|ps| - 1]) + [InputDoc(ps[|ps| - 1])]
  }

  function OutputDocs(ps: seq<Param>): (docs: seq<string>)
    ensures |docs| == |ps|
    ensures forall k :: 0 <= k < |ps| ==> docs[k] == OutputDoc(ps[k])
  {
    if ps == [] then [] else OutputDocs(ps[..|ps| - 1]) + [OutputDoc(ps[|ps| - 1])]
  }

  /** The signature text the docstring holds, for a name, inputs and outputs:
      the name and the parenthesised input docs, then an arrow part exactly
      when there are outputs. */
  function Signature(name: string, inputs: seq<Param>, outputs: seq<Param>): (r: string)
    ensures var head := name + "(" + Join(", ", InputDocs(inputs)) + ")";
            StartsWith(r, head)
            && (outputs == [] <==> |r| == |head|)
            && (outputs != [] ==> OccursAt(r, " -> (", |head|) && EndsWith(r, ")"))
  {
    name + "(" + Join(", ", InputDocs(inputs)) + ")"
    + (if outputs == [] then "" else " -> (" + Join(", ", OutputDocs(outputs)) + ")")
  }

  /** What `_make_func_docs` returns: the signature, after reading the keys
      `name`, `inputs` and `outputs` in that order. */
  function FuncDocs(e: Entry): (r: Result<string>)
    ensures e.name.None? ==> r == Err(MissingKey("name"))
    ensures e.name.Some? && e.inputs.None? ==> r == Err(MissingKey("inputs"))
    ensures e.name.Some? && e.inputs.Some? && e.outputs.None? ==> r == Err(MissingKey("outputs"))
    ensures r.Ok? <==> e.name.Some? && e.inputs.Some? && e.outputs.Some?
  {
    var name :- Lookup(e.name, "name");
    var inputs :- Lookup(e.inputs, "inputs");
    var outputs :- Lookup(e.outputs, "outputs");
    Ok(Signature(name, inputs, outputs))
  }

  /** The first loop of `_make_func_docs`: `type: name` for every input. */
  method CollectInputDocs(inputs: seq<Param>) returns (args: seq<string>)
    ensures args == InputDocs(inputs)
  {
    args := [];
    var i := 0;
    while i < |inputs|
      invariant 0 <= i <= |inputs|
      invariant args == InputDocs(inputs[..i])
    {
      assert inputs[..i + 1][..i] == inputs[..i];
      args := args + [inputs[i].typ + ": " + inputs[i].name];
      i := i + 1;
    }
    assert inputs[..i] == inputs;
  }

  /** The second loop of `_make_func_docs`: `type: name` for every named
      output, the bare type for an unnamed one. */
  method CollectOutputDocs(outputs: seq<Param>) returns (rets: seq<string>)
    ensures rets == OutputDocs(outputs)
  {
    rets := [];
    var j := 0;
    while j < |outputs|
      invariant 0 <= j <= |outputs|
      invariant rets == OutputDocs(outputs[..j])
    {
      assert outputs[..j + 1][..j] == outputs[..j];
      if outputs[j].name != "" {
        rets := rets + [outputs[j].typ + ": " + outputs[j].name];
      } else {
        rets := rets + [outputs[j].typ];
      }
      j := j + 1;
    }
    assert outputs[..j] == outputs;
  }

  /** `_make_func_docs`: collects the pieces `r` of the signature, running
      the two loops above for `args` and `returns`, then joins the pieces. */
  method MakeFuncDocs(e: Entry) returns (docs: Result<string>)
    ensures docs == FuncDocs(e)
  {
    if e.name.None? {
      return Err(MissingKey("name"));
    }
    var name := e.name.value;
    var r: seq<string> := [name];
    if e.inputs.None? {
      return Err(MissingKey("inputs"));
    }
    var inputs := e.inputs.value;
    var args := CollectInputDocs(inputs);
    r := r + ["(", Join(", ", args), ")"];
    if e.outputs.None? {
      return Err(MissingKey("outputs"));
    }
    var outputs := e.outputs.value;
    if outputs != [] {
      r := r + [" -> "];
      var rets := CollectOutputDocs(outputs);
      r := r + ["(", Join(", ", rets), ")"];
    }
    assert FuncDocs(e) == Ok(Signature(name, inputs, outputs));
    assert Join("", r) == Signature(name, inputs, outputs) by {
      SignaturePieces(name, inputs, outputs);
      assert r == [name, "(", Join(", ", InputDocs(inputs)), ")"]
                 + (if outputs == [] then [] else [" -> ", "(", Join(", ", OutputDocs(outputs)), ")"]);
    }
    docs := Ok(Join("", r));
  }

  /** The pieces `_make_func_docs` collects join to the signature. */
  lemma SignaturePieces(name: string, inputs: seq<Param>, outputs: seq<Param>)
    ensures var head := [name, "(", Join(", ", InputDocs(inputs)), ")"];
            var tail := if outputs == [] then [] else [" -> ", "(", Join(", ", OutputDocs(outputs)), ")"];
            Join("", head + tail) == Signature(name, inputs, outputs)
  {
    PiecesText(name, Join(", ", InputDocs(inputs)), Join(", ", OutputDocs(outputs)), outputs == []);
  }

  lemma PiecesText(name: string, ins: string, outs: string, noOutputs: bool)
    ensures Join("", [name, "(", ins, ")"] + (if noOutputs then [] else [" -> ", "(", outs, ")"]))
         == name + "(" + ins + ")" + (if noOutputs then "" else " -> (" + outs + ")")
  {
    var head := [name, "(", ins, ")"];
    JoinFour(name, "(", ins, ")");
    if noOutputs {
      assert head + [] == head;
      assert name + "(" + ins + ")" + "" == name + "(" + ins + ")";
    } else {
      var tail := [" -> ", "(", outs, ")"];
      JoinAppend("", head, tail);
      JoinFour(" -> ", "(", outs, ")");
      assert " -> " + "(" == " -> (";
    }
  }

  lemma JoinFour(a: string, b: string, c: string, d: string)
    ensures Join("", [a, b, c, d]) == a + b + c + d
  {
    var xs := [a, b, c, d];
    assert xs[1..] == [b, c, d];
    assert xs[1..][1..] == [c, d];
    assert xs[1..][1..][1..] == [d];
    assert Join("", [c, d]) == c + d by {
      assert c + "" + d == c + d;
    }
    assert Join("", [b, c, d]) == b + c + d by {
      assert b + "" + (c + d) == b + c + d;
    }
    assert a + "" + (b + c + d) == a + b + c + d;
  }

  /** With no outputs the docstring is exactly `name(type: arg, ...)`, and it
      has no ` -> ` part as long as the name and the inputs contain no `>`. */
  lemma {:induction false} DocsWithoutOutputs(e: Entry)
    requires e.name.Some? && e.inputs.Some? && e.outputs == Some([])
    ensures FuncDocs(e) == Ok(e.name.value + "(" + Join(", ", InputDocs(e.inputs.value)) + ")")
    ensures '>' !in e.name.value
            && (forall k :: 0 <= k < |e.inputs.value| ==>
                  '>' !in e.inputs.value[k].typ && '>' !in e.inputs.value[k].name)
            ==> !Contains(FuncDocs(e).value, " -> ")
  {
    var name, inputs := e.name.value, e.inputs.value;
    assert FuncDocs(e) == Ok(Signature(name, inputs, []));
    var head := name + "(" + Join(", ", InputDocs(inputs)) + ")";
    assert head + "" == head;
    var docs := FuncDocs(e).value;
    if '>' !in name
       && forall k :: 0 <= k < |inputs| ==> '>' !in inputs[k].typ && '>' !in inputs[k].name
    {
      var argDocs := InputDocs(inputs);
      forall k | 0 <= k < |argDocs|
        ensures '>' !in argDocs[k]
      {
        assert argDocs[k] == inputs[k].typ + ": " + inputs[k].name;
      }
      JoinAvoidsChar(", ", argDocs, '>');
      assert '>' !in docs;
      NoArrowWithoutGreater(docs);
    }
  }

  /** With outputs the docstring is the input part followed by
      ` -> (type: out, ...)`, each unnamed output shown as its bare type. */
  lemma {:induction false} DocsWithOutputs(e: Entry)
    requires e.name.Some? && e.inputs.Some? && e.outputs.Some? && e.outputs.value != []
    ensures var head := e.name.value + "(" + Join(", ", InputDocs(e.inputs.value)) + ")";
            FuncDocs(e) == Ok(head + " -> (" + Join(", ", OutputDocs(e.outputs.value)) + ")")
            && OccursAt(FuncDocs(e).value, " -> ", |head|)
  {
    var head := e.name.value + "(" + Join(", ", InputDocs(e.inputs.value)) + ")";
    var tail := "(" + Join(", ", OutputDocs(e.outputs.value)) + ")";
    assert FuncDocs(e) == Ok(Signature(e.name.value, e.inputs.value, e.outputs.value));
    var docs := FuncDocs(e).value;
    assert docs == head + (" -> (" + Join(", ", OutputDocs(e.outputs.value)) + ")");
    assert docs == head + " -> (" + Join(", ", OutputDocs(e.outputs.value)) + ")";
    assert docs == head + " -> " + tail;
    assert docs[|head|..|head| + 4] == " -> ";
  }

  /** A single unnamed `uint256` output makes the docstring end in ` -> (uint256)`. */
  lemma SingleUnnamedOutput(e: Entry)
    requires e.name.Some? && e.inputs.Some?
    requires e.outputs == Some([Param("uint256", "")])
    ensures EndsWith(FuncDocs(e).value, " -> (uint256)")
  {
    DocsWithOutputs(e);
    var head := e.name.value + "(" + Join(", ", InputDocs(e.inputs.value)) + ")";
    assert Join(", ", OutputDocs([Param("uint256", "")])) == "uint256";
    assert head + " -> (" + "uint256" + ")" == head + " -> (uint256)";
    EndsWithAppended(head, " -> (uint256)");
  }

  // ---------------------------------------------------------------------
  // Arguments and the method text

  /** The normalised input names, in input order. */
  function NormalizedNames(inputs: seq<Param>, keywords: set<string>): seq<string>
  {
    seq(|inputs|, k requires 0 <= k < |inputs| => Naming.NormalizeName(inputs[k].name, keywords))
  }

  /** `_make_func_args`: the normalised input names joined by ", ". */
  function MakeFuncArgs(e: Entry, keywords: set<string>): (r: Result<string>)
    ensures r.Ok? <==> e.inputs.Some?
    ensures r.Err? ==> r.error == MissingKey("inputs")
    ensures e.inputs == Some([]) ==> r == Ok("")
  {
    var inputs :- Lookup(e.inputs, "inputs");
    Ok(Join(", ", NormalizedNames(inputs, keywords)))
  }

  /** The argument text lists the normalised names: splitting it at ", "
      gives them back one by one, in input order. */
  lemma ArgsRoundTrip(e: Entry, keywords: set<string>)
    requires e.inputs.Some? && |e.inputs.value| >= 1
    ensures SplitArgs(MakeFuncArgs(e, keywords).value) == NormalizedNames(e.inputs.value, keywords)
  {
    var names := NormalizedNames(e.inputs.value, keywords);
    forall k | 0 <= k < |names|
      ensures ',' !in names[k]
    {
      assert Naming.IsNameText(names[k]);
      forall j | 0 <= j < |names[k]|
        ensures names[k][j] != ','
      {
        assert Naming.IsNameChar(names[k][j]);
      }
    }
    SplitJoin(names);
  }

  /** The parameters the generated `def` takes between `self` and `tx`: the
      normalised input names, or none when they render as empty text. */
  function SignatureArgs(inputs: seq<Param>, keywords: set<string>): (params: seq<string>)
    ensures Join(", ", params) == Join(", ", NormalizedNames(inputs, keywords))
    ensures Join(", ", params) == "" ==> params == []
  {
    var names := NormalizedNames(inputs, keywords);
    if Join(", ", names) == "" then [] else names
  }

  /** `_make_func`: reads `stateMutability`, then the inputs (for the
      arguments), then `name`, then the docstring's keys, and fills in the
      method template: `call()` for a view, `transact(tx)` otherwise. */
  function MakeFunc(e: Entry, keywords: set<string>): (r: Result<string>)
    ensures e.stateMutability.None? ==> r == Err(MissingKey("stateMutability"))
    ensures e.stateMutability.Some? && e.inputs.None? ==> r == Err(MissingKey("inputs"))
    ensures e.stateMutability.Some? && e.inputs.Some? && e.name.None? ==> r == Err(MissingKey("name"))
    ensures e.stateMutability.Some? && e.inputs.Some? && e.name.Some? && e.outputs.None?
            ==> r == Err(MissingKey("outputs"))
    ensures r.Ok? <==> IsCompleteFunction(e)
  {
    var mutability :- Lookup(e.stateMutability, "stateMutability");
    var call := if mutability == "view" then "call" else "transact";
    var tx := if mutability == "view" then "" else "tx";
    var args :- MakeFuncArgs(e, keywords);
    var funcName :- Lookup(e.name, "name");
    var docs :- FuncDocs(e);
    Ok(FuncTemplate(
      funcName,
      if args != "" then ", " + args else "",
      if tx != "" then ", " + tx else "",
      docs, args, call, tx))
  }

  /** The fields `_make_func` fills the template with, for a complete entry.
      This only unfolds `MakeFunc` once; it is the first step of
      `ViewMethodCalls`, `OtherMethodTransacts` and `NoInputsNoSeparator`. */
  lemma MakeFuncFields(e: Entry, keywords: set<string>)
    requires IsCompleteFunction(e)
    ensures var args := MakeFuncArgs(e, keywords).value;
            var view := e.stateMutability.value == "view";
            MakeFunc(e, keywords) == Ok(FuncTemplate(
              e.name.value,
              if args != "" then ", " + args else "",
              if view then "" else ", tx",
              FuncDocs(e).value,
              args,
              if view then "call" else "transact",
              if view then "" else "tx"))
  {
    assert ", " + "tx" == ", tx";
  }

  /** How `self` and the argument text make up a parameter list. */
  lemma {:induction false} ParamListText(args: seq<string>, extra: seq<string>)
    requires Join(", ", args) == "" ==> args == []
    ensures Join(", ", ["self"] + args + extra)
         == "self" + (if Join(", ", args) != "" then ", " + Join(", ", args) else "")
            + (if extra != [] then ", " + Join(", ", extra) else "")
  {
    JoinAppend(", ", ["self"], args);
    JoinAppend(", ", ["self"] + args, extra);
  }

  /** A view function becomes a read-only call: the `def` takes `self` and
      the normalised arguments and no `tx`, its docstring is the signature,
      and the body ends in `.call()`. */
  lemma {:induction false} ViewMethodCalls(e: Entry, keywords: set<string>)
    requires IsCompleteFunction(e) && e.stateMutability.value == "view"
    ensures var name := e.name.value;
            var params := SignatureArgs(e.inputs.value, keywords);
            MakeFunc(e, keywords) == Ok(
              "\n    def " + name + "(" + Join(", ", ["self"] + params) + "):"
              + DocLine(FuncDocs(e).value)
              + ("\n        return self.contract.functions." + name
                 + "(" + Join(", ", params) + ").call()"))
  {
    MakeFuncFields(e, keywords);
    ViewText(e.name.value, FuncDocs(e).value, MakeFuncArgs(e, keywords).value,
             SignatureArgs(e.inputs.value, keywords));
  }

  /** The template filled for a view, read as a parameter list. */
  lemma ViewText(name: string, docs: string, args: string, params: seq<string>)
    requires Join(", ", params) == args && (args == "" ==> params == [])
    ensures FuncTemplate(name, if args != "" then ", " + args else "", "", docs, args, "call", "")
         == "\n    def " + name + "(" + Join(", ", ["self"] + params) + "):"
            + DocLine(docs)
            + ("\n        return self.contract.functions." + name + "(" + Join(", ", params) + ").call()")
  {
    var def := DefLine(name, if args != "" then ", " + args else "", "");
    var ret := ReturnLine(name, args, "call", "");
    assert def == "\n    def " + name + "(" + Join(", ", ["self"] + params) + "):" by {
      DefLineParams(name, args, params, []);
      assert ["self"] + params + [] == ["self"] + params;
    }
    assert ret == "\n        return self.contract.functions." + name + "(" + args + ").call()" by {
      ReturnLineText(name, args, "call", "");
      assert ")." + "call" + "(" + "" + ")" == ").call()";
    }
  }

  /** The `def` line lists `self`, the arguments and any extra parameters. */
  lemma DefLineParams(name: string, args: string, params: seq<string>, extra: seq<string>)
    requires Join(", ", params) == args && (args == "" ==> params == [])
    ensures DefLine(name, if args != "" then ", " + args else "",
                    if extra != [] then ", " + Join(", ", extra) else "")
         == "\n    def " + name + "(" + Join(", ", ["self"] + params + extra) + "):"
  {
    ParamListText(params, extra);
    DefLineList(name, if args != "" then ", " + args else "",
                if extra != [] then ", " + Join(", ", extra) else "");
  }

  /** The `def` line read as `self` followed by the two parameter texts. */
  lemma DefLineList(name: string, argsWithComma: string, txWithComma: string)
    ensures DefLine(name, argsWithComma, txWithComma)
         == "\n    def " + name + "(" + ("self" + argsWithComma + txWithComma) + "):"
  {
    assert "(self" == "(" + "self";
  }

  /** Any other mutability, `pure` included, becomes a transaction: the
      `def` takes a trailing `tx` after the normalised arguments and the body
      ends in `.transact(tx)`. */
  lemma {:induction false} OtherMethodTransacts(e: Entry, keywords: set<string>)
    requires IsCompleteFunction(e) && e.stateMutability.value != "view"
    ensures var name := e.name.value;
            var params := SignatureArgs(e.inputs.value, keywords);
            MakeFunc(e, keywords) == Ok(
              "\n    def " + name + "(" + Join(", ", ["self"] + params + ["tx"]) + "):"
              + DocLine(FuncDocs(e).value)
              + ("\n        return self.contract.functions." + name
                 + "(" + Join(", ", params) + ").transact(tx)"))
  {
    MakeFuncFields(e, keywords);
    TransactText(e.name.value, FuncDocs(e).value, MakeFuncArgs(e, keywords).value,
                 SignatureArgs(e.inputs.value, keywords));
  }

  /** The template filled for a transaction, read as a parameter list. */
  lemma TransactText(name: string, docs: string, args: string, params: seq<string>)
    requires Join(", ", params) == args && (args == "" ==> params == [])
    ensures FuncTemplate(name, if args != "" then ", " + args else "", ", tx", docs, args, "transact", "tx")
         == "\n    def " + name + "(" + Join(", ", ["self"] + params + ["tx"]) + "):"
            + DocLine(docs)
            + ("\n        return self.contract.functions." + name + "(" + Join(", ", params) + ").transact(tx)")
  {
    var argsWithComma := if args != "" then ", " + args else "";
    var def := DefLine(name, argsWithComma, ", tx");
    var ret := ReturnLine(name, args, "transact", "tx");
    assert def == "\n    def " + name + "(" + Join(", ", ["self"] + params + ["tx"]) + "):" by {
      DefLineParams(name, args, params, ["tx"]);
      assert ", " + Join(", ", ["tx"]) == ", tx";
    }
    assert ret == "\n        return self.contract.functions." + name + "(" + args + ").transact(tx)" by {
      ReturnLineText(name, args, "transact", "tx");
      assert ")." + "transact" + "(" + "tx" + ")" == ").transact(tx)";
    }
  }

  /** The `return` line with its fixed text gathered after the arguments. */
  lemma ReturnLineText(name: string, args: string, call: string, tx: string)
    ensures ReturnLine(name, args, call, tx)
         == "\n        return self.contract.functions." + name + "(" + args + (")." + call + "(" + tx + ")")
  {
  }

  /** With no inputs there is no argument separator: the `def` line reads
      `(self)` for a view and `(self, tx)` otherwise. */
  lemma NoInputsNoSeparator(e: Entry, keywords: set<string>)
    requires IsCompleteFunction(e) && e.inputs.value == []
    ensures StartsWith(MakeFunc(e, keywords).value,
              "\n    def " + e.name.value
              + (if e.stateMutability.value == "view" then "(self):" else "(self, tx):"))
  {
    var view := e.stateMutability.value == "view";
    assert MakeFuncArgs(e, keywords) == Ok("");
    MakeFuncFields(e, keywords);
    BareDefLine(e.name.value, view);
  }

  /** The `def` line without arguments. */
  lemma BareDefLine(name: string, view: bool)
    ensures DefLine(name, "", if view then "" else ", tx")
         == "\n    def " + name + (if view then "(self):" else "(self, tx):")
  {
    if view {
      assert "(self" + "" + "" + "):" == "(self):";
    } else {
      assert "(self" + "" + ", tx" + "):" == "(self, tx):";
    }
  }

  /** An input whose name is empty normalises to empty text, so a lone
      unnamed input leaves no argument at all: with `ViewMethodCalls` and
      `OtherMethodTransacts` the method is `def name(self)` (or
      `(self, tx)`) and forwards no argument to the contract. */
  lemma UnnamedInputDropped(e: Entry, keywords: set<string>)
    requires e.inputs.Some? && |e.inputs.value| == 1 && e.inputs.value[0].name == ""
    requires "" !in keywords
    ensures MakeFuncArgs(e, keywords) == Ok("")
    ensures SignatureArgs(e.inputs.value, keywords) == []
  {
    assert NormalizedNames(e.inputs.value, keywords) == [""];
  }

  // ---------------------------------------------------------------------
  // The class file

  /** What one ABI entry contributes: its `type` is read first; a function
      entry contributes its rendered method, any other entry nothing. */
  function EntryText(v: Entry, keywords: set<string>): (r: Result<string>)
    ensures v.kind.None? ==> r == Err(MissingKey("type"))
    ensures v.kind.Some? && v.kind.value != "function" ==> r == Ok("")
    ensures v.kind == Some("function") ==> r == MakeFunc(v, keywords)
    ensures r.Ok? <==> WellFormedEntry(v)
  {
    var kind :- Lookup(v.kind, "type");
    if kind != "function" then Ok("") else MakeFunc(v, keywords)
  }

  /** Running two rendering steps one after the other: the first error, or
      both texts in order. */
  function Chain(first: Result<string>, second: Result<string>): Result<string>
  {
    if first.Err? then first
    else if second.Err? then second
    else Ok(first.value + second.value)
  }

  /** The methods rendered for an ABI list, in list order; the first entry
      that fails stops the rendering with its error, which is then the
      error of one of the entries. */
  function RenderMethods(abi: seq<Entry>, keywords: set<string>): (r: Result<string>)
    ensures abi == [] ==> r == Ok("")
    ensures r.Err? ==> exists k :: 0 <= k < |abi| && EntryText(abi[k], keywords) == r
    decreases |abi|
  {
    if abi == [] then Ok("")
    else Chain(RenderMethods(abi[..|abi| - 1], keywords), EntryText(abi[|abi| - 1], keywords))
  }

  /** What `_make_class_file_content` returns: the class template followed
      by the rendered methods. */
  function ClassFileContent(className: string, abi: seq<Entry>, keywords: set<string>): (r: Result<string>)
    ensures abi == [] ==> r == Ok(ClassTemplate(className))
    ensures r.Ok? ==> StartsWith(r.value, ClassTemplate(className))
  {
    var methods := RenderMethods(abi, keywords);
    var header := ClassTemplate(className);
    assert methods.Ok? ==> (header + methods.value)[..|header|] == header;
    assert methods == Ok("") ==> header + methods.value == header;
    Chain(Ok(header), methods)
  }

  /** One step of the walk over the ABI list. */
  lemma ClassFileStep(className: string, abi: seq<Entry>, i: nat, keywords: set<string>)
    requires i < |abi|
    ensures ClassFileContent(className, abi[..i + 1], keywords)
         == Chain(ClassFileContent(className, abi[..i], keywords), EntryText(abi[i], keywords))
  {
    assert abi[..i + 1][..i] == abi[..i];
    ChainAssoc(Ok(ClassTemplate(className)), RenderMethods(abi[..i], keywords), EntryText(abi[i], keywords));
  }

  /** Once a prefix of the ABI fails, the class file fails with the same error. */
  lemma ClassFileFailedPrefix(className: string, abi: seq<Entry>, n: nat, keywords: set<string>)
    requires n <= |abi| && ClassFileContent(className, abi[..n], keywords).Err?
    ensures ClassFileContent(className, abi, keywords) == ClassFileContent(className, abi[..n], keywords)
  {
    FailedPrefixFails(abi, n, keywords);
  }

  /** `_make_class_file_content`: starts from the class template and appends
      one method per function entry while walking the ABI list. */
  method MakeClassFileContent(className: string, abi: seq<Entry>, keywords: set<string>)
    returns (r: Result<string>)
    ensures r == ClassFileContent(className, abi, keywords)
  {
    var text := ClassTemplate(className);
    var i := 0;
    assert abi[..0] == [];
    while i < |abi|
      invariant 0 <= i <= |abi|
      invariant ClassFileContent(className, abi[..i], keywords) == Ok(text)
    {
      var v := abi[i];
      ClassFileStep(className, abi, i, keywords);
      if v.kind.None? {
        ClassFileFailedPrefix(className, abi, i + 1, keywords);
        return Err(MissingKey("type"));
      }
      if v.kind.value != "function" {
        assert text + "" == text;
        i := i + 1;
        continue;
      }
      var m := MakeFunc(v, keywords);
      if m.Err? {
        ClassFileFailedPrefix(className, abi, i + 1, keywords);
        return Err(m.error);
      }
      text := text + m.value;
      i := i + 1;
    }
    assert abi[..i] == abi;
    r := Ok(text);
  }

  /** Once a prefix of the ABI fails, the whole list fails with the same error. */
  lemma {:induction false} FailedPrefixFails(abi: seq<Entry>, n: nat, keywords: set<string>)
    requires n <= |abi| && RenderMethods(abi[..n], keywords).Err?
    ensures RenderMethods(abi, keywords) == RenderMethods(abi[..n], keywords)
    decreases |abi| - n
  {
    if n < |abi| {
      var init := abi[..|abi| - 1];
      assert init[..n] == abi[..n];
      FailedPrefixFails(init, n, keywords);
      FailedInitFails(abi, keywords);
    } else {
      assert abi[..n] == abi;
    }
  }

  /** A failure before the last entry is the failure of the whole list. */
  lemma FailedInitFails(abi: seq<Entry>, keywords: set<string>)
    requires abi != [] && RenderMethods(abi[..|abi| - 1], keywords).Err?
    ensures RenderMethods(abi, keywords) == RenderMethods(abi[..|abi| - 1], keywords)
  {
  }

  /** Rendering a concatenation of ABI lists: the first list's methods then
      the second's, or the first error in list order. */
  lemma {:induction false} RenderMethodsAppend(a: seq<Entry>, b: seq<Entry>, keywords: set<string>)
    ensures RenderMethods(a + b, keywords) == Chain(RenderMethods(a, keywords), RenderMethods(b, keywords))
    decreases |b|
  {
    var ra := RenderMethods(a, keywords);
    if b == [] {
      assert a + b == a;
      assert ra.Ok? ==> ra.value + "" == ra.value;
    } else {
      var b', last := b[..|b| - 1], b[|b| - 1];
      assert (a + b)[..|a + b| - 1] == a + b';
      assert (a + b)[|a + b| - 1] == last;
      var t := EntryText(last, keywords);
      calc {
        RenderMethods(a + b, keywords);
        Chain(RenderMethods(a + b', keywords), t);
        { RenderMethodsAppend(a, b', keywords); }
        Chain(Chain(ra, RenderMethods(b', keywords)), t);
        { ChainAssoc(ra, RenderMethods(b', keywords), t); }
        Chain(ra, Chain(RenderMethods(b', keywords), t));
        Chain(ra, RenderMethods(b, keywords));
      }
    }
  }

  lemma ChainAssoc(x: Result<string>, y: Result<string>, z: Result<string>)
    ensures Chain(Chain(x, y), z) == Chain(x, Chain(y, z))
  {
    if x.Ok? && y.Ok? && z.Ok? {
      assert x.value + y.value + z.value == x.value + (y.value + z.value);
    }
  }

  /** An entry whose `type` is not "function" (a constructor, an event, ...)
      adds nothing, whatever its other keys hold. */
  lemma NonFunctionEntryIgnored(a: seq<Entry>, x: Entry, b: seq<Entry>, keywords: set<string>)
    requires x.kind.Some? && x.kind.value != "function"
    ensures RenderMethods(a + [x] + b, keywords) == RenderMethods(a + b, keywords)
  {
    RenderMethodsAppend(a, [x], keywords);
    assert [x][..0] == [];
    var ra := RenderMethods(a, keywords);
    assert ra.Ok? ==> ra.value + "" == ra.value;
    assert RenderMethods(a + [x], keywords) == ra;
    RenderMethodsAppend(a + [x], b, keywords);
    RenderMethodsAppend(a, b, keywords);
  }

  /** The function entries of an ABI list, in list order. */
  function FunctionEntries(abi: seq<Entry>): seq<Entry>
  {
    if abi == [] then []
    else
      var last := abi[|abi| - 1];
      FunctionEntries(abi[..|abi| - 1]) + (if last.kind == Some("function") then [last] else [])
  }

  /** The entry has a `type`, and has the keys a method needs when that type is "function". */
  predicate WellFormedEntry(v: Entry)
  {
    v.kind.Some? && (v.kind.value == "function" ==> IsCompleteFunction(v))
  }

  predicate WellFormedAbi(abi: seq<Entry>)
  {
    forall k :: 0 <= k < |abi| ==> WellFormedEntry(abi[k])
  }

  predicate AllComplete(fs: seq<Entry>)
  {
    forall k :: 0 <= k < |fs| ==> IsCompleteFunction(fs[k])
  }

  /** The rendered method of each of a list of complete function entries. */
  function MethodTexts(fs: seq<Entry>, keywords: set<string>): (texts: seq<string>)
    requires AllComplete(fs)
    ensures |texts| == |fs|
    ensures forall k :: 0 <= k < |fs| ==> Ok(texts[k]) == MakeFunc(fs[k], keywords)
  {
    seq(|fs|, k requires 0 <= k < |fs| => MakeFunc(fs[k], keywords).value)
  }

  lemma {:induction false} FunctionEntriesComplete(abi: seq<Entry>)
    requires WellFormedAbi(abi)
    ensures AllComplete(FunctionEntries(abi))
    decreases |abi|
  {
    if abi != [] {
      FunctionEntriesComplete(abi[..|abi| - 1]);
    }
  }

  /** Rendering the methods succeeds exactly when every entry has a `type`
      and every function entry has the keys its method needs. */
  lemma {:induction false} RenderMethodsOk(abi: seq<Entry>, keywords: set<string>)
    ensures RenderMethods(abi, keywords).Ok? <==> WellFormedAbi(abi)
    decreases |abi|
  {
    if abi != [] {
      var init, last := abi[..|abi| - 1], abi[|abi| - 1];
      RenderMethodsOk(init, keywords);
      WellFormedSnoc(abi);
    }
  }

  /** An ABI list is well formed exactly when all but its last entry are and the last entry is. */
  lemma WellFormedSnoc(abi: seq<Entry>)
    requires abi != []
    ensures WellFormedAbi(abi)
        <==> WellFormedAbi(abi[..|abi| - 1]) && WellFormedEntry(abi[|abi| - 1])
  {
    var init := abi[..|abi| - 1];
    if WellFormedAbi(abi) {
      forall k | 0 <= k < |init|
        ensures WellFormedEntry(init[k])
      {
        assert init[k] == abi[k];
      }
    }
    if WellFormedAbi(init) && WellFormedEntry(abi[|abi| - 1]) {
      forall k | 0 <= k < |abi|
        ensures WellFormedEntry(abi[k])
      {
        if k < |init| {
          assert abi[k] == init[k];
        }
      }
    }
  }

  /** On a well-formed ABI the methods are exactly one rendered method per
      function entry, in ABI order. */
  lemma {:induction false} RenderMethodsText(abi: seq<Entry>, keywords: set<string>)
    requires WellFormedAbi(abi)
    ensures AllComplete(FunctionEntries(abi))
    ensures RenderMethods(abi, keywords) == Ok(Join("", MethodTexts(FunctionEntries(abi), keywords)))
    decreases |abi|
  {
    FunctionEntriesComplete(abi);
    if abi != [] {
      var init := abi[..|abi| - 1];
      WellFormedSnoc(abi);
      RenderMethodsText(init, keywords);
      JoinedMethodsSnoc(abi, keywords);
    }
  }

  /** The joined methods of a list are those of all but its last entry
      followed by what the last entry contributes. */
  lemma JoinedMethodsSnoc(abi: seq<Entry>, keywords: set<string>)
    requires abi != [] && WellFormedAbi(abi)
    ensures AllComplete(FunctionEntries(abi)) && AllComplete(FunctionEntries(abi[..|abi| - 1]))
    ensures Join("", MethodTexts(FunctionEntries(abi), keywords))
         == Join("", MethodTexts(FunctionEntries(abi[..|abi| - 1]), keywords))
            + EntryText(abi[|abi| - 1], keywords).value
  {
    var init, last := abi[..|abi| - 1], abi[|abi| - 1];
    WellFormedSnoc(abi);
    FunctionEntriesComplete(abi);
    FunctionEntriesComplete(init);
    var fs := FunctionEntries(init);
    if last.kind == Some("function") {
      assert FunctionEntries(abi) == fs + [last];
      EntryTextOfFunction(last, keywords);
      AppendedMethod(fs, last, keywords);
    } else {
      assert FunctionEntries(abi) == fs;
      SkippedEntry(last, MethodTexts(fs, keywords), keywords);
    }
  }

  lemma SkippedEntry(v: Entry, ts: seq<string>, keywords: set<string>)
    requires v.kind.Some? && v.kind != Some("function")
    ensures EntryText(v, keywords) == Ok("")
    ensures Join("", ts) == Join("", ts) + EntryText(v, keywords).value
  {
    assert Join("", ts) + "" == Join("", ts);
  }

  lemma EntryTextOfFunction(f: Entry, keywords: set<string>)
    requires f.kind == Some("function") && IsCompleteFunction(f)
    ensures EntryText(f, keywords) == Ok(MakeFunc(f, keywords).value)
  {
  }

  /** Appending a complete function entry appends its method to the joined methods. */
  lemma AppendedMethod(fs: seq<Entry>, f: Entry, keywords: set<string>)
    requires AllComplete(fs) && IsCompleteFunction(f)
    ensures AllComplete(fs + [f])
    ensures Join("", MethodTexts(fs + [f], keywords))
         == Join("", MethodTexts(fs, keywords)) + MakeFunc(f, keywords).value
  {
    MethodTextsSnoc(fs, f, keywords);
    JoinSnoc(MethodTexts(fs, keywords), MakeFunc(f, keywords).value);
  }

  lemma MethodTextsSnoc(fs: seq<Entry>, f: Entry, keywords: set<string>)
    requires AllComplete(fs) && IsCompleteFunction(f)
    ensures AllComplete(fs + [f])
    ensures MethodTexts(fs + [f], keywords) == MethodTexts(fs, keywords) + [MakeFunc(f, keywords).value]
  {
    assert forall k :: 0 <= k < |fs| ==> (fs + [f])[k] == fs[k];
  }

  lemma JoinSnoc(ts: seq<string>, m: string)
    ensures Join("", ts + [m]) == Join("", ts) + m
  {
    JoinAppend("", ts, [m]);
    assert Join("", ts) + "" + m == Join("", ts) + m;
  }

  /** The class file succeeds exactly on a well-formed ABI, and is then the
      class template followed by exactly one rendered method per function
      entry, in ABI order; non-function entries add nothing. */
  lemma ClassFileOneMethodPerFunction(className: string, abi: seq<Entry>, keywords: set<string>)
    ensures ClassFileContent(className, abi, keywords).Ok? <==> WellFormedAbi(abi)
    ensures WellFormedAbi(abi) ==>
              AllComplete(FunctionEntries(abi))
              && ClassFileContent(className, abi, keywords)
                 == Ok(ClassTemplate(className) + Join("", MethodTexts(FunctionEntries(abi), keywords)))
  {
    RenderMethodsOk(abi, keywords);
    if WellFormedAbi(abi) {
      RenderMethodsText(abi, keywords);
    }
  }
}
