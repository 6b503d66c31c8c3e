/**
 * The tool back end (tools/base_tool.py): a tool's parameter definitions,
 * the ordered first-failure validation of a parameter dictionary, the pure
 * parts of running a tool (validation short-circuit, the `sudo` rule, the
 * collected output and the shape of the result), the Markdown documentation
 * and the dictionary serialisation.
 *
 * A concrete tool's `build_command` and `parse_output`, and `re.match`, are
 * not part of this model: they are passed in as functions. The effective
 * user id is an input, and the running process is an abstract outcome.
 */
module BaseTool {
  import opened Wrappers
  import Strings

  /** A parameter value as the `params` dictionary carries it. */
  datatype Value = Str(s: string) | Int(n: int) | Bool(b: bool)

  predicate Truthy(v: Value)
  {
    match v
    case Str(s) => s != ""
    case Int(n) => n != 0
    case Bool(b) => b
  }

  /** A looked-up value is truthy only when it is present (`None` is falsy). */
  predicate IsTruthy(v: Option<Value>)
  {
    v.Some? && Truthy(v.value)
  }

  /** `str(value)` */
  function ValueText(v: Value): string
  {
    match v
    case Str(s) => s
    case Int(n) => Strings.IntToString(n)
    case Bool(b) => Strings.BoolToString(b)
  }

  /** `ToolParameter`; `caption` is the dataclass field `label`. */
  datatype ToolParameter = ToolParameter(
    name: string,
    caption: string,
    paramType: string,
    required: bool,
    default: Option<Value>,
    description: string,
    choices: Option<seq<string>>,
    validationRegex: Option<string>,
    sensitive: bool)

  /** A tool definition: the attributes `BaseSecurityTool.__init__` sets and subclasses fill in. */
  datatype Tool = Tool(
    name: string,
    description: string,
    version: string,
    category: string,
    riskLevel: string,
    requiresRoot: bool,
    parameters: seq<ToolParameter>)

  /** `ToolResult`; `output_files` is always `None` and `execution_time` is not modelled. */
  datatype ToolResult<P> = ToolResult(success: bool, returnCode: int, stdout: string, stderr: string, parsed: Option<P>)

  type Params = map<string, Value>

  /** `params.get(key)` */
  function Get(params: Params, key: string): Option<Value>
  {
    if key in params then Some(params[key]) else None
  }

  // ---------------------------------------------------------------- validation

  function MissingMessage(caption: string): string
  {
    "Required parameter '" + caption + "' is missing"
  }

  function InvalidMessage(caption: string): string
  {
    "Invalid format for '" + caption + "'"
  }

  /** A regex is set when `validation_regex` is neither `None` nor empty. */
  predicate HasRegex(p: ToolParameter)
  {
    p.validationRegex.Some? && p.validationRegex.value != ""
  }

  /** The failure one parameter causes, if any: the required check comes first, then the format check. */
  function ParamFailure(p: ToolParameter, params: Params, matches: (string, string) -> bool): Option<string>
  {
    var v := Get(params, p.name);
    if p.required && !IsTruthy(v) then Some(MissingMessage(p.caption))
    else if IsTruthy(v) && HasRegex(p) && !matches(p.validationRegex.value, ValueText(v.value)) then
      Some(InvalidMessage(p.caption))
    else None
  }

  /**
   * A parameter fails, with the message naming its label, exactly when it is
   * required and its value is missing or falsy, or its value is truthy, a
   * regex is set and the value's text does not match it; a falsy required
   * value is reported as missing whatever its format.
   */
  lemma ParamFailureCases(p: ToolParameter, params: Params, matches: (string, string) -> bool)
    ensures var v := Get(params, p.name);
      ParamFailure(p, params, matches) == Some(MissingMessage(p.caption)) <==> p.required && !IsTruthy(v)
    ensures var v := Get(params, p.name);
      ParamFailure(p, params, matches) == Some(InvalidMessage(p.caption)) <==>
        IsTruthy(v) && HasRegex(p) && !matches(p.validationRegex.value, ValueText(v.value))
    ensures ParamFailure(p, params, matches).None? ==> !p.required || IsTruthy(Get(params, p.name))
  {
    var c := p.caption;
    assert MissingMessage(c) != InvalidMessage(c) by {
      var m := MissingMessage(c);
      var n := InvalidMessage(c);
      assert m[0] == 'R' && n[0] == 'I';
    }
  }

  /** `validate_parameters(params)`: `(valid, message)`. */
  datatype Check = Check(valid: bool, message: string)

  function Validate(ps: seq<ToolParameter>, params: Params, matches: (string, string) -> bool): Check
    decreases |ps|
  {
    if |ps| == 0 then Check(true, "")
    else match ParamFailure(ps[0], params, matches)
      case Some(m) => Check(false, m)
      case None => Validate(ps[1..], params, matches)
  }

  /**
   * Validation examines the parameters in order and reports the first
   * failure: the check passes, with an empty message, exactly when no
   * parameter fails, and otherwise carries the message of the first
   * parameter that does.
   */
  lemma {:induction false} ValidateFirstFailure(ps: seq<ToolParameter>, params: Params, matches: (string, string) -> bool)
    ensures Validate(ps, params, matches).valid <==> forall i :: 0 <= i < |ps| ==> ParamFailure(ps[i], params, matches).None?
    ensures Validate(ps, params, matches).valid ==> Validate(ps, params, matches).message == ""
    ensures !Validate(ps, params, matches).valid ==>
      exists i :: 0 <= i < |ps| && ParamFailure(ps[i], params, matches) == Some(Validate(ps, params, matches).message) &&
        forall j :: 0 <= j < i ==> ParamFailure(ps[j], params, matches).None?
    decreases |ps|
  {
    if |ps| > 0 {
      ValidateFirstFailure(ps[1..], params, matches);
      if ParamFailure(ps[0], params, matches).None? {
        if Validate(ps, params, matches).valid {
          forall i | 0 <= i < |ps| ensures ParamFailure(ps[i], params, matches).None? {
            if i > 0 {
              assert ps[i] == ps[1..][i - 1];
            }
          }
        } else {
          var i :| 0 <= i < |ps[1..]| && ParamFailure(ps[1..][i], params, matches) == Some(Validate(ps, params, matches).message) &&
            forall j :: 0 <= j < i ==> ParamFailure(ps[1..][j], params, matches).None?;
          assert ParamFailure(ps[i + 1], params, matches) == Some(Validate(ps, params, matches).message);
          forall j | 0 <= j < i + 1 ensures ParamFailure(ps[j], params, matches).None? {
            if j > 0 {
              assert ps[j] == ps[1..][j - 1];
            }
          }
        }
        if forall i :: 0 <= i < |ps| ==> ParamFailure(ps[i], params, matches).None? {
          forall i | 0 <= i < |ps[1..]| ensures ParamFailure(ps[1..][i], params, matches).None? {
            assert ps[1..][i] == ps[i + 1];
          }
        }
      }
    }
  }

  /** Parameters after the first failing one have no effect on the validation. */
  lemma {:induction false} ValidateAppend(a: seq<ToolParameter>, b: seq<ToolParameter>, params: Params, matches: (string, string) -> bool)
    ensures Validate(a + b, params, matches) ==
      if Validate(a, params, matches).valid then Validate(b, params, matches) else Validate(a, params, matches)
    decreases |a|
  {
    if |a| == 0 {
      assert a + b == b;
    } else {
      assert (a + b)[0] == a[0];
      assert (a + b)[1..] == a[1..] + b;
      ValidateAppend(a[1..], b, params, matches);
    }
  }

  // ---------------------------------------------------------------- execution

  /** The command handed to `Popen`: prefixed with `sudo` iff the tool needs root and the effective uid is not 0. */
  function SpawnedCommand(t: Tool, cmd: seq<string>, euid: nat): seq<string>
  {
    if t.requiresRoot && euid != 0 then ["sudo"] + cmd else cmd
  }

  lemma SudoRule(t: Tool, cmd: seq<string>, euid: nat)
    ensures SpawnedCommand(t, cmd, euid) == ["sudo"] + cmd <==> t.requiresRoot && euid != 0
    ensures SpawnedCommand(t, cmd, euid) == cmd <==> !(t.requiresRoot && euid != 0)
  {
    assert |["sudo"] + cmd| != |cmd|;
  }

  /** One pass of the streaming loop: the line read from each pipe (`''` when nothing was read). */
  datatype Round = Round(stdoutLine: string, stderrLine: string)

  /**
   * What happened once `Popen` was called: the rounds of the streaming loop
   * up to the one that ends it, then either the exit code or an exception
   * (raised by `Popen` itself, with no rounds, or later) and its text.
   */
  datatype ProcessOutcome = Ran(rounds: seq<Round>, returnCode: int) | Raised(rounds: seq<Round>, message: string)

  function Kept(line: string): seq<string>
  {
    if line != "" then [line] else []
  }

  /** `stdout_lines` after the given rounds. */
  function StdoutLines(rounds: seq<Round>): seq<string>
    decreases |rounds|
  {
    if |rounds| == 0 then []
    else StdoutLines(rounds[..|rounds| - 1]) + Kept(rounds[|rounds| - 1].stdoutLine)
  }

  /** `stderr_lines` after the given rounds. */
  function StderrLines(rounds: seq<Round>): seq<string>
    decreases |rounds|
  {
    if |rounds| == 0 then []
    else StderrLines(rounds[..|rounds| - 1]) + Kept(rounds[|rounds| - 1].stderrLine)
  }

  /** The lines passed to `output_callback`, stderr lines marked with `[stderr] `. */
  function CallbackLines(rounds: seq<Round>): seq<string>
    decreases |rounds|
  {
    if |rounds| == 0 then []
    else
      var r := rounds[|rounds| - 1];
      CallbackLines(rounds[..|rounds| - 1]) + Kept(r.stdoutLine) + (if r.stderrLine != "" then ["[stderr] " + r.stderrLine] else [])
  }

  function StdoutReads(rounds: seq<Round>): seq<string>
  {
    seq(|rounds|, i requires 0 <= i < |rounds| => rounds[i].stdoutLine)
  }

  function StderrReads(rounds: seq<Round>): seq<string>
  {
    seq(|rounds|, i requires 0 <= i < |rounds| => rounds[i].stderrLine)
  }

  /**
   * The joined output is everything read from each pipe, in read order,
   * and the callback sees one line per collected stdout and stderr line.
   */
  lemma {:induction false} CollectedOutput(rounds: seq<Round>)
    ensures Strings.Concat(StdoutLines(rounds)) == Strings.Concat(StdoutReads(rounds))
    ensures Strings.Concat(StderrLines(rounds)) == Strings.Concat(StderrReads(rounds))
    ensures |CallbackLines(rounds)| == |StdoutLines(rounds)| + |StderrLines(rounds)|
    ensures forall i :: 0 <= i < |StdoutLines(rounds)| ==> StdoutLines(rounds)[i] != ""
    ensures forall i :: 0 <= i < |StderrLines(rounds)| ==> StderrLines(rounds)[i] != ""
    decreases |rounds|
  {
    if |rounds| > 0 {
      var init := rounds[..|rounds| - 1];
      var r := rounds[|rounds| - 1];
      CollectedOutput(init);
      assert StdoutReads(rounds) == StdoutReads(init) + [r.stdoutLine];
      assert StderrReads(rounds) == StderrReads(init) + [r.stderrLine];
      Strings.ConcatAppend(StdoutLines(init), Kept(r.stdoutLine));
      Strings.ConcatAppend(StdoutReads(init), [r.stdoutLine]);
      Strings.ConcatAppend(StderrLines(init), Kept(r.stderrLine));
      Strings.ConcatAppend(StderrReads(init), [r.stderrLine]);
      assert Strings.Concat([r.stdoutLine]) == r.stdoutLine;
      assert Strings.Concat([r.stderrLine]) == r.stderrLine;
    }
  }

  /** One round of the streaming loop: keep each non-empty line and forward it to the callback, if there is one. */
  method CollectRound(r: Round, callback: bool, out0: seq<string>, err0: seq<string>, calls0: seq<string>)
    returns (out: seq<string>, err: seq<string>, calls: seq<string>)
    ensures out == out0 + Kept(r.stdoutLine) && err == err0 + Kept(r.stderrLine)
    ensures calls == if callback then calls0 + Kept(r.stdoutLine) + (if r.stderrLine != "" then ["[stderr] " + r.stderrLine] else []) else calls0
  {
    out, err, calls := out0, err0, calls0;
    if r.stdoutLine != "" {
      out := out + [r.stdoutLine];
      if callback {
        calls := calls + [r.stdoutLine];
      }
    }
    if r.stderrLine != "" {
      err := err + [r.stderrLine];
      if callback {
        calls := calls + ["[stderr] " + r.stderrLine];
      }
    }
  }

  /** The streaming loop of `execute`: collects each non-empty line and forwards it to the callback, if there is one. */
  method CollectOutput(rounds: seq<Round>, callback: bool) returns (out: seq<string>, err: seq<string>, calls: seq<string>)
    ensures out == StdoutLines(rounds) && err == StderrLines(rounds)
    ensures calls == if callback then CallbackLines(rounds) else []
  {
    out, err, calls := [], [], [];
    var i := 0;
    while i < |rounds|
      invariant 0 <= i <= |rounds|
      invariant out == StdoutLines(rounds[..i]) && err == StderrLines(rounds[..i])
      invariant calls == if callback then CallbackLines(rounds[..i]) else []
    {
      assert rounds[..i + 1][..i] == rounds[..i];
      out, err, calls := CollectRound(rounds[i], callback, out, err, calls);
      i := i + 1;
    }
    assert rounds[..i] == rounds;
  }

  /**
   * `execute(params, output_callback)`: on invalid parameters nothing is
   * run and the result is a failure carrying the validation message;
   * otherwise the built command, with `sudo` when needed, is run. An
   * exception yields a failure carrying its text; a finished run succeeds
   * iff its exit code is 0 and carries the joined output of each pipe and
   * the parse of that output.
   */
  method Execute<P>(t: Tool, params: Params, euid: nat, outcome: ProcessOutcome, callback: bool,
                    build: Params -> seq<string>, parse: (string, string) -> P, matches: (string, string) -> bool)
    returns (spawned: Option<seq<string>>, result: ToolResult<P>, calls: seq<string>)
    ensures var check := Validate(t.parameters, params, matches);
      !check.valid ==> spawned == None && calls == [] && result == ToolResult(false, -1, "", check.message, None)
    ensures Validate(t.parameters, params, matches).valid ==>
      && spawned == Some(SpawnedCommand(t, build(params), euid))
      && calls == (if callback then CallbackLines(outcome.rounds) else [])
    ensures Validate(t.parameters, params, matches).valid && outcome.Raised? ==>
      result == ToolResult(false, -1, "", outcome.message, None)
    ensures Validate(t.parameters, params, matches).valid && outcome.Ran? ==>
      && (result.success <==> outcome.returnCode == 0)
      && result.returnCode == outcome.returnCode
      && result.stdout == Strings.Concat(StdoutReads(outcome.rounds))
      && result.stderr == Strings.Concat(StderrReads(outcome.rounds))
      && result.parsed == Some(parse(result.stdout, result.stderr))
  {
    var check := Validate(t.parameters, params, matches);
    if !check.valid {
      return None, ToolResult(false, -1, "", check.message, None), [];
    }
    var cmd := build(params);
    if t.requiresRoot && euid != 0 {
      cmd := ["sudo"] + cmd;
    }
    spawned := Some(cmd);
    var out, err;
    out, err, calls := CollectOutput(outcome.rounds, callback);
    if outcome.Raised? {
      result := ToolResult(false, -1, "", outcome.message, None);
      return;
    }
    CollectedOutput(outcome.rounds);
    var stdout := Strings.Concat(out);
    var stderr := Strings.Concat(err);
    result := ToolResult(outcome.returnCode == 0, outcome.returnCode, stdout, stderr, Some(parse(stdout, stderr)));
  }

  // ---------------------------------------------------------------- documentation

  function DocHeader(name: string, description: string, category: string, riskLevel: string, requiresRoot: bool): string
  {
    "\n# " + name + "\n\n" + description + "\n\n**Category:** " + category +
    "\n**Risk Level:** " + riskLevel + "\n**Requires Root:** " + (if requiresRoot then "Yes" else "No") +
    "\n\n## Parameters\n"
  }

  /** The header of a tool's documentation, which does not depend on its parameters. */
  function ToolHeader(t: Tool): string
  {
    DocHeader(t.name, t.description, t.category, t.riskLevel, t.requiresRoot)
  }

  function BulletHead(p: ToolParameter): string
  {
    "\n- **" + p.caption + "** (`" + p.paramType + "`)"
  }

  function RequiredNote(p: ToolParameter): string
  {
    if p.required then " (required)" else ""
  }

  function DefaultNote(p: ToolParameter): string
  {
    if p.default.Some? then " [default: " + ValueText(p.default.value) + "]" else ""
  }

  /** The bullet line of one parameter. */
  function BulletLine(p: ToolParameter): string
  {
    BulletHead(p) + RequiredNote(p) + DefaultNote(p) + "\n"
  }

  /** The indented description line below the bullet. */
  function DescriptionLine(p: ToolParameter): string
  {
    "  " + p.description + "\n"
  }

  /** The two lines `get_documentation` adds for one parameter. */
  function ParamDoc(p: ToolParameter): string
  {
    BulletLine(p) + DescriptionLine(p)
  }

  /** The text of each parameter rendered by `doc`, in order. */
  function Bullets(ps: seq<ToolParameter>, doc: ToolParameter -> string): string
    decreases |ps|
  {
    if |ps| == 0 then "" else Bullets(ps[..|ps| - 1], doc) + doc(ps[|ps| - 1])
  }

  lemma {:induction false} BulletsAppend(a: seq<ToolParameter>, b: seq<ToolParameter>, doc: ToolParameter -> string)
    ensures Bullets(a + b, doc) == Bullets(a, doc) + Bullets(b, doc)
    decreases |b|
  {
    if |b| == 0 {
      assert a + b == a;
    } else {
      var b' := b[..|b| - 1];
      assert (a + b)[..|a + b| - 1] == a + b';
      assert (a + b)[|a + b| - 1] == b[|b| - 1];
      BulletsAppend(a, b', doc);
    }
  }

  /** The documentation text: the header, then one bullet per parameter in order. */
  function Documentation(t: Tool): string
  {
    ToolHeader(t) + Bullets(t.parameters, ParamDoc)
  }

  /** `get_documentation`: the header, then `docs +=` one bullet per parameter. */
  method GetDocumentation(t: Tool) returns (docs: string)
    ensures docs == Documentation(t)
  {
    docs := ToolHeader(t);
    var ps := t.parameters;
    var i := 0;
    while i < |ps|
      invariant 0 <= i <= |ps|
      invariant docs == ToolHeader(t) + Bullets(ps[..i], ParamDoc)
    {
      DocStep(ToolHeader(t), docs, ps, i);
      docs := docs + BulletLine(ps[i]);
      docs := docs + DescriptionLine(ps[i]);
      i := i + 1;
    }
    assert ps[..i] == ps;
  }

  /** One step of `get_documentation`: adding a parameter's two lines adds its bullet. */
  lemma DocStep(header: string, docs: string, ps: seq<ToolParameter>, i: int)
    requires 0 <= i < |ps| && docs == header + Bullets(ps[..i], ParamDoc)
    ensures docs + BulletLine(ps[i]) + DescriptionLine(ps[i]) == header + Bullets(ps[..i + 1], ParamDoc)
  {
    assert ps[..i + 1][..i] == ps[..i];
    var x, y := BulletLine(ps[i]), DescriptionLine(ps[i]);
    Strings.AppendAssoc(header, Bullets(ps[..i], ParamDoc), x);
    Strings.AppendAssoc(header, Bullets(ps[..i], ParamDoc) + x, y);
    Strings.AppendAssoc(Bullets(ps[..i], ParamDoc), x, y);
  }

  /** The documentation of a tool is that of its first parameters followed by the bullets of the rest. */
  lemma DocumentationAppend(t: Tool, a: seq<ToolParameter>, b: seq<ToolParameter>)
    ensures Documentation(t.(parameters := a + b)) == Documentation(t.(parameters := a)) + Bullets(b, ParamDoc)
  {
    BulletsAppend(a, b, ParamDoc);
  }

  /**
   * A bullet carries ` (required)` iff the parameter is required, right
   * after its name and type, and otherwise reads as for an optional one.
   */
  lemma ParamDocRequired(p: ToolParameter)
    ensures var q := p.(required := false);
      var k := |BulletHead(p)|;
      k <= |ParamDoc(q)| && ParamDoc(p.(required := true)) == ParamDoc(q)[..k] + " (required)" + ParamDoc(q)[k..]
  {
    var q, r := p.(required := false), p.(required := true);
    var h, note := BulletHead(p), " (required)";
    var tail := DefaultNote(p) + "\n";
    var rest := tail + DescriptionLine(p);
    assert BulletHead(q) == h && BulletHead(r) == h;
    assert BulletLine(q) == h + "" + tail && BulletLine(r) == h + note + tail;
    assert h + "" == h;
    Strings.AppendAssoc(h, tail, DescriptionLine(p));
    Strings.AppendAssoc(h + note, tail, DescriptionLine(p));
    assert ParamDoc(q) == h + rest;
    assert ParamDoc(r) == h + note + rest;
  }

  /**
   * A bullet carries ` [default: v]` iff the parameter has a default `v`,
   * right after the required note, and otherwise reads as without one.
   */
  lemma ParamDocDefault(p: ToolParameter, v: Value)
    ensures var q := p.(default := None);
      var k := |BulletHead(p)| + |RequiredNote(p)|;
      k <= |ParamDoc(q)| && ParamDoc(p.(default := Some(v))) == ParamDoc(q)[..k] + " [default: " + ValueText(v) + "]" + ParamDoc(q)[k..]
  {
    var q, r := p.(default := None), p.(default := Some(v));
    var h, note := BulletHead(p) + RequiredNote(p), " [default: " + ValueText(v) + "]";
    var rest := "\n" + DescriptionLine(p);
    assert BulletLine(q) == h + "" + "\n" && BulletLine(r) == h + note + "\n";
    assert h + "" == h;
    Strings.AppendAssoc(h, "\n", DescriptionLine(p));
    Strings.AppendAssoc(h + note, "\n", DescriptionLine(p));
    assert ParamDoc(q) == h + rest;
    assert ParamDoc(r) == h + note + rest;
    InsertNote(h, " [default: ", ValueText(v), "]", rest);
  }

  /** Text `a + b + c` put between `h` and `rest` is put at position `|h|` of `h + rest`. */
  lemma InsertNote(h: string, a: string, b: string, c: string, rest: string)
    ensures |h| <= |h + rest|
    ensures h + (a + b + c) + rest == (h + rest)[..|h|] + a + b + c + (h + rest)[|h|..]
  {
    assert (h + rest)[..|h|] == h;
    assert (h + rest)[|h|..] == rest;
  }

  // ---------------------------------------------------------------- serialisation

  /** The JSON-like values `to_dict` is made of; objects keep their keys in insertion order. */
  datatype Json =
    | JNull
    | JBool(b: bool)
    | JInt(n: int)
    | JStr(s: string)
    | JList(items: seq<Json>)
    | JObject(entries: seq<(string, Json)>)

  function DefaultJson(d: Option<Value>): Json
  {
    match d
    case None => JNull
    case Some(Str(s)) => JStr(s)
    case Some(Int(n)) => JInt(n)
    case Some(Bool(b)) => JBool(b)
  }

  function StrsJson(cs: seq<string>): (r: seq<Json>)
    ensures |r| == |cs| && forall i :: 0 <= i < |cs| ==> r[i] == JStr(cs[i])
    decreases |cs|
  {
    if |cs| == 0 then [] else [JStr(cs[0])] + StrsJson(cs[1..])
  }

  function ChoicesJson(c: Option<seq<string>>): Json
  {
    match c
    case None => JNull
    case Some(cs) => JList(StrsJson(cs))
  }

  /** One entry of `parameters`: every dataclass field except `validation_regex` and `sensitive`. */
  function ParamJson(p: ToolParameter): Json
  {
    JObject([
      ("name", JStr(p.name)),
      ("label", JStr(p.caption)),
      ("type", JStr(p.paramType)),
      ("required", JBool(p.required)),
      ("default", DefaultJson(p.default)),
      ("description", JStr(p.description)),
      ("choices", ChoicesJson(p.choices))])
  }

  function ParamsJson(ps: seq<ToolParameter>): (r: seq<Json>)
    ensures |r| == |ps| && forall i :: 0 <= i < |ps| ==> r[i] == ParamJson(ps[i])
    decreases |ps|
  {
    if |ps| == 0 then [] else [ParamJson(ps[0])] + ParamsJson(ps[1..])
  }

  /** `to_dict`: the tool's attributes except `version`, and one entry per parameter in order. */
  function ToDict(t: Tool): Json
  {
    JObject([
      ("name", JStr(t.name)),
      ("description", JStr(t.description)),
      ("category", JStr(t.category)),
      ("risk_level", JStr(t.riskLevel)),
      ("requires_root", JBool(t.requiresRoot)),
      ("parameters", JList(ParamsJson(t.parameters)))])
  }

  /** What the serialisation keeps of a parameter: the rest are reset to their dataclass defaults. */
  function PublicParam(p: ToolParameter): ToolParameter
  {
    p.(validationRegex := None, sensitive := false)
  }

  function PublicParams(ps: seq<ToolParameter>): (r: seq<ToolParameter>)
    ensures |r| == |ps| && forall i :: 0 <= i < |ps| ==> r[i] == PublicParam(ps[i])
    decreases |ps|
  {
    if |ps| == 0 then [] else [PublicParam(ps[0])] + PublicParams(ps[1..])
  }

  /** What the serialisation keeps of a tool: the version is reset to `unknown`, as a fresh tool has it. */
  function PublicTool(t: Tool): Tool
  {
    t.(version := "unknown", parameters := PublicParams(t.parameters))
  }

  function DefaultFromJson(j: Json): Option<Option<Value>>
  {
    match j
    case JNull => Some(None)
    case JStr(s) => Some(Some(Str(s)))
    case JInt(n) => Some(Some(Int(n)))
    case JBool(b) => Some(Some(Bool(b)))
    case _ => None
  }

  function StrsFromJson(items: seq<Json>): Option<seq<string>>
    decreases |items|
  {
    if |items| == 0 then Some([])
    else if !items[0].JStr? then None
    else match StrsFromJson(items[1..])
      case None => None
      case Some(rest) => Some([items[0].s] + rest)
  }

  function ChoicesFromJson(j: Json): Option<Option<seq<string>>>
  {
    match j
    case JNull => Some(None)
    case JList(items) =>
      (match StrsFromJson(items)
       case None => None
       case Some(cs) => Some(Some(cs)))
    case _ => None
  }

  /** Reads back one parameter entry laid out as `to_dict` writes it. */
  function ParamFromJson(j: Json): Option<ToolParameter>
  {
    if j.JObject? && |j.entries| == 7
       && j.entries[0].0 == "name" && j.entries[0].1.JStr?
       && j.entries[1].0 == "label" && j.entries[1].1.JStr?
       && j.entries[2].0 == "type" && j.entries[2].1.JStr?
       && j.entries[3].0 == "required" && j.entries[3].1.JBool?
       && j.entries[4].0 == "default" && DefaultFromJson(j.entries[4].1).Some?
       && j.entries[5].0 == "description" && j.entries[5].1.JStr?
       && j.entries[6].0 == "choices" && ChoicesFromJson(j.entries[6].1).Some?
    then
      Some(ToolParameter(j.entries[0].1.s, j.entries[1].1.s, j.entries[2].1.s, j.entries[3].1.b,
                         DefaultFromJson(j.entries[4].1).value, j.entries[5].1.s,
                         ChoicesFromJson(j.entries[6].1).value, None, false))
    else None
  }

  function ParamsFromJson(items: seq<Json>): Option<seq<ToolParameter>>
    decreases |items|
  {
    if |items| == 0 then Some([])
    else match ParamFromJson(items[0])
      case None => None
      case Some(p) =>
        (match ParamsFromJson(items[1..])
         case None => None
         case Some(rest) => Some([p] + rest))
  }

  /** Reads back a tool laid out as `to_dict` writes it; `version` is not part of the layout. */
  function FromDict(j: Json): Option<Tool>
  {
    if j.JObject? && |j.entries| == 6
       && j.entries[0].0 == "name" && j.entries[0].1.JStr?
       && j.entries[1].0 == "description" && j.entries[1].1.JStr?
       && j.entries[2].0 == "category" && j.entries[2].1.JStr?
       && j.entries[3].0 == "risk_level" && j.entries[3].1.JStr?
       && j.entries[4].0 == "requires_root" && j.entries[4].1.JBool?
       && j.entries[5].0 == "parameters" && j.entries[5].1.JList?
       && ParamsFromJson(j.entries[5].1.items).Some?
    then
      Some(Tool(j.entries[0].1.s, j.entries[1].1.s, "unknown", j.entries[2].1.s, j.entries[3].1.s,
                j.entries[4].1.b, ParamsFromJson(j.entries[5].1.items).value))
    else None
  }

  lemma {:induction false} StrsRoundTrip(cs: seq<string>)
    ensures StrsFromJson(StrsJson(cs)) == Some(cs)
    decreases |cs|
  {
    if |cs| > 0 {
      assert StrsJson(cs)[0] == JStr(cs[0]);
      assert StrsJson(cs)[1..] == StrsJson(cs[1..]);
      StrsRoundTrip(cs[1..]);
      assert [cs[0]] + cs[1..] == cs;
    }
  }

  lemma ParamRoundTrip(p: ToolParameter)
    ensures ParamFromJson(ParamJson(p)) == Some(PublicParam(p))
  {
    if p.choices.Some? {
      StrsRoundTrip(p.choices.value);
    }
  }

  lemma {:induction false} ParamsRoundTrip(ps: seq<ToolParameter>)
    ensures ParamsFromJson(ParamsJson(ps)) == Some(PublicParams(ps))
    decreases |ps|
  {
    if |ps| > 0 {
      assert ParamsJson(ps)[0] == ParamJson(ps[0]);
      assert ParamsJson(ps)[1..] == ParamsJson(ps[1..]);
      ParamRoundTrip(ps[0]);
      ParamsRoundTrip(ps[1..]);
    }
  }

  /** Reading a serialised tool back gives the tool without the attributes `to_dict` leaves out. */
  lemma ToDictRoundTrip(t: Tool)
    ensures FromDict(ToDict(t)) == Some(PublicTool(t))
  {
    ParamsRoundTrip(t.parameters);
  }

  lemma {:induction false} ParamsJsonPublic(ps: seq<ToolParameter>)
    ensures ParamsJson(PublicParams(ps)) == ParamsJson(ps)
    decreases |ps|
  {
    if |ps| > 0 {
      ParamsJsonPublic(ps[1..]);
    }
  }

  /**
   * Two tools serialise alike exactly when they agree on everything but
   * `version` and their parameters' `validation_regex` and `sensitive`.
   */
  lemma ToDictOmits(t1: Tool, t2: Tool)
    ensures ToDict(t1) == ToDict(t2) <==> PublicTool(t1) == PublicTool(t2)
  {
    ToDictRoundTrip(t1);
    ToDictRoundTrip(t2);
    ParamsJsonPublic(t1.parameters);
    ParamsJsonPublic(t2.parameters);
    if PublicTool(t1) == PublicTool(t2) {
      assert ToDict(t1) == ToDict(PublicTool(t1));
      assert ToDict(t2) == ToDict(PublicTool(t2));
    }
  }
}
