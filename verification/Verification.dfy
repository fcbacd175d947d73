/** The verification verdict of a task: semantic bindings, the runs that stop early, and the
    evidence collected per specification. */
module Verification {
  import opened Common

  datatype Validator =
    | Pytest | Mypy | Compileall | FoundationScript | FileEquals | SecurityScan | PackageSmoke | OtherValidator(name: Id)

  datatype Category = Tests | Typing | Compilation | Foundation | TaskFiles | Security | Packaging | OtherCategory(name: Id)

  /** registered stands for the registration id, the digests and the file checks of the validator. */
  datatype Spec = Spec(
    category: Category, arguments: seq<string>, validator: Validator, registered: bool, required: bool, waiver: Option<Id>)

  /** expires is absent when the stored text is not a timezone-aware time. */
  datatype Waiver = Waiver(id: Id, category: Category, task: Id, justified: bool, revoked: bool, expires: Option<Stamp>)

  // ------------------------------------------------------------- bindings

  /** The waiver a dictionary keyed by id ends up holding: the last one. */
  function WaiverNamed(waivers: seq<Waiver>, id: Id): Option<Waiver> {
    if waivers == [] then None
    else if waivers[|waivers| - 1].id == id then Some(waivers[|waivers| - 1])
    else WaiverNamed(waivers[..|waivers| - 1], id)
  }

  /** `validate_waiver`. */
  predicate Live(w: Waiver, task: Id, category: Category, now: Stamp) {
    w.expires.Some? && w.task == task && w.category == category && w.justified && !w.revoked && now < w.expires.value
  }

  predicate WaivedNow(s: Spec, waivers: seq<Waiver>, task: Id, now: Stamp) {
    s.waiver.Some? &&
    var w := WaiverNamed(waivers, s.waiver.value);
    w.Some? && Live(w.value, task, s.category, now)
  }

  /** The last waiver of that id is for this task and category, justified, not revoked, and its time
      is not over. */
  ghost predicate Honoured(waivers: seq<Waiver>, id: Id, task: Id, category: Category, now: Stamp) {
    exists m :: 0 <= m < |waivers|
      && waivers[m].id == id && (forall n :: m < n < |waivers| ==> waivers[n].id != id)
      && waivers[m].task == task && waivers[m].category == category
      && waivers[m].justified && !waivers[m].revoked
      && waivers[m].expires.Some? && now < waivers[m].expires.value
  }

  /** The dictionary's entry is the last waiver of its id. */
  lemma {:induction false} NamedIsLast(waivers: seq<Waiver>, id: Id, m: nat)
    requires m < |waivers| && waivers[m].id == id && forall n :: m < n < |waivers| ==> waivers[n].id != id
    ensures WaiverNamed(waivers, id) == Some(waivers[m])
  {
    if m < |waivers| - 1 {
      NamedIsLast(waivers[..|waivers| - 1], id, m);
    }
  }

  lemma {:induction false} NamedHasPlace(waivers: seq<Waiver>, id: Id) returns (m: nat)
    requires WaiverNamed(waivers, id).Some?
    ensures m < |waivers| && waivers[m] == WaiverNamed(waivers, id).value
    ensures waivers[m].id == id && forall n :: m < n < |waivers| ==> waivers[n].id != id
  {
    m := |waivers| - 1;
    if waivers[m].id != id {
      m := NamedHasPlace(waivers[..m], id);
    }
  }

  /** Whether a specification is waived depends on that one waiver. */
  lemma WaivedIffHonoured(s: Spec, waivers: seq<Waiver>, task: Id, now: Stamp)
    ensures WaivedNow(s, waivers, task, now) <==> s.waiver.Some? && Honoured(waivers, s.waiver.value, task, s.category, now)
  {
    if s.waiver.Some? {
      var id := s.waiver.value;
      if WaiverNamed(waivers, id).Some? {
        var m := NamedHasPlace(waivers, id);
      }
      forall m | 0 <= m < |waivers| && waivers[m].id == id && forall n :: m < n < |waivers| ==> waivers[n].id != id
        ensures WaiverNamed(waivers, id) == Some(waivers[m])
      {
        NamedIsLast(waivers, id, m);
      }
    }
  }

  const FILE_EQUALS := "keeper:file-equals"

  /** `REGISTERED_CATEGORIES`. */
  function Satisfying(c: Category): set<Validator> {
    match c
    case Tests => {Pytest}
    case Typing => {Mypy}
    case Compilation => {Compileall}
    case Foundation => {FoundationScript}
    case TaskFiles => {FileEquals}
    case Security => {SecurityScan}
    case Packaging => {PackageSmoke}
    case OtherCategory(_) => {}
  }

  /** The only arguments a Python validator is registered with. */
  function PythonArguments(v: Validator): Option<seq<string>> {
    match v
    case Pytest => Some(["{python}", "-m", "pytest", "-q"])
    case Mypy => Some(["{python}", "-m", "mypy", "--strict", "keeper", "tests/keeper"])
    case Compileall => Some(["{python}", "-m", "compileall", "-q", "keeper", "tests/keeper"])
    case _ => None
  }

  /** The registration of a validator that starts a process. */
  predicate Registered(v: Validator, arguments: seq<string>, registered: bool) {
    registered && (if v.FoundationScript? then |arguments| == 2 else PythonArguments(v) == Some(arguments))
  }

  /** How a started command ends; it may raise instead, for example on a path outside the root. */
  datatype Step = Raised | Exited(code: int)

  /** fold lower-cases an argument and turns its backslashes; step starts a permitted command. */
  datatype World = World(fold: string -> string, step: seq<string> -> Step)

  /** The category's validator and `_validate_command_pattern`. */
  predicate Bound(s: Spec, world: World) {
    && s.arguments != [] && s.validator in Satisfying(s.category)
    && match s.validator
       case SecurityScan | PackageSmoke | OtherValidator(_) => true
       case FileEquals => world.fold(s.arguments[0]) == FILE_EQUALS
       case v => Registered(v, s.arguments, s.registered)
  }

  /** Read by category: the one validator and the one command that each of them is bound to. */
  lemma CategoryDecidesCommand(s: Spec, world: World)
    ensures Bound(s, world) <==>
      match s.category
      case Tests => s.validator.Pytest? && s.registered && s.arguments == ["{python}", "-m", "pytest", "-q"]
      case Typing =>
        && s.validator.Mypy? && s.registered
        && s.arguments == ["{python}", "-m", "mypy", "--strict", "keeper", "tests/keeper"]
      case Compilation =>
        && s.validator.Compileall? && s.registered
        && s.arguments == ["{python}", "-m", "compileall", "-q", "keeper", "tests/keeper"]
      case Foundation => s.validator.FoundationScript? && s.registered && |s.arguments| == 2
      case TaskFiles => s.validator.FileEquals? && |s.arguments| > 0 && world.fold(s.arguments[0]) == "keeper:file-equals"
      case Security => s.validator.SecurityScan? && |s.arguments| > 0
      case Packaging => s.validator.PackageSmoke? && |s.arguments| > 0
      case OtherCategory(_) => false
  {
  }

  predicate Acceptable(s: Spec, waivers: seq<Waiver>, task: Id, now: Stamp, world: World) {
    Bound(s, world) && (s.required && s.waiver.Some? ==> WaivedNow(s, waivers, task, now))
  }

  ghost predicate BindingsValid(t: Task, specs: seq<Spec>, now: Stamp, world: World) {
    && specs != []
    && (forall i :: 0 <= i < |specs| ==> Acceptable(specs[i], t.waivers, t.id, now, world))
    && (forall i, j :: 0 <= i < j < |specs| ==> specs[i].arguments != specs[j].arguments)
    && (forall c :: c in t.categories ==> exists i :: 0 <= i < |specs| && specs[i].required && specs[i].category == c)
  }

  /** What a task says about its verification. */
  datatype Task = Task(
    id: Id, categories: seq<Category>, commands: seq<seq<string>>, finalCommands: seq<seq<string>>,
    specs: seq<Spec>, finalSpecs: seq<Spec>, waivers: seq<Waiver>)

  /** `validate_semantic_bindings`. */
  method ValidateBindings(t: Task, specs: seq<Spec>, now: Stamp, world: World) returns (ok: bool)
    ensures ok <==> BindingsValid(t, specs, now, world)
  {
    if specs == [] {
      return false;
    }
    var seen: set<seq<string>>, covered: set<Category> := {}, {};
    for k := 0 to |specs|
      invariant forall i :: 0 <= i < k ==> Acceptable(specs[i], t.waivers, t.id, now, world)
      invariant forall i, j :: 0 <= i < j < k ==> specs[i].arguments != specs[j].arguments
      invariant forall c :: c in seen <==> exists i :: 0 <= i < k && specs[i].arguments == c
      invariant forall c :: c in covered <==> exists i :: 0 <= i < k && specs[i].required && specs[i].category == c
    {
      var spec := specs[k];
      if !Bound(spec, world) || spec.arguments in seen {
        assert !Bound(spec, world) ==> !Acceptable(spec, t.waivers, t.id, now, world);
        return false;
      }
      seen := seen + {spec.arguments};
      if spec.required {
        if spec.waiver.Some? {
          var waiver := WaiverNamed(t.waivers, spec.waiver.value);
          if waiver.None? || !Live(waiver.value, t.id, spec.category, now) {
            assert !Acceptable(spec, t.waivers, t.id, now, world);
            return false;
          }
        }
        covered := covered + {spec.category};
      }
    }
    for k := 0 to |t.categories|
      invariant forall i :: 0 <= i < k ==> t.categories[i] in covered
    {
      if t.categories[k] !in covered {
        assert t.categories[k] in t.categories;
        return false;
      }
    }
    ok := true;
  }

  // ----------------------------------------------------------------- runs

  /** validator and registered are absent for a plain command. */
  datatype Command = Command(arguments: seq<string>, validator: Option<Validator>, registered: bool, required: bool)

  /** A result is named by the arguments of its command. */
  datatype Result = Result(arguments: seq<string>, exit: int)

  /** A command without a validator is taken for a Python module by its shape. */
  function Inferred(c: Command): Option<Validator> {
    if c.validator.Some? then c.validator
    else if |c.arguments| < 3 || c.arguments[..2] != ["{python}", "-m"] then None
    else if c.arguments[2] == "pytest" then Some(Pytest)
    else if c.arguments[2] == "mypy" then Some(Mypy)
    else if c.arguments[2] == "compileall" then Some(Compileall)
    else None
  }

  /** One turn of the loop in `Verifier.run`, with `_prepare_trusted_command`. */
  function Runs(c: Command, world: World): Step {
    if c.arguments == [] then Raised
    else if c.arguments[0] == FILE_EQUALS then (if |c.arguments| == 3 then world.step(c.arguments) else Raised)
    else if Inferred(c).Some? && Registered(Inferred(c).value, c.arguments, c.registered) then world.step(c.arguments)
    else Raised
  }

  /** The loop does not go past this command. */
  predicate Stops(c: Command, world: World) {
    Runs(c, world).Raised? || (c.required && Runs(c, world).code != 0)
  }

  /** Where the loop stops, or the number of commands. */
  function StopsAt(commands: seq<Command>, world: World): (n: nat)
    ensures n <= |commands|
    ensures forall k :: 0 <= k < n ==> !Stops(commands[k], world)
    ensures n < |commands| ==> Stops(commands[n], world)
  {
    if commands == [] || Stops(commands[0], world) then 0
    else
      var n := StopsAt(commands[1..], world);
      n + 1
  }

  /** A command that the loop reaches raises. */
  predicate Breaks(commands: seq<Command>, world: World) {
    var n := StopsAt(commands, world);
    n < |commands| && Runs(commands[n], world).Raised?
  }

  ghost predicate ResultsOf(commands: seq<Command>, world: World, results: seq<Result>) {
    |results| <= |commands| && forall k :: 0 <= k < |results| ==>
      Runs(commands[k], world).Exited? && results[k] == Result(commands[k].arguments, Runs(commands[k], world).code)
  }

  function Reached(commands: seq<Command>, world: World): nat {
    var n := StopsAt(commands, world);
    if n < |commands| then n + 1 else n
  }

  /** `Verifier.run` for at least one command: the results up to and including the first required
      failure, unless a command before it raises. */
  method RunCommands(commands: seq<Command>, world: World) returns (results: Option<seq<Result>>)
    ensures results.None? <==> Breaks(commands, world)
    ensures results.Some? ==> |results.value| == Reached(commands, world) && ResultsOf(commands, world, results.value)
  {
    var done: seq<Result> := [];
    for k := 0 to |commands|
      invariant |done| == k <= StopsAt(commands, world)
      invariant ResultsOf(commands, world, done)
    {
      var step := Runs(commands[k], world);
      if step.Raised? {
        return None;
      }
      done := done + [Result(commands[k].arguments, step.code)];
      if commands[k].required && step.code != 0 {
        break;
      }
    }
    results := Some(done);
  }

  function CommandOf(s: Spec): Command {
    Command(s.arguments, Some(s.validator), s.registered, s.required)
  }

  /** The commands of the specifications that are not waived. */
  function Executable(specs: seq<Spec>): seq<Command> {
    if specs == [] then []
    else
      var last := specs[|specs| - 1];
      Executable(specs[..|specs| - 1]) + (if last.waiver.None? then [CommandOf(last)] else [])
  }

  /** The bindings accept it and the verifier refuses it: no registration exists for two of the
      validators, and the verifier compares file contents only under the exact name and arity. */
  predicate NeverRuns(s: Spec) {
    if s.arguments != [] && s.arguments[0] == FILE_EQUALS then |s.arguments| != 3
    else s.validator in {FileEquals, SecurityScan, PackageSmoke}
  }

  /** Exactly which bound specifications the verifier starts. */
  lemma BoundSpecRunsIff(s: Spec, world: World)
    requires Bound(s, world)
    ensures Runs(CommandOf(s), world) == if NeverRuns(s) then Raised else world.step(s.arguments)
  {
  }

  // -------------------------------------------------------------- verdicts

  datatype Item = Waived(waiver: Id) | Ran(result: Result)

  datatype Verdict = Raises | Verdict(passed: bool, evidence: seq<Item>)

  predicate ItemPasses(item: Item) {
    item.Waived? || item.result.exit == 0
  }

  function StepOf(s: Spec, world: World): Step {
    Runs(CommandOf(s), world)
  }

  /** The specification runs, is required and fails. */
  predicate FailsRequired(s: Spec, world: World) {
    s.required && s.waiver.None? && StepOf(s, world).Exited? && StepOf(s, world).code != 0
  }

  /** A required specification fails while another still has to run: the results run out. */
  ghost predicate CutShort(specs: seq<Spec>, world: World) {
    exists i, j :: 0 <= i < j < |specs| && FailsRequired(specs[i], world) && specs[j].waiver.None?
  }

  /** A specification whose turn comes makes the verifier raise. */
  ghost predicate SpecRaises(specs: seq<Spec>, world: World) {
    exists i :: 0 <= i < |specs| && specs[i].waiver.None? && StepOf(specs[i], world).Raised?
      && forall j :: 0 <= j < i ==> !FailsRequired(specs[j], world)
  }

  /** Each item is a waiver of its own specification or the result of its own command. */
  ghost predicate EvidenceMatches(specs: seq<Spec>, world: World, evidence: seq<Item>) {
    |evidence| == |specs| && forall i :: 0 <= i < |specs| ==> ItemFits(specs[i], world, evidence[i])
  }

  predicate ItemFits(s: Spec, world: World, item: Item) {
    if s.waiver.Some? then item == Waived(s.waiver.value)
    else StepOf(s, world).Exited? && item == Ran(Result(s.arguments, StepOf(s, world).code))
  }

  predicate SpecPasses(s: Spec, world: World) {
    s.waiver.None? ==> StepOf(s, world) == Exited(0)
  }

  /** A required specification of the category ran and exited zero, or is waived for this task
      and category now. */
  ghost predicate Covered(c: Category, t: Task, specs: seq<Spec>, evidence: seq<Item>, now: Stamp)
    requires |evidence| == |specs|
  {
    exists i ::
      && 0 <= i < |specs| && specs[i].required && specs[i].category == c
      && (evidence[i] == Ran(Result(specs[i].arguments, 0)) || WaivedNow(specs[i], t.waivers, t.id, now))
  }

  /** The commands that can stand for a category; nothing stands for a category without a validator. */
  predicate Fits(c: Category, arguments: seq<string>) {
    match c
    case Tests => arguments == ["{python}", "-m", "pytest", "-q"]
    case Typing => arguments == ["{python}", "-m", "mypy", "--strict", "keeper", "tests/keeper"]
    case Compilation => arguments == ["{python}", "-m", "compileall", "-q", "keeper", "tests/keeper"]
    case Foundation => |arguments| == 2
    case TaskFiles | Security | Packaging => |arguments| == 3 && arguments[0] == "keeper:file-equals"
    case OtherCategory(_) => false
  }

  /** What a passing verdict has for a required category: a command that fits it was started and
      exited zero, or a waiver is honoured. */
  ghost predicate RestsOn(c: Category, t: Task, specs: seq<Spec>, now: Stamp, world: World) {
    exists i :: 0 <= i < |specs| && specs[i].required && specs[i].category == c && !c.OtherCategory?
      && match specs[i].waiver
         case None => Fits(c, specs[i].arguments) && world.step(specs[i].arguments) == Exited(0)
         case Some(id) => Honoured(t.waivers, id, t.id, c, now)
  }

  /** The branch of `_verify` for semantic specifications. */
  method VerifySpecs(t: Task, specs: seq<Spec>, now: Stamp, world: World, treeChanged: bool) returns (v: Verdict)
    ensures v.Raises? <==>
      !BindingsValid(t, specs, now, world) || treeChanged || SpecRaises(specs, world) || CutShort(specs, world)
    ensures v.Verdict? ==> EvidenceMatches(specs, world, v.evidence)
    ensures v.Verdict? ==>
      && (v.passed <==> forall i :: 0 <= i < |specs| ==> SpecPasses(specs[i], world))
      && (v.passed <==> forall item :: item in v.evidence ==> ItemPasses(item))
    ensures v.Verdict? && v.passed ==>
      forall c :: c in t.categories ==> Covered(c, t, specs, v.evidence, now) && RestsOn(c, t, specs, now, world)
  {
    hide BindingsValid, Covered, RestsOn;
    var ok := ValidateBindings(t, specs, now, world);
    if !ok {
      return Raises;
    }
    var commands := Executable(specs);
    var ran := RunCommands(commands, world);
    BreaksIffSpecRaises(specs, world);
    if ran.None? || treeChanged {
      return Raises;
    }
    var results, evidence, next, passed := ran.value, [], 0, true;
    for k := 0 to |specs|
      invariant next == |Executable(specs[..k])| <= |results| && |evidence| == k
      invariant forall i :: 0 <= i < k ==> ItemFits(specs[i], world, evidence[i])
      invariant passed <==> forall i :: 0 <= i < k ==> SpecPasses(specs[i], world)
    {
      ExecutableSoFar(specs, k);
      if specs[k].waiver.Some? {
        evidence := evidence + [Waived(specs[k].waiver.value)];
      } else {
        if next == |results| {
          StoppedBefore(specs, world, k);
          return Raises;
        }
        evidence := evidence + [Ran(results[next])];
        passed := passed && results[next].exit == 0;
        next := next + 1;
      }
    }
    assert specs[..|specs|] == specs;
    NotStopped(specs, world);
    PassedMeansVerified(t, specs, now, world, passed, evidence);
    v := Verdict(passed, evidence);
  }

  // ------------------------------------------------------------- plain commands

  function Plain(lines: seq<seq<string>>): (commands: seq<Command>)
    ensures |commands| == |lines|
    ensures forall k :: 0 <= k < |lines| ==> commands[k] == Command(lines[k], None, false, true)
  {
    if lines == [] then [] else Plain(lines[..|lines| - 1]) + [Command(lines[|lines| - 1], None, false, true)]
  }

  /** A plain command compares the contents of a file, or raises. */
  predicate ComparesFile(line: seq<string>) {
    |line| == 3 && line[0] == FILE_EQUALS
  }

  lemma PlainStep(line: seq<string>, world: World)
    ensures Runs(Command(line, None, false, true), world) == if ComparesFile(line) then world.step(line) else Raised
  {
  }

  /** The branch of `_verify` for a task without specifications: every command is required, so the
      task passes when all of them exit zero, and the first failure ends the evidence. */
  method VerifyPlain(t: Task, lines: seq<seq<string>>, world: World, treeChanged: bool) returns (v: Verdict)
    requires lines != []
    ensures v.Raises? <==> |lines| < |t.categories| || treeChanged || Breaks(Plain(lines), world)
    ensures v.Verdict? ==>
      && 0 < |v.evidence| == Reached(Plain(lines), world)
      && (forall k :: 0 <= k < |v.evidence| ==>
            && ComparesFile(lines[k]) && world.step(lines[k]).Exited?
            && v.evidence[k] == Ran(Result(lines[k], world.step(lines[k]).code)))
      && (forall k :: 0 <= k < |v.evidence| - 1 ==> ItemPasses(v.evidence[k]))
    ensures v.Verdict? ==>
      && (v.passed <==> forall k :: 0 <= k < |lines| ==> ComparesFile(lines[k]) && world.step(lines[k]) == Exited(0))
      && (v.passed <==> forall item :: item in v.evidence ==> ItemPasses(item))
  {
    var commands := Plain(lines);
    if |commands| < |t.categories| {
      return Raises;
    }
    var ran := RunCommands(commands, world);
    if ran.None? || treeChanged {
      return Raises;
    }
    forall k | 0 <= k < |lines|
      ensures Runs(commands[k], world) == if ComparesFile(lines[k]) then world.step(lines[k]) else Raised
    {
      PlainStep(lines[k], world);
    }
    var results, evidence, passed := ran.value, [], true;
    for k := 0 to |results|
      invariant |evidence| == k
      invariant forall i :: 0 <= i < k ==> evidence[i] == Ran(results[i])
      invariant passed <==> forall i :: 0 <= i < k ==> results[i].exit == 0
    {
      evidence := evidence + [Ran(results[k])];
      passed := passed && results[k].exit == 0;
    }
    assert forall i :: 0 <= i < |evidence| ==> evidence[i] in evidence;
    v := Verdict(passed, evidence);
  }

  // ---------------------------------------------------------------- the whole

  function SpecsFor(t: Task, final: bool): seq<Spec> {
    if final && t.finalSpecs != [] then t.finalSpecs else t.specs
  }

  function LinesFor(t: Task, final: bool): seq<seq<string>> {
    if final && t.finalCommands != [] then t.finalCommands else t.commands
  }

  /** When `_verify` raises: a caller's checks, a changed workspace, a command that raises when its
      turn comes, or results that run out. */
  ghost predicate VerifyRaises(t: Task, final: bool, now: Stamp, world: World, treeChanged: bool) {
    var specs, lines := SpecsFor(t, final), LinesFor(t, final);
    || t.commands == [] || treeChanged
    || (if specs != [] then !BindingsValid(t, specs, now, world) || SpecRaises(specs, world) || CutShort(specs, world)
        else |lines| < |t.categories| || Breaks(Plain(lines), world))
  }

  /** `_verify`. */
  method Verify(t: Task, final: bool, now: Stamp, world: World, treeChanged: bool) returns (v: Verdict)
    ensures v.Raises? <==> VerifyRaises(t, final, now, world, treeChanged)
    ensures v.Verdict? && SpecsFor(t, final) != [] ==>
      var specs := SpecsFor(t, final);
      && EvidenceMatches(specs, world, v.evidence)
      && (v.passed <==> forall i :: 0 <= i < |specs| ==> SpecPasses(specs[i], world))
      && (v.passed ==> forall c :: c in t.categories ==>
            Covered(c, t, specs, v.evidence, now) && RestsOn(c, t, specs, now, world))
    ensures v.Verdict? && SpecsFor(t, final) == [] ==>
      (v.passed <==> forall line :: line in LinesFor(t, final) ==> ComparesFile(line) && world.step(line) == Exited(0))
    ensures v.Verdict? ==> (v.passed <==> forall item :: item in v.evidence ==> ItemPasses(item))
  {
    if t.commands == [] {
      return Raises;
    }
    var specs, lines := t.specs, t.commands;
    if final {
      specs := if t.finalSpecs == [] then t.specs else t.finalSpecs;
      lines := if t.finalCommands == [] then t.commands else t.finalCommands;
    }
    if specs != [] {
      v := VerifySpecs(t, specs, now, world, treeChanged);
    } else {
      v := VerifyPlain(t, lines, world, treeChanged);
      assert forall k :: 0 <= k < |lines| ==> lines[k] in lines;
    }
  }

  /** The commands before a specification are its position among the commands. */
  lemma {:induction false} ExecutableSoFar(specs: seq<Spec>, k: nat)
    requires k < |specs|
    ensures specs[..k + 1][..k] == specs[..k]
    ensures Executable(specs[..k]) <= Executable(specs[..k + 1]) <= Executable(specs)
    ensures specs[k].waiver.None? ==>
      && |Executable(specs[..k])| < |Executable(specs)|
      && Executable(specs)[|Executable(specs[..k])|] == CommandOf(specs[k])
  {
    assert specs[..k + 1][..k] == specs[..k];
    if k + 1 == |specs| {
      assert specs[..k + 1] == specs;
    } else {
      var init := specs[..|specs| - 1];
      ExecutableSoFar(init, k);
      assert init[..k] == specs[..k] && init[..k + 1] == specs[..k + 1];
    }
  }

  /** Every command comes from a specification that is not waived, in order. */
  lemma {:induction false} CommandHasSpec(specs: seq<Spec>, n: nat) returns (i: nat)
    requires n < |Executable(specs)|
    ensures i < |specs| && specs[i].waiver.None? && n == |Executable(specs[..i])|
    ensures Executable(specs)[n] == CommandOf(specs[i])
  {
    var init := specs[..|specs| - 1];
    if n < |Executable(init)| {
      i := CommandHasSpec(init, n);
      assert init[..i] == specs[..i];
    } else {
      i := |specs| - 1;
    }
  }

  lemma {:induction false} ExecutableGrows(specs: seq<Spec>, i: nat, j: nat)
    requires i <= j <= |specs|
    ensures |Executable(specs[..i])| <= |Executable(specs[..j])|
    ensures i < j && specs[i].waiver.None? ==> |Executable(specs[..i])| < |Executable(specs[..j])|
    decreases j
  {
    if i < j {
      ExecutableGrows(specs, i, j - 1);
      assert specs[..j][..j - 1] == specs[..j - 1];
    }
  }

  /** The verifier raises exactly when a specification whose turn comes makes it raise. */
  lemma BreaksIffSpecRaises(specs: seq<Spec>, world: World)
    ensures Breaks(Executable(specs), world) <==> SpecRaises(specs, world)
  {
    var commands := Executable(specs);
    var n := StopsAt(commands, world);
    if Breaks(commands, world) {
      var i := CommandHasSpec(specs, n);
      forall j | 0 <= j < i
        ensures !FailsRequired(specs[j], world)
      {
        ExecutableSoFar(specs, j);
        ExecutableGrows(specs, j, i);
      }
      assert StepOf(specs[i], world).Raised?;
    }
    if SpecRaises(specs, world) {
      var i :| 0 <= i < |specs| && specs[i].waiver.None? && StepOf(specs[i], world).Raised?
        && forall j :: 0 <= j < i ==> !FailsRequired(specs[j], world);
      ExecutableSoFar(specs, i);
      var k := CommandHasSpec(specs, n);
      if i < k {
        ExecutableGrows(specs, i, k);
      }
    }
  }

  /** Results run out only behind a required failure. */
  lemma StoppedBefore(specs: seq<Spec>, world: World, k: nat)
    requires k < |specs| && specs[k].waiver.None? && !Breaks(Executable(specs), world)
    requires var n := StopsAt(Executable(specs), world);
      n < |Executable(specs)| && |Executable(specs[..k])| == n + 1
    ensures CutShort(specs, world)
  {
    var i := CommandHasSpec(specs, StopsAt(Executable(specs), world));
    if k <= i {
      ExecutableGrows(specs, k, i);
    }
    assert i < k && FailsRequired(specs[i], world);
  }

  /** And they do run out behind one. */
  lemma NotStopped(specs: seq<Spec>, world: World)
    requires !Breaks(Executable(specs), world) && |Executable(specs)| <= Reached(Executable(specs), world)
    ensures !CutShort(specs, world)
  {
    forall i, j | 0 <= i < j < |specs| && FailsRequired(specs[i], world)
      ensures specs[j].waiver.Some?
    {
      ExecutableSoFar(specs, i);
      ExecutableSoFar(specs, j);
      ExecutableGrows(specs, i, j);
    }
  }

  lemma PassingSpecFits(s: Spec, world: World)
    requires Bound(s, world) && SpecPasses(s, world)
    ensures !s.category.OtherCategory?
    ensures s.waiver.None? ==> Fits(s.category, s.arguments) && world.step(s.arguments) == Exited(0)
  {
  }

  /** What a passing verdict rests on. */
  lemma PassedMeansVerified(t: Task, specs: seq<Spec>, now: Stamp, world: World, passed: bool, evidence: seq<Item>)
    requires BindingsValid(t, specs, now, world) && EvidenceMatches(specs, world, evidence)
    requires passed <==> forall i :: 0 <= i < |specs| ==> SpecPasses(specs[i], world)
    ensures passed <==> forall item :: item in evidence ==> ItemPasses(item)
    ensures passed ==> forall c :: c in t.categories ==> Covered(c, t, specs, evidence, now) && RestsOn(c, t, specs, now, world)
  {
    assert forall i :: 0 <= i < |specs| ==> ItemFits(specs[i], world, evidence[i]);
    if passed {
      forall c | c in t.categories
        ensures Covered(c, t, specs, evidence, now) && RestsOn(c, t, specs, now, world)
      {
        var i :| 0 <= i < |specs| && specs[i].required && specs[i].category == c;
        assert Acceptable(specs[i], t.waivers, t.id, now, world);
        assert SpecPasses(specs[i], world);
        WaivedIffHonoured(specs[i], t.waivers, t.id, now);
        PassingSpecFits(specs[i], world);
      }
    } else {
      var i :| 0 <= i < |specs| && !SpecPasses(specs[i], world);
      assert evidence[i] in evidence && !ItemPasses(evidence[i]);
    }
  }

  /** Specifications that the bindings accept and the verifier refuses, unless it is waived, give
      no verdict in any world: either its turn comes, or a failure before it cuts the results. */
  lemma RefusedSpecGivesNoVerdict(specs: seq<Spec>, i: nat, world: World)
    requires i < |specs| && Bound(specs[i], world) && NeverRuns(specs[i]) && specs[i].waiver.None?
    ensures SpecRaises(specs, world) || CutShort(specs, world)
  {
    BoundSpecRunsIff(specs[i], world);
    if forall j :: 0 <= j < i ==> !FailsRequired(specs[j], world) {
      assert SpecRaises(specs, world);
    } else {
      assert CutShort(specs, world);
    }
  }
}
