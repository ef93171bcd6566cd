/**
 * The command registry of docs/QgamingX/qgaming-implementation.js (QCLI).
 * Classical commands carry a quantum level of 0, 0.5 or 1; quantum
 * commands carry requirements. `execute` tokenises the input line, looks
 * the command up in the quantum registry first and in the classical one
 * second, checks the required level against the system level (always 1),
 * runs the action and wraps its result. The static maps are the fields of
 * a `CommandLine` object; an action is a function from the argument list
 * to a returned value or a thrown message; `Math.random()` and `Date.now()`
 * are parameters; the `async`/`await` plumbing is left out.
 */
module Qcli {
  import opened Wrappers

  /** What an action does with its arguments: returns a value or throws a message. */
  datatype ActionResult<V> = Returned(value: V) | Threw(message: string)

  type Action<V> = seq<string> -> ActionResult<V>

  datatype Requirements = Requirements(minQuantumLevel: real, entanglement: bool, superposition: bool)

  datatype QuantumRegistration<V> = QuantumRegistration(action: Action<V>, requirements: Requirements)

  /** What `execute` resolves to. */
  datatype Response<V> =
    | Plain(result: V)
    | Leveled(result: V, level: real, coherence: real, timestamp: int)
    | QuantumResult(result: V, coherence: real, timestamp: int)

  /** The errors `execute` and `registerCommand` throw, by message. */
  datatype CliError =
    | InvalidQuantumLevel
    | UnknownCommand(command: string)
    | InsufficientLevel(systemLevel: real, requested: real)
    | ExecutingCommand(cause: CliError)
    | ExecutingQuantumCommand(message: string)
    | ActionFailed(message: string)

  /** `getSystemQuantumLevel()`: the simulated system always reports 1. */
  const SystemQuantumLevel: real := 1.0

  predicate IsQuantumLevel(level: real)
  {
    level == 0.0 || level == 0.5 || level == 1.0
  }

  // ---------------------------------------------------------------------------
  // Tokenising: `input.trim().split(/\s+/)`

  /** The characters JavaScript's `\s` and `trim` treat as white space. */
  predicate IsSpace(c: char)
  {
    var n := c as int;
    (9 <= n <= 13) || n == 32 || n == 0xA0 || n == 0x1680 || (0x2000 <= n <= 0x200A) ||
    n == 0x2028 || n == 0x2029 || n == 0x202F || n == 0x205F || n == 0x3000 || n == 0xFEFF
  }

  predicate NoSpace(s: string)
  {
    forall i :: 0 <= i < |s| ==> !IsSpace(s[i])
  }

  /** A word as `split(/\s+/)` yields it from a trimmed line: non-empty, without white space. */
  predicate IsWord(s: string)
  {
    |s| > 0 && NoSpace(s)
  }

  /** The number of white-space characters the input starts with. */
  function LeadingSpaces(s: string): (n: nat)
    ensures n <= |s| && (n < |s| ==> !IsSpace(s[n]))
    ensures forall i :: 0 <= i < n ==> IsSpace(s[i])
  {
    if |s| > 0 && IsSpace(s[0]) then 1 + LeadingSpaces(s[1..]) else 0
  }

  /** The number of white-space characters the input ends with. */
  function TrailingSpaces(s: string): (n: nat)
    ensures n <= |s| && (n < |s| ==> !IsSpace(s[|s| - n - 1]))
    ensures forall i :: |s| - n <= i < |s| ==> IsSpace(s[i])
  {
    if |s| > 0 && IsSpace(s[|s| - 1]) then 1 + TrailingSpaces(s[..|s| - 1]) else 0
  }

  /** The input without its leading white space: what is removed is all white space. */
  function TrimStart(s: string): (r: string)
    ensures |r| <= |s| && r == s[|s| - |r|..]
    ensures r == [] || !IsSpace(r[0])
    ensures forall i :: 0 <= i < |s| - |r| ==> IsSpace(s[i])
  {
    s[LeadingSpaces(s)..]
  }

  /** The input without its trailing white space: what is removed is all white space. */
  function TrimEnd(s: string): (r: string)
    ensures |r| <= |s| && r == s[..|r|]
    ensures r == [] || !IsSpace(r[|r| - 1])
    ensures forall i :: |r| <= i < |s| ==> IsSpace(s[i])
  {
    s[..|s| - TrailingSpaces(s)]
  }

  /**
   * `trim()`: white space removed from both ends. The result is the slice
   * of the input from its first non-space character to its last; the line
   * trims to nothing exactly when it is all white space.
   */
  function Trim(s: string): (r: string)
    ensures r == [] || (!IsSpace(r[0]) && !IsSpace(r[|r| - 1]))
    ensures var a := |s| - |TrimStart(s)|;
      a + |r| <= |s| && r == s[a..a + |r|] &&
      (forall i :: 0 <= i < a ==> IsSpace(s[i])) &&
      (forall i :: a + |r| <= i < |s| ==> IsSpace(s[i]))
    ensures r == [] <==> forall i :: 0 <= i < |s| ==> IsSpace(s[i])
  {
    TrimEnd(TrimStart(s))
  }

  /** The number of characters before the first white space. */
  function LeadingRun(s: string): (n: nat)
    ensures n <= |s| && NoSpace(s[..n])
    ensures n < |s| ==> IsSpace(s[n])
  {
    if |s| == 0 || IsSpace(s[0]) then 0
    else
      var n := 1 + LeadingRun(s[1..]);
      assert s[..n] == [s[0]] + s[1..][..n - 1];
      n
  }

  /** The maximal runs of non-space characters, in order. */
  function Words(s: string): (r: seq<string>)
    ensures forall i :: 0 <= i < |r| ==> IsWord(r[i])
    decreases |s|
  {
    if |s| == 0 then []
    else if IsSpace(s[0]) then Words(s[1..])
    else
      var n := LeadingRun(s);
      [s[..n]] + Words(s[n..])
  }

  /**
   * `input.trim().split(/\s+/)`: a blank line gives the single empty
   * string; any other line gives its words, which are the words of the
   * untrimmed line.
   */
  function Tokenize(input: string): (r: seq<string>)
    ensures |r| >= 1
    ensures Trim(input) == [] <==> r == [""]
    ensures Trim(input) != [] ==> r == Words(input)
  {
    var t := Trim(input);
    if t == [] then [""]
    else
      var w := Words(t);
      WordsOfNonBlank(t);
      assert IsWord(w[0]);
      WordsOfTrim(input);
      w
  }

  /** Splitting a string that is a single word gives that word. */
  lemma WordsOfWord(w: string)
    requires IsWord(w)
    ensures Words(w) == [w]
  {
    LeadingRunOfWord(w, "");
    assert w + "" == w;
    assert w[|w|..] == [];
  }

  /** A string of white space only has no words. */
  lemma {:induction false} WordsOfBlank(s: string)
    requires forall i :: 0 <= i < |s| ==> IsSpace(s[i])
    ensures Words(s) == []
    decreases |s|
  {
    if |s| > 0 {
      WordsOfBlank(s[1..]);
    }
  }

  /** The leading run of x + y stops inside x, or runs on into y. */
  lemma {:induction false} LeadingRunAppend(x: string, y: string)
    ensures LeadingRun(x + y) == if LeadingRun(x) < |x| then LeadingRun(x) else |x| + LeadingRun(y)
    decreases |x|
  {
    if |x| > 0 && !IsSpace(x[0]) {
      assert (x + y)[1..] == x[1..] + y;
      LeadingRunAppend(x[1..], y);
    } else if |x| == 0 {
      assert x + y == y;
    }
  }

  /**
   * Every white-space character separates words: the words on either side
   * of it are the words of the two halves, so no word spans a white space.
   */
  lemma {:induction false} WordsSplitAtSpace(a: string, c: char, b: string)
    requires IsSpace(c)
    ensures Words(a + [c] + b) == Words(a) + Words(b)
    decreases |a|
  {
    var s := a + [c] + b;
    if |a| == 0 {
      assert s == [c] + b && s[1..] == b;
    } else if IsSpace(a[0]) {
      assert s[1..] == a[1..] + [c] + b;
      WordsSplitAtSpace(a[1..], c, b);
    } else {
      var m := LeadingRun(a);
      var rest := [c] + b;
      assert s == a + rest;
      LeadingRunAppend(a, rest);
      assert s[0] == a[0];
      if m < |a| {
        assert LeadingRun(s) == m;
        assert Words(s) == [s[..m]] + Words(s[m..]);
        assert s[..m] == a[..m];
        assert s[m..] == a[m..] + [c] + b;
        WordsSplitAtSpace(a[m..], c, b);
        assert Words(a) == [a[..m]] + Words(a[m..]);
      } else {
        assert LeadingRun(rest) == 0;
        assert LeadingRun(s) == |a|;
        assert Words(s) == [s[..|a|]] + Words(s[|a|..]);
        assert s[..|a|] == a && s[|a|..] == rest;
        assert rest[1..] == b;
        assert Words(rest) == Words(b);
        assert Words(a) == [a[..|a|]] + Words(a[|a|..]);
        assert a[..|a|] == a && a[|a|..] == [];
      }
    }
  }

  /** Leading white space does not change the words. */
  lemma {:induction false} WordsOfTrimStart(s: string)
    ensures Words(TrimStart(s)) == Words(s)
    decreases |s|
  {
    if |s| > 0 && IsSpace(s[0]) {
      WordsOfTrimStart(s[1..]);
    }
  }

  /** Trailing white space does not change the words. */
  lemma {:induction false} WordsOfTrimEnd(s: string)
    ensures Words(TrimEnd(s)) == Words(s)
    decreases |s|
  {
    if |s| > 0 && IsSpace(s[|s| - 1]) {
      var front := s[..|s| - 1];
      assert TrimEnd(s) == TrimEnd(front);
      WordsOfTrimEnd(front);
      WordsSplitAtSpace(front, s[|s| - 1], []);
      assert front + [s[|s| - 1]] + [] == s;
      assert Words([]) == [];
      assert Words(front) + [] == Words(front);
    } else {
      assert TrimEnd(s) == s;
    }
  }

  /** Trimming does not change the words. */
  lemma WordsOfTrim(s: string)
    ensures Words(Trim(s)) == Words(s)
  {
    WordsOfTrimStart(s);
    WordsOfTrimEnd(TrimStart(s));
  }

  /** The characters of s that are not white space, in order. */
  function Unspaced(s: string): string
  {
    if |s| == 0 then [] else (if IsSpace(s[0]) then [] else [s[0]]) + Unspaced(s[1..])
  }

  /** The words run together. */
  function Concat(ws: seq<string>): string
  {
    if |ws| == 0 then [] else ws[0] + Concat(ws[1..])
  }

  lemma {:induction false} UnspacedAppend(x: string, y: string)
    ensures Unspaced(x + y) == Unspaced(x) + Unspaced(y)
    decreases |x|
  {
    if |x| == 0 {
      assert x + y == y;
    } else {
      assert (x + y)[1..] == x[1..] + y;
      UnspacedAppend(x[1..], y);
    }
  }

  lemma {:induction false} UnspacedOfNoSpace(x: string)
    requires NoSpace(x)
    ensures Unspaced(x) == x
    decreases |x|
  {
    if |x| > 0 {
      UnspacedOfNoSpace(x[1..]);
      assert x == [x[0]] + x[1..];
    }
  }

  /** The words, run together, are exactly the non-space characters of s: nothing is lost, nothing added. */
  lemma {:induction false} ConcatWords(s: string)
    ensures Concat(Words(s)) == Unspaced(s)
    decreases |s|
  {
    if |s| > 0 {
      if IsSpace(s[0]) {
        ConcatWords(s[1..]);
      } else {
        var n := LeadingRun(s);
        ConcatWords(s[n..]);
        assert Words(s) == [s[..n]] + Words(s[n..]);
        assert s == s[..n] + s[n..];
        UnspacedAppend(s[..n], s[n..]);
        UnspacedOfNoSpace(s[..n]);
      }
    }
  }

  /** A line that starts with a non-space character has at least one word. */
  lemma WordsOfNonBlank(t: string)
    requires |t| > 0 && !IsSpace(t[0])
    ensures |Words(t)| >= 1
  {
  }

  /** The words joined by single spaces. */
  function JoinWords(ws: seq<string>): string
  {
    if |ws| == 0 then "" else if |ws| == 1 then ws[0] else ws[0] + " " + JoinWords(ws[1..])
  }

  lemma LeadingRunOfWord(w: string, rest: string)
    requires IsWord(w) && (rest == [] || IsSpace(rest[0]))
    ensures LeadingRun(w + rest) == |w|
    decreases |w|
  {
    if |w| > 1 {
      assert (w + rest)[1..] == w[1..] + rest;
      LeadingRunOfWord(w[1..], rest);
    }
  }

  /** Splitting words joined by single spaces gives the words back. */
  lemma {:induction false} WordsOfJoin(ws: seq<string>)
    requires forall i :: 0 <= i < |ws| ==> IsWord(ws[i])
    ensures Words(JoinWords(ws)) == ws
  {
    if |ws| == 1 {
      WordsOfWord(ws[0]);
    } else if |ws| > 1 {
      var rest := JoinWords(ws[1..]);
      assert JoinWords(ws) == ws[0] + [' '] + rest;
      WordsSplitAtSpace(ws[0], ' ', rest);
      WordsOfWord(ws[0]);
      WordsOfJoin(ws[1..]);
      assert ws == [ws[0]] + ws[1..];
    }
  }

  /** A line whose ends are not white space is its own trim. */
  lemma TrimKeeps(s: string)
    requires |s| > 0 && !IsSpace(s[0]) && !IsSpace(s[|s| - 1])
    ensures Trim(s) == s
  {
  }

  lemma JoinWordsEnds(ws: seq<string>)
    requires |ws| > 0 && forall i :: 0 <= i < |ws| ==> IsWord(ws[i])
    requires IsWord(ws[0]) && IsWord(ws[|ws| - 1])
    ensures |JoinWords(ws)| > 0
    ensures JoinWords(ws)[0] == ws[0][0]
    ensures JoinWords(ws)[|JoinWords(ws)| - 1] == ws[|ws| - 1][|ws[|ws| - 1]| - 1]
  {
    if |ws| > 1 {
      JoinWordsEnds(ws[1..]);
    }
  }

  /** `[command, ...args]` of a line. */
  function ParseInput(input: string): (r: (string, seq<string>))
    ensures [r.0] + r.1 == Tokenize(input)
  {
    var tokens := Tokenize(input);
    (tokens[0], tokens[1..])
  }

  /** A command and arguments typed with single spaces parse back to themselves. */
  lemma ParseRoundTrip(command: string, args: seq<string>)
    requires IsWord(command) && forall i :: 0 <= i < |args| ==> IsWord(args[i])
    ensures ParseInput(JoinWords([command] + args)) == (command, args)
  {
    var ws := [command] + args;
    assert forall i :: 0 <= i < |ws| ==> IsWord(ws[i]) by {
      forall i | 0 <= i < |ws| ensures IsWord(ws[i]) {
        if i > 0 { assert ws[i] == args[i - 1]; }
      }
    }
    var line := JoinWords(ws);
    JoinWordsEnds(ws);
    TrimKeeps(line);
    WordsOfJoin(ws);
    assert Tokenize(line) == ws;
    assert ws[0] == command && ws[1..] == args;
  }

  // ---------------------------------------------------------------------------
  // Checks and formatting

  /** `verifyQuantumCapabilities(level)`: throws when the system level is below the requested level. */
  function VerifyQuantumCapabilities(level: real): (r: Result<(), CliError>)
    ensures r.Err? <==> SystemQuantumLevel < level
    ensures r.Err? ==> r.error == InsufficientLevel(SystemQuantumLevel, level)
  {
    if SystemQuantumLevel < level then Err(InsufficientLevel(SystemQuantumLevel, level)) else Ok(())
  }

  /** `formatResult(result, level)`: the bare result at level 0, otherwise wrapped with the level. */
  function FormatResult<V>(result: V, level: real, coherence: real, timestamp: int): (r: Response<V>)
    ensures r.result == result
    ensures level == 0.0 <==> r.Plain?
    ensures level != 0.0 ==> r == Leveled(result, level, coherence, timestamp)
  {
    if level == 0.0 then Plain(result) else Leveled(result, level, coherence, timestamp)
  }

  /** `formatQuantumResult(result)`: always wrapped, marked entangled and in superposition. */
  function FormatQuantumResult<V>(result: V, coherence: real, timestamp: int): (r: Response<V>)
    ensures r.QuantumResult? && r.result == result
  {
    QuantumResult(result, coherence, timestamp)
  }

  /**
   * `executeQuantumCommand(command, args)`: the level check throws
   * unwrapped; the entanglement and superposition checks always pass; a
   * throwing action is wrapped.
   */
  function ExecuteQuantum<V>(registration: QuantumRegistration<V>, args: seq<string>, coherence: real, timestamp: int)
    : (r: Result<Response<V>, CliError>)
    ensures r.Ok? ==> r.value.QuantumResult?
    ensures VerifyQuantumCapabilities(registration.requirements.minQuantumLevel).Err? ==>
      r == Err(InsufficientLevel(SystemQuantumLevel, registration.requirements.minQuantumLevel))
    ensures registration.requirements.minQuantumLevel <= SystemQuantumLevel ==>
      (r.Ok? <==> registration.action(args).Returned?)
    ensures r.Ok? ==> r.value == QuantumResult(registration.action(args).value, coherence, timestamp)
    ensures r.Err? && registration.requirements.minQuantumLevel <= SystemQuantumLevel ==>
      r.error == ExecutingQuantumCommand(registration.action(args).message)
    ensures r.Err? ==> r.error.InsufficientLevel? || r.error.ExecutingQuantumCommand?
  {
    match VerifyQuantumCapabilities(registration.requirements.minQuantumLevel)
    case Err(e) => Err(e)
    case Ok(_) =>
      match registration.action(args)
      case Threw(message) => Err(ExecutingQuantumCommand(message))
      case Returned(value) => Ok(FormatQuantumResult(value, coherence, timestamp))
  }

  /**
   * The classical branch of `execute`: a missing level counts as 0, a
   * positive one is checked, and any failure is wrapped.
   */
  function ExecuteClassical<V>(action: Action<V>, storedLevel: Option<real>, args: seq<string>, coherence: real, timestamp: int)
    : (r: Result<Response<V>, CliError>)
    ensures r.Err? ==> r.error.ExecutingCommand?
    ensures r.Ok? ==> !r.value.QuantumResult?
  {
    var level := if storedLevel.Some? && storedLevel.value != 0.0 then storedLevel.value else 0.0;
    if level > 0.0 && VerifyQuantumCapabilities(level).Err? then
      Err(ExecutingCommand(VerifyQuantumCapabilities(level).error))
    else
      match action(args)
      case Threw(message) => Err(ExecutingCommand(ActionFailed(message)))
      case Returned(value) => Ok(FormatResult(value, level, coherence, timestamp))
  }

  class CommandLine<V> {
    var commands: map<string, Action<V>>
    var quantumState: map<string, real>
    var quantumRegistry: map<string, QuantumRegistration<V>>

    /** Every classical command has a level, and every level is 0, 0.5 or 1. */
    predicate Valid()
      reads this
    {
      commands.Keys == quantumState.Keys &&
      forall c :: c in quantumState ==> IsQuantumLevel(quantumState[c])
    }

    constructor ()
      ensures Valid()
      ensures commands == map[] && quantumState == map[] && quantumRegistry == map[]
    {
      commands := map[];
      quantumState := map[];
      quantumRegistry := map[];
    }

    /**
     * `registerCommand(command, action, quantumLevel = 0)`: a level outside
     * {0, 0.5, 1} throws and changes nothing; otherwise the command maps to
     * the action and the level, replacing any earlier entry.
     */
    method RegisterCommand(command: string, action: Action<V>, quantumLevel: real := 0.0)
      returns (r: Result<(), CliError>)
      requires Valid()
      modifies this
      ensures Valid()
      ensures r.Err? <==> !IsQuantumLevel(quantumLevel)
      ensures r.Err? ==>
        r.error == InvalidQuantumLevel && commands == old(commands) && quantumState == old(quantumState)
      ensures r.Ok? ==>
        commands == old(commands)[command := action] && quantumState == old(quantumState)[command := quantumLevel]
      ensures quantumRegistry == old(quantumRegistry)
    {
      if !(quantumLevel == 0.0 || quantumLevel == 0.5 || quantumLevel == 1.0) {
        return Err(InvalidQuantumLevel);
      }
      commands := commands[command := action];
      quantumState := quantumState[command := quantumLevel];
      r := Ok(());
    }

    /** `registerQuantumCommand(command, action, requirements)`: always succeeds, replacing any earlier entry. */
    method RegisterQuantumCommand(command: string, quantumAction: Action<V>, requirements: Requirements)
      requires Valid()
      modifies this
      ensures Valid()
      ensures quantumRegistry == old(quantumRegistry)[command := QuantumRegistration(quantumAction, requirements)]
      ensures commands == old(commands) && quantumState == old(quantumState)
    {
      quantumRegistry := quantumRegistry[command := QuantumRegistration(quantumAction, requirements)];
    }

    /**
     * `execute(input)` with the `Math.random()` coherence and the
     * `Date.now()` timestamp: the quantum registry first, then the
     * classical one, then "Unknown command".
     */
    function Execute(input: string, coherence: real, timestamp: int): (r: Result<Response<V>, CliError>)
      reads this
      ensures r == Err(UnknownCommand(ParseInput(input).0)) <==>
        ParseInput(input).0 !in quantumRegistry && ParseInput(input).0 !in commands
      ensures r.Ok? ==> (r.value.QuantumResult? <==> ParseInput(input).0 in quantumRegistry)
      ensures r.Err? && r.error.ExecutingCommand? ==> ParseInput(input).0 in commands
    {
      var (command, args) := ParseInput(input);
      if command in quantumRegistry then ExecuteQuantum(quantumRegistry[command], args, coherence, timestamp)
      else if command !in commands then Err(UnknownCommand(command))
      else ExecuteClassical(commands[command],
                            if command in quantumState then Some(quantumState[command]) else None,
                            args, coherence, timestamp)
    }
  }

  /** The quantum registry wins: a command in it never reaches the classical map. */
  lemma QuantumFirst<V>(cli: CommandLine<V>, input: string, coherence: real, timestamp: int)
    requires ParseInput(input).0 in cli.quantumRegistry
    ensures cli.Execute(input, coherence, timestamp)
         == ExecuteQuantum(cli.quantumRegistry[ParseInput(input).0], ParseInput(input).1, coherence, timestamp)
    ensures cli.Execute(input, coherence, timestamp).Ok? ==> cli.Execute(input, coherence, timestamp).value.QuantumResult?
  {
  }

  /** A command in neither registry is rejected with its name. */
  lemma UnknownCommandRejected<V>(cli: CommandLine<V>, input: string, coherence: real, timestamp: int)
    requires ParseInput(input).0 !in cli.quantumRegistry && ParseInput(input).0 !in cli.commands
    ensures cli.Execute(input, coherence, timestamp) == Err(UnknownCommand(ParseInput(input).0))
  {
  }

  /**
   * In a valid registry a classical command never fails its level check:
   * it fails only when its action throws, and otherwise returns the
   * action's value, bare at level 0 and wrapped with its level otherwise.
   */
  lemma ClassicalRunsAction<V>(cli: CommandLine<V>, input: string, coherence: real, timestamp: int)
    requires cli.Valid()
    requires ParseInput(input).0 !in cli.quantumRegistry && ParseInput(input).0 in cli.commands
    ensures var (command, args) := ParseInput(input);
      var level := cli.quantumState[command];
      match cli.commands[command](args)
      case Threw(message) => cli.Execute(input, coherence, timestamp) == Err(ExecutingCommand(ActionFailed(message)))
      case Returned(value) => cli.Execute(input, coherence, timestamp) == Ok(FormatResult(value, level, coherence, timestamp))
  {
  }

  /**
   * A quantum command whose minimum level the system meets runs its action:
   * the value comes back wrapped as a quantum result, and a throw comes back
   * as "Error executing quantum command" with the action's message.
   */
  lemma QuantumRunsAction<V>(cli: CommandLine<V>, input: string, coherence: real, timestamp: int)
    requires ParseInput(input).0 in cli.quantumRegistry
    requires cli.quantumRegistry[ParseInput(input).0].requirements.minQuantumLevel <= SystemQuantumLevel
    ensures var (command, args) := ParseInput(input);
      match cli.quantumRegistry[command].action(args)
      case Threw(message) => cli.Execute(input, coherence, timestamp) == Err(ExecutingQuantumCommand(message))
      case Returned(value) => cli.Execute(input, coherence, timestamp) == Ok(QuantumResult(value, coherence, timestamp))
  {
  }

  /** A registered quantum command with a minimum level above 1 always fails its check. */
  lemma QuantumLevelTooHigh<V>(registration: QuantumRegistration<V>, args: seq<string>, coherence: real, timestamp: int)
    requires registration.requirements.minQuantumLevel > 1.0
    ensures ExecuteQuantum(registration, args, coherence, timestamp)
         == Err(InsufficientLevel(1.0, registration.requirements.minQuantumLevel))
  {
  }
}
