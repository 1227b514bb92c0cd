/**
 * The rule list every builder keeps, and the chaining protocol on it: a value
 * method appends a rule without a breakpoint, a breakpoint method re-targets
 * only the last rule (or, on an empty list, adds the builder's default rule).
 */
module Rules {
  import opened Options
  import opened Breakpoints

  /** One entry of a builder's list: a payload and the breakpoint it applies at. */
  datatype Rule<P> = Rule(payload: P, bp: Option<Breakpoint>)

  /** The payloads of a rule list, in order. */
  function Payloads<P>(rules: seq<Rule<P>>): (ps: seq<P>)
    ensures |ps| == |rules|
    ensures forall i :: 0 <= i < |rules| ==> ps[i] == rules[i].payload
  {
    if |rules| == 0 then [] else Payloads(rules[..|rules| - 1]) + [rules[|rules| - 1].payload]
  }

  /** A builder made by a one-value constructor: one rule, at the given breakpoint or none. */
  function Init<P>(seed: P, bp: Option<Breakpoint>): (r: seq<Rule<P>>)
    ensures Payloads(r) == [seed] && r[0].bp == bp
  {
    [Rule(seed, bp)]
  }

  /** A value method: one rule without a breakpoint is appended, earlier rules are untouched. */
  function Chain<P>(rules: seq<Rule<P>>, v: P): (r: seq<Rule<P>>)
    ensures |r| == |rules| + 1
    ensures r[..|rules|] == rules
    ensures r[|rules|].payload == v && r[|rules|].bp.None?
  {
    rules + [Rule(v, None)]
  }

  /** A value method adds exactly its value to the payloads. */
  lemma ChainPayloads<P>(rules: seq<Rule<P>>, v: P)
    ensures Payloads(Chain(rules, v)) == Payloads(rules) + [v]
  {
    assert Chain(rules, v)[..|rules|] == rules;
  }

  /**
   * A breakpoint method: on an empty list the default rule is added with the
   * breakpoint; otherwise the last rule keeps its payload and takes the
   * breakpoint, and the list keeps its length and every other rule.
   */
  function SetBreakpoint<P>(rules: seq<Rule<P>>, b: Breakpoint, default: P): (r: seq<Rule<P>>)
    ensures |rules| == 0 ==> Payloads(r) == [default]
    ensures |rules| > 0 ==> |r| == |rules| && r[..|r| - 1] == rules[..|rules| - 1]
    ensures |rules| > 0 ==> Payloads(r) == Payloads(rules)
    ensures r[|r| - 1].bp == Some(b)
  {
    if |rules| == 0 then [Rule(default, Some(b))]
    else
      var r := rules[..|rules| - 1] + [Rule(rules[|rules| - 1].payload, Some(b))];
      assert r[..|r| - 1] == rules[..|rules| - 1];
      assert Payloads(r) == Payloads(r[..|r| - 1]) + [r[|r| - 1].payload];
      r
  }

  /** Chaining a second breakpoint overrides the first: the last breakpoint wins. */
  lemma LastBreakpointWins<P>(rules: seq<Rule<P>>, b1: Breakpoint, b2: Breakpoint, default: P)
    ensures SetBreakpoint(SetBreakpoint(rules, b1, default), b2, default) == SetBreakpoint(rules, b2, default)
  {
    var once := SetBreakpoint(rules, b1, default);
    if |rules| > 0 {
      assert once[..|once| - 1] == rules[..|rules| - 1];
    }
  }

  /** A value followed by a breakpoint yields exactly one new rule carrying both. */
  lemma ValueThenBreakpoint<P>(rules: seq<Rule<P>>, v: P, b: Breakpoint, default: P)
    ensures SetBreakpoint(Chain(rules, v), b, default) == rules + [Rule(v, Some(b))]
  {
    assert Chain(rules, v)[..|rules|] == rules;
  }

  /** One fluent call on a builder. */
  datatype Call<P> = Value(v: P) | On(b: Breakpoint)

  function Step<P>(rules: seq<Rule<P>>, call: Call<P>, default: P): seq<Rule<P>>
  {
    match call
    case Value(v) => Chain(rules, v)
    case On(b) => SetBreakpoint(rules, b, default)
  }

  /** The list after a chain of fluent calls, left to right. */
  function Replay<P>(rules: seq<Rule<P>>, calls: seq<Call<P>>, default: P): seq<Rule<P>>
    decreases |calls|
  {
    if |calls| == 0 then rules else Replay(Step(rules, calls[0], default), calls[1..], default)
  }

  /** The values a chain of calls passes, in order. */
  function Values<P>(calls: seq<Call<P>>): seq<P>
  {
    if |calls| == 0 then []
    else (match calls[0] case Value(v) => [v] case On(_) => []) + Values(calls[1..])
  }

  /**
   * On a builder that already holds a rule, a chain of calls adds exactly one
   * rule per value, in call order; breakpoint calls never add or drop a rule.
   */
  lemma {:induction false} ReplayPayloads<P>(rules: seq<Rule<P>>, calls: seq<Call<P>>, default: P)
    requires |rules| > 0
    ensures Payloads(Replay(rules, calls, default)) == Payloads(rules) + Values(calls)
    decreases |calls|
  {
    if |calls| > 0 {
      var next := Step(rules, calls[0], default);
      StepPayloads(rules, calls[0], default);
      ReplayPayloads(next, calls[1..], default);
      ValuesCons(calls);
    }
  }

  /** One call adds its value, if any, to the payloads of a non-empty list. */
  lemma StepPayloads<P>(rules: seq<Rule<P>>, call: Call<P>, default: P)
    requires |rules| > 0
    ensures Payloads(Step(rules, call, default)) == Payloads(rules) + Values([call])
  {
    assert Values([call]) == (match call case Value(v) => [v] case On(_) => []) + Values([]);
    if call.Value? {
      ChainPayloads(rules, call.v);
    }
  }

  lemma ValuesCons<P>(calls: seq<Call<P>>)
    requires |calls| > 0
    ensures Values(calls) == Values([calls[0]]) + Values(calls[1..])
  {
    assert Values([calls[0]]) == (match calls[0] case Value(v) => [v] case On(_) => []) + Values([]);
  }
}
