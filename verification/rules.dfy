/** Which Rule a Signal takes, and what it maps (src/cord_runtime/router.py, _lookup, _matches, _apply). */
module Rules {
  import opened Basics

  datatype Json = Object(fields: map<string, Json>) | Text(s: string) | Other(rendering: string)

  /** A dot-path, split at its dots. */
  type Path = seq<string>

  datatype Rule = Rule(name: string, signalType: string, condition: map<Path, Json>, input: map<string, Path>, subject: Path)

  datatype Signal = Signal(kind: string, payload: Json)

  function Lookup(node: Json, path: Path): Option<Json> {
    if |path| == 0 then Some(node)
    else if node.Object? && path[0] in node.fields then Lookup(node.fields[path[0]], path[1..])
    else None
  }

  /** A path that is missing matches nothing. */
  predicate Matches(rule: Rule, signal: Signal) {
    rule.signalType == signal.kind && forall p | p in rule.condition :: Lookup(signal.payload, p) == Some(rule.condition[p])
  }

  datatype Mapped = MappingError | Mapped(input: map<string, Json>, subject: string)

  /** Every mapped path must resolve, and the Subject to text that is not blank. */
  function Apply(rule: Rule, signal: Signal): Mapped {
    if exists k :: k in rule.input && Lookup(signal.payload, rule.input[k]).None? then MappingError
    else
      var subject := Lookup(signal.payload, rule.subject);
      if subject.None? || !subject.value.Text? || Blank(subject.value.s) then MappingError
      else Mapped(map k | k in rule.input :: Lookup(signal.payload, rule.input[k]).value, subject.value.s)
  }

  datatype Decision = Unmatched | InvalidMapping(name: string) | Target(name: string, input: map<string, Json>, subject: string)

  method LookupPath(payload: Json, path: Path) returns (r: Option<Json>)
    ensures r == Lookup(payload, path)
  {
    var node := payload;
    for i := 0 to |path|
      invariant Lookup(payload, path) == Lookup(node, path[i..])
    {
      if !(node.Object? && path[i] in node.fields) { return None; }
      node := node.fields[path[i]];
      assert path[i..][1..] == path[i + 1..];
    }
    r := Some(node);
  }

  /** The first Rule that matches decides, even when its mapping fails. */
  method Decide(rules: seq<Rule>, signal: Signal) returns (d: Decision)
    ensures d == FirstDecision(rules, signal)
  {
    assert rules[0..] == rules;
    for i := 0 to |rules|
      invariant FirstDecision(rules, signal) == FirstDecision(rules[i..], signal)
    {
      var matched := MatchesRule(rules[i], signal);
      if matched { return Decided(rules[i], signal); }
      assert rules[i..][1..] == rules[i + 1..];
    }
    d := Unmatched;
  }

  function Decided(rule: Rule, signal: Signal): Decision {
    match Apply(rule, signal)
    case MappingError => InvalidMapping(rule.name)
    case Mapped(input, subject) => Target(rule.name, input, subject)
  }

  method MatchesRule(rule: Rule, signal: Signal) returns (b: bool)
    ensures b == Matches(rule, signal)
  {
    if rule.signalType != signal.kind { return false; }
    var left := rule.condition.Keys;
    while left != {}
      invariant left <= rule.condition.Keys
      invariant forall p | p in rule.condition && p !in left :: Lookup(signal.payload, p) == Some(rule.condition[p])
      decreases left
    {
      var p :| p in left;
      left := left - {p};
      var found := LookupPath(signal.payload, p);
      if found != Some(rule.condition[p]) { return false; }
    }
    b := true;
  }

  /** A target is mapped exactly when every declared path resolves to what it holds, and the Subject to text that is not blank. */
  lemma MappedWhen(rule: Rule, signal: Signal, d: Decision)
    requires d.Target?
    ensures Decided(rule, signal) == d <==>
              && d.name == rule.name && d.input.Keys == rule.input.Keys
              && (forall k | k in rule.input :: Lookup(signal.payload, rule.input[k]) == Some(d.input[k]))
              && Lookup(signal.payload, rule.subject) == Some(Text(d.subject)) && !Blank(d.subject)
  {
    if d.input.Keys == rule.input.Keys && (forall k | k in rule.input :: Lookup(signal.payload, rule.input[k]) == Some(d.input[k])) && Decided(rule, signal).Target? {
      assert Decided(rule, signal).input == d.input;
    }
  }

  /** Two payloads no declared expression of a Rule can tell apart. */
  predicate AgreeFor(rule: Rule, a: Signal, b: Signal) {
    && a.kind == b.kind
    && (forall p | p in rule.condition :: Lookup(a.payload, p) == Lookup(b.payload, p))
    && (forall k | k in rule.input :: Lookup(a.payload, rule.input[k]) == Lookup(b.payload, rule.input[k]))
    && Lookup(a.payload, rule.subject) == Lookup(b.payload, rule.subject)
  }

  lemma SameForRule(rule: Rule, a: Signal, b: Signal)
    requires AgreeFor(rule, a, b)
    ensures Matches(rule, a) <==> Matches(rule, b)
    ensures Decided(rule, a) == Decided(rule, b)
  {
    if Apply(rule, a).Mapped? {
      assert Apply(rule, a).input == Apply(rule, b).input;
    }
  }

  function FirstDecision(rules: seq<Rule>, signal: Signal): Decision {
    if |rules| == 0 then Unmatched
    else if Matches(rules[0], signal) then Decided(rules[0], signal)
    else FirstDecision(rules[1..], signal)
  }

  /** Nothing but the declared expressions decides where a Signal goes and what it carries there. */
  lemma {:induction false} OnlyDeclaredPathsMatter(rules: seq<Rule>, a: Signal, b: Signal)
    requires forall i | 0 <= i < |rules| :: AgreeFor(rules[i], a, b)
    ensures FirstDecision(rules, a) == FirstDecision(rules, b)
  {
    if |rules| > 0 {
      assert AgreeFor(rules[0], a, b);
      SameForRule(rules[0], a, b);
      assert forall i | 0 <= i < |rules[1..]| :: rules[1..][i] == rules[i + 1];
      OnlyDeclaredPathsMatter(rules[1..], a, b);
    }
  }

  /** The decision is the first matching Rule's, and there is none only when no Rule matches. */
  lemma {:induction false} FirstDecides(rules: seq<Rule>, signal: Signal)
    ensures FirstDecision(rules, signal).Unmatched? <==> forall i | 0 <= i < |rules| :: !Matches(rules[i], signal)
    ensures forall i | 0 <= i < |rules| && Matches(rules[i], signal) && (forall j | 0 <= j < i :: !Matches(rules[j], signal)) ::
              FirstDecision(rules, signal) == Decided(rules[i], signal)
  {
    if |rules| > 0 {
      FirstDecides(rules[1..], signal);
      assert forall i | 0 < i < |rules| :: rules[i] == rules[1..][i - 1];
      forall i | 0 < i < |rules| && Matches(rules[i], signal) && forall j | 0 <= j < i :: !Matches(rules[j], signal)
        ensures FirstDecision(rules, signal) == Decided(rules[i], signal)
      {
        assert forall j | 0 <= j < i - 1 :: rules[1..][j] == rules[j + 1];
      }
    }
  }
}
