/** Label selectors, and the conservative question whether a selector could match a
    Pod that carries a known set of labels and possibly more. */
module Selectors {
  type Labels = map<string, string>

  /** `Unknown` stands for any operator or value list the code does not recognize. */
  datatype Operator = In | NotIn | Exists | DoesNotExist | Unknown

  datatype Expression = Expression(key: string, operator: Operator, values: seq<string>)

  datatype Selector = Selector(matchLabels: Labels, expressions: seq<Expression>)

  /** `Invalid` is an exception; an earlier definite no is returned before it. */
  datatype Verdict = Yes | No | Invalid

  /** Cilium spells label sources into the key; one known prefix is dropped. */
  function Stripped(key: string): string {
    if "k8s:" <= key || "any:" <= key then key[4..] else key
  }

  predicate Extends(labels: Labels, more: Labels) {
    forall k <- labels :: k in more && more[k] == labels[k]
  }

  // ---------------------------------------------------------- exact matching

  predicate Satisfies(e: Expression, labels: Labels) {
    var k := Stripped(e.key);
    match e.operator
    case In => k in labels && labels[k] in e.values
    case NotIn => k !in labels || labels[k] !in e.values
    case Exists => k in labels
    case DoesNotExist => k !in labels
    case Unknown => false
  }

  function MatchExpressions(es: seq<Expression>, labels: Labels): Verdict {
    if es == [] then Yes
    else if es[0].operator.Unknown? then Invalid
    else if !Satisfies(es[0], labels) then No
    else MatchExpressions(es[1..], labels)
  }

  predicate LabelsMatch(wanted: Labels, labels: Labels) {
    forall k <- wanted :: Stripped(k) in labels && labels[Stripped(k)] == wanted[k]
  }

  /** `_selector_matches_v4` */
  function Matches(s: Selector, labels: Labels): Verdict {
    if !LabelsMatch(s.matchLabels, labels) then No else MatchExpressions(s.expressions, labels)
  }

  // --------------------------------------------------- conservative matching

  /** Nothing that is already known contradicts the expression. */
  predicate Possible(e: Expression, labels: Labels) {
    var k := Stripped(e.key);
    match e.operator
    case In => k in labels ==> labels[k] in e.values
    case NotIn => k in labels ==> labels[k] !in e.values
    case Exists => true
    case DoesNotExist => k !in labels
    case Unknown => false
  }

  function PossibleExpressions(es: seq<Expression>, labels: Labels): Verdict {
    if es == [] then Yes
    else if es[0].operator.Unknown? then Invalid
    else if !Possible(es[0], labels) then No
    else PossibleExpressions(es[1..], labels)
  }

  predicate LabelsPossible(wanted: Labels, labels: Labels) {
    forall k <- wanted :: Stripped(k) in labels ==> labels[Stripped(k)] == wanted[k]
  }

  /** `_selector_could_match_with_additional_labels_v4` */
  function CouldMatch(s: Selector, labels: Labels): Verdict {
    if !LabelsPossible(s.matchLabels, labels) then No else PossibleExpressions(s.expressions, labels)
  }

  // --------------------------------------------------------------- soundness

  lemma PossibleIfSatisfied(es: seq<Expression>, labels: Labels, more: Labels)
    requires Extends(labels, more) && MatchExpressions(es, more).Yes?
    ensures PossibleExpressions(es, labels).Yes?
  {
    if es != [] {
      assert Possible(es[0], labels);
      PossibleIfSatisfied(es[1..], labels, more);
    }
  }

  /** The conservative question never misses a match: whatever labels a Pod gains,
      if the selector then matches, the question was answered with yes before. */
  lemma ConservativeIsSound(s: Selector, labels: Labels, more: Labels)
    requires Extends(labels, more) && Matches(s, more).Yes?
    ensures CouldMatch(s, labels).Yes?
  {
    PossibleIfSatisfied(s.expressions, labels, more);
  }

  // ------------------------------------------------------------ completeness

  /** Some condition wants the label to be there. */
  predicate Demanded(s: Selector, k: string) {
    || (exists j <- s.matchLabels :: Stripped(j) == k)
    || (exists e <- s.expressions :: Stripped(e.key) == k && (e.operator.In? || e.operator.Exists?))
  }

  /** Some condition wants it not to be there. */
  predicate Forbidden(s: Selector, k: string) {
    exists e <- s.expressions :: Stripped(e.key) == k && e.operator.DoesNotExist?
  }

  /** The values that some condition names for the label. */
  function Offered(s: Selector, k: string): set<string> {
    (set j | j in s.matchLabels && Stripped(j) == k :: s.matchLabels[j])
    + (set e, v | e in s.expressions && e.operator.In? && Stripped(e.key) == k && v in e.values :: v)
  }

  /** Some condition allows only the values it names. */
  predicate Restricted(s: Selector, k: string) {
    || (exists j <- s.matchLabels :: Stripped(j) == k)
    || (exists e <- s.expressions :: Stripped(e.key) == k && e.operator.In?)
  }

  /** The value suits every condition on the label at once. */
  predicate Suits(s: Selector, k: string, v: string) {
    && (forall j <- s.matchLabels :: Stripped(j) == k ==> s.matchLabels[j] == v)
    && (forall e <- s.expressions :: Stripped(e.key) == k && e.operator.In? ==> v in e.values)
    && (forall e <- s.expressions :: Stripped(e.key) == k && e.operator.NotIn? ==> v !in e.values)
  }

  /** The conditions on one label can be met together: not wanted and unwanted at once,
      and one of the values they name suits them all. */
  predicate Settleable(s: Selector, k: string) {
    Demanded(s, k) ==> !Forbidden(s, k) && (Restricted(s, k) ==> exists v <- Offered(s, k) :: Suits(s, k, v))
  }

  /** The labels that the selector speaks about. */
  function Mentioned(s: Selector): set<string> {
    (set j | j in s.matchLabels :: Stripped(j)) + (set e | e in s.expressions :: Stripped(e.key))
  }

  /** Label by label, what is not yet known can still be settled. */
  predicate Satisfiable(s: Selector, labels: Labels) {
    forall k <- Mentioned(s) :: k !in labels ==> Settleable(s, k)
  }

  function MaxLength(values: seq<string>): (n: nat)
    ensures forall v <- values :: |v| <= n
  {
    if values == [] then 0
    else
      var n := MaxLength(values[1..]);
      if |values[0]| > n then |values[0]| else n
  }

  function MaxNamed(es: seq<Expression>): (n: nat)
    ensures forall e <- es :: forall v <- e.values :: |v| <= n
  {
    if es == [] then 0
    else
      var first, n := MaxLength(es[0].values), MaxNamed(es[1..]);
      if first > n then first else n
  }

  /** A value that no condition names: longer than all of them. */
  function Unnamed(s: Selector): (v: string)
    ensures forall e <- s.expressions :: v !in e.values
  {
    seq(MaxNamed(s.expressions) + 1, i => 'x')
  }

  /** A value for a label that has to be there. */
  ghost function Chosen(s: Selector, k: string): (v: string)
    requires Settleable(s, k) && Demanded(s, k)
    ensures Suits(s, k, v)
  {
    if Restricted(s, k) then
      var v :| v in Offered(s, k) && Suits(s, k, v);
      v
    else Unnamed(s)
  }

  /** A Pod that the selector matches: the known labels, and what is still demanded. */
  ghost function Witness(s: Selector, labels: Labels): Labels
    requires Satisfiable(s, labels)
  {
    labels + map k | k in Mentioned(s) && k !in labels && Demanded(s, k) :: Chosen(s, k)
  }

  lemma {:induction false} AllSatisfied(es: seq<Expression>, labels: Labels)
    ensures MatchExpressions(es, labels).Yes? <==> forall i :: 0 <= i < |es| ==> Satisfies(es[i], labels)
  {
    hide Satisfies;
    if es != [] {
      var rest := es[1..];
      AllSatisfied(rest, labels);
      assert forall i :: 0 <= i < |rest| ==> rest[i] == es[i + 1];
      assert forall i :: 0 < i < |es| ==> es[i] == rest[i - 1];
      assert es[0].operator.Unknown? ==> !Satisfies(es[0], labels) by {
        UnknownNeverSatisfied(es[0], labels);
      }
    }
  }

  lemma UnknownNeverSatisfied(e: Expression, labels: Labels)
    ensures e.operator.Unknown? ==> !Satisfies(e, labels)
  {
  }

  lemma AllPossible(es: seq<Expression>, labels: Labels, e: Expression)
    requires PossibleExpressions(es, labels).Yes? && e in es
    ensures Possible(e, labels)
  {
  }

  /** A Pod that is matched settles every label. */
  lemma MatchedIsSatisfiable(s: Selector, labels: Labels, more: Labels)
    requires Extends(labels, more) && Matches(s, more).Yes?
    ensures Satisfiable(s, labels)
  {
    AllSatisfied(s.expressions, more);
    hide Stripped;
    forall k | k in Mentioned(s) && k !in labels && Demanded(s, k)
      ensures Settleable(s, k)
    {
      assert k in more;
      assert Suits(s, k, more[k]);
      assert Restricted(s, k) ==> more[k] in Offered(s, k);
    }
  }

  lemma WitnessAt(s: Selector, labels: Labels, e: Expression)
    requires Satisfiable(s, labels) && e in s.expressions && Possible(e, labels)
    ensures Satisfies(e, Witness(s, labels))
  {
    hide Stripped;
    var k := Stripped(e.key);
    assert k in Mentioned(s);
    if k !in labels && Demanded(s, k) {
      assert Suits(s, k, Chosen(s, k));
    }
  }

  lemma WitnessMatches(s: Selector, labels: Labels)
    requires CouldMatch(s, labels).Yes? && Satisfiable(s, labels)
    ensures Extends(labels, Witness(s, labels)) && Matches(s, Witness(s, labels)).Yes?
  {
    var pod := Witness(s, labels);
    forall j | j in s.matchLabels
      ensures Stripped(j) in pod && pod[Stripped(j)] == s.matchLabels[j]
    {
      hide Stripped;
      if Stripped(j) !in labels {
        assert Demanded(s, Stripped(j)) && Stripped(j) in Mentioned(s);
        assert Suits(s, Stripped(j), Chosen(s, Stripped(j)));
      }
    }
    forall e | e in s.expressions
      ensures Satisfies(e, pod)
    {
      AllPossible(s.expressions, labels, e);
      WitnessAt(s, labels, e);
    }
    AllSatisfied(s.expressions, pod);
  }

  /** The exact worth of a yes: some Pod with the known labels, and whatever others, is
      matched if and only if the question was answered with yes and, label by label, the
      conditions on what is not yet known can be met together. */
  lemma SomePodMatches(s: Selector, labels: Labels)
    ensures (exists more :: Extends(labels, more) && Matches(s, more).Yes?) <==>
            CouldMatch(s, labels).Yes? && Satisfiable(s, labels)
  {
    forall more | Extends(labels, more) && Matches(s, more).Yes?
      ensures CouldMatch(s, labels).Yes? && Satisfiable(s, labels)
    {
      ConservativeIsSound(s, labels, more);
      MatchedIsSatisfiable(s, labels, more);
    }
    if CouldMatch(s, labels).Yes? && Satisfiable(s, labels) {
      WitnessMatches(s, labels);
    }
  }

  /** No two conditions of the selector speak about the same label, and every `In`
      offers a choice. */
  predicate Independent(s: Selector) {
    && (forall j, k :: j in s.matchLabels && k in s.matchLabels && j != k ==> Stripped(j) != Stripped(k))
    && (forall i :: 0 <= i < |s.expressions| ==> forall k <- s.matchLabels :: Stripped(k) != Stripped(s.expressions[i].key))
    && (forall i, j :: 0 <= i < j < |s.expressions| ==> Stripped(s.expressions[i].key) != Stripped(s.expressions[j].key))
    && (forall e <- s.expressions :: e.operator.In? ==> e.values != [])
  }

  /** An expression that stands alone has a value that suits it. */
  lemma AloneIsSettleable(s: Selector, e: Expression)
    requires Independent(s) && e in s.expressions
    ensures Settleable(s, Stripped(e.key))
  {
    hide Stripped;
    var k := Stripped(e.key);
    var i :| 0 <= i < |s.expressions| && s.expressions[i] == e;
    assert forall f <- s.expressions :: Stripped(f.key) == k ==> f == e;
    assert forall j <- s.matchLabels :: Stripped(j) != Stripped(s.expressions[i].key);
    if e.operator.In? {
      var v := e.values[0];
      assert v in e.values && v in Offered(s, k);
      assert Suits(s, k, v);
    }
  }

  lemma WantedIsSettleable(s: Selector, j: string)
    requires Independent(s) && j in s.matchLabels
    ensures Settleable(s, Stripped(j))
  {
    hide Stripped;
    assert s.matchLabels[j] in Offered(s, Stripped(j)) && Suits(s, Stripped(j), s.matchLabels[j]);
  }

  /** So it does not cry wolf when the conditions are independent: a yes comes with a Pod
      that carries the known labels and is matched. */
  lemma ConservativeIsTight(s: Selector, labels: Labels)
    requires Independent(s) && CouldMatch(s, labels).Yes?
    ensures Satisfiable(s, labels)
    ensures Extends(labels, Witness(s, labels))
    ensures Matches(s, Witness(s, labels)).Yes?
  {
    forall k | k in Mentioned(s)
      ensures Settleable(s, k)
    {
      if j :| j in s.matchLabels && Stripped(j) == k {
        WantedIsSettleable(s, j);
      } else {
        var e :| e in s.expressions && Stripped(e.key) == k;
        AloneIsSettleable(s, e);
      }
    }
    WitnessMatches(s, labels);
  }

  /** A yes may be a false alarm: two conditions that name one label, or a single one
      that offers no value at all. */
  lemma FalseAlarm(more: Labels)
    ensures CouldMatch(Selector(map["app" := "a", "k8s:app" := "b"], []), map[]).Yes?
    ensures !Matches(Selector(map["app" := "a", "k8s:app" := "b"], []), more).Yes?
    ensures CouldMatch(Selector(map[], [Expression("app", In, [])]), map[]).Yes?
    ensures !Matches(Selector(map[], [Expression("app", In, [])]), more).Yes?
  {
    assert Stripped("k8s:app") == "app";
    assert Stripped("app") == "app";
    assert "app" in map["app" := "a", "k8s:app" := "b"] && "k8s:app" in map["app" := "a", "k8s:app" := "b"];
  }
}
