/**
 * The deep matcher (`deep_search`): decides whether a criterion occurs
 * anywhere inside a nested value, by exact or fuzzy comparison.
 */
module DeepSearch {
  import opened Values

  /**
   * `_criteria_in_value`: exact mode compares by equality; fuzzy mode
   * lowercases both sides and asks for equality or a substring, and gives
   * "no match" as soon as either side is not a string.
   */
  predicate CriteriaInValue(c: Value, v: Value, fuzzy: bool) {
    if fuzzy then
      c.Str? && v.Str? && (Lower(c.s) == Lower(v.s) || Contains(Lower(v.s), Lower(c.s)))
    else
      c == v
  }

  /**
   * `deep_search(v, c, fuzzy)`: a list matches through any element, a dict
   * through any of its values (never its keys), and anything else is a leaf
   * compared with `CriteriaInValue`.
   */
  predicate Matches(v: Value, c: Value, fuzzy: bool)
    decreases v, 0
  {
    match v
    case List(items) => exists i | 0 <= i < |items| :: Matches(items[i], c, fuzzy)
    case Dict(entries) => exists i | 0 <= i < |entries| :: ValueMatches(entries[i].1, c, fuzzy)
    case _ => CriteriaInValue(c, v, fuzzy)
  }

  /**
   * How one value of a dict is matched: containers are searched, a string
   * holding a comma or newline is split into lowercased tokens that are
   * compared one by one, an int matches only by equality (in both modes),
   * and any other string is a leaf.
   */
  predicate ValueMatches(x: Value, c: Value, fuzzy: bool)
    decreases x, 1
  {
    match x
    case List(_) => Matches(x, c, fuzzy)
    case Dict(_) => Matches(x, c, fuzzy)
    case Str(s) =>
      if HasSep(s) then exists t | t in Tokens(s) :: CriteriaInValue(c, Str(Lower(t)), fuzzy)
      else CriteriaInValue(c, x, fuzzy)
    case Int(_) => c == x
  }

  /** No int sits directly in a list or at the top: ints occur only as dict values. */
  predicate NoBareInt(v: Value)
    decreases v, 0
  {
    match v
    case Str(_) => true
    case Int(_) => false
    case List(items) => forall i | 0 <= i < |items| :: NoBareInt(items[i])
    case Dict(entries) => forall i | 0 <= i < |entries| :: ValueNoBareInt(entries[i].1)
  }

  predicate ValueNoBareInt(x: Value)
    decreases x, 1
  {
    match x
    case List(_) => NoBareInt(x)
    case Dict(_) => NoBareInt(x)
    case _ => true
  }

  // ---------------------------------------------------------------------
  // Properties

  /** Empty containers never match. */
  lemma EmptyContainersNeverMatch(c: Value, fuzzy: bool)
    ensures !Matches(List([]), c, fuzzy)
    ensures !Matches(Dict([]), c, fuzzy)
  {
  }

  /** Keys are never compared: two dicts with the same values in the same order match alike. */
  lemma KeysNeverCompared(e1: seq<(string, Value)>, e2: seq<(string, Value)>, c: Value, fuzzy: bool)
    requires |e1| == |e2|
    requires forall i :: 0 <= i < |e1| ==> e1[i].1 == e2[i].1
    ensures Matches(Dict(e1), c, fuzzy) <==> Matches(Dict(e2), c, fuzzy)
  {
    if Matches(Dict(e1), c, fuzzy) {
      var i :| 0 <= i < |e1| && ValueMatches(e1[i].1, c, fuzzy);
      assert ValueMatches(e2[i].1, c, fuzzy);
    }
    if Matches(Dict(e2), c, fuzzy) {
      var i :| 0 <= i < |e2| && ValueMatches(e2[i].1, c, fuzzy);
      assert ValueMatches(e1[i].1, c, fuzzy);
    }
  }

  /**
   * Exact mode against a split dict value needs a lowercase criterion:
   * the tokens are lowercased before the comparison, so a criterion with an
   * upper-case letter never equals one of them.
   */
  lemma ExactSplitNeedsLowercase(k: string, s: string, c: string)
    requires HasSep(s)
    requires Lower(c) != c
    ensures !Matches(Dict([(k, Str(s))]), Str(c), false)
  {
    var d := Dict([(k, Str(s))]);
    assert d.entries[0].1 == Str(s);
    forall t | t in Tokens(s) ensures Str(c) != Str(Lower(t)) {
      LowerIdempotent(t);
    }
  }

  /** A container used as a criterion never matches, in either mode. */
  lemma {:induction false} ContainerCriterionNeverMatches(v: Value, c: Value, fuzzy: bool)
    requires c.List? || c.Dict?
    ensures !Matches(v, c, fuzzy)
    decreases v, 0
  {
    match v
    case List(items) =>
      forall i | 0 <= i < |items| ensures !Matches(items[i], c, fuzzy) {
        ContainerCriterionNeverMatches(items[i], c, fuzzy);
      }
    case Dict(entries) =>
      forall i | 0 <= i < |entries| ensures !ValueMatches(entries[i].1, c, fuzzy) {
        ContainerCriterionNeverValueMatches(entries[i].1, c, fuzzy);
      }
    case _ =>
  }

  lemma {:induction false} ContainerCriterionNeverValueMatches(x: Value, c: Value, fuzzy: bool)
    requires c.List? || c.Dict?
    ensures !ValueMatches(x, c, fuzzy)
    decreases x, 1
  {
    match x
    case List(_) => ContainerCriterionNeverMatches(x, c, fuzzy);
    case Dict(_) => ContainerCriterionNeverMatches(x, c, fuzzy);
    case _ =>
  }

  /**
   * Exact implies fuzzy as long as no int sits outside a dict: string
   * leaves that are equal are also equal after lowercasing, and dict ints
   * compare by equality in both modes.
   */
  lemma {:induction false} ExactImpliesFuzzy(v: Value, c: Value)
    requires NoBareInt(v)
    ensures Matches(v, c, false) ==> Matches(v, c, true)
    decreases v, 0
  {
    match v
    case List(items) =>
      if Matches(v, c, false) {
        var i :| 0 <= i < |items| && Matches(items[i], c, false);
        ExactImpliesFuzzy(items[i], c);
      }
    case Dict(entries) =>
      if Matches(v, c, false) {
        var i :| 0 <= i < |entries| && ValueMatches(entries[i].1, c, false);
        ExactImpliesFuzzyValue(entries[i].1, c);
      }
    case _ =>
  }

  lemma {:induction false} ExactImpliesFuzzyValue(x: Value, c: Value)
    requires ValueNoBareInt(x)
    ensures ValueMatches(x, c, false) ==> ValueMatches(x, c, true)
    decreases x, 1
  {
    match x
    case List(_) => ExactImpliesFuzzy(x, c);
    case Dict(_) => ExactImpliesFuzzy(x, c);
    case Str(s) =>
      if HasSep(s) && ValueMatches(x, c, false) {
        var t :| t in Tokens(s) && CriteriaInValue(c, Str(Lower(t)), false);
        assert CriteriaInValue(c, Str(Lower(t)), true);
      }
    case Int(_) =>
  }

  /** Monotonicity fails on a bare int: `[1]` matches `1` exactly but not fuzzily. */
  lemma BareIntBreaksMonotonicity()
    ensures Matches(List([Int(1)]), Int(1), false)
    ensures !Matches(List([Int(1)]), Int(1), true)
  {
    assert List([Int(1)]).items[0] == Int(1);
  }

  /**
   * With an int criterion the two modes agree wherever ints only occur as
   * dict values: both then compare those values by equality and nothing else.
   */
  lemma {:induction false} IntCriterionModesAgree(v: Value, n: int)
    requires NoBareInt(v)
    ensures Matches(v, Int(n), true) <==> Matches(v, Int(n), false)
    decreases v, 0
  {
    match v
    case List(items) =>
      forall i | 0 <= i < |items|
        ensures Matches(items[i], Int(n), true) <==> Matches(items[i], Int(n), false)
      {
        IntCriterionModesAgree(items[i], n);
      }
    case Dict(entries) =>
      forall i | 0 <= i < |entries|
        ensures ValueMatches(entries[i].1, Int(n), true) <==> ValueMatches(entries[i].1, Int(n), false)
      {
        IntCriterionValueModesAgree(entries[i].1, n);
      }
    case _ =>
  }

  lemma {:induction false} IntCriterionValueModesAgree(x: Value, n: int)
    requires ValueNoBareInt(x)
    ensures ValueMatches(x, Int(n), true) <==> ValueMatches(x, Int(n), false)
    decreases x, 1
  {
    match x
    case List(_) => IntCriterionModesAgree(x, n);
    case Dict(_) => IntCriterionModesAgree(x, n);
    case _ =>
  }

  /** Fuzzy mode ignores the case of the criterion. */
  lemma {:induction false} FuzzyIgnoresCriterionCase(v: Value, c: string)
    ensures Matches(v, Str(c), true) <==> Matches(v, Str(Lower(c)), true)
    decreases v, 0
  {
    LowerIdempotent(c);
    match v
    case List(items) =>
      forall i | 0 <= i < |items|
        ensures Matches(items[i], Str(c), true) <==> Matches(items[i], Str(Lower(c)), true)
      {
        FuzzyIgnoresCriterionCase(items[i], c);
      }
    case Dict(entries) =>
      forall i | 0 <= i < |entries|
        ensures ValueMatches(entries[i].1, Str(c), true) <==> ValueMatches(entries[i].1, Str(Lower(c)), true)
      {
        FuzzyValueIgnoresCriterionCase(entries[i].1, c);
      }
    case _ =>
  }

  lemma {:induction false} FuzzyValueIgnoresCriterionCase(x: Value, c: string)
    ensures ValueMatches(x, Str(c), true) <==> ValueMatches(x, Str(Lower(c)), true)
    decreases x, 1
  {
    LowerIdempotent(c);
    match x
    case List(_) => FuzzyIgnoresCriterionCase(x, c);
    case Dict(_) => FuzzyIgnoresCriterionCase(x, c);
    case _ =>
  }

  /** A split dict value matches through any one of its lowercased tokens. */
  lemma TokenMakesDictMatch(k: string, s: string, t: string, c: Value, fuzzy: bool)
    requires HasSep(s) && t in Tokens(s)
    requires CriteriaInValue(c, Str(Lower(t)), fuzzy)
    ensures Matches(Dict([(k, Str(s))]), c, fuzzy)
  {
    assert Dict([(k, Str(s))]).entries[0].1 == Str(s);
  }

  lemma BetaIsAToken()
    ensures HasSep("alpha,beta,gamma") && "beta" in Tokens("alpha,beta,gamma")
  {
    var s := "alpha,beta,gamma";
    assert s[5] == ',';
    assert s == "alpha" + [','] + ("beta" + [','] + "gamma");
    TokensAtSep("alpha", ',', "beta" + [','] + "gamma");
    TokensAtSep("beta", ',', "gamma");
  }

  lemma BetFuzzilyInBeta()
    ensures CriteriaInValue(Str("BET"), Str(Lower("beta")), true)
  {
    assert Lower("BET") == "bet";
    assert Lower(Lower("beta")) == "beta";
    assert "bet" <= "beta";
  }

  /**
   * A fuzzy search for "BET" finds a dict whose value is the comma list
   * "alpha,beta,gamma": the value is split, and "beta" contains "bet".
   */
  lemma FuzzyFindsTokenInCommaList()
    ensures Matches(Dict([("note", Str("alpha,beta,gamma"))]), Str("BET"), true)
  {
    BetaIsAToken();
    BetFuzzilyInBeta();
    TokenMakesDictMatch("note", "alpha,beta,gamma", "beta", Str("BET"), true);
  }
}
