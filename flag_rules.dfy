/**
 * The shape of the attachment policy: two permission flags, seeded true, run
 * through a chain of rules, each of which may only clear a flag (assign
 * `false`, or AND it with a condition) and never set one.
 */
module FlagRules {

  /** The two permissions a policy evaluation produces. */
  datatype Flags = Flags(view: bool, save: bool)

  /** `a` grants nothing that `b` does not grant. */
  predicate AtMost(a: Flags, b: Flags)
  {
    (a.view ==> b.view) && (a.save ==> b.save)
  }

  /**
   * One rule of the chain. When `fires` holds, the view flag is ANDed with
   * `keepView` and the save flag with `keepSave`; otherwise nothing changes.
   */
  datatype Rule = Rule(fires: bool, keepView: bool, keepSave: bool)

  /** The rule fires and takes the view permission away. */
  predicate ClearsView(r: Rule)
  {
    r.fires && !r.keepView
  }

  /** The rule fires and takes the save permission away. */
  predicate ClearsSave(r: Rule)
  {
    r.fires && !r.keepSave
  }

  /** One `if (condition) { ... }` block of the chain. */
  function ApplyRule(r: Rule, f: Flags): (g: Flags)
    ensures AtMost(g, f)
    ensures g.view <==> f.view && !ClearsView(r)
    ensures g.save <==> f.save && !ClearsSave(r)
  {
    if r.fires then Flags(f.view && r.keepView, f.save && r.keepSave) else f
  }

  /** The rules run one after another, first element first, starting from `f`. */
  function ApplyRules(rs: seq<Rule>, f: Flags): Flags
    decreases |rs|
  {
    if rs == [] then f else ApplyRules(rs[1..], ApplyRule(rs[0], f))
  }

  /** No rule of `rs` takes the view permission away. */
  predicate NoneClearsView(rs: seq<Rule>)
  {
    forall r :: r in rs ==> !ClearsView(r)
  }

  /** No rule of `rs` takes the save permission away. */
  predicate NoneClearsSave(rs: seq<Rule>)
  {
    forall r :: r in rs ==> !ClearsSave(r)
  }

  /**
   * Running the chain is the same as ANDing each starting flag with
   * "no rule cleared it": a flag survives exactly when it started true and
   * no rule of the chain cleared it.
   */
  lemma {:induction false} ApplyRulesIsConjunction(rs: seq<Rule>, f: Flags)
    ensures ApplyRules(rs, f) == Flags(f.view && NoneClearsView(rs), f.save && NoneClearsSave(rs))
    decreases |rs|
  {
    if rs != [] {
      ApplyRulesIsConjunction(rs[1..], ApplyRule(rs[0], f));
      assert forall r :: r in rs <==> r == rs[0] || r in rs[1..];
    }
  }

  /** The chain never grants a permission it was not given. */
  lemma ApplyRulesNeverGrants(rs: seq<Rule>, f: Flags)
    ensures AtMost(ApplyRules(rs, f), f)
  {
    ApplyRulesIsConjunction(rs, f);
  }

  /** Once any rule of the chain clears a flag, no other rule, earlier or later, can bring it back. */
  lemma ClearedFlagStaysCleared(rs: seq<Rule>, f: Flags, i: int)
    requires 0 <= i < |rs|
    ensures ClearsView(rs[i]) ==> !ApplyRules(rs, f).view
    ensures ClearsSave(rs[i]) ==> !ApplyRules(rs, f).save
  {
    ApplyRulesIsConjunction(rs, f);
    assert rs[i] in rs;
  }

  /** Each further rule of the chain leaves the flags unchanged or lower: the chain is non-increasing step by step. */
  lemma StepNonIncreasing(rs: seq<Rule>, f: Flags, k: int)
    requires 0 <= k < |rs|
    ensures AtMost(ApplyRules(rs[..k + 1], f), ApplyRules(rs[..k], f))
  {
    ApplyRulesIsConjunction(rs[..k + 1], f);
    ApplyRulesIsConjunction(rs[..k], f);
    assert forall r :: r in rs[..k] ==> r in rs[..k + 1] by {
      forall r | r in rs[..k] ensures r in rs[..k + 1] {
        var j :| 0 <= j < k && rs[..k][j] == r;
        assert rs[..k + 1][j] == r;
      }
    }
  }

  /** The order of the rules does not affect the outcome: any rearrangement gives the same flags. */
  lemma OrderIrrelevant(rs: seq<Rule>, qs: seq<Rule>, f: Flags)
    requires multiset(rs) == multiset(qs)
    ensures ApplyRules(rs, f) == ApplyRules(qs, f)
  {
    ApplyRulesIsConjunction(rs, f);
    ApplyRulesIsConjunction(qs, f);
    assert forall r :: r in rs <==> r in qs by {
      forall r ensures r in rs <==> r in qs {
        assert r in rs <==> r in multiset(rs);
        assert r in qs <==> r in multiset(qs);
      }
    }
  }

  /** Rule `q` clears every flag that rule `r` clears (and possibly more). */
  predicate Stricter(q: Rule, r: Rule)
  {
    (ClearsView(r) ==> ClearsView(q)) && (ClearsSave(r) ==> ClearsSave(q))
  }

  /**
   * Monotonicity: a chain whose every rule is at least as strict, started
   * from flags that grant no more, ends with flags that grant no more.
   */
  lemma {:induction false} StricterRulesGrantLess(rs: seq<Rule>, qs: seq<Rule>, f: Flags, g: Flags)
    requires |rs| == |qs|
    requires forall i :: 0 <= i < |rs| ==> Stricter(qs[i], rs[i])
    requires AtMost(g, f)
    ensures AtMost(ApplyRules(qs, g), ApplyRules(rs, f))
    decreases |rs|
  {
    if rs != [] {
      assert Stricter(qs[0], rs[0]);
      StricterRulesGrantLess(rs[1..], qs[1..], ApplyRule(rs[0], f), ApplyRule(qs[0], g));
    }
  }
}
