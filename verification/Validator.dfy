/** The validator as it runs: one shared error list, a stop flag and a node counter, all updated in
    place, with a fresh context for every quiet sub-run. */
module Validator {
  import opened Json
  import opened Schema
  import opened Validation
  import opened Visits

  /** What a context has accumulated; the counter no longer matters once stopped. */
  datatype Snapshot = Snapshot(errors: seq<Error>, stopped: bool, nodes: nat)

  function Take(es: seq<Error>, max: nat): seq<Error> {
    if |es| <= max then es else es[..max]
  }

  /** `pre` after an outcome of which only the first `max` errors in total are kept; a stopped
      context ignores everything. */
  ghost function Absorb(max: nat, pre: Snapshot, out: Outcome): Snapshot {
    if pre.stopped then pre
    else
      var all := pre.errors + out.errors;
      var stopped := out.errors != [] && |all| >= max;
      Snapshot(Take(all, max), stopped, if stopped then 0 else out.nodes)
  }

  /** Two outcomes one after the other are absorbed like one; what the second would have been does
      not matter once stopped. */
  lemma {:induction false} Compose(max: nat, a: Snapshot, first: Outcome, second: Outcome, wanted: Outcome)
    requires Absorb(max, a, first).stopped || second == wanted
    ensures Absorb(max, Absorb(max, a, first), second) == Absorb(max, a, Then(first, wanted))
  {
    var all := a.errors + first.errors;
    if !a.stopped {
      assert a.errors + (first.errors + wanted.errors) == all + wanted.errors;
      if Absorb(max, a, first).stopped {
        assert (all + wanted.errors)[..max] == all[..max];
      } else if |all| > max {
        assert first.errors == [];
        assert all == a.errors;
        assert (all[..max] + wanted.errors)[..max] == (all + wanted.errors)[..max];
      }
    }
  }

  lemma {:induction false} Unchanged(max: nat, a: Snapshot)
    requires |a.errors| <= max
    ensures a == Absorb(max, a, Outcome([], a.nodes))
  {
    assert a.errors + [] == a.errors;
  }

  /** Once stopped, the remaining rounds of a loop change nothing. */
  lemma {:induction false} ChainStopped(max: nat, a: Snapshot, f: Round, i: nat, j: nat, n: nat, b: Snapshot)
    requires i <= j && b.stopped && b == Absorb(max, a, Chain(f, i, n))
    ensures b == Absorb(max, a, Chain(f, j, n))
  {
    if i < j {
      ChainStopped(max, a, f, i, j - 1, n, b);
      var r := Chain(f, j - 1, n);
      Compose(max, a, r, f(j - 1, r.nodes), f(j - 1, r.nodes));
    }
  }

  /** One more round of a loop, run from whatever counter the context holds. */
  lemma {:induction false} ChainStep(
    max: nat, a: Snapshot, f: Round, i: nat, n: nat, b: Snapshot, out: Outcome, c: Snapshot)
    requires b == Absorb(max, a, Chain(f, i, n)) && c == Absorb(max, b, out)
    requires a.stopped ==> b.stopped
    requires !b.stopped ==> out == f(i, b.nodes)
    ensures c == Absorb(max, a, Chain(f, i + 1, n))
  {
    var r := Chain(f, i, n);
    Compose(max, a, r, out, f(i, r.nodes));
  }

  class ValidationResult {
    var errors: seq<Error>
    var stopped: bool

    constructor ()
      ensures errors == [] && !stopped
    {
      errors := [];
      stopped := false;
    }

    method AddError(e: Error)
      modifies this
      ensures errors == old(errors) + [e] && stopped == old(stopped)
    {
      errors := errors + [e];
    }

    method Stop()
      modifies this
      ensures stopped && errors == old(errors)
    {
      stopped := true;
    }

    predicate IsValid()
      reads this
    {
      errors == []
    }
  }

  class ValidationContext {
    const c: Config
    const maxErrors: nat
    const result: ValidationResult
    var nodes: nat

    constructor (c: Config, maxErrors: nat, result: ValidationResult)
      ensures this.c == c && this.maxErrors == maxErrors && this.result == result && nodes == 0
    {
      this.c := c;
      this.maxErrors := maxErrors;
      this.result := result;
      nodes := 0;
    }

    ghost function View(): Snapshot
      reads this, result
    {
      Snapshot(result.errors, result.stopped, if result.stopped then 0 else nodes)
    }

    /** The error list is within its bound. */
    ghost predicate Valid()
      reads this, result
    {
      1 <= maxErrors && |result.errors| <= maxErrors
    }

    /** Whether or not the run stopped early, the counter has moved by at most `room`. */
    ghost predicate Moved(before: nat, room: nat)
      reads this
    {
      Distinguishes(c.p) ==> nodes <= before + room
    }

    method AddValidationError(e: Error)
      requires Valid()
      modifies result
      ensures Valid() && View() == Absorb(maxErrors, old(View()), Outcome([e], nodes))
    {
      if result.stopped {
        return;
      }
      if |result.errors| >= maxErrors {
        result.Stop();
        return;
      }
      result.AddError(e);
      if |result.errors| >= maxErrors {
        result.Stop();
      }
    }

    method CheckBudget(at: Place) returns (ok: bool)
      requires Valid()
      modifies this, result
      ensures Valid()
      ensures ok <==> !old(result.stopped) && !Refused(c, at, old(nodes))
      ensures ok ==> View() == old(View()).(nodes := old(nodes) + 1)
      ensures !ok ==> View() == Absorb(maxErrors, old(View()), Refusal(c, at, old(nodes)))
      ensures nodes <= old(nodes) + 1
    {
      if result.stopped {
        return false;
      }
      if at.depth > c.lim.maxDepth {
        AddValidationError(Error(at.path, at.schemaPath, TooDeep));
        return false;
      }
      nodes := nodes + 1;
      if nodes > c.lim.maxNodes {
        AddValidationError(Error(at.path, at.schemaPath, TooManyNodes));
        return false;
      }
      ok := true;
    }

    /** Adds an error when a check failed. */
    method Report(failed: bool, e: Error)
      requires Valid()
      modifies result
      ensures Valid() && View() == Absorb(maxErrors, old(View()), Outcome(When(failed, e), nodes))
    {
      if failed {
        AddValidationError(e);
      } else {
        Unchanged(maxErrors, View());
      }
    }

    /** `validateSubschemaQuiet`: a run of its own whose errors are dropped. */
    method ValidateQuiet(v: Json, s: Json, at: Place) returns (valid: bool)
      requires 1 <= maxErrors && WellKinded(c.p, s)
      ensures valid <==> Quiet(c, v, s, at)
      decreases s, 2
    {
      var branch := new ValidationResult();
      var context := new ValidationContext(c, maxErrors, branch);
      context.ValidateValue(v, s, at);
      assert [] + ValueRun(c, v, s, at, 0).errors == ValueRun(c, v, s, at, 0).errors;
      valid := branch.IsValid();
    }

    method ValidateAllOf(v: Json, ss: seq<Json>, at: Place, ghost f: Round, ghost w: nat -> nat)
      requires Valid() && AllWellKinded(c.p, ss)
      requires f == AllOfRound(c, v, ss, at) && w == ItemWeight(Size(v), ss)
      modifies this, result
      ensures Valid()
      ensures View() == Absorb(maxErrors, old(View()), Chain(f, |ss|, old(nodes)))
      ensures Moved(old(nodes), Sum(w, |ss|))
      decreases ss, 2
    {
      ghost var pre, n := View(), nodes;
      Unchanged(maxErrors, pre);
      for i := 0 to |ss|
        invariant Valid() && View() == Absorb(maxErrors, pre, Chain(f, i, n))
        invariant pre.stopped ==> result.stopped
        invariant Moved(n, Sum(w, i))
      {
        if result.stopped {
          ChainStopped(maxErrors, pre, f, i, |ss|, n, View());
          SumGrows(w, i, |ss|);
          return;
        }
        AllOfAfter(v, ss, at, i, pre, f, n, w);
      }
    }

    method AllOfAfter(
      v: Json, ss: seq<Json>, at: Place, i: nat,
      ghost pre: Snapshot, ghost f: Round, ghost n: nat, ghost w: nat -> nat)
      requires Valid() && AllWellKinded(c.p, ss) && i < |ss|
      requires f == AllOfRound(c, v, ss, at) && w == ItemWeight(Size(v), ss)
      requires View() == Absorb(maxErrors, pre, Chain(f, i, n)) && Moved(n, Sum(w, i))
      requires !result.stopped && !pre.stopped
      modifies this, result
      ensures Valid() && View() == Absorb(maxErrors, pre, Chain(f, i + 1, n)) && Moved(n, Sum(w, i + 1))
      decreases ss, 1
    {
      ghost var before := View();
      AllOfMember(v, ss, at, i);
      ChainStep(maxErrors, pre, f, i, n, before, f(i, before.nodes), View());
    }

    method AllOfMember(v: Json, ss: seq<Json>, at: Place, i: nat)
      requires Valid() && AllWellKinded(c.p, ss) && i < |ss|
      modifies this, result
      ensures Valid()
      ensures View() == Absorb(maxErrors, old(View()), AllOfRound(c, v, ss, at)(i, old(nodes)))
      ensures Moved(old(nodes), ItemWeight(Size(v), ss)(i))
      decreases ss, 0
    {
      ValidateValue(v, ss[i], at.Under(c.p.kw(AllOf), i));
    }

    method AnyMatches(v: Json, ss: seq<Json>, at: Place) returns (matched: bool)
      requires 1 <= maxErrors && AllWellKinded(c.p, ss)
      ensures matched <==> Count(QuietAt(c, v, ss, at, AnyOf), |ss|) != 0
      decreases ss, 0
    {
      ghost var q := QuietAt(c, v, ss, at, AnyOf);
      for i := 0 to |ss|
        invariant Count(q, i) == 0
      {
        var valid := ValidateQuiet(v, ss[i], at.Under(c.p.kw(AnyOf), i));
        if valid {
          CountGrows(q, i, |ss|);
          return true;
        }
      }
      matched := false;
    }

    method CountMatches(v: Json, ss: seq<Json>, at: Place) returns (matches: nat)
      requires 1 <= maxErrors && AllWellKinded(c.p, ss)
      ensures matches == Count(QuietAt(c, v, ss, at, OneOf), |ss|)
      decreases ss, 0
    {
      matches := 0;
      for i := 0 to |ss|
        invariant matches == Count(QuietAt(c, v, ss, at, OneOf), i)
      {
        var valid := ValidateQuiet(v, ss[i], at.Under(c.p.kw(OneOf), i));
        if valid {
          matches := matches + 1;
        }
      }
    }

    method ValidateProperties(
      vms: seq<Member>, props: seq<Member>, at: Place, ghost f: Round, ghost w: nat -> nat)
      requires Valid() && ValuesWellKinded(c.p, props)
      requires f == PropertyRound(c, vms, props, at) && w == MemberWeight(Size(Obj(vms)), props)
      modifies this, result
      ensures Valid()
      ensures View() == Absorb(maxErrors, old(View()), Chain(f, |props|, old(nodes)))
      ensures Moved(old(nodes), Sum(w, |props|))
      decreases props, 2
    {
      ghost var pre, n := View(), nodes;
      Unchanged(maxErrors, pre);
      for i := 0 to |props|
        invariant Valid() && View() == Absorb(maxErrors, pre, Chain(f, i, n))
        invariant pre.stopped ==> result.stopped
        invariant Moved(n, Sum(w, i))
      {
        if result.stopped {
          ChainStopped(maxErrors, pre, f, i, |props|, n, View());
          SumGrows(w, i, |props|);
          return;
        }
        PropertyAfter(vms, props, at, i, pre, f, n, w);
      }
    }

    method PropertyAfter(
      vms: seq<Member>, props: seq<Member>, at: Place, i: nat,
      ghost pre: Snapshot, ghost f: Round, ghost n: nat, ghost w: nat -> nat)
      requires Valid() && ValuesWellKinded(c.p, props) && i < |props|
      requires f == PropertyRound(c, vms, props, at) && w == MemberWeight(Size(Obj(vms)), props)
      requires View() == Absorb(maxErrors, pre, Chain(f, i, n)) && Moved(n, Sum(w, i))
      requires !result.stopped && !pre.stopped
      modifies this, result
      ensures Valid() && View() == Absorb(maxErrors, pre, Chain(f, i + 1, n)) && Moved(n, Sum(w, i + 1))
      decreases props, 1
    {
      ghost var before := View();
      PropertyMember(vms, props, at, i);
      ChainStep(maxErrors, pre, f, i, n, before, f(i, before.nodes), View());
    }

    method PropertyMember(vms: seq<Member>, props: seq<Member>, at: Place, i: nat)
      requires Valid() && ValuesWellKinded(c.p, props) && i < |props|
      modifies this, result
      ensures Valid()
      ensures View() == Absorb(maxErrors, old(View()), PropertyRound(c, vms, props, at)(i, old(nodes)))
      ensures Moved(old(nodes), MemberWeight(Size(Obj(vms)), props)(i))
      decreases props, 0
    {
      if Has(vms, props[i].key) {
        MemberOfValue(vms, props[i].key);
        AreaMonotone(Size(Get(vms, props[i].key)), Size(Obj(vms)), Size(props[i].val), Size(props[i].val));
        ValidateValue(Get(vms, props[i].key), props[i].val, at.Property(c.p, props[i].key));
      } else {
        Unchanged(maxErrors, View());
      }
    }

    method ValidateAdditional(
      vms: seq<Member>, ms: seq<Member>, extra: Json, at: Place, ghost f: Round, ghost w: nat -> nat)
      requires Valid() && (extra.Bool? || WellKinded(c.p, extra))
      requires f == AdditionalRound(c, vms, ms, extra, at) && w == ValueWeight(vms, Size(extra))
      modifies this, result
      ensures Valid()
      ensures View() == Absorb(maxErrors, old(View()), Chain(f, |vms|, old(nodes)))
      ensures Moved(old(nodes), Sum(w, |vms|))
      decreases extra, 4
    {
      ghost var pre, n := View(), nodes;
      Unchanged(maxErrors, pre);
      for i := 0 to |vms|
        invariant Valid() && View() == Absorb(maxErrors, pre, Chain(f, i, n))
        invariant pre.stopped ==> result.stopped
        invariant Moved(n, Sum(w, i))
      {
        if result.stopped {
          ChainStopped(maxErrors, pre, f, i, |vms|, n, View());
          SumGrows(w, i, |vms|);
          return;
        }
        AdditionalAfter(vms, ms, extra, at, i, pre, f, n, w);
      }
    }

    method AdditionalAfter(
      vms: seq<Member>, ms: seq<Member>, extra: Json, at: Place, i: nat,
      ghost pre: Snapshot, ghost f: Round, ghost n: nat, ghost w: nat -> nat)
      requires Valid() && (extra.Bool? || WellKinded(c.p, extra)) && i < |vms|
      requires f == AdditionalRound(c, vms, ms, extra, at) && w == ValueWeight(vms, Size(extra))
      requires View() == Absorb(maxErrors, pre, Chain(f, i, n)) && Moved(n, Sum(w, i))
      requires !result.stopped && !pre.stopped
      modifies this, result
      ensures Valid() && View() == Absorb(maxErrors, pre, Chain(f, i + 1, n)) && Moved(n, Sum(w, i + 1))
      decreases extra, 3
    {
      ghost var before := View();
      AdditionalMember(vms, ms, extra, at, i);
      ChainStep(maxErrors, pre, f, i, n, before, f(i, before.nodes), View());
    }

    method AdditionalMember(vms: seq<Member>, ms: seq<Member>, extra: Json, at: Place, i: nat)
      requires Valid() && (extra.Bool? || WellKinded(c.p, extra)) && i < |vms|
      modifies this, result
      ensures Valid()
      ensures View() == Absorb(maxErrors, old(View()), AdditionalRound(c, vms, ms, extra, at)(i, old(nodes)))
      ensures Moved(old(nodes), ValueWeight(vms, Size(extra))(i))
      decreases extra, 2
    {
      if Declared(c.p, ms, vms[i].key) || extra == Bool(true) {
        Unchanged(maxErrors, View());
      } else if extra.Bool? {
        AddValidationError(ExtraError(c.p, at, vms[i].key));
      } else {
        ValidateValue(vms[i].val, extra, at.Additional(c.p, vms[i].key));
      }
    }

    method ValidateItems(xs: seq<Json>, item: Json, at: Place, ghost f: Round, ghost w: nat -> nat)
      requires Valid() && WellKinded(c.p, item)
      requires f == ItemRound(c, xs, item, at) && w == ElementWeight(xs, Size(item))
      modifies this, result
      ensures Valid()
      ensures View() == Absorb(maxErrors, old(View()), Chain(f, |xs|, old(nodes)))
      ensures Moved(old(nodes), Sum(w, |xs|))
      decreases item, 4
    {
      ghost var pre, n := View(), nodes;
      Unchanged(maxErrors, pre);
      for i := 0 to |xs|
        invariant Valid() && View() == Absorb(maxErrors, pre, Chain(f, i, n))
        invariant pre.stopped ==> result.stopped
        invariant Moved(n, Sum(w, i))
      {
        if result.stopped {
          ChainStopped(maxErrors, pre, f, i, |xs|, n, View());
          SumGrows(w, i, |xs|);
          return;
        }
        ItemAfter(xs, item, at, i, pre, f, n, w);
      }
    }

    method ItemAfter(
      xs: seq<Json>, item: Json, at: Place, i: nat,
      ghost pre: Snapshot, ghost f: Round, ghost n: nat, ghost w: nat -> nat)
      requires Valid() && WellKinded(c.p, item) && i < |xs|
      requires f == ItemRound(c, xs, item, at) && w == ElementWeight(xs, Size(item))
      requires View() == Absorb(maxErrors, pre, Chain(f, i, n)) && Moved(n, Sum(w, i))
      requires !result.stopped && !pre.stopped
      modifies this, result
      ensures Valid() && View() == Absorb(maxErrors, pre, Chain(f, i + 1, n)) && Moved(n, Sum(w, i + 1))
      decreases item, 3
    {
      ghost var before := View();
      ItemMember(xs, item, at, i);
      ChainStep(maxErrors, pre, f, i, n, before, f(i, before.nodes), View());
    }

    method ItemMember(xs: seq<Json>, item: Json, at: Place, i: nat)
      requires Valid() && WellKinded(c.p, item) && i < |xs|
      modifies this, result
      ensures Valid()
      ensures View() == Absorb(maxErrors, old(View()), ItemRound(c, xs, item, at)(i, old(nodes)))
      ensures Moved(old(nodes), ElementWeight(xs, Size(item))(i))
      decreases item, 2
    {
      ValidateValue(xs[i], item, at.Item(c.p, i));
    }

    method ReportAbsent(vms: seq<Member>, names: seq<Json>, at: Place, i: nat)
      requires Valid() && AllStrings(names) && i < |names|
      modifies result
      ensures Valid()
      ensures View() == Absorb(maxErrors, old(View()), Outcome(AbsentAt(c.p, vms, names, at)(i), nodes))
    {
      Report(!Has(vms, names[i].s), AbsentError(c.p, at, names[i].s));
    }

    method ReportAbsentAfter(
      vms: seq<Member>, names: seq<Json>, at: Place, i: nat, ghost pre: Snapshot, ghost g: nat -> seq<Error>)
      requires Valid() && AllStrings(names) && i < |names| && g == AbsentAt(c.p, vms, names, at)
      requires View() == Absorb(maxErrors, pre, Outcome(Gather(g, i), nodes))
      modifies result
      ensures Valid() && View() == Absorb(maxErrors, pre, Outcome(Gather(g, i + 1), nodes))
    {
      ghost var before := View();
      ReportAbsent(vms, names, at, i);
      GatherStep(maxErrors, pre, g, i, nodes, before, View());
    }

    method ReportRequired(vms: seq<Member>, names: seq<Json>, at: Place)
      requires Valid() && AllStrings(names)
      modifies result
      ensures Valid()
      ensures View() == Absorb(maxErrors, old(View()), Outcome(Gather(AbsentAt(c.p, vms, names, at), |names|), nodes))
    {
      ghost var pre, g := View(), AbsentAt(c.p, vms, names, at);
      Unchanged(maxErrors, pre);
      for i := 0 to |names|
        invariant Valid()
        invariant View() == Absorb(maxErrors, pre, Outcome(Gather(g, i), nodes))
      {
        if result.stopped {
          GatherStopped(maxErrors, pre, g, i, |names|, nodes, View());
          return;
        }
        ReportAbsentAfter(vms, names, at, i, pre, g);
      }
    }

    method FindCopy(xs: seq<Json>, i: nat) returns (copy: nat)
      requires i < |xs|
      ensures copy == FirstCopy(c.p, xs, i, i + 1)
    {
      for j := i + 1 to |xs|
        invariant FirstCopy(c.p, xs, i, i + 1) == FirstCopy(c.p, xs, i, j)
      {
        if Equal(c.p, xs[i], xs[j]) {
          return j;
        }
      }
      copy := |xs|;
    }

    method ReportCopy(xs: seq<Json>, at: Place, i: nat)
      requires Valid() && i < |xs|
      modifies result
      ensures Valid() && View() == Absorb(maxErrors, old(View()), Outcome(CopyAt(c.p, xs, at)(i), nodes))
    {
      var copy := FindCopy(xs, i);
      Report(copy < |xs|, CopyError(c.p, at, copy));
    }

    method ReportCopyAfter(xs: seq<Json>, at: Place, i: nat, ghost pre: Snapshot, ghost g: nat -> seq<Error>)
      requires Valid() && i < |xs| && g == CopyAt(c.p, xs, at)
      requires View() == Absorb(maxErrors, pre, Outcome(Gather(g, i), nodes))
      modifies result
      ensures Valid() && View() == Absorb(maxErrors, pre, Outcome(Gather(g, i + 1), nodes))
    {
      ghost var before := View();
      ReportCopy(xs, at, i);
      GatherStep(maxErrors, pre, g, i, nodes, before, View());
    }

    method ReportUnique(xs: seq<Json>, at: Place)
      requires Valid()
      modifies result
      ensures Valid()
      ensures View() == Absorb(maxErrors, old(View()), Outcome(Gather(CopyAt(c.p, xs, at), |xs|), nodes))
    {
      ghost var pre, g := View(), CopyAt(c.p, xs, at);
      Unchanged(maxErrors, pre);
      for i := 0 to |xs|
        invariant Valid()
        invariant View() == Absorb(maxErrors, pre, Outcome(Gather(g, i), nodes))
      {
        ReportCopyAfter(xs, at, i, pre, g);
        if result.stopped {
          GatherStopped(maxErrors, pre, g, i + 1, |xs|, nodes, View());
          return;
        }
      }
    }

    method ReportObject(vms: seq<Member>, ms: seq<Member>, at: Place)
      requires Valid() && LocalKinds(c.p, ms)
      modifies result
      ensures Valid()
      ensures View() == Absorb(maxErrors, old(View()), Outcome(ObjectErrors(c.p, vms, ms, at), nodes))
    {
      ghost var max, s0, n := maxErrors, View(), nodes;
      var few, many := Fewer(c.p, |vms|, ms, MinProperties), More(c.p, |vms|, ms, MaxProperties);
      Report(few, Fault(c.p, at, MinProperties, TooFewProperties));
      ghost var s1, e1 := View(), When(few, Fault(c.p, at, MinProperties, TooFewProperties));
      Report(many, Fault(c.p, at, MaxProperties, TooManyProperties));
      ghost var s2, e2 := View(), When(many, Fault(c.p, at, MaxProperties, TooManyProperties));
      Compose(max, s0, Outcome(e1, n), Outcome(e2, n), Outcome(e2, n));
      if On(c.p, ms, Required) {
        ReportRequired(vms, At(c.p, ms, Required).items, at);
        ghost var e3 := Gather(AbsentAt(c.p, vms, At(c.p, ms, Required).items, at), |At(c.p, ms, Required).items|);
        Compose(max, s0, Outcome(e1 + e2, n), Outcome(e3, n), Outcome(e3, n));
      } else {
        assert e1 + e2 + [] == e1 + e2;
      }
    }

    method ReportArray(xs: seq<Json>, ms: seq<Member>, at: Place)
      requires Valid() && LocalKinds(c.p, ms)
      modifies result
      ensures Valid()
      ensures View() == Absorb(maxErrors, old(View()), Outcome(ArrayErrors(c.p, xs, ms, at), nodes))
    {
      ghost var max, s0, n := maxErrors, View(), nodes;
      var few, many := Fewer(c.p, |xs|, ms, MinItems), More(c.p, |xs|, ms, MaxItems);
      Report(few, Fault(c.p, at, MinItems, TooFewItems));
      ghost var s1, e1 := View(), When(few, Fault(c.p, at, MinItems, TooFewItems));
      Report(many, Fault(c.p, at, MaxItems, TooManyItems));
      ghost var s2, e2 := View(), When(many, Fault(c.p, at, MaxItems, TooManyItems));
      Compose(max, s0, Outcome(e1, n), Outcome(e2, n), Outcome(e2, n));
      if On(c.p, ms, UniqueItems) && At(c.p, ms, UniqueItems).b {
        ReportUnique(xs, at);
        ghost var e3 := Gather(CopyAt(c.p, xs, at), |xs|);
        Compose(max, s0, Outcome(e1 + e2, n), Outcome(e3, n), Outcome(e3, n));
      } else {
        assert e1 + e2 + [] == e1 + e2;
      }
    }

    method ReportString(text: string, ms: seq<Member>, at: Place)
      requires Valid() && LocalKinds(c.p, ms)
      modifies result
      ensures Valid()
      ensures View() == Absorb(maxErrors, old(View()), Outcome(StringErrors(c, text, ms, at), nodes))
    {
      ghost var max, s0, n := maxErrors, View(), nodes;
      Report(|text| > c.lim.maxStringLength, Error(at.path, at.schemaPath, StringTooLong));
      ghost var s1, e1 := View(), When(|text| > c.lim.maxStringLength, Error(at.path, at.schemaPath, StringTooLong));
      var length := CountCodePoints(text);
      var short, long := Fewer(c.p, length, ms, MinLength), More(c.p, length, ms, MaxLength);
      Report(short, Fault(c.p, at, MinLength, TooShort));
      ghost var s2, e2 := View(), When(short, Fault(c.p, at, MinLength, TooShort));
      Compose(max, s0, Outcome(e1, n), Outcome(e2, n), Outcome(e2, n));
      Report(long, Fault(c.p, at, MaxLength, TooLong));
      ghost var s3, e3 := View(), When(long, Fault(c.p, at, MaxLength, TooLong));
      Compose(max, s0, Outcome(e1 + e2, n), Outcome(e3, n), Outcome(e3, n));
      var odd := On(c.p, ms, Pattern) && !c.p.regexFinds(At(c.p, ms, Pattern).s, text);
      Report(odd, Fault(c.p, at, Pattern, NoPatternMatch));
      ghost var e4 := When(odd, Fault(c.p, at, Pattern, NoPatternMatch));
      Compose(max, s0, Outcome(e1 + e2 + e3, n), Outcome(e4, n), Outcome(e4, n));
    }

    method ReportNumber(x: Number, ms: seq<Member>, at: Place)
      requires Valid() && LocalKinds(c.p, ms)
      modifies result
      ensures Valid()
      ensures View() == Absorb(maxErrors, old(View()), Outcome(NumberErrors(c.p, x, ms, at), nodes))
    {
      if x.Floating? && !x.d.Finite? {
        AddValidationError(Error(at.path, at.schemaPath, NotFinite));
      } else {
        ReportFinite(x, ms, at);
      }
    }

    method ReportFinite(x: Number, ms: seq<Member>, at: Place)
      requires Valid() && LocalKinds(c.p, ms)
      modifies result
      ensures Valid()
      ensures View() == Absorb(maxErrors, old(View()), Outcome(FiniteErrors(c.p, x, ms, at), nodes))
    {
      ghost var max, s0, n := maxErrors, View(), nodes;
      var low := On(c.p, ms, Minimum) && Below(c.p, x, At(c.p, ms, Minimum).n);
      Report(low, Fault(c.p, at, Minimum, BelowMinimum));
      ghost var s1, e1 := View(), When(low, Fault(c.p, at, Minimum, BelowMinimum));
      var high := On(c.p, ms, Maximum) && Above(c.p, x, At(c.p, ms, Maximum).n);
      Report(high, Fault(c.p, at, Maximum, AboveMaximum));
      ghost var s2, e2 := View(), When(high, Fault(c.p, at, Maximum, AboveMaximum));
      Compose(max, s0, Outcome(e1, n), Outcome(e2, n), Outcome(e2, n));
      var odd := On(c.p, ms, MultipleOf) && !NumberMultipleOf(c.p, x, At(c.p, ms, MultipleOf).n);
      Report(odd, Fault(c.p, at, MultipleOf, NotMultiple));
      ghost var e3 := When(odd, Fault(c.p, at, MultipleOf, NotMultiple));
      Compose(max, s0, Outcome(e1 + e2, n), Outcome(e3, n), Outcome(e3, n));
    }

    method ReportValue(v: Json, ms: seq<Member>, at: Place)
      requires Valid() && LocalKinds(c.p, ms)
      modifies result
      ensures Valid()
      ensures View() == Absorb(maxErrors, old(View()), Outcome(ValueErrors(c.p, v, ms, at), nodes))
    {
      ghost var max, s0, n := maxErrors, View(), nodes;
      var unlisted := On(c.p, ms, Enum) && !InEnum(c.p, v, At(c.p, ms, Enum).items);
      Report(unlisted, Fault(c.p, at, Enum, NotInEnum));
      ghost var s1, e1 := View(), When(unlisted, Fault(c.p, at, Enum, NotInEnum));
      var other := On(c.p, ms, Const) && !Equal(c.p, v, At(c.p, ms, Const));
      Report(other, Fault(c.p, at, Const, NotConst));
      ghost var e2 := When(other, Fault(c.p, at, Const, NotConst));
      Compose(max, s0, Outcome(e1, n), Outcome(e2, n), Outcome(e2, n));
    }

    method ValidateObject(v: Json, ms: seq<Member>, at: Place)
      requires Valid() && LocalKinds(c.p, ms) && PropertiesKinds(c.p, ms) && AdditionalKinds(c.p, ms)
      modifies this, result
      ensures Valid()
      ensures !v.Obj? ==> View() == old(View()) && nodes == old(nodes)
      ensures v.Obj? ==>
        View() == Absorb(maxErrors, old(View()),
                         Then(Outcome(ObjectErrors(c.p, v.members, ms, at), old(nodes)),
                              ObjectKids(c, v.members, ms, at, old(nodes))))
      ensures v.Obj? ==> Moved(old(nodes), KidsRoom(c.p, v, ms))
      decreases ms, 2
    {
      if !v.Obj? || result.stopped {
        return;
      }
      ghost var s0, n := View(), nodes;
      ReportObject(v.members, ms, at);
      ghost var s1, e := View(), Outcome(ObjectErrors(c.p, v.members, ms, at), n);
      ValidateMembers(v.members, ms, at);
      Compose(maxErrors, s0, e, ObjectKids(c, v.members, ms, at, s1.nodes), ObjectKids(c, v.members, ms, at, n));
    }

    method ValidateMembers(vms: seq<Member>, ms: seq<Member>, at: Place)
      requires Valid() && PropertiesKinds(c.p, ms) && AdditionalKinds(c.p, ms)
      modifies this, result
      ensures Valid()
      ensures View() == Absorb(maxErrors, old(View()), ObjectKids(c, vms, ms, at, old(nodes)))
      ensures Moved(old(nodes), KidsRoom(c.p, Obj(vms), ms))
      decreases ms, 1
    {
      ghost var s0, n := View(), nodes;
      MembersDeclared(vms, ms, at);
      ghost var s1, first := View(), PropertiesPart(c, vms, ms, at, n);
      MembersExtra(vms, ms, at);
      Compose(maxErrors, s0, first,
              AdditionalPart(c, vms, ms, at, s1.nodes), AdditionalPart(c, vms, ms, at, first.nodes));
    }

    method MembersDeclared(vms: seq<Member>, ms: seq<Member>, at: Place)
      requires Valid() && PropertiesKinds(c.p, ms)
      modifies this, result
      ensures Valid() && View() == Absorb(maxErrors, old(View()), PropertiesPart(c, vms, ms, at, old(nodes)))
      ensures Moved(old(nodes), Area(Size(Obj(vms)), Nodes(c.p, ms, Properties)))
      decreases ms, 0
    {
      if On(c.p, ms, Properties) {
        ghost var props := At(c.p, ms, Properties).members;
        MemberWeights(Size(Obj(vms)), props, |props|);
        AreaMonotone(Size(Obj(vms)), Size(Obj(vms)), SizeMembers(props, |props|), Nodes(c.p, ms, Properties));
        ValidateProperties(vms, At(c.p, ms, Properties).members, at,
                           PropertyRound(c, vms, props, at), MemberWeight(Size(Obj(vms)), props));
      } else {
        Unchanged(maxErrors, View());
      }
    }

    method MembersExtra(vms: seq<Member>, ms: seq<Member>, at: Place)
      requires Valid() && AdditionalKinds(c.p, ms)
      modifies this, result
      ensures Valid() && View() == Absorb(maxErrors, old(View()), AdditionalPart(c, vms, ms, at, old(nodes)))
      ensures Moved(old(nodes), Area(Size(Obj(vms)), Nodes(c.p, ms, AdditionalProperties)))
      decreases ms, 0
    {
      if On(c.p, ms, AdditionalProperties) {
        ghost var extra := At(c.p, ms, AdditionalProperties);
        ValueWeights(vms, Size(extra), |vms|);
        AreaMonotone(SizeMembers(vms, |vms|), Size(Obj(vms)), Size(extra), Size(extra));
        ValidateAdditional(vms, ms, At(c.p, ms, AdditionalProperties), at,
                           AdditionalRound(c, vms, ms, extra, at), ValueWeight(vms, Size(extra)));
      } else {
        Unchanged(maxErrors, View());
      }
    }

    method ValidateArray(v: Json, ms: seq<Member>, at: Place)
      requires Valid() && LocalKinds(c.p, ms) && SchemaKinds(c.p, ms, Items)
      modifies this, result
      ensures Valid()
      ensures !v.Arr? ==> View() == old(View()) && nodes == old(nodes)
      ensures v.Arr? ==>
        View() == Absorb(maxErrors, old(View()),
                         Then(Outcome(ArrayErrors(c.p, v.items, ms, at), old(nodes)),
                              ItemsPart(c, v.items, ms, at, old(nodes))))
      ensures v.Arr? ==> Moved(old(nodes), KidsRoom(c.p, v, ms))
      decreases ms, 2
    {
      if !v.Arr? || result.stopped {
        return;
      }
      ghost var s0, n := View(), nodes;
      ReportArray(v.items, ms, at);
      ghost var s1, e := View(), Outcome(ArrayErrors(c.p, v.items, ms, at), n);
      ElementsAll(v.items, ms, at);
      Compose(maxErrors, s0, e, ItemsPart(c, v.items, ms, at, s1.nodes), ItemsPart(c, v.items, ms, at, n));
    }

    method ElementsAll(xs: seq<Json>, ms: seq<Member>, at: Place)
      requires Valid() && SchemaKinds(c.p, ms, Items)
      modifies this, result
      ensures Valid() && View() == Absorb(maxErrors, old(View()), ItemsPart(c, xs, ms, at, old(nodes)))
      ensures Moved(old(nodes), Area(Size(Arr(xs)), Nodes(c.p, ms, Items)))
      decreases ms, 0
    {
      if On(c.p, ms, Items) {
        ghost var item := At(c.p, ms, Items);
        ElementWeights(xs, Size(item), |xs|);
        AreaMonotone(SizeItems(xs, |xs|), Size(Arr(xs)), Size(item), Size(item));
        ValidateItems(xs, At(c.p, ms, Items), at, ItemRound(c, xs, item, at), ElementWeight(xs, Size(item)));
      } else {
        Unchanged(maxErrors, View());
      }
    }

    method ValidateString(v: Json, ms: seq<Member>, at: Place)
      requires Valid() && LocalKinds(c.p, ms)
      modifies result
      ensures Valid()
      ensures !v.Str? ==> View() == old(View())
      ensures v.Str? ==> View() == Absorb(maxErrors, old(View()), Outcome(StringErrors(c, v.s, ms, at), nodes))
    {
      if !v.Str? || result.stopped {
        return;
      }
      ReportString(v.s, ms, at);
    }

    method ValidateNumber(v: Json, ms: seq<Member>, at: Place)
      requires Valid() && LocalKinds(c.p, ms)
      modifies result
      ensures Valid()
      ensures !v.Num? ==> View() == old(View())
      ensures v.Num? ==> View() == Absorb(maxErrors, old(View()), Outcome(NumberErrors(c.p, v.n, ms, at), nodes))
    {
      if !v.Num? || result.stopped {
        return;
      }
      ReportNumber(v.n, ms, at);
    }

    /** The four kind-specific validators in order; only the one for the kind of `v` does anything. */
    method ValidateKinds(v: Json, ms: seq<Member>, at: Place)
      requires Valid() && LocalKinds(c.p, ms)
      requires PropertiesKinds(c.p, ms) && AdditionalKinds(c.p, ms) && SchemaKinds(c.p, ms, Items)
      modifies this, result
      ensures Valid()
      ensures View() == Absorb(maxErrors, old(View()), KindPart(c, v, ms, at, old(nodes)))
      ensures Moved(old(nodes), KidsRoom(c.p, v, ms))
      decreases ms, 3
    {
      Unchanged(maxErrors, View());
      ValidateObject(v, ms, at);
      ValidateArray(v, ms, at);
      ValidateString(v, ms, at);
      ValidateNumber(v, ms, at);
      NothingMore(ShapeErrors(c, v, ms, at));
    }

    method ValidateAnyOf(v: Json, ms: seq<Member>, at: Place)
      requires Valid() && ListKinds(c.p, ms, AnyOf)
      modifies result
      ensures Valid()
      ensures View() == Absorb(maxErrors, old(View()), Outcome(AnyOfErrors(c, v, ms, at), nodes))
      decreases ms, 0
    {
      if On(c.p, ms, AnyOf) {
        var matched := AnyMatches(v, At(c.p, ms, AnyOf).items, at);
        Report(!matched, Fault(c.p, at, AnyOf, NoAnyOf));
      } else {
        Unchanged(maxErrors, View());
      }
    }

    method ValidateOneOf(v: Json, ms: seq<Member>, at: Place)
      requires Valid() && ListKinds(c.p, ms, OneOf)
      modifies result
      ensures Valid()
      ensures View() == Absorb(maxErrors, old(View()), Outcome(OneOfErrors(c, v, ms, at), nodes))
      decreases ms, 0
    {
      if On(c.p, ms, OneOf) {
        var matches := CountMatches(v, At(c.p, ms, OneOf).items, at);
        Report(matches != 1, Fault(c.p, at, OneOf, NotOneOf));
      } else {
        Unchanged(maxErrors, View());
      }
    }

    method ValidateNot(v: Json, ms: seq<Member>, at: Place)
      requires Valid() && SchemaKinds(c.p, ms, Not)
      modifies result
      ensures Valid()
      ensures View() == Absorb(maxErrors, old(View()), Outcome(NotErrors(c, v, ms, at), nodes))
      decreases ms, 0
    {
      if On(c.p, ms, Not) {
        var valid := ValidateQuiet(v, At(c.p, ms, Not), at.Keyword(c.p.kw(Not)));
        Report(valid, Fault(c.p, at, Not, Forbidden));
      } else {
        Unchanged(maxErrors, View());
      }
    }

    method ValidateQuietly(v: Json, ms: seq<Member>, at: Place)
      requires Valid() && ListKinds(c.p, ms, AnyOf) && ListKinds(c.p, ms, OneOf) && SchemaKinds(c.p, ms, Not)
      modifies result
      ensures Valid()
      ensures View() == Absorb(maxErrors, old(View()), Outcome(QuietErrors(c, v, ms, at), nodes))
      decreases ms, 1
    {
      ghost var s0, n := View(), nodes;
      ValidateAnyOf(v, ms, at);
      ghost var s1, any := View(), Outcome(AnyOfErrors(c, v, ms, at), n);
      ValidateOneOf(v, ms, at);
      ghost var s2, one := View(), Outcome(OneOfErrors(c, v, ms, at), n);
      Compose(maxErrors, s0, any, one, one);
      ValidateNot(v, ms, at);
      ghost var not := Outcome(NotErrors(c, v, ms, at), n);
      Compose(maxErrors, s0, Then(any, one), not, not);
    }

    method AllOfAll(v: Json, ms: seq<Member>, at: Place)
      requires Valid() && ListKinds(c.p, ms, AllOf)
      modifies this, result
      ensures Valid() && View() == Absorb(maxErrors, old(View()), AllOfPart(c, v, ms, at, old(nodes)))
      ensures Moved(old(nodes), Area(Size(v), Nodes(c.p, ms, AllOf)))
      decreases ms, 0
    {
      if On(c.p, ms, AllOf) {
        ghost var ss := At(c.p, ms, AllOf).items;
        ItemWeights(Size(v), ss, |ss|);
        AreaMonotone(Size(v), Size(v), SizeItems(ss, |ss|), Nodes(c.p, ms, AllOf));
        ValidateAllOf(v, At(c.p, ms, AllOf).items, at, AllOfRound(c, v, ss, at), ItemWeight(Size(v), ss));
      } else {
        Unchanged(maxErrors, View());
      }
    }

    /** The keywords applied to the value itself: its own assertions, then allOf, anyOf, oneOf and not. */
    method ValidateInPlace(v: Json, ms: seq<Member>, at: Place)
      requires Valid() && LocalKinds(c.p, ms)
      requires ListKinds(c.p, ms, AllOf) && ListKinds(c.p, ms, AnyOf) && ListKinds(c.p, ms, OneOf)
      requires SchemaKinds(c.p, ms, Not)
      modifies this, result
      ensures Valid()
      ensures View() == Absorb(maxErrors, old(View()), InPlacePart(c, v, ms, at, old(nodes)))
      ensures Moved(old(nodes), Area(Size(v), Nodes(c.p, ms, AllOf)))
      decreases ms, 2
    {
      ghost var s0, n := View(), nodes;
      ReportValue(v, ms, at);
      ghost var s1, own := View(), Outcome(ValueErrors(c.p, v, ms, at), n);
      AllOfAll(v, ms, at);
      ghost var s2, all := View(), AllOfPart(c, v, ms, at, n);
      Compose(maxErrors, s0, own, AllOfPart(c, v, ms, at, s1.nodes), all);
      ValidateQuietly(v, ms, at);
      ghost var quiet := Outcome(QuietErrors(c, v, ms, at), all.nodes);
      Compose(maxErrors, s0, Then(own, all), Outcome(quiet.errors, s2.nodes), quiet);
    }

    method ValidateBody(v: Json, ms: seq<Member>, at: Place)
      requires Valid() && WellKinded(c.p, Obj(ms))
      modifies this, result
      ensures Valid()
      ensures View() == Absorb(maxErrors, old(View()), BodyRun(c, v, ms, at, old(nodes)))
      ensures Distinguishes(c.p) ==> nodes + 1 <= old(nodes) + Area(Size(v), Size(Obj(ms)))
      decreases ms, 4
    {
      ghost var s0, n := View(), nodes;
      ValidateInPlace(v, ms, at);
      ghost var s1, own := View(), InPlacePart(c, v, ms, at, n);
      ValidateKinds(v, ms, at);
      ghost var kinds := KindPart(c, v, ms, at, own.nodes);
      Compose(maxErrors, s0, own, KindPart(c, v, ms, at, s1.nodes), kinds);
      BodyRunInOrder(c, v, ms, at, n);
      if Distinguishes(c.p) { RoomSuffices(c.p, v, ms); }
    }

    /** What follows the budget check. */
    method ValidateTyped(v: Json, s: Json, at: Place)
      requires Valid() && WellKinded(c.p, s)
      modifies this, result
      ensures Valid()
      ensures View() == Absorb(maxErrors, old(View()), TypedRun(c, v, s, at, old(nodes)))
      ensures Distinguishes(c.p) ==> nodes + 1 <= old(nodes) + Area(Size(v), Size(s))
      decreases s, 0
    {
      if On(c.p, s.members, Type) && !MatchesTypeSpec(v, At(c.p, s.members, Type)) {
        AddValidationError(Fault(c.p, at, Type, WrongType));
        AreaGrows(Size(v), 0, Size(s));
        return;
      }
      ValidateBody(v, s.members, at);
    }

    /** `validateValue`: the context absorbs exactly what the run reports, cut off at `maxErrors`; and even
        a run that stops early counts at most |value| * |schema| nodes. */
    method ValidateValue(v: Json, s: Json, at: Place)
      requires Valid() && WellKinded(c.p, s)
      modifies this, result
      ensures Valid()
      ensures View() == Absorb(maxErrors, old(View()), ValueRun(c, v, s, at, old(nodes)))
      ensures Moved(old(nodes), Area(Size(v), Size(s)))
      decreases s, 1
    {
      AreaGrows(Size(v), 0, Size(s));
      var ok := CheckBudget(at);
      if ok {
        ValidateTyped(v, s, at);
      }
    }
  }

  /** Room for the children of a value: what properties, additionalProperties and items can enter. */
  function KidsRoom(p: Platform, v: Json, ms: seq<Member>): nat {
    Area(Size(v), Nodes(p, ms, Properties)) + Area(Size(v), Nodes(p, ms, AdditionalProperties))
    + Area(Size(v), Nodes(p, ms, Items))
  }

  lemma {:induction false} RoomSuffices(p: Platform, v: Json, ms: seq<Member>)
    requires Distinguishes(p)
    ensures 1 + Area(Size(v), Nodes(p, ms, AllOf)) + KidsRoom(p, v, ms) <= Area(Size(v), Size(Obj(ms)))
  {
    ApplicatorsFit(p, ms);
    AreaOfParts(Size(v), Nodes(p, ms, AllOf), Nodes(p, ms, Properties), Nodes(p, ms, AdditionalProperties),
                Nodes(p, ms, Items), Size(Obj(ms)));
  }

  ghost function InPlacePart(c: Config, v: Json, ms: seq<Member>, at: Place, n: nat): Outcome
    requires LocalKinds(c.p, ms)
    requires ListKinds(c.p, ms, AllOf) && ListKinds(c.p, ms, AnyOf) && ListKinds(c.p, ms, OneOf)
    requires SchemaKinds(c.p, ms, Not)
  {
    var all := AllOfPart(c, v, ms, at, n);
    Then(Then(Outcome(ValueErrors(c.p, v, ms, at), n), all), Outcome(QuietErrors(c, v, ms, at), all.nodes))
  }

  lemma {:induction false} NothingMore(es: seq<Error>)
    ensures es + [] == es
  {
  }

  ghost function KindPart(c: Config, v: Json, ms: seq<Member>, at: Place, n: nat): Outcome
    requires LocalKinds(c.p, ms)
    requires PropertiesKinds(c.p, ms) && AdditionalKinds(c.p, ms) && SchemaKinds(c.p, ms, Items)
  {
    Then(Outcome(ShapeErrors(c, v, ms, at), n), ChildrenPart(c, v, ms, at, n))
  }

  /** The errors of a schema body in the order the validator finds them. */
  lemma {:induction false} BodyRunInOrder(c: Config, v: Json, ms: seq<Member>, at: Place, n: nat)
    requires WellKinded(c.p, Obj(ms))
    ensures var own := InPlacePart(c, v, ms, at, n);
            BodyRun(c, v, ms, at, n) == Then(own, KindPart(c, v, ms, at, own.nodes))
  {
    var all := AllOfPart(c, v, ms, at, n);
    var es := ValueErrors(c.p, v, ms, at) + all.errors + QuietErrors(c, v, ms, at);
    var shape, kids := ShapeErrors(c, v, ms, at), ChildrenPart(c, v, ms, at, all.nodes);
    assert es + shape + kids.errors == es + (shape + kids.errors);
  }

  /** `utf8Length`: bytes that do not continue a code point. */
  method CountCodePoints(text: string) returns (count: nat)
    ensures count == Utf8Length(text)
  {
    count := 0;
    for i := 0 to |text|
      invariant count == Utf8Length(text[..i])
    {
      assert text[..i + 1][..i] == text[..i];
      if !(0x80 <= text[i] as int < 0xC0) {
        count := count + 1;
      }
    }
    assert text[..|text|] == text;
  }

  lemma {:induction false} GatherStopped(
    max: nat, a: Snapshot, g: nat -> seq<Error>, i: nat, j: nat, n: nat, b: Snapshot)
    requires i <= j && b.stopped && b == Absorb(max, a, Outcome(Gather(g, i), n))
    ensures b == Absorb(max, a, Outcome(Gather(g, j), n))
  {
    if i < j {
      GatherStopped(max, a, g, i, j - 1, n, b);
      Compose(max, a, Outcome(Gather(g, j - 1), n), Outcome(g(j - 1), n), Outcome(g(j - 1), n));
    }
  }

  lemma {:induction false} GatherStep(
    max: nat, a: Snapshot, g: nat -> seq<Error>, i: nat, n: nat, b: Snapshot, c: Snapshot)
    requires b == Absorb(max, a, Outcome(Gather(g, i), n)) && c == Absorb(max, b, Outcome(g(i), n))
    ensures c == Absorb(max, a, Outcome(Gather(g, i + 1), n))
  {
    Compose(max, a, Outcome(Gather(g, i), n), Outcome(g(i), n), Outcome(g(i), n));
  }

  lemma {:induction false} CountGrows(q: nat -> bool, i: nat, j: nat)
    requires i < j && q(i)
    ensures Count(q, j) > 0
  {
    if i < j - 1 { CountGrows(q, i, j - 1); }
  }
}
