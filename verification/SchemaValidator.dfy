/** `SchemaValidator::validate` and what its report means. */
module SchemaValidator {
  import opened Json
  import opened Pointer
  import opened Schema
  import opened SchemaCompiler
  import opened TreeBudget
  import opened Validation
  import opened Validator
  import Agreement
  import Budgets
  import Locations
  import Semantics
  import Standard

  const ROOT := Place("", "", 0)

  /** The schema compiles: well-formed and within the schema limits. */
  ghost predicate Compiles(p: Platform, o: SchemaOptions, s: Json) {
    Accepted(p, o, s) && Within(s, TreeLimits(o.maxDepth, o.maxNodes, o.maxStringLength), 0, 0)
  }

  /** Every error there is, in order, however many are reported. */
  ghost function AllErrors(p: Platform, lim: TreeLimits, v: Json, s: Json): seq<Error>
    requires WellKinded(p, s)
  {
    ValueRun(Config(p, lim), v, s, ROOT, 0).errors
  }

  /** What `validate` reports: a zero error bound, a rejected schema, the first place at which the value is
      over budget, or the first `maxErrors` errors of the run. */
  ghost function Report(
    p: Platform, o: SchemaOptions, lim: TreeLimits, maxErrors: nat, v: Json, s: Json): seq<Error>
  {
    if maxErrors == 0 then [Error("", "", ZeroMaxErrors)]
    else if !Compiles(p, o, s) then [Error("", "", SchemaRejected)]
    else if !Within(v, lim, 0, 0) then
      ExcessIff(v, "", 0, lim, 0);
      [Error(Excess(v, "", 0, lim, 0).value, "", ValueOverBudget)]
    else
      AcceptedIsWellKinded(p, o, s);
      Take(AllErrors(p, lim, v, s), maxErrors)
  }

  /** The four outcomes of `validate`: a zero error bound, a rejected schema, a value over budget, or
      the first `maxErrors` errors of the run. */
  method Validate(p: Platform, o: SchemaOptions, lim: TreeLimits, maxErrors: nat, v: Json, s: Json)
    returns (errors: seq<Error>, stopped: bool)
    requires Distinguishes(p) && DistinctKeys(v) && DistinctKeys(s)
    ensures errors == Report(p, o, lim, maxErrors, v, s)
    ensures maxErrors == 0 ==> errors == [Error("", "", ZeroMaxErrors)] && stopped
    ensures maxErrors > 0 && !Compiles(p, o, s) ==> errors == [Error("", "", SchemaRejected)] && !stopped
    ensures maxErrors > 0 && Compiles(p, o, s) && !Within(v, lim, 0, 0) ==>
              |errors| == 1 && errors[0].reason == ValueOverBudget && Resolve(v, errors[0].path).Some? && stopped
    ensures maxErrors > 0 && Compiles(p, o, s) && Within(v, lim, 0, 0) ==>
              && WellKinded(p, s)
              && errors == Take(AllErrors(p, lim, v, s), maxErrors)
              && stopped == (|AllErrors(p, lim, v, s)| >= maxErrors)
    ensures maxErrors > 0 && Compiles(p, o, s) && Within(v, lim, 0, 0) && Size(v) * Size(s) <= lim.maxNodes ==>
              (errors == [] <==> WellKinded(p, s) && Semantics.Satisfies(Semantics.Library, p, v, s))
    ensures maxErrors > 0 && Compiles(p, o, s) && Within(v, lim, 0, 0) && Size(v) * Size(s) <= lim.maxNodes
            && Standard.Faithful(p, v, s) ==>
              (errors == [] <==> WellKinded(p, s) && Semantics.Satisfies(Semantics.Mathematical, p, v, s))
  {
    var result := new ValidationResult();
    if maxErrors == 0 {
      result.AddError(Error("", "", ZeroMaxErrors));
      result.Stop();
      return result.errors, result.stopped;
    }
    var compiled := Compile(p, o, s);
    if !compiled {
      result.AddError(Error("", "", SchemaRejected));
      return result.errors, result.stopped;
    }
    var over, _ := CheckTree(v, "", 0, lim, 0, v);
    if over.Some? {
      result.AddError(Error(over.value, "", ValueOverBudget));
      result.Stop();
      return result.errors, result.stopped;
    }
    AcceptedIsWellKinded(p, o, s);
    var context := new ValidationContext(Config(p, lim), maxErrors, result);
    context.ValidateValue(v, s, ROOT);
    NothingBefore(AllErrors(p, lim, v, s));
    if Size(v) * Size(s) <= lim.maxNodes {
      VerdictIsMeaning(p, lim, v, s);
      if Standard.Faithful(p, v, s) {
        VerdictIsStandard(p, lim, v, s);
      }
    }
    return result.errors, result.stopped;
  }

  lemma {:induction false} NothingBefore(es: seq<Error>)
    ensures [] + es == es
  {
  }

  /** Early stopping only truncates: of two validations of the same value, the one with the smaller bound
      reports a prefix of what the other reports, all of it when it did not stop, and both give the same verdict. */
  method StoppingTruncates(p: Platform, o: SchemaOptions, lim: TreeLimits, few: nat, many: nat, v: Json, s: Json)
    returns (short: seq<Error>, stopped: bool, long: seq<Error>)
    requires Distinguishes(p) && DistinctKeys(v) && DistinctKeys(s) && 1 <= few <= many
    ensures short == Report(p, o, lim, few, v, s) && long == Report(p, o, lim, many, v, s)
    ensures short == Take(long, few)
    ensures short <= long && (!stopped ==> short == long)
    ensures short == [] <==> long == []
  {
    short, stopped := Validate(p, o, lim, few, v, s);
    var stoppedLater;
    long, stoppedLater := Validate(p, o, lim, many, v, s);
    if Compiles(p, o, s) && Within(v, lim, 0, 0) {
      TakeTwice(AllErrors(p, lim, v, s), few, many);
    }
  }

  lemma {:induction false} TakeTwice(es: seq<Error>, few: nat, many: nat)
    requires few <= many
    ensures Take(Take(es, many), few) == Take(es, few)
  {
  }

  lemma {:induction false} ProductFits(v: nat, s: nat, max: nat)
    requires v * s <= max
    ensures Visits.Area(v, s) <= max
  {
    Visits.AreaIsProduct(v, s);
  }

  /** With room for |value| * |schema| entries the verdict is the declarative one, computed with the
      library's arithmetic. */
  lemma {:induction false} VerdictIsMeaning(p: Platform, lim: TreeLimits, v: Json, s: Json)
    requires Distinguishes(p) && WellKinded(p, s)
    requires Within(v, lim, 0, 0) && Size(v) * Size(s) <= lim.maxNodes
    ensures AllErrors(p, lim, v, s) == [] <==> Semantics.Satisfies(Semantics.Library, p, v, s)
  {
    ProductFits(Size(v), Size(s), lim.maxNodes);
    Agreement.Agrees(Config(p, lim), v, s, ROOT, 0);
  }

  /** And it is the standard's meaning on all documents whose integers do not wrap and, if one passes as
      near a multiple of another, are multiples. */
  lemma {:induction false} VerdictIsStandard(p: Platform, lim: TreeLimits, v: Json, s: Json)
    requires Distinguishes(p) && WellKinded(p, s)
    requires Within(v, lim, 0, 0) && Size(v) * Size(s) <= lim.maxNodes
    requires Standard.Faithful(p, v, s)
    ensures AllErrors(p, lim, v, s) == [] <==> Semantics.Satisfies(Semantics.Mathematical, p, v, s)
  {
    VerdictIsMeaning(p, lim, v, s);
    var r :| Standard.Suits(p, r) && Standard.Ordinary(r, v) && Standard.Ordinary(r, s);
    Standard.SameMeaning(p, r, v, s);
  }

  /** A value that passed the pre-pass never meets the depth check, and with room for
      |value| * |schema| entries never the node check. */
  lemma {:induction false} ChecksNeverFire(p: Platform, lim: TreeLimits, v: Json, s: Json)
    requires Distinguishes(p) && WellKinded(p, s) && Within(v, lim, 0, 0)
    ensures forall e | e in AllErrors(p, lim, v, s) :: e.reason != TooDeep
    ensures Size(v) * Size(s) <= lim.maxNodes ==> forall e | e in AllErrors(p, lim, v, s) :: e.reason != TooManyNodes
  {
    var roomy := Size(v) * Size(s) <= lim.maxNodes;
    if roomy { ProductFits(Size(v), Size(s), lim.maxNodes); }
    Budgets.RunClean(Config(p, lim), v, s, ROOT, 0, roomy);
  }

  /** Every location in a report exists. */
  lemma {:induction false} ReportsAreLocated(p: Platform, lim: TreeLimits, v: Json, s: Json, e: Error)
    requires WellKinded(p, s) && DistinctKeys(v) && DistinctKeys(s)
    requires e in AllErrors(p, lim, v, s)
    ensures Locations.Located(v, s, e)
  {
    Locations.RunLocated(Config(p, lim), v, s, v, s, ROOT, 0);
  }
}
