/** The base class of every REST method: a store of named string parameters
    that only grows or overwrites, and that admits a pair only when both the
    name and the value have text. */
module AbstractRestMethods {
  import opened RestModel

  /** A number passed to the Number overload; its value plays no part. */
  type JavaNumber = real

  /** java.time.LocalDate. */
  datatype LocalDate = LocalDate(year: int, month: int, day: int)

  class AbstractRestMethod {
    /** The concrete class of this object, as reflection reports it. */
    const cls: MethodClass
    var parameterMap: map<string, string>

    /** Every stored name and value has text. */
    ghost predicate Valid()
      reads this
    {
      forall name :: name in parameterMap ==> ContainsText(name) && ContainsText(parameterMap[name])
    }

    /** Creates a method object of class `cls` with no parameters. */
    constructor (cls: MethodClass)
      ensures this.cls == cls
      ensures parameterMap == map[]
      ensures Valid()
    {
      this.cls := cls;
      parameterMap := map[];
    }

    /** Stores `value` under `name` when both have text, replacing any earlier
        value of that name; otherwise throws IllegalArgumentException and
        leaves the parameters as they were. */
    method AddParameter(name: Option<string>, value: Option<string>) returns (r: Outcome)
      requires Valid()
      modifies this
      ensures Valid()
      ensures r.Pass? <==> HasText(name) && HasText(value)
      ensures r.Fail? ==> r.error == IllegalArgument("Empty parameter") && parameterMap == old(parameterMap)
      ensures r.Pass? ==> parameterMap == old(parameterMap)[name.value := value.value]
      ensures old(parameterMap).Keys <= parameterMap.Keys
    {
      var params := [name, value];
      r := AssertParameters(Some(params));
      assert params[0] == name && params[1] == value;
      assert (forall i :: 0 <= i < |params| ==> HasText(params[i])) <==> HasText(name) && HasText(value);
      if r.Fail? {
        return;
      }
      parameterMap := parameterMap[name.value := value.value];
    }

    /** The Number overload: not implemented, it always throws and, having no
        modifies clause, cannot change the parameters. */
    method AddNumberParameter(name: Option<string>, value: Option<JavaNumber>) returns (r: Outcome)
      ensures r == Fail(UnsupportedOperation("Implementation missing"))
    {
      r := Fail(UnsupportedOperation("Implementation missing"));
    }

    /** The LocalDate overload: not implemented, it always throws and, having
        no modifies clause, cannot change the parameters. */
    method AddDateParameter(name: Option<string>, value: Option<LocalDate>) returns (r: Outcome)
      ensures r == Fail(UnsupportedOperation("Implementation missing"))
    {
      r := Fail(UnsupportedOperation("Implementation missing"));
    }

    /** Checks a varargs array of strings: it must be present, non-empty, and
        every element must have text; the first element without text stops
        the check. */
    static method AssertParameters(params: Option<seq<Option<string>>>) returns (r: Outcome)
      ensures r.Pass? <==> params.Some? && |params.value| > 0
                           && forall i :: 0 <= i < |params.value| ==> HasText(params.value[i])
      ensures params.None? ==> r == Fail(IllegalArgument("No parameters specified"))
      ensures params == Some([]) ==> r == Fail(IllegalArgument("Empty parameter array specified"))
      ensures params.Some? && params.value != [] && r.Fail? ==> r == Fail(IllegalArgument("Empty parameter"))
    {
      if params.None? {
        return Fail(IllegalArgument("No parameters specified"));
      }
      var ps := params.value;
      if |ps| == 0 {
        return Fail(IllegalArgument("Empty parameter array specified"));
      }
      var i := 0;
      while i < |ps|
        invariant 0 <= i <= |ps|
        invariant forall j :: 0 <= j < i ==> HasText(ps[j])
      {
        if !HasText(ps[i]) {
          return Fail(IllegalArgument("Empty parameter"));
        }
        i := i + 1;
      }
      return Pass;
    }
  }
}
