/**
 * The task classifier: `classifyTask` asks the model (through the gateway) for a
 * classification, validates it in place, and returns a fixed fallback on any
 * failure. It never raises an error to its caller.
 */
module TaskClassification {
  import opened Wrappers
  import Gateway

  /** The parsed classification document; every field may be absent. */
  datatype Classification = Classification(
    serviceCategory: Option<string>,
    issueType: Option<string>,
    complexity: Option<string>,
    urgency: Option<string>,
    estimatedDurationHours: Option<real>,
    keyDetails: Option<seq<string>>,
    reasoning: Option<string>)

  /** The values `validateClassification` accepts for complexity and for urgency. */
  const Levels: seq<string> := ["Low", "Medium", "High"]
  const DefaultLevel: string := "Medium"
  const MissingPrefix: string := "Missing required fields: "

  predicate IsLevel(v: Option<string>)
  {
    v.Some? && v.value in Levels
  }

  /** A string field is truthy unless it is absent or empty. */
  predicate Truthy(v: Option<string>)
  {
    v.Some? && v.value != ""
  }

  predicate HasRequiredFields(c: Classification)
  {
    Truthy(c.serviceCategory) && Truthy(c.issueType) && Truthy(c.complexity) && Truthy(c.urgency)
  }

  /** The names of the required fields that are falsy, in the order they are checked. */
  function MissingFields(c: Classification): seq<string>
  {
    (if Truthy(c.serviceCategory) then [] else ["service_category"])
    + (if Truthy(c.issueType) then [] else ["issue_type"])
    + (if Truthy(c.complexity) then [] else ["complexity"])
    + (if Truthy(c.urgency) then [] else ["urgency"])
  }

  /** `missing.join(sep)`. */
  function Join(xs: seq<string>, sep: string): string
  {
    if |xs| == 0 then "" else if |xs| == 1 then xs[0] else xs[0] + sep + Join(xs[1..], sep)
  }

  function NormalisedLevel(v: Option<string>): Option<string>
  {
    if IsLevel(v) then v else Some(DefaultLevel)
  }

  /** What `validateClassification` leaves in the object, or the error it throws. */
  function Validated(c: Classification): (r: Result<Classification, string>)
    ensures r.Failure? <==> !HasRequiredFields(c)
    ensures r.Failure? ==> r.error == MissingPrefix + Join(MissingFields(c), ", ")
    ensures r.Success? ==> IsLevel(r.value.complexity) && IsLevel(r.value.urgency)
    ensures r.Success? ==> (IsLevel(c.complexity) ==> r.value.complexity == c.complexity)
    ensures r.Success? ==> (!IsLevel(c.complexity) ==> r.value.complexity == Some(DefaultLevel))
    ensures r.Success? ==> (IsLevel(c.urgency) ==> r.value.urgency == c.urgency)
    ensures r.Success? ==> (!IsLevel(c.urgency) ==> r.value.urgency == Some(DefaultLevel))
    ensures r.Success? ==> r.value == c.(complexity := r.value.complexity, urgency := r.value.urgency)
  {
    var missing := MissingFields(c);
    if |missing| > 0 then Failure(MissingPrefix + Join(missing, ", "))
    else Success(c.(complexity := NormalisedLevel(c.complexity), urgency := NormalisedLevel(c.urgency)))
  }

  /** The classification returned when the model path fails. */
  const Fallback: Classification := Classification(
    Some("General Service"),
    Some("Service request"),
    Some("Medium"),
    Some("Medium"),
    Some(2.0),
    Some(["Manual classification needed"]),
    Some("AI classification unavailable, using fallback"))

  /** The try/fallback shape of `classifyTask`, given what the gateway returned or threw. */
  function Classified(gateway: Result<Classification, string>): (c: Classification)
    ensures IsLevel(c.complexity) && IsLevel(c.urgency) && HasRequiredFields(c)
    ensures gateway.Failure? ==> c == Fallback
    ensures gateway.Success? ==> c == if HasRequiredFields(gateway.value) then Validated(gateway.value).value else Fallback
  {
    if gateway.Success? && Validated(gateway.value).Success? then Validated(gateway.value).value else Fallback
  }

  /** The parsed object `validateClassification` works on in place. */
  class ClassificationDoc {
    var serviceCategory: Option<string>
    var issueType: Option<string>
    var complexity: Option<string>
    var urgency: Option<string>
    var estimatedDurationHours: Option<real>
    var keyDetails: Option<seq<string>>
    var reasoning: Option<string>

    function Value(): Classification
      reads this
    {
      Classification(serviceCategory, issueType, complexity, urgency, estimatedDurationHours, keyDetails, reasoning)
    }

    constructor (c: Classification)
      ensures Value() == c
    {
      serviceCategory, issueType, complexity, urgency := c.serviceCategory, c.issueType, c.complexity, c.urgency;
      estimatedDurationHours, keyDetails, reasoning := c.estimatedDurationHours, c.keyDetails, c.reasoning;
    }

    /** `validateClassification`: throws when a required field is falsy, otherwise normalises complexity and urgency. */
    method Validate() returns (r: Outcome<string>)
      modifies this
      ensures r.Fail? <==> Validated(old(Value())).Failure?
      ensures r.Fail? ==> r.error == Validated(old(Value())).error && Value() == old(Value())
      ensures r.Pass? ==> Value() == Validated(old(Value())).value
    {
      var missing := MissingFields(Value());
      if |missing| > 0 {
        return Fail(MissingPrefix + Join(missing, ", "));
      }
      if complexity.None? || complexity.value !in Levels {
        complexity := Some(DefaultLevel);
      }
      if urgency.None? || urgency.value !in Levels {
        urgency := Some(DefaultLevel);
      }
      r := Pass;
    }
  }

  /** `classifyTask`: the validated model answer, or the fallback; never an error. */
  method ClassifyTask(reply: nat -> Gateway.Reply, parse: string -> Result<Classification, string>)
    returns (c: Classification)
    ensures c == Classified(Gateway.Outcome(reply, parse, Gateway.DefaultMaxRetries))
  {
    var answer, calls, delays := Gateway.GenerateJSON(reply, parse, Gateway.DefaultMaxRetries);
    if answer.Failure? {
      return Fallback;
    }
    var doc := new ClassificationDoc(answer.value);
    var valid := doc.Validate();
    if valid.Fail? {
      return Fallback;
    }
    c := doc.Value();
  }

  // Properties

  /** Validation is idempotent: a validated classification validates to itself. */
  lemma ValidateIdempotent(c: Classification)
    requires Validated(c).Success?
    ensures Validated(Validated(c).value) == Validated(c)
  {
  }

  /** The fallback passes its own validation unchanged. */
  lemma FallbackIsValid()
    ensures Validated(Fallback) == Success(Fallback)
  {
  }

  /** An empty string counts as missing: a classification with an empty issue type names exactly that field. */
  lemma EmptyStringIsMissing(c: Classification)
    requires Truthy(c.serviceCategory) && c.issueType == Some("") && Truthy(c.complexity) && Truthy(c.urgency)
    ensures Validated(c) == Failure("Missing required fields: issue_type")
  {
    assert MissingFields(c) == ["issue_type"];
    assert Validated(c).error == MissingPrefix + "issue_type";
    assert MissingPrefix + "issue_type" == "Missing required fields: issue_type";
  }

  /** Every falsy field is named, in order: an empty document lists all four. */
  lemma AllMissing()
    ensures Validated(Classification(None, None, None, None, None, None, None)).error
         == MissingPrefix + "service_category, issue_type, complexity, urgency"
  {
    var names := ["service_category", "issue_type", "complexity", "urgency"];
    assert MissingFields(Classification(None, None, None, None, None, None, None)) == names;
    assert Join(names[3..], ", ") == "urgency";
    assert Join(names[2..], ", ") == "complexity, urgency";
    assert Join(names[1..], ", ") == "issue_type, complexity, urgency";
  }
}
