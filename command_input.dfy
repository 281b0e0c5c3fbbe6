/**
 * What the generator commands read from the console input: the option values (an
 * option the user did not give and that has no default is absent, PHP's null), the
 * --no-tests flag and whether the input is interactive. Both commands start by
 * requiring some options to be present.
 */
module CommandInput {
  import opened Outcomes

  datatype Input = Input(options: map<string, string>, noTests: bool, interactive: bool)

  /** $input->getOption($name) */
  function GetOption(input: Input, name: string): Option<string>
  {
    if name in input.options then Some(input.options[name]) else None
  }

  function RequiredMessage(option: string): string
  {
    "The \"" + option + "\" option must be provided."
  }

  /** The first of the required options that is absent, if any. */
  function FirstMissing(required: seq<string>, options: map<string, string>): (m: Option<nat>)
    ensures m.None? <==> forall i :: 0 <= i < |required| ==> required[i] in options
    ensures m.Some? ==> m.value < |required| && required[m.value] !in options
    ensures m.Some? ==> forall i :: 0 <= i < m.value ==> required[i] in options
    decreases |required|
  {
    if required == [] then None
    else if required[0] !in options then Some(0)
    else
      match FirstMissing(required[1..], options)
      case None => None
      case Some(k) => Some(k + 1)
  }

  /** The foreach over the required options: a RuntimeException naming the first one
      that was not given. */
  function RequireOptions(required: seq<string>, options: map<string, string>): Outcome
  {
    match FirstMissing(required, options)
    case None => Pass
    case Some(k) => Fail(Runtime(RequiredMessage(required[k]), None))
  }

  /** The foreach over the required options, as the commands run it. */
  method CheckRequired(required: seq<string>, input: Input) returns (r: Outcome)
    ensures r == RequireOptions(required, input.options)
  {
    var i := 0;
    while i < |required|
      invariant 0 <= i <= |required|
      invariant forall j :: 0 <= j < i ==> required[j] in input.options
    {
      if GetOption(input, required[i]).None? {
        return Fail(Runtime(RequiredMessage(required[i]), None));
      }
      i := i + 1;
    }
    return Pass;
  }

  /** The required options pass exactly when all are present; otherwise the exception
      names the first one missing. */
  lemma RequireOptionsOutcome(required: seq<string>, options: map<string, string>)
    ensures RequireOptions(required, options).Pass? <==> forall i :: 0 <= i < |required| ==> required[i] in options
    ensures RequireOptions(required, options).Fail? ==>
      exists k :: 0 <= k < |required| && required[k] !in options
               && (forall i :: 0 <= i < k ==> required[i] in options)
               && RequireOptions(required, options).error == Runtime(RequiredMessage(required[k]), None)
  {
    var m := FirstMissing(required, options);
    if m.Some? {
      assert required[m.value] !in options;
    }
  }
}
