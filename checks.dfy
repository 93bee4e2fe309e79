/** The validation chains of the screens are Kotlin `when { … }` blocks whose
    branches test, in a fixed order, for a field that is wrong; the first
    branch that fires sets the error message and the `else` branch proceeds.
    A chain is modelled as a sequence of checks, each the condition the field
    must meet and the message shown when it does not. */
module Checks {
  import opened KotlinText

  datatype Check = Check(holds: bool, message: string)

  /** The position of the first check that fails, or `|checks|` when all hold. */
  function FirstFailure(checks: seq<Check>): (k: nat)
    ensures k <= |checks|
    ensures forall i :: 0 <= i < k ==> checks[i].holds
    ensures k < |checks| ==> !checks[k].holds
  {
    if checks == [] then 0
    else if !checks[0].holds then 0
    else 1 + FirstFailure(checks[1..])
  }

  /** What the `when` block leaves in the screen's error message: nothing when
      every check holds, otherwise the message of the earliest failing check. */
  function Verdict(checks: seq<Check>): (r: Option<string>)
    ensures r == None <==> forall i :: 0 <= i < |checks| ==> checks[i].holds
    ensures r.Some? ==>
      exists k :: (0 <= k < |checks| && !checks[k].holds && r.value == checks[k].message
                   && forall i :: 0 <= i < k ==> checks[i].holds)
  {
    var k := FirstFailure(checks);
    if k < |checks| then Some(checks[k].message) else None
  }

  /** A check that fails decides the verdict when every check before it holds,
      whatever the checks after it say. */
  lemma FailureDecides(checks: seq<Check>, k: nat)
    requires k < |checks| && !checks[k].holds
    requires forall i :: 0 <= i < k ==> checks[i].holds
    ensures Verdict(checks) == Some(checks[k].message)
  {
  }
}
