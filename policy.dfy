/** The kind of a policy, checked against the fixed list of policy kinds. */
module Policies {
  import opened Wrappers

  const VALID_KINDS: seq<string> :=
    ["Company Policy", "Org Group Policy", "Data Asset Policy", "Product Policy",
     "Contract-Related Policy", "Company Controls Policy"]

  /**
   * `Policy.validate_kind`: an absent or empty kind is stored as absent, a valid kind is
   * stored unchanged, and any other kind is refused.
   */
  function ValidateKind(value: Option<string>): (r: Result<Option<string>>)
    ensures value.None? || value.value == "" ==> r == Success(None)
    ensures value.Some? && value.value in VALID_KINDS ==> r == Success(value)
    ensures r.Failure? <==> value.Some? && value.value != "" && value.value !in VALID_KINDS
  {
    if value.None? || value.value == "" then Success(None)
    else if value.value !in VALID_KINDS then Failure("Invalid value '" + value.value + "' for attribute Policy.kind.")
    else Success(value)
  }

  /** A stored kind passes the check again unchanged. */
  lemma ValidateKindIdempotent(value: Option<string>)
    requires ValidateKind(value).Success?
    ensures ValidateKind(ValidateKind(value).value) == ValidateKind(value)
  {
  }
}
