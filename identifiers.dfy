/** Validation of transformer ids and names. */
module Identifiers {
  import opened Wrappers
  import opened Failures

  /** The characters an id may hold: digits, lower-case ASCII letters, '-', '.' and '_'. */
  predicate IsIdChar(c: char)
  {
    ('0' <= c <= '9') || ('a' <= c <= 'z') || c == '-' || c == '.' || c == '_'
  }

  /** Reference definition of a legal id: non-empty and made only of id characters. */
  predicate IsLegalId(s: string)
  {
    |s| > 0 && forall i :: 0 <= i < |s| ==> IsIdChar(s[i])
  }

  /** The search for the negated character class `[^0-9a-z\-._]`: the first index at or after
      `from` whose character is not an id character, if there is one. */
  function FindIllegal(s: string, from: nat): (r: Option<nat>)
    requires from <= |s|
    ensures r.Some? ==> from <= r.value < |s| && !IsIdChar(s[r.value])
    ensures r.Some? ==> forall k :: from <= k < r.value ==> IsIdChar(s[k])
    ensures r.None? <==> forall k :: from <= k < |s| ==> IsIdChar(s[k])
    decreases |s| - from
  {
    if from == |s| then None
    else if !IsIdChar(s[from]) then Some(from)
    else FindIllegal(s, from + 1)
  }

  /** checkLegalId: a null or empty id is refused first; then any illegal character refuses it. */
  function CheckLegalId(request: Option<string>): (r: Outcome<Error>)
    ensures r.Pass? <==> request.Some? && IsLegalId(request.value)
    ensures r == Fail(EmptyId) <==> request.None? || request.value == []
    ensures r == Fail(IllegalIdCharacter) <==>
              request.Some? && request.value != [] &&
              exists i :: 0 <= i < |request.value| && !IsIdChar(request.value[i])
    ensures r.Fail? ==> r.error == EmptyId || r.error == IllegalIdCharacter
  {
    if request.None? || |request.value| == 0 then Fail(EmptyId)
    else if FindIllegal(request.value, 0).Some? then Fail(IllegalIdCharacter)
    else Pass
  }

  /** checkLegalName: only a null or empty name is refused. */
  function CheckLegalName(request: Option<string>): (r: Outcome<Error>)
    ensures r.Pass? <==> request.Some? && |request.value| > 0
    ensures r.Fail? ==> r.error == EmptyName
  {
    if request.None? || |request.value| == 0 then Fail(EmptyName) else Pass
  }

  /** A single illegal character anywhere in an otherwise legal id refuses it. */
  lemma {:induction false} OneIllegalCharacterRefuses(prefix: string, c: char, suffix: string)
    requires !IsIdChar(c)
    ensures CheckLegalId(Some(prefix + [c] + suffix)) == Fail(IllegalIdCharacter)
  {
    var s := prefix + [c] + suffix;
    assert s[|prefix|] == c;
  }

  /** Two sample ids: one with upper-case letters, which is refused, and one using each allowed
      punctuation character, which is accepted. */
  lemma ExampleIds()
    ensures CheckLegalId(Some("My.Transformer")) == Fail(IllegalIdCharacter)
    ensures CheckLegalId(Some("my-transformer_v2.0")) == Pass
  {
  }
}
