/**
 * The registration check of the signup page (`signup_page`, app.py): the
 * username is stripped of surrounding whitespace, then three rules are tried in
 * order and the first that fails decides the message.
 */
module Signup {

  /** Whitespace as Python's `str.isspace` defines it. */
  predicate IsSpace(c: char)
  {
    || ('\t' <= c <= '\r')
    || ('\U{1C}' <= c <= ' ')
    || c == '\U{85}' || c == '\U{A0}' || c == '\U{1680}'
    || ('\U{2000}' <= c <= '\U{200A}')
    || c == '\U{2028}' || c == '\U{2029}' || c == '\U{202F}' || c == '\U{205F}' || c == '\U{3000}'
  }

  /** The index of the first non-whitespace character at or after `i`, or `|s|`. */
  function SkipSpaces(s: string, i: nat): (k: nat)
    requires i <= |s|
    ensures i <= k <= |s|
    ensures forall j :: i <= j < k ==> IsSpace(s[j])
    ensures k < |s| ==> !IsSpace(s[k])
    decreases |s| - i
  {
    if i < |s| && IsSpace(s[i]) then SkipSpaces(s, i + 1) else i
  }

  /** The end of `s` once the whitespace before end `e` (and after `k`) is dropped. */
  function TrimEnd(s: string, k: nat, e: nat): (f: nat)
    requires k <= e <= |s|
    ensures k <= f <= e
    ensures forall j :: f <= j < e ==> IsSpace(s[j])
    ensures k < f ==> !IsSpace(s[f - 1])
  {
    if k < e && IsSpace(s[e - 1]) then TrimEnd(s, k, e - 1) else e
  }

  /** `str.strip()`: whitespace removed at both ends. */
  function Strip(s: string): (r: string)
    ensures r == [] <==> forall i :: 0 <= i < |s| ==> IsSpace(s[i])
    ensures r != [] ==> !IsSpace(r[0]) && !IsSpace(r[|r| - 1])
    ensures exists k :: StrippedAt(s, r, k)
  {
    var k := SkipSpaces(s, 0);
    var f := TrimEnd(s, k, |s|);
    assert StrippedAt(s, s[k..f], k);
    s[k..f]
  }

  /** `r` is the part of `s` that starts at `k`, with only whitespace around it. */
  predicate StrippedAt(s: string, r: string, k: nat)
  {
    && k + |r| <= |s|
    && s[k..k + |r|] == r
    && (forall i :: 0 <= i < k ==> IsSpace(s[i]))
    && (forall i :: k + |r| <= i < |s| ==> IsSpace(s[i]))
  }

  /** The verdict on one registration attempt. */
  datatype Verdict = MissingField | Mismatch | TooShort | Accepted

  /** The message the page shows for a refused attempt. */
  function Message(v: Verdict): (r: string)
    ensures r == "" <==> v == Accepted
  {
    match v
    case MissingField => "Please fill in all fields"
    case Mismatch => "Passwords do not match"
    case TooShort => "Password must be at least 6 characters"
    case Accepted => ""
  }

  /**
   * The rule chain, first failing rule wins: a blank field, then differing
   * passwords, then a password shorter than 6 characters.
   */
  function Validate(usernameInput: string, password: string, confirm: string): (v: Verdict)
    ensures v == MissingField <==> Strip(usernameInput) == [] || password == [] || confirm == []
    ensures v == Mismatch <==> Strip(usernameInput) != [] && password != [] && confirm != [] && password != confirm
    ensures v == TooShort <==> Strip(usernameInput) != [] && password != [] && password == confirm && |password| < 6
    ensures v == Accepted <==> Strip(usernameInput) != [] && password == confirm && |password| >= 6
  {
    var username := Strip(usernameInput);
    if username == [] || password == [] || confirm == [] then MissingField
    else if password != confirm then Mismatch
    else if |password| < 6 then TooShort
    else Accepted
  }

  /** A username of whitespace only counts as a blank field, whatever the passwords. */
  lemma BlankUsernameRefused(usernameInput: string, password: string, confirm: string)
    requires forall i :: 0 <= i < |usernameInput| ==> IsSpace(usernameInput[i])
    ensures Validate(usernameInput, password, confirm) == MissingField
  {
  }

  /** Leading whitespace in the username never changes the verdict. */
  lemma LeadingSpaceIgnored(c: char, usernameInput: string, password: string, confirm: string)
    requires IsSpace(c)
    ensures Validate([c] + usernameInput, password, confirm) == Validate(usernameInput, password, confirm)
  {
    assert ([c] + usernameInput)[1..] == usernameInput;
  }

  /**
   * The signup form shows an error exactly when the input is refused, and the
   * three refusals show three different messages.
   */
  lemma MessageShown(usernameInput: string, password: string, confirm: string)
    ensures var v := Validate(usernameInput, password, confirm);
            Message(v) == "" <==> Strip(usernameInput) != [] && password == confirm && |password| >= 6
    ensures forall v, w :: Message(v) == Message(w) ==> v == w
  {
  }
}
