/**
 * The two regular expressions of the client: the channel-name check
 * `is_valid_channel_name` (pattern `^[#][^\s,]+$`) and the SSID-stripping
 * `base_call`, the leading match of `^[A-Z0-9]+` on the callsign.
 */
module Validation {
  import opened Text
  import opened Wrappers

  /** A character of the class `[^\s,]`. */
  predicate ChannelChar(c: char) {
    !IsSpace(c) && c != ','
  }

  /** How many characters of the class `[^\s,]` start at position `i`. */
  function ChannelRun(s: string, i: nat): (k: nat)
    requires i <= |s|
    decreases |s| - i
    ensures i + k <= |s|
    ensures forall j :: i <= j < i + k ==> ChannelChar(s[j])
    ensures i + k < |s| ==> !ChannelChar(s[i + k])
  {
    if i < |s| && ChannelChar(s[i]) then 1 + ChannelRun(s, i + 1) else 0
  }

  /** The anchor `$` of Python's `re`: at the end of the string, or just in
      front of a newline that ends it. */
  predicate AtEnd(s: string, i: nat) {
    i == |s| || (i + 1 == |s| && s[i] == '\n')
  }

  /** `is_valid_channel_name`: `re.match(r'^[#][^\s,]+$', s)`.  A `#`, the
      longest run of `[^\s,]` after it, which must not be empty, then `$`.
      Backtracking to a shorter run cannot succeed, because it would stop in
      front of a `[^\s,]` character, where `$` does not match. */
  function IsValidChannelName(s: string): (b: bool)
    ensures b ==> |s| >= 2 && s[0] == '#'
    ensures b ==> forall j :: 1 <= j < |s| ==> ChannelChar(s[j]) || (j == |s| - 1 && s[j] == '\n')
  {
    |s| >= 1 && s[0] == '#' && var k := ChannelRun(s, 1); k >= 1 && AtEnd(s, 1 + k)
  }

  /** When every character from `i` on is in the class, the run reaches the end. */
  lemma {:induction false} ChannelRunToEnd(s: string, i: nat)
    requires i <= |s| && forall j :: i <= j < |s| ==> ChannelChar(s[j])
    decreases |s| - i
    ensures ChannelRun(s, i) == |s| - i
  {
    if i < |s| {
      ChannelRunToEnd(s, i + 1);
    }
  }

  /** On a string without trailing whitespace (the client strips its input) a
      name is valid exactly when it is `#` followed by one or more characters,
      none of them whitespace or a comma. */
  lemma ValidChannelNameExactly(s: string)
    requires s == [] || !IsSpace(s[|s| - 1])
    ensures IsValidChannelName(s) <==>
              (|s| >= 2 && s[0] == '#' && forall j :: 1 <= j < |s| ==> ChannelChar(s[j]))
  {
    if |s| >= 2 && s[0] == '#' && forall j :: 1 <= j < |s| ==> ChannelChar(s[j]) {
      ChannelRunToEnd(s, 1);
    }
  }

  /** The docstring also names `&`, but the pattern only admits `#`. */
  lemma AmpersandNameRejected(s: string)
    requires |s| >= 1 && s[0] == '&'
    ensures !IsValidChannelName(s)
  {
  }

  /** Because of `$`, one trailing newline is accepted; stripped input never has one. */
  lemma TrailingNewlineAccepted()
    ensures IsValidChannelName("#packet\n")
    ensures !IsValidChannelName("#packet\n\n")
    ensures !IsValidChannelName("#")
    ensures !IsValidChannelName("#a,b")
  {
    assert ChannelRun("#packet\n", 7) == 0;
    assert ChannelRun("#packet\n\n", 7) == 0;
    assert ChannelRun("#a,b", 2) == 0;
  }

  /** A character of the class `[A-Z0-9]`. */
  predicate CallChar(c: char) {
    'A' <= c <= 'Z' || '0' <= c <= '9'
  }

  /** How many characters of the class `[A-Z0-9]` start at position `i`. */
  function CallRun(s: string, i: nat): (k: nat)
    requires i <= |s|
    decreases |s| - i
    ensures i + k <= |s|
    ensures forall j :: i <= j < i + k ==> CallChar(s[j])
    ensures i + k < |s| ==> !CallChar(s[i + k])
  {
    if i < |s| && CallChar(s[i]) then 1 + CallRun(s, i + 1) else 0
  }

  /** `base_call`: `re.match(r'^[A-Z0-9]+', callsign).group()`, the longest
      prefix of upper-case letters and digits.  When the callsign does not
      start with one, `re.match` gives `None` (and `.group()` then raises). */
  function BaseCall(callsign: string): (r: Option<string>)
    ensures r.None? <==> (callsign == [] || !CallChar(callsign[0]))
    ensures r.Some? ==> r.value != [] && StartsWith(callsign, r.value)
    ensures r.Some? ==> forall j :: 0 <= j < |r.value| ==> CallChar(r.value[j])
    ensures r.Some? ==> |r.value| == |callsign| || !CallChar(callsign[|r.value|])
  {
    var k := CallRun(callsign, 0);
    if k == 0 then None else Some(callsign[..k])
  }

  /** The SSID after the base call is dropped: "N0CALL-7" gives "N0CALL". */
  lemma BaseCallDropsSsid()
    ensures BaseCall("N0CALL-7") == Some("N0CALL")
  {
    var s := "N0CALL-7";
    assert CallRun(s, 6) == 0;
    assert CallRun(s, 4) == 2;
    assert CallRun(s, 2) == 4;
    assert CallRun(s, 0) == 6;
    assert s[..6] == "N0CALL";
  }
}
