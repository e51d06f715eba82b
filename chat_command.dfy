/**
 * The chat-command recogniser the extension runs on every outgoing hub and
 * private message. It answers `/help` with the help text and turns
 * `/rvalidator scan` into a request for a full share scan.
 */
module ChatCommand {
  import opened Wrappers

  /** `p` occurs in `s` starting at index `j`. */
  predicate OccursAt(s: string, p: string, j: int)
  {
    0 <= j && j + |p| <= |s| && s[j..j + |p|] == p
  }

  /**
   * The first index at or after `from` where `p` occurs, or -1, counted in
   * characters. It plays the part of `s.indexOf(p, from)` for `from <= |s|`;
   * JavaScript counts UTF-16 code units instead and clamps a larger `from` to
   * the length, neither of which is modelled. `IndexOf` always starts at 0.
   */
  function IndexOfFrom(s: string, p: string, from: nat): (r: int)
    decreases |s| - from
    ensures r == -1 || (from <= r && OccursAt(s, p, r))
    ensures forall j :: from <= j && (r == -1 || j < r) ==> !OccursAt(s, p, j)
  {
    if from + |p| > |s| then -1
    else if s[from..from + |p|] == p then from
    else IndexOfFrom(s, p, from + 1)
  }

  /**
   * The first occurrence of `p` in `s`, counted in characters, or -1; it stands
   * for `s.indexOf(p)` and is 0 exactly when `p` is a prefix of `s`.
   */
  function IndexOf(s: string, p: string): (r: int)
    ensures r == -1 || OccursAt(s, p, r)
    ensures forall j :: 0 <= j && (r == -1 || j < r) ==> !OccursAt(s, p, j)
    ensures r == 0 <==> p <= s
  {
    var r := IndexOfFrom(s, p, 0);
    assert OccursAt(s, p, 0) <==> p <= s;
    r
  }

  const HelpCommand := "/help"
  const ScanCommand := "/rvalidator scan"
  const HelpText := "\n\n\tRelease validator commands\n\n\t/rvalidator scan - Scan the entire share for invalid content\n\n\t\t\t"

  /** What the recogniser does with one message text: the status text it returns (null when None) and whether it started a share scan. */
  datatype Outcome = Outcome(reply: Option<string>, scanRequested: bool)

  /** `checkChatCommand`, with its call of `runners.scanShare()` returned as `scanRequested`. */
  function Recognise(text: string): (r: Outcome)
    ensures |text| == 0 || text[0] != '/' ==> r == Outcome(None, false)
    ensures r.reply.Some? <==> HelpCommand <= text
    ensures r.reply.Some? ==> r.reply.value == HelpText
    ensures r.scanRequested <==> ScanCommand <= text
    ensures !(r.reply.Some? && r.scanRequested)
    ensures !(HelpCommand <= text) && !(ScanCommand <= text) ==> r == Outcome(None, false)
  {
    if |text| == 0 || text[0] != '/' then Outcome(None, false)
    else if IndexOf(text, HelpCommand) == 0 then
      // The two commands part at their second character, so text cannot start with both.
      assert text[1] == HelpCommand[1] != ScanCommand[1];
      Outcome(Some(HelpText), false)
    else if IndexOf(text, ScanCommand) == 0 then Outcome(None, true)
    else Outcome(None, false)
  }

  /** The scan command is recognised by prefix, so a longer word after `scan` still starts a scan. */
  lemma LongerScanCommand()
    ensures Recognise("/rvalidator scanner") == Outcome(None, true)
    ensures Recognise("/rvalidator") == Outcome(None, false)
    ensures Recognise("/helpme") == Outcome(Some(HelpText), false)
    ensures Recognise(" /help") == Outcome(None, false)
  {
  }
}
