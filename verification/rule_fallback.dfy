/**
 * `applyRuleFallback` of components/mail/MailCard.tsx, the local stand-in for
 * the server's tone transformation: every full stop becomes a tilde. The
 * development mock of `sendEmail` applies the same three replacements.
 */
module RuleFallback {

  /** The replacement for one character: '.' becomes '~'; '!' and '?' are replaced by themselves. */
  function FallbackChar(c: char): char {
    if c == '.' then '~' else c
  }

  /** `text.replace(/\./g, "~").replace(/!/g, "!").replace(/\?/g, "?")`. */
  function ApplyRuleFallback(text: string): (r: string)
    ensures |r| == |text|
    ensures forall i | 0 <= i < |text| :: r[i] == (if text[i] == '.' then '~' else text[i])
  {
    if text == [] then [] else [FallbackChar(text[0])] + ApplyRuleFallback(text[1..])
  }

  /** No full stop survives the fallback, and every other character is left where it was. */
  lemma FallbackRemovesDots(text: string)
    ensures '.' !in ApplyRuleFallback(text)
    ensures forall i | 0 <= i < |text| :: text[i] != '.' ==> ApplyRuleFallback(text)[i] == text[i]
  {
    var r := ApplyRuleFallback(text);
    forall i | 0 <= i < |r|
      ensures r[i] != '.'
    {
    }
  }

  /** Applying the fallback twice is the same as applying it once. */
  lemma FallbackIdempotent(text: string)
    ensures ApplyRuleFallback(ApplyRuleFallback(text)) == ApplyRuleFallback(text)
  {
    var r := ApplyRuleFallback(text);
    var rr := ApplyRuleFallback(r);
    assert forall i | 0 <= i < |r| :: rr[i] == r[i];
  }

  /** The fallback works character by character, so it distributes over concatenation. */
  lemma FallbackAppend(a: string, b: string)
    ensures ApplyRuleFallback(a + b) == ApplyRuleFallback(a) + ApplyRuleFallback(b)
  {
    var l := ApplyRuleFallback(a + b);
    var r := ApplyRuleFallback(a) + ApplyRuleFallback(b);
    assert forall i | 0 <= i < |l| :: l[i] == r[i];
  }

  /** A text without full stops is its own fallback. */
  lemma FallbackFixesDotFree(text: string)
    requires '.' !in text
    ensures ApplyRuleFallback(text) == text
  {
    var r := ApplyRuleFallback(text);
    assert forall i | 0 <= i < |text| :: r[i] == text[i];
  }
}
