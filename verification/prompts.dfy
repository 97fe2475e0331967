/** The prompt shortening used in log lines (`satitize_prompt`).

    The legacy client only turns newlines into spaces; the worker also cuts the
    prompt to `length` characters, the last three of which are "...".
    Python's `s[:k]` counts a negative `k` from the end, which the model keeps. */
module Prompts {

  /** `prompt.replace("\n", " ")`. */
  function FlattenNewlines(prompt: string): (r: string)
    ensures |r| == |prompt|
    ensures forall i :: 0 <= i < |r| ==> r[i] == (if prompt[i] == '\n' then ' ' else prompt[i])
  {
    if prompt == [] then []
    else [if prompt[0] == '\n' then ' ' else prompt[0]] + FlattenNewlines(prompt[1..])
  }

  /** Python's `s[:k]` for any integer `k`. */
  function SliceTo(s: string, k: int): (r: string)
    ensures |r| == if k >= 0 then (if k < |s| then k else |s|)
                   else (if |s| + k > 0 then |s| + k else 0)
    ensures r <= s
  {
    if k >= 0 then (if k < |s| then s[..k] else s)
    else (if |s| + k > 0 then s[..|s| + k] else [])
  }

  /** The worker's `satitize_prompt(prompt, length=50)`. */
  function Sanitize(prompt: string, length: int := 50): (r: string)
  {
    var flat := FlattenNewlines(prompt);
    if |flat| < length - 3 then flat else SliceTo(flat, length - 3) + "..."
  }

  /** The flattened prompt never holds a newline, and every other character stays. */
  lemma FlattenNewlinesSpec(prompt: string)
    ensures '\n' !in FlattenNewlines(prompt)
    ensures forall i :: 0 <= i < |prompt| && prompt[i] != '\n' ==> FlattenNewlines(prompt)[i] == prompt[i]
    ensures '\n' !in prompt ==> FlattenNewlines(prompt) == prompt
  {
    var r := FlattenNewlines(prompt);
    assert forall i :: 0 <= i < |r| ==> r[i] != '\n';
  }

  /** Whatever the length, the result holds no newline. */
  lemma SanitizeHasNoNewline(prompt: string, length: int)
    ensures '\n' !in Sanitize(prompt, length)
  {
    var flat := FlattenNewlines(prompt);
    FlattenNewlinesSpec(prompt);
    var r := Sanitize(prompt, length);
    if |flat| >= length - 3 {
      var cut := SliceTo(flat, length - 3);
      assert r == cut + "...";
      assert forall i :: 0 <= i < |cut| ==> cut[i] == flat[i];
      assert forall i :: 0 <= i < |r| ==> r[i] != '\n';
    }
  }

  /** A flattened prompt shorter than `length - 3` comes back unchanged. */
  lemma SanitizeShort(prompt: string, length: int)
    requires |prompt| < length - 3
    ensures Sanitize(prompt, length) == FlattenNewlines(prompt)
    ensures '\n' !in prompt ==> Sanitize(prompt, length) == prompt
  {
    FlattenNewlinesSpec(prompt);
  }

  /** Otherwise, for `length >= 3`, it is cut to exactly `length` characters:
      the first `length - 3` flattened ones and "...". */
  lemma SanitizeLong(prompt: string, length: int)
    requires length >= 3 && |prompt| >= length - 3
    ensures |Sanitize(prompt, length)| == length
    ensures Sanitize(prompt, length) == FlattenNewlines(prompt)[..length - 3] + "..."
    ensures Sanitize(prompt, length)[length - 3..] == "..."
  {
  }

  /** Below 3 the slice bound is negative and counts from the end, so the
      result is longer than `length`: all but `3 - length` flattened
      characters, then "...". */
  lemma SanitizeNegativeBound(prompt: string, length: int)
    requires length < 3
    ensures |Sanitize(prompt, length)| == (if |prompt| + length - 3 > 0 then |prompt| + length - 3 else 0) + 3
  {
  }

  /** With the default length of 50, the result is at most 50 characters. */
  lemma SanitizeDefaultBound(prompt: string)
    ensures |Sanitize(prompt)| <= 50
    ensures |prompt| >= 47 ==> |Sanitize(prompt)| == 50
  {
    if |prompt| >= 47 {
      SanitizeLong(prompt, 50);
    }
  }

  /** Shortening an already shortened prompt changes nothing (for `length >= 3`). */
  lemma SanitizeIdempotent(prompt: string, length: int)
    requires length >= 3
    ensures Sanitize(Sanitize(prompt, length), length) == Sanitize(prompt, length)
  {
    var r := Sanitize(prompt, length);
    SanitizeHasNoNewline(prompt, length);
    FlattenNewlinesSpec(r);
    if |FlattenNewlines(prompt)| >= length - 3 {
      SanitizeLong(prompt, length);
      SanitizeLong(r, length);
      assert r[..length - 3] == FlattenNewlines(prompt)[..length - 3];
    }
  }
}
