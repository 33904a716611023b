/** The few JavaScript string operations the bot's message handler relies on,
    with their ECMAScript semantics written out for integer arguments. */
module JsString {
  import opened Wrappers

  /** `s.indexOf(c)` for a one-character search string: the index of the first
      occurrence of `c`, or -1 when there is none. */
  function IndexOf(s: string, c: char): (r: int)
    ensures -1 <= r < |s|
    ensures r == -1 <==> c !in s
    ensures 0 <= r ==> s[r] == c && c !in s[..r]
  {
    if |s| == 0 then -1
    else if s[0] == c then 0
    else
      var k := IndexOf(s[1..], c);
      assert s == [s[0]] + s[1..];
      if k < 0 then -1
      else
        assert s[..k + 1] == [s[0]] + s[1..][..k];
        k + 1
  }

  /** String.prototype.substring clamps each position into [0, len]. */
  function ClampIndex(i: int, len: nat): (r: nat)
    ensures r <= len
    ensures 0 <= i <= len ==> r == i
    ensures i < 0 ==> r == 0
    ensures i > len ==> r == len
  {
    if i < 0 then 0 else if i > len then len else i
  }

  /** `s.substring(start, end)`: both positions are clamped into [0, |s|] and,
      when they come out in the wrong order, swapped. */
  function Substring(s: string, start: int, end: int): (r: string)
    ensures 0 <= start <= end <= |s| ==> r == s[start..end]
    ensures end <= 0 && start <= 0 ==> r == ""
  {
    var a := ClampIndex(start, |s|);
    var b := ClampIndex(end, |s|);
    if a <= b then s[a..b] else s[b..a]
  }

  /** `s.substr(start)` with the length left out: a negative start counts back
      from the end (but not past the beginning); a start beyond the end gives "". */
  function Substr(s: string, start: int): (r: string)
    ensures 0 <= start <= |s| ==> r == s[start..]
    ensures start >= |s| ==> r == ""
    ensures |r| <= |s| && r == s[|s| - |r|..]
  {
    var from := if start < 0 then (if |s| + start < 0 then 0 else |s| + start)
                else if start > |s| then |s| else start;
    s[from..]
  }

  /** How a template literal `${v}` renders a property that may be undefined. */
  function Text(v: Option<string>): string {
    match v
    case Some(s) => s
    case None => "undefined"
  }

  /** JavaScript truthiness of a value that is either a string or undefined/null:
      only a non-empty string is truthy. */
  predicate Truthy(v: Option<string>) {
    v.Some? && v.value != ""
  }

  /** `substring` clamps both positions into [0, |s|] before reading, and
      the order of its two positions does not matter. */
  lemma SubstringClampsAndSwaps(s: string, start: int, end: int)
    ensures Substring(s, start, end) == Substring(s, ClampIndex(start, |s|), ClampIndex(end, |s|))
    ensures Substring(s, start, end) == Substring(s, end, start)
    ensures var a := ClampIndex(start, |s|);
      var b := ClampIndex(end, |s|);
      a <= b ==> Substring(s, start, end) == s[a..b]
  {
  }
}
