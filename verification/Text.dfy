/** Python string operations that the compaction code relies on. */
module Text {
  const MARKER: string := "\n\U{2026} output truncated \U{2026}\n"

  /** The characters that `str.strip` removes. */
  predicate IsSpace(c: char) {
    var n := c as int;
    || 0x9 <= n <= 0xD
    || 0x1C <= n <= 0x20
    || n == 0x85 || n == 0xA0 || n == 0x1680
    || 0x2000 <= n <= 0x200A
    || n == 0x2028 || n == 0x2029 || n == 0x202F || n == 0x205F || n == 0x3000
  }

  function LStrip(s: string): (r: string)
    ensures |r| <= |s|
    ensures r != "" ==> !IsSpace(r[0])
  {
    if s == "" || !IsSpace(s[0]) then s else LStrip(s[1..])
  }

  function RStrip(s: string): (r: string)
    ensures r <= s
    ensures r != "" ==> !IsSpace(r[|r| - 1])
  {
    if s == "" || !IsSpace(s[|s| - 1]) then s else RStrip(s[..|s| - 1])
  }

  function Strip(s: string): (r: string)
    ensures |r| <= |s|
    ensures r != "" ==> !IsSpace(r[0]) && !IsSpace(r[|r| - 1])
  {
    RStrip(LStrip(s))
  }

  predicate Blank(s: string) {
    Strip(s) == ""
  }

  lemma {:induction false} StripFixed(s: string)
    requires s != "" ==> !IsSpace(s[0]) && !IsSpace(s[|s| - 1])
    ensures Strip(s) == s
  {
  }

  lemma {:induction false} StripIdempotent(s: string)
    ensures Strip(Strip(s)) == Strip(s)
  {
    StripFixed(Strip(s));
  }

  predicate StartsWith(s: string, prefix: string) {
    prefix <= s
  }

  /** `truncate_text`: keep a head and a tail around the marker. */
  function Truncate(text: string, limit: int): (r: string)
    ensures limit <= 0 || |text| <= limit ==> r == text
    ensures 0 < limit < |text| ==> |r| == limit
  {
    if limit <= 0 || |text| <= limit then text
    else if limit < |MARKER| + 20 then text[..limit]
    else
      var head := (limit - |MARKER|) * 2 / 3;
      var tail := limit - |MARKER| - head;
      text[..head] + MARKER + text[|text| - tail..]
  }

  /** `_tail`: keep the end of a diagnostic. */
  function Tail(value: string, limit: nat): (r: string)
    ensures |Strip(value)| <= limit ==> r == Strip(value)
  {
    var v := Strip(value);
    if |v| <= limit then v
    else "[diagnostic head omitted]\n" + v[|v| - limit..]
  }

  /** A long diagnostic keeps its end, after a note that its head is missing. */
  lemma {:induction false} TailKeepsTheEnd(value: string, limit: nat, before: string, end: string)
    requires Strip(value) == before + end && |end| == limit && before != ""
    ensures Tail(value, limit) == "[diagnostic head omitted]\n" + end
  {
    assert (before + end)[|before|..] == end;
  }

  /** A long text keeps two thirds of its room at the head and one third at the end, around the marker. */
  lemma {:induction false} TruncateKeepsBothEnds(text: string, limit: int)
    requires |MARKER| + 20 <= limit < |text|
    ensures
      var room := limit - |MARKER|;
      var head := room * 2 / 3;
      Truncate(text, limit) == text[..head] + "\n\U{2026} output truncated \U{2026}\n" + text[|text| - (room - head)..]
  {
  }

  lemma {:induction false} TailIsStripped(value: string, limit: nat)
    requires limit > 0
    ensures Strip(Tail(value, limit)) == Tail(value, limit)
    ensures Tail(value, limit) == "" <==> Blank(value)
  {
    StripFixed(Tail(value, limit));
  }
}
