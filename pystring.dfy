/** The Python string operations the handlers rely on: `str.isspace` on one
    character, `str.strip()`, `str.startswith` and `str.split(sep, 1)`. */
module PyString {

  /** `c.isspace()`: the characters CPython treats as whitespace. */
  predicate IsSpace(c: char) {
    var n := c as int;
    || 9 <= n <= 13
    || 28 <= n <= 32
    || n == 0x85
    || n == 0xA0
    || n == 0x1680
    || 0x2000 <= n <= 0x200A
    || n == 0x2028
    || n == 0x2029
    || n == 0x202F
    || n == 0x205F
    || n == 0x3000
  }

  predicate AllSpace(s: string) {
    forall i :: 0 <= i < |s| ==> IsSpace(s[i])
  }

  /** The length of the whitespace run `s` starts with. */
  function LeadingSpace(s: string): (n: nat)
    ensures n <= |s|
    ensures forall i :: 0 <= i < n ==> IsSpace(s[i])
    ensures n < |s| ==> !IsSpace(s[n])
  {
    if s != [] && IsSpace(s[0]) then
      var n := 1 + LeadingSpace(s[1..]);
      assert forall i :: 1 <= i <= n && i < |s| ==> s[i] == s[1..][i - 1];
      n
    else 0
  }

  /** The length of the whitespace run `s` ends with. */
  function TrailingSpace(s: string): (n: nat)
    ensures n <= |s|
    ensures forall i :: |s| - n <= i < |s| ==> IsSpace(s[i])
    ensures n < |s| ==> !IsSpace(s[|s| - n - 1])
  {
    if s != [] && IsSpace(s[|s| - 1]) then
      var n := 1 + TrailingSpace(s[..|s| - 1]);
      assert forall i :: 0 <= i < |s| - 1 ==> s[i] == s[..|s| - 1][i];
      n
    else 0
  }

  /** `s.strip()`: `s` with its leading and trailing whitespace removed. The
      result is the piece of `s` that starts right after the leading
      whitespace run; everything after it is whitespace too; it is empty
      exactly when `s` is all whitespace, and otherwise it neither starts
      nor ends with whitespace. */
  function Strip(s: string): (r: string)
    ensures LeadingSpace(s) + |r| <= |s|
    ensures r == s[LeadingSpace(s)..LeadingSpace(s) + |r|]
    ensures forall i :: LeadingSpace(s) + |r| <= i < |s| ==> IsSpace(s[i])
    ensures r == [] <==> AllSpace(s)
    ensures r != [] ==> !IsSpace(r[0]) && !IsSpace(r[|r| - 1])
  {
    var lead := LeadingSpace(s);
    if lead == |s| then [] else s[lead..|s| - TrailingSpace(s)]
  }

  /** `s.startswith(p)`. */
  predicate StartsWith(s: string, p: string) {
    |p| <= |s| && s[..|p|] == p
  }

  /** `s.split(sep, 1)[1]`: the text after the first occurrence of `sep`. */
  function AfterFirst(s: string, sep: char): string
    requires sep in s
  {
    if s[0] == sep then s[1..] else AfterFirst(s[1..], sep)
  }

  /** After a prefix free of `sep`, the split happens at the separator that
      ends the prefix. */
  lemma {:induction false} AfterFirstPastPrefix(p: string, sep: char, rest: string)
    requires sep !in p
    ensures sep in p + [sep] + rest
    ensures AfterFirst(p + [sep] + rest, sep) == rest
  {
    var s := p + [sep] + rest;
    assert s[|p|] == sep;
    if p != [] {
      assert s[1..] == p[1..] + [sep] + rest;
      AfterFirstPastPrefix(p[1..], sep, rest);
    }
  }


  /** Stripping twice changes nothing more than stripping once. */
  lemma StripIdempotent(s: string)
    ensures Strip(Strip(s)) == Strip(s)
  {
    var r := Strip(s);
    if r != [] {
      assert LeadingSpace(r) == 0;
      assert TrailingSpace(r) == 0;
    }
  }

  lemma {:induction false} LeadingSpacePast(left: string, rest: string)
    requires AllSpace(left)
    requires rest == [] || !IsSpace(rest[0])
    ensures LeadingSpace(left + rest) == |left|
  {
    if left != [] {
      assert (left + rest)[1..] == left[1..] + rest;
      LeadingSpacePast(left[1..], rest);
    }
  }

  lemma {:induction false} TrailingSpacePast(rest: string, right: string)
    requires AllSpace(right)
    requires rest == [] || !IsSpace(rest[|rest| - 1])
    ensures TrailingSpace(rest + right) == |right|
  {
    if right != [] {
      var s := rest + right;
      assert s[..|s| - 1] == rest + right[..|right| - 1];
      TrailingSpacePast(rest, right[..|right| - 1]);
    }
  }

  /** Whitespace around a text that neither starts nor ends with whitespace
      is exactly what `strip()` removes. */
  lemma StripSurrounded(left: string, mid: string, right: string)
    requires AllSpace(left) && AllSpace(right)
    requires mid != [] && !IsSpace(mid[0]) && !IsSpace(mid[|mid| - 1])
    ensures Strip(left + mid + right) == mid
  {
    var s := left + mid + right;
    assert s == left + (mid + right);
    LeadingSpacePast(left, mid + right);
    TrailingSpacePast(left + mid, right);
    assert s[|left|..|s| - |right|] == mid;
  }
}
