/** The JavaScript string operations the node uses: `join`, `split` on one
    character, `trim`, ASCII `toLowerCase` and prefix/suffix tests. */
module Text {

  /** `parts.join(sep)`; the empty list joins to "". */
  function Join(parts: seq<string>, sep: string): string
  {
    if |parts| == 0 then ""
    else if |parts| == 1 then parts[0]
    else parts[0] + sep + Join(parts[1..], sep)
  }

  /** Index of the first `c` in `s`, or `|s|` when there is none. */
  function FirstIndex(s: string, c: char): (i: nat)
    ensures i <= |s|
    ensures i < |s| ==> s[i] == c
    ensures forall j :: 0 <= j < i ==> s[j] != c
  {
    if |s| == 0 then 0
    else if s[0] == c then 0
    else 1 + FirstIndex(s[1..], c)
  }

  /** `s.split(c)` for a one-character separator: cut at every `c`; the
      string without any `c` (the empty string included) is one piece. */
  function Split(s: string, c: char): (r: seq<string>)
    ensures |r| >= 1
    ensures c in s ==> |r| >= 2
    decreases |s|
  {
    var i := FirstIndex(s, c);
    if i == |s| then [s] else [s[..i]] + Split(s[i + 1..], c)
  }

  lemma {:induction false} FirstIndexAfter(p: string, c: char, rest: string)
    requires c !in p
    ensures FirstIndex(p + [c] + rest, c) == |p|
  {
    if |p| > 0 {
      assert (p + [c] + rest)[1..] == p[1..] + [c] + rest;
      FirstIndexAfter(p[1..], c, rest);
    }
  }

  lemma {:induction false} FirstIndexNone(p: string, c: char)
    requires c !in p
    ensures FirstIndex(p, c) == |p|
  {
    if |p| > 0 {
      FirstIndexNone(p[1..], c);
    }
  }

  /** Splitting on a character undoes joining with it, when no part holds it. */
  lemma {:induction false} SplitJoin(parts: seq<string>, c: char)
    requires |parts| >= 1
    requires forall i :: 0 <= i < |parts| ==> c !in parts[i]
    ensures Split(Join(parts, [c]), c) == parts
  {
    if |parts| == 1 {
      FirstIndexNone(parts[0], c);
    } else {
      var rest := Join(parts[1..], [c]);
      assert Join(parts, [c]) == parts[0] + [c] + rest;
      FirstIndexAfter(parts[0], c, rest);
      var s := parts[0] + [c] + rest;
      assert s[..|parts[0]|] == parts[0];
      assert s[|parts[0]| + 1..] == rest;
      SplitJoin(parts[1..], c);
      assert parts == [parts[0]] + parts[1..];
    }
  }

  /** Prefixes `pad` to every part but the first. */
  function PadTail(parts: seq<string>, pad: string): (r: seq<string>)
    ensures |r| == |parts|
    ensures |parts| > 0 ==> r[0] == parts[0]
    ensures forall i :: 0 < i < |parts| ==> r[i] == pad + parts[i]
  {
    if |parts| == 0 then [] else [parts[0]] + seq(|parts| - 1, i requires 0 <= i < |parts| - 1 => pad + parts[i + 1])
  }

  /** Joining with `c` followed by `pad` is joining with `c` after padding the tail. */
  lemma {:induction false} JoinPadded(parts: seq<string>, c: char, pad: string)
    ensures Join(parts, [c] + pad) == Join(PadTail(parts, pad), [c])
  {
    if |parts| >= 2 {
      var tail := PadTail(parts, pad);
      JoinPadded(parts[1..], c, pad);
      var inner := PadTail(parts[1..], pad);
      // Join(parts[1..], [c] + pad) == Join(inner, [c]); step through the padding of inner[0].
      assert Join(parts, [c] + pad) == parts[0] + ([c] + pad) + Join(parts[1..], [c] + pad);
      assert tail[1..] == [pad + inner[0]] + inner[1..];
      if |parts| == 2 {
        assert Join(tail, [c]) == parts[0] + [c] + (pad + parts[1]);
      } else {
        assert Join(inner, [c]) == inner[0] + [c] + Join(inner[1..], [c]);
        assert Join(tail[1..], [c]) == (pad + inner[0]) + [c] + Join(inner[1..], [c]);
        assert Join(tail, [c]) == tail[0] + [c] + Join(tail[1..], [c]);
      }
    }
  }

  /** The characters JavaScript's `String.prototype.trim` removes:
      white space and line terminators. */
  predicate IsSpace(c: char)
  {
    c == ' ' || c == '\t' || c == '\n' || c == '\r' || c == '\U{B}' || c == '\U{C}'
    || c == '\U{A0}' || c == '\U{1680}' || ('\U{2000}' <= c <= '\U{200A}')
    || c == '\U{2028}' || c == '\U{2029}' || c == '\U{202F}' || c == '\U{205F}'
    || c == '\U{3000}' || c == '\U{FEFF}'
  }

  function TrimStart(s: string): (r: string)
    ensures |r| <= |s| && r == s[|s| - |r|..]
    ensures |r| > 0 ==> !IsSpace(r[0])
  {
    if |s| > 0 && IsSpace(s[0]) then TrimStart(s[1..]) else s
  }

  function TrimEnd(s: string): (r: string)
    ensures |r| <= |s| && r == s[..|r|]
    ensures |r| > 0 ==> !IsSpace(r[|r| - 1])
  {
    if |s| > 0 && IsSpace(s[|s| - 1]) then TrimEnd(s[..|s| - 1]) else s
  }

  /** `s.trim()` */
  function Trim(s: string): (r: string)
    ensures |r| > 0 ==> !IsSpace(r[0]) && !IsSpace(r[|r| - 1])
  {
    TrimEnd(TrimStart(s))
  }

  /** A string `trim` leaves alone: no white space at either end. */
  predicate Trimmed(s: string)
  {
    |s| > 0 ==> !IsSpace(s[0]) && !IsSpace(s[|s| - 1])
  }

  lemma {:induction false} TrimPadded(pad: string, s: string)
    requires forall i :: 0 <= i < |pad| ==> IsSpace(pad[i])
    requires Trimmed(s) && s != ""
    ensures Trim(pad + s) == s
  {
    if |pad| > 0 {
      assert (pad + s)[1..] == pad[1..] + s;
      TrimPadded(pad[1..], s);
    } else {
      assert pad + s == s;
    }
  }

  /** One character of JavaScript's `toLowerCase`, for the ASCII letters. */
  function LowerChar(c: char): char
  {
    if 'A' <= c <= 'Z' then (c as int + 32) as char else c
  }

  /** `s.toLowerCase()` restricted to ASCII case mapping. */
  function ToLower(s: string): (r: string)
    ensures |r| == |s|
    ensures forall i :: 0 <= i < |s| ==> r[i] == LowerChar(s[i])
  {
    seq(|s|, i requires 0 <= i < |s| => LowerChar(s[i]))
  }

  predicate StartsWith(s: string, prefix: string)
  {
    |prefix| <= |s| && s[..|prefix|] == prefix
  }

  predicate EndsWith(s: string, suffix: string)
  {
    |suffix| <= |s| && s[|s| - |suffix|..] == suffix
  }

  predicate IsDigit(c: char)
  {
    '0' <= c <= '9'
  }

  /** `String(n)` for a natural number: its decimal digits, the first not a
      zero unless the number is zero. */
  function DecimalString(n: nat): (r: string)
    ensures |r| > 0 && (r[0] == '0' <==> n == 0)
    ensures forall i :: 0 <= i < |r| ==> IsDigit(r[i])
  {
    if n < 10 then ["0123456789"[n]]
    else DecimalString(n / 10) + ["0123456789"[n % 10]]
  }
}
