/** Text primitives that the Rust standard library supplies to the backend:
    `str::split_whitespace`, `[&str]::join`, `u64::from_str`, decimal formatting
    of integers and lower-casing. */
module Text {
  import opened Common

  /** Rust's `char::is_whitespace`: the Unicode White_Space property. */
  predicate IsWhitespace(c: char)
    ensures c as int < 128 ==> (IsWhitespace(c) <==> c == ' ' || '\t' <= c <= '\r')
  {
    ('\t' <= c <= '\r') || c == ' ' || c == '\U{0085}' || c == '\U{00A0}' ||
    c == '\U{1680}' || ('\U{2000}' <= c <= '\U{200A}') || c == '\U{2028}' ||
    c == '\U{2029}' || c == '\U{202F}' || c == '\U{205F}' || c == '\U{3000}'
  }

  /** A token of `split_whitespace`: non-empty and free of whitespace. */
  predicate IsToken(s: string)
  {
    s != [] && forall i :: 0 <= i < |s| ==> !IsWhitespace(s[i])
  }

  predicate AllTokens(ts: seq<string>)
  {
    forall k :: 0 <= k < |ts| ==> IsToken(ts[k])
  }

  /** The number of non-whitespace characters at the front of `s`. */
  function WordLength(s: string): (n: nat)
    ensures n <= |s|
    ensures forall i :: 0 <= i < n ==> !IsWhitespace(s[i])
    ensures n < |s| ==> IsWhitespace(s[n])
  {
    if s == [] || IsWhitespace(s[0]) then 0 else 1 + WordLength(s[1..])
  }

  /** `s.split_whitespace()`: the maximal runs of non-whitespace characters, in
      order. Leading whitespace is dropped one character at a time. */
  function Fields(s: string): (r: seq<string>)
    ensures AllTokens(r)
    ensures |r| <= |s|
    decreases |s|
  {
    if s == [] then []
    else if IsWhitespace(s[0]) then Fields(s[1..])
    else
      var n := WordLength(s);
      [s[..n]] + Fields(s[n..])
  }

  /** `parts.join(sep)`. */
  function JoinWith(parts: seq<string>, sep: string): (r: string)
    ensures parts != [] ==> IsPrefix(parts[0], r)
    ensures |parts| > 1 ==> IsPrefix(parts[0] + sep, r)
  {
    if parts == [] then ""
    else if |parts| == 1 then parts[0]
    else parts[0] + sep + JoinWith(parts[1..], sep)
  }

  /** Joining one more part adds the separator and the part at the end. */
  lemma {:induction false} JoinSnoc(parts: seq<string>, last: string, sep: string)
    requires parts != []
    ensures JoinWith(parts + [last], sep) == JoinWith(parts, sep) + sep + last
    decreases |parts|
  {
    var all := parts + [last];
    assert all[0] == parts[0] && all[1..] == parts[1..] + [last];
    if |parts| > 1 {
      JoinSnoc(parts[1..], last, sep);
    } else {
      assert all[1..] == [last];
    }
  }

  /** A string with no whitespace but single `' '` between non-blank characters:
      what `Fields(s).join(" ")` always produces. */
  predicate SingleSpaced(s: string)
  {
    && (forall i :: 0 <= i < |s| && IsWhitespace(s[i]) ==> s[i] == ' ')
    && (forall i :: 0 <= i < |s| && s[i] == ' ' ==> 0 < i < |s| - 1 && !IsWhitespace(s[i + 1]))
  }

  lemma {:induction false} WordOfTokenThenSpace(t: string, rest: string)
    requires IsToken(t)
    requires rest == [] || IsWhitespace(rest[0])
    ensures WordLength(t + rest) == |t|
    decreases |t|
  {
    if |t| > 1 {
      WordOfTokenThenSpace(t[1..], rest);
      assert (t + rest)[1..] == t[1..] + rest;
    } else {
      assert (t + rest)[1..] == rest;
    }
  }

  /** `s` with every whitespace character removed. */
  function NonWhitespace(s: string): string
  {
    if s == [] then []
    else (if IsWhitespace(s[0]) then [] else [s[0]]) + NonWhitespace(s[1..])
  }

  /** The parts written one after another. */
  function Concat(parts: seq<string>): string
  {
    if parts == [] then [] else parts[0] + Concat(parts[1..])
  }

  /** The number of words in `s`: the non-whitespace characters that start a
      run, that is, that come first or right after whitespace (`afterSpace` says
      whether the character before `s` is whitespace or there is none). */
  function WordStarts(s: string, afterSpace: bool): nat
  {
    if s == [] then 0
    else if IsWhitespace(s[0]) then WordStarts(s[1..], true)
    else (if afterSpace then 1 else 0) + WordStarts(s[1..], false)
  }

  /** Removing whitespace leaves a whitespace-free front of `s` in place. */
  lemma {:induction false} NonWhitespaceOfWord(s: string, n: nat)
    requires n <= |s|
    requires forall i :: 0 <= i < n ==> !IsWhitespace(s[i])
    ensures NonWhitespace(s) == s[..n] + NonWhitespace(s[n..])
  {
    if n > 0 {
      NonWhitespaceOfWord(s[1..], n - 1);
      assert s[1..][n - 1..] == s[n..];
      assert s[..n] == [s[0]] + s[1..][..n - 1];
    }
  }

  /** Inside a word no new word starts. */
  lemma {:induction false} WordStartsOfWord(s: string, n: nat)
    requires n <= |s|
    requires forall i :: 0 <= i < n ==> !IsWhitespace(s[i])
    ensures WordStarts(s, false) == WordStarts(s[n..], false)
  {
    if n > 0 {
      WordStartsOfWord(s[1..], n - 1);
      assert s[1..][n - 1..] == s[n..];
    }
  }

  /** No character is lost but whitespace: the fields, written one after
      another, are `s` without its whitespace. */
  lemma {:induction false} FieldsKeepText(s: string)
    ensures Concat(Fields(s)) == NonWhitespace(s)
    decreases |s|
  {
    if s != [] {
      if IsWhitespace(s[0]) {
        FieldsKeepText(s[1..]);
      } else {
        var n := WordLength(s);
        var rest := Fields(s[n..]);
        FieldsKeepText(s[n..]);
        assert ([s[..n]] + rest)[1..] == rest;
        NonWhitespaceOfWord(s, n);
      }
    }
  }

  /** Every field is a whole run: there are exactly as many fields as places
      where a word starts, so no run is split. */
  lemma {:induction false} FieldsCountWords(s: string)
    ensures |Fields(s)| == WordStarts(s, true)
    decreases |s|
  {
    if s != [] && !IsWhitespace(s[0]) {
      var n := WordLength(s);
      FieldsCountWords(s[n..]);
      WordStartsOfWord(s, n);
      assert WordStarts(s, true) == 1 + WordStarts(s, false);
    } else if s != [] {
      FieldsCountWords(s[1..]);
    }
  }

  /** `s` with every run of whitespace replaced by one space and the
      whitespace at both ends removed, read character by character: `started`
      says whether a non-whitespace character has been seen, `pending` whether
      whitespace has followed it since. */
  function Collapse(s: string, started: bool, pending: bool): string
  {
    if s == [] then []
    else if IsWhitespace(s[0]) then Collapse(s[1..], started, started)
    else (if pending then " " else "") + [s[0]] + Collapse(s[1..], true, false)
  }

  function Squeeze(s: string): string
  {
    Collapse(s, false, false)
  }

  /** A word at the front of `s` is copied unchanged. */
  lemma {:induction false} CollapseWord(s: string, n: nat, started: bool, pending: bool)
    requires 0 < n <= |s|
    requires forall i :: 0 <= i < n ==> !IsWhitespace(s[i])
    ensures Collapse(s, started, pending) == (if pending then " " else "") + s[..n] + Collapse(s[n..], true, false)
    decreases n
  {
    if n > 1 {
      CollapseWord(s[1..], n - 1, true, false);
      assert s[1..][n - 1..] == s[n..];
      assert s[..n] == [s[0]] + s[1..][..n - 1];
    }
  }

  /** Joining a part in front of others. */
  lemma JoinCons(w: string, parts: seq<string>, sep: string)
    ensures JoinWith([w] + parts, sep) == if parts == [] then w else w + sep + JoinWith(parts, sep)
  {
    assert ([w] + parts)[1..] == parts;
  }

  /** Collapsing after a word, with whitespace pending, puts one space before
      each later field. */
  lemma {:induction false} CollapseAfterWord(s: string)
    ensures Collapse(s, true, true) == if Fields(s) == [] then [] else " " + JoinWith(Fields(s), " ")
    decreases |s|
  {
    if s != [] {
      if IsWhitespace(s[0]) {
        CollapseAfterWord(s[1..]);
      } else {
        var n := WordLength(s);
        var word, rest := s[..n], s[n..];
        var join := JoinWith(Fields(rest), " ");
        assert Collapse(s, true, true) == " " + word + Collapse(rest, true, false) by {
          CollapseWord(s, n, true, true);
        }
        assert Collapse(rest, true, false) == Collapse(rest, true, true);
        CollapseAfterWord(rest);
        assert JoinWith(Fields(s), " ") == if Fields(rest) == [] then word else word + " " + join by {
          JoinCons(word, Fields(rest), " ");
        }
      }
    }
  }

  /** Joining the fields with single spaces is collapsing the whitespace of the
      line. Since the fields hold no whitespace, this fixes where every field
      starts and ends: the fields are the line's maximal runs of non-whitespace,
      in order. */
  lemma {:induction false} FieldsSqueeze(s: string)
    ensures JoinWith(Fields(s), " ") == Squeeze(s)
    decreases |s|
  {
    if s != [] {
      if IsWhitespace(s[0]) {
        FieldsSqueeze(s[1..]);
      } else {
        var n := WordLength(s);
        var word, rest := s[..n], s[n..];
        var join := JoinWith(Fields(rest), " ");
        assert Squeeze(s) == word + Collapse(rest, true, false) by {
          CollapseWord(s, n, false, false);
        }
        assert Collapse(rest, true, false) == Collapse(rest, true, true);
        CollapseAfterWord(rest);
        assert JoinWith(Fields(s), " ") == if Fields(rest) == [] then word else word + " " + join by {
          JoinCons(word, Fields(rest), " ");
        }
      }
    }
  }

  /** Splitting the single-space join of tokens gives the tokens back. */
  lemma {:induction false} FieldsOfJoin(ts: seq<string>)
    requires AllTokens(ts)
    ensures Fields(JoinWith(ts, " ")) == ts
  {
    if ts == [] {
    } else if |ts| == 1 {
      var t := ts[0];
      WordOfTokenThenSpace(t, []);
      assert t + [] == t;
      assert t[0..|t|] == t;
      assert t[|t|..] == [];
    } else {
      var t, rest := ts[0], JoinWith(ts[1..], " ");
      var s := t + (" " + rest);
      assert JoinWith(ts, " ") == s;
      WordOfTokenThenSpace(t, " " + rest);
      assert s[0..|t|] == t;
      assert s[|t|..] == [' '] + rest;
      assert Fields([' '] + rest) == Fields(rest) by {
        assert ([' '] + rest)[1..] == rest;
      }
      FieldsOfJoin(ts[1..]);
    }
  }

  /** The fields are the only split of a line into whitespace-free words whose
      single-space join is the line with its whitespace collapsed. */
  lemma FieldsUnique(s: string, ts: seq<string>)
    requires AllTokens(ts) && JoinWith(ts, " ") == Squeeze(s)
    ensures ts == Fields(s)
  {
    FieldsSqueeze(s);
    FieldsOfJoin(ts);
    FieldsOfJoin(Fields(s));
  }

  lemma {:induction false} JoinShape(ts: seq<string>)
    requires AllTokens(ts) && ts != []
    ensures var s := JoinWith(ts, " "); s != [] && s[0] == ts[0][0] && !IsWhitespace(s[|s| - 1])
  {
    if |ts| > 1 {
      JoinShape(ts[1..]);
    }
  }

  /** Joining tokens with single spaces collapses every run of whitespace. */
  lemma {:induction false} JoinIsSingleSpaced(ts: seq<string>)
    requires AllTokens(ts)
    ensures SingleSpaced(JoinWith(ts, " "))
  {
    if |ts| > 1 {
      var t, rest := ts[0], JoinWith(ts[1..], " ");
      JoinIsSingleSpaced(ts[1..]);
      JoinShape(ts[1..]);
      var s := t + " " + rest;
      assert JoinWith(ts, " ") == s;
      forall i | 0 <= i < |s| && IsWhitespace(s[i])
        ensures s[i] == ' '
      {
        if i > |t| { assert s[i] == rest[i - |t| - 1]; }
      }
      forall i | 0 <= i < |s| && s[i] == ' '
        ensures 0 < i < |s| - 1 && !IsWhitespace(s[i + 1])
      {
        if i > |t| {
          assert s[i] == rest[i - |t| - 1];
          assert s[i + 1] == rest[i - |t|];
        }
      }
    }
  }

  predicate IsDigit(c: char)
  {
    '0' <= c <= '9'
  }

  predicate AllDigits(d: string)
  {
    forall i :: 0 <= i < |d| ==> IsDigit(d[i])
  }

  function DigitValue(c: char): nat
    requires IsDigit(c)
  {
    c as int - '0' as int
  }

  /** The value of a string of decimal digits, most significant first. */
  function DigitsValue(d: string): nat
    requires AllDigits(d)
  {
    if d == [] then 0 else DigitsValue(d[..|d| - 1]) * 10 + DigitValue(d[|d| - 1])
  }

  /** Parsing a `u64`, with `None` for a failure: an optional `+`, then at least
      one ASCII digit, and a value that fits in 64 bits. */
  function ParseU64(s: string): (r: Option<nat>)
    ensures r.Some? ==> r.value < U64Limit
  {
    if s == [] then None
    else
      var digits := if s[0] == '+' then s[1..] else s;
      if digits == [] || !AllDigits(digits) then None
      else if DigitsValue(digits) < U64Limit then Some(DigitsValue(digits))
      else None
  }

  function DigitChar(v: nat): (c: char)
    requires v < 10
    ensures IsDigit(c) && DigitValue(c) == v
  {
    ('0' as int + v) as char
  }

  /** `n.to_string()` for an unsigned integer: decimal, no sign, no leading zero. */
  function DecimalString(n: nat): (s: string)
    ensures s != [] && AllDigits(s) && IsToken(s)
  {
    if n < 10 then [DigitChar(n)] else DecimalString(n / 10) + [DigitChar(n % 10)]
  }

  /** Formatting a number and parsing it back gives the number. */
  lemma {:induction false} DigitsOfDecimal(n: nat)
    ensures DigitsValue(DecimalString(n)) == n
  {
    if n >= 10 {
      var s := DecimalString(n);
      assert s[..|s| - 1] == DecimalString(n / 10);
      DigitsOfDecimal(n / 10);
    }
  }

  lemma ParseOfDecimal(n: nat)
    requires n < U64Limit
    ensures ParseU64(DecimalString(n)) == Some(n)
  {
    DigitsOfDecimal(n);
  }

  /** ASCII part of `char::to_lowercase`. */
  function LowerChar(c: char): char
  {
    if 'A' <= c <= 'Z' then (c as int + 32) as char else c
  }

  /** `s.to_lowercase()`, restricted to ASCII letters. */
  function Lower(s: string): (r: string)
    ensures |r| == |s|
    ensures forall i :: 0 <= i < |s| ==> r[i] == LowerChar(s[i])
  {
    seq(|s|, i requires 0 <= i < |s| => LowerChar(s[i]))
  }

  predicate StartsWithChar(s: string, c: char)
  {
    |s| > 0 && s[0] == c
  }

  predicate EndsWithChar(s: string, c: char)
  {
    |s| > 0 && s[|s| - 1] == c
  }

  predicate IsPrefix(p: string, s: string)
  {
    |p| <= |s| && s[..|p|] == p
  }
}
