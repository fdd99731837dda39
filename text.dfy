/**
 * String helpers that the handlers and components use: JavaScript's
 * `toUpperCase`/`toLowerCase` (restricted to ASCII letters), `includes`,
 * `split(sep).pop()` and `split(sep)[1]`, plus the optional-value wrapper.
 */
module Text {

  datatype Option<+T> = None | Some(value: T) {
    function GetOr(default: T): T {
      match this
      case Some(v) => v
      case None => default
    }
  }

  /** A request field that JavaScript treats as truthy: present and not the empty string. */
  predicate Given(o: Option<string>) {
    o.Some? && o.value != ""
  }

  predicate IsLowerLetter(c: char) { 'a' <= c <= 'z' }
  predicate IsUpperLetter(c: char) { 'A' <= c <= 'Z' }

  function UpperChar(c: char): char {
    if IsLowerLetter(c) then (c as int - 32) as char else c
  }

  function LowerChar(c: char): char {
    if IsUpperLetter(c) then (c as int + 32) as char else c
  }

  /** No lower-case ASCII letter occurs in `s`. */
  predicate AllUpper(s: string) {
    forall i :: 0 <= i < |s| ==> !IsLowerLetter(s[i])
  }

  /** `s.toUpperCase()` on ASCII letters: same length, every letter raised, nothing lower-case left. */
  function ToUpper(s: string): (r: string)
    ensures |r| == |s|
    ensures forall i :: 0 <= i < |s| ==> r[i] == UpperChar(s[i])
    ensures AllUpper(r)
    decreases |s|
  {
    if s == [] then [] else [UpperChar(s[0])] + ToUpper(s[1..])
  }

  /** `s.toLowerCase()` on ASCII letters: same length, every letter lowered. */
  function ToLower(s: string): (r: string)
    ensures |r| == |s|
    ensures forall i :: 0 <= i < |s| ==> r[i] == LowerChar(s[i])
    ensures forall i :: 0 <= i < |r| ==> !IsUpperLetter(r[i])
    decreases |s|
  {
    if s == [] then [] else [LowerChar(s[0])] + ToLower(s[1..])
  }

  /** Upper-casing `s` gives `t` when it does so character by character. */
  lemma ToUpperOf(s: string, t: string)
    requires |s| == |t| && forall i :: 0 <= i < |s| ==> UpperChar(s[i]) == t[i]
    ensures ToUpper(s) == t
  {
  }

  /** Lower-casing `s` gives `t` when it does so character by character. */
  lemma ToLowerOf(s: string, t: string)
    requires |s| == |t| && forall i :: 0 <= i < |s| ==> LowerChar(s[i]) == t[i]
    ensures ToLower(s) == t
  {
  }

  /** A lower-case letter that occurs in `s` in neither case does not occur in `ToLower(s)`. */
  lemma LowerLacks(s: string, c: char)
    requires IsLowerLetter(c) && c !in s && UpperChar(c) !in s
    ensures c !in ToLower(s)
  {
    var lower := ToLower(s);
    forall i | 0 <= i < |lower| ensures lower[i] != c {
      assert lower[i] == LowerChar(s[i]);
    }
  }

  /** Upper-casing a string that has no lower-case letter leaves it as it is. */
  lemma ToUpperOfUpper(s: string)
    requires AllUpper(s)
    ensures ToUpper(s) == s
  {
    assert forall i :: 0 <= i < |s| ==> ToUpper(s)[i] == s[i];
  }

  /** Upper-casing is idempotent, so a stored upper-cased code is its own normal form. */
  lemma ToUpperIdempotent(s: string)
    ensures ToUpper(ToUpper(s)) == ToUpper(s)
  {
    ToUpperOfUpper(ToUpper(s));
  }

  /** `sub` occurs in `s` starting at position `i`. */
  predicate OccursAt(s: string, sub: string, i: nat) {
    i + |sub| <= |s| && s[i..i + |sub|] == sub
  }

  /** `s.includes(sub)`. */
  predicate Contains(s: string, sub: string) {
    exists i: nat :: i <= |s| && OccursAt(s, sub, i)
  }

  lemma ContainsWitness(s: string, sub: string, i: nat)
    requires i + |sub| <= |s| && s[i..i + |sub|] == sub
    ensures Contains(s, sub)
  {
    assert OccursAt(s, sub, i);
  }

  /** Every string includes the empty string and itself. */
  lemma ContainsTrivial(s: string)
    ensures Contains(s, "") && Contains(s, s)
  {
    ContainsWitness(s, "", 0);
    ContainsWitness(s, s, 0);
  }

  /** `s.split(sep).pop()`: the text after the last `sep`, or all of `s` when `sep` does not occur. */
  function AfterLast(s: string, sep: char): string
    decreases |s|
  {
    if |s| == 0 then ""
    else if s[|s| - 1] == sep then ""
    else AfterLast(s[..|s| - 1], sep) + [s[|s| - 1]]
  }

  /**
   * AfterLast's result is a suffix of `s`, holds no `sep`, and is either
   * all of `s` or preceded by a `sep`.
   */
  lemma {:induction false} AfterLastShape(s: string, sep: char)
    ensures var r := AfterLast(s, sep);
      && |r| <= |s| && r == s[|s| - |r|..]
      && sep !in r
      && (|r| < |s| ==> s[|s| - |r| - 1] == sep)
    decreases |s|
  {
    if |s| > 0 && s[|s| - 1] != sep {
      var init, c := s[..|s| - 1], s[|s| - 1];
      assert s == init + [c];
      AfterLastShape(init, sep);
      var q := AfterLast(init, sep);
      var k := |init| - |q|;
      assert q == init[k..];
      assert s[k..] == init[k..] + [c];
      if |q| < |init| {
        assert s[k - 1] == init[k - 1];
      }
      assert sep !in q + [c] by {
        forall x | x in q + [c] ensures x != sep {
          assert x in q || x == c;
        }
      }
    }
  }

  /** Any string with those three properties is AfterLast's result. */
  lemma AfterLastUnique(s: string, sep: char, t: string)
    requires |t| <= |s| && t == s[|s| - |t|..] && sep !in t
    requires |t| < |s| ==> s[|s| - |t| - 1] == sep
    ensures t == AfterLast(s, sep)
  {
    AfterLastShape(s, sep);
    var r := AfterLast(s, sep);
    assert |r| == |t|;
  }

  /** Joining `prefix`, `sep` and a `sep`-free `ext` and splitting again gives `ext` back. */
  lemma AfterLastJoin(prefix: string, sep: char, ext: string)
    requires sep !in ext
    ensures AfterLast(prefix + [sep] + ext, sep) == ext
  {
    var s := prefix + [sep] + ext;
    assert s[|s| - |ext|..] == ext;
    assert s[|s| - |ext| - 1] == sep;
    AfterLastUnique(s, sep, ext);
  }

  /** When `sep` does not occur at all, `split(sep).pop()` is the whole string. */
  lemma AfterLastNoSep(s: string, sep: char)
    requires sep !in s
    ensures AfterLast(s, sep) == s
  {
    assert s[|s| - |s|..] == s;
    AfterLastUnique(s, sep, s);
  }

  /** The text before the first `sep`, or all of `s` when there is none: `s.split(sep)[0]`. */
  function BeforeFirst(s: string, sep: char): (r: string)
    ensures |r| <= |s| && r == s[..|r|]
    ensures sep !in r
    ensures |r| < |s| ==> s[|r|] == sep
    decreases |s|
  {
    if |s| == 0 then ""
    else if s[0] == sep then ""
    else [s[0]] + BeforeFirst(s[1..], sep)
  }

  /** Without any `sep`, the text before the first `sep` is the whole string. */
  lemma BeforeFirstNoSep(s: string, sep: char)
    requires sep !in s
    ensures BeforeFirst(s, sep) == s
  {
  }

  /** `s.split(sep)[1]` for a string holding `sep`: the field between the first and the second `sep`. */
  function SecondField(s: string, sep: char): (r: string)
    requires sep in s
    ensures sep !in r
    ensures Contains(s, [sep] + r)
  {
    var head := BeforeFirst(s, sep);
    var rest := s[|head| + 1..];
    var r := BeforeFirst(rest, sep);
    assert s[|head|..|head| + 1 + |r|] == [sep] + r;
    ContainsWitness(s, [sep] + r, |head|);
    r
  }

  /** The second field of `head + [sep] + tail`, both free of `sep`, is `tail`. */
  lemma SecondFieldJoin(head: string, sep: char, tail: string)
    requires sep !in head && sep !in tail
    ensures SecondField(head + [sep] + tail, sep) == tail
  {
    var s := head + [sep] + tail;
    BeforeFirstJoin(head, sep, tail);
    assert s[|head| + 1..] == tail;
    BeforeFirstNoSep(tail, sep);
  }

  /** `sub` found at `i` in `s` once each of its characters is lowered: the lowered string contains it. */
  lemma ContainsLowered(s: string, sub: string, i: nat)
    requires i + |sub| <= |s|
    requires forall j :: 0 <= j < |sub| ==> LowerChar(s[i + j]) == sub[j]
    ensures Contains(ToLower(s), sub)
  {
    var lower := ToLower(s);
    assert lower[i..i + |sub|] == sub;
    ContainsWitness(lower, sub, i);
  }

  /** A string that lacks the first character of `sub` does not include it. */
  lemma NotContainsFirst(s: string, sub: string)
    requires |sub| > 0 && sub[0] !in s
    ensures !Contains(s, sub)
  {
    forall i: nat | i <= |s| ensures !OccursAt(s, sub, i) {
      if i + |sub| <= |s| {
        assert s[i..i + |sub|][0] == s[i];
      }
    }
  }

  /** A string never includes a longer one. */
  lemma NotContainsLonger(s: string, sub: string)
    requires |sub| > |s|
    ensures !Contains(s, sub)
  {
  }

  /** `s.replace(from, to)` with single-character patterns: only the FIRST occurrence is replaced. */
  function ReplaceFirst(s: string, from: char, to: char): (r: string)
    ensures |r| == |s|
    decreases |s|
  {
    if s == [] then []
    else if s[0] == from then [to] + s[1..]
    else [s[0]] + ReplaceFirst(s[1..], from, to)
  }

  /**
   * Replacing the first `from` of `head + [from] + tail` when `head` holds
   * no `from` swaps exactly that separator: later occurrences in `tail` stay.
   */
  lemma {:induction false} ReplaceFirstJoin(head: string, from: char, to: char, tail: string)
    requires from !in head
    ensures ReplaceFirst(head + [from] + tail, from, to) == head + [to] + tail
    decreases |head|
  {
    var s := head + [from] + tail;
    if head == [] {
      assert s[0] == from && s[1..] == tail;
    } else {
      assert s[0] == head[0] && s[1..] == head[1..] + [from] + tail;
      ReplaceFirstJoin(head[1..], from, to, tail);
    }
  }

  /** With no `from` in `s`, replacing changes nothing. */
  lemma {:induction false} ReplaceFirstAbsent(s: string, from: char, to: char)
    requires from !in s
    ensures ReplaceFirst(s, from, to) == s
    decreases |s|
  {
    if s != [] {
      ReplaceFirstAbsent(s[1..], from, to);
    }
  }

  lemma {:induction false} BeforeFirstJoin(head: string, sep: char, tail: string)
    requires sep !in head
    ensures BeforeFirst(head + [sep] + tail, sep) == head
  {
    var s := head + [sep] + tail;
    if head == [] {
      assert s[0] == sep;
    } else {
      assert s[1..] == head[1..] + [sep] + tail;
      BeforeFirstJoin(head[1..], sep, tail);
    }
  }
}
