/** Small value types and text helpers shared by every part of the controller model. */
module Base {

  /** A value that may be absent: JavaScript's `undefined` (or `null`) is `None`. */
  datatype Option<T> = None | Some(value: T)

  /** The outcome of an operation that may throw: `Failure` stands for the exception. */
  datatype Result<T, E> = Success(value: T) | Failure(error: E)

  /** A JSON value, as `JSON.parse` returns it; members keep their order. */
  datatype Json =
    | JNull
    | JBool(b: bool)
    | JNumber(x: real)
    | JString(s: string)
    | JArray(items: seq<Json>)
    | JObject(members: seq<Member>)
  datatype Member = Member(name: string, value: Json)

  /** The character for a decimal digit. */
  function Digit(d: nat): (c: char)
    requires d < 10
    ensures '0' <= c <= '9'
  {
    (48 + d) as char
  }

  /** The decimal text of a non-negative integer, as a template literal prints it. */
  function NatToString(n: nat): (s: string)
    ensures |s| >= 1
    ensures forall k :: 0 <= k < |s| ==> '0' <= s[k] <= '9'
    ensures n < 10 <==> |s| == 1
    decreases n
  {
    if n < 10 then [Digit(n)] else NatToString(n / 10) + [Digit(n % 10)]
  }

  /** `needle` occurs in `hay` starting at position `at`. */
  predicate OccursAt(needle: string, hay: string, at: nat)
  {
    at + |needle| <= |hay| && hay[at..at + |needle|] == needle
  }

  /** `needle` occurs somewhere in `hay`. */
  ghost predicate Occurs(needle: string, hay: string)
  {
    exists at: nat :: OccursAt(needle, hay, at)
  }

  /** Whether `hay` begins with `prefix`. */
  predicate StartsWith(hay: string, prefix: string)
  {
    |prefix| <= |hay| && hay[..|prefix|] == prefix
  }

  /** No element occurs twice. */
  predicate Distinct<T(==)>(s: seq<T>)
  {
    forall i, j :: 0 <= i < j < |s| ==> s[i] != s[j]
  }

  /** Whatever surrounds it, a piece of a concatenation occurs in it. */
  lemma OccursInConcat(before: string, needle: string, after: string)
    ensures OccursAt(needle, before + needle + after, |before|)
    ensures Occurs(needle, before + needle + after)
  {
    var s := before + needle + after;
    assert s[|before|..|before| + |needle|] == needle;
    assert OccursAt(needle, s, |before|);
  }

  /** A piece at the end of a text occurs in it. */
  lemma OccursAtEnd(before: string, needle: string)
    ensures Occurs(needle, before + needle)
  {
    assert (before + needle)[|before|..|before| + |needle|] == needle;
    assert OccursAt(needle, before + needle, |before|);
  }

  /** Appending text keeps an occurrence. */
  lemma OccursAppend(needle: string, hay: string, after: string)
    requires Occurs(needle, hay)
    ensures Occurs(needle, hay + after)
  {
    var at: nat :| OccursAt(needle, hay, at);
    assert (hay + after)[at..at + |needle|] == hay[at..at + |needle|];
    assert OccursAt(needle, hay + after, at);
  }

  /** Prepending text keeps an occurrence, shifted. */
  lemma OccursPrepend(before: string, needle: string, hay: string)
    requires Occurs(needle, hay)
    ensures Occurs(needle, before + hay)
  {
    var at: nat :| OccursAt(needle, hay, at);
    assert (before + hay)[|before| + at..|before| + at + |needle|] == hay[at..at + |needle|];
    assert OccursAt(needle, before + hay, |before| + at);
  }

  /** A concatenation starts with its first part. */
  lemma StartsWithAppend(a: string, b: string)
    ensures StartsWith(a + b, a)
  {
    assert (a + b)[..|a|] == a;
  }

  /** A concatenation ends with its last part. */
  lemma EndsWithAppend(a: string, b: string)
    ensures |b| <= |a + b| && (a + b)[|a + b| - |b|..] == b
  {
  }

  /** Concatenation regroups. */
  lemma AppendAssoc(a: string, b: string, c: string)
    ensures a + b + c == a + (b + c)
  {
  }

  /** The empty text is a unit of concatenation. */
  lemma AppendEmpty(a: string)
    ensures a + "" == a
  {
  }

  /** The parts of a list of texts written one after another. */
  function Concat(parts: seq<string>): string
    decreases |parts|
  {
    if parts == [] then "" else Concat(parts[..|parts| - 1]) + parts[|parts| - 1]
  }

  /** One more part is appended at the end. */
  lemma ConcatSnoc(parts: seq<string>, x: string)
    ensures Concat(parts + [x]) == Concat(parts) + x
  {
    assert (parts + [x])[..|parts|] == parts;
  }

  lemma ConcatOfOne(a: string)
    ensures Concat([a]) == a
  {
    ConcatSnoc([], a);
    assert [] + [a] == [a];
  }

  lemma ConcatOfThree(a: string, b: string, c: string)
    ensures Concat([a, b, c]) == a + b + c
  {
    ConcatOfOne(a);
    ConcatSnoc([a], b);
    assert [a] + [b] == [a, b];
    ConcatSnoc([a, b], c);
    assert [a, b] + [c] == [a, b, c];
  }

  /** Concatenation regroups, with four parts. */
  lemma AppendAssocFour(a: string, b: string, c: string, d: string)
    ensures a + (b + c + d) == a + b + c + d
  {
  }

  /** A text is its first character before the rest, and only that. */
  lemma PrependSame(t: string, s: string)
    requires |s| > 0
    ensures [s[0]] + t == s <==> t == s[1..]
  {
    if [s[0]] + t == s {
      assert ([s[0]] + t)[1..] == t;
    }
    if t == s[1..] {
      assert s == [s[0]] + s[1..];
    }
  }

  /** An occurrence in the rest of a text is an occurrence one place later in the text. */
  lemma OccursAtTail(needle: string, s: string, at: nat)
    requires |s| > 0
    ensures OccursAt(needle, s[1..], at) <==> OccursAt(needle, s, at + 1)
  {
    if at + 1 + |needle| <= |s| {
      assert s[1..][at..at + |needle|] == s[at + 1..at + 1 + |needle|];
    }
  }

  /** A prefix of the rest of a text, after its first character, is a prefix of the text. */
  lemma StartsWithCons(s: string, t: string)
    requires |s| > 0 && StartsWith(s[1..], t)
    ensures StartsWith(s, [s[0]] + t)
  {
    assert s[..1 + |t|] == [s[0]] + s[1..][..|t|];
  }
}
