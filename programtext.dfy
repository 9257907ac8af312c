/**
  The text handling of the `prog_show` and `prog_show_annotations` reply
  handlers of public/rvcat.js: the program listing is the part of the reply
  before the first "Through", with its leading and trailing blank lines
  removed; the annotations are the part from "Through" up to "CACHE".
*/
module ProgramText {
  import opened Base

  // ---------------------------------------------------------------------------
  // String.prototype.split and Array.prototype.join
  // ---------------------------------------------------------------------------

  /** `s.split(sep)[0]`: the text before the first occurrence of `sep`, or all of `s`. */
  function BeforeFirst(s: string, sep: string): string
    requires |sep| > 0
    decreases |s|
  {
    if |s| < |sep| then s
    else if s[..|sep|] == sep then ""
    else [s[0]] + BeforeFirst(s[1..], sep)
  }

  /** The text after the first occurrence of `sep`, if there is one. */
  function AfterFirst(s: string, sep: string): Option<string>
    requires |sep| > 0
    decreases |s|
  {
    if |s| < |sep| then None
    else if s[..|sep|] == sep then Some(s[|sep|..])
    else AfterFirst(s[1..], sep)
  }

  /**
    `BeforeFirst` is the longest prefix in which no occurrence of `sep`
    starts: either it is all of `s`, or `sep` starts right after it.
  */
  lemma {:induction false} BeforeFirstSplits(s: string, sep: string)
    requires |sep| > 0
    ensures var r := BeforeFirst(s, sep);
      && StartsWith(s, r)
      && (forall at: nat :: at < |r| ==> !OccursAt(sep, s, at))
      && (r == s || OccursAt(sep, s, |r|))
    decreases |s|
  {
    var r := BeforeFirst(s, sep);
    if |s| < |sep| {
    } else if s[..|sep|] == sep {
    } else {
      var t := BeforeFirst(s[1..], sep);
      BeforeFirstSplits(s[1..], sep);
      StartsWithCons(s, t);
      forall at: nat | at < |r|
        ensures !OccursAt(sep, s, at)
      {
        if at > 0 {
          OccursAtTail(sep, s, at - 1);
        }
      }
      PrependSame(t, s);
      if t != s[1..] {
        OccursAtTail(sep, s, |t|);
      }
    }
  }

  /** When `sep` occurs, `AfterFirst` gives what follows its first occurrence, right after `BeforeFirst`. */
  lemma {:induction false} AfterFirstSplits(s: string, sep: string)
    requires |sep| > 0
    ensures AfterFirst(s, sep).Some? <==> BeforeFirst(s, sep) != s
    ensures AfterFirst(s, sep).Some? ==> s == BeforeFirst(s, sep) + sep + AfterFirst(s, sep).value
    decreases |s|
  {
    if |s| < |sep| {
    } else if s[..|sep|] == sep {
      assert s == "" + sep + s[|sep|..];
    } else {
      var before := BeforeFirst(s[1..], sep);
      AfterFirstSplits(s[1..], sep);
      PrependSame(before, s);
      if AfterFirst(s[1..], sep).Some? {
        var after := AfterFirst(s[1..], sep).value;
        assert s == [s[0]] + s[1..];
        AppendAssocFour([s[0]], before, sep, after);
      }
    }
  }

  /** `s.split("\n")`: the lines of `s`, without their line feeds. */
  function Lines(s: string): (r: seq<string>)
    ensures |r| >= 1
    ensures forall k :: 0 <= k < |r| ==> '\n' !in r[k]
    decreases |s|
  {
    if s == [] then [""]
    else if s[0] == '\n' then [""] + Lines(s[1..])
    else
      var rest := Lines(s[1..]);
      [[s[0]] + rest[0]] + rest[1..]
  }

  /** `lines.join("\n")`. */
  function Join(lines: seq<string>): string
    decreases |lines|
  {
    if |lines| == 0 then ""
    else if |lines| == 1 then lines[0]
    else lines[0] + "\n" + Join(lines[1..])
  }

  /** Joining the lines of a text gives the text back. */
  lemma {:induction false} JoinLines(s: string)
    ensures Join(Lines(s)) == s
    decreases |s|
  {
    if s == [] {
    } else if s[0] == '\n' {
      JoinLines(s[1..]);
      var rest := Lines(s[1..]);
      assert Lines(s) == [""] + rest;
      assert ([""] + rest)[1..] == rest;
      assert s == "" + "\n" + s[1..];
    } else {
      JoinLines(s[1..]);
      var rest := Lines(s[1..]);
      var first := [s[0]] + rest[0];
      assert Lines(s) == [first] + rest[1..];
      assert ([first] + rest[1..])[1..] == rest[1..];
      if |rest| == 1 {
        assert s == [s[0]] + s[1..];
      } else {
        assert Join(rest) == rest[0] + "\n" + Join(rest[1..]);
        assert s == [s[0]] + s[1..];
      }
    }
  }

  /** A text without line feeds is a single line, however it is followed. */
  lemma {:induction false} LinesOfLine(a: string, rest: string)
    requires '\n' !in a
    ensures Lines(a) == [a]
    ensures Lines(a + "\n" + rest) == [a] + Lines(rest)
    decreases |a|
  {
    if a == [] {
      assert a + "\n" + rest == "\n" + rest;
      assert ("\n" + rest)[1..] == rest;
    } else {
      assert a == [a[0]] + a[1..];
      LinesOfLine(a[1..], rest);
      assert (a + "\n" + rest)[1..] == a[1..] + "\n" + rest;
      assert (a + "\n" + rest)[0] == a[0];
    }
  }

  /** Splitting a join of line-feed-free lines gives the lines back. */
  lemma {:induction false} LinesJoin(lines: seq<string>)
    requires |lines| >= 1
    requires forall k :: 0 <= k < |lines| ==> '\n' !in lines[k]
    ensures Lines(Join(lines)) == lines
    decreases |lines|
  {
    if |lines| == 1 {
      LinesOfLine(lines[0], "");
    } else {
      LinesJoin(lines[1..]);
      LinesOfLine(lines[0], Join(lines[1..]));
      assert lines == [lines[0]] + lines[1..];
    }
  }

  // ---------------------------------------------------------------------------
  // Blank-line trimming
  // ---------------------------------------------------------------------------

  /** The characters `String.prototype.trim` removes: white space and line terminators of ECMAScript. */
  predicate IsTrimmed(c: char)
  {
    c == '\t' || c == '\n' || c == '\U{000B}' || c == '\U{000C}' || c == '\r' || c == ' '
    || c == '\U{00A0}' || c == '\U{1680}' || ('\U{2000}' <= c <= '\U{200A}')
    || c == '\U{2028}' || c == '\U{2029}' || c == '\U{202F}' || c == '\U{205F}'
    || c == '\U{3000}' || c == '\U{FEFF}'
  }

  /** `line.trim() === ""`. */
  predicate IsBlank(line: string)
  {
    forall k :: 0 <= k < |line| ==> IsTrimmed(line[k])
  }

  /** The lines after the leading blank ones. */
  function DropLeading(lines: seq<string>): seq<string>
    decreases |lines|
  {
    if lines != [] && IsBlank(lines[0]) then DropLeading(lines[1..]) else lines
  }

  /** The lines before the trailing blank ones. */
  function DropTrailing(lines: seq<string>): seq<string>
    decreases |lines|
  {
    if lines != [] && IsBlank(lines[|lines| - 1]) then DropTrailing(lines[..|lines| - 1]) else lines
  }

  /** The lines without their leading and trailing blank ones. */
  function Trimmed(lines: seq<string>): seq<string>
  {
    DropTrailing(DropLeading(lines))
  }

  /** The two trimming loops: `shift` blank lines off the front, then `pop` them off the back. */
  method TrimBlankLines(lines: seq<string>) returns (r: seq<string>)
    ensures r == Trimmed(lines)
  {
    r := lines;
    while |r| > 0 && IsBlank(r[0])
      invariant DropLeading(r) == DropLeading(lines)
      decreases |r|
    {
      r := r[1..];
    }
    while |r| > 0 && IsBlank(r[|r| - 1])
      invariant DropTrailing(r) == DropTrailing(DropLeading(lines))
      decreases |r|
    {
      r := r[..|r| - 1];
    }
  }

  lemma {:induction false} DropLeadingSlice(lines: seq<string>)
    ensures var i := |lines| - |DropLeading(lines)|;
      && 0 <= i <= |lines| && DropLeading(lines) == lines[i..]
      && (forall k :: 0 <= k < i ==> IsBlank(lines[k]))
      && (DropLeading(lines) != [] ==> !IsBlank(DropLeading(lines)[0]))
    decreases |lines|
  {
    if lines != [] && IsBlank(lines[0]) {
      DropLeadingSlice(lines[1..]);
      var i := |lines| - |DropLeading(lines)|;
      assert lines[1..][i - 1..] == lines[i..];
      forall k | 0 <= k < i
        ensures IsBlank(lines[k])
      {
        if k > 0 {
          assert lines[k] == lines[1..][k - 1];
        }
      }
    }
  }

  lemma {:induction false} DropTrailingSlice(lines: seq<string>)
    ensures var j := |DropTrailing(lines)|;
      && j <= |lines| && DropTrailing(lines) == lines[..j]
      && (forall k :: j <= k < |lines| ==> IsBlank(lines[k]))
      && (DropTrailing(lines) != [] ==> !IsBlank(DropTrailing(lines)[j - 1]))
    decreases |lines|
  {
    if lines != [] && IsBlank(lines[|lines| - 1]) {
      var init := lines[..|lines| - 1];
      DropTrailingSlice(init);
      var j := |DropTrailing(lines)|;
      assert init[..j] == lines[..j];
      forall k | j <= k < |lines|
        ensures IsBlank(lines[k])
      {
        if k < |lines| - 1 {
          assert lines[k] == init[k];
        }
      }
    }
  }

  /** Dropping the trailing blank lines of `lines[i..]` leaves `lines[i..j]`, and everything from `j` on is blank. */
  lemma TrailingBound(lines: seq<string>, i: nat) returns (j: nat)
    requires i <= |lines|
    ensures i <= j <= |lines| && DropTrailing(lines[i..]) == lines[i..j]
    ensures forall k :: j <= k < |lines| ==> IsBlank(lines[k])
  {
    var d := lines[i..];
    DropTrailingSlice(d);
    j := i + |DropTrailing(d)|;
    assert d[..j - i] == lines[i..j];
    forall k | j <= k < |lines|
      ensures IsBlank(lines[k])
    {
      assert lines[k] == d[k - i];
    }
  }

  /** Where the trimmed run of lines starts and ends. */
  lemma TrimmedBounds(lines: seq<string>) returns (i: nat, j: nat)
    ensures i <= j <= |lines| && Trimmed(lines) == lines[i..j]
    ensures forall k :: 0 <= k < i ==> IsBlank(lines[k])
    ensures forall k :: j <= k < |lines| ==> IsBlank(lines[k])
  {
    DropLeadingSlice(lines);
    i := |lines| - |DropLeading(lines)|;
    j := TrailingBound(lines, i);
  }

  /** The trimmed lines begin and end with a non-blank line, unless there are none. */
  lemma TrimmedEnds(lines: seq<string>)
    ensures var t := Trimmed(lines); t != [] ==> !IsBlank(t[0]) && !IsBlank(t[|t| - 1])
  {
    var d := DropLeading(lines);
    DropLeadingSlice(lines);
    DropTrailingSlice(d);
    var t := Trimmed(lines);
    if t != [] {
      assert t == d[..|t|];
      assert t[0] == d[0];
    }
  }

  /**
    Trimming keeps one contiguous run of the lines, unchanged: everything
    before it and after it is blank, and it begins and ends with a non-blank
    line unless it is empty.
  */
  lemma TrimmedSlice(lines: seq<string>)
    ensures exists i: nat, j: nat | i <= j <= |lines| ::
      (&& Trimmed(lines) == lines[i..j]
       && (forall k :: 0 <= k < i ==> IsBlank(lines[k]))
       && (forall k :: j <= k < |lines| ==> IsBlank(lines[k])))
    ensures var t := Trimmed(lines); t != [] ==> !IsBlank(t[0]) && !IsBlank(t[|t| - 1])
  {
    var i, j := TrimmedBounds(lines);
    TrimmedEnds(lines);
  }

  /** Lines that neither begin nor end blank are kept as they are. */
  lemma TrimmedUnchanged(lines: seq<string>)
    requires lines != [] ==> !IsBlank(lines[0]) && !IsBlank(lines[|lines| - 1])
    ensures Trimmed(lines) == lines
  {
  }

  /** Trimming twice trims no more than trimming once. */
  lemma TrimmedIdempotent(lines: seq<string>)
    ensures Trimmed(Trimmed(lines)) == Trimmed(lines)
  {
    TrimmedSlice(lines);
    TrimmedUnchanged(Trimmed(lines));
  }

  /** The lines of a text with its leading and trailing blank lines removed, joined again. */
  function TrimText(s: string): string
  {
    Join(Trimmed(Lines(s)))
  }

  /** Cleaning an already cleaned text changes nothing. */
  lemma TrimTextIdempotent(s: string)
    ensures TrimText(TrimText(s)) == TrimText(s)
  {
    var t := Trimmed(Lines(s));
    TrimmedSlice(Lines(s));
    var i: nat, j: nat :| i <= j <= |Lines(s)| && t == Lines(s)[i..j];
    assert forall k :: 0 <= k < |t| ==> t[k] == Lines(s)[i + k];
    if t == [] {
      assert Trimmed(Lines("")) == [];
    } else {
      LinesJoin(t);
      TrimmedUnchanged(t);
    }
  }

  // ---------------------------------------------------------------------------
  // The two handlers
  // ---------------------------------------------------------------------------

  const Through: string := "Through"
  const Cache: string := "CACHE"

  /** `prog_show`: the listing before the first "Through", without its leading and trailing blank lines. */
  function ProgramListing(data: string): string
  {
    TrimText(BeforeFirst(data, Through))
  }

  /** The listing's lines are a contiguous run of the lines before "Through", kept unchanged; cleaning it again changes nothing. */
  lemma ProgramListingFacts(data: string)
    ensures var before := BeforeFirst(data, Through);
      && StartsWith(data, before)
      && (forall at: nat :: at < |before| ==> !OccursAt(Through, data, at))
      && (exists i: nat, j: nat | i <= j <= |Lines(before)| :: Trimmed(Lines(before)) == Lines(before)[i..j])
      && ProgramListing(data) == Join(Trimmed(Lines(before)))
    ensures TrimText(ProgramListing(data)) == ProgramListing(data)
  {
    BeforeFirstSplits(data, Through);
    TrimmedSlice(Lines(BeforeFirst(data, Through)));
    TrimTextIdempotent(BeforeFirst(data, Through));
  }

  /** The listing of a reply without "Through" and without blank edge lines is the reply itself. */
  lemma ProgramListingPlain(data: string)
    requires forall at: nat :: !OccursAt(Through, data, at)
    requires var ls := Lines(data); !IsBlank(ls[0]) && !IsBlank(ls[|ls| - 1])
    ensures ProgramListing(data) == data
  {
    BeforeFirstSplits(data, Through);
    var before := BeforeFirst(data, Through);
    assert before == data;
    TrimmedUnchanged(Lines(data));
    JoinLines(data);
  }

  /**
    `prog_show_annotations`: "Through" followed by the text between the first
    and the second "Through" (JavaScript prints `undefined` when there is no
    first one), cut before the first "CACHE".
  */
  function Annotations(data: string): string
  {
    var tail := match AfterFirst(data, Through)
      case None => "undefined"
      case Some(after) => BeforeFirst(after, Through);
    BeforeFirst(Through + tail, Cache)
  }

  /** No occurrence of `sep` lies inside the text before its first occurrence. */
  lemma BeforeFirstClean(s: string, sep: string)
    requires |sep| > 0
    ensures forall at: nat :: at < |BeforeFirst(s, sep)| ==> !OccursAt(sep, BeforeFirst(s, sep), at)
  {
    var r := BeforeFirst(s, sep);
    BeforeFirstSplits(s, sep);
    forall at: nat | at < |r|
      ensures !OccursAt(sep, r, at)
    {
      assert OccursAt(sep, r, at) ==> OccursAt(sep, s, at);
    }
  }

  /** A prefix none of whose characters starts `sep` survives the cut before `sep`. */
  lemma BeforeFirstKeeps(prefix: string, rest: string, sep: string)
    requires |sep| > 0
    requires forall k :: 0 <= k < |prefix| ==> prefix[k] != sep[0]
    ensures StartsWith(BeforeFirst(prefix + rest, sep), prefix)
  {
    var s := prefix + rest;
    var r := BeforeFirst(s, sep);
    BeforeFirstSplits(s, sep);
    assert s[..|prefix|] == prefix;
    assert r[..|prefix|] == s[..|prefix|];
  }

  /** The cut before the first `sep` is a prefix, and it is the whole text exactly when `sep` does not occur. */
  lemma CutAtFirst(s: string, sep: string)
    requires |sep| > 0
    ensures StartsWith(s, BeforeFirst(s, sep))
    ensures BeforeFirst(s, sep) == s <==> forall at: nat :: !OccursAt(sep, s, at)
  {
    var r := BeforeFirst(s, sep);
    BeforeFirstSplits(s, sep);
    if r == s {
      forall at: nat
        ensures !OccursAt(sep, s, at)
      {
        if at < |r| {
        } else {
          assert at + |sep| > |s|;
        }
      }
    }
  }

  /**
    The annotations are "Through" and then the text after the first
    "Through" up to the next one, cut before the first "CACHE" in them;
    without any "Through" they are "Through" and `undefined`. They always
    begin with "Through" and hold no "CACHE".
  */
  lemma AnnotationsFacts(data: string)
    ensures StartsWith(Annotations(data), Through)
    ensures forall at: nat :: at < |Annotations(data)| ==> !OccursAt(Cache, Annotations(data), at)
    ensures AfterFirst(data, Through).None? ==> Annotations(data) == Through + "undefined"
    ensures AfterFirst(data, Through).Some? ==>
      var after := AfterFirst(data, Through).value;
      var segment := BeforeFirst(after, Through);
      && data == BeforeFirst(data, Through) + Through + after
      && StartsWith(after, segment)
      && (segment == after || OccursAt(Through, after, |segment|))
      && (forall at: nat :: at < |segment| ==> !OccursAt(Through, after, at))
      && StartsWith(Through + segment, Annotations(data))
      && (Annotations(data) == Through + segment <==> forall at: nat :: !OccursAt(Cache, Through + segment, at))
      && (Annotations(data) == Through + segment || OccursAt(Cache, Through + segment, |Annotations(data)|))
  {
    var tail := match AfterFirst(data, Through)
      case None => "undefined"
      case Some(after) => BeforeFirst(after, Through);
    assert forall k :: 0 <= k < |Through| ==> Through[k] != Cache[0];
    BeforeFirstKeeps(Through, tail, Cache);
    BeforeFirstClean(Through + tail, Cache);
    CutAtFirst(Through + tail, Cache);
    AfterFirstSplits(data, Through);
    if AfterFirst(data, Through).None? {
      var text := Through + "undefined";
      assert forall k :: 0 <= k < |text| ==> text[k] != Cache[0];
      BeforeFirstKeeps(text, "", Cache);
      assert text + "" == text;
    } else {
      BeforeFirstSplits(AfterFirst(data, Through).value, Through);
      BeforeFirstSplits(Through + tail, Cache);
    }
  }
}
