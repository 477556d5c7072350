/** The file-name slug derived from a script title (src/utils/title-to-filename.ts).
    The pipeline is: fall back to a UUID when the title is falsy, lower-case,
    replace every run of characters outside [a-z0-9] by one '-', strip one
    leading and one trailing '-', keep at most the first 50 characters. */
module Slug {

  /** The cap applied by `substring(0, 50)`. */
  const MaxLength: nat := 50

  predicate IsAlnum(c: char) {
    ('a' <= c <= 'z') || ('0' <= c <= '9')
  }

  predicate IsSlugChar(c: char) {
    IsAlnum(c) || c == '-'
  }

  /** Every character is a lower-case ASCII letter, a digit or '-'. */
  predicate AllSlugChars(s: string) {
    forall i :: 0 <= i < |s| ==> IsSlugChar(s[i])
  }

  /** No two consecutive separators. */
  predicate NoDoubleDash(s: string) {
    forall i :: 0 <= i < |s| - 1 ==> !(s[i] == '-' && s[i + 1] == '-')
  }

  predicate HasAlnum(s: string) {
    exists i :: 0 <= i < |s| && IsAlnum(s[i])
  }

  /** A canonical slug: non-empty alphanumeric runs joined by single '-'. */
  predicate IsCanonical(s: string) {
    AllSlugChars(s) && NoDoubleDash(s) && s != [] && s[0] != '-' && s[|s| - 1] != '-'
  }

  /** The letters and digits of `s`, in order. */
  function Alnums(s: string): string {
    if s == [] then []
    else (if IsAlnum(s[0]) then [s[0]] else []) + Alnums(s[1..])
  }

  /** `toLowerCase` on one character, restricted to ASCII. */
  function LowerChar(c: char): char {
    if 'A' <= c <= 'Z' then (c as int + 32) as char else c
  }

  function LowerCase(s: string): (r: string)
    ensures |r| == |s|
    ensures forall i :: 0 <= i < |s| ==> r[i] == LowerChar(s[i])
  {
    if s == [] then [] else [LowerChar(s[0])] + LowerCase(s[1..])
  }

  /** Drops the leading characters that the pattern [^a-z0-9]+ would consume. */
  function SkipSeparators(s: string): (r: string)
    ensures |r| <= |s| && r == s[|s| - |r|..]
    ensures r == [] || IsAlnum(r[0])
    ensures forall i :: 0 <= i < |s| - |r| ==> !IsAlnum(s[i])
  {
    if s == [] || IsAlnum(s[0]) then s else SkipSeparators(s[1..])
  }

  /** `replace(/[^a-z0-9]+/g, '-')`: every maximal run of characters outside
      [a-z0-9] becomes a single '-'. */
  function Collapse(s: string): string
    decreases |s|
  {
    if s == [] then []
    else if IsAlnum(s[0]) then [s[0]] + Collapse(s[1..])
    else "-" + Collapse(SkipSeparators(s[1..]))
  }

  /** `r` uses only [a-z0-9-] and never holds "--"; it is empty exactly when
      `s` is, starts with '-' exactly when `s` starts outside [a-z0-9], and is
      never longer than `s`. */
  predicate CollapsedShape(s: string, r: string) {
    AllSlugChars(r) && NoDoubleDash(r) && (r == [] <==> s == [])
    && (r != [] ==> (r[0] == '-' <==> !IsAlnum(s[0])))
    && |r| <= |s|
  }

  /** The collapsed text has the shape of `CollapsedShape`. */
  lemma {:induction false} CollapseShape(s: string)
    ensures CollapsedShape(s, Collapse(s))
    decreases |s|
  {
    if s != [] {
      assert s == [s[0]] + s[1..];
      if IsAlnum(s[0]) {
        CollapseShape(s[1..]);
        CollapseAlnum(s[0], s[1..]);
        ShapeAfterAlnum(s[0], s[1..], Collapse(s[1..]));
      } else {
        var t := SkipSeparators(s[1..]);
        CollapseShape(t);
        CollapseNonAlnum(s[0], s[1..]);
        ShapeAfterSeparator(s[0], s[1..], t, Collapse(t));
      }
    }
  }

  lemma ShapeAfterAlnum(c: char, u: string, tail: string)
    requires IsAlnum(c) && CollapsedShape(u, tail)
    ensures CollapsedShape([c] + u, [c] + tail)
  {
    var r := [c] + tail;
    forall i | 0 <= i < |r| - 1 ensures !(r[i] == '-' && r[i + 1] == '-') {
      if i > 0 {
        assert r[i] == tail[i - 1] && r[i + 1] == tail[i];
      }
    }
  }

  lemma ShapeAfterSeparator(c: char, u: string, t: string, tail: string)
    requires !IsAlnum(c) && CollapsedShape(t, tail)
    requires (t == [] || IsAlnum(t[0])) && |t| <= |u|
    ensures CollapsedShape([c] + u, "-" + tail)
  {
    var r := "-" + tail;
    forall i | 0 <= i < |r| - 1 ensures !(r[i] == '-' && r[i + 1] == '-') {
      if i > 0 {
        assert r[i] == tail[i - 1] && r[i + 1] == tail[i];
      } else {
        assert r[1] == tail[0];
      }
    }
  }

  /** `replace(/^-|-$/g, '')`: removes one leading '-' and then one trailing '-'. */
  function TrimDashes(s: string): (r: string)
    ensures var start := if s != [] && s[0] == '-' then 1 else 0;
      start + |r| <= |s| && r == s[start..start + |r|] && |s| - start - |r| <= 1
    ensures var start := if s != [] && s[0] == '-' then 1 else 0;
      |r| < |s| - start <==> (|s| > start && s[|s| - 1] == '-')
    ensures NoDoubleDash(s) ==> r == [] || (r[0] != '-' && r[|r| - 1] != '-')
  {
    var t := if s != [] && s[0] == '-' then s[1..] else s;
    var r := if t != [] && t[|t| - 1] == '-' then t[..|t| - 1] else t;
    assert r == s[|s| - |t|..|s| - |t| + |r|];
    assert NoDoubleDash(s) && r != [] && r[0] == '-' ==> s[0] == '-' && s[1] == '-';
    r
  }

  /** `substring(0, 50)`. */
  function Truncate(s: string): (r: string)
    ensures |r| == if |s| <= MaxLength then |s| else MaxLength
    ensures r == s[..|r|]
  {
    if |s| <= MaxLength then s else s[..MaxLength]
  }

  /** `title || v4()`: an empty title is falsy and is replaced by the UUID. */
  function Source(title: string, uuid: string): string {
    if title == "" then uuid else title
  }

  /** The slug before truncation. */
  function Untruncated(t: string): string {
    TrimDashes(Collapse(LowerCase(t)))
  }

  /** titleToFileName(title), with the UUID that `v4()` would produce passed in. */
  function TitleToFileName(title: string, uuid: string): (r: string)
    ensures |r| <= MaxLength && |r| <= |Untruncated(Source(title, uuid))|
    ensures r == Untruncated(Source(title, uuid))[..|r|]
  {
    Truncate(Untruncated(Source(title, uuid)))
  }

  // ---------------------------------------------------------------------
  // Shape of the result

  /** The result uses only [a-z0-9-], never holds "--", never starts with '-',
      and ends with '-' only when the 50-character cap cut the slug short. */
  lemma SlugShape(title: string, uuid: string)
    ensures var r := TitleToFileName(title, uuid);
      AllSlugChars(r) && NoDoubleDash(r) && (r != [] ==> r[0] != '-')
      && (r != [] && r[|r| - 1] == '-' ==> |Untruncated(Source(title, uuid))| > MaxLength)
  {
    var l := LowerCase(Source(title, uuid));
    CollapseShape(l);
    TrimmedShape(Collapse(l));
    var u := Untruncated(Source(title, uuid));
    var r := TitleToFileName(title, uuid);
    PrefixShape(u, |r|);
    if r != [] {
      assert r[0] == u[0];
    }
  }

  /** Trimming a collapsed text keeps its shape and leaves no '-' at either end. */
  lemma TrimmedShape(c: string)
    requires AllSlugChars(c) && NoDoubleDash(c)
    ensures var u := TrimDashes(c);
      AllSlugChars(u) && NoDoubleDash(u) && (u != [] ==> u[0] != '-' && u[|u| - 1] != '-')
  {
    var u := TrimDashes(c);
    var start := if c != [] && c[0] == '-' then 1 else 0;
    assert u == c[start..start + |u|];
    forall i | 0 <= i < |u| ensures IsSlugChar(u[i]) {
      assert u[i] == c[start + i];
    }
    forall i | 0 <= i < |u| - 1 ensures !(u[i] == '-' && u[i + 1] == '-') {
      assert u[i] == c[start + i] && u[i + 1] == c[start + i + 1];
    }
  }

  /** A prefix of a text keeps its shape. */
  lemma PrefixShape(u: string, n: nat)
    requires n <= |u| && AllSlugChars(u) && NoDoubleDash(u)
    ensures AllSlugChars(u[..n]) && NoDoubleDash(u[..n])
  {
    var p := u[..n];
    forall i | 0 <= i < |p| ensures IsSlugChar(p[i]) {
      assert p[i] == u[i];
    }
    forall i | 0 <= i < |p| - 1 ensures !(p[i] == '-' && p[i + 1] == '-') {
      assert p[i] == u[i] && p[i + 1] == u[i + 1];
    }
  }

  // ---------------------------------------------------------------------
  // Letters and digits are kept, in order

  lemma {:induction false} AlnumsConcat(a: string, b: string)
    ensures Alnums(a + b) == Alnums(a) + Alnums(b)
    decreases |a|
  {
    if a == [] {
      assert a + b == b;
    } else {
      var t := a[1..];
      assert a + b == [a[0]] + (t + b);
      assert a == [a[0]] + t;
      AlnumsCons(a[0], t + b);
      AlnumsCons(a[0], t);
      AlnumsConcat(t, b);
      ConcatAssoc(if IsAlnum(a[0]) then [a[0]] else [], Alnums(t), Alnums(b));
    }
  }

  /** One step of `Alnums`, for a text given as its first character and the rest. */
  lemma AlnumsCons(c: char, u: string)
    ensures Alnums([c] + u) == (if IsAlnum(c) then [c] else []) + Alnums(u)
  {
    assert ([c] + u)[0] == c && ([c] + u)[1..] == u;
  }

  lemma ConcatAssoc(x: string, y: string, z: string)
    ensures x + (y + z) == (x + y) + z
  {
  }

  lemma {:induction false} AlnumsSkipSeparators(s: string)
    ensures Alnums(SkipSeparators(s)) == Alnums(s)
    decreases |s|
  {
    if s != [] && !IsAlnum(s[0]) {
      AlnumsSkipSeparators(s[1..]);
    }
  }

  /** Collapsing separator runs keeps every letter and digit, in order. */
  lemma {:induction false} CollapseKeepsAlnums(s: string)
    ensures Alnums(Collapse(s)) == Alnums(s)
    decreases |s|
  {
    if s == [] {
    } else if IsAlnum(s[0]) {
      CollapseKeepsAlnums(s[1..]);
      AlnumsConcat([s[0]], Collapse(s[1..]));
    } else {
      var rest := SkipSeparators(s[1..]);
      CollapseKeepsAlnums(rest);
      AlnumsSkipSeparators(s[1..]);
      AlnumsConcat("-", Collapse(rest));
    }
  }

  lemma TrimDashesKeepsAlnums(s: string)
    ensures Alnums(TrimDashes(s)) == Alnums(s)
  {
    var t := if s != [] && s[0] == '-' then s[1..] else s;
    if s != [] && s[0] == '-' {
      AlnumsDropFirstDash(s);
    }
    if t != [] && t[|t| - 1] == '-' {
      AlnumsDropLastDash(t);
    }
  }

  lemma AlnumsDropFirstDash(s: string)
    requires s != [] && s[0] == '-'
    ensures Alnums(s[1..]) == Alnums(s)
  {
    assert s == ['-'] + s[1..];
    AlnumsCons('-', s[1..]);
  }

  lemma AlnumsDropLastDash(t: string)
    requires t != [] && t[|t| - 1] == '-'
    ensures Alnums(t[..|t| - 1]) == Alnums(t)
  {
    var u := t[..|t| - 1];
    assert t == u + ['-'];
    AlnumsConcat(u, ['-']);
    AlnumsCons('-', []);
    assert ['-'] + [] == ['-'];
  }

  /** Before truncation, the slug holds exactly the letters and digits of the
      lower-cased title (or UUID), in their original order. */
  lemma UntruncatedKeepsAlnums(t: string)
    ensures Alnums(Untruncated(t)) == Alnums(LowerCase(t))
  {
    CollapseKeepsAlnums(LowerCase(t));
    TrimDashesKeepsAlnums(Collapse(LowerCase(t)));
  }

  lemma {:induction false} AlnumsEmptyIff(s: string)
    ensures Alnums(s) == [] <==> !HasAlnum(s)
    decreases |s|
  {
    if s != [] {
      AlnumsEmptyIff(s[1..]);
      if HasAlnum(s[1..]) {
        var i :| 0 <= i < |s[1..]| && IsAlnum(s[1..][i]);
        assert IsAlnum(s[i + 1]);
      }
      if HasAlnum(s) && !IsAlnum(s[0]) {
        var i :| 0 <= i < |s| && IsAlnum(s[i]);
        assert IsAlnum(s[1..][i - 1]);
      }
    }
  }

  // ---------------------------------------------------------------------
  // When the result is empty

  /** The slug is empty exactly when the lower-cased title (the UUID for an
      empty title) holds no ASCII letter or digit. */
  lemma SlugEmptyIff(title: string, uuid: string)
    ensures TitleToFileName(title, uuid) == [] <==> !HasAlnum(LowerCase(Source(title, uuid)))
  {
    var t := Source(title, uuid);
    var u := Untruncated(t);
    UntruncatedKeepsAlnums(t);
    AlnumsEmptyIff(u);
    AlnumsEmptyIff(LowerCase(t));
    SlugShape(title, uuid);
    if u != [] {
      assert TitleToFileName(title, uuid)[0] == u[0];
      assert IsAlnum(u[0]);
    }
  }

  /** A non-empty title without any ASCII letter or digit gives "": the UUID
      is used only for the empty title. */
  lemma SeparatorOnlyTitleGivesEmpty(title: string, uuid: string)
    requires title != "" && !HasAlnum(LowerCase(title))
    ensures TitleToFileName(title, uuid) == ""
  {
    SlugEmptyIff(title, uuid);
  }

  /** An empty title gives the slug of the UUID. */
  lemma EmptyTitleUsesUuid(uuid: string, other: string)
    requires uuid != ""
    ensures TitleToFileName("", uuid) == TitleToFileName(uuid, other)
  {
  }

  // ---------------------------------------------------------------------
  // Canonical slugs are fixed points

  lemma {:induction false} CollapseIdentity(s: string)
    requires AllSlugChars(s) && NoDoubleDash(s)
    ensures Collapse(s) == s
    decreases |s|
  {
    if s != [] {
      assert AllSlugChars(s[1..]) && NoDoubleDash(s[1..]);
      if !IsAlnum(s[0]) {
        assert s[1..] == [] || IsAlnum(s[1]);
        assert SkipSeparators(s[1..]) == s[1..];
      }
      CollapseIdentity(s[1..]);
    }
  }

  lemma LowerCaseIdentity(s: string)
    requires AllSlugChars(s)
    ensures LowerCase(s) == s
  {
  }

  /** A title that is already a canonical slug of at most 50 characters comes
      back unchanged. */
  lemma CanonicalSlugUnchanged(s: string, uuid: string)
    requires IsCanonical(s) && |s| <= MaxLength
    ensures TitleToFileName(s, uuid) == s
  {
    LowerCaseIdentity(s);
    CollapseIdentity(s);
  }

  /** A version-4 UUID in its canonical text form (RFC 4122, section 3): 32
      lower-case hexadecimal digits in groups of 8-4-4-4-12. */
  predicate IsUuidText(u: string) {
    |u| == 36
    && forall i :: 0 <= i < 36 ==>
         if i == 8 || i == 13 || i == 18 || i == 23 then u[i] == '-'
         else ('0' <= u[i] <= '9') || ('a' <= u[i] <= 'f')
  }

  /** The slug of an empty title is the generated UUID itself. */
  lemma EmptyTitleGivesUuid(uuid: string)
    requires IsUuidText(uuid)
    ensures TitleToFileName("", uuid) == uuid
  {
    assert NoDoubleDash(uuid) by {
      forall i | 0 <= i < |uuid| - 1 ensures !(uuid[i] == '-' && uuid[i + 1] == '-') {
        assert uuid[i] == '-' ==> i == 8 || i == 13 || i == 18 || i == 23;
      }
    }
    CanonicalSlugUnchanged(uuid, uuid);
  }

  /** Slugging a slug changes nothing unless truncation left a trailing '-'. */
  lemma SlugIdempotent(title: string, uuid: string, uuid2: string)
    ensures var r := TitleToFileName(title, uuid);
      r != [] && r[|r| - 1] != '-' ==> TitleToFileName(r, uuid2) == r
  {
    var r := TitleToFileName(title, uuid);
    if r != [] && r[|r| - 1] != '-' {
      SlugShape(title, uuid);
      CanonicalSlugUnchanged(r, uuid2);
    }
  }

  // ---------------------------------------------------------------------
  // Examples

  /** A title of 49 letters, a '-' and one more letter: the 50-character cap
      cuts just after the separator, the result ends in '-', and slugging it
      again is not the identity. */
  lemma TruncationCanLeaveTrailingDash()
    ensures var title := seq(49, _ => 'a') + "-b";
      var r := TitleToFileName(title, "");
      r == seq(49, _ => 'a') + "-" && TitleToFileName(r, "") != r
  {
    var a := seq(49, _ => 'a');
    var title := a + "-b";
    assert IsCanonical(title);
    LowerCaseIdentity(title);
    CollapseIdentity(title);
    var r := TitleToFileName(title, "");
    assert r == title[..50] == a + "-";
    assert AllSlugChars(r) && NoDoubleDash(r);
    LowerCaseIdentity(r);
    CollapseIdentity(r);
    assert TitleToFileName(r, "") == a;
  }

  /** A title with no letter or digit gives the empty slug. */
  lemma PunctuationTitleGivesEmpty(uuid: string)
    ensures TitleToFileName("!!!", uuid) == ""
  {
    assert LowerCase("!!!") == "!!!";
    assert SkipSeparators("!!") == "";
  }

  lemma {:induction false} CollapseWord(w: string, rest: string)
    requires forall i :: 0 <= i < |w| ==> IsAlnum(w[i])
    ensures Collapse(w + rest) == w + Collapse(rest)
    decreases |w|
  {
    if w == [] {
      assert w + rest == rest;
    } else {
      var t := w[1..];
      assert w + rest == [w[0]] + (t + rest);
      CollapseAlnum(w[0], t + rest);
      CollapseWord(t, rest);
      assert w == [w[0]] + t;
    }
  }

  /** A leading letter or digit is kept as it is. */
  lemma CollapseAlnum(c: char, u: string)
    requires IsAlnum(c)
    ensures Collapse([c] + u) == [c] + Collapse(u)
  {
    assert ([c] + u)[0] == c && ([c] + u)[1..] == u;
  }

  lemma {:induction false} LowerCaseConcat(a: string, b: string)
    ensures LowerCase(a + b) == LowerCase(a) + LowerCase(b)
  {
  }

  /** A separator character followed by a word collapses to '-' and the word. */
  lemma CollapseSeparator(c: char, rest: string)
    requires !IsAlnum(c) && (rest == [] || IsAlnum(rest[0]))
    ensures Collapse([c] + rest) == "-" + Collapse(rest)
  {
    assert ([c] + rest)[1..] == rest;
  }

  /** A run of one or more characters outside [a-z0-9], up to the next letter
      or digit or the end, becomes exactly one '-'. */
  lemma CollapseRun(sep: string, rest: string)
    requires sep != [] && forall i :: 0 <= i < |sep| ==> !IsAlnum(sep[i])
    requires rest == [] || IsAlnum(rest[0])
    ensures Collapse(sep + rest) == "-" + Collapse(rest)
  {
    assert sep + rest == [sep[0]] + (sep[1..] + rest);
    CollapseNonAlnum(sep[0], sep[1..] + rest);
    SkipRun(sep[1..], rest);
  }

  /** A leading character outside [a-z0-9] becomes '-' and the separators after it are skipped. */
  lemma CollapseNonAlnum(c: char, u: string)
    requires !IsAlnum(c)
    ensures Collapse([c] + u) == "-" + Collapse(SkipSeparators(u))
  {
    assert ([c] + u)[0] == c && ([c] + u)[1..] == u;
  }

  /** Skipping separators passes over the whole run and stops at `rest`. */
  lemma {:induction false} SkipRun(sep: string, rest: string)
    requires forall i :: 0 <= i < |sep| ==> !IsAlnum(sep[i])
    requires rest == [] || IsAlnum(rest[0])
    ensures SkipSeparators(sep + rest) == rest
    decreases |sep|
  {
    if sep == [] {
      assert sep + rest == rest;
    } else {
      var s := sep + rest;
      assert s[0] == sep[0] && s[1..] == sep[1..] + rest;
      SkipRun(sep[1..], rest);
    }
  }

  predicate IsWord(w: string) {
    w != [] && forall i :: 0 <= i < |w| ==> IsAlnum(w[i])
  }

  /** A word, one separator character and what follows. */
  lemma CollapseWordThenSeparator(w: string, c: char, rest: string)
    requires IsWord(w) && !IsAlnum(c) && (rest == [] || IsAlnum(rest[0]))
    ensures Collapse(w + [c] + rest) == w + "-" + Collapse(rest)
  {
    var tail := [c] + rest;
    assert w + [c] + rest == w + tail;
    CollapseWord(w, tail);
    CollapseSeparator(c, rest);
    assert w + ("-" + Collapse(rest)) == w + "-" + Collapse(rest);
  }

  /** Three words separated by one separator character each, with a final
      separator: each separator becomes '-'. */
  lemma CollapseThreeWords(w1: string, w2: string, w3: string, c1: char, c2: char, c3: char)
    requires IsWord(w1) && IsWord(w2) && IsWord(w3)
    requires !IsAlnum(c1) && !IsAlnum(c2) && !IsAlnum(c3)
    ensures Collapse(w1 + [c1] + (w2 + [c2] + (w3 + [c3] + []))) == w1 + "-" + (w2 + "-" + (w3 + "-" + []))
  {
    CollapseWordThenSeparator(w3, c3, []);
    CollapseWordThenSeparator(w2, c2, w3 + [c3] + []);
    CollapseWordThenSeparator(w1, c1, w2 + [c2] + (w3 + [c3] + []));
  }

  lemma TrimTrailingDash(u: string)
    requires u != [] && u[0] != '-'
    ensures TrimDashes(u + "-") == u
  {
    var t := u + "-";
    assert t[0] == u[0] && t[|t| - 1] == '-' && t[..|t| - 1] == u;
  }

  /** A lower-cased title of three words, each followed by one separator. */
  lemma SlugOfThreeWords(t: string, w1: string, w2: string, w3: string, c1: char, c2: char, c3: char)
    requires IsWord(w1) && IsWord(w2) && IsWord(w3)
    requires !IsAlnum(c1) && !IsAlnum(c2) && !IsAlnum(c3)
    requires LowerCase(t) == w1 + [c1] + (w2 + [c2] + (w3 + [c3] + []))
    ensures Untruncated(t) == w1 + "-" + (w2 + "-" + w3)
  {
    CollapseThreeWords(w1, w2, w3, c1, c2, c3);
    var u := w1 + "-" + (w2 + "-" + w3);
    assert w1 + "-" + (w2 + "-" + (w3 + "-" + [])) == u + "-";
    assert u[0] == w1[0];
    TrimTrailingDash(u);
  }

  lemma ExampleSplit(title: string)
    requires title == "Black Holes Explained!"
    ensures title == "Black" + [' '] + ("Holes" + [' '] + ("Explained" + ['!'] + []))
  {
  }

  lemma LowerCaseOne(c: char)
    requires !('A' <= c <= 'Z')
    ensures LowerCase([c]) == [c]
  {
  }

  lemma LowerCaseBlack(w: string)
    requires w == "Black"
    ensures LowerCase(w) == "black"
  {
    assert LowerCase(w)[0] == 'b';
  }

  lemma LowerCaseHoles(w: string)
    requires w == "Holes"
    ensures LowerCase(w) == "holes"
  {
    assert LowerCase(w)[0] == 'h';
  }

  lemma LowerCaseExplained(w: string)
    requires w == "Explained"
    ensures LowerCase(w) == "explained"
  {
    assert LowerCase(w)[0] == 'e';
  }

  /** Three words, each followed by a character that is not an upper-case
      letter, are lower-cased word by word. */
  lemma LowerCaseThreeWords(w1: string, w2: string, w3: string, c1: char, c2: char, c3: char)
    requires !('A' <= c1 <= 'Z') && !('A' <= c2 <= 'Z') && !('A' <= c3 <= 'Z')
    ensures LowerCase(w1 + [c1] + (w2 + [c2] + (w3 + [c3] + [])))
            == LowerCase(w1) + [c1] + (LowerCase(w2) + [c2] + (LowerCase(w3) + [c3] + []))
  {
    LowerCaseOne(c1);
    LowerCaseOne(c2);
    LowerCaseOne(c3);
    var t3 := w3 + [c3] + [];
    assert t3 == w3 + [c3];
    LowerCaseConcat(w3, [c3]);
    var t2 := w2 + [c2] + t3;
    assert t2 == w2 + ([c2] + t3);
    LowerCaseConcat([c2], t3);
    LowerCaseConcat(w2, [c2] + t3);
    assert w1 + [c1] + t2 == w1 + ([c1] + t2);
    LowerCaseConcat([c1], t2);
    LowerCaseConcat(w1, [c1] + t2);
  }

  lemma ExampleWords()
    ensures IsWord("black") && IsWord("holes") && IsWord("explained")
    ensures "black" + "-" + ("holes" + "-" + "explained") == "black-holes-explained"
  {
  }

  /** A concrete title: "Black Holes Explained!" gives the file name
      "black-holes-explained". (The title is a parameter so that the verifier
      follows the steps below instead of evaluating the definitions.) */
  lemma BlackHolesExample(title: string, uuid: string)
    requires title == "Black Holes Explained!"
    ensures TitleToFileName(title, uuid) == "black-holes-explained"
  {
    ExampleSplit(title);
    LowerCaseBlack("Black");
    LowerCaseHoles("Holes");
    LowerCaseExplained("Explained");
    LowerCaseThreeWords("Black", "Holes", "Explained", ' ', ' ', '!');
    ExampleWords();
    SlugOfThreeWords(title, "black", "holes", "explained", ' ', ' ', '!');
  }
}
