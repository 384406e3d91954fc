/** The string operations of JavaScript's `String.prototype` and
    `Array.prototype` that the site's logic uses: `length`, `trim`,
    `toLowerCase`, `includes`, `startsWith`, `join` and `split` with a string
    separator.
    A JavaScript string is a `seq<char>`; `char` is a Unicode scalar value. */
module Text {

  /** The ECMAScript WhiteSpace and LineTerminator code points, which are
      exactly what `trim` removes: TAB, LF, VT, FF, CR, SPACE, NBSP, the other
      space separators of category Zs, LINE SEPARATOR, PARAGRAPH SEPARATOR
      and the byte order mark. */
  predicate IsWhiteSpace(c: char) {
    var n := c as int;
    || (0x09 <= n <= 0x0D)
    || n == 0x20 || n == 0xA0 || n == 0x1680
    || (0x2000 <= n <= 0x200A)
    || n == 0x2028 || n == 0x2029 || n == 0x202F || n == 0x205F
    || n == 0x3000 || n == 0xFEFF
  }

  /** Every character of `s` is white space (so `s.trim()` is empty). */
  ghost predicate IsBlank(s: string) {
    forall i :: 0 <= i < |s| ==> IsWhiteSpace(s[i])
  }

  /** `s` with its leading white space removed: a suffix of `s`. */
  function TrimStart(s: string): (r: string)
    ensures |r| <= |s| && r == s[|s| - |r|..]
    ensures forall i :: 0 <= i < |s| - |r| ==> IsWhiteSpace(s[i])
    ensures r != [] ==> !IsWhiteSpace(r[0])
  {
    if s != [] && IsWhiteSpace(s[0]) then TrimStart(s[1..]) else s
  }

  /** `s` with its trailing white space removed: a prefix of `s`. */
  function TrimEnd(s: string): (r: string)
    ensures |r| <= |s| && r == s[..|r|]
    ensures forall i :: |r| <= i < |s| ==> IsWhiteSpace(s[i])
    ensures r != [] ==> !IsWhiteSpace(r[|r| - 1])
  {
    if s != [] && IsWhiteSpace(s[|s| - 1]) then TrimEnd(s[..|s| - 1]) else s
  }

  /** `s.trim()`: empty exactly when `s` is blank, and otherwise starting and
      ending with a character that is not white space. */
  function Trim(s: string): (r: string)
    ensures |r| <= |s|
    ensures r == [] <==> IsBlank(s)
    ensures r != [] ==> !IsWhiteSpace(r[0]) && !IsWhiteSpace(r[|r| - 1])
  {
    var t := TrimStart(s);
    assert t != [] ==> t[0] == s[|s| - |t|];
    TrimEnd(t)
  }

  /** Trimming twice is trimming once. */
  lemma TrimIdempotent(s: string)
    ensures Trim(Trim(s)) == Trim(s)
  {
    var r := Trim(s);
    if r != [] {
      assert TrimStart(r) == r;
      assert TrimEnd(r) == r;
    }
  }

  /** `r` is the part of `s` at position `a`, and everything of `s`
      before and after it is white space. */
  ghost predicate IsInnerAt(s: string, r: string, a: nat) {
    && a + |r| <= |s| && r == s[a..a + |r|]
    && (forall i :: 0 <= i < a ==> IsWhiteSpace(s[i]))
    && (forall i :: a + |r| <= i < |s| ==> IsWhiteSpace(s[i]))
  }

  /** A white-space suffix of a suffix of `s` is a white-space suffix of
      `s`. */
  lemma WhiteTail(s: string, t: string, a: nat, n: nat)
    requires a <= |s| && t == s[a..] && n <= |t|
    requires forall i :: n <= i < |t| ==> IsWhiteSpace(t[i])
    ensures forall i :: a + n <= i < |s| ==> IsWhiteSpace(s[i])
  {
    forall i | a + n <= i < |s|
      ensures IsWhiteSpace(s[i])
    {
      assert s[i] == t[i - a];
    }
  }

  /** `trim` removes exactly the leading and trailing white space: the
      result is the part of `s` between a white-space prefix and a
      white-space suffix. */
  lemma TrimIsInner(s: string)
    ensures exists a: nat :: IsInnerAt(s, Trim(s), a)
  {
    var t := TrimStart(s);
    var a := |s| - |t|;
    var r := TrimEnd(t);
    assert Trim(s) == r;
    assert t == s[a..] && r == t[..|r|];
    assert r == s[a..a + |r|];
    WhiteTail(s, t, a, |r|);
    assert IsInnerAt(s, r, a);
  }

  /** Two parts of `s` between white space, neither starting nor ending
      with white space, are the same part. */
  lemma InnerUnique(s: string, x: string, a: nat, y: string, b: nat)
    requires IsInnerAt(s, x, a) && IsInnerAt(s, y, b) && x != [] && y != []
    requires !IsWhiteSpace(x[0]) && !IsWhiteSpace(x[|x| - 1])
    requires !IsWhiteSpace(y[0]) && !IsWhiteSpace(y[|y| - 1])
    ensures a == b && x == y
  {
    assert x[0] == s[a] && y[0] == s[b];
    assert a == b;
    assert x[|x| - 1] == s[a + |x| - 1] && y[|y| - 1] == s[b + |y| - 1];
    assert |x| == |y|;
  }

  /** Conversely, a part of `s` between a white-space prefix and a
      white-space suffix that does not itself start or end with white space
      is what `trim` gives: the characterisation determines the result. */
  lemma TrimUnique(s: string, a: nat, n: nat)
    requires a + n <= |s| && IsInnerAt(s, s[a..a + n], a)
    requires n > 0 ==> !IsWhiteSpace(s[a]) && !IsWhiteSpace(s[a + n - 1])
    ensures Trim(s) == s[a..a + n]
  {
    var x := s[a..a + n];
    if n == 0 {
      assert IsBlank(s) by {
        forall i | 0 <= i < |s|
          ensures IsWhiteSpace(s[i])
        {
          assert i < a || a + n <= i;
        }
      }
    } else {
      TrimIsInner(s);
      var r := Trim(s);
      var b: nat :| IsInnerAt(s, r, b);
      assert x[0] == s[a] && x[n - 1] == s[a + n - 1];
      assert r != [] by {
        assert !IsWhiteSpace(s[a]);
      }
      InnerUnique(s, x, a, r, b);
    }
  }

  /** `s.startsWith(p)`. */
  predicate StartsWith(s: string, p: string) {
    |p| <= |s| && s[..|p|] == p
  }

  /** A concatenation starts with its first part. */
  lemma StartsWithConcat(a: string, b: string)
    ensures StartsWith(a + b, a)
  {
    assert (a + b)[..|a|] == a;
  }

  /** `sub` occurs in `s` at position `i`. */
  predicate OccursAt(s: string, sub: string, i: nat) {
    i + |sub| <= |s| && s[i..i + |sub|] == sub
  }

  /** `s.includes(sub)`. */
  predicate Contains(s: string, sub: string)
    decreases |s|
  {
    StartsWith(s, sub) || (s != [] && Contains(s[1..], sub))
  }

  /** `includes` holds exactly when there is a position where `sub` occurs. */
  lemma {:induction false} ContainsIff(s: string, sub: string)
    ensures Contains(s, sub) <==> exists i: nat :: OccursAt(s, sub, i)
    decreases |s|
  {
    if StartsWith(s, sub) {
      assert OccursAt(s, sub, 0);
    } else if s == [] {
      assert |sub| > 0;
    } else {
      ContainsIff(s[1..], sub);
      if Contains(s[1..], sub) {
        var i: nat :| OccursAt(s[1..], sub, i);
        assert s[i + 1..i + 1 + |sub|] == s[1..][i..i + |sub|];
        assert OccursAt(s, sub, i + 1);
      } else {
        forall i: nat ensures !OccursAt(s, sub, i) {
          if OccursAt(s, sub, i) {
            assert i != 0;
            assert s[1..][i - 1..i - 1 + |sub|] == s[i..i + |sub|];
            assert OccursAt(s[1..], sub, i - 1);
          }
        }
      }
    }
  }

  /** A string contains whatever occurs in it at some position. */
  lemma ContainsAt(s: string, sub: string, i: nat)
    requires OccursAt(s, sub, i)
    ensures Contains(s, sub)
  {
    ContainsIff(s, sub);
  }

  /** A concatenation contains each of its middle parts. */
  lemma ContainsMiddle(a: string, b: string, c: string)
    ensures Contains(a + b + c, b)
  {
    assert (a + b + c)[|a|..|a| + |b|] == b;
    ContainsAt(a + b + c, b, |a|);
  }

  /** Containment is transitive: whatever occurs in a part of `s` occurs in
      `s`. */
  lemma ContainsTransitive(s: string, mid: string, sub: string)
    requires Contains(s, mid) && Contains(mid, sub)
    ensures Contains(s, sub)
  {
    ContainsIff(s, mid);
    ContainsIff(mid, sub);
    var i: nat :| OccursAt(s, mid, i);
    var j: nat :| OccursAt(mid, sub, j);
    forall k | 0 <= k < |sub|
      ensures s[i + j..i + j + |sub|][k] == sub[k]
    {
      assert s[i + j + k] == mid[j + k];
    }
    assert s[i + j..i + j + |sub|] == sub;
    ContainsAt(s, sub, i + j);
  }

  /** `toLowerCase` restricted to the ASCII letters A to Z. */
  function LowerChar(c: char): char {
    if 'A' <= c <= 'Z' then (c as int + 32) as char else c
  }

  /** `s.toLowerCase()`, character by character (ASCII letters only). */
  function Lower(s: string): (r: string)
    ensures |r| == |s|
  {
    seq(|s|, i requires 0 <= i < |s| => LowerChar(s[i]))
  }

  /** Lower-casing a concatenation lower-cases each part. */
  lemma LowerConcat(a: string, b: string)
    ensures Lower(a + b) == Lower(a) + Lower(b)
  {
  }

  /** Lower-casing keeps every occurrence: if `x` occurs in `s` and its
      lower-case form is `phrase`, then `phrase` occurs in `Lower(s)`. This is
      what makes the trigger-phrase match case-insensitive. */
  lemma LowerKeepsOccurrence(s: string, x: string, phrase: string)
    requires Contains(s, x) && Lower(x) == phrase
    ensures Contains(Lower(s), phrase)
  {
    ContainsIff(s, x);
    var i: nat :| OccursAt(s, x, i);
    assert Lower(s)[i..i + |x|] == Lower(s[i..i + |x|]);
    ContainsAt(Lower(s), phrase, i);
  }

  /** `s.length`: JavaScript counts UTF-16 code units, so a character outside
      the Basic Multilingual Plane counts twice. */
  function Utf16Length(s: string): (n: nat)
    ensures |s| <= n <= 2 * |s|
    decreases |s|
  {
    if s == [] then 0
    else (if s[0] as int >= 0x1_0000 then 2 else 1) + Utf16Length(s[1..])
  }

  /** `s || fallback` on strings: the empty string is falsy. */
  function OrElse(s: string, fallback: string): string {
    if s != "" then s else fallback
  }

  /** `parts.join(sep)`. */
  function Join(parts: seq<string>, sep: string): string
    decreases |parts|
  {
    if |parts| == 0 then ""
    else if |parts| == 1 then parts[0]
    else parts[0] + sep + Join(parts[1..], sep)
  }

  /** With a non-empty separator, a join is empty exactly when there is
      nothing to join or only one empty part; in particular the join of
      non-empty parts is empty only when there are no parts. */
  lemma {:induction false} JoinEmptyIff(parts: seq<string>, sep: string)
    requires sep != ""
    ensures Join(parts, sep) == "" <==> |parts| == 0 || (|parts| == 1 && parts[0] == "")
  {
    if |parts| >= 2 {
      assert |Join(parts, sep)| >= |sep|;
    }
  }

  /** Every part of a join occurs in it. */
  lemma {:induction false} JoinContainsParts(parts: seq<string>, sep: string, k: nat)
    requires k < |parts|
    ensures Contains(Join(parts, sep), parts[k])
    decreases |parts|
  {
    if |parts| == 1 {
      ContainsMiddle("", parts[0], "");
      assert "" + parts[0] + "" == parts[0];
    } else if k == 0 {
      ContainsMiddle("", parts[0], sep + Join(parts[1..], sep));
      assert "" + parts[0] + (sep + Join(parts[1..], sep)) == Join(parts, sep);
    } else {
      JoinContainsParts(parts[1..], sep, k - 1);
      ContainsIff(Join(parts[1..], sep), parts[k]);
      var i: nat :| OccursAt(Join(parts[1..], sep), parts[k], i);
      var pre := parts[0] + sep;
      assert Join(parts, sep) == pre + Join(parts[1..], sep);
      assert (pre + Join(parts[1..], sep))[|pre| + i..|pre| + i + |parts[k]|]
          == Join(parts[1..], sep)[i..i + |parts[k]|];
      ContainsAt(Join(parts, sep), parts[k], |pre| + i);
    }
  }

  /** `s.split(sep)` for a non-empty separator: the pieces between the
      non-overlapping occurrences of `sep`, found from the left. */
  function Split(s: string, sep: string): (r: seq<string>)
    requires sep != ""
    ensures |r| >= 1
    decreases |s|
  {
    if StartsWith(s, sep) then [""] + Split(s[|sep|..], sep)
    else if s == [] then [""]
    else
      var rest := Split(s[1..], sep);
      [[s[0]] + rest[0]] + rest[1..]
  }

  /** A string that does not contain the second character of the separator
      is a single piece. */
  lemma {:induction false} SplitSingle(p: string, sep: string)
    requires |sep| >= 2 && sep[1] !in p
    ensures Split(p, sep) == [p]
    decreases |p|
  {
    if p != [] {
      assert |p| >= 2 ==> p[1] in p;
      SplitSingle(p[1..], sep);
      assert [p[0]] + p[1..] == p;
    }
  }

  /** A piece free of the separator's second character, followed by the
      separator, splits off as one piece, as long as the separator's first two
      characters differ (so no occurrence can start inside the piece). */
  lemma {:induction false} SplitPiece(p: string, sep: string, rest: string)
    requires |sep| >= 2 && sep[0] != sep[1] && sep[1] !in p
    ensures Split(p + sep + rest, sep) == [p] + Split(rest, sep)
    decreases |p|
  {
    var s := p + sep + rest;
    if p == [] {
      assert s == sep + rest;
      assert StartsWith(s, sep);
      assert s[|sep|..] == rest;
    } else {
      assert s[1] != sep[1] by {
        if |p| >= 2 { assert s[1] == p[1] && p[1] in p; } else { assert s[1] == sep[0]; }
      }
      assert s[1..] == p[1..] + sep + rest;
      SplitPiece(p[1..], sep, rest);
      assert [p[0]] + p[1..] == p;
    }
  }

  /** Splitting a join gives back the parts, when no part contains the
      separator's second character and that character differs from the first. */
  lemma {:induction false} SplitJoin(parts: seq<string>, sep: string)
    requires |parts| >= 1
    requires |sep| >= 2 && sep[0] != sep[1]
    requires forall k :: 0 <= k < |parts| ==> sep[1] !in parts[k]
    ensures Split(Join(parts, sep), sep) == parts
    decreases |parts|
  {
    if |parts| == 1 {
      SplitSingle(parts[0], sep);
    } else {
      SplitPiece(parts[0], sep, Join(parts[1..], sep));
      SplitJoin(parts[1..], sep);
      assert [parts[0]] + parts[1..] == parts;
    }
  }

  /** The first piece of a split is a prefix of the string. */
  lemma {:induction false} SplitHeadPrefix(s: string, sep: string)
    requires sep != ""
    ensures StartsWith(s, Split(s, sep)[0])
    decreases |s|
  {
    if !StartsWith(s, sep) && s != [] {
      SplitHeadPrefix(s[1..], sep);
    }
  }

  /** No piece of a split contains the separator: the occurrences are found
      from the left and every one of them is cut out. */
  lemma {:induction false} SplitPiecesFree(s: string, sep: string)
    requires sep != ""
    ensures forall k :: 0 <= k < |Split(s, sep)| ==> !Contains(Split(s, sep)[k], sep)
    decreases |s|
  {
    var r := Split(s, sep);
    assert !Contains("", sep);
    if StartsWith(s, sep) {
      SplitPiecesFree(s[|sep|..], sep);
      assert forall k :: 1 <= k < |r| ==> r[k] == Split(s[|sep|..], sep)[k - 1];
    } else if s != [] {
      var rest := Split(s[1..], sep);
      SplitPiecesFree(s[1..], sep);
      SplitHeadPrefix(s[1..], sep);
      var head := [s[0]] + rest[0];
      assert head[1..] == rest[0];
      assert head == s[..|head|];
      assert |sep| <= |head| ==> s[..|sep|] == head[..|sep|];
      assert forall k :: 1 <= k < |r| ==> r[k] == rest[k];
    }
  }

  /** Joining after an empty first piece puts the separator in front. */
  lemma JoinEmptyHead(parts: seq<string>, sep: string)
    requires |parts| >= 1
    ensures Join([""] + parts, sep) == sep + Join(parts, sep)
  {
    assert ([""] + parts)[1..] == parts;
  }

  /** Joining after a character added to the first piece puts the
      character in front. */
  lemma JoinConsHead(c: char, parts: seq<string>, sep: string)
    requires |parts| >= 1
    ensures Join([[c] + parts[0]] + parts[1..], sep) == [c] + Join(parts, sep)
  {
    var pieces := [[c] + parts[0]] + parts[1..];
    if |parts| >= 2 {
      assert pieces[1..] == parts[1..];
    }
  }

  /** Joining the pieces of a split by its separator gives the string back. */
  lemma {:induction false} JoinSplit(s: string, sep: string)
    requires sep != ""
    ensures Join(Split(s, sep), sep) == s
    decreases |s|
  {
    if StartsWith(s, sep) {
      var rest := Split(s[|sep|..], sep);
      assert Split(s, sep) == [""] + rest;
      JoinSplit(s[|sep|..], sep);
      JoinEmptyHead(rest, sep);
      assert s == sep + s[|sep|..];
    } else if s != [] {
      var rest := Split(s[1..], sep);
      assert Split(s, sep) == [[s[0]] + rest[0]] + rest[1..];
      JoinSplit(s[1..], sep);
      JoinConsHead(s[0], rest, sep);
      assert s == [s[0]] + s[1..];
    }
  }
}
