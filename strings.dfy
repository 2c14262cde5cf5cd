/**
 * String operations the add-on performs on process names and display names:
 * lower-casing, substring tests (`sub in s`), `s.replace(pat, '')`, and the
 * split/join on dots used by the older session title in core.py.
 */
module Strings {
  import opened Base

  /** Lower-case one character: the ASCII capitals and the Latin-1 capitals (U+00C0 to U+00DE except U+00D7) map 32 code points up. */
  function LowerChar(c: char): char
  {
    if 'A' <= c <= 'Z' || ('\U{C0}' <= c <= '\U{DE}' && c != '\U{D7}') then (c as int + 32) as char else c
  }

  function Lower(s: string): (r: string)
    ensures |r| == |s|
  {
    if |s| == 0 then [] else [LowerChar(s[0])] + Lower(s[1..])
  }

  /** Does `sub` occur in `s` at position `i`? */
  predicate OccursAt(s: string, sub: string, i: int)
  {
    0 <= i && i + |sub| <= |s| && s[i..i + |sub|] == sub
  }

  /** The host language's `sub in s`. */
  predicate Contains(s: string, sub: string)
  {
    exists i | 0 <= i <= |s| :: OccursAt(s, sub, i)
  }

  /** Case-insensitive substring test: `query.lower() in name.lower()`. */
  predicate ContainsIgnoringCase(name: string, query: string)
  {
    Contains(Lower(name), Lower(query))
  }

  /** `s.replace(pat, '')`: removes the non-overlapping occurrences of `pat`, scanning left to right. */
  function RemoveAll(s: string, pat: string): (r: string)
    requires |pat| > 0
    ensures |r| <= |s|
  {
    if |s| < |pat| then s
    else if s[..|pat|] == pat then RemoveAll(s[|pat|..], pat)
    else [s[0]] + RemoveAll(s[1..], pat)
  }

  /** A string in which `pat` does not occur is left as it is. */
  lemma {:induction false} RemoveAllWithoutOccurrence(s: string, pat: string)
    requires |pat| > 0
    requires !Contains(s, pat)
    ensures RemoveAll(s, pat) == s
  {
    if |s| >= |pat| {
      assert !OccursAt(s, pat, 0);
      assert s[..|pat|] != pat;
      NotContainsTail(s, pat);
      RemoveAllWithoutOccurrence(s[1..], pat);
      assert s == [s[0]] + s[1..];
    }
  }

  /** A string without `pat` has no `pat` in its tail either. */
  lemma NotContainsTail(s: string, pat: string)
    requires |s| > 0 && !Contains(s, pat)
    ensures !Contains(s[1..], pat)
  {
    forall i | OccursAt(s[1..], pat, i) ensures false {
      assert s[1..][i..i + |pat|] == s[i + 1..i + 1 + |pat|];
      assert OccursAt(s, pat, i + 1);
    }
  }

  /** A stem without ".exe" in it, followed by ".exe", loses exactly the extension: "Microsoft.Photos.exe" becomes "Microsoft.Photos". */
  lemma {:induction false} RemoveExeExtension(stem: string)
    requires !Contains(stem, ".exe")
    ensures RemoveAll(stem + ".exe", ".exe") == stem
  {
    var s := stem + ".exe";
    if |stem| == 0 {
      assert s == ".exe";
      assert s[4..] == [];
    } else {
      if |stem| >= 4 {
        assert !OccursAt(stem, ".exe", 0);
        assert s[..4] == stem[..4];
      } else {
        assert s[|stem|] == '.' && ".exe"[|stem|] != '.';
      }
      assert s[..4] != ".exe";
      assert s[1..] == stem[1..] + ".exe";
      NotContainsTail(stem, ".exe");
      RemoveExeExtension(stem[1..]);
      assert stem == [stem[0]] + stem[1..];
    }
  }

  /** `s.split('.')`: the pieces between dots; always at least one piece. */
  function SplitDots(s: string): (r: seq<string>)
    ensures |r| >= 1
  {
    if |s| == 0 then [[]]
    else
      var rest := SplitDots(s[1..]);
      if s[0] == '.' then [[]] + rest
      else [[s[0]] + rest[0]] + rest[1..]
  }

  /** A name splits into a single piece exactly when it has no dot. */
  lemma {:induction false} SplitDotsSingle(s: string)
    ensures |SplitDots(s)| == 1 <==> LastDot(s).None?
  {
    if |s| > 0 {
      SplitDotsSingle(s[1..]);
    }
  }

  /** `sep.join(parts)`. */
  function Join(parts: seq<string>, sep: string): string
  {
    if |parts| == 0 then []
    else if |parts| == 1 then parts[0]
    else parts[0] + sep + Join(parts[1..], sep)
  }

  lemma JoinHeadChar(c: char, x: string, rest: seq<string>, sep: string)
    ensures Join([[c] + x] + rest, sep) == [c] + Join([x] + rest, sep)
  {
    var a := [[c] + x] + rest;
    var b := [x] + rest;
    if |rest| > 0 {
      assert a[1..] == rest && b[1..] == rest;
    }
  }

  lemma InitAfterHead<T>(x: T, p: seq<T>)
    requires |p| >= 2
    ensures ([x] + p[1..])[..|p| - 1] == [x] + p[1..|p| - 1]
  {
  }

  /** Every dot replaced by a space. */
  function DotsToSpaces(s: string): (r: string)
    ensures |r| == |s|
  {
    if |s| == 0 then [] else [if s[0] == '.' then ' ' else s[0]] + DotsToSpaces(s[1..])
  }

  /** The position of the last dot in `s`. */
  function LastDot(s: string): (r: Option<nat>)
    ensures r.Some? ==> r.value < |s| && s[r.value] == '.'
  {
    if |s| == 0 then None
    else
      match LastDot(s[1..])
      case Some(k) => Some(k + 1)
      case None => if s[0] == '.' then Some(0) else None
  }

  lemma {:induction false} LastDotFindsDot(s: string)
    ensures LastDot(s).None? <==> '.' !in s
  {
    if |s| > 0 {
      LastDotFindsDot(s[1..]);
      assert s == [s[0]] + s[1..];
    }
  }

  lemma {:induction false} LastDotIsLast(s: string)
    requires LastDot(s).Some?
    ensures '.' !in s[LastDot(s).value + 1..]
  {
    assert s == [s[0]] + s[1..];
    if LastDot(s[1..]).None? {
      LastDotFindsDot(s[1..]);
    } else {
      LastDotIsLast(s[1..]);
      assert s[LastDot(s).value + 1..] == s[1..][LastDot(s[1..]).value + 1..];
    }
  }

  /** `' '.join(pieces[:-1])`. */
  function JoinAllButLast(pieces: seq<string>): string
    requires |pieces| >= 1
  {
    Join(pieces[..|pieces| - 1], " ")
  }

  /** The older session title (core.py): every dot-separated piece except the last, joined with spaces. */
  function DottedTitle(name: string): string
  {
    JoinAllButLast(SplitDots(name))
  }

  lemma DotsToSpacesPrefix(s: string, k: nat)
    requires 0 < |s| && k < |s|
    ensures DotsToSpaces(s[..k + 1]) == [if s[0] == '.' then ' ' else s[0]] + DotsToSpaces(s[1..][..k])
  {
    assert s[..k + 1][1..] == s[1..][..k];
  }

  lemma JoinAllButLastAfterEmpty(rest: seq<string>)
    requires |rest| >= 1
    ensures JoinAllButLast([[]] + rest) == if |rest| == 1 then "" else " " + JoinAllButLast(rest)
  {
    var p := [[]] + rest;
    assert p[..|p| - 1] == [[]] + rest[..|rest| - 1];
    if |rest| > 1 {
      assert ([[]] + rest[..|rest| - 1])[1..] == rest[..|rest| - 1];
    }
  }

  lemma JoinAllButLastAfterChar(c: char, rest: seq<string>)
    requires |rest| >= 1
    ensures JoinAllButLast([[c] + rest[0]] + rest[1..]) == if |rest| == 1 then "" else [c] + JoinAllButLast(rest)
  {
    if |rest| > 1 {
      InitAfterHead([c] + rest[0], rest);
      InitAfterHead(rest[0], rest);
      JoinHeadChar(c, rest[0], rest[1..|rest| - 1], " ");
    }
  }

  /**
   * The older title is the part of the name before its last dot, with the
   * remaining dots turned into spaces; a name without a dot gives "".
   */
  lemma {:induction false} DottedTitleShape(name: string)
    ensures LastDot(name).None? ==> DottedTitle(name) == ""
    ensures LastDot(name).Some? ==> DottedTitle(name) == DotsToSpaces(name[..LastDot(name).value])
  {
    if |name| > 0 {
      var tail := name[1..];
      var rest := SplitDots(tail);
      DottedTitleShape(tail);
      SplitDotsSingle(tail);
      if name[0] == '.' {
        assert SplitDots(name) == [[]] + rest;
        JoinAllButLastAfterEmpty(rest);
      } else {
        assert SplitDots(name) == [[name[0]] + rest[0]] + rest[1..];
        JoinAllButLastAfterChar(name[0], rest);
      }
      if LastDot(tail).Some? {
        DotsToSpacesPrefix(name, LastDot(tail).value);
      }
    }
  }
}
