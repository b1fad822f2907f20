/**
 * The URL slugifier: lower-case the text, keep `a–z` and `0–9`, write the
 * replacement of a mapped character, collapse every run of other
 * characters into one '-', trim '-' from both ends; an empty slug falls
 * back to the text's base64url form and then to a UUID.
 */
module Slugify {
  import opened Ascii

  /** `replaceCharacter`. */
  const Dash: char := '-'

  /**
   * The legible entries of `getDefaultReplacements`; the full table is the
   * `replacements` parameter of the operations below.
   */
  const LegibleReplacements: map<char, string> := map['&' := "and", '@' := "at"]

  /** `validCharacter`. */
  predicate ValidCharacter(c: char)
  {
    ('a' <= c <= 'z') || ('0' <= c <= '9')
  }

  /**
   * The buffer the scanning loop writes for the rest `v` of the text, when
   * the character before it was an invalid one (`lastWasInvalid`).
   */
  function Scan(v: string, replacements: map<char, string>, lastWasInvalid: bool): string
  {
    if |v| == 0 then ""
    else
      var c := v[0];
      if c in replacements then replacements[c] + Scan(v[1..], replacements, false)
      else if ValidCharacter(c) then [c] + Scan(v[1..], replacements, false)
      else if !lastWasInvalid then [Dash] + Scan(v[1..], replacements, true)
      else Scan(v[1..], replacements, true)
  }

  /** `strings.Trim(s, "-")`: drop '-' from both ends. */
  function TrimDashes(s: string): (r: string)
    ensures |r| == 0 || (r[0] != Dash && r[|r| - 1] != Dash)
    ensures exists i, j :: 0 <= i <= j <= |s| && r == s[i..j]
    decreases |s|
  {
    if |s| == 0 then assert s[0..0] == ""; ""
    else if s[0] == Dash then
      var r := TrimDashes(s[1..]);
      assert exists i, j :: 0 <= i <= j <= |s| && r == s[i..j] by {
        var i, j :| 0 <= i <= j <= |s[1..]| && r == s[1..][i..j];
        assert r == s[i + 1..j + 1];
      }
      r
    else if s[|s| - 1] == Dash then
      var r := TrimDashes(s[..|s| - 1]);
      assert exists i, j :: 0 <= i <= j <= |s| && r == s[i..j] by {
        var i, j :| 0 <= i <= j <= |s[..|s| - 1]| && r == s[..|s| - 1][i..j];
        assert r == s[i..j];
      }
      r
    else assert s == s[0..|s|]; s
  }

  /** Trimming a text without a '-' at either end leaves it as it is. */
  lemma TrimDashesKeeps(s: string)
    requires |s| == 0 || (s[0] != Dash && s[|s| - 1] != Dash)
    ensures TrimDashes(s) == s
  {
  }

  /** The slugger's `Slugify(value)`. */
  function SlugOf(value: string, replacements: map<char, string>): (r: string)
    ensures |r| == 0 || (r[0] != Dash && r[|r| - 1] != Dash)
  {
    TrimDashes(Scan(ToLower(value), replacements, false))
  }

  /** The slugger's `Slugify(value)`: the scanning loop over the lower-cased text, then the trim. */
  method Slugger(value: string, replacements: map<char, string>) returns (r: string)
    ensures r == SlugOf(value, replacements)
  {
    var v := ToLower(value);
    ghost var text := v;
    var buffer := "";
    var lastCharacterWasInvalid := false;
    while |v| > 0
      invariant buffer + Scan(v, replacements, lastCharacterWasInvalid) == Scan(text, replacements, false)
    {
      var c := v[0];
      var rest := v[1..];
      if c in replacements {
        assert Scan(v, replacements, lastCharacterWasInvalid) == replacements[c] + Scan(rest, replacements, false);
        Regroup(buffer, replacements[c], Scan(rest, replacements, false));
        buffer := buffer + replacements[c];
        lastCharacterWasInvalid := false;
        v := rest;
        continue;
      }
      if ValidCharacter(c) {
        assert Scan(v, replacements, lastCharacterWasInvalid) == [c] + Scan(rest, replacements, false);
        Regroup(buffer, [c], Scan(rest, replacements, false));
        buffer := buffer + [c];
        lastCharacterWasInvalid := false;
      } else if !lastCharacterWasInvalid {
        assert Scan(v, replacements, lastCharacterWasInvalid) == [Dash] + Scan(rest, replacements, true);
        Regroup(buffer, [Dash], Scan(rest, replacements, true));
        buffer := buffer + [Dash];
        lastCharacterWasInvalid := true;
      } else {
        assert Scan(v, replacements, lastCharacterWasInvalid) == Scan(rest, replacements, true);
      }
      v := rest;
    }
    assert buffer + "" == buffer;
    assert buffer == Scan(text, replacements, false);
    r := TrimDashes(buffer);
  }

  lemma Regroup(a: string, b: string, c: string)
    ensures a + (b + c) == (a + b) + c
  {
  }

  // ---------------------------------------------------------------------
  // What the scan promises
  // ---------------------------------------------------------------------

  /** Only `a–z` and `0–9` pass through: a text of those, without mapped characters, is its own slug. */
  lemma {:induction false} ValidTextUnchanged(v: string, replacements: map<char, string>, last: bool)
    requires forall i :: 0 <= i < |v| ==> ValidCharacter(v[i]) && v[i] !in replacements
    ensures Scan(v, replacements, last) == v
  {
    if |v| > 0 {
      ValidTextUnchanged(v[1..], replacements, false);
    }
  }

  /** A lower-case slug-safe text is its own slug. */
  lemma SlugOfValidText(value: string, replacements: map<char, string>)
    requires |value| > 0 && value[0] != Dash
    requires forall i :: 0 <= i < |value| ==> ValidCharacter(value[i]) && value[i] !in replacements
    ensures SlugOf(value, replacements) == value
  {
    assert ToLower(value) == value;
    ValidTextUnchanged(value, replacements, false);
  }

  /** A mapped character writes its replacement and clears the invalid flag. */
  lemma MappedCharacter(c: char, rest: string, replacements: map<char, string>, last: bool)
    requires c in replacements
    ensures Scan([c] + rest, replacements, last) == replacements[c] + Scan(rest, replacements, false)
  {
    assert ([c] + rest)[1..] == rest;
  }

  /**
   * A maximal run of unmapped invalid characters writes exactly one '-'
   * (none when it follows another invalid character) and leaves the flag set.
   */
  lemma {:induction false} InvalidRunOneDash(run: string, rest: string, replacements: map<char, string>, last: bool)
    requires |run| > 0
    requires forall i :: 0 <= i < |run| ==> !ValidCharacter(run[i]) && run[i] !in replacements
    ensures Scan(run + rest, replacements, last) == (if last then "" else [Dash]) + Scan(rest, replacements, true)
  {
    assert (run + rest)[0] == run[0];
    assert (run + rest)[1..] == run[1..] + rest;
    if |run| > 1 {
      InvalidRunOneDash(run[1..], rest, replacements, true);
    } else {
      assert run[1..] + rest == rest;
    }
  }

  /** No "--" in a text. */
  predicate NoDoubleDash(s: string)
  {
    forall i :: 0 <= i < |s| - 1 ==> !(s[i] == Dash && s[i + 1] == Dash)
  }

  lemma NoDoubleDashConcat(a: string, b: string)
    requires NoDoubleDash(a) && NoDoubleDash(b)
    requires |a| == 0 || |b| == 0 || a[|a| - 1] != Dash || b[0] != Dash
    ensures NoDoubleDash(a + b)
  {
    var s := a + b;
    forall i | 0 <= i < |s| - 1 ensures !(s[i] == Dash && s[i + 1] == Dash) {
      if i + 1 < |a| {
        assert s[i] == a[i] && s[i + 1] == a[i + 1];
      } else if i >= |a| {
        assert s[i] == b[i - |a|] && s[i + 1] == b[i - |a| + 1];
      }
    }
  }

  /** Replacements made of `a–z` and `0–9` only, none empty. */
  predicate PlainReplacements(replacements: map<char, string>)
  {
    forall c :: c in replacements ==>
      |replacements[c]| > 0 && forall i :: 0 <= i < |replacements[c]| ==> ValidCharacter(replacements[c][i])
  }

  /**
   * With plain replacements, the scan writes only `a–z`, `0–9` and '-' and
   * never two '-' in a row; after an invalid character it does not start
   * with '-'.
   */
  lemma {:induction false} ScanShape(v: string, replacements: map<char, string>, last: bool)
    requires PlainReplacements(replacements)
    ensures var s := Scan(v, replacements, last);
      NoDoubleDash(s)
      && (forall i :: 0 <= i < |s| ==> ValidCharacter(s[i]) || s[i] == Dash)
      && (last && |s| > 0 ==> s[0] != Dash)
  {
    if |v| > 0 {
      var c := v[0];
      if c in replacements {
        ScanShape(v[1..], replacements, false);
        NoDoubleDashConcat(replacements[c], Scan(v[1..], replacements, false));
      } else if ValidCharacter(c) {
        ScanShape(v[1..], replacements, false);
        NoDoubleDashConcat([c], Scan(v[1..], replacements, false));
      } else if !last {
        ScanShape(v[1..], replacements, true);
        NoDoubleDashConcat([Dash], Scan(v[1..], replacements, true));
      } else {
        ScanShape(v[1..], replacements, true);
      }
    }
  }

  /**
   * With plain replacements a slug consists of `a–z`, `0–9` and single '-'
   * separators, and neither starts nor ends with '-'.
   */
  lemma SlugShape(value: string, replacements: map<char, string>)
    requires PlainReplacements(replacements)
    ensures var r := SlugOf(value, replacements);
      NoDoubleDash(r) && forall i :: 0 <= i < |r| ==> ValidCharacter(r[i]) || r[i] == Dash
  {
    var s := Scan(ToLower(value), replacements, false);
    ScanShape(ToLower(value), replacements, false);
    var r := TrimDashes(s);
    var i, j :| 0 <= i <= j <= |s| && r == s[i..j];
    forall k | 0 <= k < |r| - 1 ensures !(r[k] == Dash && r[k + 1] == Dash) {
      assert r[k] == s[i + k] && r[k + 1] == s[i + k + 1];
    }
    forall k | 0 <= k < |r| ensures ValidCharacter(r[k]) || r[k] == Dash {
      assert r[k] == s[i + k];
    }
  }

  lemma LegibleReplacementsArePlain()
    ensures PlainReplacements(LegibleReplacements)
  {
  }

  // ---------------------------------------------------------------------
  // Slugify with its fallbacks
  // ---------------------------------------------------------------------

  /**
   * `Slugify(value)`, given `base64url`, the unpadded RFC 4648 section 5
   * encoding of the text's bytes, and `uuid`, the text form of the RFC 4122
   * section 4.3 name-based UUID of the text.
   */
  function SlugifyWith(value: string, replacements: map<char, string>, base64url: string, uuid: string): (r: string)
    ensures SlugOf(value, replacements) != "" ==> r == SlugOf(value, replacements)
    ensures SlugOf(value, replacements) == "" && base64url != "" && |base64url| <= 50 ==> r == base64url
    ensures SlugOf(value, replacements) == "" && (base64url == "" || |base64url| > 50) ==> r == uuid
  {
    var s := SlugOf(value, replacements);
    if s != "" then s
    else if |base64url| > 50 || base64url == "" then uuid
    else base64url
  }

  /** A slug is never empty, a UUID's 36-character text being non-empty. */
  lemma SlugifyNeverEmpty(value: string, replacements: map<char, string>, base64url: string, uuid: string)
    requires |uuid| == 36
    ensures SlugifyWith(value, replacements, base64url, uuid) != ""
  {
  }
}
