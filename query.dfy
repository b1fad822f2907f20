/**
 * Classifying request URLs: whether a URL is a data source query
 * (`isDataQuery`) and whether it is local to the server (`isLocalUrl`).
 */
module Query {
  /** `p` occurs in `s` at `i`. */
  predicate OccursAt(s: string, p: string, i: nat)
  {
    i + |p| <= |s| && s[i..i + |p|] == p
  }

  /** `p` occurs somewhere in `s`. */
  predicate Contains(s: string, p: string)
  {
    exists i :: 0 <= i <= |s| && OccursAt(s, p, i)
  }

  /** `s.indexOf(p, from)`: the first occurrence at or after `from`, -1 when there is none. */
  function IndexOfFrom(s: string, p: string, from: nat): (r: int)
    requires from <= |s|
    ensures r == -1 || (from <= r && OccursAt(s, p, r))
    ensures r == -1 <==> forall i: nat :: from <= i ==> !OccursAt(s, p, i)
    ensures r != -1 ==> forall i: nat :: from <= i < r ==> !OccursAt(s, p, i)
    decreases |s| - from
  {
    if OccursAt(s, p, from) then from
    else if from + |p| >= |s| then
      assert forall i: nat :: from < i ==> !OccursAt(s, p, i);
      -1
    else IndexOfFrom(s, p, from + 1)
  }

  /** `s.indexOf(p)`. */
  function IndexOf(s: string, p: string): (r: int)
    ensures r != -1 <==> Contains(s, p)
    ensures r != -1 ==> r >= 0 && OccursAt(s, p, r) && forall i: nat :: i < r ==> !OccursAt(s, p, i)
  {
    IndexOfFrom(s, p, 0)
  }

  /** `isDataQuery(url)`. */
  function IsDataQuery(url: string): (r: bool)
    ensures r <==> Contains(url, "api/datasources/proxy") || Contains(url, "api/ds/query")
  {
    if IndexOf(url, "api/datasources/proxy") != -1 || IndexOf(url, "api/ds/query") != -1 then true
    else false
  }

  /** What occurs in a URL occurs in any longer one. */
  lemma ContainsAppended(s: string, p: string, t: string)
    requires Contains(s, p)
    ensures Contains(s + t, p)
  {
    var i :| 0 <= i <= |s| && OccursAt(s, p, i);
    assert (s + t)[i..i + |p|] == s[i..i + |p|];
    assert OccursAt(s + t, p, i);
  }

  /** Appending to a data query URL (its query string, say) keeps it a data query. */
  lemma DataQueryAppended(url: string, t: string)
    requires IsDataQuery(url)
    ensures IsDataQuery(url + t)
  {
    if Contains(url, "api/datasources/proxy") {
      ContainsAppended(url, "api/datasources/proxy", t);
    } else {
      ContainsAppended(url, "api/ds/query", t);
    }
  }

  /** `/^http/` matches `url`. */
  predicate MatchesHttp(url: string)
  {
    |url| >= 4 && url[0] == 'h' && url[1] == 't' && url[2] == 't' && url[3] == 'p'
  }

  /** `isLocalUrl(url)`: the URL does not start with "http". */
  function IsLocalUrl(url: string): (r: bool)
    ensures r <==> !(|url| >= 4 && url[..4] == "http")
  {
    !MatchesHttp(url)
  }

  /** Both schemes are remote, a path is local. */
  lemma Schemes(rest: string)
    ensures !IsLocalUrl("http://" + rest) && !IsLocalUrl("https://" + rest)
    ensures IsLocalUrl("/" + rest)
  {
    assert ("http://" + rest)[..4] == "http";
    assert ("https://" + rest)[..4] == "http";
  }

  /** Only the first four characters decide: "http" later in the URL is ignored. */
  lemma OnlyPrefixMatters(a: string, b: string)
    requires |a| >= 4
    ensures IsLocalUrl(a + b) == IsLocalUrl(a)
  {
    assert (a + b)[..4] == a[..4];
  }
}
