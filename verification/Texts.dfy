/** Trimming, and the distinct strings of a list. */
module Texts {
  import opened Common

  // ---------------------------------------------------------------- white space

  predicate IsSpace(c: char) { c == ' ' || '\t' <= c <= '\r' }

  predicate Blank(s: string) { forall k :: 0 <= k < |s| ==> IsSpace(s[k]) }

  function TrimStart(s: string): string { if s == "" || !IsSpace(s[0]) then s else TrimStart(s[1..]) }

  function TrimEnd(s: string): string { if s == "" || !IsSpace(s[|s| - 1]) then s else TrimEnd(s[..|s| - 1]) }

  function Trim(s: string): string { TrimEnd(TrimStart(s)) }

  lemma {:induction false} TrimStartSplits(s: string) returns (pre: string)
    ensures s == pre + TrimStart(s) && Blank(pre) && (TrimStart(s) == "" || !IsSpace(TrimStart(s)[0]))
  {
    pre := "";
    if s != "" && IsSpace(s[0]) {
      pre := TrimStartSplits(s[1..]);
      pre := [s[0]] + pre;
      assert s == [s[0]] + s[1..];
    }
  }

  lemma {:induction false} TrimEndSplits(s: string) returns (post: string)
    ensures s == TrimEnd(s) + post && Blank(post) && (TrimEnd(s) == "" || !IsSpace(TrimEnd(s)[|TrimEnd(s)| - 1]))
  {
    post := "";
    if s != "" && IsSpace(s[|s| - 1]) {
      post := TrimEndSplits(s[..|s| - 1]);
      post := post + [s[|s| - 1]];
      assert s == s[..|s| - 1] + [s[|s| - 1]];
    }
  }

  /** Trimming takes off white space at both ends, all of it and nothing else. */
  lemma TrimSplits(s: string) returns (pre: string, post: string)
    ensures s == pre + Trim(s) + post && Blank(pre) && Blank(post)
    ensures Trim(s) != "" ==> !IsSpace(Trim(s)[0]) && !IsSpace(Trim(s)[|Trim(s)| - 1])
  {
    pre := TrimStartSplits(s);
    post := TrimEndSplits(TrimStart(s));
    if Trim(s) != "" { assert TrimStart(s)[0] == Trim(s)[0]; }
  }

  lemma NothingToTrim(s: string)
    requires s != "" && !IsSpace(s[0]) && !IsSpace(s[|s| - 1])
    ensures Trim(s) == s
  {
  }

  function Trims(items: seq<string>): seq<string> {
    seq(|items|, k requires 0 <= k < |items| => Trim(items[k]))
  }

  // ---------------------------------------------------------------- distinct strings

  predicate NonEmpty(s: string) { s != "" }

  /** The strings of a list that pass a test, each at its first occurrence. */
  function Unique(items: seq<string>, keep: string -> bool): (r: seq<string>)
    ensures Distinct(r)
    ensures forall t :: t in r <==> t in items && keep(t)
  {
    if items == [] then []
    else
      var n := |items| - 1;
      assert items == items[..n] + [items[n]];
      var r := Unique(items[..n], keep);
      if keep(items[n]) && items[n] !in r then r + [items[n]] else r
  }

  /** Position of the first occurrence. */
  function FirstAt(items: seq<string>, c: string): nat {
    if items == [] || items[0] == c then 0 else 1 + FirstAt(items[1..], c)
  }

  lemma {:induction false} FirstAtIs(items: seq<string>, c: string)
    requires c in items
    ensures var n := FirstAt(items, c); n < |items| && items[n] == c && forall k :: 0 <= k < n ==> items[k] != c
  {
    if items[0] != c { FirstAtIs(items[1..], c); }
  }

  lemma FirstAtSnoc(init: seq<string>, last: string, c: string)
    requires c in init + [last]
    ensures FirstAt(init + [last], c) == if c in init then FirstAt(init, c) else |init|
  {
    var items := init + [last];
    var n := FirstAt(items, c);
    FirstAtIs(items, c);
    assert n < |init| ==> init[n] == c;
    if c in init {
      FirstAtIs(init, c);
      assert items[FirstAt(init, c)] == c;
    }
  }

  /** They keep the order of their first occurrences. */
  lemma {:induction false} UniqueKeepsOrder(items: seq<string>, keep: string -> bool, i: nat, j: nat)
    requires i < j < |Unique(items, keep)|
    ensures Unique(items, keep)[i] in items && Unique(items, keep)[j] in items
    ensures FirstAt(items, Unique(items, keep)[i]) < FirstAt(items, Unique(items, keep)[j])
  {
    var n, r := |items| - 1, Unique(items, keep);
    var init, before := items[..n], Unique(items[..n], keep);
    assert items == init + [items[n]];
    assert r[i] == before[i] && r[i] in before && r[j] in r;
    FirstAtSnoc(init, items[n], r[i]);
    FirstAtSnoc(init, items[n], r[j]);
    assert r[j] in items;
    FirstAtIs(init, r[i]);
    if j < |before| {
      assert r[j] in before;
      UniqueKeepsOrder(init, keep, i, j);
    }
  }
}
