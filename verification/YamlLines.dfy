/** The structure of a YAML line: an explicit matcher for keys and list items. */
module YamlLines {
  import opened Wrappers

  /** The white space of the line pattern. */
  predicate IsBlank(c: char) {
    c == ' ' || c == '\t' || c == '\n' || c == '\r' || c as int == 12
  }

  predicate IsKeyChar(c: char) { c != ':' && !IsBlank(c) }

  predicate AllBlank(s: string) { forall i :: 0 <= i < |s| ==> IsBlank(s[i]) }

  predicate AllKey(s: string) { forall i :: 0 <= i < |s| ==> IsKeyChar(s[i]) }

  // ----- the language of prefixes

  /** A key, a colon and white space, cut at `k`. */
  ghost predicate KeyAt(s: string, k: nat) {
    1 <= k < |s| && AllKey(s[..k]) && s[k] == ':' && AllBlank(s[k + 1..])
  }

  ghost predicate IsKeyed(s: string) {
    exists k: nat :: KeyAt(s, k)
  }

  /** A dash, white space up to `j`, and possibly a key. */
  ghost predicate ItemAt(s: string, j: nat) {
    2 <= j <= |s| && s[0] == '-' && AllBlank(s[1..j]) && (j == |s| || IsKeyed(s[j..]))
  }

  ghost predicate IsItem(s: string) {
    exists j: nat :: ItemAt(s, j)
  }

  ghost predicate PrefixAt(p: string, i: nat) {
    i <= |p| && AllBlank(p[..i]) && (IsKeyed(p[i..]) || IsItem(p[i..]))
  }

  /** Indentation followed by a key, or by a list item that may hold a key. */
  ghost predicate IsPrefix(p: string) {
    exists i: nat :: PrefixAt(p, i)
  }

  // ----- the matcher

  function Blanks(s: string): (n: nat)
    ensures n <= |s| && AllBlank(s[..n]) && (n < |s| ==> !IsBlank(s[n]))
  {
    if s != "" && IsBlank(s[0]) then
      var n := Blanks(s[1..]);
      assert s[..n + 1] == [s[0]] + s[1..][..n];
      n + 1
    else 0
  }

  function KeyChars(s: string): (n: nat)
    ensures n <= |s| && AllKey(s[..n]) && (n < |s| ==> !IsKeyChar(s[n]))
  {
    if s != "" && IsKeyChar(s[0]) then
      var n := KeyChars(s[1..]);
      assert s[..n + 1] == [s[0]] + s[1..][..n];
      n + 1
    else 0
  }

  function MatchKey(s: string): (r: Option<nat>)
    ensures r.Some? ==> r.value <= |s|
  {
    var k := KeyChars(s);
    if 0 < k < |s| && s[k] == ':' then Some(k + 1 + Blanks(s[k + 1..])) else None
  }

  function MatchItem(s: string): (r: Option<nat>)
    ensures r.Some? ==> r.value <= |s|
  {
    if s != "" && s[0] == '-' && Blanks(s[1..]) > 0 then
      var j := 1 + Blanks(s[1..]);
      match MatchKey(s[j..])
      case Some(n) => Some(j + n)
      case None => Some(j)
    else None
  }

  /** The length of the prefix of a line, if it has one. */
  function MatchPrefix(line: string): (r: Option<nat>)
    ensures r.Some? ==> r.value <= |line|
  {
    var w := Blanks(line);
    match MatchKey(line[w..])
    case Some(n) => Some(w + n)
    case None =>
      match MatchItem(line[w..])
      case Some(n) => Some(w + n)
      case None => None
  }

  // ----- the matcher finds the longest prefix of the language

  lemma MatchKeyFinds(s: string)
    ensures MatchKey(s).Some? ==> IsKeyed(s[..MatchKey(s).value])
  {
    if MatchKey(s).Some? {
      var k, n := KeyChars(s), MatchKey(s).value;
      assert s[..n][..k] == s[..k];
      assert s[..n][k + 1..] == s[k + 1..][..n - k - 1];
      assert KeyAt(s[..n], k);
    }
  }

  lemma MatchKeyLongest(s: string, m: nat)
    requires m <= |s| && IsKeyed(s[..m])
    ensures MatchKey(s).Some? && m <= MatchKey(s).value
  {
    var k: nat :| KeyAt(s[..m], k);
    assert s[..m][..k] == s[..k];
    KeyCharsAre(s, k);
    assert s[..m][k + 1..] == s[k + 1..][..m - k - 1];
    BlanksAtLeast(s[k + 1..], m - k - 1);
  }

  lemma {:induction false} BlanksAtLeast(s: string, k: nat)
    requires k <= |s| && AllBlank(s[..k])
    ensures k <= Blanks(s)
  {
    if k > 0 {
      assert s[..k][0] == s[0];
      assert s[1..][..k - 1] == s[..k][1..];
      BlanksAtLeast(s[1..], k - 1);
    }
  }

  lemma {:induction false} KeyCharsAre(s: string, k: nat)
    requires k <= |s| && AllKey(s[..k]) && (k < |s| ==> !IsKeyChar(s[k]))
    ensures KeyChars(s) == k
  {
    if k > 0 {
      assert s[..k][0] == s[0];
      assert s[1..][..k - 1] == s[..k][1..];
      KeyCharsAre(s[1..], k - 1);
    }
  }

  lemma {:induction false} BlanksAre(s: string, k: nat)
    requires k <= |s| && AllBlank(s[..k]) && (k < |s| ==> !IsBlank(s[k]))
    ensures Blanks(s) == k
  {
    if k > 0 {
      assert s[..k][0] == s[0];
      assert s[1..][..k - 1] == s[..k][1..];
      BlanksAre(s[1..], k - 1);
    }
  }

  lemma MatchItemFinds(s: string)
    ensures MatchItem(s).Some? ==> IsItem(s[..MatchItem(s).value])
  {
    if MatchItem(s).Some? {
      var j, n := 1 + Blanks(s[1..]), MatchItem(s).value;
      assert s[..n][1..j] == s[1..][..j - 1];
      assert s[..n][j..] == s[j..][..n - j];
      MatchKeyFinds(s[j..]);
      assert ItemAt(s[..n], j);
    }
  }

  /** A dash, white space up to `j` and no more make the matcher look for a key at `j`. */
  lemma MatchItemAt(s: string, j: nat)
    requires 2 <= j <= |s| && s[0] == '-' && AllBlank(s[1..j]) && (j < |s| ==> !IsBlank(s[j]))
    ensures Blanks(s[1..]) == j - 1 && MatchKey(s).None?
    ensures MatchItem(s) == Some(if MatchKey(s[j..]).Some? then j + MatchKey(s[j..]).value else j)
  {
    assert s[1..][..j - 1] == s[1..j];
    assert s[1..j][0] == s[1];
    BlanksAre(s[1..], j - 1);
    assert s[..1] == [s[0]];
    KeyCharsAre(s, 1);
  }

  lemma MatchItemLongest(s: string, m: nat)
    requires m <= |s| && IsItem(s[..m])
    ensures MatchItem(s).Some? && m <= MatchItem(s).value
  {
    var j: nat :| ItemAt(s[..m], j);
    assert s[..m][1..j] == s[1..j];
    if j < m {
      var t := s[..m][j..];
      FirstNotBlank(t);
      assert t[0] == s[j] && t == s[j..][..m - j];
      MatchItemAt(s, j);
      MatchKeyLongest(s[j..], m - j);
    } else {
      var b := j + Blanks(s[j..]);
      assert forall i :: 0 <= i < b - 1 ==> s[1..b][i] == if i < j - 1 then s[1..j][i] else s[j..][..b - j][i + 1 - j];
      MatchItemAt(s, b);
    }
  }

  /** A key and a list item never compete: a dash followed by white space is not a key. */
  lemma KeyIsNotItem(s: string)
    requires MatchKey(s).Some?
    ensures MatchItem(s).None?
  {
    if s[0] == '-' && Blanks(s[1..]) > 0 {
      var j := 1 + Blanks(s[1..]);
      assert s[1..j] == s[1..][..j - 1];
      MatchItemAt(s, j);
    }
  }

  /** The matcher finds the longest prefix of the line that belongs to the language, and nothing when there is none. */
  lemma MatchPrefixIsLongest(line: string)
    ensures MatchPrefix(line).Some? ==> IsPrefix(line[..MatchPrefix(line).value])
    ensures forall m :: 0 <= m <= |line| && IsPrefix(line[..m]) ==> MatchPrefix(line).Some? && m <= MatchPrefix(line).value
  {
    hide IsKeyed, IsItem, MatchKey, MatchItem, IsPrefix;
    var w := Blanks(line);
    var s := line[w..];
    MatchKeyFinds(s);
    MatchItemFinds(s);
    if MatchPrefix(line).Some? {
      var n := MatchPrefix(line).value;
      assert line[..n][..w] == line[..w] && line[..n][w..] == s[..n - w];
      IsPrefixAt(line[..n], w);
    }
    forall m: nat | m <= |line| && IsPrefix(line[..m]) ensures MatchPrefix(line).Some? && m <= MatchPrefix(line).value {
      PrefixIsFound(line, m);
    }
  }

  lemma IsPrefixAt(p: string, i: nat)
    requires PrefixAt(p, i)
    ensures IsPrefix(p)
  {
  }

  lemma PrefixIsFound(line: string, m: nat)
    requires m <= |line| && IsPrefix(line[..m])
    ensures MatchPrefix(line).Some? && m <= MatchPrefix(line).value
  {
    hide IsKeyed, IsItem, MatchKey, MatchItem;
    var i: nat :| PrefixAt(line[..m], i);
    var t, s := line[..m][i..], line[i..];
    FirstNotBlank(t);
    assert t[0] == line[i] && line[..m][..i] == line[..i];
    BlanksAre(line, i);
    assert t == s[..m - i];
    if IsKeyed(t) {
      MatchKeyLongest(s, m - i);
    } else {
      MatchItemLongest(s, m - i);
      if MatchKey(s).Some? {
        KeyIsNotItem(s);
      }
    }
  }

  lemma FirstNotBlank(t: string)
    requires IsKeyed(t) || IsItem(t)
    ensures t != "" && !IsBlank(t[0])
  {
    if IsKeyed(t) {
      var k: nat :| KeyAt(t, k);
      assert t[..k][0] == t[0];
    } else {
      var j: nat :| ItemAt(t, j);
    }
  }

  // ----- what follows the prefix does not change it

  /** A prefix that ends in a key is found again whatever non-blank text follows. */
  lemma KeyedPrefixStays(s: string, n: nat, rest: string)
    requires MatchKey(s) == Some(n) && rest != "" && !IsBlank(rest[0])
    ensures MatchKey(s[..n] + rest) == Some(n)
  {
    var k := KeyChars(s);
    var t := s[..n] + rest;
    assert t[..k] == s[..k];
    KeyCharsAre(t, k);
    assert t[k + 1..] == s[k + 1..][..n - k - 1] + rest;
    assert t[k + 1..][..n - k - 1] == s[k + 1..][..n - k - 1];
    BlanksAre(t[k + 1..], n - k - 1);
  }

  /** The prefix is a dash and white space only. */
  predicate BareItem(line: string) {
    var s := line[Blanks(line)..];
    MatchKey(s).None? && MatchItem(s).Some? && MatchKey(s[1 + Blanks(s[1..])..]).None?
  }

  /**
    * Replacing what follows the prefix keeps the prefix, except that a key at the start of the new text extends the
    * prefix of a bare list item.
    */
  lemma PrefixStays(line: string, rest: string)
    requires MatchPrefix(line).Some? && rest != "" && !IsBlank(rest[0])
    ensures var n := MatchPrefix(line).value;
            MatchPrefix(line[..n] + rest) ==
              if BareItem(line) && MatchKey(rest).Some? then Some(n + MatchKey(rest).value) else Some(n)
  {
    hide IsKeyed, IsItem, MatchKey, MatchItem;
    var w, n := Blanks(line), MatchPrefix(line).value;
    var s, t := line[w..], line[..n] + rest;
    MatchKeyFinds(s);
    MatchItemFinds(s);
    FirstNotBlank(s[..n - w]);
    assert t[..w] == line[..w] && t[w..] == s[..n - w] + rest && t[w] == s[..n - w][0];
    BlanksAre(t, w);
    if MatchKey(s).Some? {
      KeyedPrefixStays(s, n - w, rest);
    } else {
      ItemStays(s, n - w, rest);
    }
  }

  lemma MatchedItem(s: string)
    requires MatchItem(s).Some?
    ensures var j := 1 + Blanks(s[1..]);
            && s != "" && s[0] == '-' && 2 <= j <= |s| && AllBlank(s[1..][..j - 1])
            && MatchItem(s).value == if MatchKey(s[j..]).Some? then j + MatchKey(s[j..]).value else j
    ensures MatchKey(s[1 + Blanks(s[1..])..]).Some? ==> MatchKey(s[1 + Blanks(s[1..])..]).value <= |s| - (1 + Blanks(s[1..]))
  {
    hide MatchKey, IsKeyed;
  }

  lemma ItemStays(s: string, n: nat, rest: string)
    requires MatchKey(s).None? && MatchItem(s) == Some(n) && rest != "" && !IsBlank(rest[0])
    ensures var j, t := 1 + Blanks(s[1..]), s[..n] + rest;
            && MatchKey(t).None?
            && MatchItem(t) ==
                 if MatchKey(s[j..]).None? && MatchKey(rest).Some? then Some(n + MatchKey(rest).value) else Some(n)
  {
    hide *;
    MatchedItem(s);
    var j, t := 1 + Blanks(s[1..]), s[..n] + rest;
    var tail := s[j..];
    assert t[1..j] == s[1..][..j - 1];
    assert t[j..] == tail[..n - j] + rest;
    if MatchKey(tail).Some? {
      MatchKeyFinds(tail);
      FirstNotBlank(tail[..n - j]);
      assert t[j] == tail[..n - j][0];
      MatchItemAt(t, j);
      KeyedPrefixStays(tail, n - j, rest);
    } else {
      assert t[j..] == rest;
      MatchItemAt(t, j);
    }
  }
}
