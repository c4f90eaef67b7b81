/** Names as Kubernetes checks them, and the order in which Go compares strings. */
module Names {

  /** A namespace and a name in it. It is also how an operator is named: by its DatabricksAccount. */
  datatype NamespacedName = NamespacedName(namespace: string, name: string) {
    function ToString(): string {
      namespace + "/" + name
    }
  }

  predicate IsAlnum(c: char) {
    'a' <= c <= 'z' || '0' <= c <= '9'
  }

  /** Letters, digits and inner hyphens: one label of a DNS name, of any length. */
  predicate IsLabelText(s: string) {
    && s != []
    && IsAlnum(s[0])
    && IsAlnum(s[|s| - 1])
    && forall i | 0 <= i < |s| :: IsAlnum(s[i]) || s[i] == '-'
  }

  /** One label of section 2.1 of RFC 1123, as Kubernetes checks it. */
  predicate IsLabel(s: string) {
    |s| <= 63 && IsLabelText(s)
  }

  /** The position of the first c in s, or the length of s when there is none. */
  function IndexOf(s: string, c: char): (i: nat)
    ensures i <= |s|
    ensures c !in s[..i]
    ensures i < |s| ==> s[i] == c
    ensures i == |s| <==> c !in s
  {
    if s == [] || s[0] == c then 0 else 1 + IndexOf(s[1..], c)
  }

  lemma {:induction false} IndexOfFirst(s: string, t: string, c: char)
    requires c !in s
    ensures IndexOf(s + [c] + t, c) == |s|
  {
    if s != [] {
      assert s[0] in s;
      assert (s + [c] + t)[1..] == s[1..] + [c] + t;
      IndexOfFirst(s[1..], t, c);
    }
  }

  /** Labels joined by dots. Kubernetes bounds the whole of a subdomain and not each of its labels. */
  predicate IsDotted(s: string)
    decreases |s|
  {
    var dot := IndexOf(s, '.');
    IsLabelText(s[..dot]) && (dot < |s| ==> IsDotted(s[dot + 1..]))
  }

  predicate IsSubdomain(s: string) {
    |s| <= 253 && IsDotted(s)
  }

  /** What it takes of each character, with no reference to where a label begins. */
  predicate IsDottedLocally(s: string) {
    && s != []
    && IsAlnum(s[0])
    && IsAlnum(s[|s| - 1])
    && (forall i | 0 <= i < |s| :: IsAlnum(s[i]) || s[i] == '-' || s[i] == '.')
    && (forall i | 0 < i < |s| - 1 && s[i] == '.' :: IsAlnum(s[i - 1]) && IsAlnum(s[i + 1]))
  }

  lemma {:induction false} DottedIsLocal(s: string)
    ensures IsDotted(s) <==> IsDottedLocally(s)
    decreases |s|
  {
    var dot := IndexOf(s, '.');
    if dot < |s| {
      DottedIsLocal(s[dot + 1..]);
      assert s == s[..dot] + "." + s[dot + 1..];
      LocalSplits(s[..dot], s[dot + 1..]);
    } else {
      assert s[..dot] == s;
      assert forall i | 0 <= i < |s| :: s[i] != '.';
    }
  }

  lemma LocalSplits(head: string, rest: string)
    requires '.' !in head
    ensures IsDottedLocally(head + "." + rest) <==> IsLabelText(head) && IsDottedLocally(rest)
  {
    if IsDottedLocally(head + "." + rest) {
      PartsLocally(head, rest);
    }
    if IsLabelText(head) && IsDottedLocally(rest) {
      JoinsLocally(head, rest);
    }
  }

  lemma PartsLocally(head: string, rest: string)
    requires '.' !in head && IsDottedLocally(head + "." + rest)
    ensures IsLabelText(head) && IsDottedLocally(rest)
  {
    var s, dot := head + "." + rest, |head|;
    assert s[dot] == '.' && s[0] != '.' && s[|s| - 1] != '.';
    assert 0 < dot < |s| - 1;
    assert IsAlnum(head[dot - 1]) by { assert head[dot - 1] == s[dot - 1]; }
    assert IsAlnum(rest[0]) by { assert rest[0] == s[dot + 1]; }
    assert rest[|rest| - 1] == s[|s| - 1];
    forall i | 0 <= i < dot
      ensures IsAlnum(head[i]) || head[i] == '-'
    {
      assert head[i] == s[i] && head[i] in head;
    }
    forall j | 0 <= j < |rest|
      ensures IsAlnum(rest[j]) || rest[j] == '-' || rest[j] == '.'
    {
      assert rest[j] == s[j + dot + 1];
    }
    forall j | 0 < j < |rest| - 1 && rest[j] == '.'
      ensures IsAlnum(rest[j - 1]) && IsAlnum(rest[j + 1])
    {
      var i := j + dot + 1;
      assert rest[j] == s[i] && rest[j - 1] == s[i - 1] && rest[j + 1] == s[i + 1];
    }
  }

  lemma JoinsLocally(head: string, rest: string)
    requires IsLabelText(head) && IsDottedLocally(rest)
    ensures IsDottedLocally(head + "." + rest)
  {
    var s, dot := head + "." + rest, |head|;
    assert s[0] == head[0] && s[|s| - 1] == rest[|rest| - 1];
    assert forall i | 0 <= i < dot :: s[i] == head[i];
    assert s[dot] == '.';
    assert forall i | dot < i < |s| :: s[i] == rest[i - dot - 1];
    forall i | 0 < i < |s| - 1 && s[i] == '.'
      ensures IsAlnum(s[i - 1]) && IsAlnum(s[i + 1])
    {
      assert i >= dot;
      if i > dot {
        var j := i - dot - 1;
        assert rest[j] == '.' && 0 < j < |rest| - 1;
        assert s[i - 1] == rest[j - 1] && s[i + 1] == rest[j + 1];
      }
    }
  }

  /** The runes strings.TrimSpace takes off: Unicode's White_Space. */
  predicate IsSpace(c: char) {
    || '\t' <= c <= '\r' || c == ' ' || c == '\U{0085}' || c == '\U{00A0}' || c == '\U{1680}'
    || '\U{2000}' <= c <= '\U{200A}' || '\U{2028}' <= c <= '\U{2029}' || c == '\U{202F}'
    || c == '\U{205F}' || c == '\U{3000}'
  }

  function TrimLeft(s: string): string {
    if s != [] && IsSpace(s[0]) then TrimLeft(s[1..]) else s
  }

  function TrimRight(s: string): string {
    if s != [] && IsSpace(s[|s| - 1]) then TrimRight(s[..|s| - 1]) else s
  }

  function TrimSpace(s: string): string {
    TrimRight(TrimLeft(s))
  }

  lemma {:induction false} NothingToTrim(s: string)
    requires forall c | c in s :: !IsSpace(c)
    ensures TrimSpace(s) == s
  {
    assert s != [] ==> s[0] in s && s[|s| - 1] in s;
  }

  predicate IsAllSpace(s: string) {
    forall c | c in s :: IsSpace(c)
  }

  /** It takes off white space on both sides and nothing else. */
  lemma {:induction false} TrimTakesSpace(s: string) returns (before: string, after: string)
    ensures s == before + TrimSpace(s) + after && IsAllSpace(before) && IsAllSpace(after)
    decreases |s|
  {
    if s != [] && IsSpace(s[0]) {
      var front;
      front, after := TrimTakesSpace(s[1..]);
      before := [s[0]] + front;
      assert s == [s[0]] + s[1..];
    } else {
      before := "";
      after := TrimRightTakesSpace(s);
    }
  }

  lemma {:induction false} TrimRightTakesSpace(s: string) returns (after: string)
    ensures s == TrimRight(s) + after && IsAllSpace(after)
  {
    if s != [] && IsSpace(s[|s| - 1]) {
      var rest := TrimRightTakesSpace(s[..|s| - 1]);
      after := rest + [s[|s| - 1]];
      assert s == s[..|s| - 1] + [s[|s| - 1]];
    } else {
      after := "";
    }
  }

  lemma {:induction false} SpaceIsTrimmed(before: string, s: string, after: string)
    requires IsAllSpace(before) && IsAllSpace(after) && s != "" && !IsSpace(s[0]) && !IsSpace(s[|s| - 1])
    ensures TrimSpace(before + s + after) == s
    decreases |before|, |after|
  {
    var text := before + s + after;
    if before != "" {
      assert before[0] in before && forall c | c in before[1..] :: c in before;
      SpaceIsTrimmed(before[1..], s, after);
      assert text[1..] == before[1..] + s + after;
    } else if after != "" {
      assert text[0] == s[0] && TrimLeft(text) == text;
      assert after[|after| - 1] in after && forall c | c in after[..|after| - 1] :: c in after;
      SpaceIsTrimmed(before, s, after[..|after| - 1]);
      var shorter := before + s + after[..|after| - 1];
      assert text[..|text| - 1] == shorter && shorter[0] == s[0] && TrimLeft(shorter) == shorter;
    } else {
      assert text == s;
    }
  }

  /** Lexicographic order, which is what strings.Compare decides on. */
  predicate Before(a: string, b: string) {
    b != [] && (a == [] || a[0] < b[0] || (a[0] == b[0] && Before(a[1..], b[1..])))
  }

  lemma BeforeIsStrict(a: string, b: string)
    ensures Before(a, b) ==> !Before(b, a) && a != b
    ensures a == b || Before(a, b) || Before(b, a)
  {
    if a != [] && b != [] && a[0] == b[0] {
      BeforeIsStrict(a[1..], b[1..]);
      assert a == [a[0]] + a[1..] && b == [b[0]] + b[1..];
    }
  }

  lemma BeforeIsTransitive(a: string, b: string, c: string)
    requires Before(a, b) && Before(b, c)
    ensures Before(a, c)
  {
    if a != [] && a[0] == b[0] == c[0] {
      BeforeIsTransitive(a[1..], b[1..], c[1..]);
    }
  }

  predicate Ordered(s: seq<string>) {
    forall i, j | 0 <= i < j < |s| :: Before(s[i], s[j])
  }

  /** A strictly ordered sequence is the only one of its members. */
  lemma {:induction false} OrderedIsUnique(s: seq<string>, t: seq<string>)
    requires Ordered(s) && Ordered(t)
    requires forall x :: x in s <==> x in t
    ensures s == t
    decreases |s|
  {
    assert s != [] ==> s[0] in t;
    assert t != [] ==> t[0] in s;
    if s != [] {
      OrderedStartsLeast(s, t[0]);
      OrderedStartsLeast(t, s[0]);
      BeforeIsStrict(s[0], t[0]);
      forall x
        ensures x in s[1..] <==> x in t[1..]
      {
        OrderedTail(s, x);
        OrderedTail(t, x);
      }
      OrderedIsUnique(s[1..], t[1..]);
      assert s == [s[0]] + s[1..] && t == [t[0]] + t[1..];
    }
  }

  lemma OrderedStartsLeast(s: seq<string>, x: string)
    requires Ordered(s) && x in s
    ensures x == s[0] || Before(s[0], x)
  {
    var i :| 0 <= i < |s| && s[i] == x;
  }

  lemma OrderedTail(s: seq<string>, x: string)
    requires Ordered(s) && s != []
    ensures x in s[1..] <==> x in s && x != s[0]
  {
    assert s == [s[0]] + s[1..];
    assert x in s <==> x == s[0] || x in s[1..];
    if x in s[1..] {
      var i :| 0 <= i < |s[1..]| && s[1..][i] == x;
      assert Before(s[0], s[i + 1]);
      BeforeIsStrict(s[0], x);
    }
  }
}
