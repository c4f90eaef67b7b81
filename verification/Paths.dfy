/** path.Join and path.Clean, as far as forward slashes and dots go. */
module Paths {

  /** The parts of a path between its slashes, empty ones too. */
  function Split(s: string): (parts: seq<string>)
    ensures parts != [] && forall p | p in parts :: '/' !in p
  {
    if s == [] then [""]
    else
      var rest := Split(s[1..]);
      if s[0] == '/' then [""] + rest else [[s[0]] + rest[0]] + rest[1..]
  }

  function JoinParts(parts: seq<string>): string {
    if parts == [] then ""
    else if |parts| == 1 then parts[0]
    else parts[0] + "/" + JoinParts(parts[1..])
  }

  /** Where the parts lead: "." stays, ".." goes back, and at a root there is nothing to go back to. */
  function Walk(parts: seq<string>, rooted: bool, at: seq<string>): seq<string> {
    if parts == [] then at
    else if parts[0] == "" || parts[0] == "." then Walk(parts[1..], rooted, at)
    else if parts[0] == ".." then
      if at != [] && at[|at| - 1] != ".." then Walk(parts[1..], rooted, at[..|at| - 1])
      else if rooted then Walk(parts[1..], rooted, at)
      else Walk(parts[1..], rooted, at + [".."])
    else Walk(parts[1..], rooted, at + [parts[0]])
  }

  function Clean(path: string): string {
    var rooted := path != "" && path[0] == '/';
    var cleaned := (if rooted then "/" else "") + JoinParts(Walk(Split(path), rooted, []));
    if cleaned == "" then "." else cleaned
  }

  /** Empty elements are left out, and none at all is the empty path. */
  function Join(elements: seq<string>): string {
    var kept := NonEmpty(elements);
    if kept == [] then "" else Clean(JoinParts(kept))
  }

  function NonEmpty(elements: seq<string>): seq<string> {
    if elements == [] then []
    else if elements[0] == "" then NonEmpty(elements[1..])
    else [elements[0]] + NonEmpty(elements[1..])
  }

  /** A part that cleaning leaves where it is. */
  predicate IsPlain(part: string) {
    part != "" && part != "." && part != ".." && '/' !in part
  }

  lemma {:induction false} SplitJoins(parts: seq<string>)
    requires parts != [] && forall p | p in parts :: '/' !in p
    ensures Split(JoinParts(parts)) == parts
  {
    SplitPart(parts[0], if |parts| == 1 then "" else "/" + JoinParts(parts[1..]));
    if |parts| == 1 {
      assert parts[0] + "" == parts[0] && parts == [parts[0]];
    } else {
      SplitJoins(parts[1..]);
      var rest := "/" + JoinParts(parts[1..]);
      assert rest[1..] == JoinParts(parts[1..]);
      assert parts[0] + "/" + JoinParts(parts[1..]) == parts[0] + rest;
      assert Split(rest) == [""] + parts[1..];
      assert parts[0] + "" == parts[0] && [parts[0]] + parts[1..] == parts;
    }
  }

  lemma {:induction false} SplitPart(part: string, rest: string)
    requires '/' !in part
    ensures Split(part + rest) == [part + Split(rest)[0]] + Split(rest)[1..]
  {
    if part == "" {
      assert part + rest == rest && part + Split(rest)[0] == Split(rest)[0];
      assert [Split(rest)[0]] + Split(rest)[1..] == Split(rest);
    } else {
      assert part[0] in part;
      SplitPart(part[1..], rest);
      assert (part + rest)[1..] == part[1..] + rest;
      assert [part[0]] + (part[1..] + Split(rest)[0]) == part + Split(rest)[0];
    }
  }

  lemma {:induction false} PlainWalks(parts: seq<string>, rooted: bool, at: seq<string>)
    requires forall p | p in parts :: IsPlain(p)
    ensures Walk(parts, rooted, at) == at + parts
  {
    if parts == [] {
      assert at + parts == at;
    } else {
      assert parts[0] in parts;
      PlainWalks(parts[1..], rooted, at + [parts[0]]);
      assert at + [parts[0]] + parts[1..] == at + parts;
    }
  }

  /** Cleaning leaves a path of plain parts as it is. */
  lemma PlainIsClean(parts: seq<string>)
    requires parts != [] && forall p | p in parts :: IsPlain(p)
    ensures Clean(JoinParts(parts)) == JoinParts(parts)
    ensures Clean("/" + JoinParts(parts)) == "/" + JoinParts(parts)
  {
    var s := JoinParts(parts);
    assert parts[0] in parts && s[0] == parts[0][0] && parts[0][0] in parts[0];
    SplitJoins(parts);
    PlainWalks(parts, false, []);
    assert [] + parts == parts;
    assert ("/" + s)[1..] == s && Split("/" + s) == [""] + parts;
    assert ([""] + parts)[1..] == parts;
    PlainWalks(parts, true, []);
  }

  lemma {:induction false} JoinPartsAppends(a: seq<string>, b: seq<string>)
    requires a != [] && b != []
    ensures JoinParts(a + b) == JoinParts(a) + "/" + JoinParts(b)
  {
    if |a| == 1 {
      assert (a + b)[1..] == b;
    } else {
      JoinPartsAppends(a[1..], b);
      assert (a + b)[1..] == a[1..] + b;
    }
  }

  /** Cleaning puts no character into a path but a slash and a dot. */
  lemma CleanAddsNothing(path: string, c: char)
    requires c !in path && c != '/' && c != '.'
    ensures c !in Clean(path)
  {
    SplitAddsNothing(path, c);
    WalkAddsNothing(Split(path), path != "" && path[0] == '/', [], c);
    JoinAddsNothing(Walk(Split(path), path != "" && path[0] == '/', []), c);
  }

  lemma {:induction false} SplitAddsNothing(s: string, c: char)
    requires c !in s
    ensures forall p | p in Split(s) :: c !in p
  {
    if s != [] {
      assert s[0] in s;
      SplitAddsNothing(s[1..], c);
    }
  }

  lemma {:induction false} WalkAddsNothing(parts: seq<string>, rooted: bool, at: seq<string>, c: char)
    requires (forall p | p in parts + at :: c !in p) && c != '.'
    ensures forall p | p in Walk(parts, rooted, at) :: c !in p
  {
    if parts != [] {
      assert forall p | p in parts[1..] || p in at :: p in parts + at;
      assert parts[0] in parts + at;
      var next := if parts[0] == "" || parts[0] == "." then at
                  else if parts[0] == ".." then
                    if at != [] && at[|at| - 1] != ".." then at[..|at| - 1] else if rooted then at else at + [".."]
                  else at + [parts[0]];
      assert forall p | p in parts[1..] + next :: c !in p;
      WalkAddsNothing(parts[1..], rooted, next, c);
    }
  }

  lemma {:induction false} JoinAddsNothing(parts: seq<string>, c: char)
    requires c != '/' && forall p | p in parts :: c !in p
    ensures c !in JoinParts(parts)
  {
    if |parts| > 1 {
      JoinAddsNothing(parts[1..], c);
    } else if |parts| == 1 {
      assert parts[0] in parts;
    }
  }
}
